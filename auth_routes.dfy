/** Registration, login and the `/me` lookup of server/routes/auth.js.
    Password hashing, hash comparison and token signing are library calls:
    the hash a registration stores and the comparison a login makes are
    parameters, and a login's token is represented by the claims it signs. */
module AuthRoutes {
  import opened Models
  import opened Validation
  import opened Middleware

  const UserExistsMessage: string := "User/account exists"
  const InvalidCredentialsMessage: string := "Invalid credentials"

  datatype RegisterOutcome = Registered | Rejected(errors: seq<FieldError>) | Exists

  function RegisterStatus(o: RegisterOutcome): int
  {
    match o
    case Registered => 201
    case Rejected(_) => 400
    case Exists => 409
  }

  /** Some stored user already has the username, the account number or the
      ID number (the `findOne` with `Op.or` over the three columns). */
  predicate Clashes(users: map<int, User>, f: RegisterFields)
  {
    exists id :: id in users &&
      (users[id].username == f.username || users[id].accountNumber == f.accountNumber ||
       users[id].idNumber == f.idNumber)
  }

  /** POST /register: a request failing a check is answered 400 with every
      failure; one clashing with a stored user is answered 409; otherwise
      exactly one user is added, always as a customer, and the three unique
      columns stay unique. The payments are untouched throughout. */
  method Register(db: Store, f: RegisterFields, passwordHash: string) returns (r: RegisterOutcome)
    requires db.Valid()
    modifies db
    ensures db.Valid()
    ensures db.payments == old(db.payments) && db.nextPaymentId == old(db.nextPaymentId)
    ensures !RegisterFieldsValid(f) ==> r == Rejected(RegisterErrors(f)) && unchanged(db)
    ensures RegisterFieldsValid(f) && Clashes(old(db.users), f) ==> r == Exists && unchanged(db)
    ensures RegisterFieldsValid(f) && !Clashes(old(db.users), f) ==>
      var u := User(old(db.nextUserId), f.fullName, f.idNumber, f.accountNumber, f.username, passwordHash, Customer);
      && r == Registered
      && u.id !in old(db.users)
      && db.users == old(db.users)[u.id := u]
      && db.nextUserId == old(db.nextUserId) + 1
  {
    var errors := RegisterErrors(f);
    if errors != [] {
      return Rejected(errors);
    }
    if Clashes(db.users, f) {
      return Exists;
    }
    var u := User(db.nextUserId, f.fullName, f.idNumber, f.accountNumber, f.username, passwordHash, Customer);
    db.users := db.users[u.id := u];
    db.nextUserId := db.nextUserId + 1;
    r := Registered;
  }

  /** A login either issues a token carrying `{ id, role }` or is refused
      with the one answer used for every failure. */
  datatype LoginOutcome = LoggedIn(claims: Identity) | InvalidCredentials

  function LoginStatus(o: LoginOutcome): (int, string)
  {
    match o
    case LoggedIn(_) => (200, "Logged in")
    case InvalidCredentials => (401, InvalidCredentialsMessage)
  }

  /** POST /login: succeeds exactly when a stored user has the username and
      `compare` accepts the password against its hash; the token then
      carries that user's id and role. An unknown username and a wrong
      password get the same answer. */
  method Login(db: Store, username: string, password: string, compare: (string, string) -> bool)
    returns (r: LoginOutcome)
    requires db.Valid()
    ensures r.LoggedIn? <==>
      (exists id :: id in db.users && db.users[id].username == username &&
                    compare(password, db.users[id].passwordHash))
    ensures r.LoggedIn? ==>
      (exists id :: id in db.users && db.users[id].username == username &&
                    r.claims == Identity(id, db.users[id].role))
  {
    if id :| id in db.users && db.users[id].username == username {
      var u := db.users[id];
      if compare(password, u.passwordHash) {
        r := LoggedIn(Identity(u.id, u.role));
      } else {
        r := InvalidCredentials;
      }
    } else {
      r := InvalidCredentials;
    }
  }

  /** Registering the same details twice: the first request adds the user
      (201), the second clashes with that user (409). */
  method RegisterTwice(db: Store, f: RegisterFields, hash1: string, hash2: string)
    returns (first: RegisterOutcome, second: RegisterOutcome)
    requires db.Valid() && RegisterFieldsValid(f) && !Clashes(db.users, f)
    modifies db
    ensures RegisterStatus(first) == 201 && RegisterStatus(second) == 409
  {
    var id := db.nextUserId;
    first := Register(db, f, hash1);
    assert id in db.users && db.users[id].username == f.username;
    second := Register(db, f, hash2);
  }

  /** A user who has just registered logs in with the password whose hash
      was stored, and the token names that new user as a customer. */
  method RegisterThenLogin(db: Store, f: RegisterFields, passwordHash: string, compare: (string, string) -> bool)
    returns (registered: RegisterOutcome, login: LoginOutcome)
    requires db.Valid() && RegisterFieldsValid(f) && !Clashes(db.users, f)
    requires compare(f.password, passwordHash)
    modifies db
    ensures RegisterStatus(registered) == 201
    ensures LoginStatus(login) == (200, "Logged in")
    ensures login.LoggedIn? && login.claims == Identity(old(db.nextUserId), Customer)
  {
    var id := db.nextUserId;
    registered := Register(db, f, passwordHash);
    assert id in db.users && db.users[id].username == f.username;
    login := Login(db, f.username, f.password, compare);
  }

  /** The columns `/me` reports. */
  datatype UserView = UserView(id: int, username: string, role: Role, fullName: string)

  /** GET /me: the stored user the token names, or `None` when the cookie
      is absent, the token does not verify or names no stored user. */
  function Me(db: Store, cookie: Option<string>, verify: string -> Option<Identity>): (r: Option<UserView>)
    reads db
    ensures r.None? <==>
      !HasToken(cookie) || verify(cookie.value).None? || verify(cookie.value).value.id !in db.users
    ensures r.Some? ==>
      var u := db.users[verify(cookie.value).value.id];
      r.value == UserView(u.id, u.username, u.role, u.fullName)
  {
    if !HasToken(cookie) then None
    else match verify(cookie.value)
      case None => None
      case Some(claims) =>
        if claims.id in db.users then
          var u := db.users[claims.id];
          Some(UserView(u.id, u.username, u.role, u.fullName))
        else None
  }
}
