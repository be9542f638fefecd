/** Records, enumerations and the persistent store of server/models/index.js.
    The store is an in-memory pair of tables; ids are handed out by
    auto-increment counters and never reused. */
module Models {

  datatype Option<+T> = None | Some(value: T)

  /** User.role: ENUM('customer', 'employee'), default 'customer'. */
  datatype Role = Customer | Employee

  /** Payment.status: ENUM('pending', 'verified', 'submitted'), default 'pending'. */
  datatype Status = Pending | Verified | Submitted

  const DefaultStatus: Status := Pending

  /** The string the store and the JSON responses use for a status. */
  function StatusName(s: Status): string
  {
    match s
    case Pending => "pending"
    case Verified => "verified"
    case Submitted => "submitted"
  }

  /** Position of a status along the lifecycle pending -> verified -> submitted. */
  function Rank(s: Status): nat
  {
    match s
    case Pending => 0
    case Verified => 1
    case Submitted => 2
  }

  lemma StatusNameInjective(s: Status, t: Status)
    ensures StatusName(s) == StatusName(t) <==> s == t
  {
  }

  /** A row of the Users table; `id` is its primary key. */
  datatype User = User(
    id: int,
    fullName: string,
    idNumber: string,
    accountNumber: string,
    username: string,
    passwordHash: string,
    role: Role)

  /** A row of the Payments table. `customerId` is the foreign key of
      Payment.belongsTo(User); timestamps are clock readings. */
  datatype Payment = Payment(
    id: int,
    customerId: int,
    amount: real,
    currency: string,
    provider: string,
    payeeAccount: string,
    swiftCode: string,
    status: Status,
    verifiedBy: Option<int>,
    submittedAt: Option<int>,
    createdAt: int,
    updatedAt: int)

  /** The nullable columns follow the status: `verifiedBy` is set exactly
      past `pending`, `submittedAt` exactly at `submitted`. */
  predicate Consistent(p: Payment)
  {
    && (p.verifiedBy.Some? <==> p.status in {Verified, Submitted})
    && (p.submittedAt.Some? <==> p.status == Submitted)
  }

  /** The record Payment.create stores: the given columns, the column
      defaults for the rest, both timestamps set to `now`. */
  function NewPayment(id: int, customerId: int, amount: real, currency: string, provider: string,
                      payeeAccount: string, swiftCode: string, now: int): (p: Payment)
    ensures p.id == id && p.customerId == customerId
    ensures p.status == DefaultStatus && p.verifiedBy.None? && p.submittedAt.None?
    ensures Consistent(p)
  {
    Payment(id, customerId, amount, currency, provider, payeeAccount, swiftCode,
            DefaultStatus, None, None, now, now)
  }

  /** The three UNIQUE columns of Users hold pairwise different values. */
  ghost predicate UniqueUsers(users: map<int, User>)
  {
    forall a, b :: a in users && b in users && a != b ==>
      && users[a].idNumber != users[b].idNumber
      && users[a].accountNumber != users[b].accountNumber
      && users[a].username != users[b].username
  }

  /** The constraints the database itself keeps: primary keys below the
      auto-increment counters and equal to the rows' ids, the UNIQUE columns
      of Users, and the foreign key from every payment to an existing user. */
  ghost predicate WellFormed(users: map<int, User>, payments: map<int, Payment>, nextUserId: int, nextPaymentId: int)
  {
    && 1 <= nextUserId && 1 <= nextPaymentId
    && (forall id :: id in users ==> 1 <= id < nextUserId && users[id].id == id)
    && (forall id :: id in payments ==> 1 <= id < nextPaymentId && payments[id].id == id)
    && (forall id :: id in payments ==> payments[id].customerId in users)
    && UniqueUsers(users)
  }

  /** The payments table and its id counter, as seen between two requests. */
  datatype Ledger = Ledger(payments: map<int, Payment>, nextId: int)

  class Store {
    var users: map<int, User>
    var payments: map<int, Payment>
    var nextUserId: int
    var nextPaymentId: int

    /** The database constraints hold of the current tables. */
    ghost predicate Valid()
      reads this
    {
      WellFormed(users, payments, nextUserId, nextPaymentId)
    }

    function Snapshot(): Ledger
      reads this
    {
      Ledger(payments, nextPaymentId)
    }

    constructor ()
      ensures Valid()
      ensures users == map[] && payments == map[]
      ensures nextUserId == 1 && nextPaymentId == 1
    {
      users := map[];
      payments := map[];
      nextUserId := 1;
      nextPaymentId := 1;
    }
  }
}
