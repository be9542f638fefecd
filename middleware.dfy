/** The two request guards of server/middleware/auth.js.
    Token verification (a signed, expiring token checked against a server
    secret) is a parameter: `verify` maps a token to the claims it carries,
    or to `None` when it does not verify. */
module Middleware {
  import opened Models

  /** The claims a verified token carries, `{ id, role }`. */
  datatype Identity = Identity(id: int, role: Role)

  /** What a guard does with a request: hand it on to the next handler with
      the caller's identity, or answer it itself with a status and an error. */
  datatype Gate = Proceed(user: Identity) | Reject(code: int, message: string)

  const UnauthorizedMessage: string := "Unauthorized"
  const InvalidTokenMessage: string := "Invalid token"
  const ForbiddenMessage: string := "Forbidden"

  /** The `token` cookie is there and is not the empty string. */
  predicate HasToken(cookie: Option<string>)
  {
    cookie.Some? && cookie.value != ""
  }

  /** authenticateToken's decision. */
  function Authenticate(cookie: Option<string>, verify: string -> Option<Identity>): (g: Gate)
    ensures g == Reject(401, UnauthorizedMessage) <==> !HasToken(cookie)
    ensures g == Reject(401, InvalidTokenMessage) <==> HasToken(cookie) && verify(cookie.value).None?
    ensures g.Proceed? <==> HasToken(cookie) && verify(cookie.value).Some?
    ensures g.Proceed? ==> g.user == verify(cookie.value).value
  {
    if !HasToken(cookie) then Reject(401, UnauthorizedMessage)
    else match verify(cookie.value)
      case None => Reject(401, InvalidTokenMessage)
      case Some(claims) => Proceed(claims)
  }

  /** authorizeRole(required)'s decision over `req.user`: a missing identity
      is checked before the role. */
  function AuthorizeRole(user: Option<Identity>, required: Role): (g: Gate)
    ensures user.None? ==> g == Reject(401, UnauthorizedMessage)
    ensures user.Some? && user.value.role != required ==> g == Reject(403, ForbiddenMessage)
    ensures g.Proceed? <==> user.Some? && user.value.role == required
    ensures g.Proceed? ==> g.user == user.value
  {
    if user.None? then Reject(401, UnauthorizedMessage)
    else if user.value.role != required then Reject(403, ForbiddenMessage)
    else Proceed(user.value)
  }

  /** authenticateToken followed by authorizeRole(required), as the staff
      routes chain them. */
  function Guard(cookie: Option<string>, verify: string -> Option<Identity>, required: Role): Gate
  {
    match Authenticate(cookie, verify)
    case Reject(code, message) => Reject(code, message)
    case Proceed(user) => AuthorizeRole(Some(user), required)
  }

  /** The chained guards let a request through exactly when its token
      verifies and names the required role; a verified token with another
      role is answered 403, never 401. */
  lemma GuardAdmitsOnlyRole(cookie: Option<string>, verify: string -> Option<Identity>, required: Role)
    ensures Guard(cookie, verify, required).Proceed? <==>
      HasToken(cookie) && verify(cookie.value).Some? && verify(cookie.value).value.role == required
    ensures Guard(cookie, verify, required).Proceed? ==>
      Guard(cookie, verify, required).user == verify(cookie.value).value
    ensures HasToken(cookie) && verify(cookie.value).Some? && verify(cookie.value).value.role != required ==>
      Guard(cookie, verify, required) == Reject(403, ForbiddenMessage)
    ensures Guard(cookie, verify, required).Reject? && Guard(cookie, verify, required).code == 401 <==>
      Authenticate(cookie, verify).Reject?
  {
  }

  /** The part of an incoming request the guards read and write. */
  class Request {
    /** `req.cookies.token` */
    const token: Option<string>
    /** `req.user`, set by authenticateToken */
    var user: Option<Identity>

    constructor (token: Option<string>)
      ensures this.token == token && user.None?
    {
      this.token := token;
      user := None;
    }
  }

  /** authenticateToken: on a verified token, stores its claims in
      `req.user` and hands on (calls `next` once); otherwise answers 401 and
      leaves the request as it was. */
  method AuthenticateToken(req: Request, verify: string -> Option<Identity>) returns (g: Gate)
    modifies req`user
    ensures g == Authenticate(req.token, verify)
    ensures g.Proceed? ==> req.user == Some(g.user)
    ensures g.Reject? ==> req.user == old(req.user)
  {
    if !HasToken(req.token) {
      return Reject(401, UnauthorizedMessage);
    }
    var claims := verify(req.token.value);
    if claims.None? {
      return Reject(401, InvalidTokenMessage);
    }
    req.user := claims;
    g := Proceed(claims.value);
  }
}
