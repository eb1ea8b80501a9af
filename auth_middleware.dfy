/** The Express middleware that guards the API: `authenticate` reads a
    bearer token, checks it and attaches the active user to the request;
    `requireAdmin` lets only administrators through; `optionalAuth` attaches
    a user when it can and never rejects. Token verification is the
    `verify` parameter: it gives the decoded user id, or the name of the
    error the JWT library throws. */
module AuthMiddleware {
  import opened JsString
  import opened Store

  /** `req.user`: the columns the middleware selects. */
  datatype SessionUser = SessionUser(id: int, email: string, firstName: Option<string>, lastName: Option<string>,
                                     role: string, isActive: bool)

  function SessionOf(u: User): SessionUser {
    SessionUser(u.id, u.email, u.firstName, u.lastName, u.role, u.isActive)
  }

  /** What verifying a token gives. */
  datatype Verified = Decoded(userId: int) | Threw(name: string)

  /** The request as the middleware sees it: its Authorization header and
      the `user` field the middleware sets. */
  class Request {
    const authorization: Option<string>
    var user: Option<SessionUser>

    constructor(authorization: Option<string>)
      ensures this.authorization == authorization && user.None?
    {
      this.authorization := authorization;
      user := None;
    }
  }

  /** What `authenticate` does with the request: reply with an error, call
      `next()` with the user attached, or call `next(err)`. */
  datatype Decision = Reject(code: int, error: string) | Accept(user: SessionUser) | Forward(errorName: string)

  const TokenRequired := "Token de autenticaci\U{00F3}n requerido"
  const UserInactive := "Usuario no encontrado o inactivo"
  const InvalidToken := "Token inv\U{00E1}lido o expirado"
  const AdminRequired := "Acceso denegado: se requiere rol administrador"

  predicate IsBearer(header: Option<string>) {
    header.Some? && StartsWith(header.value, "Bearer ")
  }

  /** `header.split(" ")[1]`: the text after `Bearer ` up to the next space. */
  function Token(header: string): (t: string)
    requires StartsWith(header, "Bearer ")
    ensures t == Split(header[7..], ' ')[0]
  {
    assert header == "Bearer" + [' '] + header[7..];
    SplitAt("Bearer", header[7..], ' ');
    Split(header, ' ')[1]
  }

  /** A header of the form `Bearer <token>` carries exactly that token. */
  lemma TokenOfBearer(t: string)
    requires ' ' !in t
    ensures StartsWith("Bearer " + t, "Bearer ") && Token("Bearer " + t) == t
  {
    StartsWithConcat("Bearer ", t);
    assert ("Bearer " + t)[7..] == t;
    SplitNoSep(t, ' ');
  }

  /** The first user with id `uid` (the table's key). */
  function FindUser(users: seq<User>, uid: int): (r: Option<User>)
    ensures r.Some? ==> r.value in users && r.value.id == uid
    ensures r.None? ==> forall u :: u in users ==> u.id != uid
  {
    if users == [] then None
    else if users[0].id == uid then Some(users[0])
    else FindUser(users[1..], uid)
  }

  /** The decision of `authenticate`. */
  function Decide(header: Option<string>, users: seq<User>, verify: string -> Verified): Decision {
    if !IsBearer(header) then Reject(401, TokenRequired)
    else
      match verify(Token(header.value))
      case Threw(name) =>
        if name == "JsonWebTokenError" || name == "TokenExpiredError" then Reject(401, InvalidToken)
        else Forward(name)
      case Decoded(uid) =>
        var u := FindUser(users, uid);
        if u.None? || !u.value.isActive then Reject(401, UserInactive) else Accept(SessionOf(u.value))
  }

  /** A missing header, or one not starting with `Bearer `, is refused with
      401 before the token is looked at. */
  lemma NoBearerIsRejected(header: Option<string>, users: seq<User>, verify: string -> Verified)
    requires !IsBearer(header)
    ensures Decide(header, users, verify) == Reject(401, TokenRequired)
  {
  }

  /** The request goes through exactly when the header carries a token that
      verifies to the id of an existing, active user, and it goes through
      with that user. */
  lemma AcceptIff(header: Option<string>, users: seq<User>, verify: string -> Verified, u: SessionUser)
    ensures Decide(header, users, verify) == Accept(u) <==>
      IsBearer(header) && verify(Token(header.value)).Decoded?
      && FindUser(users, verify(Token(header.value)).userId).Some?
      && FindUser(users, verify(Token(header.value)).userId).value.isActive
      && u == SessionOf(FindUser(users, verify(Token(header.value)).userId).value)
  {
  }

  /** Of the errors verification throws, only the two token errors give 401;
      any other is handed to `next`. */
  lemma VerifyErrors(header: Option<string>, users: seq<User>, verify: string -> Verified)
    requires IsBearer(header) && verify(Token(header.value)).Threw?
    ensures var name := verify(Token(header.value)).name;
      (name == "JsonWebTokenError" || name == "TokenExpiredError" ==> Decide(header, users, verify) == Reject(401, InvalidToken))
      && (name != "JsonWebTokenError" && name != "TokenExpiredError" ==> Decide(header, users, verify) == Forward(name))
  {
  }

  /** `authenticate`: decides, and sets `req.user` only when the request goes
      through. */
  method Authenticate(req: Request, users: seq<User>, verify: string -> Verified) returns (d: Decision)
    modifies req`user
    ensures d == Decide(req.authorization, users, verify)
    ensures d.Accept? ==> req.user == Some(d.user)
    ensures !d.Accept? ==> req.user == old(req.user)
  {
    d := Decide(req.authorization, users, verify);
    if d.Accept? {
      req.user := Some(d.user);
    }
  }

  /** What `requireAdmin` does. */
  datatype Gate = Deny(code: int, error: string) | Pass

  /** `requireAdmin`: 403 unless `req.user` is an administrator. */
  function RequireAdmin(user: Option<SessionUser>): (g: Gate)
    ensures g.Deny? ==> g == Deny(403, AdminRequired)
    ensures g.Pass? <==> user.Some? && user.value.role == "admin"
  {
    if user.None? || user.value.role != "admin" then Deny(403, AdminRequired) else Pass
  }

  /** After `authenticate`, the admin gate passes exactly for an active user
      whose role is `admin`, and never for a request `authenticate` refused. */
  lemma AdminGateAfterAuthenticate(header: Option<string>, users: seq<User>, verify: string -> Verified)
    ensures var d := Decide(header, users, verify);
      d.Accept? ==> (RequireAdmin(Some(d.user)).Pass? <==> d.user.role == "admin" && d.user.isActive)
    ensures RequireAdmin(None) == Deny(403, AdminRequired)
  {
  }

  /** The user `optionalAuth` attaches: the one `authenticate` would accept,
      and none in every other case, including errors. */
  function OptionalUser(header: Option<string>, users: seq<User>, verify: string -> Verified): Option<SessionUser> {
    var d := Decide(header, users, verify);
    if d.Accept? then Some(d.user) else None
  }

  /** `optionalAuth` attaches a user exactly when `authenticate` would let the
      request through with that user. */
  lemma OptionalAgreesWithAuthenticate(header: Option<string>, users: seq<User>, verify: string -> Verified, u: SessionUser)
    ensures OptionalUser(header, users, verify) == Some(u) <==> Decide(header, users, verify) == Accept(u)
    ensures !IsBearer(header) ==> OptionalUser(header, users, verify).None?
  {
  }

  /** `optionalAuth`: never refuses; always sets `req.user`. */
  method OptionalAuth(req: Request, users: seq<User>, verify: string -> Verified)
    modifies req`user
    ensures req.user == OptionalUser(req.authorization, users, verify)
  {
    if !IsBearer(req.authorization) {
      req.user := None;
      return;
    }
    match verify(Token(req.authorization.value))
    case Threw(_) =>
      req.user := None;
    case Decoded(uid) =>
      var u := FindUser(users, uid);
      req.user := if u.Some? && u.value.isActive then Some(SessionOf(u.value)) else None;
  }
}
