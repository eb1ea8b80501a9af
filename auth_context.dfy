/** The frontend's session state (`AuthContext.tsx`): the current user, the
    token, the loading flag and the browser's `localStorage`, changed by
    `refreshUser`, `login`, `register` and `logout`. The server's replies
    are parameters of the methods. */
module AuthContext {
  import opened JsString
  import opened Store

  /** The `User` the context holds. */
  datatype ClientUser = ClientUser(id: int, email: string, firstName: Option<string>, lastName: Option<string>,
                                   phone: Option<string>, role: string)

  const TokenKey := "bb_discos_token"
  const LoginFailed := "Error al iniciar sesi\U{00F3}n"
  const RegisterFailed := "Error al registrarse"

  /** `localStorage.getItem(TOKEN_KEY)`. */
  function StoredToken(storage: map<string, string>): (t: Option<string>)
    ensures t.Some? <==> TokenKey in storage
    ensures t.Some? ==> t.value == storage[TokenKey]
  {
    if TokenKey in storage then Some(storage[TokenKey]) else None
  }

  /** The reply to `GET /auth/me`: the request failed, or a response with
      its `ok` flag and the body's `user` field. */
  datatype MeReply = MeUnreachable | MeAnswer(ok: bool, user: Option<ClientUser>)

  /** The reply to a login or registration: the request failed, or a
      response; a successful one carries the token and the user, a failed
      one its `error` text. */
  datatype AuthReply = AuthUnreachable | AuthOk(token: string, user: Option<ClientUser>) | AuthRefused(error: Option<string>)

  /** Why `login` or `register` throws: no response, or the server's error
      text (or the fallback). */
  datatype AuthError = Network | Refused(message: string)

  /** `data.error || fallback`. */
  function ErrorText(error: Option<string>, fallback: string): (m: string)
    ensures m == (if error.Some? && error.value != [] then error.value else fallback)
  {
    if error.Some? then Or(error.value, fallback) else fallback
  }

  class AuthProvider {
    var user: Option<ClientUser>
    var token: Option<string>
    var isLoading: bool
    var storage: map<string, string>

    /** The token in state is the one in `localStorage`. */
    predicate Synced()
      reads this
    {
      token == StoredToken(storage)
    }

    /** The provider mounts with no user, loading, and the stored token. */
    constructor(storage: map<string, string>)
      ensures this.storage == storage && token == StoredToken(storage) && user.None? && isLoading
      ensures Synced()
    {
      this.storage := storage;
      token := StoredToken(storage);
      user := None;
      isLoading := true;
    }

    /** `isAuthenticated`: there is a user. */
    function IsAuthenticated(): (b: bool)
      reads this
      ensures b <==> user.Some?
    {
      user.Some?
    }

    /** `isAdmin`: the user's role is `admin`; never without a user. */
    function IsAdmin(): (b: bool)
      reads this
      ensures b ==> IsAuthenticated()
      ensures b <==> user.Some? && user.value.role == "admin"
    {
      user.Some? && user.value.role == "admin"
    }

    /** `refreshUser`: without a stored token (or with an empty one) there is
        no user; a refused token is forgotten everywhere; a failed request
        clears only the user. Loading ends on every path. */
    method RefreshUser(reply: MeReply)
      modifies this
      ensures !isLoading
      ensures var saved := StoredToken(old(storage));
        && (saved.None? || saved.value == [] ==>
              user.None? && token == old(token) && storage == old(storage))
        && (saved.Some? && saved.value != [] && reply.MeAnswer? && reply.ok ==>
              user == reply.user && token == old(token) && storage == old(storage))
        && (saved.Some? && saved.value != [] && reply.MeAnswer? && !reply.ok ==>
              user.None? && token.None? && storage == old(storage) - {TokenKey})
        && (saved.Some? && saved.value != [] && reply.MeUnreachable? ==>
              user.None? && token == old(token) && storage == old(storage))
      ensures old(Synced()) ==> Synced()
    {
      var saved := StoredToken(storage);
      if saved.None? || saved.value == [] {
        user := None;
        isLoading := false;
        return;
      }
      match reply {
        case MeAnswer(ok, u) =>
          if ok {
            user := u;
          } else {
            storage := storage - {TokenKey};
            token := None;
            user := None;
          }
        case MeUnreachable =>
          user := None;
      }
      isLoading := false;
    }

    /** The shared body of `login` and `register`: on success the token is
        stored and kept and the user set; on failure nothing changes and the
        call throws. */
    method SignIn(reply: AuthReply, fallback: string) returns (err: Option<AuthError>)
      modifies this
      ensures reply.AuthOk? ==>
        && err.None? && storage == old(storage)[TokenKey := reply.token] && token == Some(reply.token)
        && user == reply.user && isLoading == old(isLoading)
      ensures !reply.AuthOk? ==> unchanged(this)
      ensures reply.AuthUnreachable? ==> err == Some(Network)
      ensures reply.AuthRefused? ==> err == Some(Refused(ErrorText(reply.error, fallback)))
      ensures old(Synced()) ==> Synced()
    {
      match reply
      case AuthUnreachable =>
        err := Some(Network);
      case AuthRefused(e) =>
        err := Some(Refused(ErrorText(e, fallback)));
      case AuthOk(t, u) =>
        storage := storage[TokenKey := t];
        token := Some(t);
        user := u;
        err := None;
    }

    /** `login`. */
    method Login(reply: AuthReply) returns (err: Option<AuthError>)
      modifies this
      ensures reply.AuthOk? ==>
        && err.None? && storage == old(storage)[TokenKey := reply.token] && token == Some(reply.token)
        && user == reply.user && isLoading == old(isLoading)
      ensures reply.AuthOk? ==> StoredToken(storage) == Some(reply.token)
      ensures !reply.AuthOk? ==> unchanged(this)
      ensures reply.AuthUnreachable? ==> err == Some(Network)
      ensures reply.AuthRefused? ==> err == Some(Refused(ErrorText(reply.error, LoginFailed)))
      ensures old(Synced()) ==> Synced()
    {
      err := SignIn(reply, LoginFailed);
    }

    /** `register`. */
    method Register(reply: AuthReply) returns (err: Option<AuthError>)
      modifies this
      ensures reply.AuthOk? ==>
        && err.None? && storage == old(storage)[TokenKey := reply.token] && token == Some(reply.token)
        && user == reply.user && isLoading == old(isLoading)
      ensures reply.AuthOk? ==> StoredToken(storage) == Some(reply.token)
      ensures !reply.AuthOk? ==> unchanged(this)
      ensures reply.AuthUnreachable? ==> err == Some(Network)
      ensures reply.AuthRefused? ==> err == Some(Refused(ErrorText(reply.error, RegisterFailed)))
      ensures old(Synced()) ==> Synced()
    {
      err := SignIn(reply, RegisterFailed);
    }

    /** `logout`: the token leaves storage and state, and the user goes. */
    method Logout()
      modifies this
      ensures storage == old(storage) - {TokenKey} && token.None? && user.None? && isLoading == old(isLoading)
      ensures Synced() && !IsAuthenticated() && !IsAdmin()
    {
      storage := storage - {TokenKey};
      token := None;
      user := None;
    }
  }
}
