/**
 * The authentication provider: the state cells `user`, `accessToken`,
 * `refreshToken` and `loading`, changed by the startup probe, `login`,
 * `register` and `logout`, and the derived `role`. Each backend call's
 * outcome is a parameter.
 */
module Session {
  import opened Options

  /** The user record the backend returns; `role` is "" when it has none. */
  datatype User = User(name: string, email: string, role: string)

  /** What a backend call settles with: the body's `user` (possibly absent), or an error body's `message`. */
  datatype Reply = Ok(user: Option<User>) | Err(message: Option<string>)

  /** What `login` and `register` hand back to the form. */
  datatype AuthResult = Succeeded | Failed(message: string)

  /** The access-token marker: the real credential lives in a cookie. */
  const CookieMarker := "cookie"
  const LoginFallback := "Login failed"
  const RegisterFallback := "Register failed"

  /** `user?.role || "guest"`. */
  function RoleOf(user: Option<User>): (role: string)
    ensures role != ""
    ensures user.Some? && user.value.role != "" ==> role == user.value.role
    ensures user.None? || user.value.role == "" ==> role == "guest"
  {
    if user.Some? && user.value.role != "" then user.value.role else "guest"
  }

  /** The result `login`/`register` report for a backend reply, with the call's fallback text. */
  function Outcome(reply: Reply, fallback: string): (r: AuthResult)
    requires fallback != ""
    ensures r.Succeeded? <==> reply.Ok?
    ensures reply.Err? ==> r == Failed(OrFallback(reply.message, fallback)) && r.message != ""
  {
    match reply
    case Ok(_) => Succeeded
    case Err(message) => Failed(OrFallback(message, fallback))
  }

  class AuthProvider {
    var user: Option<User>
    var accessToken: Option<string>
    var refreshToken: Option<string>
    var loading: bool

    /** No operation here sets a refresh token, and the access token is only ever the marker. */
    ghost predicate Valid()
      reads this
    {
      refreshToken.None? && (accessToken.Some? ==> accessToken.value == CookieMarker)
    }

    function Role(): (role: string)
      reads this
      ensures role != ""
      ensures user.Some? && user.value.role != "" ==> role == user.value.role
      ensures user.None? || user.value.role == "" ==> role == "guest"
    {
      RoleOf(user)
    }

    constructor ()
      ensures Valid()
      ensures user.None? && accessToken.None? && refreshToken.None? && !loading
    {
      user, accessToken, refreshToken, loading := None, None, None, false;
    }

    /** The startup `GET /auth/me`: adopt its user on success; a failure is swallowed. */
    method Probe(reply: Reply)
      requires Valid()
      modifies this
      ensures Valid()
      ensures reply.Ok? ==> user == reply.user && accessToken == Some(CookieMarker)
      ensures reply.Ok? ==> refreshToken == old(refreshToken) && loading == old(loading)
      ensures reply.Err? ==> unchanged(this)
    {
      if reply.Ok? {
        user := reply.user;
        accessToken := Some(CookieMarker);
      }
    }

    /** `login`: loading while the call is out, then the reply's user or the failure message. */
    method Login(reply: Reply) returns (result: AuthResult)
      requires Valid()
      modifies this
      ensures Valid() && !loading && refreshToken == old(refreshToken)
      ensures result == Outcome(reply, LoginFallback)
      ensures reply.Ok? ==> user == reply.user && accessToken == Some(CookieMarker)
      ensures reply.Err? ==> user == old(user) && accessToken == old(accessToken)
    {
      loading := true;
      match reply {
        case Ok(u) =>
          user := u;
          accessToken := Some(CookieMarker);
          result := Succeeded;
        case Err(message) =>
          result := Failed(OrFallback(message, LoginFallback));
      }
      loading := false;
    }

    /** `register`: the same transitions as `login`, with its own fallback message. */
    method Register(reply: Reply) returns (result: AuthResult)
      requires Valid()
      modifies this
      ensures Valid() && !loading && refreshToken == old(refreshToken)
      ensures result == Outcome(reply, RegisterFallback)
      ensures reply.Ok? ==> user == reply.user && accessToken == Some(CookieMarker)
      ensures reply.Err? ==> user == old(user) && accessToken == old(accessToken)
    {
      loading := true;
      match reply {
        case Ok(u) =>
          user := u;
          accessToken := Some(CookieMarker);
          result := Succeeded;
        case Err(message) =>
          result := Failed(OrFallback(message, RegisterFallback));
      }
      loading := false;
    }

    /** `logout`: the backend call's failure is swallowed; the session is cleared either way. */
    method Logout(backendCallFailed: bool)
      requires Valid()
      modifies this
      ensures Valid()
      ensures user.None? && accessToken.None? && refreshToken.None?
      ensures loading == old(loading)
    {
      user := None;
      accessToken := None;
      refreshToken := None;
    }
  }
}
