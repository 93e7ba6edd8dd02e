/**
 * The two route guards, as total decisions over the session, and the
 * navigations the views perform.
 */
module Guards {
  import opened Options
  import opened Session

  /** The router location a guard sees; only its path matters here. */
  datatype Location = Location(pathname: string)

  /** What a guard renders: its children, or a `<Navigate>` with its `replace` flag and `state.from`. */
  datatype Decision = Render | Redirect(to: string, replace: bool, from: Option<Location>)

  /** What a view does once a backend call it made settles. */
  datatype Navigation = Navigate(path: string, replace: bool) | ShowError(message: string)

  /**
   * `Protected`: sign-in first, then the role. `role` is the required role,
   * "" when the route requires none.
   */
  function Protected(user: Option<User>, role: string, location: Location): (d: Decision)
    ensures user.None? ==> d == Redirect("/login", true, Some(location))
    ensures user.Some? && role != "" && RoleOf(user) != role ==> d == Redirect("/", true, None)
    ensures d == Render <==> user.Some? && (role == "" || RoleOf(user) == role)
  {
    if user.None? then Redirect("/login", true, Some(location))
    else if role != "" && RoleOf(user) != role then Redirect("/", true, None)
    else Render
  }

  /** `Guest`: pages for signed-out visitors only. */
  function Guest(user: Option<User>): (d: Decision)
    ensures user.Some? ==> d == Redirect("/", true, None)
    ensures d == Render <==> user.None?
  {
    if user.Some? then Redirect("/", true, None) else Render
  }

  /** Without a user, the required role never matters. */
  lemma SignInCheckedFirst(role1: string, role2: string, location: Location)
    ensures Protected(None, role1, location) == Protected(None, role2, location)
    ensures Protected(None, role1, location).to == "/login"
  {
  }

  /** `Guest` looks only at whether someone is signed in, not at who. */
  lemma GuestIgnoresRole(u1: Option<User>, u2: Option<User>)
    requires u1.Some? == u2.Some?
    ensures Guest(u1) == Guest(u2)
  {
  }

  /** For every session exactly one of `Guest` and a role-free `Protected` renders its children. */
  lemma GuardsPartitionSessions(user: Option<User>, location: Location)
    ensures (Guest(user) == Render) != (Protected(user, "", location) == Render)
  {
  }
}
