/**
 * The three route wrappers of frontend/src/components/common/RouteGuards.jsx:
 * each either renders its children or redirects, replacing the history entry.
 */
module RouteGuards {
  import opened Common
  import opened AuthContext

  /** The path the user tried to open. */
  type Location = string

  /**
   * A guard's decision: render the children, or `<Navigate replace>` to a
   * path, carrying the attempted location in `state.from` when it is set.
   */
  datatype Decision = RenderChildren | Redirect(to: string, from: Option<Location>)

  /** `ProtectedRoute`: signed-in users only. */
  function ProtectedRoute(user: Option<User>, location: Location): (d: Decision)
    ensures d.RenderChildren? <==> user.Some?
    ensures user.None? ==> d == Redirect("/login", Some(location))
  {
    if user.None? then Redirect("/login", Some(location)) else RenderChildren
  }

  /** `AdminRoute`: sign-in is checked before the role. */
  function AdminRoute(user: Option<User>, location: Location): (d: Decision)
    ensures d.RenderChildren? <==> IsAdmin(user)
    ensures user.None? ==> d == Redirect("/login", Some(location))
    ensures user.Some? && !IsAdmin(user) ==> d == Redirect("/", None)
  {
    if user.None? then Redirect("/login", Some(location))
    else if !IsAdmin(user) then Redirect("/", None)
    else RenderChildren
  }

  /** `GuestRoute`: signed-out visitors only (login and register pages). */
  function GuestRoute(user: Option<User>): (d: Decision)
    ensures d.RenderChildren? <==> user.None?
    ensures user.Some? ==> d == Redirect("/", None)
  {
    if user.Some? then Redirect("/", None) else RenderChildren
  }

  /**
   * Every page an admin route shows is also open to a protected route, and
   * for any visitor exactly one of a guest route and a protected route renders.
   */
  lemma GuardsAreConsistent(user: Option<User>, location: Location)
    ensures AdminRoute(user, location).RenderChildren? ==> ProtectedRoute(user, location).RenderChildren?
    ensures GuestRoute(user).RenderChildren? != ProtectedRoute(user, location).RenderChildren?
    ensures AdminRoute(user, location).Redirect? && AdminRoute(user, location).to == "/login" <==>
              ProtectedRoute(user, location).Redirect?
  {
  }
}
