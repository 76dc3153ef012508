/** The route guard in front of the dashboard. */
module Routing {
  import opened Wrappers
  import Auth

  /** What the guard renders: a redirect (`<Navigate replace>`) or the children as they are. */
  datatype RouteOutcome<C> = Redirect(to: string, replace: bool) | Render(children: C)

  /** `PrivateRoute`: without a stored user holding a non-empty token, go to the login page. */
  function Guard<C>(user: Option<Auth.LoginResponse>, children: C): (r: RouteOutcome<C>)
    ensures r.Render? <==> user.Some? && user.value.token != ""
    ensures r.Render? ==> r.children == children
    ensures r.Redirect? ==> r.to == "/login" && r.replace
  {
    if user.None? || user.value.token == "" then Redirect("/login", true) else Render(children)
  }

  /** The guard lets a user through exactly when requests would carry an Authorization header. */
  lemma GuardAgreesWithAuthHeader<C>(user: Option<Auth.LoginResponse>, children: C)
    ensures Guard(user, children).Render? <==> Auth.AuthHeaderOf(user) != map[]
  {
  }

  /**
   * `isAdmin` does not look at the token: a stored administrator without a
   * token still counts as one, while the guard turns it away and its
   * requests carry no header.
   */
  lemma AdminRoleIgnoresToken<C>(u: Auth.LoginResponse, children: C)
    requires u.role == "Admin" && u.token == ""
    ensures Auth.IsAdminUser(Some(u))
    ensures Guard(Some(u), children) == Redirect("/login", true)
    ensures Auth.AuthHeaderOf(Some(u)) == map[]
  {
  }

  /** After `logout` the guard redirects. */
  lemma LoggedOutRedirects<C>(children: C)
    ensures Guard(None, children) == Redirect("/login", true)
  {
  }
}
