/** The auth router: the first screen chosen from the current `AuthState`. */
module AuthRouting {
  import opened Auth

  /** Where the router sends the user: the destination and the route popped (inclusive). */
  datatype Navigation = Navigation(destination: string, popUpTo: string, inclusive: bool)

  /**
   * `AuthRouter`: exactly the role "admin" goes to the admin dashboard, any other role to the
   * citizen dashboard, and Loading or Unauthenticated straight to role selection.
   */
  function Route(state: AuthState): (n: Navigation)
    ensures n.popUpTo == "auth_router" && n.inclusive
    ensures n.destination == "admin_dashboard" <==> state == Authenticated("admin")
    ensures n.destination == "citizen_dashboard" <==> state.Authenticated? && state.role != "admin"
    ensures n.destination == "role_selection" <==> !state.Authenticated?
  {
    match state
    case Authenticated(role) =>
      Navigation(if role == "admin" then "admin_dashboard" else "citizen_dashboard", "auth_router", true)
    case _ => Navigation("role_selection", "auth_router", true)
  }

  /** The role comparison is exact: "Admin" is routed to the citizen dashboard. */
  lemma RouteIsCaseSensitive()
    ensures Route(Authenticated("Admin")).destination == "citizen_dashboard"
  {
  }

  /** A first Google sign-in always lands on the citizen dashboard. */
  lemma NewGoogleUserIsCitizen()
    ensures Route(Authenticated(GoogleRole(Missing))).destination == "citizen_dashboard"
  {
  }
}
