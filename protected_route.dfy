/** The route guard (src/components/ui/ProtectedRoute.tsx): what a protected
    page shows for the session's loading and authentication flags. */
module RouteGuard {
  import opened Common
  import Auth

  /** The location the router reports; only its path matters here. */
  datatype Location = Location(pathname: string)

  datatype Decision =
    | Spinner
    | Redirect(to: string, from: Location, replace: bool)
    | RenderChildren

  /** The guard: a spinner while loading, whatever the authentication; then a
      replacing redirect to the login page that remembers where the user was;
      otherwise the protected children. */
  function Decide(isLoading: bool, isAuthenticated: bool, location: Location): (d: Decision)
    ensures d.Spinner? <==> isLoading
    ensures d.Redirect? <==> !isLoading && !isAuthenticated
    ensures d.RenderChildren? <==> !isLoading && isAuthenticated
    ensures d.Redirect? ==> d.to == LoginRoute && d.from == location && d.replace
  {
    if isLoading then Spinner
    else if !isAuthenticated then Redirect(LoginRoute, location, true)
    else RenderChildren
  }

  /** Once the start-up check of a fresh provider has run, the guard never
      shows the spinner: it renders the page exactly when a non-empty token
      was stored and otherwise sends the user to the login page. */
  lemma GuardAfterStartup(token: Option<string>, location: Location)
    ensures Decide(false, Auth.UserAtStartup(token).Some?, location) ==
      if Truthy(token) then RenderChildren else Redirect(LoginRoute, location, true)
  {
  }
}
