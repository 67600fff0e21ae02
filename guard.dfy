/** The route guard (src/components/ProtectedRoute.tsx) and the login page's
    choice of where to go back to (src/pages/Authentification.tsx). */
module Guard {
  import opened Wrappers

  const LoginRoute := "/login"
  const HomeRoute := "/"

  /** What the guard renders: the session loading message, a replacing
      redirect to `to` that carries the guarded path as `from`, or the
      protected children. */
  datatype Decision = ShowLoading | Redirect(to: string, from: string) | RenderChildren

  /** The guard's three-way decision; loading is tested before authentication. */
  function Decide(isLoading: bool, isAuthenticated: bool, pathname: string): (d: Decision)
    ensures d.ShowLoading? <==> isLoading
    ensures d.Redirect? <==> !isLoading && !isAuthenticated
    ensures d.RenderChildren? <==> !isLoading && isAuthenticated
    ensures d.Redirect? ==> d.to == LoginRoute && d.from == pathname
  {
    if isLoading then ShowLoading
    else if !isAuthenticated then Redirect(LoginRoute, pathname)
    else RenderChildren
  }

  /** Where the login page navigates after a successful login: the `from`
      path it was sent with, or the home route when none (or an empty one)
      came along. */
  function ReturnPath(from: Option<string>): (p: string)
    ensures p != ""
    ensures from.Some? && from.value != "" ==> p == from.value
    ensures from.None? || from.value == "" ==> p == HomeRoute
  {
    if from.Some? && from.value != "" then from.value else HomeRoute
  }

  /** A redirect from a guarded page, followed by a successful login, leads
      back to that page. */
  lemma RedirectThenLoginReturns(pathname: string)
    requires pathname != ""
    ensures Decide(false, false, pathname).Redirect?
    ensures ReturnPath(Some(Decide(false, false, pathname).from)) == pathname
  {
  }
}
