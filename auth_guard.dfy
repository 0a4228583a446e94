/** The route guard: once the session has been rehydrated, a protected
    route sends a signed-out visitor to the login page and a guest-only
    route sends a signed-in one to the account page; until then it only
    shows a loading view. */
module AuthGuard {
  import opened Common

  datatype Mode = Protected | Guest

  datatype Route = LoginRoute | AccountRoute

  /** What the guard renders. */
  datatype Screen = Loading | Redirecting | Children

  /** The route the effect replaces the current one with, if any. */
  function RedirectFor(hasHydrated: bool, isAuthenticated: bool, mode: Mode := Protected): (r: Option<Route>)
    ensures !hasHydrated ==> r.None?
    ensures r == Some(LoginRoute) <==> hasHydrated && mode.Protected? && !isAuthenticated
    ensures r == Some(AccountRoute) <==> hasHydrated && mode.Guest? && isAuthenticated
  {
    if !hasHydrated then None
    else if mode.Protected? then (if !isAuthenticated then Some(LoginRoute) else None)
    else if isAuthenticated then Some(AccountRoute) else None
  }

  /** The view the guard returns. */
  function ScreenFor(hasHydrated: bool, isAuthenticated: bool, mode: Mode := Protected): (s: Screen)
    ensures s == Loading <==> !hasHydrated
    ensures s == Children <==>
      hasHydrated && (mode.Protected? ==> isAuthenticated) && (mode.Guest? ==> !isAuthenticated)
  {
    if !hasHydrated then Loading
    else if mode.Protected? && !isAuthenticated then Redirecting
    else if mode.Guest? && isAuthenticated then Redirecting
    else Children
  }

  /** The effect and the view agree: the "redirecting" view is shown
      exactly when a redirect is issued, and the children never render
      while one is pending. */
  lemma RedirectMatchesScreen(hasHydrated: bool, isAuthenticated: bool, mode: Mode)
    ensures ScreenFor(hasHydrated, isAuthenticated, mode) == Redirecting <==>
      RedirectFor(hasHydrated, isAuthenticated, mode).Some?
    ensures RedirectFor(hasHydrated, isAuthenticated, mode).Some? ==>
      ScreenFor(hasHydrated, isAuthenticated, mode) != Children
  {
  }

  /** Without a mode the guard protects the route. */
  lemma DefaultIsProtected(hasHydrated: bool, isAuthenticated: bool)
    ensures ScreenFor(hasHydrated, isAuthenticated) == ScreenFor(hasHydrated, isAuthenticated, Protected)
    ensures hasHydrated && !isAuthenticated ==> RedirectFor(hasHydrated, isAuthenticated) == Some(LoginRoute)
  {
  }

  /** The two modes are complementary once hydrated: exactly one of them
      renders its children. */
  lemma ModesComplementary(isAuthenticated: bool)
    ensures (ScreenFor(true, isAuthenticated, Protected) == Children) !=
            (ScreenFor(true, isAuthenticated, Guest) == Children)
  {
  }
}
