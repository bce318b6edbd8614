/**
 * `useNavigationGuard`: which paths need a session, which paths a signed-in
 * user is sent away from, and the one navigation the effect may make.
 */
module NavigationGuard {
  import opened Wrappers
  import opened Strings
  import opened ClientAuth

  const ProtectedPrefixes: seq<string> := ["/dashboard", "/documents", "/profile", "/settings"]

  /** Computed by the hook; no decision reads it. */
  const PublicRoutes: seq<string> := ["/", "/login", "/signup", "/forgot-password"]

  /** Some protected route is a prefix of the path. */
  predicate IsProtectedRoute(path: string) {
    exists i :: 0 <= i < |ProtectedPrefixes| && StartsWith(path, ProtectedPrefixes[i])
  }

  /** The paths a signed-in user is sent away from. */
  predicate IsEntryPath(path: string) {
    path == "/" || path == "/login" || path == "/signup"
  }

  /** The effect's decision: where it navigates, if anywhere. The
      protected-route check comes first and returns. */
  function GuardRedirect(path: string, isAuth: bool): (r: Option<string>)
    ensures r == Some("/login") <==> !isAuth && IsProtectedRoute(path)
    ensures r == Some("/dashboard") <==> isAuth && IsEntryPath(path)
    ensures r.None? <==> (isAuth || !IsProtectedRoute(path)) && !(isAuth && IsEntryPath(path))
  {
    if IsProtectedRoute(path) && !isAuth then Some("/login")
    else if isAuth && IsEntryPath(path) then Some("/dashboard")
    else None
  }

  /** The guard's target is a page the guard leaves alone. */
  lemma GuardSettles(path: string, isAuth: bool)
    requires GuardRedirect(path, isAuth).Some?
    ensures GuardRedirect(GuardRedirect(path, isAuth).value, isAuth).None?
  {
    if !isAuth {
      forall i | 0 <= i < |ProtectedPrefixes|
        ensures !StartsWith("/login", ProtectedPrefixes[i])
      {
        assert ProtectedPrefixes[i][1] != 'l';
      }
    }
  }

  datatype GuardState = GuardState(isAuthenticated: bool, currentPath: string, navigation: Option<string>, browser: Browser)

  /** The hook on a render at `path`: the value it returns (computed during
      render), the effect's navigation and the browser after both calls of
      `isValidAuthenticated`. */
  function UseNavigationGuard(b: Browser, path: string): (r: GuardState)
    ensures r.isAuthenticated <==> IsAuthenticated(b) && IsValidToken(Token(b))
    ensures r.currentPath == path
    ensures r.navigation == GuardRedirect(path, r.isAuthenticated)
    ensures r.browser == IsValidAuthenticated(b).1
  {
    var (ok, b1) := IsValidAuthenticated(b);
    ValidAuthenticatedStable(b);
    var (ok2, b2) := IsValidAuthenticated(b1);
    GuardState(ok, path, GuardRedirect(path, ok2), b2)
  }
}
