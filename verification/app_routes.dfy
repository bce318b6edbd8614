/**
 * The route table of `App`: the root redirect, the public pages that a
 * signed-in user is sent away from, and the pages behind `ProtectedRoute`.
 */
module AppRoutes {
  import opened Wrappers

  datatype Screen =
    | HomePage | LoginPage | SignupPage
    | DocQueryPage | DashboardPage | PricingPage | PaymentSuccessPage | PaymentCancelPage
    | NotFoundPage

  datatype View = Redirect(to: string) | Show(screen: Screen)

  /** The pages wrapped in `PublicRoute`. */
  function PublicPage(path: string): Option<Screen> {
    if path == "/home" then Some(HomePage)
    else if path == "/login" then Some(LoginPage)
    else if path == "/signup" || path == "/register" then Some(SignupPage)
    else None
  }

  /** The pages wrapped in `ProtectedRoute`. */
  function ProtectedPage(path: string): Option<Screen> {
    if path == "/doc-query" then Some(DocQueryPage)
    else if path == "/dashboard" then Some(DashboardPage)
    else if path == "/pricing" then Some(PricingPage)
    else if path == "/payment-success" then Some(PaymentSuccessPage)
    else if path == "/payment-cancel" then Some(PaymentCancelPage)
    else None
  }

  /** `AuthenticatedRedirect`. */
  function RootRedirect(isAuth: bool): string {
    if isAuth then "/doc-query" else "/home"
  }

  /** `PublicRoute`: a signed-in user goes to the query page. */
  function PublicRoute(isAuth: bool, child: Screen): (v: View)
    ensures isAuth <==> v == Redirect("/doc-query")
    ensures !isAuth <==> v == Show(child)
  {
    if isAuth then Redirect("/doc-query") else Show(child)
  }

  /** `ProtectedRoute`: a visitor without a session goes to the login page. */
  function ProtectedRoute(isAuth: bool, child: Screen): (v: View)
    ensures !isAuth <==> v == Redirect("/login")
    ensures isAuth <==> v == Show(child)
  {
    if isAuth then Show(child) else Redirect("/login")
  }

  /** What the router renders at `path`: a page is shown only at its own
      path, and a redirect only ever goes to the query, home or login page. */
  function Resolve(path: string, isAuth: bool): (v: View)
    ensures path == "/" ==> v == Redirect(RootRedirect(isAuth))
    ensures PublicPage(path).Some? ==>
      (v == Show(PublicPage(path).value) <==> !isAuth) && (isAuth ==> v == Redirect("/doc-query"))
    ensures ProtectedPage(path).Some? ==>
      (v == Show(ProtectedPage(path).value) <==> isAuth) && (!isAuth ==> v == Redirect("/login"))
    ensures v.Show? && v.screen != NotFoundPage ==>
      PublicPage(path) == Some(v.screen) || ProtectedPage(path) == Some(v.screen)
    ensures v.Redirect? ==> v.to in {"/doc-query", "/home", "/login"}
    ensures v == Show(NotFoundPage) <==> path != "/" && PublicPage(path).None? && ProtectedPage(path).None?
  {
    if path == "/" then Redirect(RootRedirect(isAuth))
    else match PublicPage(path)
      case Some(s) => PublicRoute(isAuth, s)
      case None =>
        match ProtectedPage(path)
        case Some(s) => ProtectedRoute(isAuth, s)
        case None => Show(NotFoundPage)
  }

  /** Every redirect lands, in one step, on a page that is shown. */
  lemma RedirectsSettle(path: string, isAuth: bool)
    requires Resolve(path, isAuth).Redirect?
    ensures Resolve(Resolve(path, isAuth).to, isAuth).Show?
    ensures Resolve(Resolve(path, isAuth).to, isAuth) != Show(NotFoundPage)
  {
  }

  /** "/signup" and "/register" are the same page. */
  lemma RegisterIsSignup(isAuth: bool)
    ensures Resolve("/signup", isAuth) == Resolve("/register", isAuth)
  {
  }
}
