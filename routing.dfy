/**
  The route gate (ProtectedRoute) and the route table of App: `/login` and
  `/` render the login page; `/dashboard` sits behind the gate.
*/
module Routing {

  import opened AuthContext

  const LoginPath := "/login"
  const RootPath := "/"
  const DashboardPath := "/dashboard"

  /** What ProtectedRoute returns: `<Navigate to=… replace />` or `<Outlet />`. */
  datatype Element = Navigate(to: string, replace: bool) | Outlet

  /** The gate: redirect to the login page with replace, or render the nested route. */
  function ProtectedRoute(ctx: AuthState): (r: Element)
    ensures r.Outlet? <==> ctx.isLoggedIn
    ensures !ctx.isLoggedIn ==> r == Navigate(LoginPath, true)
  {
    if !ctx.isLoggedIn then Navigate(LoginPath, true) else Outlet
  }

  /** What the router shows for a location. */
  datatype Screen = LoginView | DashboardView | Redirect(to: string, replace: bool) | NoMatch

  /** The route table, with the gate applied to the protected branch. */
  function Resolve(path: string, ctx: AuthState): Screen {
    if path == LoginPath || path == RootPath then LoginView
    else if path == DashboardPath then
      match ProtectedRoute(ctx)
      case Navigate(to, replace) => Redirect(to, replace)
      case Outlet => DashboardView
    else NoMatch
  }

  /** The dashboard is rendered exactly at `/dashboard` and exactly when logged in. */
  lemma DashboardOnlyWhenLoggedIn(path: string, ctx: AuthState)
    ensures Resolve(path, ctx) == DashboardView <==> path == DashboardPath && ctx.isLoggedIn
    ensures !ctx.isLoggedIn ==> Resolve(path, ctx) != DashboardView
  {
  }

  /** The public paths render the login page whatever the session says. */
  lemma PublicPathsShowLogin(ctx: AuthState)
    ensures Resolve(LoginPath, ctx) == LoginView
    ensures Resolve(RootPath, ctx) == LoginView
  {
  }

  /**
    The gate reads only `isLoggedIn`: two sessions that agree on it get the
    same answer, whatever their users.
  */
  lemma GateReadsOnlyFlag(a: AuthState, b: AuthState)
    requires a.isLoggedIn == b.isLoggedIn
    ensures ProtectedRoute(a) == ProtectedRoute(b)
  {
  }

  /**
    The redirect is the same constant whatever was requested (no return path
    is kept), and following it lands on the login page.
  */
  lemma RedirectDropsRequestedPath(path: string, ctx: AuthState)
    requires Resolve(path, ctx).Redirect?
    ensures path == DashboardPath && !ctx.isLoggedIn
    ensures Resolve(path, ctx) == Redirect(LoginPath, true)
    ensures Resolve(Resolve(path, ctx).to, ctx) == LoginView
  {
  }
}
