/** The guarded routes of the router and the flag each passes to the guard. */
module AppRoutes {
  import opened Wrappers
  import opened Auth
  import opened RouteGuard

  datatype AppRoute = Index | About | Compliance | Audit

  /** The path each route is mounted at, an absolute path. */
  function Path(route: AppRoute): (p: string)
    ensures |p| >= 1 && p[0] == '/'
  {
    match route
    case Index => "/"
    case About => "/about"
    case Compliance => "/compliance"
    case Audit => "/audit"
  }

  /** No two routes share a path. */
  lemma PathInjective(a: AppRoute, b: AppRoute)
    ensures Path(a) == Path(b) ==> a == b
  {
  }

  /** Whether the route's element is `<ProtectedRoute requireAdmin>`. */
  function RequiresAdmin(route: AppRoute): (b: bool)
    ensures b <==> Path(route) in {"/compliance", "/audit"}
  {
    route == Compliance || route == Audit
  }

  /** What a visitor of the route sees. */
  function Visit(route: AppRoute, user: Option<User>): (r: GuardResult)
    ensures !IsAuthenticated(user) ==> r == Redirect(SignInPath)
    ensures IsAuthenticated(user) && RequiresAdmin(route) && !IsAdmin(user) ==> r == Redirect(AccessDeniedPath)
    ensures r == RenderChildren <==> IsAuthenticated(user) && (RequiresAdmin(route) ==> IsAdmin(user))
  {
    if RequiresAdmin(route) then Guard(user, true) else Guard(user)
  }

  /**
   * The dashboard and the audit log are for administrators; the staff interface and
   * the about page are for anyone signed in.
   */
  lemma RouteAccess(route: AppRoute, user: Option<User>)
    ensures Visit(route, user) == RenderChildren <==>
              IsAuthenticated(user) && (Path(route) in {"/compliance", "/audit"} ==> IsAdmin(user))
    ensures !IsAuthenticated(user) ==> Visit(route, user) == Redirect(SignInPath)
  {
  }
}
