/** The `ProtectedRoute` component: redirect somewhere, or render the guarded page. */
module RouteGuard {
  import opened Wrappers
  import opened Auth

  datatype GuardResult = Redirect(to: string) | RenderChildren

  const SignInPath := "/signin"
  const AccessDeniedPath := "/access-denied"

  /** The guard's decision; `requireAdmin` is false unless the route sets it. */
  function ProtectedRoute(isAuthenticated: bool, isAdmin: bool, requireAdmin: bool := false)
    : (r: GuardResult)
    ensures !isAuthenticated ==> r == Redirect(SignInPath)
    ensures isAuthenticated && requireAdmin && !isAdmin ==> r == Redirect(AccessDeniedPath)
    ensures r == RenderChildren <==> isAuthenticated && (requireAdmin ==> isAdmin)
  {
    if !isAuthenticated then Redirect(SignInPath)
    else if requireAdmin && !isAdmin then Redirect(AccessDeniedPath)
    else RenderChildren
  }

  /** The guard as the context drives it, from the signed-in user. */
  function Guard(user: Option<User>, requireAdmin: bool := false): (r: GuardResult)
    ensures user.None? ==> r == Redirect(SignInPath)
    ensures user.Some? && requireAdmin && user.value.role != AdminRole ==> r == Redirect(AccessDeniedPath)
    ensures r == RenderChildren <==> user.Some? && (requireAdmin ==> user.value.role == AdminRole)
  {
    ProtectedRoute(IsAuthenticated(user), IsAdmin(user), requireAdmin)
  }

  /** Without `requireAdmin`, every signed-in user, staff or administrator, gets the page. */
  lemma UnguardedAdmitsAnyUser(user: Option<User>)
    ensures Guard(user) == RenderChildren <==> user.Some?
    ensures user.None? ==> Guard(user) == Redirect(SignInPath)
  {
  }

  /** An administrator is never redirected. */
  lemma AdminNeverRedirected(user: Option<User>, requireAdmin: bool)
    requires IsAdmin(user)
    ensures Guard(user, requireAdmin) == RenderChildren
  {
    AdminIsAuthenticated(user);
  }

  /** A signed-in staff member is sent to the access-denied page by an administrator route. */
  lemma StaffDeniedAdminRoutes(user: Option<User>)
    requires user.Some? && user.value.role == StaffRole
    ensures Guard(user, true) == Redirect(AccessDeniedPath)
  {
  }
}
