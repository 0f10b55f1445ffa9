/**
 * The role-protected route wrapper (components/ProtectedRoute.tsx) and the dashboard each
 * role belongs on, which the login page uses too.
 */
module RouteGuard {
  import opened Wrappers

  const Roles: set<string> := {"ADMIN", "DOCTOR", "MANAGER", "RECEPTIONIST"}

  /** The dashboard of a role; an unknown or missing role has none. */
  function RoleHome(role: Option<string>): (r: Option<string>)
    ensures r.Some? <==> role.Some? && role.value in Roles
    ensures r.Some? ==> |r.value| > 1 && r.value[0] == '/' && r.value != "/login"
  {
    if role == Some("DOCTOR") then Some("/doctor")
    else if role == Some("RECEPTIONIST") then Some("/receptionist")
    else if role == Some("ADMIN") then Some("/admin")
    else if role == Some("MANAGER") then Some("/manager")
    else None
  }

  /** Different roles have different dashboards. */
  lemma RoleHomeInjective(a: string, b: string)
    requires a in Roles && b in Roles && a != b
    ensures RoleHome(Some(a)) != RoleHome(Some(b))
  {
  }

  /** The account query as the guard sees it; `role` is `account.data?.role`. */
  datatype AccountQuery = AccountQuery(isPending: bool, isLoading: bool, hasData: bool, role: Option<string>)

  datatype GuardView = Spinner | RedirectTo(path: string) | RenderChildren

  /** What the guard renders, and whether it asks for a refetch of a pending account. */
  datatype GuardDecision = GuardDecision(view: GuardView, refetch: bool)

  /** `ProtectedRoute`'s decision chain. */
  function Guard(account: AccountQuery, requiredRole: Option<string>): (d: GuardDecision)
    ensures d.refetch <==> account.isPending
    ensures account.isLoading ==> d.view == Spinner
    ensures !account.isLoading && !account.hasData ==> d.view == RedirectTo("/login")
    ensures d.view == RenderChildren <==>
      !account.isLoading && account.hasData && (!Truthy(requiredRole) || account.role == requiredRole)
    ensures d.view.RedirectTo? && account.hasData ==>
      d.view.path == RoleHome(account.role).GetOr("/login") && account.role != requiredRole
    ensures !account.isLoading && account.hasData && Truthy(requiredRole) && account.role != requiredRole ==>
      d.view == RedirectTo(RoleHome(account.role).GetOr("/login"))
    ensures d.view == Spinner <==> account.isLoading
  {
    var view :=
      if account.isLoading then Spinner
      else if !account.hasData then RedirectTo("/login")
      else if Truthy(requiredRole) && account.role != requiredRole then RedirectTo(RoleHome(account.role).GetOr("/login"))
      else RenderChildren;
    GuardDecision(view, account.isPending)
  }

  /**
   * A mismatch sends a known role to its own dashboard, and that dashboard's guard (which
   * requires that role) lets the same account through: a redirect never bounces again.
   */
  lemma MismatchRedirectSettles(account: AccountQuery, requiredRole: Option<string>)
    requires Guard(account, requiredRole).view.RedirectTo? && account.hasData
    requires account.role.Some? && account.role.value in Roles
    ensures Guard(account, requiredRole).view == RedirectTo(RoleHome(account.role).value)
    ensures Guard(account, account.role).view == RenderChildren
  {
  }
}
