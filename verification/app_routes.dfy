/** Role-based route gating (src/App.tsx): the `ProtectedRoute` decision, the
    `DashboardRoute` role-to-dashboard mapping, and the table of routes with the
    roles each admits. Rendering and navigation themselves are not modelled; a
    route's outcome is the decision the guard takes. */
module AppRoutes {
  import opened Wrappers
  import opened MockData

  /** The routes the router declares; `NotFoundPath` stands for the catch-all `*`. */
  datatype Path =
    | RootPath          // "/"
    | HomePath          // "/home"
    | DashboardPath     // "/dashboard"
    | AgentDashboardPath // "/agent-dashboard"
    | ClaimsPath        // "/claims"
    | ClaimDetailsPath(id: string) // "/claims/:id"
    | NewClaimPath      // "/new-claim"
    | AgentsPath        // "/agents"
    | SettingsPath      // "/settings"
    | NotFoundPath      // "*"

  /** What the guard does: show the loading view, redirect, or render its children. */
  datatype Guard = ShowLoading | RedirectTo(target: Path) | RenderChildren

  /** The dashboard a denied role is sent to: admin to "/dashboard", anyone else to "/agent-dashboard". */
  function RoleDashboard(role: Role): (p: Path)
    ensures p == DashboardPath <==> role == AdminRole
    ensures p == AgentDashboardPath <==> role != AdminRole
  {
    if role == AdminRole then DashboardPath else AgentDashboardPath
  }

  /** `ProtectedRoute`: loading first, then authentication, then the role restriction,
      which applies only when both a role list and a profile are present. */
  function ProtectedRoute(loading: bool, isAuthenticated: bool, profile: Option<Role>,
                          allowedRoles: Option<seq<Role>>): (g: Guard)
    ensures loading ==> g == ShowLoading
    ensures !loading && !isAuthenticated ==> g == RedirectTo(RootPath)
    ensures !loading && isAuthenticated && allowedRoles.Some? && profile.Some?
              && profile.value !in allowedRoles.value
            ==> g == RedirectTo(RoleDashboard(profile.value))
    ensures g == RenderChildren <==>
              !loading && isAuthenticated
              && (allowedRoles.None? || profile.None? || profile.value in allowedRoles.value)
  {
    if loading then ShowLoading
    else if !isAuthenticated then RedirectTo(RootPath)
    else if allowedRoles.Some? && profile.Some? && profile.value !in allowedRoles.value then
      RedirectTo(RoleDashboard(profile.value))
    else RenderChildren
  }

  /** `DashboardRoute`: no profile goes to "/", a profile to its role's dashboard. */
  function DashboardRoute(profile: Option<Role>): (p: Path)
    ensures profile.None? ==> p == RootPath
    ensures profile.Some? ==> p == RoleDashboard(profile.value)
  {
    match profile
    case None => RootPath
    case Some(role) => RoleDashboard(role)
  }

  /** How a route is wrapped: not guarded, or guarded with an optional role list. */
  datatype RouteGuard = Unguarded | Guarded(allowedRoles: Option<seq<Role>>)

  /** The route table: "/" and the catch-all are the only unguarded routes;
      "/dashboard", "/new-claim" and "/agents" admit admins only, "/agent-dashboard"
      agents only, and the remaining routes any signed-in user. */
  function RouteTable(p: Path): (r: RouteGuard)
    ensures r.Unguarded? <==> p == RootPath || p == NotFoundPath
    ensures r == Guarded(Some([AdminRole])) <==> p == DashboardPath || p == NewClaimPath || p == AgentsPath
    ensures r == Guarded(Some([AgentRole])) <==> p == AgentDashboardPath
    ensures r == Guarded(None) <==> p == HomePath || p == ClaimsPath || p.ClaimDetailsPath? || p == SettingsPath
  {
    match p
    case RootPath => Unguarded
    case NotFoundPath => Unguarded
    case DashboardPath => Guarded(Some([AdminRole]))
    case AgentDashboardPath => Guarded(Some([AgentRole]))
    case NewClaimPath => Guarded(Some([AdminRole]))
    case AgentsPath => Guarded(Some([AdminRole]))
    case HomePath => Guarded(None)
    case ClaimsPath => Guarded(None)
    case ClaimDetailsPath(_) => Guarded(None)
    case SettingsPath => Guarded(None)
  }

  /** The decision for visiting `p` in the given session state. */
  function Visit(p: Path, loading: bool, isAuthenticated: bool, profile: Option<Role>): (g: Guard)
    ensures RouteTable(p).Unguarded? ==> g == RenderChildren
    ensures RouteTable(p).Guarded? ==>
      g == ProtectedRoute(loading, isAuthenticated, profile, RouteTable(p).allowedRoles)
  {
    match RouteTable(p)
    case Unguarded => RenderChildren
    case Guarded(roles) => ProtectedRoute(loading, isAuthenticated, profile, roles)
  }

  /** "/dashboard", "/new-claim" and "/agents" admit only admins, "/agent-dashboard"
      only agents: a profile with the other role is sent to its own dashboard. */
  lemma RoleRestrictedRoutes(p: Path, role: Role)
    requires p in {DashboardPath, NewClaimPath, AgentsPath, AgentDashboardPath}
    ensures Visit(p, false, true, Some(role)) ==
      if (role == AdminRole) == (p != AgentDashboardPath) then RenderChildren
      else RedirectTo(RoleDashboard(role))
  {
  }

  /** A redirect never leads to another redirect for the same session: the
      unauthenticated go to "/", which is not guarded, and a denied role goes to
      its own dashboard, which admits it. */
  lemma RedirectNeverLoops(p: Path, isAuthenticated: bool, profile: Option<Role>)
    requires Visit(p, false, isAuthenticated, profile).RedirectTo?
    ensures Visit(Visit(p, false, isAuthenticated, profile).target, false, isAuthenticated, profile)
            == RenderChildren
  {
  }

  /** "/home" renders, for a signed-in profile, a redirect to that profile's
      dashboard, which then renders. */
  lemma HomeReachesDashboard(role: Role)
    ensures Visit(HomePath, false, true, Some(role)) == RenderChildren
    ensures Visit(DashboardRoute(Some(role)), false, true, Some(role)) == RenderChildren
  {
  }
}
