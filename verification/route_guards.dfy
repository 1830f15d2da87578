/** Page guards: each decides from the caller's context whether a page may be shown, and where to send the caller otherwise. */
module RouteGuards {
  import opened Wrappers
  import opened Auth

  datatype RouteGuardResult = RouteGuardResult(allowed: bool, redirectTo: Option<string>, reason: Option<string>)

  const SignInPath: string := "/sign-in"
  const DashboardPath: string := "/dashboard"
  const LeadsPath: string := "/dashboard/leads"
  const ProjectsPath: string := "/dashboard/projects"
  const InstallerDenied: string := "Installers can only access assigned projects"

  const Allowed: RouteGuardResult := RouteGuardResult(true, None, None)
  const SignInRequired: RouteGuardResult := RouteGuardResult(false, Some(SignInPath), Some(NotAuthenticated))

  /** A denied permission turns into a redirect to the dashboard with its reason. */
  function FromPermission(permission: PermissionCheck): (r: RouteGuardResult)
    ensures r.allowed == permission.allowed
    ensures !r.allowed ==> r.redirectTo == Some(DashboardPath) && r.reason == permission.reason
    ensures r.allowed ==> r == Allowed
  {
    if !permission.allowed then RouteGuardResult(false, Some(DashboardPath), permission.reason)
    else Allowed
  }

  /** guardBillingPage */
  function GuardBillingPage(context: Option<AuthContext>): (r: RouteGuardResult)
    ensures context.None? ==> r == SignInRequired
    ensures r.allowed <==> context.Some? && context.value.role == Admin
    ensures context.Some? && !r.allowed ==> r == RouteGuardResult(false, Some(DashboardPath), Some(BillingDenied))
  {
    if context.None? then SignInRequired
    else FromPermission(CanAccessBilling(context))
  }

  /** guardAutomationsPage */
  function GuardAutomationsPage(context: Option<AuthContext>): (r: RouteGuardResult)
    ensures context.None? ==> r == SignInRequired
    ensures r.allowed <==> context.Some? && context.value.role == Admin
    ensures context.Some? && !r.allowed ==> r == RouteGuardResult(false, Some(DashboardPath), Some(AutomationsDenied))
  {
    if context.None? then SignInRequired
    else FromPermission(CanAccessAutomations(context))
  }

  /** guardTeamPage */
  function GuardTeamPage(context: Option<AuthContext>): (r: RouteGuardResult)
    ensures context.None? ==> r == SignInRequired
    ensures r.allowed <==> context.Some? && context.value.role == Admin
    ensures context.Some? && !r.allowed ==> r == RouteGuardResult(false, Some(DashboardPath), Some(TeamDenied))
  {
    if context.None? then SignInRequired
    else FromPermission(CanManageTeam(context))
  }

  /** guardLeadsPage: every signed-in role but INSTALLER. */
  function GuardLeadsPage(context: Option<AuthContext>): (r: RouteGuardResult)
    ensures context.None? ==> r == SignInRequired
    ensures r.allowed <==> context.Some? && context.value.role != Installer
    ensures context.Some? && !r.allowed ==> r == RouteGuardResult(false, Some(ProjectsPath), Some(InstallerDenied))
  {
    if context.None? then SignInRequired
    else if context.value.role == Installer then RouteGuardResult(false, Some(ProjectsPath), Some(InstallerDenied))
    else Allowed
  }

  /** guardProjectsPage: every signed-in user. */
  function GuardProjectsPage(context: Option<AuthContext>): (r: RouteGuardResult)
    ensures r.allowed <==> context.Some?
    ensures !r.allowed ==> r == SignInRequired
  {
    if context.None? then SignInRequired else Allowed
  }

  /** guardMinimumRole */
  function GuardMinimumRole(context: Option<AuthContext>, minRole: Role): (r: RouteGuardResult)
    ensures context.None? ==> r == SignInRequired
    ensures r.allowed <==> context.Some? && HasMinimumRole(context, minRole)
    ensures context.Some? && !r.allowed ==>
              r == RouteGuardResult(false, Some(DashboardPath), Some("This page requires " + RoleName(minRole) + " access or higher"))
  {
    if context.None? then SignInRequired
    else if !HasMinimumRole(context, minRole) then
      RouteGuardResult(false, Some(DashboardPath), Some("This page requires " + RoleName(minRole) + " access or higher"))
    else Allowed
  }

  /** enforceGuard: the page to redirect to, if any; an empty target does not redirect. */
  function EnforceGuard(result: RouteGuardResult): (target: Option<string>)
    ensures target.Some? <==> !result.allowed && result.redirectTo.Some? && result.redirectTo.value != ""
    ensures target.Some? ==> target == result.redirectTo
  {
    if !result.allowed && result.redirectTo.Some? && result.redirectTo.value != "" then result.redirectTo
    else None
  }

  /** Every guard sets a target when it denies, so enforcing a guard redirects exactly when it denies. */
  lemma EnforcedGuardsRedirectIffDenied(context: Option<AuthContext>, minRole: Role)
    ensures EnforceGuard(GuardBillingPage(context)).Some? <==> !GuardBillingPage(context).allowed
    ensures EnforceGuard(GuardAutomationsPage(context)).Some? <==> !GuardAutomationsPage(context).allowed
    ensures EnforceGuard(GuardTeamPage(context)).Some? <==> !GuardTeamPage(context).allowed
    ensures EnforceGuard(GuardLeadsPage(context)).Some? <==> !GuardLeadsPage(context).allowed
    ensures EnforceGuard(GuardProjectsPage(context)).Some? <==> !GuardProjectsPage(context).allowed
    ensures EnforceGuard(GuardMinimumRole(context, minRole)).Some? <==> !GuardMinimumRole(context, minRole).allowed
    ensures context.None? ==> EnforceGuard(GuardMinimumRole(context, minRole)) == Some(SignInPath)
  {
  }

  /** The administrator-only pages are exactly the pages guarded by a minimum role of ADMIN. */
  lemma AdminPagesAreMinimumAdmin(context: Option<AuthContext>)
    ensures GuardBillingPage(context).allowed == GuardMinimumRole(context, Admin).allowed
    ensures GuardTeamPage(context).allowed == GuardMinimumRole(context, Admin).allowed
    ensures GuardAutomationsPage(context).allowed == GuardMinimumRole(context, Admin).allowed
  {
    if context.Some? {
      MinimumRoleFacts(context.value.role, Admin, Admin);
    }
  }

  /** getDefaultDashboard */
  function GetDefaultDashboard(context: Option<AuthContext>): (path: string)
    ensures context.None? ==> path == SignInPath
    ensures context.Some? && context.value.role in {Admin, Scheduler} ==> path == DashboardPath
    ensures context.Some? && context.value.role == Sales ==> path == LeadsPath
    ensures context.Some? && context.value.role == Installer ==> path == ProjectsPath
  {
    if context.None? then SignInPath
    else match context.value.role
      case Admin => DashboardPath
      case Scheduler => DashboardPath
      case Sales => LeadsPath
      case Installer => ProjectsPath
  }

  /** A signed-in user's default dashboard is a page its guard lets them see. */
  lemma DefaultDashboardIsReachable(context: Option<AuthContext>)
    requires context.Some?
    ensures GetDefaultDashboard(context) == LeadsPath ==> GuardLeadsPage(context).allowed
    ensures GetDefaultDashboard(context) == ProjectsPath ==> GuardProjectsPage(context).allowed
    ensures GetDefaultDashboard(context) != SignInPath
  {
  }
}
