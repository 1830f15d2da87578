/**
 * Role ranks and permission checks. The auth provider's session and the user
 * row are parameters; the permission checks read the caller's context as
 * `getAuthContext` would build it.
 */
module Auth {
  import opened Wrappers

  datatype Role = Admin | Scheduler | Sales | Installer

  /** The role as it is spelled in the database and in messages. */
  function RoleName(role: Role): string {
    match role
    case Admin => "ADMIN"
    case Scheduler => "SCHEDULER"
    case Sales => "SALES"
    case Installer => "INSTALLER"
  }

  /** ROLE_HIERARCHY */
  function Rank(role: Role): int {
    match role
    case Admin => 100
    case Scheduler => 50
    case Sales => 30
    case Installer => 10
  }

  /** The roles from least to most privileged. */
  const RolesAscending: seq<Role> := [Installer, Sales, Scheduler, Admin]

  function Position(role: Role): (i: nat)
    ensures i < |RolesAscending| && RolesAscending[i] == role
  {
    match role
    case Installer => 0
    case Sales => 1
    case Scheduler => 2
    case Admin => 3
  }

  /** The ranks put the roles strictly in order: ADMIN > SCHEDULER > SALES > INSTALLER. */
  lemma RanksStrictlyOrdered()
    ensures forall i, j :: 0 <= i < j < |RolesAscending| ==> Rank(RolesAscending[i]) < Rank(RolesAscending[j])
  {
  }

  datatype AuthContext = AuthContext(
    userId: string,
    clerkId: string,
    companyId: Option<string>,
    role: Role,
    email: string,
    name: Option<string>)

  /** The user row found by the auth provider's user id. */
  datatype UserRow = UserRow(id: string, clerkId: string, email: string, name: Option<string>)

  /**
   * getAuthContext: nothing without a session or without a user row; the
   * company is not yet read and the role is ADMIN for everyone.
   */
  function GetAuthContext(clerkId: Option<string>, user: Option<UserRow>): (r: Option<AuthContext>)
    ensures r.Some? <==> clerkId.Some? && clerkId.value != "" && user.Some?
    ensures r.Some? ==> r.value == AuthContext(user.value.id, user.value.clerkId, None, Admin, user.value.email, user.value.name)
  {
    if clerkId.None? || clerkId.value == "" then None
    else if user.None? then None
    else
      var u := user.value;
      Some(AuthContext(u.id, u.clerkId, None, Admin, u.email, u.name))
  }

  /** getUserRole: the context's role, ADMIN when there is no context. */
  function UserRole(context: Option<AuthContext>): (role: Role)
    ensures context.Some? ==> role == context.value.role
    ensures context.None? ==> role == Admin
  {
    match context
    case Some(c) => c.role
    case None => Admin
  }

  /** The rank comparison of hasMinimumRole. */
  function MeetsMinimum(role: Role, minRole: Role): (b: bool)
    ensures b <==> Position(role) >= Position(minRole)
  {
    Rank(role) >= Rank(minRole)
  }

  /** hasMinimumRole */
  function HasMinimumRole(context: Option<AuthContext>, minRole: Role): (b: bool)
    ensures b <==> Position(UserRole(context)) >= Position(minRole)
  {
    MeetsMinimum(UserRole(context), minRole)
  }

  /** ADMIN meets every minimum; INSTALLER meets only INSTALLER; meeting a minimum is transitive. */
  lemma MinimumRoleFacts(a: Role, b: Role, c: Role)
    ensures MeetsMinimum(Admin, a)
    ensures MeetsMinimum(Installer, a) <==> a == Installer
    ensures MeetsMinimum(a, a)
    ensures MeetsMinimum(a, b) && MeetsMinimum(b, c) ==> MeetsMinimum(a, c)
    ensures MeetsMinimum(a, b) || MeetsMinimum(b, a)
    ensures MeetsMinimum(a, b) && MeetsMinimum(b, a) ==> a == b
  {
  }

  /** isAdmin */
  function IsAdmin(context: Option<AuthContext>): (b: bool)
    ensures b <==> HasMinimumRole(context, Admin)
  {
    UserRole(context) == Admin
  }

  datatype PermissionCheck = PermissionCheck(allowed: bool, reason: Option<string>)

  const BillingDenied: string := "Only administrators can access billing settings"
  const AutomationsDenied: string := "Only administrators can manage automations"
  const TeamDenied: string := "Only administrators can manage team members"
  const NotAuthenticated: string := "Not authenticated"
  const LeadDenied: string := "Lead not found or access denied"
  const ProjectDenied: string := "Project not found or access denied"

  /** The shape shared by the three administrator-only checks. */
  function AdminOnly(context: Option<AuthContext>, denial: string): (r: PermissionCheck)
    ensures r.allowed <==> UserRole(context) == Admin
    ensures r.reason == if r.allowed then None else Some(denial)
  {
    if UserRole(context) != Admin then PermissionCheck(false, Some(denial))
    else PermissionCheck(true, None)
  }

  /** canAccessBilling */
  function CanAccessBilling(context: Option<AuthContext>): (r: PermissionCheck)
    ensures r.allowed <==> IsAdmin(context)
    ensures r.reason.Some? <==> !r.allowed
    ensures !r.allowed ==> r.reason == Some(BillingDenied)
  {
    AdminOnly(context, BillingDenied)
  }

  /** canAccessAutomations */
  function CanAccessAutomations(context: Option<AuthContext>): (r: PermissionCheck)
    ensures r.allowed <==> IsAdmin(context)
    ensures r.reason.Some? <==> !r.allowed
    ensures !r.allowed ==> r.reason == Some(AutomationsDenied)
  {
    AdminOnly(context, AutomationsDenied)
  }

  /** canManageTeam */
  function CanManageTeam(context: Option<AuthContext>): (r: PermissionCheck)
    ensures r.allowed <==> IsAdmin(context)
    ensures r.reason.Some? <==> !r.allowed
    ensures !r.allowed ==> r.reason == Some(TeamDenied)
  {
    AdminOnly(context, TeamDenied)
  }

  /**
   * canViewLead: the lead must exist and belong to the caller. `leadOwners`
   * maps each lead id to the id of the user who owns it.
   */
  function CanViewLead(context: Option<AuthContext>, leadOwners: map<string, string>, leadId: string): (r: PermissionCheck)
    ensures r.allowed <==> context.Some? && leadId in leadOwners && leadOwners[leadId] == context.value.userId
    ensures context.None? ==> r.reason == Some(NotAuthenticated)
    ensures context.Some? && !r.allowed ==> r.reason == Some(LeadDenied)
    ensures r.allowed ==> r.reason.None?
  {
    if context.None? then PermissionCheck(false, Some(NotAuthenticated))
    else if leadId in leadOwners && leadOwners[leadId] == context.value.userId then PermissionCheck(true, None)
    else PermissionCheck(false, Some(LeadDenied))
  }

  /** canEditLead */
  function CanEditLead(context: Option<AuthContext>, leadOwners: map<string, string>, leadId: string): (r: PermissionCheck)
    ensures r == CanViewLead(context, leadOwners, leadId)
  {
    CanViewLead(context, leadOwners, leadId)
  }

  /**
   * canViewProject: the project must exist and its lead belong to the caller.
   * `projectLeadOwners` maps each project id to the owner of its lead.
   */
  function CanViewProject(context: Option<AuthContext>, projectLeadOwners: map<string, string>, projectId: string): (r: PermissionCheck)
    ensures r.allowed <==> context.Some? && projectId in projectLeadOwners && projectLeadOwners[projectId] == context.value.userId
    ensures context.None? ==> r.reason == Some(NotAuthenticated)
    ensures context.Some? && !r.allowed ==> r.reason == Some(ProjectDenied)
    ensures r.allowed ==> r.reason.None?
  {
    if context.None? then PermissionCheck(false, Some(NotAuthenticated))
    else if projectId in projectLeadOwners && projectLeadOwners[projectId] == context.value.userId then PermissionCheck(true, None)
    else PermissionCheck(false, Some(ProjectDenied))
  }

  /** canUpdateMilestone */
  function CanUpdateMilestone(context: Option<AuthContext>, projectLeadOwners: map<string, string>, projectId: string): (r: PermissionCheck)
    ensures r == CanViewProject(context, projectLeadOwners, projectId)
  {
    CanViewProject(context, projectLeadOwners, projectId)
  }

  /**
   * While the role is hard-coded, every signed-in user passes every
   * administrator check, and so does a request without a context, whose role
   * defaults to ADMIN.
   */
  lemma EveryoneIsAdminForNow(clerkId: Option<string>, user: Option<UserRow>)
    ensures var context := GetAuthContext(clerkId, user);
      IsAdmin(context) && CanAccessBilling(context).allowed
      && CanAccessAutomations(context).allowed && CanManageTeam(context).allowed
      && forall minRole :: HasMinimumRole(context, minRole)
  {
  }

  /** A user can only see another user's lead by owning it. */
  lemma LeadAccessIsOwnership(a: AuthContext, b: AuthContext, leadOwners: map<string, string>, leadId: string)
    requires a.userId != b.userId
    ensures !(CanViewLead(Some(a), leadOwners, leadId).allowed && CanViewLead(Some(b), leadOwners, leadId).allowed)
  {
  }
}
