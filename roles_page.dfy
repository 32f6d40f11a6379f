/**
 * The roles and permissions page (src/pages/users/RolesPage.tsx): eight
 * demonstration roles and their permission matrix, one tick or cross per
 * module and action. A role's entry is looked up the way the session's is:
 * the first entry for the module decides, and a module with none grants
 * nothing.
 */
module RolesPage {
  import opened Common
  import opened Types
  import opened AuthStore

  /** `modules`, the matrix's column groups in order. */
  const Modules: seq<PermModule> := [ProjectsModule, FinancialsModule, MaterialsModule, ReportsModule, AdminModule]

  const DemoRoles: seq<Role> := [
    Role("1", "Administrator", "Full system access with all permissions", [
      Permission(ProjectsModule, AllActions), Permission(FinancialsModule, AllActions),
      Permission(MaterialsModule, AllActions), Permission(ReportsModule, AllActions),
      Permission(AdminModule, AllActions)], true),
    Role("2", "Project Manager", "Manage projects, tasks, and team members", [
      Permission(ProjectsModule, [View, Create, Edit, Approve]), Permission(FinancialsModule, [View]),
      Permission(MaterialsModule, [View, Create, Edit]), Permission(ReportsModule, [View, Create])], true),
    Role("3", "PMO", "Portfolio oversight and reporting", [
      Permission(ProjectsModule, [View, Edit]), Permission(FinancialsModule, [View]),
      Permission(MaterialsModule, [View]), Permission(ReportsModule, [View, Create, Edit])], true),
    Role("4", "Finance", "Financial management and approvals", [
      Permission(ProjectsModule, [View]), Permission(FinancialsModule, [View, Create, Edit, Approve]),
      Permission(MaterialsModule, [View, Approve]), Permission(ReportsModule, [View, Create])], true),
    Role("5", "Procurement", "Purchase order and vendor management", [
      Permission(ProjectsModule, [View]), Permission(FinancialsModule, [View, Create]),
      Permission(MaterialsModule, [View, Create, Edit, Approve])], false),
    Role("6", "Site Engineer", "Field operations and task updates", [
      Permission(ProjectsModule, [View, Edit]), Permission(MaterialsModule, [View])], false),
    Role("7", "Vendor", "External vendor with limited access", [
      Permission(ProjectsModule, [View]), Permission(MaterialsModule, [View])], true),
    Role("8", "Customer", "Customer portal access", [
      Permission(ProjectsModule, [View]), Permission(ReportsModule, [View])], true)
  ]

  /** `hasPermission(role, module, action)`. */
  function RoleHasPermission(role: Role, m: PermModule, a: PermAction): (r: bool)
    ensures r <==> exists k | 0 <= k < |role.permissions| ::
                     role.permissions[k].permModule == m && a in role.permissions[k].actions &&
                     forall j | 0 <= j < k :: role.permissions[j].permModule != m
  {
    Granted(role.permissions, m, a)
  }

  /** The Administrator role holds every one of the 25 module and action pairs. */
  lemma AdministratorHoldsEverything(m: PermModule, a: PermAction)
    ensures DemoRoles[0].name == "Administrator"
    ensures RoleHasPermission(DemoRoles[0], m, a)
  {
    var perms := DemoRoles[0].permissions;
    assert forall k | 0 <= k < 5 :: perms[k].permModule == Modules[k] && perms[k].actions == AllActions;
    assert a in AllActions;
    var k := match m
      case ProjectsModule => 0 case FinancialsModule => 1 case MaterialsModule => 2
      case ReportsModule => 3 case AdminModule => 4;
    EntryForFirst(perms, m, k);
  }

  /** The Customer role may view projects and reports, and nothing else. */
  lemma CustomerViewsOnly(m: PermModule, a: PermAction)
    ensures DemoRoles[7].name == "Customer"
    ensures RoleHasPermission(DemoRoles[7], m, a) <==> a == View && (m == ProjectsModule || m == ReportsModule)
  {
    var perms := DemoRoles[7].permissions;
    if m == ProjectsModule {
      EntryForFirst(perms, m, 0);
    } else if m == ReportsModule {
      EntryForFirst(perms, m, 1);
    } else {
      assert EntryFor(perms, m).None?;
    }
  }

  /** The Administrator role of this page approves reports, which the administrator
      signed in by the session store may not. */
  lemma RolePageAdministratorExceedsSessionAdministrator()
    ensures RoleHasPermission(DemoRoles[0], ReportsModule, Approve)
    ensures !Granted(AdminPermissions, ReportsModule, Approve)
  {
    AdministratorHoldsEverything(ReportsModule, Approve);
    AdminPermissionsTable(ReportsModule, Approve);
  }

  /** One row of the matrix: a cell for each module, then each action within it. */
  function MatrixRow(role: Role): (r: seq<bool>)
    ensures |r| == |Modules| * |AllActions| == 25
    ensures forall i, j | 0 <= i < 5 && 0 <= j < 5 :: r[5 * i + j] == RoleHasPermission(role, Modules[i], AllActions[j])
  {
    seq(25, c requires 0 <= c < 25 => RoleHasPermission(role, Modules[c / 5], AllActions[c % 5]))
  }

  /** Every cell of a role without permissions is a cross. */
  lemma EmptyRoleRowIsAllCrosses(role: Role)
    requires role.permissions == []
    ensures forall c | 0 <= c < 25 :: !MatrixRow(role)[c]
  {
  }

  /** The matrix: one row per role, in list order. */
  function Matrix(roles: seq<Role>): (r: seq<seq<bool>>)
    ensures |r| == |roles|
    ensures forall k | 0 <= k < |roles| :: r[k] == MatrixRow(roles[k])
  {
    seq(|roles|, k requires 0 <= k < |roles| => MatrixRow(roles[k]))
  }
}
