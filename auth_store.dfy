/**
 * The authentication store (src/stores/authStore.ts): the signed-in user,
 * the session token, the authenticated flag and the permission list that
 * `hasPermission` consults. Login accepts any non-empty e-mail and signs
 * in the demo administrator under that address.
 *
 * The half-second delay before login, the password (never read) and the
 * `persist` middleware are left out; `Date.now()` is the `clock`
 * parameter, already written in decimal.
 */
module AuthStore {
  import opened Common
  import opened Types

  const DemoUser := User(
    "1", "admin@projectforge.io", "Admin", "User", "IT PMO", UserStatus.Active, Admin,
    false, false, [], ["CC001", "CC002"], 100000, 50000, None)

  const AllActions: seq<PermAction> := [View, Create, Edit, Delete, Approve]

  const AdminPermissions: seq<Permission> := [
    Permission(ProjectsModule, [View, Create, Edit, Delete, Approve]),
    Permission(FinancialsModule, [View, Create, Edit, Delete, Approve]),
    Permission(MaterialsModule, [View, Create, Edit, Delete, Approve]),
    Permission(ReportsModule, [View, Create, Edit, Delete]),
    Permission(AdminModule, [View, Create, Edit, Delete])
  ]

  /** Position of the first entry for `m` (`permissions.find(p => p.module === m)`). */
  function EntryFor(perms: seq<Permission>, m: PermModule): (r: Option<nat>)
    ensures r.None? <==> forall i | 0 <= i < |perms| :: perms[i].permModule != m
    ensures r.Some? ==> r.value < |perms| && perms[r.value].permModule == m &&
                        forall j | 0 <= j < r.value :: perms[j].permModule != m
    decreases |perms|
  {
    if |perms| == 0 then None
    else if perms[0].permModule == m then Some(0)
    else
      match EntryFor(perms[1..], m)
      case None => None
      case Some(k) => Some(k + 1)
  }

  /** The entry found is the first one for the module, wherever it lies. */
  lemma EntryForFirst(perms: seq<Permission>, m: PermModule, k: nat)
    requires k < |perms| && perms[k].permModule == m
    requires forall j | 0 <= j < k :: perms[j].permModule != m
    ensures EntryFor(perms, m) == Some(k)
  {
  }

  /** `find(...)?.actions.includes(action) ?? false`: only the first entry for the
      module is consulted, and a module with no entry grants nothing. */
  function Granted(perms: seq<Permission>, m: PermModule, a: PermAction): (r: bool)
    ensures r <==> exists k | 0 <= k < |perms| ::
                     perms[k].permModule == m && a in perms[k].actions &&
                     forall j | 0 <= j < k :: perms[j].permModule != m
  {
    match EntryFor(perms, m)
    case None => false
    case Some(k) =>
      assert forall k' | 0 <= k' < |perms| && perms[k'].permModule == m &&
                         (forall j | 0 <= j < k' :: perms[j].permModule != m) :: k' == k;
      a in perms[k].actions
  }

  /** The administrator may do everything except approve in reports and admin. */
  lemma AdminPermissionsTable(m: PermModule, a: PermAction)
    ensures Granted(AdminPermissions, m, a) <==> (a != Approve || m in {ProjectsModule, FinancialsModule, MaterialsModule})
  {
    var k := match m
      case ProjectsModule => 0 case FinancialsModule => 1 case MaterialsModule => 2
      case ReportsModule => 3 case AdminModule => 4;
    EntryForFirst(AdminPermissions, m, k);
    assert Granted(AdminPermissions, m, a) == (a in AdminPermissions[k].actions);
  }

  /** A signed-out session (no permissions) is denied everything. */
  lemma NoPermissionsDeny(m: PermModule, a: PermAction)
    ensures !Granted([], m, a)
  {
  }

  /** `user ? roles.includes(user.role) : false`. */
  function RoleIn(user: Option<User>, roles: seq<UserRole>): (r: bool)
    ensures r <==> user.Some? && exists i | 0 <= i < |roles| :: roles[i] == user.value.role
  {
    user.Some? && user.value.role in roles
  }

  class AuthState {
    var user: Option<User>
    var token: Option<string>
    var isAuthenticated: bool
    var permissions: seq<Permission>

    /** Signed in with a user and a token, or signed out with neither and no permissions. */
    predicate Valid()
      reads this
    {
      (isAuthenticated ==> user.Some? && token.Some?) &&
      (!isAuthenticated ==> user.None? && token.None? && permissions == [])
    }

    constructor ()
      ensures user == None && token == None && !isAuthenticated && permissions == []
      ensures Valid()
    {
      user, token, isAuthenticated, permissions := None, None, false, [];
    }

    method Login(email: string, clock: string)
      modifies this
      ensures email != "" ==> user == Some(DemoUser.(email := email)) && token == Some("demo-token-" + clock) &&
                              isAuthenticated && permissions == AdminPermissions
      ensures email != "" ==> HasRole([Admin]) && HasPermission(ProjectsModule, Approve) &&
                              !HasPermission(ReportsModule, Approve)
      ensures email == "" ==> user == old(user) && token == old(token) &&
                              isAuthenticated == old(isAuthenticated) && permissions == old(permissions)
      ensures old(Valid()) ==> Valid()
    {
      if email != "" {
        user := Some(DemoUser.(email := email));
        token := Some("demo-token-" + clock);
        isAuthenticated := true;
        permissions := AdminPermissions;
      }
    }

    method Logout()
      modifies this
      ensures user == None && token == None && !isAuthenticated && permissions == []
      ensures Valid()
    {
      user, token, isAuthenticated, permissions := None, None, false, [];
    }

    /** `patch` applies `{ ...currentUser, ...updates }`; nothing happens when signed out. */
    method UpdateUser(patch: User -> User)
      modifies this`user
      ensures user == if old(user).Some? then Some(patch(old(user).value)) else None
      ensures old(Valid()) ==> Valid()
    {
      if user.Some? {
        user := Some(patch(user.value));
      }
    }

    function HasPermission(m: PermModule, a: PermAction): (r: bool)
      reads this
      ensures r <==> exists k | 0 <= k < |permissions| ::
                       permissions[k].permModule == m && a in permissions[k].actions &&
                       forall j | 0 <= j < k :: permissions[j].permModule != m
      ensures !isAuthenticated && Valid() ==> !r
      ensures permissions == AdminPermissions ==> (r <==> a != Approve || m in {ProjectsModule, FinancialsModule, MaterialsModule})
    {
      AdminPermissionsTable(m, a);
      Granted(permissions, m, a)
    }

    function HasRole(roles: seq<UserRole>): (r: bool)
      reads this
      ensures r <==> user.Some? && user.value.role in roles
    {
      RoleIn(user, roles)
    }
  }
}
