/** Role-based access control of the order-taking platform: the closed sets of
    roles and permissions, the constant role-to-permissions table with its
    fail-closed lookup, the session that holds the current role, and the two
    adapters built on it (the capability gate and the route guard). */
module PermissionContext {

  import opened Options

  /** The closed set of roles (`UserRole`). */
  datatype Role = Admin | Client | Freelancer | Guest {

    /** The string the role is written as, which is also its key in the table. */
    function Name(): string {
      match this
      case Admin => "admin"
      case Client => "client"
      case Freelancer => "freelancer"
      case Guest => "guest"
    }
  }

  /** The closed set of permissions (`Permission`), in declaration order. */
  datatype Permission =
    | ViewMarketplace
    | ViewPersonalCenter
    | PublishOrder
    | EditOrder
    | DeleteOrder
    | AcceptOrder
    | SubmitWork
    | ManageUsers
    | ManageRoles

  /** Every permission, in the order the type declares them. */
  const AllPermissions: seq<Permission> := [
    ViewMarketplace, ViewPersonalCenter, PublishOrder, EditOrder, DeleteOrder,
    AcceptOrder, SubmitWork, ManageUsers, ManageRoles
  ]

  predicate NoDuplicates<T(==)>(s: seq<T>) {
    forall i, j :: 0 <= i < j < |s| ==> s[i] != s[j]
  }

  /** Reads a raw role key back into the closed set; any other string is not a role. */
  function ParseRole(s: string): (r: Option<Role>)
    ensures r.Some? ==> r.value.Name() == s
    ensures r.None? ==> forall x: Role :: x.Name() != s
  {
    if s == "admin" then Some(Admin)
    else if s == "client" then Some(Client)
    else if s == "freelancer" then Some(Freelancer)
    else if s == "guest" then Some(Guest)
    else None
  }

  lemma NameRoundTrip(r: Role)
    ensures ParseRole(r.Name()) == Some(r)
  {
  }

  /** The policy table `rolePermissions`: an object keyed by role name whose
      values are ordered permission lists. */
  const RolePermissions: map<string, seq<Permission>> := map[
    "admin" := [
      ViewMarketplace, ViewPersonalCenter, PublishOrder, EditOrder, DeleteOrder,
      AcceptOrder, SubmitWork, ManageUsers, ManageRoles
    ],
    "client" := [
      ViewMarketplace, ViewPersonalCenter, PublishOrder, EditOrder, DeleteOrder
    ],
    "freelancer" := [
      ViewMarketplace, ViewPersonalCenter, AcceptOrder, SubmitWork
    ],
    "guest" := [
      ViewMarketplace
    ]
  ]

  /** Reference definition of the policy, read by permission rather than by
      role: which roles a permission is granted to. */
  predicate Grants(r: Role, p: Permission) {
    match p
    case ViewMarketplace => true
    case ViewPersonalCenter => r != Guest
    case PublishOrder | EditOrder | DeleteOrder => r == Admin || r == Client
    case AcceptOrder | SubmitWork => r == Admin || r == Freelancer
    case ManageUsers | ManageRoles => r == Admin
  }

  /** `rolePermissions[userRole] || []`: the list granted to a role key, and
      the empty list for a key that is not in the table (fail closed). */
  function PermissionsFor(key: string): (ps: seq<Permission>)
    ensures ps == [] <==> ParseRole(key).None?
    ensures ParseRole(key).Some? ==> forall p :: p in ps <==> Grants(ParseRole(key).value, p)
    ensures NoDuplicates(ps)
  {
    if key in RolePermissions then RolePermissions[key] else []
  }

  /** `Array.prototype.includes`: a scan of the list for `x`. */
  function Includes<T(==)>(xs: seq<T>, x: T): (found: bool)
    ensures found <==> x in xs
  {
    if xs == [] then false else xs[0] == x || Includes(xs[1..], x)
  }

  /** The provider's state: exactly one current role, replaced by `SetRole`.
      Nothing derived from the role is stored; every query recomputes it. */
  class AuthoritySession {
    var role: Role

    /** `PermissionProvider` with `initialRole`, which defaults to the least
        privileged role. */
    constructor (initialRole: Role := Guest)
      ensures role == initialRole
    {
      role := initialRole;
    }

    /** `userPermissions`: the table's list for the current role. */
    function UserPermissions(): (ps: seq<Permission>)
      reads this
      ensures forall p :: p in ps <==> Grants(role, p)
      ensures NoDuplicates(ps) && ViewMarketplace in ps
    {
      NameRoundTrip(role);
      PermissionsFor(role.Name())
    }

    /** `hasPermission(permission)`: membership in `userPermissions`. */
    function HasPermission(p: Permission): (granted: bool)
      reads this
      ensures granted <==> p in UserPermissions()
      ensures granted <==> Grants(role, p)
    {
      Includes(UserPermissions(), p)
    }

    /** `setUserRole(r)`: the role is replaced, and every later query is
        answered from `r`. */
    method SetRole(r: Role)
      modifies this
      ensures role == r
      ensures UserPermissions() == PermissionsFor(r.Name())
      ensures forall p :: HasPermission(p) <==> Grants(r, p)
    {
      role := r;
    }
  }

  /** `WithPermission`: shows `children` when the permission is held and
      `fallback` otherwise; `None` (the default) renders nothing. Reading the
      context outside a provider is a fault, hence `ctx != null`. */
  function WithPermission<T>(ctx: AuthoritySession?, permission: Permission, children: T,
                             fallback: Option<T> := None): (shown: Option<T>)
    requires ctx != null
    reads ctx
    ensures Grants(ctx.role, permission) ==> shown == Some(children)
    ensures !Grants(ctx.role, permission) ==> shown == fallback
  {
    if ctx.HasPermission(permission) then Some(children) else fallback
  }

  /** Where a denied navigation is sent unless the route names another target. */
  const DefaultFallbackPath: string := "/error/403"

  /** The route guard's verdict for one navigation attempt. */
  datatype Decision<T> = Permitted(element: T) | Denied(redirect: string)

  /** `PermissionRoute`: the protected element when the permission is held,
      otherwise a redirect to `fallbackPath`. */
  function PermissionRoute<T>(ctx: AuthoritySession?, permission: Permission, element: T,
                              fallbackPath: string := DefaultFallbackPath): (d: Decision<T>)
    requires ctx != null
    reads ctx
    ensures d.Permitted? <==> Grants(ctx.role, permission)
    ensures d.Permitted? ==> d.element == element
    ensures d.Denied? ==> d.redirect == fallbackPath
  {
    if !ctx.HasPermission(permission) then Denied(fallbackPath) else Permitted(element)
  }

  // ---------------------------------------------------------------------------
  // Properties of the policy table

  /** Each role's list is exactly the hard-coded one, in order, without repeats. */
  lemma PolicyTable()
    ensures PermissionsFor(Admin.Name()) == AllPermissions
    ensures PermissionsFor(Client.Name()) ==
      [ViewMarketplace, ViewPersonalCenter, PublishOrder, EditOrder, DeleteOrder]
    ensures PermissionsFor(Freelancer.Name()) ==
      [ViewMarketplace, ViewPersonalCenter, AcceptOrder, SubmitWork]
    ensures PermissionsFor(Guest.Name()) == [ViewMarketplace]
    ensures forall r: Role :: NoDuplicates(PermissionsFor(r.Name()))
  {
  }

  /** Admin holds every permission; every role's set lies inside admin's and
      contains guest's single permission. */
  lemma AdminTopGuestBottom(r: Role, p: Permission)
    ensures p in AllPermissions && p in PermissionsFor(Admin.Name())
    ensures p in PermissionsFor(r.Name()) ==> p in PermissionsFor(Admin.Name())
    ensures PermissionsFor(Guest.Name()) == [ViewMarketplace]
    ensures ViewMarketplace in PermissionsFor(r.Name())
  {
    NameRoundTrip(r);
    NameRoundTrip(Admin);
  }

  /** Managing users and managing roles are reserved to admin. */
  lemma ManagementIsAdminOnly(r: Role)
    ensures Grants(r, ManageUsers) <==> r == Admin
    ensures Grants(r, ManageRoles) <==> r == Admin
  {
  }

  /** `hi` is granted everything `lo` is. */
  predicate AtLeastAsPrivileged(hi: Role, lo: Role) {
    forall p :: Grants(lo, p) ==> Grants(hi, p)
  }

  /** The roles form a diamond: admin above client and freelancer, which are
      incomparable, and both above guest. */
  lemma PrivilegeOrder(r: Role)
    ensures AtLeastAsPrivileged(Admin, r) && AtLeastAsPrivileged(r, Guest)
    ensures AtLeastAsPrivileged(Client, Freelancer) == false
    ensures AtLeastAsPrivileged(Freelancer, Client) == false
  {
    assert Grants(Freelancer, AcceptOrder) && !Grants(Client, AcceptOrder);
    assert Grants(Client, PublishOrder) && !Grants(Freelancer, PublishOrder);
  }

  // ---------------------------------------------------------------------------
  // Sessions as their clients use them

  /** A provider given no initial role starts as guest with `[view_marketplace]`. */
  method DefaultSessionScenario() returns (role: Role, granted: seq<Permission>)
    ensures role == Guest && granted == [ViewMarketplace]
  {
    var s := new AuthoritySession();
    role := s.role;
    granted := s.UserPermissions();
    assert ViewMarketplace in granted;
  }

  /** Setting the same role twice leaves the same session as setting it once,
      and the answers come from the new role. */
  method SetRoleTwiceScenario(initial: Role, r: Role) returns (once: seq<Permission>, twice: seq<Permission>)
    ensures once == twice
    ensures forall p :: p in twice <==> Grants(r, p)
  {
    var a := new AuthoritySession(initial);
    a.SetRole(r);
    once := a.UserPermissions();
    var b := new AuthoritySession(initial);
    b.SetRole(r);
    b.SetRole(r);
    twice := b.UserPermissions();
  }

  /** The gate on `publish_order` shows the fallback (nothing) to a guest and
      the content to a client. */
  method GateScenario<T>(content: T) returns (asGuest: Option<T>, asClient: Option<T>)
    ensures asGuest == None && asClient == Some(content)
  {
    var s := new AuthoritySession(Guest);
    asGuest := WithPermission(s, PublishOrder, content);
    s.SetRole(Client);
    asClient := WithPermission(s, PublishOrder, content);
  }

  /** The guard on `manage_users` denies a freelancer with the default target
      and, re-evaluated after a switch to admin, permits. */
  method GuardScenario<T>(element: T) returns (asFreelancer: Decision<T>, asAdmin: Decision<T>)
    ensures asFreelancer == Denied("/error/403")
    ensures asAdmin == Permitted(element)
  {
    var s := new AuthoritySession(Freelancer);
    asFreelancer := PermissionRoute(s, ManageUsers, element);
    s.SetRole(Admin);
    asAdmin := PermissionRoute(s, ManageUsers, element);
  }
}
