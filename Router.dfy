/** The hash router's route table, flattened to full paths, and what a
    navigation to a path yields for the current session: a screen, a redirect,
    or no match. Five order-taking routes are wrapped in the permission guard;
    every other route shows its screen to every role. The application's entry
    points always mount the router inside a permission provider, so every
    navigation is evaluated against a session. */
module Router {

  import opened Options
  import opened PermissionContext

  /** The screens the table mounts. */
  datatype Page =
    | Home | AcceptedOrders | MyPublishedOrders | Marketplace | PersonalCenter
    | AdminIndex | Deepseek | FirstLevelMenu | SecondLevelParentMenu | SecondLevelChildMenu
    | TabPage | Error403 | Error404 | Error500 | UserManagement
    | OrderTakingIndex | UserRoleManagement | Login

  /** A route's element: a screen, a `<Navigate to=...>` redirect, or a screen
      wrapped in `PermissionRoute` with its required permission and the
      `fallbackPath` prop when the route passes one. */
  datatype Element =
    | Screen(page: Page)
    | NavigateTo(target: string)
    | Protected(permission: Permission, fallbackPath: Option<string>, protectedPage: Page)

  datatype Route = Route(path: string, element: Element)

  /** What one navigation attempt yields. */
  datatype Outcome = Rendered(page: Page) | Redirected(to: string) | NoMatch

  const RootPath: string := "/"
  const HomePath: string := "/home"
  const AdminPath: string := "/admin"
  const AdminIndexTarget: string := "/index"
  const PersonalCenterPath: string := "/admin/order-taking/personal-center"
  const MarketplacePath: string := "/admin/order-taking/marketplace"
  const PublishedOrdersPath: string := "/admin/order-taking/my-published-orders"
  const AcceptedOrdersPath: string := "/admin/order-taking/accepted-orders"
  const RoleManagementPath: string := "/admin/order-taking/user-role-management"

  /** Every leaf route, with the nested relative paths joined to their parent. */
  const Routes: seq<Route> := [
    Route(RootPath, NavigateTo(HomePath)),
    Route(HomePath, Screen(Home)),
    Route("/accepted-orders", Screen(AcceptedOrders)),
    Route("/my-published-orders", Screen(MyPublishedOrders)),
    Route("/marketplace", Screen(Marketplace)),
    Route("/personal-center", Screen(PersonalCenter)),
    Route(AdminPath, NavigateTo(AdminIndexTarget)),
    Route("/admin/index", Screen(AdminIndex)),
    Route("/admin/deepseek", Screen(Deepseek)),
    Route("/admin/multi-level/first", Screen(FirstLevelMenu)),
    Route("/admin/multi-level/second", Screen(SecondLevelParentMenu)),
    Route("/admin/multi-level/second/sub", Screen(SecondLevelChildMenu)),
    Route("/admin/system/tabs", Screen(TabPage)),
    Route("/admin/error/403", Screen(Error403)),
    Route("/admin/error/404", Screen(Error404)),
    Route("/admin/error/500", Screen(Error500)),
    Route("/admin/management/user", Screen(UserManagement)),
    Route("/admin/about", Screen(UserManagement)),
    Route("/admin/order-taking", Screen(OrderTakingIndex)),
    Route(PersonalCenterPath, Protected(ViewPersonalCenter, None, PersonalCenter)),
    Route(MarketplacePath, Protected(ViewMarketplace, None, Marketplace)),
    Route(PublishedOrdersPath, Protected(PublishOrder, None, MyPublishedOrders)),
    Route(AcceptedOrdersPath, Protected(AcceptOrder, None, AcceptedOrders)),
    Route(RoleManagementPath, Protected(ManageUsers, None, UserRoleManagement)),
    Route("/login", Screen(Login))
  ]

  /** The unguarded paths among the order-taking, error and top-level screens. */
  const UnguardedPaths: seq<string> := [
    "/admin/order-taking", "/admin/error/403", "/admin/error/404", "/admin/error/500",
    "/marketplace", "/accepted-orders", "/my-published-orders", "/personal-center"
  ]

  predicate DistinctPaths(routes: seq<Route>) {
    forall i, j :: 0 <= i < j < |routes| ==> routes[i].path != routes[j].path
  }

  /** The route registered for `path`, if any (the first, scanning in order). */
  function Lookup(routes: seq<Route>, path: string): (found: Option<Route>)
    ensures found.Some? ==> found.value in routes && found.value.path == path
    ensures found.None? <==> forall i :: 0 <= i < |routes| ==> routes[i].path != path
  {
    if routes == [] then None
    else if routes[0].path == path then Some(routes[0])
    else Lookup(routes[1..], path)
  }

  /** When paths are distinct the registered route is unique, so which match
      the router prefers does not matter. */
  lemma LookupUnique(routes: seq<Route>, i: nat)
    requires DistinctPaths(routes) && i < |routes|
    ensures Lookup(routes, routes[i].path) == Some(routes[i])
  {
  }

  function RouteFor(path: string): Option<Route> { Lookup(Routes, path) }

  /** What mounting an element yields; of the route elements, only a
      `PermissionRoute` consults the session's role. */
  function Mount(ctx: AuthoritySession, e: Element): (o: Outcome)
    reads ctx
    ensures e.Screen? ==> o == Rendered(e.page)
    ensures e.NavigateTo? ==> o == Redirected(e.target)
    ensures e.Protected? ==> (o.Rendered? <==> Grants(ctx.role, e.permission))
    ensures e.Protected? && o.Rendered? ==> o.page == e.protectedPage
    ensures e.Protected? && o.Redirected? ==> o.to == e.fallbackPath.GetOr(DefaultFallbackPath)
    ensures o != NoMatch
  {
    match e
    case Screen(pg) => Rendered(pg)
    case NavigateTo(t) => Redirected(t)
    case Protected(p, fallback, pg) =>
      match PermissionRoute(ctx, p, pg, fallback.GetOr(DefaultFallbackPath))
      case Permitted(shown) => Rendered(shown)
      case Denied(to) => Redirected(to)
  }

  /** `path` is registered with a `PermissionRoute` element. */
  predicate IsGuarded(path: string) {
    RouteFor(path).Some? && RouteFor(path).value.element.Protected?
  }

  /** One navigation attempt to `path`, the guard evaluated against `ctx`. */
  function Resolve(ctx: AuthoritySession, path: string): (o: Outcome)
    reads ctx
    ensures o == NoMatch <==> forall i :: 0 <= i < |Routes| ==> Routes[i].path != path
    ensures IsGuarded(path) ==>
      (o.Rendered? <==> Grants(ctx.role, RouteFor(path).value.element.permission))
    ensures IsGuarded(path) && o.Rendered? ==> o.page == RouteFor(path).value.element.protectedPage
    ensures IsGuarded(path) && !o.Rendered? ==> o == Redirected(DefaultFallbackPath)
  {
    match RouteFor(path)
    case None => NoMatch
    case Some(rt) =>
      GuardedExactly();
      Mount(ctx, rt.element)
  }

  // ---------------------------------------------------------------------------
  // Properties of the route table

  /** A route whose element is `<PermissionRoute permission={p} element={pg} />`. */
  function GuardedRoute(path: string, p: Permission, pg: Page): Route {
    Route(path, Protected(p, None, pg))
  }

  /** The full paths the table registers, in its order. This repeats the paths
      of `Routes` as plain strings, so that their distinctness is cheap to
      prove; `RoutesRegisterListedPaths` ties the two together. */
  const RegisteredPaths: seq<string> := [
    RootPath, HomePath, "/accepted-orders", "/my-published-orders", "/marketplace", "/personal-center",
    AdminPath, "/admin/index", "/admin/deepseek", "/admin/multi-level/first",
    "/admin/multi-level/second", "/admin/multi-level/second/sub", "/admin/system/tabs",
    "/admin/error/403", "/admin/error/404", "/admin/error/500", "/admin/management/user",
    "/admin/about", "/admin/order-taking", PersonalCenterPath, MarketplacePath, PublishedOrdersPath,
    AcceptedOrdersPath, RoleManagementPath,
    "/login"
  ]

  /** The table registers exactly `RegisteredPaths`, in that order. */
  lemma RoutesRegisterListedPaths()
    ensures |Routes| == |RegisteredPaths|
    ensures forall i :: 0 <= i < |Routes| ==> Routes[i].path == RegisteredPaths[i]
  {
  }

  lemma RegisteredPathsDistinct()
    ensures forall i, j :: 0 <= i < j < |RegisteredPaths| ==> RegisteredPaths[i] != RegisteredPaths[j]
  {
  }

  /** No two routes share a path, so each path has at most one route. */
  lemma RoutePathsDistinct()
    ensures DistinctPaths(Routes)
  {
    RoutesRegisterListedPaths();
    RegisteredPathsDistinct();
  }

  /** Exactly the routes at positions 19 to 23, the five order-taking
      sub-paths, are guarded, and none of them passes `fallbackPath`. */
  lemma GuardedExactly()
    ensures forall i :: 0 <= i < |Routes| ==> (Routes[i].element.Protected? <==> 19 <= i < 24)
    ensures forall i :: 0 <= i < |Routes| && Routes[i].element.Protected? ==>
      Routes[i].element.fallbackPath == None
  {
  }

  /** The permission each guarded path requires, and the screen it protects. */
  lemma GuardedRouteTable()
    ensures RouteFor(PersonalCenterPath) == Some(GuardedRoute(PersonalCenterPath, ViewPersonalCenter, PersonalCenter))
    ensures RouteFor(MarketplacePath) == Some(GuardedRoute(MarketplacePath, ViewMarketplace, Marketplace))
    ensures RouteFor(PublishedOrdersPath) == Some(GuardedRoute(PublishedOrdersPath, PublishOrder, MyPublishedOrders))
    ensures RouteFor(AcceptedOrdersPath) == Some(GuardedRoute(AcceptedOrdersPath, AcceptOrder, AcceptedOrders))
    ensures RouteFor(RoleManagementPath) == Some(GuardedRoute(RoleManagementPath, ManageUsers, UserRoleManagement))
  {
    RoutePathsDistinct();
    assert Routes[19] == GuardedRoute(PersonalCenterPath, ViewPersonalCenter, PersonalCenter);
    LookupUnique(Routes, 19);
    assert Routes[20] == GuardedRoute(MarketplacePath, ViewMarketplace, Marketplace);
    LookupUnique(Routes, 20);
    assert Routes[21] == GuardedRoute(PublishedOrdersPath, PublishOrder, MyPublishedOrders);
    LookupUnique(Routes, 21);
    assert Routes[22] == GuardedRoute(AcceptedOrdersPath, AcceptOrder, AcceptedOrders);
    LookupUnique(Routes, 22);
    assert Routes[23] == GuardedRoute(RoleManagementPath, ManageUsers, UserRoleManagement);
    LookupUnique(Routes, 23);
  }

  /** Each route of the table is the one its path resolves to. */
  lemma RouteAt(i: nat)
    requires i < |Routes|
    ensures RouteFor(Routes[i].path) == Some(Routes[i])
  {
    RoutePathsDistinct();
    LookupUnique(Routes, i);
  }

  /** Navigating to a route's own path mounts that route's element. */
  lemma MountAt(ctx: AuthoritySession, i: nat)
    requires i < |Routes|
    ensures Resolve(ctx, Routes[i].path) == Mount(ctx, Routes[i].element)
  {
    RouteAt(i);
  }

  /** On any other path the role makes no difference: two sessions get the
      same outcome. */
  lemma UnguardedResolve(a: AuthoritySession, b: AuthoritySession, path: string)
    ensures !IsGuarded(path) ==> Resolve(a, path) == Resolve(b, path)
  {
  }

  /** A registered route that mounts a screen shows it, whatever the session. */
  lemma ScreenAt(ctx: AuthoritySession, i: nat)
    requires i < |Routes| && Routes[i].element.Screen?
    ensures !IsGuarded(Routes[i].path)
    ensures Resolve(ctx, Routes[i].path) == Rendered(Routes[i].element.page)
  {
    RouteAt(i);
  }

  /** The outcome of a route that guards `pg` with `p` and passes no
      `fallbackPath`. */
  lemma ResolveGuardedRoute(ctx: AuthoritySession, path: string, p: Permission, pg: Page)
    ensures RouteFor(path) == Some(GuardedRoute(path, p, pg)) ==>
      Resolve(ctx, path) == if Grants(ctx.role, p) then Rendered(pg) else Redirected(DefaultFallbackPath)
  {
  }

  /** The order-taking index, the error pages and the four top-level screens
      are registered and unguarded: every role reaches them. */
  lemma UnguardedPathsReachable(ctx: AuthoritySession, k: nat)
    requires k < |UnguardedPaths|
    ensures !IsGuarded(UnguardedPaths[k])
    ensures Resolve(ctx, UnguardedPaths[k]).Rendered?
  {
    var i := [18, 13, 14, 15, 4, 2, 3, 5][k];
    assert UnguardedPaths[k] == Routes[i].path && Routes[i].element.Screen?;
    ScreenAt(ctx, i);
  }

  /** The root path redirects to `/home`, whatever the role. */
  lemma RootRedirects(ctx: AuthoritySession)
    ensures Resolve(ctx, RootPath) == Redirected(HomePath)
  {
    assert Routes[0] == Route(RootPath, NavigateTo(HomePath));
    MountAt(ctx, 0);
  }

  /** `/admin` redirects to `/index`, whatever the role. */
  lemma AdminRedirects(ctx: AuthoritySession)
    ensures Resolve(ctx, AdminPath) == Redirected(AdminIndexTarget)
  {
    assert Routes[6] == Route(AdminPath, NavigateTo(AdminIndexTarget));
    MountAt(ctx, 6);
  }

  /** Neither redirect target of a denial or of `/admin` is among the
      registered paths. */
  lemma TargetsNotListed()
    ensures forall i :: 0 <= i < |RegisteredPaths| ==>
      RegisteredPaths[i] != DefaultFallbackPath && RegisteredPaths[i] != AdminIndexTarget
  {
  }

  /** The guard's default target `/error/403` and the `/admin` redirect target
      `/index` are not registered paths: following either finds no route. */
  lemma RedirectTargetsUnregistered(ctx: AuthoritySession)
    ensures Resolve(ctx, DefaultFallbackPath) == NoMatch
    ensures Resolve(ctx, AdminIndexTarget) == NoMatch
  {
    RoutesRegisterListedPaths();
    TargetsNotListed();
  }

  /** Only an admin is shown the user-role management screen. */
  lemma OnlyAdminManagesUsers(ctx: AuthoritySession)
    ensures Resolve(ctx, RoleManagementPath) ==
      if ctx.role == Admin then Rendered(UserRoleManagement) else Redirected(DefaultFallbackPath)
  {
    GuardedRouteTable();
    ResolveGuardedRoute(ctx, RoleManagementPath, ManageUsers, UserRoleManagement);
    ManagementIsAdminOnly(ctx.role);
  }

  /** A guest is shown the order-taking marketplace and redirected to
      `/error/403` from the other four guarded screens. */
  lemma GuestReach(ctx: AuthoritySession)
    requires ctx.role == Guest
    ensures Resolve(ctx, MarketplacePath) == Rendered(Marketplace)
    ensures Resolve(ctx, PersonalCenterPath) == Redirected("/error/403")
    ensures Resolve(ctx, PublishedOrdersPath) == Redirected("/error/403")
    ensures Resolve(ctx, AcceptedOrdersPath) == Redirected("/error/403")
    ensures Resolve(ctx, RoleManagementPath) == Redirected("/error/403")
  {
    assert Grants(Guest, ViewMarketplace);
    assert !Grants(Guest, ViewPersonalCenter) && !Grants(Guest, PublishOrder);
    assert !Grants(Guest, AcceptOrder) && !Grants(Guest, ManageUsers);
    GuardedRouteTable();
    ResolveGuardedRoute(ctx, PersonalCenterPath, ViewPersonalCenter, PersonalCenter);
    ResolveGuardedRoute(ctx, MarketplacePath, ViewMarketplace, Marketplace);
    ResolveGuardedRoute(ctx, PublishedOrdersPath, PublishOrder, MyPublishedOrders);
    ResolveGuardedRoute(ctx, AcceptedOrdersPath, AcceptOrder, AcceptedOrders);
    ResolveGuardedRoute(ctx, RoleManagementPath, ManageUsers, UserRoleManagement);
  }

  /** A role granted at least what another is reaches every screen the other
      reaches, with the same outcome. */
  lemma ReachMonotone(lo: AuthoritySession, hi: AuthoritySession, path: string)
    requires AtLeastAsPrivileged(hi.role, lo.role)
    ensures Resolve(lo, path).Rendered? ==> Resolve(hi, path) == Resolve(lo, path)
  {
  }

  /** An admin reaches every guarded screen. */
  lemma AdminReachesGuarded(ctx: AuthoritySession, path: string)
    requires ctx.role == Admin
    ensures IsGuarded(path) ==> Resolve(ctx, path) == Rendered(RouteFor(path).value.element.protectedPage)
  {
    if IsGuarded(path) {
      assert Grants(Admin, RouteFor(path).value.element.permission);
    }
  }

  /** A freelancer sent to user-role management is redirected to `/error/403`;
      after switching to admin the same navigation shows the screen. */
  method RoleSwitchScenario() returns (before: Outcome, after: Outcome)
    ensures before == Redirected(DefaultFallbackPath)
    ensures after == Rendered(UserRoleManagement)
  {
    var s := new AuthoritySession(Freelancer);
    OnlyAdminManagesUsers(s);
    before := Resolve(s, RoleManagementPath);
    s.SetRole(Admin);
    OnlyAdminManagesUsers(s);
    after := Resolve(s, RoleManagementPath);
  }
}
