# Role-based access control of the order-taking platform

This project models the access-control core of the order-taking front end in Dafny, and proves properties of the model.

- **Policy.** `Role` (admin, client, freelancer, guest) and `Permission` (nine capability tokens) are closed enumerations. `RolePermissions` is the constant table from role name to an ordered permission list. `PermissionsFor` is its lookup. It fails closed: a key that is not a role yields the empty list.
- **Session.** `AuthoritySession` is the provider's state: one mutable `role` field. It starts at the given initial role, which defaults to `guest`. `SetRole` replaces it. `UserPermissions` and `HasPermission` are functions of the current role, so nothing derived from the role is ever stale.
- **Adapters.** `WithPermission` is the capability gate. It yields the children when the permission is held and the fallback otherwise; the fallback defaults to nothing. `PermissionRoute` is the route guard. It yields `Permitted(element)` or `Denied(fallbackPath)`, with `/error/403` as the default target. Both read the permission context, which only works inside a provider. That requirement is the precondition `ctx != null`.
- **Routes.** `Routes` is the hash router's table, flattened to full paths: 25 leaf routes. Five `/admin/order-taking/...` routes are wrapped in `PermissionRoute`. `Resolve` gives what one navigation yields for a session: a screen, a redirect, or no match. Both entry points mount the router inside a `PermissionProvider` (src/main.tsx:19, src/App.tsx:8), so `Resolve` always takes a session; navigation outside a provider is not modelled.

`Grants` is an independent reference for the policy. It is the same table read by permission: for each permission, which roles hold it. `PermissionsFor` is proved to agree with it for every key.

Each role's grant is an ordered array in the code, and the model follows the code: the lists are sequences, proved to be exactly the hard-coded ones, in order, without duplicates.

## Model

| member | source | states |
|---|---|---|
| `PermissionContext.ParseRole` | src/modules/OrderTaking/PermissionControl/PermissionContext.tsx:6 | a string is a role only if it is that role's name; a string that is no role's name parses to nothing |
| `PermissionContext.NameRoundTrip` | src/modules/OrderTaking/PermissionControl/PermissionContext.tsx:6 | every role's name parses back to that role |
| `PermissionContext.PermissionsFor` | src/modules/OrderTaking/PermissionControl/PermissionContext.tsx:77 | the lookup `rolePermissions[key] \|\| []` is empty exactly when the key is not a role (fail closed, never an error); for a role it holds exactly the permissions `Grants` gives that role, without duplicates |
| `PermissionContext.PolicyTable` | src/modules/OrderTaking/PermissionControl/PermissionContext.tsx:21-49 | admin, client, freelancer and guest get exactly the hard-coded lists, in order, with no duplicates |
| `PermissionContext.AdminTopGuestBottom` | src/modules/OrderTaking/PermissionControl/PermissionContext.tsx:9-49 | admin holds every permission value; every role's list is inside admin's; guest's list is `[view_marketplace]`, and every role holds `view_marketplace` |
| `PermissionContext.ManagementIsAdminOnly` | src/modules/OrderTaking/PermissionControl/PermissionContext.tsx:21-49 | `manage_users` and `manage_roles` are granted to admin and to no other role |
| `PermissionContext.PrivilegeOrder` | src/modules/OrderTaking/PermissionControl/PermissionContext.tsx:21-49 | the roles form a diamond: admin is at least as privileged as every role, every role at least as guest, and client and freelancer are incomparable |
| `PermissionContext.Includes` | src/modules/OrderTaking/PermissionControl/PermissionContext.tsx:81 | the `includes` scan is true exactly when the element is in the list |
| `PermissionContext.AuthoritySession.constructor` | src/modules/OrderTaking/PermissionControl/PermissionContext.tsx:68-72 | the provider starts at `initialRole`, which defaults to guest |
| `PermissionContext.AuthoritySession.UserPermissions` | src/modules/OrderTaking/PermissionControl/PermissionContext.tsx:77 | `userPermissions` holds exactly the permissions the current role is granted, without duplicates, and always includes `view_marketplace` |
| `PermissionContext.AuthoritySession.HasPermission` | src/modules/OrderTaking/PermissionControl/PermissionContext.tsx:80-82 | `hasPermission(p)` is true iff `p` is in `userPermissions`, iff the current role is granted `p`; it is a function, so it changes no state |
| `PermissionContext.AuthoritySession.SetRole` | src/modules/OrderTaking/PermissionControl/PermissionContext.tsx:72 | after `setUserRole(r)` the role is `r`, and `userPermissions` and `hasPermission` answer from `r` |
| `PermissionContext.WithPermission` | src/modules/OrderTaking/PermissionControl/PermissionContext.tsx:115-123 | inside a provider, the gate yields the children iff the current role is granted the permission, and the fallback (nothing by default) otherwise |
| `PermissionContext.PermissionRoute` | src/modules/OrderTaking/PermissionControl/PermissionContext.tsx:132-144 | inside a provider, the guard permits iff the current role is granted the permission, and then yields the protected element; otherwise it redirects to `fallbackPath`, by default `/error/403`; it never does both |
| `PermissionContext.DefaultSessionScenario` | src/modules/OrderTaking/PermissionControl/PermissionContext.tsx:68-77 | a provider without an initial role has role guest and permissions exactly `[view_marketplace]` |
| `PermissionContext.SetRoleTwiceScenario` | src/modules/OrderTaking/PermissionControl/PermissionContext.tsx:72-82 | setting the same role twice gives the same permissions as setting it once, namely those of the new role |
| `PermissionContext.GateScenario` | src/modules/OrderTaking/PermissionControl/PermissionContext.tsx:115-123 | a gate on `publish_order` shows nothing to a guest and, after a switch to client, the content |
| `PermissionContext.GuardScenario` | src/modules/OrderTaking/PermissionControl/PermissionContext.tsx:132-144 | a guard on `manage_users` denies a freelancer with `/error/403`; evaluated again after a switch to admin, it permits |
| `Router.Lookup` | src/router/index.tsx:23-137 | the route found for a path is in the table and has that path; nothing is found exactly when no route has that path |
| `Router.LookupUnique` | src/router/index.tsx:23-137 | when paths are distinct, each route is the one its path finds |
| `Router.RoutesRegisterListedPaths` | src/router/index.tsx:23-137 | the route table registers, in order, exactly the 25 full paths written out in the router (children joined to their parent's path) |
| `Router.RegisteredPathsDistinct` | src/router/index.tsx:23-137 | those 25 full paths are pairwise different |
| `Router.RoutePathsDistinct` | src/router/index.tsx:23-137 | no two routes of the table share a full path |
| `Router.RouteAt` | src/router/index.tsx:23-137 | each route of the table is the one its own path resolves to |
| `Router.GuardedExactly` | src/router/index.tsx:106-130 | the routes at positions 19–23 of the table (the five order-taking sub-paths) are exactly the ones wrapped in `PermissionRoute`, and none of them passes `fallbackPath` |
| `Router.GuardedRouteTable` | src/router/index.tsx:111-130 | personal-center requires `view_personal_center`, marketplace `view_marketplace`, my-published-orders `publish_order`, accepted-orders `accept_order`, user-role-management `manage_users`, each protecting its own screen |
| `Router.Mount` | src/router/index.tsx:25-135 | mounting a plain screen renders it; mounting a `<Navigate to>` redirects to its target; mounting a guarded element renders its screen iff the role holds its permission and otherwise redirects to its fallback path, by default `/error/403`; mounting never yields "no match" |
| `Router.MountAt` | src/router/index.tsx:23-137 | navigating to a route's own path mounts exactly that route's element |
| `Router.Resolve` | src/router/index.tsx:23-137 | a navigation yields "no match" iff no route has the path; on a guarded path it renders the protected screen iff the current role holds the route's permission, and otherwise redirects to `/error/403` |
| `Router.ResolveGuardedRoute` | src/router/index.tsx:111-130 | a route guarding a screen with a permission and no fallback path renders the screen when granted and redirects to `/error/403` when not |
| `Router.ScreenAt` | src/router/index.tsx:32-50 | a route that mounts a plain screen is unguarded and renders that screen for every role |
| `Router.UnguardedResolve` | src/router/index.tsx:32-110 | on a path without a guard, any two sessions, whatever their roles, get the same outcome |
| `Router.UnguardedPathsReachable` | src/router/index.tsx:32-110 | the order-taking index, the three error pages and the top-level marketplace, accepted-orders, my-published-orders and personal-center screens are registered, unguarded and rendered for every role |
| `Router.RootRedirects` | src/router/index.tsx:25-30 | navigating to `/` redirects to `/home`, for every role |
| `Router.AdminRedirects` | src/router/index.tsx:54-61 | navigating to `/admin` redirects to `/index`, for every role |
| `Router.RedirectTargetsUnregistered` | src/router/index.tsx:23-137 | neither the guard's default target `/error/403` nor `/index` is a registered path: navigating to either finds no route |
| `Router.OnlyAdminManagesUsers` | src/router/index.tsx:127-130 | the user-role management screen is rendered for admin; every other role is redirected to `/error/403` |
| `Router.GuestReach` | src/router/index.tsx:111-130 | a guest is shown the order-taking marketplace and is redirected to `/error/403` from the other four guarded paths |
| `Router.ReachMonotone` | src/router/index.tsx:111-130 | a role granted everything another role is granted is shown every screen the other is shown |
| `Router.AdminReachesGuarded` | src/router/index.tsx:111-130 | admin is shown the protected screen of every guarded path |
| `Router.RoleSwitchScenario` | src/router/index.tsx:127-130 | navigating to user-role management as a freelancer redirects to `/error/403`; after a switch to admin the same navigation shows the screen |

## Left out

- React mechanics are not modelled: re-rendering, the `useMemo` dependency list, the `console.log` call, and the effect of `<Navigate>`. A redirect is a returned value.
- A redirect is not followed: `Resolve` models one navigation. The guard's default `/error/403` is an absolute path, but the 403 page is registered under `/admin/error/403`. The `/admin` index route redirects to `/index`, which is also not a registered path. `Router.RedirectTargetsUnregistered` states both, so following either redirect would find no route.
- `Router.Resolve` compares full paths exactly. The router's case-insensitive matching and its tolerance of a trailing slash are not modelled.
- `Router.Lookup` takes the first route with the path. The router instead ranks matches by specificity. For this table the two agree, because no two routes share a path (`Router.RoutePathsDistinct`).
- Route nesting is flattened. The `AdminLayout` wrapper around the `/admin` children is not modelled, and neither are the screens' contents.
- `PermissionContext.PermissionsFor` models the table as holding only its four own keys. A JavaScript object lookup would also find inherited keys such as `constructor`; the typed `UserRole` key rules those out.
- `initialRole="admin"`, which the application entry points pass, is not modelled separately. It is a constructor argument like any other.
- Concurrent access is not modelled. The code is single-threaded and has one writer.
- The screen components, their mock data and their display conditions are not modelled. `/home` and `/admin/order-taking` render the role switcher, which reads the permission context and would fail outside a provider. Every navigation is modelled inside a provider, so that failure does not arise here. The sources of the other screens and of `AdminLayout` are not part of this model.
- The role switcher's colour choice and the separate permission vocabulary shown on the user-role management screen are not modelled. Neither is wired to the policy table.
