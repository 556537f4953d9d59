/**
 * `useRouter`: the role gate shared by the router and the sidebar menus, and
 * the route tree whose protected children are filtered by the signed-in
 * user's role.
 */
module Routes {
  import opened Wrappers
  import opened Domain
  import Seqs

  /**
   * `!x.roles?.length || x.roles.includes(role)`: an absent or empty role
   * list admits everyone; otherwise the user's role must be listed (no signed-in
   * user has no role and is then refused).
   */
  predicate RoleAllowed(roles: Option<seq<Role>>, role: Option<Role>) {
    roles.None? || roles.value == [] || (role.Some? && role.value in roles.value)
  }

  datatype Route = Route(path: string, roles: Option<seq<Role>>)

  function AllowedFor(role: Option<Role>): Route -> bool {
    (r: Route) => RoleAllowed(r.roles, role)
  }

  /** `getRoutesByRole`. */
  function RoutesByRole(routes: seq<Route>, role: Option<Role>): (r: seq<Route>)
    ensures |r| <= |routes|
    ensures forall i :: 0 <= i < |r| ==> r[i] in routes && RoleAllowed(r[i].roles, role)
  {
    Seqs.Filter(routes, AllowedFor(role))
  }

  /** A route is kept exactly when it is given and its role list admits the role. */
  lemma RoutesByRoleMembers(routes: seq<Route>, role: Option<Role>, x: Route)
    ensures x in RoutesByRole(routes, role) <==> x in routes && RoleAllowed(x.roles, role)
  {
    Seqs.FilterMembers(routes, AllowedFor(role), x);
  }

  /** The kept routes are in their original order. */
  lemma RoutesByRoleKeepsOrder(routes: seq<Route>, role: Option<Role>)
    ensures Seqs.Subsequence(RoutesByRole(routes, role), routes)
  {
    Seqs.FilterIsSubsequence(routes, AllowedFor(role));
  }

  /** Routes without a role restriction are all kept, for every user or none. */
  lemma UnrestrictedRoutesAllKept(routes: seq<Route>, role: Option<Role>)
    requires forall i :: 0 <= i < |routes| ==> routes[i].roles.None? || routes[i].roles.value == []
    ensures RoutesByRole(routes, role) == routes
  {
    Seqs.FilterAll(routes, AllowedFor(role));
  }

  /** An administrator-only route is kept for an administrator and dropped for anyone else. */
  lemma AdminOnlyRoute(path: string, role: Option<Role>)
    ensures RoutesByRole([Route(path, Some([Admin]))], role) == (if role == Some(Admin) then [Route(path, Some([Admin]))] else [])
  {
    var rs := [Route(path, Some([Admin]))];
    assert rs[1..] == [];
  }

  /** The router's top level: the home page, the login page, and the protected layout with its children. */
  datatype TopRoute = Home | Login | Protected(children: seq<Route>)

  function RouterTree(role: Option<Role>, routes: seq<Route>): (r: seq<TopRoute>)
    ensures |r| == 3 && r[0] == Home && r[1] == Login
    ensures r[2].Protected? && r[2].children == RoutesByRole(routes, role)
  {
    [Home, Login, Protected(RoutesByRole(routes, role))]
  }

  /** "/" and "/login" are there whatever the role; only the protected children depend on it. */
  lemma PublicRoutesIgnoreRole(routes: seq<Route>, a: Option<Role>, b: Option<Role>)
    ensures RouterTree(a, routes)[..2] == RouterTree(b, routes)[..2]
  {
  }
}
