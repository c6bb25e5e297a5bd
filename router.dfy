/**
 * The client's route table and the guard that runs before every navigation:
 * a signed-out visitor heading for a protected route is sent to the login page.
 */
module Router {
  import opened Wrappers
  import opened AuthStore

  /** A nested route: its path is relative to its parent's. */
  datatype ChildRoute = ChildRoute(path: string)

  /** A top-level route record and whether its meta asks for a signed-in user. */
  datatype RouteRecord = RouteRecord(path: string, children: seq<ChildRoute>, requiresAuth: bool)

  const LoginPath: string := "/login"

  /** The table: landing, login and registration pages, then the dashboard and its three pages. */
  const Routes: seq<RouteRecord> := [
    RouteRecord("/", [], false),
    RouteRecord(LoginPath, [], false),
    RouteRecord("/register", [], false),
    RouteRecord("/", [ChildRoute("receipts"), ChildRoute("create"), ChildRoute("stats")], true)
  ]

  /** A location the router can resolve: its full path and its merged requiresAuth meta. */
  datatype Location = Location(path: string, requiresAuth: bool)

  /** A child's full path: the parent's path, a separating slash when needed, the child's path. */
  function JoinPath(parent: string, child: string): (full: string)
    ensures child != [] && child[0] == '/' ==> full == child
    ensures !(child != [] && child[0] == '/') ==>
              && |parent| + |child| <= |full| <= |parent| + |child| + 1
              && |full| > |child|
              && full[..|parent|] == parent
              && full[|full| - |child|..] == child
              && full[|full| - |child| - 1] == '/'
  {
    if child != [] && child[0] == '/' then child
    else if parent != [] && parent[|parent| - 1] == '/' then parent + child
    else parent + "/" + child
  }

  /** The children of a record, each inheriting the parent's meta. */
  function ChildLocations(parent: RouteRecord, children: seq<ChildRoute>): (ls: seq<Location>)
    ensures |ls| == |children|
    ensures forall i :: 0 <= i < |ls| ==> ls[i].requiresAuth == parent.requiresAuth
  {
    if children == [] then []
    else [Location(JoinPath(parent.path, children[0].path), parent.requiresAuth)]
         + ChildLocations(parent, children[1..])
  }

  /** Every record, followed by its children, in the order the table lists them. */
  function Locations(routes: seq<RouteRecord>): (ls: seq<Location>)
    ensures |ls| >= |routes|
    ensures routes != [] ==> ls[0] == Location(routes[0].path, routes[0].requiresAuth)
  {
    if routes == [] then []
    else [Location(routes[0].path, routes[0].requiresAuth)]
         + ChildLocations(routes[0], routes[0].children)
         + Locations(routes[1..])
  }

  /** The first location with this exact path; later duplicates are shadowed. */
  function Resolve(locations: seq<Location>, path: string): (r: Option<Location>)
    ensures r.Some? ==> r.value in locations && r.value.path == path
    ensures r.None? ==> forall l :: l in locations ==> l.path != path
  {
    if locations == [] then None
    else if locations[0].path == path then Some(locations[0])
    else Resolve(locations[1..], path)
  }

  /** to.meta.requiresAuth for a navigation to path: false for a path no route matches. */
  function RequiresAuth(path: string): (r: bool)
    ensures r <==> path == "/receipts" || path == "/create" || path == "/stats"
  {
    ResolvePublic(path);
    ResolveDashboard(path);
    ResolveUnknown(path);
    var target := Resolve(Locations(Routes), path);
    target.Some? && target.value.requiresAuth
  }

  /** What the guard passes to next: go on, or go elsewhere. */
  datatype Decision = Proceed | Redirect(path: string)

  /** router.beforeEach: one decision per navigation, read off the target's meta and the session's user. */
  function Guard(requiresAuth: bool, user: Option<Account>): (d: Decision)
    ensures d.Redirect? <==> requiresAuth && user.None?
    ensures d.Redirect? ==> d.path == LoginPath
  {
    if requiresAuth && user.None? then Redirect(LoginPath) else Proceed
  }

  /** The guard's decision for a navigation to path. */
  function Navigate(path: string, user: Option<Account>): (d: Decision)
    ensures d.Redirect? <==> user.None? && (path == "/receipts" || path == "/create" || path == "/stats")
    ensures d.Redirect? ==> d.path == LoginPath
  {
    Guard(RequiresAuth(path), user)
  }

  /** The dashboard's relative child paths joined to its "/". */
  lemma DashboardPaths()
    ensures JoinPath("/", "receipts") == "/receipts"
    ensures JoinPath("/", "create") == "/create"
    ensures JoinPath("/", "stats") == "/stats"
  {
  }

  /** The dashboard's children, with their joined paths and the inherited meta. */
  lemma {:induction false} DashboardLocations()
    ensures ChildLocations(Routes[3], Routes[3].children)
         == [Location("/receipts", true), Location("/create", true), Location("/stats", true)]
  {
    var dashboard := Routes[3];
    var children := dashboard.children;
    DashboardPaths();
    assert children[1..][1..][1..] == [];
    assert ChildLocations(dashboard, children[1..][1..]) == [Location("/stats", true)];
    assert ChildLocations(dashboard, children[1..]) == [Location("/create", true), Location("/stats", true)];
  }

  /** The table flattened: what the router matches against, in order. */
  lemma {:induction false} RouteLocations()
    ensures Locations(Routes) == [
      Location("/", false), Location(LoginPath, false), Location("/register", false),
      Location("/", true), Location("/receipts", true), Location("/create", true), Location("/stats", true)]
  {
    DashboardLocations();
    var tail3 := Routes[1..][1..][1..];
    assert tail3 == [Routes[3]] && tail3[1..] == [];
    assert Locations(tail3) == [Location("/", true)] + ChildLocations(Routes[3], Routes[3].children);
    assert Locations(Routes[1..][1..]) == [Location("/register", false)] + Locations(tail3);
    assert Locations(Routes[1..]) == [Location(LoginPath, false)] + Locations(Routes[1..][1..]);
  }

  /** Resolution picks the first location with the path. */
  lemma {:induction false} ResolveFirst(locations: seq<Location>, i: nat, path: string)
    requires i < |locations| && locations[i].path == path
    requires forall j :: 0 <= j < i ==> locations[j].path != path
    ensures Resolve(locations, path) == Some(locations[i])
  {
    if i > 0 {
      ResolveFirst(locations[1..], i - 1, path);
    }
  }

  /** The landing, login and registration pages resolve to their own unflagged records; "/" reaches the landing page before the dashboard. */
  lemma ResolvePublic(path: string)
    ensures path == "/" || path == LoginPath || path == "/register" ==>
              Resolve(Locations(Routes), path) == Some(Location(path, false))
  {
    RouteLocations();
    var ls := Locations(Routes);
    if path == "/" {
      ResolveFirst(ls, 0, path);
    } else if path == LoginPath {
      ResolveFirst(ls, 1, path);
    } else if path == "/register" {
      ResolveFirst(ls, 2, path);
    }
  }

  /** The three dashboard pages resolve to the children, flagged through their parent's meta. */
  lemma ResolveDashboard(path: string)
    ensures path == "/receipts" || path == "/create" || path == "/stats" ==>
              Resolve(Locations(Routes), path) == Some(Location(path, true))
  {
    ResolveReceipts();
    ResolveCreate();
    ResolveStats();
  }

  lemma ResolveReceipts()
    ensures Resolve(Locations(Routes), "/receipts") == Some(Location("/receipts", true))
  {
    RouteLocations();
    assert "/register"[3] != "/receipts"[3];
    ResolveFirst(Locations(Routes), 4, "/receipts");
  }

  lemma ResolveCreate()
    ensures Resolve(Locations(Routes), "/create") == Some(Location("/create", true))
  {
    RouteLocations();
    ResolveFirst(Locations(Routes), 5, "/create");
  }

  lemma ResolveStats()
    ensures Resolve(Locations(Routes), "/stats") == Some(Location("/stats", true))
  {
    RouteLocations();
    assert "/login"[1] != "/stats"[1];
    ResolveFirst(Locations(Routes), 6, "/stats");
  }

  /** Any other path matches no route. */
  lemma ResolveUnknown(path: string)
    ensures path !in {"/", LoginPath, "/register", "/receipts", "/create", "/stats"} ==>
              Resolve(Locations(Routes), path).None?
  {
    var r := Resolve(Locations(Routes), path);
    if r.Some? {
      RouteLocations();
      assert r.value.path in {"/", LoginPath, "/register", "/receipts", "/create", "/stats"};
    }
  }

  /** A redirect leads to a page the guard always lets through, so redirects never chain. */
  lemma RedirectIsFinal(path: string, user: Option<Account>)
    ensures Navigate(path, user).Redirect? ==> Navigate(Navigate(path, user).path, user) == Proceed
  {
  }

  /** A signed-in user is never redirected, wherever they go. */
  lemma SignedInNeverRedirected(path: string, account: Account)
    ensures Navigate(path, Some(account)) == Proceed
  {
  }
}
