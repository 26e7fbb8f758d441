/**
 * The route store: the constant and authorised route lists, their
 * registration with the router, the global menu, the keep-alive lists, the
 * routes shown by default after login and the home tab built from them.
 */
module RouteStore {
  import opened Wrappers
  import opened Seqs
  import opened JsText
  import opened RouteTypes
  import opened RouterHelper
  import opened RouteFilter
  import opened RouteSort
  import opened RouteMenu
  import opened RouteCache
  import opened RouteTransform
  import opened RouteCacheLists
  import opened RouterRecords
  import opened TabStore

  /** `staticRoutes` of the route table: there are none. */
  const StaticRoutes: seq<Route> := []

  /** `notFoundRoute`: the catch-all registered after every other route. */
  const NotFoundRoute: Route :=
    Route(Some("not-found-catch"), "/:pathMatch(.*)*", Some("/404"),
          EmptyMeta.(hideInMenu := Some(true)), NoComponent, Unset)

  // `addConstantRoutes`, `addAuthRoutes`: a `Map` keyed by name, filled in
  // list order and read back with `Array.from(map.values())`.

  /** The keys of the map in insertion order: each non-empty name where it first occurs. */
  function MapKeys(rs: seq<Route>): seq<string> {
    if rs == [] then []
    else
      var keys := MapKeys(rs[..|rs| - 1]);
      var last := rs[|rs| - 1];
      if Truthy(last.name) && last.name.value !in keys then keys + [last.name.value] else keys
  }

  /** The map's values: each name bound to the last route carrying it. */
  function MapOf(rs: seq<Route>): map<string, Route> {
    if rs == [] then map[]
    else
      var m := MapOf(rs[..|rs| - 1]);
      var last := rs[|rs| - 1];
      if Truthy(last.name) then m[last.name.value := last] else m
  }

  lemma {:induction false} MapKeysSpec(rs: seq<Route>)
    ensures forall k :: k in MapKeys(rs) <==> k in MapOf(rs)
    ensures forall i, j :: 0 <= i < j < |MapKeys(rs)| ==> MapKeys(rs)[i] != MapKeys(rs)[j]
  {
    if rs != [] {
      MapKeysSpec(rs[..|rs| - 1]);
    }
  }

  /** The deduplicated list: one route per non-empty name, ordered by first occurrence. */
  function Dedupe(rs: seq<Route>): seq<Route> {
    MapKeysSpec(rs);
    var keys := MapKeys(rs);
    seq(|keys|, i requires 0 <= i < |keys| => MapOf(rs)[keys[i]])
  }

  /**
   * A name is a key iff some route carries it (non-empty), and it is bound
   * to the last such route.
   */
  lemma {:induction false} MapOfSpec(rs: seq<Route>, k: string)
    ensures k in MapOf(rs) <==> k != "" && exists i :: 0 <= i < |rs| && rs[i].name == Some(k)
    ensures k in MapOf(rs) ==>
              exists i :: 0 <= i < |rs| && rs[i] == MapOf(rs)[k] && rs[i].name == Some(k)
                && forall j :: i < j < |rs| ==> rs[j].name != Some(k)
  {
    if rs != [] {
      var init, last := rs[..|rs| - 1], rs[|rs| - 1];
      MapOfSpec(init, k);
      if Truthy(last.name) && last.name.value == k {
        assert rs[|rs| - 1] == last;
      } else {
        if k in MapOf(rs) {
          var i :| 0 <= i < |init| && init[i] == MapOf(init)[k] && init[i].name == Some(k)
                   && forall j :: i < j < |init| ==> init[j].name != Some(k);
          assert rs[i] == init[i];
        }
        forall i | 0 <= i < |init| ensures rs[i] == init[i] {
        }
      }
    }
  }

  /**
   * Deduplication keeps one route per non-empty name and no unnamed route:
   * the names of the result are distinct, every route of the result is the
   * last one in the input with its name, and every non-empty name of the
   * input is represented.
   */
  lemma DedupeSpec(rs: seq<Route>)
    ensures forall i, j :: 0 <= i < j < |Dedupe(rs)| ==> Dedupe(rs)[i].name != Dedupe(rs)[j].name
    ensures forall i :: 0 <= i < |Dedupe(rs)| ==> Truthy(Dedupe(rs)[i].name)
    ensures forall x :: x in Dedupe(rs) ==>
              exists i :: 0 <= i < |rs| && rs[i] == x && forall j :: i < j < |rs| ==> rs[j].name != x.name
    ensures forall i :: 0 <= i < |rs| && Truthy(rs[i].name) ==>
              exists j :: 0 <= j < |Dedupe(rs)| && Dedupe(rs)[j].name == rs[i].name
  {
    MapKeysSpec(rs);
    var keys := MapKeys(rs);
    var d := Dedupe(rs);
    forall i | 0 <= i < |d| ensures d[i].name == Some(keys[i]) && keys[i] != "" {
      MapOfSpec(rs, keys[i]);
    }
    forall x | x in d
      ensures exists i :: 0 <= i < |rs| && rs[i] == x && forall j :: i < j < |rs| ==> rs[j].name != x.name
    {
      var m :| 0 <= m < |d| && d[m] == x;
      MapOfSpec(rs, keys[m]);
    }
    forall i | 0 <= i < |rs| && Truthy(rs[i].name)
      ensures exists j :: 0 <= j < |d| && d[j].name == rs[i].name
    {
      var k := rs[i].name.value;
      MapOfSpec(rs, k);
      var j :| 0 <= j < |keys| && keys[j] == k;
      assert d[j].name == Some(keys[j]);
    }
  }

  /** The `forEach` over the list filling the `Map`, then `Array.from(map.values())`. */
  method DedupeByName(routes: seq<Route>) returns (r: seq<Route>)
    ensures r == Dedupe(routes)
  {
    var keys: seq<string> := [];
    var values: map<string, Route> := map[];
    var i := 0;
    while i < |routes|
      invariant 0 <= i <= |routes|
      invariant keys == MapKeys(routes[..i]) && values == MapOf(routes[..i])
    {
      var route := routes[i];
      assert routes[..i + 1][..i] == routes[..i];
      if Truthy(route.name) {
        MapKeysSpec(routes[..i]);
        var k := route.name.value;
        if k !in values {
          keys := keys + [k];
        }
        values := values[k := route];
      }
      i := i + 1;
    }
    assert routes[..|routes|] == routes;
    MapKeysSpec(routes);
    r := seq(|keys|, j requires 0 <= j < |keys| => values[keys[j]]);
  }

  // `collectDefaultAfterLoginRoutes`

  datatype DefaultRoute = DefaultRoute(route: Route, fullPath: string)

  predicate DefaultNamed(r: Route) {
    IsDefaultAfterLogin(r) && Truthy(r.name)
  }

  /** The pairs `traverse` pushes for the first `n` routes under `parentPath`. */
  function DefaultRoutes(rs: seq<Route>, n: nat, parentPath: string): seq<DefaultRoute>
    requires n <= |rs|
    decreases Kids(rs), n
  {
    if n == 0 then [] else DefaultRoutes(rs, n - 1, parentPath) + DefaultNode(rs[n - 1], parentPath)
  }

  function DefaultNode(r: Route, parentPath: string): seq<DefaultRoute>
    decreases r
  {
    var currentPath := JoinPath(parentPath, r.path);
    (if DefaultNamed(r) then [DefaultRoute(r, currentPath)] else [])
      + (if HasKids(r) then DefaultRoutes(r.children.routes, |r.children.routes|, currentPath) else [])
  }

  function RoutesOf(ds: seq<DefaultRoute>): seq<Route> {
    seq(|ds|, i requires 0 <= i < |ds| => ds[i].route)
  }

  lemma RoutesOfConcat(a: seq<DefaultRoute>, b: seq<DefaultRoute>)
    ensures RoutesOf(a + b) == RoutesOf(a) + RoutesOf(b)
  {
  }

  /**
   * The collected routes are exactly the routes of the forest, in pre-order,
   * flagged `isDefaultAfterLogin` and carrying a non-empty name.
   */
  lemma {:induction false} DefaultRoutesAreFlagged(rs: seq<Route>, n: nat, parentPath: string)
    requires n <= |rs|
    ensures RoutesOf(DefaultRoutes(rs, n, parentPath)) == Filter(Flatten(rs, n), DefaultNamed)
    decreases Kids(rs), n
  {
    if n > 0 {
      DefaultRoutesAreFlagged(rs, n - 1, parentPath);
      DefaultNodeIsFlagged(rs[n - 1], parentPath);
      FilterConcat(Flatten(rs, n - 1), FlattenNode(rs[n - 1]), DefaultNamed);
      RoutesOfConcat(DefaultRoutes(rs, n - 1, parentPath), DefaultNode(rs[n - 1], parentPath));
    }
  }

  lemma {:induction false} DefaultNodeIsFlagged(r: Route, parentPath: string)
    ensures RoutesOf(DefaultNode(r, parentPath)) == Filter(FlattenNode(r), DefaultNamed)
    decreases r
  {
    var currentPath := JoinPath(parentPath, r.path);
    var own := if DefaultNamed(r) then [DefaultRoute(r, currentPath)] else [];
    FilterSingle(r, DefaultNamed);
    assert RoutesOf(own) == Filter([r], DefaultNamed);
    if HasKids(r) {
      var kids := r.children.routes;
      DefaultRoutesAreFlagged(kids, |kids|, currentPath);
      RoutesFiltered(own, DefaultRoutes(kids, |kids|, currentPath), [r], Flatten(kids, |kids|), DefaultNamed);
    } else {
      RoutesFiltered(own, [], [r], [], DefaultNamed);
    }
  }

  /** Two collected lists that track two filtered lists still do so one after the other. */
  lemma RoutesFiltered(d: seq<DefaultRoute>, e: seq<DefaultRoute>, x: seq<Route>, y: seq<Route>, p: Route -> bool)
    requires RoutesOf(d) == Filter(x, p) && RoutesOf(e) == Filter(y, p)
    ensures RoutesOf(d + e) == Filter(x + y, p)
  {
    FilterConcat(x, y, p);
    RoutesOfConcat(d, e);
  }

  /** An absolute path is collected as it stands; a relative one under its parent's full path. */
  lemma DefaultNodePath(r: Route, parentPath: string)
    requires DefaultNamed(r)
    ensures DefaultNode(r, parentPath)[0] == DefaultRoute(r, JoinPath(parentPath, r.path))
    ensures StartsWith(r.path, "/") ==> DefaultNode(r, parentPath)[0].fullPath == r.path
  {
  }

  // `findRouteByName` of the store: the loop returns the first match in pre-order.

  function FindIn(rs: seq<Route>, n: nat, name: string): Option<Route>
    requires n <= |rs|
    decreases Kids(rs), n
  {
    if n == 0 then None
    else
      var found := FindIn(rs, n - 1, name);
      if found.Some? then found else FindInNode(rs[n - 1], name)
  }

  function FindInNode(r: Route, name: string): Option<Route>
    decreases r
  {
    if Named(r, name) then Some(r)
    else if HasKids(r) then FindIn(r.children.routes, |r.children.routes|, name)
    else None
  }

  /** The store's loop finds what `find` finds on the pre-order list of the routes. */
  lemma {:induction false} FindInIsFind(rs: seq<Route>, n: nat, name: string)
    requires n <= |rs|
    ensures FindIn(rs, n, name) == Find(Flatten(rs, n), NamedAs(name))
    decreases Kids(rs), n
  {
    if n > 0 {
      FindInIsFind(rs, n - 1, name);
      FindInNodeIsFind(rs[n - 1], name);
      FindConcat(Flatten(rs, n - 1), FlattenNode(rs[n - 1]), NamedAs(name));
    }
  }

  lemma {:induction false} FindInNodeIsFind(r: Route, name: string)
    ensures FindInNode(r, name) == Find(FlattenNode(r), NamedAs(name))
    decreases r
  {
    var rest := if HasKids(r) then Flatten(r.children.routes, |r.children.routes|) else [];
    assert FlattenNode(r) == [r] + rest;
    FindCons(r, rest, NamedAs(name));
    if HasKids(r) {
      FindInIsFind(r.children.routes, |r.children.routes|, name);
    }
  }

  /** The first route in pre-order with the name, or nothing when no route at any depth has it. */
  lemma FindInSpec(rs: seq<Route>, n: nat, name: string)
    requires n <= |rs|
    ensures FindIn(rs, n, name).None? <==> forall x :: x in Flatten(rs, n) ==> !Named(x, name)
    ensures FindIn(rs, n, name).Some? ==>
              var flat := Flatten(rs, n);
              exists i :: 0 <= i < |flat| && flat[i] == FindIn(rs, n, name).value && Named(flat[i], name)
                && forall j :: 0 <= j < i ==> !Named(flat[j], name)
  {
    FindInIsFind(rs, n, name);
    var flat := Flatten(rs, n);
    var i := FindIndex(flat, NamedAs(name));
    if i >= 0 {
      assert flat[i] == FindIn(rs, n, name).value;
    } else {
      assert forall x :: x in flat ==> !NamedAs(name)(x);
    }
  }

  /** The store's search and the router helper's agree. */
  lemma FindInAgreesWithHelper(rs: seq<Route>, name: string)
    ensures FindIn(rs, |rs|, name) == FindRouteByName(rs, name)
  {
    FindInIsFind(rs, |rs|, name);
  }

  // `getFullPath`

  /** The loop of `getFullPath` from the `i`-th route on, falling back to '/' + name. */
  function FullPath(rs: seq<Route>, i: nat, name: string, parentPath: string): string
    requires i <= |rs|
    decreases Kids(rs), |rs| - i
  {
    if i == |rs| then "/" + name
    else
      var currentPath := JoinPath(parentPath, rs[i].path);
      if Named(rs[i], name) then currentPath
      else if HasKids(rs[i]) then
        var found := FullPath(rs[i].children.routes, 0, name, currentPath);
        if found != "" then found else FullPath(rs, i + 1, name, parentPath)
      else FullPath(rs, i + 1, name, parentPath)
  }

  lemma {:induction false} FullPathNonEmpty(rs: seq<Route>, i: nat, name: string, parentPath: string)
    requires i <= |rs|
    ensures FullPath(rs, i, name, parentPath) != ""
    decreases Kids(rs), |rs| - i
  {
    if i < |rs| && !Named(rs[i], name) {
      if HasKids(rs[i]) {
        FullPathNonEmpty(rs[i].children.routes, 0, name, JoinPath(parentPath, rs[i].path));
      }
      FullPathNonEmpty(rs, i + 1, name, parentPath);
    }
  }

  /** A route that could answer: the one with the name, or one with children to descend into. */
  predicate Answers(r: Route, name: string) {
    Named(r, name) || HasKids(r)
  }

  /**
   * Since a nested search always returns something, `getFullPath` never
   * backtracks: the answer comes from the first route that has the name or
   * has children, and '/' + name when there is none.
   */
  lemma {:induction false} FullPathFirstAnswer(rs: seq<Route>, i: nat, name: string, parentPath: string, k: nat)
    requires i <= k <= |rs|
    requires forall j :: i <= j < k ==> !Answers(rs[j], name)
    requires k == |rs| || Answers(rs[k], name)
    ensures k == |rs| ==> FullPath(rs, i, name, parentPath) == "/" + name
    ensures k < |rs| && Named(rs[k], name) ==>
              FullPath(rs, i, name, parentPath) == JoinPath(parentPath, rs[k].path)
    ensures k < |rs| && !Named(rs[k], name) ==>
              FullPath(rs, i, name, parentPath)
                == FullPath(rs[k].children.routes, 0, name, JoinPath(parentPath, rs[k].path))
    decreases |rs| - i
  {
    if i < k {
      FullPathFirstAnswer(rs, i + 1, name, parentPath, k);
    } else if k < |rs| && !Named(rs[k], name) {
      FullPathNonEmpty(rs[k].children.routes, 0, name, JoinPath(parentPath, rs[k].path));
    }
  }

  /**
   * With the home route after a group in the list, the path found is the one
   * computed inside the group ('/home'), not the home route's own.
   */
  lemma FullPathStaysInFirstGroup()
    ensures var leaf := Route(Some("a-child"), "child", None, EmptyMeta, NoComponent, Unset);
      var group := Route(Some("a"), "/a", None, EmptyMeta, RouteView, Kids([leaf]));
      var home := Route(Some("home"), "/dashboard", None, EmptyMeta, NoComponent, Unset);
      && FindIn([group, home], 2, "home") == Some(home)
      && FullPath([group, home], 0, "home", "") == "/home"
  {
    var leaf := Route(Some("a-child"), "child", None, EmptyMeta, NoComponent, Unset);
    var group := Route(Some("a"), "/a", None, EmptyMeta, RouteView, Kids([leaf]));
    var home := Route(Some("home"), "/dashboard", None, EmptyMeta, NoComponent, Unset);
    assert FindIn([group, home], 1, "home") == FindInNode(group, "home");
    assert FindIn([leaf], 1, "home") == None;
    FullPathFirstAnswer([group, home], 0, "home", "", 0);
    FullPathFirstAnswer([leaf], 0, "home", "/a", 1);
  }

  // What the initialisation works on.

  /** Where the authorised routes come from. */
  datatype MenuSource =
    | NoMenuUrl                        // `VITE_MENU_ROUTE_URL` is not set
    | Fetched(items: seq<MenuRoute>)   // the menu API answered
    | FetchFailed                      // the request failed

  /** `filteredRoutes` of `initAuthRoute`. */
  function AuthSource(source: MenuSource, dynamicRoutes: seq<Route>, permissions: seq<string>): seq<Route> {
    match source
    case Fetched(items) => FilterRoutesByRoles(TransformMenuRoutesToRoutes(items), permissions)
    case _ => FilterRoutesByRoles(dynamicRoutes, permissions)
  }

  /** Position `i` holds the route that deduplication keeps for its name. */
  predicate KeptAt(rs: seq<Route>, i: nat)
    requires i < |rs|
  {
    Truthy(rs[i].name) && forall j :: i < j < |rs| ==> rs[j].name != rs[i].name
  }

  /**
   * `filteredRoutes` as seen after `handleConstantAndAuthRoutes`: the routes
   * kept in `authRoutes` are the same objects, and sorting the combined list
   * sorted their children in place.
   */
  function AfterSort(rs: seq<Route>): (r: seq<Route>)
    ensures |r| == |rs|
  {
    seq(|rs|, i requires 0 <= i < |rs| => if KeptAt(rs, i) then SortNode(rs[i]) else rs[i])
  }

  /** The tab a default route opens. */
  function DefaultTabRoute(d: DefaultRoute): TabRoute {
    TabRoute(d.route.name.GetOr(""), d.route.path, d.fullPath,
             Some(OrElse(d.route.meta.title, "")), d.route.meta.icon, d.route.meta.localIcon)
  }

  /** The default tabs after `addDefaultTab` ran for each collected route. */
  function AddDefaults(ts: seq<Tab>, ds: seq<DefaultRoute>): seq<Tab> {
    if ds == [] then ts
    else AddedTab(AddDefaults(ts, ds[..|ds| - 1]), None, MakeTab(DefaultTabRoute(ds[|ds| - 1]), ""))
  }

  /** The home tab's route: the home route with the path `getFullPath` computes. */
  function HomeTabRoute(home: Route, homePath: string): TabRoute {
    TabRoute(home.name.GetOr(""), home.path, homePath,
             Some(OrElse(home.meta.title, HomeLabel)), home.meta.icon, home.meta.localIcon)
  }

  class RouteStore {
    var routeHome: string
    var constantRoutes: seq<Route>
    var authRoutes: seq<Route>
    /** The removal callbacks of every registration, by record id. */
    var removeRouteFns: seq<nat>
    var menus: seq<Menu>
    var isInitConstantRoute: bool
    var isInitAuthRoute: bool
    var defaultAfterLoginRoutes: seq<DefaultRoute>
    const router: RouterTable
    const cache: CacheLists
    const tabStore: TabStore

    predicate Valid()
      reads this, router, tabStore
    {
      router.Valid() && tabStore.cache == cache
    }

    /** The keep-alive lists as `getCacheRoutes` sets them from `routes`. */
    predicate CacheBuiltFrom(routes: seq<Route>)
      reads cache
    {
      && cache.cacheRoutes == NamesOf(Filter(FlattenRoutes(routes), Cacheable))
      && cache.baseExcludeCacheRoutes == NamesOf(Filter(FlattenRoutes(routes), Excluded))
      && cache.excludeCacheRoutes == cache.baseExcludeCacheRoutes
    }

    /**
     * What `handleConstantAndAuthRoutes` leaves, for the sorted constant and
     * authorised routes `sorted`, the removal callbacks `fns` and the menu
     * `ms`, given the router's records, the removal callbacks and the next
     * record id before it ran: the old registrations undone and `sorted`
     * registered, with their callbacks, the menu and the keep-alive lists.
     */
    predicate RebuiltFrom(sorted: seq<Route>, fns: seq<nat>, ms: seq<Menu>,
                          oldRecords: seq<Record>, oldFns: seq<nat>, oldNext: nat)
      reads router, cache
    {
      && router.records == RegisterAll(RemovedAll(oldRecords, oldFns), sorted, oldNext)
      && fns == IdRange(oldNext, |sorted|)
      && router.nextId == oldNext + |sorted|
      && ms == Menus(sorted, |sorted|, "")
      && CacheBuiltFrom(sorted)
    }

    /**
     * What the registration steps of `initAuthRoute` leave, for the sorted
     * routes `sorted`, the removal callbacks `fns` and the menu `ms`: the
     * state `RebuiltFrom` describes, followed by `addNotFoundRoute`, so that
     * any catch-all record is replaced by one registered last, with its own
     * removal callback. `registered` names the records before that last step.
     */
    predicate AuthRegisteredFrom(sorted: seq<Route>, fns: seq<nat>, ms: seq<Menu>,
                                 oldRecords: seq<Record>, oldFns: seq<nat>, oldNext: nat, registered: seq<Record>)
      reads router, cache
    {
      var next := oldNext + |sorted|;
      && registered == RegisterAll(RemovedAll(oldRecords, oldFns), sorted, oldNext)
      && router.records == Filter(registered, NameOther(NotFoundRoute.name)) + [Record(next, NotFoundRoute)]
      && fns == IdRange(oldNext, |sorted|) + [next]
      && router.nextId == next + 1
      && ms == Menus(sorted, |sorted|, "")
      && CacheBuiltFrom(sorted)
    }

    /** `routeHome` starts as `VITE_ROUTE_HOME`, or 'home' when that is unset or empty. */
    constructor(envRouteHome: Option<string>, router: RouterTable, cache: CacheLists, tabStore: TabStore)
      requires router.Valid() && tabStore.cache == cache
      ensures Valid()
      ensures this.router == router && this.cache == cache && this.tabStore == tabStore
      ensures routeHome == OrElse(envRouteHome, "home")
      ensures constantRoutes == [] && authRoutes == [] && removeRouteFns == [] && menus == []
      ensures !isInitConstantRoute && !isInitAuthRoute && defaultAfterLoginRoutes == []
    {
      this.router := router;
      this.cache := cache;
      this.tabStore := tabStore;
      routeHome := OrElse(envRouteHome, "home");
      constantRoutes := [];
      authRoutes := [];
      removeRouteFns := [];
      menus := [];
      isInitConstantRoute := false;
      isInitAuthRoute := false;
      defaultAfterLoginRoutes := [];
    }

    method SetRouteHome(routeKey: string)
      modifies this
      ensures routeHome == routeKey
      ensures constantRoutes == old(constantRoutes) && authRoutes == old(authRoutes)
      ensures removeRouteFns == old(removeRouteFns) && menus == old(menus)
      ensures defaultAfterLoginRoutes == old(defaultAfterLoginRoutes)
      ensures isInitConstantRoute == old(isInitConstantRoute) && isInitAuthRoute == old(isInitAuthRoute)
    {
      routeHome := routeKey;
    }

    method AddConstantRoutes(routes: seq<Route>)
      modifies this
      ensures constantRoutes == Dedupe(routes)
      ensures authRoutes == old(authRoutes) && routeHome == old(routeHome)
      ensures removeRouteFns == old(removeRouteFns) && menus == old(menus)
      ensures defaultAfterLoginRoutes == old(defaultAfterLoginRoutes)
      ensures isInitConstantRoute == old(isInitConstantRoute) && isInitAuthRoute == old(isInitAuthRoute)
    {
      constantRoutes := DedupeByName(routes);
    }

    method AddAuthRoutes(routes: seq<Route>)
      modifies this
      ensures authRoutes == Dedupe(routes)
      ensures constantRoutes == old(constantRoutes) && routeHome == old(routeHome)
      ensures removeRouteFns == old(removeRouteFns) && menus == old(menus)
      ensures defaultAfterLoginRoutes == old(defaultAfterLoginRoutes)
      ensures isInitConstantRoute == old(isInitConstantRoute) && isInitAuthRoute == old(isInitAuthRoute)
    {
      authRoutes := DedupeByName(routes);
    }

    method GetGlobalMenus(routes: seq<Route>)
      modifies this
      ensures menus == Menus(routes, |routes|, "")
      ensures constantRoutes == old(constantRoutes) && authRoutes == old(authRoutes)
      ensures routeHome == old(routeHome) && removeRouteFns == old(removeRouteFns)
      ensures defaultAfterLoginRoutes == old(defaultAfterLoginRoutes)
      ensures isInitConstantRoute == old(isInitConstantRoute) && isInitAuthRoute == old(isInitAuthRoute)
    {
      menus := GetMenusByRoutes(routes, "");
    }

    /** `resetVueRoutes`: every removal callback runs, in order, and the list is emptied. */
    method ResetVueRoutes()
      requires Valid()
      modifies this, router
      ensures Valid()
      ensures router.records == RemovedAll(old(router.records), old(removeRouteFns))
      ensures router.nextId == old(router.nextId) && removeRouteFns == []
      ensures constantRoutes == old(constantRoutes) && authRoutes == old(authRoutes)
      ensures routeHome == old(routeHome) && menus == old(menus)
      ensures defaultAfterLoginRoutes == old(defaultAfterLoginRoutes)
      ensures isInitConstantRoute == old(isInitConstantRoute) && isInitAuthRoute == old(isInitAuthRoute)
    {
      UnregisterRoutes(router, removeRouteFns);
      removeRouteFns := [];
    }

    /** `addRoutesToVueRouter`: each route registered in order, its callback kept. */
    method AddRoutesToVueRouter(routes: seq<Route>)
      requires Valid()
      modifies this, router
      ensures Valid()
      ensures router.records == RegisterAll(old(router.records), routes, old(router.nextId))
      ensures router.nextId == old(router.nextId) + |routes|
      ensures removeRouteFns == old(removeRouteFns) + IdRange(old(router.nextId), |routes|)
      ensures constantRoutes == old(constantRoutes) && authRoutes == old(authRoutes)
      ensures routeHome == old(routeHome) && menus == old(menus)
      ensures defaultAfterLoginRoutes == old(defaultAfterLoginRoutes)
      ensures isInitConstantRoute == old(isInitConstantRoute) && isInitAuthRoute == old(isInitAuthRoute)
    {
      var fns := RegisterRoutes(router, routes);
      removeRouteFns := removeRouteFns + fns;
    }

    /**
     * `handleConstantAndAuthRoutes`: the combined list is sorted by order, the
     * old registrations are undone, the sorted routes registered, and the menu
     * and the keep-alive lists rebuilt from them.
     */
    method HandleConstantAndAuthRoutes()
      requires Valid()
      modifies this, router, cache
      ensures Valid()
      ensures RebuiltFrom(SortForest(constantRoutes + authRoutes), removeRouteFns, menus, old(router.records), old(removeRouteFns), old(router.nextId))
      ensures constantRoutes == old(constantRoutes) && authRoutes == old(authRoutes)
      ensures routeHome == old(routeHome) && defaultAfterLoginRoutes == old(defaultAfterLoginRoutes)
      ensures isInitConstantRoute == old(isInitConstantRoute) && isInitAuthRoute == old(isInitAuthRoute)
    {
      var allRoutes := constantRoutes + authRoutes;
      var a := new Route[|allRoutes|](i requires 0 <= i < |allRoutes| => allRoutes[i]);
      assert a[..] == allRoutes;
      SortRoutesByOrder(a);
      var sortedRoutes := a[..];
      ResetVueRoutes();
      AddRoutesToVueRouter(sortedRoutes);
      GetGlobalMenus(sortedRoutes);
      cache.GetCacheRoutes(sortedRoutes);
    }

    /** `addNotFoundRoute`: any catch-all record is dropped and the catch-all goes last. */
    method AddNotFoundRoute()
      requires Valid()
      modifies this, router
      ensures Valid()
      ensures router.records
                == Filter(old(router.records), NameOther(NotFoundRoute.name)) + [Record(old(router.nextId), NotFoundRoute)]
      ensures router.nextId == old(router.nextId) + 1
      ensures removeRouteFns == old(removeRouteFns) + [old(router.nextId)]
      ensures constantRoutes == old(constantRoutes) && authRoutes == old(authRoutes)
      ensures routeHome == old(routeHome) && menus == old(menus)
      ensures defaultAfterLoginRoutes == old(defaultAfterLoginRoutes)
      ensures isInitConstantRoute == old(isInitConstantRoute) && isInitAuthRoute == old(isInitAuthRoute)
    {
      var p := NameOther(NotFoundRoute.name);
      if router.HasRoute("not-found-catch") {
        router.RemoveRoute("not-found-catch");
      } else {
        forall x | x in router.records ensures p(x) {
        }
        FilterAll(router.records, p);
      }
      ghost var kept := router.records;
      assert kept == Filter(old(router.records), p);
      forall x | x in kept ensures p(x) {
        FilterMembers(old(router.records), p, x);
      }
      FilterAll(kept, p);
      var removeFn := router.AddRoute(NotFoundRoute);
      removeRouteFns := removeRouteFns + [removeFn];
    }

    /** `initConstantRoute`: done once; registers the static routes. */
    method InitConstantRoute()
      requires Valid()
      modifies this, router, cache
      ensures Valid()
      ensures isInitConstantRoute
      ensures old(isInitConstantRoute) ==>
                && constantRoutes == old(constantRoutes) && menus == old(menus)
                && router.records == old(router.records) && router.nextId == old(router.nextId)
                && removeRouteFns == old(removeRouteFns)
                && cache.cacheRoutes == old(cache.cacheRoutes) && cache.excludeCacheRoutes == old(cache.excludeCacheRoutes)
                && cache.baseExcludeCacheRoutes == old(cache.baseExcludeCacheRoutes)
      ensures !old(isInitConstantRoute) ==>
                constantRoutes == Dedupe(StaticRoutes)
                && RebuiltFrom(SortForest(constantRoutes + authRoutes), removeRouteFns, menus, old(router.records), old(removeRouteFns), old(router.nextId))
      ensures authRoutes == old(authRoutes) && isInitAuthRoute == old(isInitAuthRoute)
      ensures routeHome == old(routeHome) && defaultAfterLoginRoutes == old(defaultAfterLoginRoutes)
    {
      if isInitConstantRoute {
        return;
      }
      AddConstantRoutes(StaticRoutes);
      HandleConstantAndAuthRoutes();
      isInitConstantRoute := true;
    }

    /**
     * `resetStore`: registrations undone, every list emptied, the constant
     * routes set up again: the router then holds the records it had less
     * every registration this store made, plus the constant routes; the menu
     * and the keep-alive lists are rebuilt from those alone.
     */
    method ResetStore()
      requires Valid()
      modifies this, router, cache
      ensures Valid()
      ensures authRoutes == [] && constantRoutes == Dedupe(StaticRoutes)
      ensures isInitConstantRoute && !isInitAuthRoute
      ensures RebuiltFrom(SortForest(constantRoutes + authRoutes), removeRouteFns, menus, RemovedAll(old(router.records), old(removeRouteFns)), [], old(router.nextId))
      ensures defaultAfterLoginRoutes == old(defaultAfterLoginRoutes) && routeHome == old(routeHome)
    {
      ResetVueRoutes();
      constantRoutes := [];
      authRoutes := [];
      menus := [];
      cache.Clear();
      isInitConstantRoute := false;
      isInitAuthRoute := false;
      InitConstantRoute();
    }

    /** `collectDefaultAfterLoginRoutes`: the pairs are recorded and returned. */
    method CollectDefaultAfterLoginRoutes(routes: seq<Route>) returns (result: seq<DefaultRoute>)
      modifies this
      ensures result == DefaultRoutes(routes, |routes|, "") && defaultAfterLoginRoutes == result
      ensures constantRoutes == old(constantRoutes) && authRoutes == old(authRoutes)
      ensures routeHome == old(routeHome) && removeRouteFns == old(removeRouteFns) && menus == old(menus)
      ensures isInitConstantRoute == old(isInitConstantRoute) && isInitAuthRoute == old(isInitAuthRoute)
    {
      result := Traverse(routes, "", []);
      defaultAfterLoginRoutes := result;
    }

    /** `initHomeTabFromRoutes`: with a home route found, the home tab is made from it. */
    method InitHomeTabFromRoutes(routes: seq<Route>)
      modifies tabStore
      ensures var home := FindIn(routes, |routes|, routeHome);
        tabStore.homeTab ==
          (if home.Some? then Some(MakeTab(HomeTabRoute(home.value, FullPath(routes, 0, routeHome, "")), HomeLabel))
           else old(tabStore.homeTab))
      ensures tabStore.tabs == old(tabStore.tabs) && tabStore.defaultTabs == old(tabStore.defaultTabs)
      ensures tabStore.activeTabId == old(tabStore.activeTabId) && tabStore.stored == old(tabStore.stored)
    {
      var homeRouteName := routeHome;
      var homeRoute := FindIn(routes, |routes|, homeRouteName);
      if homeRoute.Some? {
        var homePath := FullPath(routes, 0, homeRouteName, "");
        tabStore.InitHomeTab(HomeTabRoute(homeRoute.value, homePath));
      }
    }

    /**
     * `initDefaultTabs`: without default routes the home tab is built;
     * otherwise there is no home tab, each default route becomes a default
     * tab, and with the bar visible the default tabs are opened.
     */
    method InitDefaultTabs(routes: seq<Route>, defaultRoutes: seq<DefaultRoute>, visible: bool)
      modifies tabStore
      ensures |defaultRoutes| == 0 ==>
                var home := FindIn(routes, |routes|, routeHome);
                && tabStore.homeTab ==
                     (if home.Some? then Some(MakeTab(HomeTabRoute(home.value, FullPath(routes, 0, routeHome, "")), HomeLabel))
                      else old(tabStore.homeTab))
                && tabStore.tabs == old(tabStore.tabs) && tabStore.defaultTabs == old(tabStore.defaultTabs)
      ensures |defaultRoutes| > 0 ==>
                && tabStore.homeTab == None
                && tabStore.defaultTabs == AddDefaults(old(tabStore.defaultTabs), defaultRoutes)
                && tabStore.tabs ==
                     (if visible then AppendAbsent(old(tabStore.tabs), tabStore.defaultTabs) else old(tabStore.tabs))
      ensures tabStore.activeTabId == old(tabStore.activeTabId) && tabStore.stored == old(tabStore.stored)
    {
      if |defaultRoutes| == 0 {
        InitHomeTabFromRoutes(routes);
      } else {
        tabStore.ClearHomeTab();
        var i := 0;
        while i < |defaultRoutes|
          invariant 0 <= i <= |defaultRoutes|
          invariant tabStore.defaultTabs == AddDefaults(old(tabStore.defaultTabs), defaultRoutes[..i])
          invariant tabStore.homeTab == None && tabStore.tabs == old(tabStore.tabs)
          invariant tabStore.activeTabId == old(tabStore.activeTabId) && tabStore.stored == old(tabStore.stored)
        {
          tabStore.AddDefaultTab(DefaultTabRoute(defaultRoutes[i]));
          assert defaultRoutes[..i + 1][..i] == defaultRoutes[..i];
          i := i + 1;
        }
        assert defaultRoutes[..|defaultRoutes|] == defaultRoutes;
        tabStore.InitDefaultTabsAfterLogin(visible);
      }
    }

    /**
     * `initAuthRoute`: the authorised routes are taken from the menu API when
     * one is configured and answers, from the static table otherwise, and
     * filtered by the user's permissions; then recorded, registered with the
     * catch-all last, and the default routes are collected from them as the
     * sort left them.
     */
    method InitAuthRoute(source: MenuSource, dynamicRoutes: seq<Route>, permissions: seq<string>, visible: bool)
      returns (ghost registered: seq<Record>)
      requires Valid()
      modifies this, router, cache, tabStore
      ensures Valid()
      ensures var filtered := AuthSource(source, dynamicRoutes, permissions);
        var view := AfterSort(filtered);
        && authRoutes == Dedupe(filtered)
        && constantRoutes == old(constantRoutes)
        && isInitAuthRoute
        && defaultAfterLoginRoutes == DefaultRoutes(view, |view|, "")
      ensures AuthRegisteredFrom(SortForest(constantRoutes + authRoutes), removeRouteFns, menus,
                                 old(router.records), old(removeRouteFns), old(router.nextId), registered)
      ensures var view := AfterSort(AuthSource(source, dynamicRoutes, permissions));
        var home := FindIn(view, |view|, routeHome);
        && (|defaultAfterLoginRoutes| == 0 ==>
              && tabStore.homeTab ==
                   (if home.Some? then Some(MakeTab(HomeTabRoute(home.value, FullPath(view, 0, routeHome, "")), HomeLabel))
                    else old(tabStore.homeTab))
              && tabStore.tabs == old(tabStore.tabs) && tabStore.defaultTabs == old(tabStore.defaultTabs))
        && (|defaultAfterLoginRoutes| > 0 ==>
              && tabStore.homeTab == None
              && tabStore.defaultTabs == AddDefaults(old(tabStore.defaultTabs), defaultAfterLoginRoutes)
              && tabStore.tabs ==
                   (if visible then AppendAbsent(old(tabStore.tabs), tabStore.defaultTabs) else old(tabStore.tabs)))
        && tabStore.activeTabId == old(tabStore.activeTabId) && tabStore.stored == old(tabStore.stored)
      ensures routeHome == old(routeHome)
    {
      var filteredRoutes := AuthSource(source, dynamicRoutes, permissions);
      registered := RegisterAuthRoutes(filteredRoutes);
      var view := AfterSort(filteredRoutes);
      InitTabsFromRoutes(view, visible);
    }

    /**
     * The registration half of `initAuthRoute`: the routes recorded as the
     * authorised ones, everything registered again with the catch-all last,
     * and the flag set.
     */
    method RegisterAuthRoutes(filtered: seq<Route>) returns (ghost registered: seq<Record>)
      requires Valid()
      modifies this, router, cache
      ensures Valid()
      ensures authRoutes == Dedupe(filtered) && constantRoutes == old(constantRoutes) && isInitAuthRoute
      ensures AuthRegisteredFrom(SortForest(constantRoutes + authRoutes), removeRouteFns, menus,
                                 old(router.records), old(removeRouteFns), old(router.nextId), registered)
      ensures routeHome == old(routeHome) && defaultAfterLoginRoutes == old(defaultAfterLoginRoutes)
      ensures isInitConstantRoute == old(isInitConstantRoute)
    {
      RebuildWithAuthRoutes(filtered);
      registered := router.records;
      AddNotFoundRoute();
      isInitAuthRoute := true;
    }

    /** `addAuthRoutes` followed by `handleConstantAndAuthRoutes`. */
    method RebuildWithAuthRoutes(filtered: seq<Route>)
      requires Valid()
      modifies this, router, cache
      ensures Valid()
      ensures authRoutes == Dedupe(filtered) && constantRoutes == old(constantRoutes)
      ensures RebuiltFrom(SortForest(constantRoutes + authRoutes), removeRouteFns, menus, old(router.records), old(removeRouteFns), old(router.nextId))
      ensures routeHome == old(routeHome) && defaultAfterLoginRoutes == old(defaultAfterLoginRoutes)
      ensures isInitConstantRoute == old(isInitConstantRoute) && isInitAuthRoute == old(isInitAuthRoute)
    {
      AddAuthRoutes(filtered);
      HandleConstantAndAuthRoutes();
    }

    /**
     * The tab half of `initAuthRoute`: the default routes collected from
     * `routes`, then the home tab or the default tabs built from them.
     */
    method InitTabsFromRoutes(routes: seq<Route>, visible: bool)
      modifies this, tabStore
      ensures defaultAfterLoginRoutes == DefaultRoutes(routes, |routes|, "")
      ensures var home := FindIn(routes, |routes|, routeHome);
        && (|defaultAfterLoginRoutes| == 0 ==>
              && tabStore.homeTab ==
                   (if home.Some? then Some(MakeTab(HomeTabRoute(home.value, FullPath(routes, 0, routeHome, "")), HomeLabel))
                    else old(tabStore.homeTab))
              && tabStore.tabs == old(tabStore.tabs) && tabStore.defaultTabs == old(tabStore.defaultTabs))
        && (|defaultAfterLoginRoutes| > 0 ==>
              && tabStore.homeTab == None
              && tabStore.defaultTabs == AddDefaults(old(tabStore.defaultTabs), defaultAfterLoginRoutes)
              && tabStore.tabs ==
                   (if visible then AppendAbsent(old(tabStore.tabs), tabStore.defaultTabs) else old(tabStore.tabs)))
        && tabStore.activeTabId == old(tabStore.activeTabId) && tabStore.stored == old(tabStore.stored)
      ensures constantRoutes == old(constantRoutes) && authRoutes == old(authRoutes)
      ensures routeHome == old(routeHome) && removeRouteFns == old(removeRouteFns) && menus == old(menus)
      ensures isInitConstantRoute == old(isInitConstantRoute) && isInitAuthRoute == old(isInitAuthRoute)
    {
      var defaultRoutes := CollectDefaultAfterLoginRoutes(routes);
      InitDefaultTabs(routes, defaultRoutes, visible);
    }

    /** `getDefaultRedirectPath` */
    function GetDefaultRedirectPath(): string
      reads this
    {
      if |defaultAfterLoginRoutes| == 0 then "/" + routeHome
      else defaultAfterLoginRoutes[|defaultAfterLoginRoutes| - 1].fullPath
    }

    /** `getSelectedMenuKeyPathByKey` */
    method GetSelectedMenuKeyPathByKey(selectedKey: string) returns (keyPath: seq<Option<string>>)
      ensures keyPath == KeyPath(selectedKey, menus)
    {
      keyPath := GetSelectedMenuKeyPath(selectedKey, menus);
    }
  }

  /** `traverse` of `collectDefaultAfterLoginRoutes`, pushing onto `acc`. */
  method Traverse(routeList: seq<Route>, parentPath: string, acc: seq<DefaultRoute>) returns (out: seq<DefaultRoute>)
    ensures out == acc + DefaultRoutes(routeList, |routeList|, parentPath)
    decreases Kids(routeList)
  {
    out := acc;
    var i := 0;
    while i < |routeList|
      invariant 0 <= i <= |routeList|
      invariant out == acc + DefaultRoutes(routeList, i, parentPath)
    {
      TraverseStep(acc, routeList, i, parentPath);
      out := TraverseNode(routeList[i], parentPath, out);
      i := i + 1;
    }
  }

  lemma TraverseStep(acc: seq<DefaultRoute>, rs: seq<Route>, i: nat, parentPath: string)
    requires i < |rs|
    ensures acc + DefaultRoutes(rs, i + 1, parentPath)
              == (acc + DefaultRoutes(rs, i, parentPath)) + DefaultNode(rs[i], parentPath)
  {
  }

  /** The body of the loop: the route itself, then its subtree. */
  method TraverseNode(route: Route, parentPath: string, acc: seq<DefaultRoute>) returns (out: seq<DefaultRoute>)
    ensures out == acc + DefaultNode(route, parentPath)
    decreases route
  {
    var currentPath := JoinPath(parentPath, route.path);
    ghost var own := if DefaultNamed(route) then [DefaultRoute(route, currentPath)] else [];
    out := acc;
    if IsDefaultAfterLogin(route) && Truthy(route.name) {
      out := out + [DefaultRoute(route, currentPath)];
    }
    assert out == acc + own;
    if HasKids(route) {
      ghost var below := DefaultRoutes(route.children.routes, |route.children.routes|, currentPath);
      out := Traverse(route.children.routes, currentPath, out);
      assert DefaultNode(route, parentPath) == own + below;
      Reassociate(acc, own, below);
    } else {
      assert DefaultNode(route, parentPath) == own + [];
      Reassociate(acc, own, []);
    }
  }

  /**
   * After `initAuthRoute` the login redirect goes to '/' + the home key when
   * no route is flagged, and otherwise to the full path of the last flagged
   * route in pre-order.
   */
  lemma RedirectPathSpec(rs: seq<Route>)
    ensures var ds := DefaultRoutes(rs, |rs|, "");
      && (|ds| == 0 <==> forall x :: x in FlattenRoutes(rs) ==> !DefaultNamed(x))
      && (|ds| > 0 ==> ds[|ds| - 1].route in FlattenRoutes(rs) && DefaultNamed(ds[|ds| - 1].route))
  {
    DefaultRoutesAreFlagged(rs, |rs|, "");
    LastCollected(DefaultRoutes(rs, |rs|, ""), FlattenRoutes(rs));
  }

  /** Pairs that track the flagged routes of a list: none iff nothing is flagged, and the last is a flagged route. */
  lemma LastCollected(ds: seq<DefaultRoute>, flat: seq<Route>)
    requires RoutesOf(ds) == Filter(flat, DefaultNamed)
    ensures |ds| == 0 <==> forall x :: x in flat ==> !DefaultNamed(x)
    ensures |ds| > 0 ==> ds[|ds| - 1].route in flat && DefaultNamed(ds[|ds| - 1].route)
  {
    if |ds| > 0 {
      assert RoutesOf(ds)[|ds| - 1] in Filter(flat, DefaultNamed);
      FilterMembers(flat, DefaultNamed, ds[|ds| - 1].route);
    }
    forall x | x in flat && DefaultNamed(x) ensures |ds| > 0 {
      FilterMembers(flat, DefaultNamed, x);
    }
  }

  /** The loop of `addRoutesToVueRouter`: `router.addRoute` on each route in order, collecting the callbacks. */
  method RegisterRoutes(router: RouterTable, routes: seq<Route>) returns (fns: seq<nat>)
    requires router.Valid()
    modifies router
    ensures router.Valid()
    ensures router.records == RegisterAll(old(router.records), routes, old(router.nextId))
    ensures router.nextId == old(router.nextId) + |routes|
    ensures fns == IdRange(old(router.nextId), |routes|)
  {
    fns := [];
    var i := 0;
    while i < |routes|
      invariant 0 <= i <= |routes|
      invariant router.Valid() && router.nextId == old(router.nextId) + i
      invariant router.records == RegisterAll(old(router.records), routes[..i], old(router.nextId))
      invariant fns == IdRange(old(router.nextId), i)
    {
      var removeFn := router.AddRoute(routes[i]);
      assert routes[..i + 1][..i] == routes[..i];
      fns := fns + [removeFn];
      i := i + 1;
    }
    assert routes[..|routes|] == routes;
  }

  /** The loop of `resetVueRoutes`: every removal callback in `fns` runs, in order. */
  method UnregisterRoutes(router: RouterTable, fns: seq<nat>)
    requires router.Valid()
    modifies router
    ensures router.Valid()
    ensures router.records == RemovedAll(old(router.records), fns)
    ensures router.nextId == old(router.nextId)
  {
    var i := 0;
    while i < |fns|
      invariant 0 <= i <= |fns|
      invariant router.Valid() && router.nextId == old(router.nextId)
      invariant router.records == RemovedAll(old(router.records), fns[..i])
    {
      router.RemoveById(fns[i]);
      assert fns[..i + 1][..i] == fns[..i];
      i := i + 1;
    }
    assert fns[..|fns|] == fns;
  }
}
