/**
 * Routes delivered by the menu API turned into router records
 * (`transformMenuRoutesToRoutes`), and the metadata of the built-in routes
 * picked out of the same list (`extractBuiltinRouteMetas`).
 */
module RouteTransform {
  import opened Wrappers
  import opened Seqs
  import opened JsText
  import opened RouteTypes
  import opened RouterHelper
  import opened RouteFilter

  /** `BUILTIN_ROUTE_NAMES`: routes registered at start-up, never taken from the API. */
  const BuiltinRouteNames: seq<string> := ["login", "forbidden", "not-found", "server-error"]

  predicate IsBuiltin(mr: MenuRoute) {
    mr.name in BuiltinRouteNames
  }

  /** `path.replace(/^\//, '')`: one leading '/' removed. */
  function StripLeadingSlash(p: string): (r: string)
    ensures StartsWith(p, "/") ==> p == "/" + r
    ensures !StartsWith(p, "/") ==> r == p
  {
    if StartsWith(p, "/") then p[1..] else p
  }

  /** `meta?.x` reads as missing when `meta` itself is. */
  function MetaOf(mr: MenuRoute): Meta {
    mr.meta.GetOr(EmptyMeta)
  }

  /** The `routeMeta` record built for every transformed route. */
  function RouteMetaOf(mr: MenuRoute): Meta {
    var m := MetaOf(mr);
    Meta(
      title := m.title,
      icon := m.icon,
      localIcon := None,
      i18nKey := None,
      order := m.order,
      hideInMenu := m.hideInMenu,
      keepAlive := m.keepAlive,
      permissions := m.permissions,
      roles := None,
      requiresAuth := Some(true),
      layoutType := Some(OrElse(m.layoutType, "normal")),
      openType := Some(OrElse(m.openType, "normal")),
      href := m.href,
      useJsonRenderer := Some(m.useJsonRenderer.GetOr(true)),
      schemaSource := m.schemaSource,
      isDefaultAfterLogin := m.isDefaultAfterLogin,
      activeMenu := None)
  }

  predicate HasItems(mr: MenuRoute) {
    mr.children.MenuRoutes? && |mr.children.items| > 0
  }

  /**
   * `transformMenuRouteToRoute`: a group (non-empty `children`) becomes a
   * `RouteView` with transformed children and its redirect if truthy; a leaf
   * gets the iframe page or a dynamic page named after the route, and no
   * redirect.
   */
  function Transform(mr: MenuRoute): Route
    decreases mr
  {
    var path := StripLeadingSlash(mr.path);
    var meta := RouteMetaOf(mr);
    if HasItems(mr) then
      Route(Some(mr.name), path, if Truthy(mr.redirect) then mr.redirect else None,
            meta, RouteView, Kids(TransformAll(mr.children.items)))
    else
      var component :=
        if OrElse(MetaOf(mr).openType, "normal") == "iframe" then IframePage
        else DynamicPage(mr.name, MetaOf(mr).schemaSource);
      Route(Some(mr.name), path, None, meta, component, Unset)
  }

  function TransformAll(items: seq<MenuRoute>): (rs: seq<Route>)
    ensures |rs| == |items| && forall i :: 0 <= i < |items| ==> rs[i] == Transform(items[i])
    decreases MenuRoutes(items)
  {
    seq(|items|, i requires 0 <= i < |items| => Transform(items[i]))
  }

  /** The `root` record wrapping the non-built-in top-level routes. */
  function RootRoute(kids: seq<Route>): Route {
    Route(Some("root"), "/", Some("/home"), EmptyMeta, LayoutWrapper, Kids(kids))
  }

  function TransformMenuRoutesToRoutes(mrs: seq<MenuRoute>): seq<Route> {
    [RootRoute(TransformAll(Filter(mrs, (mr: MenuRoute) => !IsBuiltin(mr))))]
  }

  /** What every transformed route carries, whatever the API sent. */
  predicate HasDefaults(x: Route) {
    && x.meta.requiresAuth == Some(true)
    && Truthy(x.meta.layoutType)
    && Truthy(x.meta.openType)
    && x.meta.useJsonRenderer.Some?
    && x.meta.roles == None
    && x.name.Some?
    && x.children != Kids([])
  }

  lemma {:induction false} TransformedDefaults(items: seq<MenuRoute>, n: nat)
    requires n <= |items|
    ensures forall x :: x in Flatten(TransformAll(items), n) ==> HasDefaults(x)
    decreases MenuRoutes(items), n
  {
    if n > 0 {
      var rs := TransformAll(items);
      TransformedDefaults(items, n - 1);
      TransformedNodeDefaults(items[n - 1]);
      assert rs[n - 1] == Transform(items[n - 1]);
      DefaultsConcat(Flatten(rs, n - 1), FlattenNode(rs[n - 1]));
    }
  }

  lemma DefaultsConcat(a: seq<Route>, b: seq<Route>)
    requires forall x :: x in a ==> HasDefaults(x)
    requires forall x :: x in b ==> HasDefaults(x)
    ensures forall x :: x in a + b ==> HasDefaults(x)
  {
  }

  lemma {:induction false} TransformedNodeDefaults(mr: MenuRoute)
    ensures forall x :: x in FlattenNode(Transform(mr)) ==> HasDefaults(x)
    decreases mr
  {
    if HasItems(mr) {
      var items := mr.children.items;
      TransformedDefaults(items, |items|);
    }
  }

  /**
   * One `root` record at '/' redirecting to '/home', whose children are the
   * non-built-in top-level routes, in order; every route below it requires
   * authentication, has a layout and an open type, and says whether it uses
   * the JSON renderer (true unless the API said otherwise).
   */
  lemma TransformSpec(mrs: seq<MenuRoute>)
    ensures var out := TransformMenuRoutesToRoutes(mrs);
      && |out| == 1 && out[0].name == Some("root") && out[0].path == "/"
      && out[0].redirect == Some("/home") && out[0].component == LayoutWrapper
      && out[0].children.Kids?
      && |out[0].children.routes| == |Filter(mrs, (mr: MenuRoute) => !IsBuiltin(mr))|
      && (forall i :: 0 <= i < |out[0].children.routes| ==>
            out[0].children.routes[i].name.value !in BuiltinRouteNames)
      && (forall x :: x in FlattenRoutes(out[0].children.routes) ==> HasDefaults(x))
  {
    var keep := (mr: MenuRoute) => !IsBuiltin(mr);
    var kept := Filter(mrs, keep);
    var kids := TransformAll(kept);
    forall i | 0 <= i < |kids| ensures kids[i].name.value !in BuiltinRouteNames {
      FilterMembers(mrs, keep, kept[i]);
    }
    TransformedDefaults(kept, |kept|);
  }

  /** A transformed leaf keeps the API's path minus one leading '/', and an iframe leaf gets the iframe page. */
  lemma TransformLeaf(mr: MenuRoute)
    requires !HasItems(mr)
    ensures Transform(mr).path == StripLeadingSlash(mr.path)
    ensures Transform(mr).children == Unset && Transform(mr).redirect == None
    ensures Transform(mr).component == IframePage <==> MetaOf(mr).openType == Some("iframe")
  {
  }

  /**
   * The API's routes name no roles, so the role filter run on them changes
   * nothing: it keeps the whole tree for every user, except that a `root`
   * with no children at all is dropped.
   */
  lemma RemoteRoutesPassRoleFilter(mrs: seq<MenuRoute>, roles: seq<string>)
    ensures var out := TransformMenuRoutesToRoutes(mrs);
      FilterRoutesByRoles(out, roles) == (if out[0].children == Kids([]) then [] else out)
  {
    var out := TransformMenuRoutesToRoutes(mrs);
    var root := out[0];
    var kids := root.children.routes;
    TransformSpec(mrs);
    assert FilterForest(out, 1, roles) == FilterNode(root, roles);
    if |kids| > 0 {
      forall x | x in Flatten(kids, |kids|) ensures Authorized(x, roles) {
        assert x in FlattenRoutes(kids);
        assert HasDefaults(x);
        assert Open(x);
      }
      FilterKeepsOpenForest(kids, |kids|, roles);
      assert kids[..|kids|] == kids;
      assert FilterNode(root, roles) == [root];
    }
  }

  // `extractBuiltinRouteMetas`

  /** The map built by `set` in list order: the last route named in `names` with `meta` wins. */
  function MetasOf(mrs: seq<MenuRoute>, names: seq<string>): map<string, Meta> {
    if mrs == [] then map[]
    else
      var last := mrs[|mrs| - 1];
      var before := MetasOf(mrs[..|mrs| - 1], names);
      if last.name in names && last.meta.Some? then before[last.name := last.meta.value] else before
  }

  function BuiltinMetas(mrs: seq<MenuRoute>): map<string, Meta> {
    MetasOf(mrs, BuiltinRouteNames)
  }

  /**
   * A name is a key iff some built-in route of that name carries `meta`, and
   * it maps to the `meta` of the last such route.
   */
  lemma BuiltinMetasSpec(mrs: seq<MenuRoute>, name: string)
    ensures name in BuiltinMetas(mrs) <==>
              exists i :: 0 <= i < |mrs| && mrs[i].name == name && IsBuiltin(mrs[i]) && mrs[i].meta.Some?
    ensures name in BuiltinMetas(mrs) ==>
              exists i :: 0 <= i < |mrs| && mrs[i].name == name && IsBuiltin(mrs[i]) && mrs[i].meta.Some?
                && BuiltinMetas(mrs)[name] == mrs[i].meta.value
                && forall j :: i < j < |mrs| && mrs[j].name == name ==> mrs[j].meta.None?
  {
    MetasKeys(mrs, BuiltinRouteNames, name);
    if name in BuiltinMetas(mrs) {
      MetasLast(mrs, BuiltinRouteNames, name);
    }
  }

  lemma {:induction false} MetasKeys(mrs: seq<MenuRoute>, names: seq<string>, name: string)
    ensures name in MetasOf(mrs, names) <==>
              exists i :: 0 <= i < |mrs| && mrs[i].name == name && mrs[i].name in names && mrs[i].meta.Some?
  {
    if mrs != [] {
      var init := mrs[..|mrs| - 1];
      MetasKeys(init, names, name);
      assert forall i :: 0 <= i < |init| ==> mrs[i] == init[i];
    }
  }

  lemma {:induction false} MetasLast(mrs: seq<MenuRoute>, names: seq<string>, name: string)
    requires name in MetasOf(mrs, names)
    ensures exists i :: 0 <= i < |mrs| && mrs[i].name == name && mrs[i].name in names && mrs[i].meta.Some?
              && MetasOf(mrs, names)[name] == mrs[i].meta.value
              && forall j :: i < j < |mrs| && mrs[j].name == name ==> mrs[j].meta.None?
  {
    var init := mrs[..|mrs| - 1];
    var last := mrs[|mrs| - 1];
    if last.name in names && last.meta.Some? && last.name == name {
      assert mrs[|mrs| - 1] == last;
    } else {
      assert name in MetasOf(init, names) && MetasOf(mrs, names)[name] == MetasOf(init, names)[name];
      MetasLast(init, names, name);
      var i :| 0 <= i < |init| && init[i].name == name && init[i].name in names && init[i].meta.Some?
               && MetasOf(init, names)[name] == init[i].meta.value
               && forall j :: i < j < |init| && init[j].name == name ==> init[j].meta.None?;
      assert mrs[i] == init[i];
      forall j | i < j < |mrs| && mrs[j].name == name ensures mrs[j].meta.None? {
        if j < |init| {
          assert mrs[j] == init[j];
        }
      }
    }
  }
}
