/**
 * Route metadata accessors with their defaults, and the pre-order traversals
 * of a route forest: `flattenRoutes`, `findRouteByPath`, `findRouteByName`
 * and `getDefaultAfterLoginRoutes`.
 */
module RouterHelper {
  import opened Wrappers
  import opened RouteTypes
  import opened Seqs

  // Metadata accessors. A boolean flag holds only for a literal `true`,
  // except `requiresAuth`, which holds unless it is a literal `false`.

  predicate IsJsonRendererRoute(r: Route) { r.meta.useJsonRenderer == Some(true) }

  predicate IsAuthRequired(r: Route) { r.meta.requiresAuth != Some(false) }

  function GetLayoutType(r: Route): string { OrElse(r.meta.layoutType, "normal") }

  function GetOpenType(r: Route): string { OrElse(r.meta.openType, "normal") }

  function GetSchemaSource(r: Route): Option<string> { r.meta.schemaSource }

  predicate IsDefaultAfterLogin(r: Route) { r.meta.isDefaultAfterLogin == Some(true) }

  function GetHref(r: Route): Option<string> { r.meta.href }

  function GetRouteTitle(r: Route): string { OrElse(r.meta.title, "") }

  predicate IsHiddenInMenu(r: Route) { r.meta.hideInMenu == Some(true) }

  predicate IsKeepAlive(r: Route) { r.meta.keepAlive == Some(true) }

  function GetPermissions(r: Route): seq<string> { r.meta.permissions.GetOr([]) }

  /** A route with no `meta` falls back to every default. */
  lemma AccessorDefaults(r: Route)
    requires r.meta == EmptyMeta
    ensures IsAuthRequired(r)
    ensures !IsJsonRendererRoute(r) && !IsDefaultAfterLogin(r)
    ensures !IsHiddenInMenu(r) && !IsKeepAlive(r)
    ensures GetLayoutType(r) == "normal" && GetOpenType(r) == "normal"
    ensures GetRouteTitle(r) == "" && GetPermissions(r) == []
    ensures GetSchemaSource(r) == None && GetHref(r) == None
  {
  }

  /** A value that is set is returned unchanged; `false` flags read as false. */
  lemma AccessorsReturnSetValues(r: Route, layout: string, open: string, title: string, perms: seq<string>)
    requires layout != "" && open != "" && title != ""
    requires r.meta.layoutType == Some(layout) && r.meta.openType == Some(open)
    requires r.meta.title == Some(title) && r.meta.permissions == Some(perms)
    requires r.meta.requiresAuth == Some(false)
    requires r.meta.useJsonRenderer == Some(false) && r.meta.hideInMenu == Some(false)
    requires r.meta.keepAlive == Some(false) && r.meta.isDefaultAfterLogin == Some(false)
    ensures GetLayoutType(r) == layout && GetOpenType(r) == open
    ensures GetRouteTitle(r) == title && GetPermissions(r) == perms
    ensures !IsAuthRequired(r) && !IsJsonRendererRoute(r) && !IsHiddenInMenu(r)
    ensures !IsKeepAlive(r) && !IsDefaultAfterLogin(r)
  {
  }

  // Traversals. A forest function takes the first `n` routes of `rs`, so that
  // each step adds one route; a call on a whole forest passes `|rs|`.

  /** `flattenRoutes`: every route of the forest, in pre-order. */
  function Flatten(rs: seq<Route>, n: nat): seq<Route>
    requires n <= |rs|
    decreases Kids(rs), n
  {
    if n == 0 then [] else Flatten(rs, n - 1) + FlattenNode(rs[n - 1])
  }

  function FlattenNode(r: Route): seq<Route>
    decreases r
  {
    [r] + (if HasKids(r) then Flatten(r.children.routes, |r.children.routes|) else [])
  }

  function FlattenRoutes(rs: seq<Route>): seq<Route> {
    Flatten(rs, |rs|)
  }

  /** The number of routes in a forest, counted node by node. */
  function ForestSize(rs: seq<Route>, n: nat): nat
    requires n <= |rs|
    decreases Kids(rs), n
  {
    if n == 0 then 0 else ForestSize(rs, n - 1) + NodeSize(rs[n - 1])
  }

  function NodeSize(r: Route): nat
    decreases r
  {
    1 + (if HasKids(r) then ForestSize(r.children.routes, |r.children.routes|) else 0)
  }

  /** Every node is listed exactly once: the flat list is as long as the forest is large. */
  lemma {:induction false} FlattenSize(rs: seq<Route>, n: nat)
    requires n <= |rs|
    ensures |Flatten(rs, n)| == ForestSize(rs, n)
    decreases Kids(rs), n
  {
    if n > 0 {
      FlattenSize(rs, n - 1);
      FlattenNodeSize(rs[n - 1]);
    }
  }

  lemma {:induction false} FlattenNodeSize(r: Route)
    ensures |FlattenNode(r)| == NodeSize(r)
    decreases r
  {
    if HasKids(r) {
      FlattenSize(r.children.routes, |r.children.routes|);
    }
  }

  /** Every top-level route is in the flat list, each right before its own subtree. */
  lemma {:induction false} FlattenHoldsRoots(rs: seq<Route>, n: nat, i: nat)
    requires i < n <= |rs|
    ensures rs[i] in Flatten(rs, n)
  {
    if i < n - 1 {
      FlattenHoldsRoots(rs, n - 1, i);
    } else {
      assert FlattenNode(rs[i])[0] == rs[i];
    }
  }

  lemma FlattenSingle(r: Route)
    ensures FlattenRoutes([r]) == FlattenNode(r)
  {
    assert Flatten([r], 1) == Flatten([r], 0) + FlattenNode(r);
  }

  lemma {:induction false} FlattenConcat(a: seq<Route>, b: seq<Route>, n: nat)
    requires n <= |b|
    ensures Flatten(a + b, |a| + n) == FlattenRoutes(a) + Flatten(b, n)
  {
    if n == 0 {
      FlattenPrefix(a + b, |a|);
      assert (a + b)[..|a|] == a;
    } else {
      FlattenConcat(a, b, n - 1);
      assert (a + b)[|a| + n - 1] == b[n - 1];
      assert Flatten(a + b, |a| + n) == Flatten(a + b, |a| + n - 1) + FlattenNode(b[n - 1]);
      Reassociate(FlattenRoutes(a), Flatten(b, n - 1), FlattenNode(b[n - 1]));
    }
  }

  /** A forest function on the first `n` routes depends on those routes alone. */
  lemma {:induction false} FlattenPrefix(rs: seq<Route>, n: nat)
    requires n <= |rs|
    ensures Flatten(rs, n) == FlattenRoutes(rs[..n])
  {
    FlattenPrefixAt(rs, rs[..n], n);
  }

  lemma {:induction false} FlattenPrefixAt(rs: seq<Route>, ts: seq<Route>, n: nat)
    requires n <= |rs| && n <= |ts| && rs[..n] == ts[..n]
    ensures Flatten(rs, n) == Flatten(ts, n)
  {
    if n > 0 {
      assert rs[..n - 1] == ts[..n - 1] by {
        assert rs[..n - 1] == rs[..n][..n - 1];
        assert ts[..n - 1] == ts[..n][..n - 1];
      }
      assert rs[n - 1] == rs[..n][n - 1] == ts[..n][n - 1] == ts[n - 1];
      FlattenPrefixAt(rs, ts, n - 1);
    }
  }

  /** `findRouteByPath`: the first route in pre-order with that path. */
  function FindRouteByPath(rs: seq<Route>, path: string): (r: Option<Route>)
    ensures r.Some? ==> r.value.path == path && r.value in FlattenRoutes(rs)
    ensures r.None? <==> forall x :: x in FlattenRoutes(rs) ==> x.path != path
    ensures r.Some? ==> var flat := FlattenRoutes(rs);
      exists i :: 0 <= i < |flat| && flat[i] == r.value
        && forall j :: 0 <= j < i ==> flat[j].path != path
  {
    var flat := FlattenRoutes(rs);
    var i := FindIndex(flat, (x: Route) => x.path == path);
    if i == -1 then None else Some(flat[i])
  }

  /** The test `route.name === name`. */
  function NamedAs(name: string): Route -> bool {
    (x: Route) => Named(x, name)
  }

  /** `findRouteByName` of the router helpers: the first route in pre-order with that name. */
  function FindRouteByName(rs: seq<Route>, name: string): (r: Option<Route>)
    ensures r.Some? ==> Named(r.value, name) && r.value in FlattenRoutes(rs)
    ensures r.None? <==> forall x :: x in FlattenRoutes(rs) ==> !Named(x, name)
    ensures r.Some? ==> var flat := FlattenRoutes(rs);
      exists i :: 0 <= i < |flat| && flat[i] == r.value
        && forall j :: 0 <= j < i ==> !Named(flat[j], name)
  {
    var flat := FlattenRoutes(rs);
    var i := FindIndex(flat, NamedAs(name));
    if i == -1 then None else Some(flat[i])
  }

  /** `getDefaultAfterLoginRoutes`, traversing the forest itself. */
  function DefaultAfterLogin(rs: seq<Route>, n: nat): seq<Route>
    requires n <= |rs|
    decreases Kids(rs), n
  {
    if n == 0 then [] else DefaultAfterLogin(rs, n - 1) + DefaultAfterLoginNode(rs[n - 1])
  }

  function DefaultAfterLoginNode(r: Route): seq<Route>
    decreases r
  {
    (if IsDefaultAfterLogin(r) then [r] else [])
      + (if HasKids(r) then DefaultAfterLogin(r.children.routes, |r.children.routes|) else [])
  }

  function GetDefaultAfterLoginRoutes(rs: seq<Route>): seq<Route> {
    DefaultAfterLogin(rs, |rs|)
  }

  /** The traversal picks the same routes as filtering the flat list, in the same order. */
  lemma {:induction false} DefaultAfterLoginIsFilteredFlatten(rs: seq<Route>, n: nat)
    requires n <= |rs|
    ensures DefaultAfterLogin(rs, n) == Filter(Flatten(rs, n), IsDefaultAfterLogin)
    decreases Kids(rs), n
  {
    if n > 0 {
      DefaultAfterLoginIsFilteredFlatten(rs, n - 1);
      DefaultAfterLoginNodeIsFiltered(rs[n - 1]);
      FilterConcat(Flatten(rs, n - 1), FlattenNode(rs[n - 1]), IsDefaultAfterLogin);
    }
  }

  lemma {:induction false} DefaultAfterLoginNodeIsFiltered(r: Route)
    ensures DefaultAfterLoginNode(r) == Filter(FlattenNode(r), IsDefaultAfterLogin)
    decreases r
  {
    var rest := if HasKids(r) then Flatten(r.children.routes, |r.children.routes|) else [];
    if HasKids(r) {
      DefaultAfterLoginIsFilteredFlatten(r.children.routes, |r.children.routes|);
    }
    FilterConcat([r], rest, IsDefaultAfterLogin);
    assert Filter([r], IsDefaultAfterLogin) == (if IsDefaultAfterLogin(r) then [r] else []) by {
      assert [r][..0] == [];
    }
  }
}
