/**
 * The keep-alive name lists read off a route forest
 * (`getCacheRouteNames`, `getExcludeCacheRouteNames`) and the existence test
 * `isRouteExistByRouteName`.
 */
module RouteCache {
  import opened Wrappers
  import opened Seqs
  import opened RouteTypes
  import opened RouterHelper

  /** `route.component` is truthy. */
  predicate HasComponent(r: Route) {
    !r.component.NoComponent?
  }

  /** A route that can be kept alive at all: it has a component and a non-empty name. */
  predicate Candidate(r: Route) {
    HasComponent(r) && Truthy(r.name)
  }

  /** Cached by default: `keepAlive !== false`. */
  predicate Cacheable(r: Route) {
    Candidate(r) && r.meta.keepAlive != Some(false)
  }

  /** Excluded explicitly: `keepAlive === false`. */
  predicate Excluded(r: Route) {
    Candidate(r) && r.meta.keepAlive == Some(false)
  }

  function NamesOf(rs: seq<Route>): (r: seq<string>)
    ensures |r| == |rs|
  {
    seq(|rs|, i requires 0 <= i < |rs| => rs[i].name.GetOr(""))
  }

  lemma NamesOfConcat(a: seq<Route>, b: seq<Route>)
    ensures NamesOf(a + b) == NamesOf(a) + NamesOf(b)
  {
  }

  /**
   * The closure of both collectors: pushes, in pre-order, the name of every
   * route that satisfies `p`, descending into non-empty `children` arrays.
   */
  method CollectNames(rs: seq<Route>, p: Route -> bool, acc: seq<string>) returns (out: seq<string>)
    ensures out == acc + NamesOf(Filter(FlattenRoutes(rs), p))
    decreases Kids(rs)
  {
    out := acc;
    var i := 0;
    while i < |rs|
      invariant 0 <= i <= |rs|
      invariant out == acc + NamesOf(Filter(Flatten(rs, i), p))
    {
      ghost var before := out;
      out := CollectNode(rs[i], p, out);
      CollectAdvance(acc, before, out, rs, i, p);
      i := i + 1;
    }
  }

  /** The names collected so far grow by those of the `i`-th route's subtree. */
  lemma CollectAdvance(acc: seq<string>, before: seq<string>, after: seq<string>, rs: seq<Route>, i: nat, p: Route -> bool)
    requires i < |rs|
    requires before == acc + NamesOf(Filter(Flatten(rs, i), p))
    requires after == before + NamesOf(Filter(FlattenNode(rs[i]), p))
    ensures after == acc + NamesOf(Filter(Flatten(rs, i + 1), p))
  {
    assert Flatten(rs, i + 1) == Flatten(rs, i) + FlattenNode(rs[i]);
    NamesSplit(Flatten(rs, i), FlattenNode(rs[i]), p);
    Reassociate(acc, NamesOf(Filter(Flatten(rs, i), p)), NamesOf(Filter(FlattenNode(rs[i]), p)));
  }

  /** The names kept from two lists one after the other. */
  lemma NamesSplit(x: seq<Route>, y: seq<Route>, p: Route -> bool)
    ensures NamesOf(Filter(x + y, p)) == NamesOf(Filter(x, p)) + NamesOf(Filter(y, p))
  {
    FilterConcat(x, y, p);
    NamesOfConcat(Filter(x, p), Filter(y, p));
  }

  /** The names of a subtree: the route's own when it passes, then those below it. */
  lemma NodeNames(route: Route, p: Route -> bool)
    ensures NamesOf(Filter(FlattenNode(route), p))
              == (if p(route) then [route.name.GetOr("")] else [])
                 + (if HasKids(route) then NamesOf(Filter(FlattenRoutes(route.children.routes), p)) else [])
  {
    var below := if HasKids(route) then FlattenRoutes(route.children.routes) else [];
    assert FlattenNode(route) == [route] + below;
    NamesSplit([route], below, p);
    FilterSingle(route, p);
    assert NamesOf(Filter([route], p)) == if p(route) then [route.name.GetOr("")] else [];
    if !HasKids(route) {
      assert NamesOf(Filter(below, p)) == [];
    }
  }

  /** The body of the `forEach`: one route, then its subtree. */
  method CollectNode(route: Route, p: Route -> bool, acc: seq<string>) returns (out: seq<string>)
    ensures out == acc + NamesOf(Filter(FlattenNode(route), p))
    decreases route
  {
    NodeNames(route, p);
    ghost var own := if p(route) then [route.name.GetOr("")] else [];
    out := acc;
    if p(route) {
      out := out + [route.name.GetOr("")];
    }
    assert out == acc + own;
    if HasKids(route) {
      out := CollectNames(route.children.routes, p, out);
      Reassociate(acc, own, NamesOf(Filter(FlattenRoutes(route.children.routes), p)));
    } else {
      Reassociate(acc, own, []);
    }
  }

  /** `getCacheRouteNames` */
  method GetCacheRouteNames(rs: seq<Route>) returns (names: seq<string>)
    ensures names == NamesOf(Filter(FlattenRoutes(rs), Cacheable))
  {
    names := CollectNames(rs, Cacheable, []);
  }

  /** `getExcludeCacheRouteNames` */
  method GetExcludeCacheRouteNames(rs: seq<Route>) returns (names: seq<string>)
    ensures names == NamesOf(Filter(FlattenRoutes(rs), Excluded))
  {
    names := CollectNames(rs, Excluded, []);
  }

  /**
   * Every route with a component and a name lands in exactly one of the two
   * collections; a route lacking either lands in neither.
   */
  lemma CacheSplit(rs: seq<Route>, x: Route)
    requires x in FlattenRoutes(rs)
    ensures Candidate(x) ==>
              (x in Filter(FlattenRoutes(rs), Cacheable) <==> x !in Filter(FlattenRoutes(rs), Excluded))
    ensures !Candidate(x) ==>
              x !in Filter(FlattenRoutes(rs), Cacheable) && x !in Filter(FlattenRoutes(rs), Excluded)
  {
    FilterMembers(FlattenRoutes(rs), Cacheable, x);
    FilterMembers(FlattenRoutes(rs), Excluded, x);
  }

  // `isRouteExistByRouteName`

  function Exists(rs: seq<Route>, n: nat, name: string): bool
    requires n <= |rs|
    decreases Kids(rs), n
  {
    n > 0 && (Exists(rs, n - 1, name) || ExistsNode(rs[n - 1], name))
  }

  /** `recursiveGetIsRouteExistByRouteName` */
  function ExistsNode(r: Route, name: string): bool
    decreases r
  {
    Named(r, name) || (HasKids(r) && Exists(r.children.routes, |r.children.routes|, name))
  }

  function IsRouteExistByRouteName(name: string, rs: seq<Route>): bool {
    Exists(rs, |rs|, name)
  }

  /** The test holds iff some route at any depth carries the name, i.e. iff the helper finds it. */
  lemma {:induction false} ExistsIffListed(rs: seq<Route>, n: nat, name: string)
    requires n <= |rs|
    ensures Exists(rs, n, name) <==> exists x :: x in Flatten(rs, n) && Named(x, name)
    decreases Kids(rs), n
  {
    if n > 0 {
      ExistsIffListed(rs, n - 1, name);
      ExistsNodeIffListed(rs[n - 1], name);
    }
  }

  lemma {:induction false} ExistsNodeIffListed(r: Route, name: string)
    ensures ExistsNode(r, name) <==> exists x :: x in FlattenNode(r) && Named(x, name)
    decreases r
  {
    if HasKids(r) {
      ExistsIffListed(r.children.routes, |r.children.routes|, name);
    }
    assert r in FlattenNode(r);
  }

  lemma IsRouteExistAgreesWithFind(name: string, rs: seq<Route>)
    ensures IsRouteExistByRouteName(name, rs) <==> FindRouteByName(rs, name).Some?
  {
    ExistsIffListed(rs, |rs|, name);
  }
}
