/**
 * `filterRoutesByRoles`: prunes a route forest down to the routes the user's
 * roles admit. A route is admitted when its own `meta.roles` is empty or
 * shares a role with the user; a route whose `children` array is empty after
 * filtering (or was empty to begin with) is dropped. Routes are copied
 * shallowly, with filtered children; the input is a value and is left as is.
 */
module RouteFilter {
  import opened Wrappers
  import opened Seqs
  import opened RouteTypes
  import opened RouterHelper

  function RouteRoles(r: Route): seq<string> {
    r.meta.roles.GetOr([])
  }

  /** `hasPermission || isEmptyRoles` */
  predicate RoleAllowed(r: Route, roles: seq<string>) {
    |RouteRoles(r)| == 0 || Intersects(RouteRoles(r), roles)
  }

  function FilterForest(rs: seq<Route>, n: nat, roles: seq<string>): seq<Route>
    requires n <= |rs|
    decreases Kids(rs), n
  {
    if n == 0 then [] else FilterForest(rs, n - 1, roles) + FilterNode(rs[n - 1], roles)
  }

  /** `filterRouteByRoles`: the route's shallow copy, or nothing. */
  function FilterNode(r: Route, roles: seq<string>): seq<Route>
    decreases r
  {
    var copy := if HasKids(r)
      then r.(children := Kids(FilterForest(r.children.routes, |r.children.routes|, roles)))
      else r;
    if copy.children == Kids([]) then []
    else if RoleAllowed(r, roles) then [copy]
    else []
  }

  function FilterRoutesByRoles(rs: seq<Route>, roles: seq<string>): seq<Route> {
    FilterForest(rs, |rs|, roles)
  }

  function StripAll(rs: seq<Route>): (r: seq<Route>)
    ensures |r| == |rs| && forall i :: 0 <= i < |rs| ==> r[i] == Strip(rs[i])
  {
    seq(|rs|, i requires 0 <= i < |rs| => Strip(rs[i]))
  }

  /** The children a route keeps once its subtree has been filtered. */
  predicate EmptiedChildren(r: Route, roles: seq<string>) {
    r.children == Kids([])
    || (HasKids(r) && FilterForest(r.children.routes, |r.children.routes|, roles) == [])
  }

  /**
   * A route survives iff its roles admit the user and its children are not
   * left empty; a survivor is the route itself with only its children changed.
   */
  lemma FilterNodeSurvival(r: Route, roles: seq<string>)
    ensures |FilterNode(r, roles)| <= 1
    ensures FilterNode(r, roles) != [] <==> RoleAllowed(r, roles) && !EmptiedChildren(r, roles)
    ensures FilterNode(r, roles) != [] ==> Strip(FilterNode(r, roles)[0]) == Strip(r)
    ensures FilterNode(r, roles) != [] && !HasKids(r) ==> FilterNode(r, roles)[0] == r
  {
  }

  /** A forest filters to nothing iff each of its routes does. */
  lemma {:induction false} FilterForestEmpty(rs: seq<Route>, n: nat, roles: seq<string>)
    requires n <= |rs|
    ensures FilterForest(rs, n, roles) == [] <==> forall i :: 0 <= i < n ==> FilterNode(rs[i], roles) == []
  {
    if n > 0 {
      FilterForestEmpty(rs, n - 1, roles);
    }
  }

  /** A route admitted by roles alone survives when its children were never set. */
  lemma LeafSurvives(r: Route, roles: seq<string>)
    requires r.children.Unset? && RoleAllowed(r, roles)
    ensures FilterNode(r, roles) == [r]
  {
  }

  predicate Authorized(x: Route, roles: seq<string>) {
    RoleAllowed(x, roles) && x.children != Kids([])
  }

  /**
   * Every route anywhere in the filtered forest is admitted by the user's
   * roles and has no empty `children` array.
   */
  lemma {:induction false} FilteredForestAuthorized(rs: seq<Route>, n: nat, roles: seq<string>)
    requires n <= |rs|
    ensures forall x :: x in FlattenRoutes(FilterForest(rs, n, roles)) ==> Authorized(x, roles)
    decreases Kids(rs), n
  {
    if n > 0 {
      var before := FilterForest(rs, n - 1, roles);
      var last := FilterNode(rs[n - 1], roles);
      FilteredForestAuthorized(rs, n - 1, roles);
      FilteredNodeAuthorized(rs[n - 1], roles);
      FlattenConcat(before, last, |last|);
    }
  }

  lemma {:induction false} FilteredNodeAuthorized(r: Route, roles: seq<string>)
    ensures forall x :: x in FlattenRoutes(FilterNode(r, roles)) ==> Authorized(x, roles)
    decreases r
  {
    var out := FilterNode(r, roles);
    if out != [] {
      var c := out[0];
      assert out == [c];
      FlattenSingle(c);
      if HasKids(c) {
        var kids := r.children.routes;
        assert HasKids(r);
        FilteredForestAuthorized(kids, |kids|, roles);
        assert c.children.routes == FilterForest(kids, |kids|, roles);
      }
    }
  }

  /** `a` is `b` with some elements left out. */
  predicate Subsequence(a: seq<Route>, b: seq<Route>)
    decreases |b|
  {
    if b == [] then a == []
    else
      || Subsequence(a, b[..|b| - 1])
      || (a != [] && a[|a| - 1] == b[|b| - 1] && Subsequence(a[..|a| - 1], b[..|b| - 1]))
  }

  lemma {:induction false} SubsequenceEmpty(b: seq<Route>)
    ensures Subsequence([], b)
    decreases |b|
  {
    if b != [] {
      SubsequenceEmpty(b[..|b| - 1]);
    }
  }

  lemma {:induction false} SubsequenceRefl(b: seq<Route>)
    ensures Subsequence(b, b)
    decreases |b|
  {
    if b != [] {
      SubsequenceRefl(b[..|b| - 1]);
    }
  }

  lemma {:induction false} SubsequenceConcat(a1: seq<Route>, b1: seq<Route>, a2: seq<Route>, b2: seq<Route>)
    requires Subsequence(a1, b1) && Subsequence(a2, b2)
    ensures Subsequence(a1 + a2, b1 + b2)
    decreases |b2|
  {
    if b2 == [] {
      assert a1 + a2 == a1 && b1 + b2 == b1;
    } else {
      var b2' := b2[..|b2| - 1];
      assert (b1 + b2)[..|b1 + b2| - 1] == b1 + b2';
      if Subsequence(a2, b2') {
        SubsequenceConcat(a1, b1, a2, b2');
      } else {
        var a2' := a2[..|a2| - 1];
        SubsequenceConcat(a1, b1, a2', b2');
        assert (a1 + a2)[..|a1 + a2| - 1] == a1 + a2';
      }
    }
  }

  lemma StripAllConcat(a: seq<Route>, b: seq<Route>)
    ensures StripAll(a + b) == StripAll(a) + StripAll(b)
  {
  }

  /**
   * Filtering never invents a route and never reorders: listed in pre-order
   * and with children forgotten, the filtered forest is the original forest
   * with some routes left out.
   */
  lemma {:induction false} FilterPreservesOrder(rs: seq<Route>, n: nat, roles: seq<string>)
    requires n <= |rs|
    ensures Subsequence(StripAll(FlattenRoutes(FilterForest(rs, n, roles))), StripAll(Flatten(rs, n)))
    decreases Kids(rs), n
  {
    if n == 0 {
      SubsequenceEmpty(StripAll(Flatten(rs, n)));
    } else {
      var before := FilterForest(rs, n - 1, roles);
      var last := FilterNode(rs[n - 1], roles);
      FilterPreservesOrder(rs, n - 1, roles);
      FilterNodePreservesOrder(rs[n - 1], roles);
      OrderConcat(before, last, Flatten(rs, n - 1), FlattenNode(rs[n - 1]));
    }
  }

  /** Two filtered parts, each in the order of its source, are in the order of the joined sources. */
  lemma OrderConcat(before: seq<Route>, last: seq<Route>, x: seq<Route>, y: seq<Route>)
    requires Subsequence(StripAll(FlattenRoutes(before)), StripAll(x))
    requires Subsequence(StripAll(FlattenRoutes(last)), StripAll(y))
    ensures Subsequence(StripAll(FlattenRoutes(before + last)), StripAll(x + y))
  {
    var fb, fl := FlattenRoutes(before), FlattenRoutes(last);
    FlattenConcat(before, last, |last|);
    StripAllConcat(fb, fl);
    StripAllConcat(x, y);
    SubsequenceConcat(StripAll(fb), StripAll(x), StripAll(fl), StripAll(y));
    assert StripAll(FlattenRoutes(before + last)) == StripAll(fb) + StripAll(fl);
  }

  lemma {:induction false} FilterNodePreservesOrder(r: Route, roles: seq<string>)
    ensures Subsequence(StripAll(FlattenRoutes(FilterNode(r, roles))), StripAll(FlattenNode(r)))
    decreases r
  {
    var out := FilterNode(r, roles);
    var below := if HasKids(r) then Flatten(r.children.routes, |r.children.routes|) else [];
    assert FlattenNode(r) == [r] + below;
    StripAllConcat([r], below);
    if out == [] {
      SubsequenceEmpty(StripAll(FlattenNode(r)));
    } else {
      var c := out[0];
      assert out == [c];
      FlattenSingle(c);
      var cbelow := if HasKids(c) then Flatten(c.children.routes, |c.children.routes|) else [];
      assert FlattenNode(c) == [c] + cbelow;
      StripAllConcat([c], cbelow);
      assert StripAll([c]) == StripAll([r]);
      SubsequenceRefl(StripAll([r]));
      if HasKids(r) {
        var kids := r.children.routes;
        FilterPreservesOrder(kids, |kids|, roles);
        assert c.children.routes == FilterForest(kids, |kids|, roles);
        assert cbelow == FlattenRoutes(FilterForest(kids, |kids|, roles));
      } else {
        assert c == r;
        SubsequenceRefl(StripAll(below));
      }
      SubsequenceConcat(StripAll([c]), StripAll([r]), StripAll(cbelow), StripAll(below));
    }
  }

  /** A route no role list can exclude: it names no roles and has no empty `children` array. */
  predicate Open(x: Route) {
    |RouteRoles(x)| == 0 && x.children != Kids([])
  }

  /**
   * A forest whose every route, at any depth, is admitted by the roles and
   * has no empty `children` array comes through the filter unchanged.
   */
  lemma {:induction false} FilterKeepsOpenForest(rs: seq<Route>, n: nat, roles: seq<string>)
    requires n <= |rs|
    requires forall x :: x in Flatten(rs, n) ==> Authorized(x, roles)
    ensures FilterForest(rs, n, roles) == rs[..n]
    decreases Kids(rs), n
  {
    if n > 0 {
      FilterKeepsOpenForest(rs, n - 1, roles);
      FilterKeepsOpenNode(rs[n - 1], roles);
      assert rs[..n] == rs[..n - 1] + [rs[n - 1]];
    }
  }

  lemma {:induction false} FilterKeepsOpenNode(r: Route, roles: seq<string>)
    requires forall x :: x in FlattenNode(r) ==> Authorized(x, roles)
    ensures FilterNode(r, roles) == [r]
    decreases r
  {
    assert r in FlattenNode(r);
    if HasKids(r) {
      var kids := r.children.routes;
      FilterKeepsOpenForest(kids, |kids|, roles);
      assert kids[..|kids|] == kids;
    }
  }

  /** Under a fixed role list the filter is idempotent: filtering its output again changes nothing. */
  lemma FilterIdempotent(rs: seq<Route>, roles: seq<string>)
    ensures FilterRoutesByRoles(FilterRoutesByRoles(rs, roles), roles) == FilterRoutesByRoles(rs, roles)
  {
    var out := FilterRoutesByRoles(rs, roles);
    FilteredForestAuthorized(rs, |rs|, roles);
    FilterKeepsOpenForest(out, |out|, roles);
    assert out[..|out|] == out;
  }
}
