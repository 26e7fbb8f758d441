/**
 * `sortRoutesByOrder`: sorts a route array in place by `Number(meta.order) || 0`,
 * then sorts every non-empty `children` array the same way, recursively.
 * `Array.prototype.sort` is stable (ECMA-262, 10th edition, section
 * 22.1.3.27), so routes with equal keys keep their relative order; the model
 * sorts by insertion, which is stable as well.
 */
module RouteSort {
  import opened Wrappers
  import opened Seqs
  import opened RouteTypes

  /** `Number(meta.order) || 0` for an integer or missing order. */
  function OrderKey(r: Route): int {
    r.meta.order.GetOr(0)
  }

  predicate SortedBy<T>(s: seq<T>, key: T -> int) {
    forall i, j :: 0 <= i < j < |s| ==> key(s[i]) <= key(s[j])
  }

  predicate SortedByOrder(s: seq<Route>) {
    SortedBy(s, OrderKey)
  }

  /** Places `x` after every element whose key is at most its own. */
  function Insert<T>(s: seq<T>, x: T, key: T -> int): (r: seq<T>)
    ensures |r| == |s| + 1
  {
    if s == [] then [x]
    else if key(s[|s| - 1]) <= key(x) then s + [x]
    else Insert(s[..|s| - 1], x, key) + [s[|s| - 1]]
  }

  /** A stable sort by `key`, inserting one element at a time. */
  function SortBy<T>(s: seq<T>, key: T -> int): (r: seq<T>)
    ensures |r| == |s|
  {
    if s == [] then [] else Insert(SortBy(s[..|s| - 1], key), s[|s| - 1], key)
  }

  /** The top-level reordering done by `routes.sort(...)`. */
  function StableSort(s: seq<Route>): (r: seq<Route>)
    ensures |r| == |s|
  {
    SortBy(s, OrderKey)
  }

  /** `sortRouteByOrder`: the route with its subtree sorted; the route itself keeps its key. */
  function SortNode(r: Route): (r': Route)
    ensures OrderKey(r') == OrderKey(r) && Strip(r') == Strip(r)
    decreases r
  {
    if r.children.Kids? && |r.children.routes| > 0
    then r.(children := Kids(SortForest(r.children.routes)))
    else r
  }

  /** What `sortRoutesByOrder` leaves in the array: sorted, each route's subtree sorted. */
  function SortForest(rs: seq<Route>): seq<Route>
    decreases Kids(rs)
  {
    StableSort(seq(|rs|, i requires 0 <= i < |rs| => SortNode(rs[i])))
  }

  /** `f` applied to every element. */
  function MapEach<T>(s: seq<T>, f: T -> T): (r: seq<T>)
    ensures |r| == |s| && forall i :: 0 <= i < |s| ==> r[i] == f(s[i])
  {
    seq(|s|, i requires 0 <= i < |s| => f(s[i]))
  }

  /** Every route with its subtree sorted, in place. */
  function SortEach(s: seq<Route>): (r: seq<Route>)
    ensures |r| == |s| && forall i :: 0 <= i < |s| ==> r[i] == SortNode(s[i])
  {
    MapEach(s, SortNode)
  }

  // Permutation

  lemma {:induction false} InsertPermutes<T>(s: seq<T>, x: T, key: T -> int)
    ensures multiset(Insert(s, x, key)) == multiset(s) + multiset{x}
  {
    if s != [] && key(s[|s| - 1]) > key(x) {
      InsertPermutes(s[..|s| - 1], x, key);
      assert s == s[..|s| - 1] + [s[|s| - 1]];
    }
  }

  lemma {:induction false} SortPermutes<T>(s: seq<T>, key: T -> int)
    ensures multiset(SortBy(s, key)) == multiset(s)
  {
    if s != [] {
      var init, last := s[..|s| - 1], s[|s| - 1];
      SortPermutes(init, key);
      InsertPermutes(SortBy(init, key), last, key);
      assert s == init + [last];
    }
  }

  // Order

  lemma {:induction false} InsertSorted<T>(s: seq<T>, x: T, key: T -> int)
    requires SortedBy(s, key)
    ensures SortedBy(Insert(s, x, key), key)
    ensures forall y :: y in Insert(s, x, key) ==> y in s || y == x
  {
    if s != [] && key(s[|s| - 1]) > key(x) {
      var init := s[..|s| - 1];
      assert SortedBy(init, key);
      InsertSorted(init, x, key);
      var r := Insert(init, x, key);
      forall y | y in r ensures key(y) <= key(s[|s| - 1]) {
        if y != x {
          var k :| 0 <= k < |init| && init[k] == y;
        }
      }
    }
  }

  lemma {:induction false} SortSorted<T>(s: seq<T>, key: T -> int)
    ensures SortedBy(SortBy(s, key), key)
  {
    if s != [] {
      SortSorted(s[..|s| - 1], key);
      InsertSorted(SortBy(s[..|s| - 1], key), s[|s| - 1], key);
    }
  }

  // Stability: the elements sharing a key come out in their input order.

  function WithKey<T>(key: T -> int, k: int): T -> bool {
    (r: T) => key(r) == k
  }

  /** An element that passes no test `x` passes can move in front of `x` without changing what a filter keeps. */
  lemma FilterSwapLast<T>(u: seq<T>, a: seq<T>, x: T, last: T, p: T -> bool)
    requires Filter(u, p) == Filter(a, p) + Filter([x], p)
    requires !(p(x) && p(last))
    ensures Filter(u + [last], p) == Filter(a + [last], p) + Filter([x], p)
  {
    FilterConcat(u, [last], p);
    FilterConcat(a, [last], p);
    FilterSingle(x, p);
    FilterSingle(last, p);
    if !p(x) {
      assert Filter(u, p) == Filter(a, p);
    } else {
      assert Filter([last], p) == [];
      assert Filter(a + [last], p) == Filter(a, p);
    }
  }

  lemma {:induction false} InsertStable<T>(s: seq<T>, x: T, key: T -> int, k: int)
    ensures Filter(Insert(s, x, key), WithKey(key, k)) == Filter(s, WithKey(key, k)) + Filter([x], WithKey(key, k))
  {
    var p := WithKey(key, k);
    if s == [] {
      assert Insert(s, x, key) == [x];
      assert Filter(s, p) == [];
    } else if key(s[|s| - 1]) <= key(x) {
      FilterConcat(s, [x], p);
    } else {
      var init, last := s[..|s| - 1], s[|s| - 1];
      InsertStable(init, x, key, k);
      assert s == init + [last];
      FilterSwapLast(Insert(init, x, key), init, x, last, p);
    }
  }

  lemma {:induction false} SortStable<T>(s: seq<T>, key: T -> int, k: int)
    ensures Filter(SortBy(s, key), WithKey(key, k)) == Filter(s, WithKey(key, k))
  {
    if s != [] {
      var init, last := s[..|s| - 1], s[|s| - 1];
      var p := WithKey(key, k);
      SortStable(init, key, k);
      InsertStable(SortBy(init, key), last, key, k);
      FilterConcat(init, [last], p);
      assert s == init + [last];
    }
  }

  /**
   * The sorted forest is the input permuted (each route with its subtree
   * sorted), ascending by key, with equal keys in input order.
   */
  lemma SortForestSpec(rs: seq<Route>, k: int)
    ensures multiset(SortForest(rs)) == multiset(SortEach(rs))
    ensures SortedByOrder(SortForest(rs))
    ensures Filter(SortForest(rs), WithKey(OrderKey, k)) == Filter(SortEach(rs), WithKey(OrderKey, k))
  {
    SortForestEach(rs);
    SortPermutes(SortEach(rs), OrderKey);
    SortSorted(SortEach(rs), OrderKey);
    SortStable(SortEach(rs), OrderKey, k);
  }

  /** Every `children` array of the result, at every depth, is sorted. */
  lemma {:induction false} SortNodeDeep(r: Route)
    ensures SortedDeep(SortNode(r))
    decreases r
  {
    if r.children.Kids? && |r.children.routes| > 0 {
      var kids := r.children.routes;
      SortForestDeep(kids);
    }
  }

  lemma {:induction false} SortForestDeep(rs: seq<Route>)
    ensures SortedByOrder(SortForest(rs))
    ensures forall y :: y in SortForest(rs) ==> SortedDeep(y)
    decreases Kids(rs)
  {
    var each := SortEach(rs);
    SortForestEach(rs);
    SortSorted(each, OrderKey);
    SortPermutes(each, OrderKey);
    forall y | y in SortForest(rs) ensures SortedDeep(y) {
      assert y in multiset(each);
      var i :| 0 <= i < |each| && each[i] == y;
      SortNodeDeep(rs[i]);
    }
  }

  /** A route whose children (if any) are sorted, and so on all the way down. */
  predicate SortedDeep(r: Route)
    decreases r
  {
    r.children.Kids? ==>
      SortedByOrder(r.children.routes)
      && forall i :: 0 <= i < |r.children.routes| ==> SortedDeep(r.children.routes[i])
  }

  // Sorting the top level and then each subtree (the source's order) gives
  // the same array as sorting each subtree and then the top level.

  lemma {:induction false} InsertMap<T>(s: seq<T>, x: T, key: T -> int, f: T -> T)
    requires forall y :: key(f(y)) == key(y)
    ensures MapEach(Insert(s, x, key), f) == Insert(MapEach(s, f), f(x), key)
  {
    if s == [] {
    } else if key(s[|s| - 1]) <= key(x) {
      assert MapEach(s + [x], f) == MapEach(s, f) + [f(x)];
    } else {
      var init := s[..|s| - 1];
      InsertMap(init, x, key, f);
      assert MapEach(s, f)[..|s| - 1] == MapEach(init, f);
      assert MapEach(Insert(init, x, key) + [s[|s| - 1]], f) == MapEach(Insert(init, x, key), f) + [f(s[|s| - 1])];
    }
  }

  /** A key-preserving map commutes with the sort. */
  lemma {:induction false} SortMap<T>(s: seq<T>, key: T -> int, f: T -> T)
    requires forall y :: key(f(y)) == key(y)
    ensures MapEach(SortBy(s, key), f) == SortBy(MapEach(s, f), key)
  {
    if s != [] {
      var init := s[..|s| - 1];
      SortMap(init, key, f);
      InsertMap(SortBy(init, key), s[|s| - 1], key, f);
      assert MapEach(s, f)[..|s| - 1] == MapEach(init, f);
    }
  }

  lemma SortCommutes(s: seq<Route>)
    ensures SortEach(StableSort(s)) == StableSort(SortEach(s))
  {
    SortMap(s, OrderKey, SortNode);
  }

  /** Inserting in front of a run of larger keys that follows a key at most `x`'s. */
  lemma {:induction false} InsertAt<T>(t: seq<T>, j: nat, x: T, key: T -> int)
    requires j <= |t| && (j == 0 || key(t[j - 1]) <= key(x))
    requires forall k :: j <= k < |t| ==> key(t[k]) > key(x)
    ensures Insert(t, x, key) == t[..j] + [x] + t[j..]
  {
    if |t| == j {
      assert t[..j] == t;
    } else {
      var init := t[..|t| - 1];
      InsertAt(init, j, x, key);
      assert init[..j] == t[..j];
      assert t[j..] == init[j..] + [t[|t| - 1]];
    }
  }

  /** One insertion step: moves `a[i]` left past the larger keys of the sorted prefix. */
  method InsertLast<T>(a: array<T>, i: nat, ghost t: seq<T>, key: T -> int)
    requires i < a.Length && a[..i] == t
    modifies a
    ensures a[..i + 1] == Insert(t, old(a[i]), key)
    ensures a[i + 1..] == old(a[i + 1..])
  {
    var x := a[i];
    var j := i;
    while j > 0 && key(a[j - 1]) > key(x)
      invariant 0 <= j <= i
      invariant forall k :: 0 <= k < j ==> a[k] == t[k]
      invariant forall k :: j < k <= i ==> a[k] == t[k - 1]
      invariant forall k :: i < k < a.Length ==> a[k] == old(a[k])
      invariant forall k :: j <= k < i ==> key(t[k]) > key(x)
    {
      a[j] := a[j - 1];
      j := j - 1;
    }
    a[j] := x;
    InsertAt(t, j, x, key);
    assert a[..i + 1] == t[..j] + [x] + t[j..];
  }

  /** `array.sort((a, b) => key(a) - key(b))`: an in-place stable insertion sort. */
  method SortArray<T>(a: array<T>, key: T -> int)
    modifies a
    ensures a[..] == SortBy(old(a[..]), key)
  {
    ghost var s := a[..];
    var i := 0;
    while i < a.Length
      invariant 0 <= i <= a.Length
      invariant a[..i] == SortBy(s[..i], key)
      invariant a[i..] == s[i..]
    {
      InsertLast(a, i, SortBy(s[..i], key), key);
      assert s[..i + 1][..i] == s[..i];
      i := i + 1;
    }
    assert s[..a.Length] == s;
  }

  /** The sorted forest sorts the routes with their subtrees sorted. */
  lemma SortForestEach(rs: seq<Route>)
    ensures SortForest(rs) == StableSort(SortEach(rs))
  {
    assert SortEach(rs) == seq(|rs|, i requires 0 <= i < |rs| => SortNode(rs[i]));
  }

  /** Replaces every element by its image under `f`, in place. */
  method MapArray<T>(a: array<T>, f: T -> T)
    modifies a
    ensures a[..] == MapEach(old(a[..]), f)
  {
    for i := 0 to a.Length
      invariant forall k :: 0 <= k < i ==> a[k] == f(old(a[k]))
      invariant forall k :: i <= k < a.Length ==> a[k] == old(a[k])
    {
      a[i] := f(a[i]);
    }
  }

  /** `sortRoutesByOrder`. */
  method SortRoutesByOrder(a: array<Route>)
    modifies a
    ensures a[..] == SortForest(old(a[..]))
  {
    SortArray(a, OrderKey);
    MapArray(a, SortNode);
    SortCommutes(old(a[..]));
    SortForestEach(old(a[..]));
  }
}
