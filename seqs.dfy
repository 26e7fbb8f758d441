/**
 * The array methods the stores lean on (`filter`, `findIndex`, `find`,
 * `some`, counting with `filter(...).length`), as functions on sequences with
 * the facts about them that the other modules use.
 */
module Seqs {
  import opened Wrappers

  /** `s.filter(p)`, defined from the left so that it extends one element at a time. */
  function Filter<T>(s: seq<T>, p: T -> bool): (r: seq<T>)
    ensures |r| <= |s|
  {
    if s == [] then [] else Filter(s[..|s| - 1], p) + (if p(s[|s| - 1]) then [s[|s| - 1]] else [])
  }

  lemma {:induction false} FilterConcat<T>(a: seq<T>, b: seq<T>, p: T -> bool)
    ensures Filter(a + b, p) == Filter(a, p) + Filter(b, p)
  {
    if b != [] {
      assert (a + b)[..|a + b| - 1] == a + b[..|b| - 1];
      FilterConcat(a, b[..|b| - 1], p);
    } else {
      assert a + b == a;
    }
  }

  /** Concatenation regroups freely, and an empty tail adds nothing. */
  lemma Reassociate<T>(a: seq<T>, b: seq<T>, c: seq<T>)
    ensures a + b + c == a + (b + c)
    ensures a + b == a + (b + [])
  {
  }

  lemma FilterSingle<T>(x: T, p: T -> bool)
    ensures Filter([x], p) == if p(x) then [x] else []
  {
    assert [x][..0] == [];
  }

  /** Replacing one element changes the count by what the old and the new element contribute. */
  lemma CountUpdate<T>(s: seq<T>, i: nat, x: T, p: T -> bool)
    requires i < |s|
    ensures Count(s[i := x], p) == Count(s, p) - (if p(s[i]) then 1 else 0) + (if p(x) then 1 else 0)
  {
    var a, b := s[..i], s[i + 1..];
    assert s == a + [s[i]] + b;
    assert s[i := x] == a + [x] + b;
    FilterConcat(a + [s[i]], b, p);
    FilterConcat(a, [s[i]], p);
    FilterConcat(a + [x], b, p);
    FilterConcat(a, [x], p);
    FilterSingle(s[i], p);
    FilterSingle(x, p);
  }

  lemma {:induction false} FilterMembers<T>(s: seq<T>, p: T -> bool, x: T)
    ensures x in Filter(s, p) <==> x in s && p(x)
  {
    if s != [] {
      FilterMembers(s[..|s| - 1], p, x);
      assert s == s[..|s| - 1] + [s[|s| - 1]];
    }
  }

  lemma {:induction false} FilterAll<T>(s: seq<T>, p: T -> bool)
    requires forall x :: x in s ==> p(x)
    ensures Filter(s, p) == s
  {
    if s != [] {
      FilterAll(s[..|s| - 1], p);
      assert s == s[..|s| - 1] + [s[|s| - 1]];
    }
  }

  /** `s.findIndex(p)`: the first index whose element satisfies `p`, or -1. */
  function FindIndex<T>(s: seq<T>, p: T -> bool): (i: int)
    ensures -1 <= i < |s|
    ensures 0 <= i ==> p(s[i]) && forall j :: 0 <= j < i ==> !p(s[j])
    ensures i == -1 ==> forall j :: 0 <= j < |s| ==> !p(s[j])
  {
    if s == [] then -1
    else if p(s[0]) then 0
    else
      var k := FindIndex(s[1..], p);
      if k == -1 then -1 else k + 1
  }

  /** The index of the first element satisfying `p`, when that is known, is what `findIndex` returns. */
  lemma FindIndexAt<T>(s: seq<T>, p: T -> bool, i: nat)
    requires i < |s| && p(s[i])
    requires forall j :: 0 <= j < i ==> !p(s[j])
    ensures FindIndex(s, p) == i
  {
  }

  /** Replacing the first element satisfying `p` by another that satisfies it moves nothing. */
  lemma FindIndexUpdate<T>(s: seq<T>, i: nat, x: T, p: T -> bool)
    requires i < |s| && i == FindIndex(s, p) && p(x)
    ensures FindIndex(s[i := x], p) == i
  {
    FindIndexAt(s[i := x], p, i);
  }

  /** `s.find(p)`. */
  function Find<T>(s: seq<T>, p: T -> bool): (r: Option<T>)
    ensures r.Some? <==> exists j :: 0 <= j < |s| && p(s[j])
    ensures r.Some? ==> r.value in s && p(r.value)
  {
    var i := FindIndex(s, p);
    if i == -1 then None else Some(s[i])
  }

  /** `findIndex` on two sequences one after the other: the first's match, else the second's shifted past it. */
  lemma FindIndexConcat<T>(a: seq<T>, b: seq<T>, p: T -> bool)
    ensures FindIndex(a + b, p)
              == if FindIndex(a, p) >= 0 then FindIndex(a, p)
                 else if FindIndex(b, p) == -1 then -1
                 else |a| + FindIndex(b, p)
  {
    var i, k := FindIndex(a, p), FindIndex(b, p);
    if i >= 0 {
      assert forall j :: 0 <= j <= i ==> (a + b)[j] == a[j];
      FindIndexAt(a + b, p, i);
    } else if k >= 0 {
      assert forall j :: 0 <= j < |a| ==> (a + b)[j] == a[j];
      assert forall j :: 0 <= j <= k ==> (a + b)[|a| + j] == b[j];
      FindIndexAt(a + b, p, |a| + k);
    } else {
      forall j | 0 <= j < |a + b| ensures !p((a + b)[j]) {
        if j < |a| {
          assert (a + b)[j] == a[j];
        } else {
          assert (a + b)[j] == b[j - |a|];
        }
      }
    }
  }

  /** `find` on two sequences one after the other: the first's match, else the second's. */
  lemma FindConcat<T>(a: seq<T>, b: seq<T>, p: T -> bool)
    ensures Find(a + b, p) == if Find(a, p).Some? then Find(a, p) else Find(b, p)
  {
    FindIndexConcat(a, b, p);
    var i, k := FindIndex(a, p), FindIndex(b, p);
    if i >= 0 {
      assert (a + b)[i] == a[i];
    } else if k >= 0 {
      assert (a + b)[|a| + k] == b[k];
    }
  }

  /** `find` on a non-empty sequence looks at the head first. */
  lemma FindCons<T>(x: T, s: seq<T>, p: T -> bool)
    ensures Find([x] + s, p) == if p(x) then Some(x) else Find(s, p)
  {
    assert ([x] + s)[1..] == s;
  }

  /** `find` gives the same element for two tests that agree on every element. */
  lemma {:induction false} FindSame<T>(s: seq<T>, p: T -> bool, q: T -> bool)
    requires forall j :: 0 <= j < |s| ==> p(s[j]) == q(s[j])
    ensures Find(s, p) == Find(s, q)
  {
    if s != [] {
      FindSame(s[1..], p, q);
      assert s == [s[0]] + s[1..];
      FindCons(s[0], s[1..], p);
      FindCons(s[0], s[1..], q);
    }
  }

  /** Finding among the elements a filter keeps is finding the first element passing both tests. */
  lemma {:induction false} FindFilter<T>(s: seq<T>, f: T -> bool, p: T -> bool, q: T -> bool)
    requires forall j :: 0 <= j < |s| ==> q(s[j]) == (f(s[j]) && p(s[j]))
    ensures Find(Filter(s, f), p) == Find(s, q)
  {
    if s != [] {
      var t := s[1..];
      assert s == [s[0]] + t;
      FindFilter(t, f, p, q);
      FilterConcat([s[0]], t, f);
      FilterSingle(s[0], f);
      FindCons(s[0], t, q);
      if f(s[0]) {
        FindCons(s[0], Filter(t, f), p);
      } else {
        assert Filter(s, f) == Filter(t, f);
      }
    }
  }

  /** `s.filter(p).length`. */
  function Count<T>(s: seq<T>, p: T -> bool): (n: nat)
    ensures n <= |s|
  {
    |Filter(s, p)|
  }

  /** The first occurrence of `x`, as `indexOf` reports it. */
  function IndexOf<T(==)>(s: seq<T>, x: T): (i: int)
    ensures -1 <= i < |s|
    ensures 0 <= i ==> s[i] == x && x !in s[..i]
    ensures i == -1 <==> x !in s
  {
    if s == [] then -1
    else if s[0] == x then 0
    else
      var k := IndexOf(s[1..], x);
      assert k >= 0 ==> s[..k + 1] == [s[0]] + s[1..][..k];
      assert x in s ==> x == s[0] || x in s[1..];
      if k == -1 then -1 else k + 1
  }

  /** `s.splice(i, 1)`. */
  function RemoveAt<T>(s: seq<T>, i: nat): (r: seq<T>)
    requires i < |s|
    ensures |r| == |s| - 1
    ensures r[..i] == s[..i] && r[i..] == s[i + 1..]
  {
    s[..i] + s[i + 1..]
  }

  /** `a.some(x => b.includes(x))`. */
  predicate Intersects<T(==)>(a: seq<T>, b: seq<T>) {
    exists x :: x in a && x in b
  }

  /** No element occurs twice. */
  predicate Distinct<T(==)>(s: seq<T>) {
    forall i, j :: 0 <= i < j < |s| ==> s[i] != s[j]
  }
}
