/**
 * The three keep-alive name lists of the route store (`cacheRoutes`,
 * `excludeCacheRoutes`, `baseExcludeCacheRoutes`) and the operations that
 * rewrite them. The tab store reaches them through the route store; here
 * both stores share one `CacheLists` object.
 */
module RouteCacheLists {
  import opened Wrappers
  import opened Seqs
  import opened RouteTypes
  import opened RouterHelper
  import opened RouteCache

  /** `removeCacheRoute` on the list: its first occurrence of `name` deleted. */
  function Removed(names: seq<string>, name: string): seq<string> {
    var i := IndexOf(names, name);
    if i > -1 then RemoveAt(names, i) else names
  }

  /**
   * Removing a name absent from the list changes nothing; otherwise exactly
   * one copy goes, the first, and the rest keep their order.
   */
  lemma RemovedSpec(names: seq<string>, name: string)
    ensures name !in names ==> Removed(names, name) == names
    ensures name in names ==>
              multiset(Removed(names, name)) == multiset(names) - multiset{name}
    ensures name in names ==>
              exists i :: 0 <= i < |names| && names[i] == name && name !in names[..i]
                && Removed(names, name) == names[..i] + names[i + 1..]
  {
    if name in names {
      var i := IndexOf(names, name);
      assert names == names[..i] + [name] + names[i + 1..];
      assert multiset(names) == multiset(names[..i]) + multiset{name} + multiset(names[i + 1..]);
    }
  }

  /** `restoreCacheRoute` on the list: appended unless excluded by default or already there. */
  function Restored(names: seq<string>, base: seq<string>, name: string): seq<string> {
    if name !in base && name !in names then names + [name] else names
  }

  /**
   * Restoring adds at most `name`, never a name of the base exclusion list,
   * leaves the list containing `name` when it is not excluded by default,
   * never duplicates it, and a second restore changes nothing.
   */
  lemma RestoredSpec(names: seq<string>, base: seq<string>, name: string)
    ensures forall x :: x in Restored(names, base, name) <==> x in names || (x == name && name !in base)
    ensures name in base ==> Restored(names, base, name) == names
    ensures name in names ==> Restored(names, base, name) == names
    ensures multiset(Restored(names, base, name))[name] <= multiset(names)[name] + 1
    ensures name !in names ==> multiset(Restored(names, base, name))[name] <= 1
    ensures Restored(Restored(names, base, name), base, name) == Restored(names, base, name)
  {
  }

  /** Closing a tab then reopening it puts a name that was cached back, at the end of the list. */
  lemma RemoveThenRestore(names: seq<string>, base: seq<string>, name: string)
    requires name in names && name !in base
    requires multiset(names)[name] == 1
    ensures multiset(Restored(Removed(names, name), base, name)) == multiset(names)
  {
    RemovedSpec(names, name);
    var r := Removed(names, name);
    assert multiset(r)[name] == 0;
    assert name !in r;
  }

  class CacheLists {
    var cacheRoutes: seq<string>
    var excludeCacheRoutes: seq<string>
    var baseExcludeCacheRoutes: seq<string>

    constructor()
      ensures cacheRoutes == [] && excludeCacheRoutes == [] && baseExcludeCacheRoutes == []
    {
      cacheRoutes := [];
      excludeCacheRoutes := [];
      baseExcludeCacheRoutes := [];
    }

    /**
     * `getCacheRoutes`: the cached names and the default exclusions are read
     * off the forest, and the live exclusion list becomes a copy of the latter.
     */
    method GetCacheRoutes(routes: seq<Route>)
      modifies this
      ensures cacheRoutes == NamesOf(Filter(FlattenRoutes(routes), Cacheable))
      ensures baseExcludeCacheRoutes == NamesOf(Filter(FlattenRoutes(routes), Excluded))
      ensures excludeCacheRoutes == baseExcludeCacheRoutes
    {
      cacheRoutes := GetCacheRouteNames(routes);
      baseExcludeCacheRoutes := GetExcludeCacheRouteNames(routes);
      excludeCacheRoutes := baseExcludeCacheRoutes;
    }

    /**
     * The synchronous half of `resetRouteCache`: the given key, or the current
     * route's name when the key is missing or empty, joins the live exclusions.
     */
    method BeginResetRouteCache(routeKey: Option<string>, currentName: string)
      modifies this
      ensures excludeCacheRoutes == old(excludeCacheRoutes) + [OrElse(routeKey, currentName)]
      ensures cacheRoutes == old(cacheRoutes) && baseExcludeCacheRoutes == old(baseExcludeCacheRoutes)
    {
      var routeName := OrElse(routeKey, currentName);
      excludeCacheRoutes := excludeCacheRoutes + [routeName];
    }

    /** The half of `resetRouteCache` after the timer: the live exclusions are the defaults again. */
    method FinishResetRouteCache()
      modifies this
      ensures excludeCacheRoutes == baseExcludeCacheRoutes
      ensures cacheRoutes == old(cacheRoutes) && baseExcludeCacheRoutes == old(baseExcludeCacheRoutes)
    {
      excludeCacheRoutes := baseExcludeCacheRoutes;
    }

    /** `removeCacheRoute` */
    method RemoveCacheRoute(routeName: string)
      modifies this
      ensures cacheRoutes == Removed(old(cacheRoutes), routeName)
      ensures excludeCacheRoutes == old(excludeCacheRoutes)
      ensures baseExcludeCacheRoutes == old(baseExcludeCacheRoutes)
    {
      var index := IndexOf(cacheRoutes, routeName);
      if index > -1 {
        cacheRoutes := RemoveAt(cacheRoutes, index);
      }
    }

    /** `restoreCacheRoute` */
    method RestoreCacheRoute(routeName: string)
      modifies this
      ensures cacheRoutes == Restored(old(cacheRoutes), baseExcludeCacheRoutes, routeName)
      ensures excludeCacheRoutes == old(excludeCacheRoutes)
      ensures baseExcludeCacheRoutes == old(baseExcludeCacheRoutes)
    {
      if routeName !in baseExcludeCacheRoutes && routeName !in cacheRoutes {
        cacheRoutes := cacheRoutes + [routeName];
      }
    }

    /** The part of `resetStore` that empties the three lists. */
    method Clear()
      modifies this
      ensures cacheRoutes == [] && excludeCacheRoutes == [] && baseExcludeCacheRoutes == []
    {
      cacheRoutes := [];
      excludeCacheRoutes := [];
      baseExcludeCacheRoutes := [];
    }
  }
}
