/**
 * The tab store of the multi-tab layout: the open tabs, the home tab, the
 * tabs shown by default after login, the active tab, and the copy of them
 * kept in local storage. Closing and reopening a tab drops and restores the
 * page's name in the keep-alive list of the route store (`CacheLists`).
 * The layout settings the store reads from the theme store (`tab.visible`,
 * `tab.cache`) and the login state it reads from the auth store are
 * parameters here.
 */
module TabStore {
  import opened Wrappers
  import opened Seqs
  import opened RouteCacheLists

  /** The label of a home tab whose route has no title. */
  const HomeLabel: string := "首页"

  /** `App.Global.TabRoute`: what a caller hands over to open a tab. */
  datatype TabRoute = TabRoute(
    name: string,
    path: string,
    fullPath: string,
    title: Option<string>,
    icon: Option<string>,
    localIcon: Option<string>)

  /** `App.Global.Tab`; `caption` is the source's `label`. */
  datatype Tab = Tab(
    id: string,
    caption: string,
    routeKey: string,
    routePath: string,
    fullPath: string,
    fixedIndex: Option<nat>,
    icon: Option<string>,
    localIcon: Option<string>)

  /** The tab built for a route: its id is the full path, its label the title or `fallback`. */
  function MakeTab(route: TabRoute, fallback: string): Tab {
    Tab(route.fullPath, OrElse(route.title, fallback), route.name, route.path, route.fullPath,
        None, route.icon, route.localIcon)
  }

  function IdIs(id: string): Tab -> bool {
    (t: Tab) => t.id == id
  }

  function NotId(id: string): Tab -> bool {
    (t: Tab) => t.id != id
  }

  /** `ts.some(t => t.id === id)` */
  predicate HasId(ts: seq<Tab>, id: string) {
    exists i :: 0 <= i < |ts| && ts[i].id == id
  }

  function Ids(ts: seq<Tab>): seq<string> {
    seq(|ts|, i requires 0 <= i < |ts| => ts[i].id)
  }

  predicate DistinctIds(ts: seq<Tab>) {
    forall i, j :: 0 <= i < j < |ts| ==> ts[i].id != ts[j].id
  }

  predicate IsHomeId(home: Option<Tab>, id: string) {
    home.Some? && home.value.id == id
  }

  lemma {:induction false} FilterKeepsDistinct(ts: seq<Tab>, p: Tab -> bool)
    requires DistinctIds(ts)
    ensures DistinctIds(Filter(ts, p))
  {
    if ts != [] {
      var init, last := ts[..|ts| - 1], ts[|ts| - 1];
      FilterKeepsDistinct(init, p);
      var f := Filter(init, p);
      forall i | 0 <= i < |f| ensures f[i].id != last.id {
        FilterMembers(init, p, f[i]);
        var k :| 0 <= k < |init| && init[k] == f[i];
        assert ts[k] == f[i];
      }
    }
  }

  // `allTabs`

  function AllTabsOf(tabs: seq<Tab>, home: Option<Tab>): seq<Tab> {
    if home.Some? then [home.value] + Filter(tabs, NotId(home.value.id)) else tabs
  }

  /**
   * Without a home tab the bar shows the tabs; with one, the home tab comes
   * first, followed by exactly the tabs whose id differs from it, so no id
   * appears twice when none did before.
   */
  lemma AllTabsSpec(tabs: seq<Tab>, home: Option<Tab>, x: Tab)
    ensures home.None? ==> AllTabsOf(tabs, home) == tabs
    ensures home.Some? ==> AllTabsOf(tabs, home)[0] == home.value
    ensures home.Some? ==> (x in AllTabsOf(tabs, home)[1..] <==> x in tabs && x.id != home.value.id)
    ensures DistinctIds(tabs) ==> DistinctIds(AllTabsOf(tabs, home))
  {
    if home.Some? {
      var h := home.value;
      var rest := Filter(tabs, NotId(h.id));
      assert AllTabsOf(tabs, home)[1..] == rest;
      FilterMembers(tabs, NotId(h.id), x);
      if DistinctIds(tabs) {
        FilterKeepsDistinct(tabs, NotId(h.id));
        forall j | 0 <= j < |rest| ensures rest[j].id != h.id {
          FilterMembers(tabs, NotId(h.id), rest[j]);
        }
      }
    }
  }

  // Pushing a tab unless its id is taken (`addTab`, `addDefaultTab`).

  function AddedTab(ts: seq<Tab>, home: Option<Tab>, t: Tab): seq<Tab> {
    if IsHomeId(home, t.id) || HasId(ts, t.id) then ts else ts + [t]
  }

  /**
   * A tab is appended exactly when its id is neither the home tab's nor
   * already open; afterwards the id is open, ids stay distinct, and adding the
   * same tab again changes nothing.
   */
  lemma AddedTabSpec(ts: seq<Tab>, home: Option<Tab>, t: Tab)
    ensures AddedTab(ts, home, t) == ts || AddedTab(ts, home, t) == ts + [t]
    ensures AddedTab(ts, home, t) == ts + [t] <==> !IsHomeId(home, t.id) && !HasId(ts, t.id)
    ensures !IsHomeId(home, t.id) ==> HasId(AddedTab(ts, home, t), t.id)
    ensures DistinctIds(ts) ==> DistinctIds(AddedTab(ts, home, t))
    ensures AddedTab(AddedTab(ts, home, t), home, t) == AddedTab(ts, home, t)
  {
    if !IsHomeId(home, t.id) && !HasId(ts, t.id) {
      var r := ts + [t];
      assert r[|ts|].id == t.id;
      assert r != ts;
    }
  }

  /** The `forEach` of `initDefaultTabsAfterLogin`: each default tab pushed unless its id is open. */
  function AppendAbsent(ts: seq<Tab>, ds: seq<Tab>): seq<Tab> {
    if ds == [] then ts else AddedTab(AppendAbsent(ts, ds[..|ds| - 1]), None, ds[|ds| - 1])
  }

  /**
   * The open tabs stay, in front and in order; every default id becomes
   * open; nothing but default tabs is added; distinct ids stay distinct.
   */
  lemma {:induction false} AppendAbsentSpec(ts: seq<Tab>, ds: seq<Tab>)
    ensures ts <= AppendAbsent(ts, ds)
    ensures forall i :: 0 <= i < |ds| ==> HasId(AppendAbsent(ts, ds), ds[i].id)
    ensures forall x :: x in AppendAbsent(ts, ds) ==> x in ts || x in ds
    ensures DistinctIds(ts) ==> DistinctIds(AppendAbsent(ts, ds))
  {
    if ds != [] {
      var init, last := ds[..|ds| - 1], ds[|ds| - 1];
      AppendAbsentSpec(ts, init);
      var u := AppendAbsent(ts, init);
      AddedTabSpec(u, None, last);
      forall i | 0 <= i < |ds| ensures HasId(AppendAbsent(ts, ds), ds[i].id) {
        if i < |ds| - 1 {
          assert ds[i] == init[i];
          var k :| 0 <= k < |u| && u[k].id == init[i].id;
          assert AppendAbsent(ts, ds)[k] == u[k];
        }
      }
    }
  }

  lemma {:induction false} AppendAbsentPresent(u: seq<Tab>, ds: seq<Tab>)
    requires forall i :: 0 <= i < |ds| ==> HasId(u, ds[i].id)
    ensures AppendAbsent(u, ds) == u
  {
    if ds != [] {
      AppendAbsentPresent(u, ds[..|ds| - 1]);
    }
  }

  /** Running `initDefaultTabsAfterLogin` twice adds nothing the first run did not. */
  lemma AppendAbsentIdempotent(ts: seq<Tab>, ds: seq<Tab>)
    ensures AppendAbsent(AppendAbsent(ts, ds), ds) == AppendAbsent(ts, ds)
  {
    AppendAbsentSpec(ts, ds);
    AppendAbsentPresent(AppendAbsent(ts, ds), ds);
  }

  // `removeTab` on the list: the first tab with the id spliced out.

  function TabRemoved(ts: seq<Tab>, id: string): seq<Tab> {
    var i := FindIndex(ts, IdIs(id));
    if i == -1 then ts else RemoveAt(ts, i)
  }

  /**
   * Removing an id that is not open changes nothing; otherwise one tab goes,
   * the first with that id, the others keep their order, and when ids were
   * distinct the id is no longer open.
   */
  lemma TabRemovedSpec(ts: seq<Tab>, id: string)
    ensures !HasId(ts, id) ==> TabRemoved(ts, id) == ts
    ensures HasId(ts, id) ==>
              exists i :: 0 <= i < |ts| && ts[i].id == id && !HasId(ts[..i], id)
                && TabRemoved(ts, id) == ts[..i] + ts[i + 1..]
    ensures DistinctIds(ts) ==> DistinctIds(TabRemoved(ts, id)) && !HasId(TabRemoved(ts, id), id)
  {
    var i := FindIndex(ts, IdIs(id));
    if i != -1 {
      RemovedFirst(ts, id, i);
      if DistinctIds(ts) {
        RemovedDistinct(ts, id, i);
      }
    } else {
      assert !HasId(ts, id) by {
        forall j | 0 <= j < |ts| ensures ts[j].id != id {
          assert !IdIs(id)(ts[j]);
        }
      }
    }
  }

  lemma RemovedFirst(ts: seq<Tab>, id: string, i: nat)
    requires i < |ts| && i == FindIndex(ts, IdIs(id))
    ensures HasId(ts, id) && ts[i].id == id && !HasId(ts[..i], id)
    ensures TabRemoved(ts, id) == ts[..i] + ts[i + 1..]
  {
    assert IdIs(id)(ts[i]);
    forall j | 0 <= j < i ensures ts[..i][j].id != id {
      assert !IdIs(id)(ts[j]);
    }
  }

  lemma RemovedDistinct(ts: seq<Tab>, id: string, i: nat)
    requires i < |ts| && ts[i].id == id && DistinctIds(ts)
    ensures DistinctIds(ts[..i] + ts[i + 1..]) && !HasId(ts[..i] + ts[i + 1..], id)
  {
    var r := ts[..i] + ts[i + 1..];
    assert forall j :: 0 <= j < |r| ==> r[j] == if j < i then ts[j] else ts[j + 1];
    forall j | 0 <= j < |r| ensures r[j].id != id {
      if j < i { assert ts[j].id != ts[i].id; } else { assert ts[j + 1].id != ts[i].id; }
    }
  }

  // `clearTabs`

  function HomeIds(home: Option<Tab>): seq<string> {
    if home.Some? then [home.value.id] else []
  }

  function NonEmpty(s: string): bool {
    s != ""
  }

  /** `[homeTab?.id, ...defaultIds, ...excludes].filter(Boolean)` */
  function RetainIds(home: Option<Tab>, defaults: seq<Tab>, excludes: seq<string>): seq<string> {
    Filter(HomeIds(home) + Ids(defaults) + excludes, NonEmpty)
  }

  function InIds(ids: seq<string>): Tab -> bool {
    (t: Tab) => t.id in ids
  }

  function Cleared(ts: seq<Tab>, retain: seq<string>): seq<Tab> {
    Filter(ts, InIds(retain))
  }

  /**
   * A tab survives `clearTabs` iff its id is non-empty and is the home tab's,
   * a default tab's or one of the exclusions; survivors keep their order and
   * distinct ids stay distinct. A fixed tab is not protected here.
   */
  lemma ClearedSpec(ts: seq<Tab>, home: Option<Tab>, defaults: seq<Tab>, excludes: seq<string>, x: Tab)
    ensures x in Cleared(ts, RetainIds(home, defaults, excludes)) <==>
              x in ts && x.id != "" && (IsHomeId(home, x.id) || HasId(defaults, x.id) || x.id in excludes)
    ensures DistinctIds(ts) ==> DistinctIds(Cleared(ts, RetainIds(home, defaults, excludes)))
  {
    var all := HomeIds(home) + Ids(defaults) + excludes;
    var retain := RetainIds(home, defaults, excludes);
    FilterMembers(ts, InIds(retain), x);
    FilterMembers(all, NonEmpty, x.id);
    assert x.id in Ids(defaults) <==> HasId(defaults, x.id) by {
      if HasId(defaults, x.id) {
        var k :| 0 <= k < |defaults| && defaults[k].id == x.id;
        assert Ids(defaults)[k] == x.id;
      }
    }
    if DistinctIds(ts) {
      FilterKeepsDistinct(ts, InIds(retain));
    }
  }

  /**
   * After `clearLeftTabs` at position `i` every tab from `i` on with a
   * non-empty id is still open; after `clearRightTabs` every tab up to `i`.
   */
  lemma ClearSidesSpec(ts: seq<Tab>, home: Option<Tab>, defaults: seq<Tab>, i: nat, j: nat)
    requires i < |ts| && j < |ts| && ts[j].id != ""
    ensures i <= j ==> ts[j] in Cleared(ts, RetainIds(home, defaults, Ids(ts[i..])))
    ensures j <= i ==> ts[j] in Cleared(ts, RetainIds(home, defaults, Ids(ts[..i + 1])))
  {
    if i <= j {
      assert Ids(ts[i..])[j - i] == ts[j].id;
      ClearedSpec(ts, home, defaults, Ids(ts[i..]), ts[j]);
    }
    if j <= i {
      assert Ids(ts[..i + 1])[j] == ts[j].id;
      ClearedSpec(ts, home, defaults, Ids(ts[..i + 1]), ts[j]);
    }
  }

  // `fixTab`, `unfixTab`

  predicate IsFixed(t: Tab) {
    t.fixedIndex.Some?
  }

  /** The first tab with the id gets the number of fixed tabs as its index. */
  function Fixed(ts: seq<Tab>, id: string): seq<Tab> {
    var i := FindIndex(ts, IdIs(id));
    if i == -1 then ts else ts[i := ts[i].(fixedIndex := Some(Count(ts, IsFixed)))]
  }

  function Unfixed(ts: seq<Tab>, id: string): seq<Tab> {
    var i := FindIndex(ts, IdIs(id));
    if i == -1 then ts else ts[i := ts[i].(fixedIndex := None)]
  }

  /**
   * Fixing reorders nothing and touches only the first tab with the id: its
   * index is the count of fixed tabs, itself included if it was already
   * fixed, and the count grows by one iff it was not. An unknown id is a no-op.
   */
  lemma FixedSpec(ts: seq<Tab>, id: string)
    ensures Ids(Fixed(ts, id)) == Ids(ts)
    ensures !HasId(ts, id) ==> Fixed(ts, id) == ts
    ensures HasId(ts, id) ==>
              var i := FindIndex(ts, IdIs(id));
              && 0 <= i < |ts|
              && Fixed(ts, id)[i] == ts[i].(fixedIndex := Some(Count(ts, IsFixed)))
              && (forall j :: 0 <= j < |ts| && j != i ==> Fixed(ts, id)[j] == ts[j])
              && Count(Fixed(ts, id), IsFixed) == Count(ts, IsFixed) + (if IsFixed(ts[i]) then 0 else 1)
  {
    HasIdFind(ts, id);
    var i := FindIndex(ts, IdIs(id));
    if i != -1 {
      var t := ts[i].(fixedIndex := Some(Count(ts, IsFixed)));
      IdsUpdate(ts, i, t);
      CountUpdate(ts, i, t, IsFixed);
    }
  }

  /** Unfixing reorders nothing, clears the first tab's index, and lowers the count iff it was fixed. */
  lemma UnfixedSpec(ts: seq<Tab>, id: string)
    ensures Ids(Unfixed(ts, id)) == Ids(ts)
    ensures !HasId(ts, id) ==> Unfixed(ts, id) == ts
    ensures HasId(ts, id) ==>
              var i := FindIndex(ts, IdIs(id));
              && 0 <= i < |ts|
              && Unfixed(ts, id)[i] == ts[i].(fixedIndex := None)
              && (forall j :: 0 <= j < |ts| && j != i ==> Unfixed(ts, id)[j] == ts[j])
              && Count(Unfixed(ts, id), IsFixed) == Count(ts, IsFixed) - (if IsFixed(ts[i]) then 1 else 0)
  {
    HasIdFind(ts, id);
    var i := FindIndex(ts, IdIs(id));
    if i != -1 {
      var t := ts[i].(fixedIndex := None);
      IdsUpdate(ts, i, t);
      CountUpdate(ts, i, t, IsFixed);
    }
  }

  /** Fixing then unfixing the same tab leaves the list as if the tab had never been fixed. */
  lemma FixThenUnfix(ts: seq<Tab>, id: string)
    ensures Unfixed(Fixed(ts, id), id) == Unfixed(ts, id)
  {
    var i := FindIndex(ts, IdIs(id));
    if i != -1 {
      var f := Fixed(ts, id);
      assert f == ts[i := ts[i].(fixedIndex := Some(Count(ts, IsFixed)))];
      FindIndexUpdate(ts, i, f[i], IdIs(id));
      assert Unfixed(f, id) == f[i := ts[i].(fixedIndex := None)];
      assert f[i := ts[i].(fixedIndex := None)] == ts[i := ts[i].(fixedIndex := None)];
    }
  }

  /** A list holds the id exactly when `findIndex` finds it. */
  lemma HasIdFind(ts: seq<Tab>, id: string)
    ensures HasId(ts, id) <==> FindIndex(ts, IdIs(id)) != -1
  {
    if HasId(ts, id) {
      var j :| 0 <= j < |ts| && ts[j].id == id;
      assert IdIs(id)(ts[j]);
    }
  }

  /** Replacing a tab by one with the same id keeps the ids. */
  lemma IdsUpdate(ts: seq<Tab>, i: nat, t: Tab)
    requires i < |ts| && t.id == ts[i].id
    ensures Ids(ts[i := t]) == Ids(ts)
  {
  }

  // `isTabRetain`

  predicate TabRetained(ts: seq<Tab>, home: Option<Tab>, defaults: seq<Tab>, id: string, visible: bool) {
    if IsHomeId(home, id) then true
    else if visible && HasId(defaults, id) then true
    else
      var t := Find(ts, IdIs(id));
      t.Some? && t.value.fixedIndex.Some?
  }

  /**
   * A tab may not be closed iff it is the home tab, or the bar is visible and
   * it is a default tab, or the first open tab with its id is fixed.
   */
  lemma TabRetainedSpec(ts: seq<Tab>, home: Option<Tab>, defaults: seq<Tab>, id: string, visible: bool)
    ensures TabRetained(ts, home, defaults, id, visible) <==>
              || IsHomeId(home, id)
              || (visible && HasId(defaults, id))
              || exists i :: 0 <= i < |ts| && ts[i].id == id && IsFixed(ts[i])
                   && forall j :: 0 <= j < i ==> ts[j].id != id
  {
    var i := FindIndex(ts, IdIs(id));
    if i != -1 {
      assert forall j :: 0 <= j < i ==> ts[j].id != id by {
        assert forall j :: 0 <= j < i ==> !IdIs(id)(ts[j]);
      }
      assert ts[i].id == id;
    } else {
      assert forall j :: 0 <= j < |ts| ==> ts[j].id != id by {
        assert forall j :: 0 <= j < |ts| ==> !IdIs(id)(ts[j]);
      }
    }
  }

  /** `getTabIdByRoute`: the name when non-empty, the full path otherwise. */
  function GetTabIdByRoute(route: TabRoute): (id: string)
    ensures route.name != "" ==> id == route.name
    ensures route.name == "" ==> id == route.fullPath
  {
    if route.name != "" then route.name else route.fullPath
  }

  /** `getDefaultPagesAfterLogin`: all default tabs with the bar visible, only the last one without. */
  function DefaultPages(defaults: seq<Tab>, visible: bool): (r: seq<Tab>)
    ensures |r| <= |defaults| && r == defaults[|defaults| - |r|..]
    ensures visible ==> r == defaults
    ensures !visible ==> |r| == (if |defaults| == 0 then 0 else 1)
  {
    if visible then defaults
    else if |defaults| > 0 then [defaults[|defaults| - 1]]
    else []
  }

  // Local storage under `trix_tabs`.

  /**
   * What `localStorage` holds: nothing (or an empty string), text that
   * `JSON.parse` rejects, or a parsed record whose fields may be missing.
   */
  datatype Stored =
    | NoEntry
    | Unparsable
    | Entry(tabs: Option<seq<Tab>>, homeTab: Option<Tab>, activeTabId: Option<string>)

  /** The part of the store that is persisted. */
  datatype TabState = TabState(tabs: seq<Tab>, homeTab: Option<Tab>, activeTabId: string)

  /** The record `cacheTabs` serialises. */
  function Written(s: TabState): Stored {
    Entry(Some(s.tabs), s.homeTab, Some(s.activeTabId))
  }

  /**
   * `restoreTabs`: with caching on and a parsed record, a non-empty tab list,
   * a home tab and a non-empty active id each replace the state's own.
   */
  function Restore(s: TabState, stored: Stored, cacheOn: bool): TabState {
    if !cacheOn || !stored.Entry? then s
    else
      TabState(
        if stored.tabs.Some? && |stored.tabs.value| > 0 then stored.tabs.value else s.tabs,
        if stored.homeTab.Some? then stored.homeTab else s.homeTab,
        if Truthy(stored.activeTabId) then stored.activeTabId.value else s.activeTabId)
  }

  /**
   * Restoring what was just cached changes nothing; a record cached from a
   * state with tabs, a home tab and an active id brings that state back
   * whatever the current one; text that fails to parse changes nothing; and
   * restoring twice is restoring once.
   */
  lemma RestoreSpec(s: TabState, t: TabState, stored: Stored, cacheOn: bool)
    ensures Restore(s, Written(s), true) == s
    ensures |s.tabs| > 0 && s.homeTab.Some? && s.activeTabId != "" ==> Restore(t, Written(s), true) == s
    ensures Restore(t, Unparsable, cacheOn) == t && Restore(t, NoEntry, cacheOn) == t
    ensures Restore(Restore(t, stored, cacheOn), stored, cacheOn) == Restore(t, stored, cacheOn)
  {
  }

  class TabStore {
    var tabs: seq<Tab>
    var homeTab: Option<Tab>
    var defaultTabs: seq<Tab>
    var activeTabId: string
    /** The text under `trix_tabs` in local storage. */
    var stored: Stored
    /** The route store's keep-alive lists. */
    const cache: CacheLists

    constructor(cache: CacheLists, stored: Stored)
      ensures this.cache == cache && this.stored == stored
      ensures tabs == [] && homeTab == None && defaultTabs == [] && activeTabId == ""
    {
      this.cache := cache;
      this.stored := stored;
      tabs := [];
      homeTab := None;
      defaultTabs := [];
      activeTabId := "";
    }

    function State(): TabState
      reads this
    {
      TabState(tabs, homeTab, activeTabId)
    }

    /** The exported `tabs`: `allTabs`. */
    function AllTabs(): seq<Tab>
      reads this
    {
      AllTabsOf(tabs, homeTab)
    }

    method SetActiveTabId(id: string)
      modifies this
      ensures activeTabId == id
      ensures tabs == old(tabs) && homeTab == old(homeTab) && defaultTabs == old(defaultTabs)
      ensures stored == old(stored)
    {
      activeTabId := id;
    }

    /** `initHomeTab`: the home tab is made from the route, labelled with its title or the default. */
    method InitHomeTab(route: TabRoute)
      modifies this
      ensures homeTab == Some(MakeTab(route, HomeLabel))
      ensures tabs == old(tabs) && defaultTabs == old(defaultTabs) && activeTabId == old(activeTabId)
      ensures stored == old(stored)
    {
      homeTab := Some(MakeTab(route, HomeLabel));
    }

    method ClearHomeTab()
      modifies this
      ensures homeTab == None
      ensures tabs == old(tabs) && defaultTabs == old(defaultTabs) && activeTabId == old(activeTabId)
      ensures stored == old(stored)
    {
      homeTab := None;
    }

    /** `addDefaultTab`: appended unless a default tab with the same id exists. */
    method AddDefaultTab(route: TabRoute)
      modifies this
      ensures defaultTabs == AddedTab(old(defaultTabs), None, MakeTab(route, ""))
      ensures tabs == old(tabs) && homeTab == old(homeTab) && activeTabId == old(activeTabId)
      ensures stored == old(stored)
    {
      var tab := MakeTab(route, "");
      if !HasId(defaultTabs, tab.id) {
        defaultTabs := defaultTabs + [tab];
      }
    }

    /**
     * `addTab`: a tab whose id is neither the home tab's nor open is appended,
     * and its page, when named, is restored to the keep-alive list; the tab
     * becomes active when asked.
     */
    method AddTab(route: TabRoute, active: bool)
      modifies this, cache
      ensures var tab := MakeTab(route, "");
        && tabs == AddedTab(old(tabs), old(homeTab), tab)
        && activeTabId == (if active then tab.id else old(activeTabId))
        && cache.cacheRoutes ==
             (if !IsHomeId(old(homeTab), tab.id) && !HasId(old(tabs), tab.id) && tab.routeKey != ""
              then Restored(old(cache.cacheRoutes), old(cache.baseExcludeCacheRoutes), tab.routeKey)
              else old(cache.cacheRoutes))
      ensures cache.excludeCacheRoutes == old(cache.excludeCacheRoutes)
      ensures cache.baseExcludeCacheRoutes == old(cache.baseExcludeCacheRoutes)
      ensures homeTab == old(homeTab) && defaultTabs == old(defaultTabs) && stored == old(stored)
    {
      var tab := MakeTab(route, "");
      var isHomeTab := IsHomeId(homeTab, tab.id);
      if !isHomeTab && !HasId(tabs, tab.id) {
        tabs := tabs + [tab];
        if tab.routeKey != "" {
          cache.RestoreCacheRoute(tab.routeKey);
        }
      }
      if active {
        activeTabId := tab.id;
      }
    }

    /**
     * `removeTab`: the home tab, and with the bar visible any retained tab,
     * stay; otherwise the first tab with the id is removed and its page, when
     * named, leaves the keep-alive list.
     */
    method RemoveTab(tabId: string, visible: bool)
      modifies this, cache
      ensures var blocked := IsHomeId(old(homeTab), tabId)
                || (visible && TabRetained(old(tabs), old(homeTab), old(defaultTabs), tabId, visible));
        var i := FindIndex(old(tabs), IdIs(tabId));
        && tabs == (if blocked then old(tabs) else TabRemoved(old(tabs), tabId))
        && cache.cacheRoutes ==
             (if !blocked && i != -1 && old(tabs)[i].routeKey != ""
              then Removed(old(cache.cacheRoutes), old(tabs)[i].routeKey)
              else old(cache.cacheRoutes))
      ensures cache.excludeCacheRoutes == old(cache.excludeCacheRoutes)
      ensures cache.baseExcludeCacheRoutes == old(cache.baseExcludeCacheRoutes)
      ensures homeTab == old(homeTab) && defaultTabs == old(defaultTabs)
      ensures activeTabId == old(activeTabId) && stored == old(stored)
    {
      if IsHomeId(homeTab, tabId) {
        return;
      }
      if visible && TabRetained(tabs, homeTab, defaultTabs, tabId, visible) {
        return;
      }
      var index := FindIndex(tabs, IdIs(tabId));
      if index != -1 {
        var tab := tabs[index];
        if tab.routeKey != "" {
          cache.RemoveCacheRoute(tab.routeKey);
        }
        tabs := RemoveAt(tabs, index);
      }
    }

    /** `clearTabs` */
    method ClearTabs(excludes: seq<string>)
      modifies this
      ensures tabs == Cleared(old(tabs), RetainIds(homeTab, defaultTabs, excludes))
      ensures homeTab == old(homeTab) && defaultTabs == old(defaultTabs)
      ensures activeTabId == old(activeTabId) && stored == old(stored)
    {
      var retainIds := RetainIds(homeTab, defaultTabs, excludes);
      tabs := Filter(tabs, InIds(retainIds));
    }

    /** `clearLeftTabs`: the tabs from the given one on are kept, as are home and default tabs. */
    method ClearLeftTabs(tabId: string)
      modifies this
      ensures var i := FindIndex(old(tabs), IdIs(tabId));
        tabs == (if i == -1 then old(tabs)
                 else Cleared(old(tabs), RetainIds(homeTab, defaultTabs, Ids(old(tabs)[i..]))))
      ensures homeTab == old(homeTab) && defaultTabs == old(defaultTabs)
      ensures activeTabId == old(activeTabId) && stored == old(stored)
    {
      var index := FindIndex(tabs, IdIs(tabId));
      if index == -1 {
        return;
      }
      var excludes := Ids(tabs[index..]);
      ClearTabs(excludes);
    }

    /** `clearRightTabs`: the tabs up to the given one are kept, as are home and default tabs. */
    method ClearRightTabs(tabId: string)
      modifies this
      ensures var i := FindIndex(old(tabs), IdIs(tabId));
        tabs == (if i == -1 then old(tabs)
                 else Cleared(old(tabs), RetainIds(homeTab, defaultTabs, Ids(old(tabs)[..i + 1]))))
      ensures homeTab == old(homeTab) && defaultTabs == old(defaultTabs)
      ensures activeTabId == old(activeTabId) && stored == old(stored)
    {
      var index := FindIndex(tabs, IdIs(tabId));
      if index == -1 {
        return;
      }
      var excludes := Ids(tabs[..index + 1]);
      ClearTabs(excludes);
    }

    /** `fixTab` */
    method FixTab(tabId: string)
      modifies this
      ensures tabs == Fixed(old(tabs), tabId)
      ensures homeTab == old(homeTab) && defaultTabs == old(defaultTabs)
      ensures activeTabId == old(activeTabId) && stored == old(stored)
    {
      var index := FindIndex(tabs, IdIs(tabId));
      if index != -1 {
        var fixedCount := Count(tabs, IsFixed);
        tabs := tabs[index := tabs[index].(fixedIndex := Some(fixedCount))];
      }
    }

    /** `unfixTab` */
    method UnfixTab(tabId: string)
      modifies this
      ensures tabs == Unfixed(old(tabs), tabId)
      ensures homeTab == old(homeTab) && defaultTabs == old(defaultTabs)
      ensures activeTabId == old(activeTabId) && stored == old(stored)
    {
      var index := FindIndex(tabs, IdIs(tabId));
      if index != -1 {
        tabs := tabs[index := tabs[index].(fixedIndex := None)];
      }
    }

    /** `isTabRetain` */
    predicate IsTabRetain(tabId: string, visible: bool)
      reads this
    {
      TabRetained(tabs, homeTab, defaultTabs, tabId, visible)
    }

    /** `switchRouteByTab`: the tab becomes active; navigating is the caller's job. */
    method SwitchRouteByTab(tab: Tab)
      modifies this
      ensures activeTabId == tab.id
      ensures tabs == old(tabs) && homeTab == old(homeTab) && defaultTabs == old(defaultTabs)
      ensures stored == old(stored)
    {
      SetActiveTabId(tab.id);
    }

    /** `cacheTabs`: written only with caching on and a user logged in. */
    method CacheTabs(cacheOn: bool, isLogin: bool)
      modifies this
      ensures stored == (if cacheOn && isLogin then Written(old(State())) else old(stored))
      ensures tabs == old(tabs) && homeTab == old(homeTab) && defaultTabs == old(defaultTabs)
      ensures activeTabId == old(activeTabId)
    {
      if !cacheOn {
        return;
      }
      if !isLogin {
        return;
      }
      stored := Entry(Some(tabs), homeTab, Some(activeTabId));
    }

    /** `restoreTabs` */
    method RestoreTabs(cacheOn: bool)
      modifies this
      ensures State() == Restore(old(State()), stored, cacheOn)
      ensures defaultTabs == old(defaultTabs) && stored == old(stored)
    {
      if !cacheOn {
        return;
      }
      if stored.Entry? {
        if stored.tabs.Some? && |stored.tabs.value| > 0 {
          tabs := stored.tabs.value;
        }
        if stored.homeTab.Some? {
          homeTab := stored.homeTab;
        }
        if Truthy(stored.activeTabId) {
          activeTabId := stored.activeTabId.value;
        }
      }
    }

    /** `clearCachedTabs` */
    method ClearCachedTabs()
      modifies this
      ensures stored == NoEntry
      ensures State() == old(State()) && defaultTabs == old(defaultTabs)
    {
      stored := NoEntry;
    }

    /** `initTabStore`: the cached tabs are restored, then the current route is added and activated. */
    method InitTabStore(currentRoute: TabRoute, cacheOn: bool)
      modifies this, cache
      ensures var s := Restore(old(State()), old(stored), cacheOn);
        var tab := MakeTab(currentRoute, "");
        && tabs == AddedTab(s.tabs, s.homeTab, tab)
        && homeTab == s.homeTab
        && activeTabId == tab.id
        && cache.cacheRoutes ==
             (if !IsHomeId(s.homeTab, tab.id) && !HasId(s.tabs, tab.id) && tab.routeKey != ""
              then Restored(old(cache.cacheRoutes), old(cache.baseExcludeCacheRoutes), tab.routeKey)
              else old(cache.cacheRoutes))
      ensures cache.excludeCacheRoutes == old(cache.excludeCacheRoutes)
      ensures cache.baseExcludeCacheRoutes == old(cache.baseExcludeCacheRoutes)
      ensures defaultTabs == old(defaultTabs) && stored == old(stored)
    {
      RestoreTabs(cacheOn);
      AddTab(currentRoute, true);
    }

    /** `initDefaultTabsAfterLogin`: with the bar visible, every default tab not yet open is appended. */
    method InitDefaultTabsAfterLogin(visible: bool)
      modifies this
      ensures tabs == (if visible then AppendAbsent(old(tabs), old(defaultTabs)) else old(tabs))
      ensures homeTab == old(homeTab) && defaultTabs == old(defaultTabs)
      ensures activeTabId == old(activeTabId) && stored == old(stored)
    {
      var defaultPages := DefaultPages(defaultTabs, visible);
      if visible {
        var i := 0;
        while i < |defaultPages|
          invariant 0 <= i <= |defaultPages|
          invariant tabs == AppendAbsent(old(tabs), defaultPages[..i])
          invariant homeTab == old(homeTab) && defaultTabs == old(defaultTabs)
          invariant activeTabId == old(activeTabId) && stored == old(stored)
        {
          var tab := defaultPages[i];
          assert defaultPages[..i + 1][..i] == defaultPages[..i];
          if !HasId(tabs, tab.id) {
            tabs := tabs + [tab];
          }
          i := i + 1;
        }
        assert defaultPages[..|defaultPages|] == defaultPages;
      }
    }
  }
}
