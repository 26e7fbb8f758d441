/**
 * The menu tree projected from the route tree (`getMenusByRoutes`), and what
 * is read off it: the flat search list (`transformMenuToSearchMenus`), the
 * key chain to a selected key (`getSelectedMenuKeyPath`) and the breadcrumbs
 * of the current route (`getBreadcrumbsByRoute`).
 */
module RouteMenu {
  import opened Wrappers
  import opened Seqs
  import opened JsText
  import opened RouteTypes
  import opened RouterHelper

  // Projection of routes onto menus.

  /** `getMenuByRoute`: the entry of one route at its full path, without children. */
  function MenuOf(r: Route, fullPath: string): Menu {
    Menu(r.name, Label(r), r.meta.icon, r.name,
         if fullPath != "" then fullPath else r.path, r.meta.i18nKey, NoSubMenus)
  }

  /** `title || name` */
  function Label(r: Route): Option<string> {
    if Truthy(r.meta.title) then r.meta.title else r.name
  }

  /** The `root` wrapper, whose children are listed in its place. */
  predicate IsRootGroup(r: Route) {
    r.name == Some("root") && r.children.Kids?
  }

  /** `route.children?.some(child => !child.meta?.hideInMenu)` */
  predicate SomeChildVisible(r: Route) {
    r.children.Kids? && exists i :: 0 <= i < |r.children.routes| && !IsHiddenInMenu(r.children.routes[i])
  }

  /** The menus of the first `n` routes of `rs`. */
  function Menus(rs: seq<Route>, n: nat, parentPath: string): seq<Menu>
    requires n <= |rs|
    decreases Kids(rs), n
  {
    if n == 0 then [] else Menus(rs, n - 1, parentPath) + NodeMenus(rs[n - 1], parentPath)
  }

  function NodeMenus(r: Route, parentPath: string): seq<Menu>
    decreases r
  {
    if IsRootGroup(r) then Menus(r.children.routes, |r.children.routes|, parentPath)
    else if IsHiddenInMenu(r) then []
    else
      var path := JoinPath(parentPath, r.path);
      var m := MenuOf(r, path);
      if SomeChildVisible(r)
      then [m.(children := SubMenus(Menus(r.children.routes, |r.children.routes|, path)))]
      else [m]
  }

  /** `getMenusByRoutes`: walks the routes in order, pushing each entry. */
  method GetMenusByRoutes(rs: seq<Route>, parentPath: string) returns (menus: seq<Menu>)
    ensures menus == Menus(rs, |rs|, parentPath)
    decreases Kids(rs)
  {
    menus := [];
    var i := 0;
    while i < |rs|
      invariant 0 <= i <= |rs|
      invariant menus == Menus(rs, i, parentPath)
    {
      var route := rs[i];
      if route.name == Some("root") && route.children.Kids? {
        var sub := GetMenusByRoutes(route.children.routes, parentPath);
        menus := menus + sub;
      } else {
        var currentPath := JoinPath(parentPath, route.path);
        if !IsHiddenInMenu(route) {
          var menu := MenuOf(route, currentPath);
          if SomeChildVisible(route) {
            var sub := GetMenusByRoutes(route.children.routes, currentPath);
            menu := menu.(children := SubMenus(sub));
          }
          menus := menus + [menu];
        }
      }
      i := i + 1;
    }
  }

  // The entries of a menu forest in pre-order, counted from index `i`.

  function MenusFlat(ms: seq<Menu>, i: nat): seq<Menu>
    requires i <= |ms|
    decreases SubMenus(ms), |ms| - i
  {
    if i == |ms| then [] else MenuFlat(ms[i]) + MenusFlat(ms, i + 1)
  }

  function MenuFlat(m: Menu): seq<Menu>
    decreases m
  {
    [m] + (if m.children.SubMenus? then MenusFlat(m.children.menus, 0) else [])
  }

  function AllMenus(ms: seq<Menu>): seq<Menu> {
    MenusFlat(ms, 0)
  }

  lemma {:induction false} MenusFlatShift(a: seq<Menu>, b: seq<Menu>, j: nat)
    requires j <= |b|
    ensures MenusFlat(a + b, |a| + j) == MenusFlat(b, j)
    decreases |b| - j
  {
    if j < |b| {
      MenusFlatShift(a, b, j + 1);
      assert (a + b)[|a| + j] == b[j];
    }
  }

  lemma {:induction false} MenusFlatConcatFrom(a: seq<Menu>, b: seq<Menu>, i: nat)
    requires i <= |a|
    ensures MenusFlat(a + b, i) == MenusFlat(a, i) + MenusFlat(b, 0)
    decreases |a| - i
  {
    if i == |a| {
      MenusFlatShift(a, b, 0);
    } else {
      MenusFlatConcatFrom(a, b, i + 1);
      assert (a + b)[i] == a[i];
    }
  }

  lemma MenusFlatConcat(a: seq<Menu>, b: seq<Menu>)
    ensures AllMenus(a + b) == AllMenus(a) + AllMenus(b)
  {
    MenusFlatConcatFrom(a, b, 0);
  }

  /** `m` is the entry `getMenuByRoute` makes of the visible route `x`, children aside. */
  predicate Projects(m: Menu, x: Route) {
    && !IsHiddenInMenu(x)
    && m.key == x.name
    && m.routeKey == x.name
    && m.caption == Label(x)
    && m.icon == x.meta.icon
    && m.i18nKey == x.meta.i18nKey
  }

  /**
   * The menus invent nothing: every entry, at any depth, is the projection of
   * a route of the input that is not hidden, so a hidden route contributes no
   * entry of its own.
   */
  lemma {:induction false} MenusFromRoutes(rs: seq<Route>, n: nat, parentPath: string)
    requires n <= |rs|
    ensures forall m :: m in AllMenus(Menus(rs, n, parentPath)) ==>
              exists x :: x in Flatten(rs, n) && Projects(m, x)
    decreases Kids(rs), n
  {
    if n > 0 {
      var before := Menus(rs, n - 1, parentPath);
      var last := NodeMenus(rs[n - 1], parentPath);
      MenusFromRoutes(rs, n - 1, parentPath);
      NodeMenusFromRoute(rs[n - 1], parentPath);
      MenusFlatConcat(before, last);
    }
  }

  lemma {:induction false} NodeMenusFromRoute(r: Route, parentPath: string)
    ensures forall m :: m in AllMenus(NodeMenus(r, parentPath)) ==>
              exists x :: x in FlattenNode(r) && Projects(m, x)
    decreases r
  {
    if IsRootGroup(r) {
      var kids := r.children.routes;
      if |kids| > 0 {
        MenusFromRoutes(kids, |kids|, parentPath);
      } else {
        assert Menus(kids, 0, parentPath) == [];
      }
    } else if !IsHiddenInMenu(r) {
      var path := JoinPath(parentPath, r.path);
      var out := NodeMenus(r, parentPath);
      var m := out[0];
      assert out == [m];
      assert AllMenus(out) == MenuFlat(m) by {
        assert MenusFlat(out, 1) == [];
      }
      assert Projects(m, r);
      if SomeChildVisible(r) {
        var kids := r.children.routes;
        MenusFromRoutes(kids, |kids|, path);
        assert HasKids(r);
        assert MenuFlat(m) == [m] + AllMenus(Menus(kids, |kids|, path));
      }
    }
  }

  /**
   * The entry of a route that is neither hidden nor the `root` wrapper sits
   * at the route's full path, and has a `children` field iff some child is
   * not hidden; the children are then the menus of the child routes.
   */
  lemma NodeMenuShape(r: Route, parentPath: string)
    requires !IsRootGroup(r) && !IsHiddenInMenu(r)
    ensures |NodeMenus(r, parentPath)| == 1
    ensures Projects(NodeMenus(r, parentPath)[0], r)
    ensures NodeMenus(r, parentPath)[0].routePath == JoinPath(parentPath, r.path)
    ensures NodeMenus(r, parentPath)[0].children.SubMenus? <==> SomeChildVisible(r)
    ensures SomeChildVisible(r) ==>
              NodeMenus(r, parentPath)[0].children.menus
                == Menus(r.children.routes, |r.children.routes|, JoinPath(parentPath, r.path))
  {
  }

  /** A hidden route contributes nothing, its subtree included, unless it is the `root` wrapper. */
  lemma HiddenContributesNothing(r: Route, parentPath: string)
    requires IsHiddenInMenu(r) && !IsRootGroup(r)
    ensures NodeMenus(r, parentPath) == []
  {
  }

  /** The `root` wrapper is replaced by the menus of its children, at the parent's path. */
  lemma RootGroupIsTransparent(rs: seq<Route>, parentPath: string, meta: Meta, path: string)
    ensures NodeMenus(Route(Some("root"), path, None, meta, LayoutWrapper, Kids(rs)), parentPath)
              == Menus(rs, |rs|, parentPath)
  {
  }

  // The search list: the entries without a `children` field, in pre-order.

  predicate IsSearchEntry(m: Menu) {
    m.children.NoSubMenus?
  }

  /** The `reduce` of `transformMenuToSearchMenus`, pushing into the shared `treeMap`. */
  method SearchMenusInto(ms: seq<Menu>, treeMap: seq<Menu>) returns (acc: seq<Menu>)
    ensures acc == treeMap + Filter(AllMenus(ms), IsSearchEntry)
    decreases SubMenus(ms)
  {
    acc := treeMap;
    var i := 0;
    while i < |ms|
      invariant 0 <= i <= |ms|
      invariant acc + Filter(MenusFlat(ms, i), IsSearchEntry) == treeMap + Filter(AllMenus(ms), IsSearchEntry)
    {
      ghost var before := acc;
      acc := SearchMenuInto(ms[i], acc);
      SearchAdvance(before, acc, ms, i, treeMap + Filter(AllMenus(ms), IsSearchEntry));
      i := i + 1;
    }
  }

  /** The `reduce` callback on one menu: it is pushed when it has no `children`, its children are searched when it has some. */
  method SearchMenuInto(cur: Menu, treeMap: seq<Menu>) returns (acc: seq<Menu>)
    ensures acc == treeMap + Filter(MenuFlat(cur), IsSearchEntry)
    decreases cur
  {
    acc := treeMap;
    SearchEntriesOf(cur);
    if cur.children.NoSubMenus? {
      acc := acc + [cur];
    }
    if cur.children.SubMenus? && |cur.children.menus| > 0 {
      acc := SearchMenusInto(cur.children.menus, acc);
    } else if cur.children.SubMenus? {
      assert AllMenus(cur.children.menus) == [];
    }
  }

  /** Appending the search entries of the `i`-th menu moves the walk on by one menu. */
  lemma SearchAdvance(before: seq<Menu>, after: seq<Menu>, ms: seq<Menu>, i: nat, total: seq<Menu>)
    requires i < |ms|
    requires before + Filter(MenusFlat(ms, i), IsSearchEntry) == total
    requires after == before + Filter(MenuFlat(ms[i]), IsSearchEntry)
    ensures after + Filter(MenusFlat(ms, i + 1), IsSearchEntry) == total
  {
    FilterConcat(MenuFlat(ms[i]), MenusFlat(ms, i + 1), IsSearchEntry);
  }

  /** The search entries of one menu: itself when it has no `children`, else those of its children. */
  lemma SearchEntriesOf(m: Menu)
    ensures m.children.NoSubMenus? ==> Filter(MenuFlat(m), IsSearchEntry) == [m]
    ensures m.children.SubMenus? ==>
              Filter(MenuFlat(m), IsSearchEntry) == Filter(AllMenus(m.children.menus), IsSearchEntry)
  {
    var below := if m.children.SubMenus? then AllMenus(m.children.menus) else [];
    FilterConcat([m], below, IsSearchEntry);
    assert [m][..0] == [];
    if m.children.SubMenus? && |m.children.menus| == 0 {
      assert below == [];
    }
  }

  /** `transformMenuToSearchMenus(menus)`. */
  method TransformMenuToSearchMenus(ms: seq<Menu>) returns (r: seq<Menu>)
    ensures r == Filter(AllMenus(ms), IsSearchEntry)
  {
    if |ms| == 0 {
      return [];
    }
    r := SearchMenusInto(ms, []);
  }

  /** The search list holds exactly the entries, at any depth, that have no `children` field. */
  lemma SearchMenusExactly(ms: seq<Menu>, x: Menu)
    ensures x in Filter(AllMenus(ms), IsSearchEntry) <==> x in AllMenus(ms) && x.children.NoSubMenus?
  {
    FilterMembers(AllMenus(ms), IsSearchEntry, x);
  }

  // The key chain to a selected key.

  /** What `findMenuPath` returns: the keys from `m` down to the first pre-order match. */
  function MenuPath(target: string, m: Menu): Option<seq<Option<string>>>
    decreases m
  {
    if m.key == Some(target) then Some([m.key])
    else if m.children.SubMenus? then
      match ChildPath(target, m.children.menus, 0)
      case Some(p) => Some([m.key] + p)
      case None => None
    else None
  }

  /** The chain found in the first of `ms[i..]` that holds a match. */
  function ChildPath(target: string, ms: seq<Menu>, i: nat): Option<seq<Option<string>>>
    requires i <= |ms|
    decreases SubMenus(ms), |ms| - i
  {
    if i == |ms| then None
    else match MenuPath(target, ms[i])
      case Some(p) => Some(p)
      case None => ChildPath(target, ms, i + 1)
  }

  /** `getSelectedMenuKeyPath`. */
  function KeyPath(target: string, ms: seq<Menu>): seq<Option<string>> {
    ChildPath(target, ms, 0).GetOr([])
  }

  /** The `dfs` of `findMenuPath`: pushes the key, searches the children, pops on failure. */
  method Dfs(item: Menu, target: string, path: seq<Option<string>>) returns (found: bool, out: seq<Option<string>>)
    ensures found <==> MenuPath(target, item).Some?
    ensures found ==> out == path + MenuPath(target, item).value
    ensures !found ==> out == path
    decreases item
  {
    out := path + [item.key];
    if item.key == Some(target) {
      return true, out;
    }
    if item.children.SubMenus? {
      var kids := item.children.menus;
      var i := 0;
      while i < |kids|
        invariant 0 <= i <= |kids|
        invariant out == path + [item.key]
        invariant ChildPath(target, kids, 0) == ChildPath(target, kids, i)
      {
        var f, o := Dfs(kids[i], target, out);
        if f {
          assert ChildPath(target, kids, i) == MenuPath(target, kids[i]);
          return true, o;
        }
        i := i + 1;
      }
    }
    out := out[..|out| - 1];
    return false, out;
  }

  /** `findMenuPath`: the chain, or nothing. */
  method FindMenuPath(target: string, m: Menu) returns (r: Option<seq<Option<string>>>)
    ensures r == MenuPath(target, m)
  {
    var found, path := Dfs(m, target, []);
    if found {
      assert [] + MenuPath(target, m).value == MenuPath(target, m).value;
      return Some(path);
    }
    return None;
  }

  /** `getSelectedMenuKeyPath`: the chain of the first top-level menu that holds a match. */
  method GetSelectedMenuKeyPath(target: string, ms: seq<Menu>) returns (keyPath: seq<Option<string>>)
    ensures keyPath == KeyPath(target, ms)
  {
    keyPath := [];
    var i := 0;
    while i < |ms|
      invariant 0 <= i <= |ms|
      invariant keyPath == []
      invariant ChildPath(target, ms, 0) == ChildPath(target, ms, i)
    {
      var path := FindMenuPath(target, ms[i]);
      if path.Some? {
        MenuPathShape(target, ms[i]);
        if |path.value| > 0 {
          keyPath := keyPath + path.value;
          return;
        }
      }
      i := i + 1;
    }
  }

  /** A chain starts at the menu it was searched from and ends at the selected key. */
  lemma {:induction false} MenuPathShape(target: string, m: Menu)
    ensures MenuPath(target, m).Some? ==>
              var p := MenuPath(target, m).value;
              |p| >= 1 && p[0] == m.key && p[|p| - 1] == Some(target)
    decreases m
  {
    if m.key != Some(target) && m.children.SubMenus? {
      ChildPathShape(target, m.children.menus, 0);
    }
  }

  lemma {:induction false} ChildPathShape(target: string, ms: seq<Menu>, i: nat)
    requires i <= |ms|
    ensures ChildPath(target, ms, i).Some? ==>
              var p := ChildPath(target, ms, i).value;
              |p| >= 1 && p[|p| - 1] == Some(target)
              && exists j :: i <= j < |ms| && p[0] == ms[j].key
    decreases SubMenus(ms), |ms| - i
  {
    if i < |ms| {
      MenuPathShape(target, ms[i]);
      ChildPathShape(target, ms, i + 1);
    }
  }

  /** A chain is found iff some entry, at any depth, carries the key. */
  lemma {:induction false} MenuPathFound(target: string, m: Menu)
    ensures MenuPath(target, m).None? <==> forall x :: x in MenuFlat(m) ==> x.key != Some(target)
    decreases m
  {
    if m.children.SubMenus? {
      ChildPathFound(target, m.children.menus, 0);
    }
  }

  lemma {:induction false} ChildPathFound(target: string, ms: seq<Menu>, i: nat)
    requires i <= |ms|
    ensures ChildPath(target, ms, i).None? <==> forall x :: x in MenusFlat(ms, i) ==> x.key != Some(target)
    decreases SubMenus(ms), |ms| - i
  {
    if i < |ms| {
      MenuPathFound(target, ms[i]);
      ChildPathFound(target, ms, i + 1);
    }
  }

  /**
   * The selected key path is empty iff no entry carries the key; otherwise it
   * runs from a top-level menu down to the selected key.
   */
  lemma KeyPathSpec(target: string, ms: seq<Menu>)
    ensures KeyPath(target, ms) == [] <==> forall x :: x in AllMenus(ms) ==> x.key != Some(target)
    ensures KeyPath(target, ms) != [] ==>
              var p := KeyPath(target, ms);
              p[|p| - 1] == Some(target) && exists j :: 0 <= j < |ms| && p[0] == ms[j].key
  {
    ChildPathFound(target, ms, 0);
    ChildPathShape(target, ms, 0);
  }

  // Breadcrumbs.

  /** A `BreadcrumbItem`: a menu entry whose children are moved into `options`. */
  datatype Crumb = Crumb(
    key: Option<string>,
    caption: Option<string>,
    icon: Option<string>,
    routeKey: Option<string>,
    routePath: string,
    i18nKey: Option<string>,
    options: CrumbOptions)

  datatype CrumbOptions = NoOptions | Options(crumbs: seq<Crumb>)

  /** `transformMenuToBreadcrumb` */
  function ToCrumb(m: Menu): Crumb
    decreases m
  {
    Crumb(m.key, m.caption, m.icon, m.routeKey, m.routePath, m.i18nKey,
          if HasSubMenus(m)
          then Options(seq(|m.children.menus|, i requires 0 <= i < |m.children.menus| => ToCrumb(m.children.menus[i])))
          else NoOptions)
  }

  /** The menu a breadcrumb was made from, when no entry had an empty `children` array. */
  function CrumbToMenu(c: Crumb): Menu
    decreases c
  {
    Menu(c.key, c.caption, c.icon, c.routeKey, c.routePath, c.i18nKey,
         match c.options
         case NoOptions => NoSubMenus
         case Options(cs) => SubMenus(seq(|cs|, i requires 0 <= i < |cs| => CrumbToMenu(cs[i]))))
  }

  /** No entry, at any depth, has an empty `children` array. */
  predicate NoEmptyChildren(m: Menu)
    decreases m
  {
    m.children.SubMenus? ==>
      |m.children.menus| > 0 && forall i :: 0 <= i < |m.children.menus| ==> NoEmptyChildren(m.children.menus[i])
  }

  /** A breadcrumb keeps everything of its menu, children included, as options. */
  lemma {:induction false} CrumbRoundTrip(m: Menu)
    requires NoEmptyChildren(m)
    ensures CrumbToMenu(ToCrumb(m)) == m
    decreases m
  {
    if m.children.SubMenus? {
      var kids := m.children.menus;
      var cs := ToCrumb(m).options.crumbs;
      forall i | 0 <= i < |kids| ensures CrumbToMenu(cs[i]) == kids[i] {
        CrumbRoundTrip(kids[i]);
      }
      assert seq(|cs|, i requires 0 <= i < |cs| => CrumbToMenu(cs[i])) == kids;
    }
  }

  /** `getBreadcrumbsByRoute` from the `i`-th menu on: the chain of the first pre-order match. */
  function Breadcrumbs(key: Option<string>, ms: seq<Menu>, i: nat): seq<Crumb>
    requires i <= |ms|
    decreases SubMenus(ms), |ms| - i
  {
    if i == |ms| then []
    else if ms[i].key == key then [ToCrumb(ms[i])]
    else if HasSubMenus(ms[i]) && Breadcrumbs(key, ms[i].children.menus, 0) != []
    then [ToCrumb(ms[i])] + Breadcrumbs(key, ms[i].children.menus, 0)
    else Breadcrumbs(key, ms, i + 1)
  }

  function GetBreadcrumbsByRoute(routeName: Option<string>, ms: seq<Menu>): seq<Crumb> {
    Breadcrumbs(routeName, ms, 0)
  }

  function CrumbKeys(cs: seq<Crumb>): (r: seq<Option<string>>)
    ensures |r| == |cs| && forall i :: 0 <= i < |cs| ==> r[i] == cs[i].key
  {
    seq(|cs|, i requires 0 <= i < |cs| => cs[i].key)
  }

  lemma CrumbKeysCons(m: Menu, cs: seq<Crumb>)
    ensures CrumbKeys([ToCrumb(m)] + cs) == [m.key] + CrumbKeys(cs)
  {
  }

  /**
   * The breadcrumbs of a named route follow the selected key path of its
   * name: the same chain of menus, one breadcrumb per key.
   */
  lemma {:induction false} BreadcrumbsFollowKeyPath(target: string, ms: seq<Menu>, i: nat)
    requires i <= |ms|
    ensures CrumbKeys(Breadcrumbs(Some(target), ms, i)) == ChildPath(target, ms, i).GetOr([])
    ensures Breadcrumbs(Some(target), ms, i) == [] <==> ChildPath(target, ms, i).None?
    decreases SubMenus(ms), |ms| - i
  {
    if i < |ms| {
      var m := ms[i];
      BreadcrumbsFollowKeyPath(target, ms, i + 1);
      if m.key == Some(target) {
        CrumbKeysCons(m, []);
        assert [ToCrumb(m)] + [] == [ToCrumb(m)];
      } else if m.children.SubMenus? {
        var kids := m.children.menus;
        BreadcrumbsFollowKeyPath(target, kids, 0);
        if |kids| == 0 {
          assert ChildPath(target, kids, 0).None?;
        } else if Breadcrumbs(Some(target), kids, 0) != [] {
          CrumbKeysCons(m, Breadcrumbs(Some(target), kids, 0));
        }
      }
    }
  }
}
