/**
 * The mixed-layout menu: the selected key of the current route, the first-
 * and second-level keys derived from it (route names nest by '-'), the
 * menu lists shown at each level, and the handlers that select a level.
 */
module MixMenu {
  import opened Wrappers
  import opened Seqs
  import opened JsText
  import opened RouteTypes
  import opened RouteMenu

  /**
   * `useMenu().selectedKey`: a route hidden from the menu highlights its
   * `activeMenu` when that is non-empty; any other route its own name.
   */
  function SelectedKey(name: Option<string>, meta: Meta): (r: Option<string>)
    ensures meta.hideInMenu == Some(true) && Truthy(meta.activeMenu) ==> r == meta.activeMenu
    ensures !(meta.hideInMenu == Some(true) && Truthy(meta.activeMenu)) ==> r == name
  {
    var routeName := if meta.hideInMenu == Some(true) then meta.activeMenu else name;
    if Truthy(routeName) then routeName else name
  }

  /** The first `-`-separated segment of the selected key. */
  function FirstLevelKey(selectedKey: string): string {
    Split(selectedKey, '-')[0]
  }

  /** The first two segments joined by '-', or '' when there is only one. */
  function SecondLevelKey(selectedKey: string): string {
    var keys := Split(selectedKey, '-');
    if |keys| < 2 then "" else keys[0] + "-" + keys[1]
  }

  /** A joined list of two or more parts starts with its first two parts around a separator. */
  lemma {:induction false} JoinStartsWithTwo(parts: seq<string>, sep: char)
    requires |parts| >= 2
    ensures parts[0] + [sep] + parts[1] <= Join(parts, sep)
  {
    if |parts| > 2 {
      var init := parts[..|parts| - 1];
      JoinStartsWithTwo(init, sep);
      assert init[0] == parts[0] && init[1] == parts[1];
    } else {
      assert parts[..1] == [parts[0]];
    }
  }

  /**
   * The first-level key is the selected key up to its first '-' (all of it
   * when there is none).
   */
  lemma FirstLevelKeySpec(selectedKey: string)
    ensures var k := FirstLevelKey(selectedKey);
      && '-' !in k && k <= selectedKey
      && (|k| < |selectedKey| ==> selectedKey[|k|] == '-')
  {
    SplitFirst(selectedKey, '-');
  }

  /**
   * The second-level key is empty iff the selected key has no '-'; otherwise
   * it is the prefix of the selected key made of the first-level key, one
   * '-', and the next segment.
   */
  lemma SecondLevelKeySpec(selectedKey: string)
    ensures SecondLevelKey(selectedKey) == "" <==> '-' !in selectedKey
    ensures '-' in selectedKey ==>
              var k := SecondLevelKey(selectedKey);
              && k <= selectedKey
              && exists rest :: k == FirstLevelKey(selectedKey) + "-" + rest && '-' !in rest
  {
    var keys := Split(selectedKey, '-');
    SplitSingle(selectedKey, '-');
    if |keys| >= 2 {
      var k := SecondLevelKey(selectedKey);
      assert k[|keys[0]|] == '-';
      SplitJoin(selectedKey, '-');
      JoinStartsWithTwo(keys, '-');
      SplitNoSep(selectedKey, '-');
      assert keys[0] + "-" + keys[1] == keys[0] + ['-'] + keys[1];
    }
  }

  function KeyIs(key: string): Menu -> bool {
    (m: Menu) => m.key == Some(key)
  }

  /** `firstLevelMenus`: the top-level menus with their `children` dropped. */
  function FirstLevelMenus(ms: seq<Menu>): (r: seq<Menu>)
    ensures |r| == |ms|
    ensures forall i :: 0 <= i < |ms| ==> r[i] == ms[i].(children := NoSubMenus)
  {
    seq(|ms|, i requires 0 <= i < |ms| => ms[i].(children := NoSubMenus))
  }

  /** `Boolean(list.find(item => item.key === key)?.children?.length)`, false for an empty key. */
  predicate HasChildrenAt(ms: seq<Menu>, key: string) {
    key != "" && var found := Find(ms, KeyIs(key)); found.Some? && HasSubMenus(found.value)
  }

  /** `list.find(menu => menu.key === key)?.children || []` */
  function ChildrenAt(ms: seq<Menu>, key: string): seq<Menu> {
    var found := Find(ms, KeyIs(key));
    if found.Some? && found.value.children.SubMenus? then found.value.children.menus else []
  }

  /**
   * The children shown for a key are those of the first menu carrying it,
   * none when no menu does; a non-empty key has children exactly when that
   * list is non-empty.
   */
  lemma ChildrenAtSpec(ms: seq<Menu>, key: string)
    ensures (forall i :: 0 <= i < |ms| ==> ms[i].key != Some(key)) ==> ChildrenAt(ms, key) == []
    ensures forall i :: 0 <= i < |ms| && ms[i].key == Some(key) && (forall j :: 0 <= j < i ==> ms[j].key != Some(key)) ==>
              ChildrenAt(ms, key) == (if ms[i].children.SubMenus? then ms[i].children.menus else [])
    ensures key != "" ==> (HasChildrenAt(ms, key) <==> |ChildrenAt(ms, key)| > 0)
  {
    var idx := FindIndex(ms, KeyIs(key));
    forall i | 0 <= i < |ms| && ms[i].key == Some(key) && (forall j :: 0 <= j < i ==> ms[j].key != Some(key))
      ensures idx == i
    {
      assert KeyIs(key)(ms[i]);
    }
  }

  /** `findDeepest`: down the first children to a menu without any, and its route key. */
  function FindDeepest(m: Menu): Option<string>
    decreases m
  {
    if !HasSubMenus(m) then m.routeKey else FindDeepest(m.children.menus[0])
  }

  predicate IsLeaf(m: Menu) {
    !HasSubMenus(m)
  }

  /** The deepest key is the route key of the first menu in pre-order without children. */
  lemma {:induction false} FindDeepestIsFirstLeaf(m: Menu)
    ensures 0 <= FindIndex(MenuFlat(m), IsLeaf)
    ensures MenuFlat(m)[FindIndex(MenuFlat(m), IsLeaf)].routeKey == FindDeepest(m)
    decreases m
  {
    var flat := MenuFlat(m);
    assert flat[0] == m;
    if HasSubMenus(m) {
      var kids := m.children.menus;
      var first := MenuFlat(kids[0]);
      FindDeepestIsFirstLeaf(kids[0]);
      var k := FindIndex(first, IsLeaf);
      var rest := MenusFlat(kids, 1);
      assert MenusFlat(kids, 0) == first + rest;
      assert flat == [m] + (first + rest);
      FindIndexConcat(first, rest, IsLeaf);
      FindIndexConcat([m], first + rest, IsLeaf);
      assert flat[k + 1] == first[k];
    } else {
      FindIndexAt(flat, IsLeaf, 0);
    }
  }

  /**
   * `getDeepestLevelMenuKey`: nothing unless the option is on and there are
   * second-level menus; then the deepest key under the first of them. A
   * missing route key and `null` both read as nothing, as the one caller
   * only tests for a falsy key.
   */
  function DeepestLevelMenuKey(secondLevelMenus: seq<Menu>, autoSelectFirstMenu: bool): (r: Option<string>)
    ensures |secondLevelMenus| == 0 || !autoSelectFirstMenu ==> r == None
  {
    if |secondLevelMenus| == 0 || !autoSelectFirstMenu then None
    else FindDeepest(secondLevelMenus[0])
  }

  /** The mix menu's state; `pushed` records the keys handed to `routerPushByKeyWithMetaQuery`. */
  class MixMenuContext {
    var activeFirstLevelMenuKey: string
    var activeSecondLevelMenuKey: string
    var pushed: seq<string>

    constructor()
      ensures activeFirstLevelMenuKey == "" && activeSecondLevelMenuKey == "" && pushed == []
    {
      activeFirstLevelMenuKey := "";
      activeSecondLevelMenuKey := "";
      pushed := [];
    }

    function SecondLevelMenus(menus: seq<Menu>): seq<Menu>
      reads this
    {
      ChildrenAt(menus, activeFirstLevelMenuKey)
    }

    function ChildLevelMenus(menus: seq<Menu>): seq<Menu>
      reads this
    {
      ChildrenAt(SecondLevelMenus(menus), activeSecondLevelMenuKey)
    }

    predicate IsActiveFirstLevelMenuHasChildren(menus: seq<Menu>)
      reads this
    {
      HasChildrenAt(menus, activeFirstLevelMenuKey)
    }

    predicate IsActiveSecondLevelMenuHasChildren(menus: seq<Menu>)
      reads this
    {
      HasChildrenAt(SecondLevelMenus(menus), activeSecondLevelMenuKey)
    }

    method SetActiveFirstLevelMenuKey(key: string)
      modifies this
      ensures activeFirstLevelMenuKey == key
      ensures activeSecondLevelMenuKey == old(activeSecondLevelMenuKey) && pushed == old(pushed)
    {
      activeFirstLevelMenuKey := key;
    }

    method SetActiveSecondLevelMenuKey(key: string)
      modifies this
      ensures activeSecondLevelMenuKey == key
      ensures activeFirstLevelMenuKey == old(activeFirstLevelMenuKey) && pushed == old(pushed)
    {
      activeSecondLevelMenuKey := key;
    }

    method GetActiveFirstLevelMenuKey(selectedKey: string)
      modifies this
      ensures activeFirstLevelMenuKey == FirstLevelKey(selectedKey)
      ensures activeSecondLevelMenuKey == old(activeSecondLevelMenuKey) && pushed == old(pushed)
    {
      var parts := Split(selectedKey, '-');
      SetActiveFirstLevelMenuKey(parts[0]);
    }

    method GetActiveSecondLevelMenuKey(selectedKey: string)
      modifies this
      ensures activeSecondLevelMenuKey == SecondLevelKey(selectedKey)
      ensures activeFirstLevelMenuKey == old(activeFirstLevelMenuKey) && pushed == old(pushed)
    {
      var keys := Split(selectedKey, '-');
      if |keys| < 2 {
        SetActiveSecondLevelMenuKey("");
        return;
      }
      SetActiveSecondLevelMenuKey(keys[0] + "-" + keys[1]);
    }

    /** The key is always selected; the router goes there only when its menu has no children. */
    method HandleSelectFirstLevelMenu(menus: seq<Menu>, key: string)
      modifies this
      ensures activeFirstLevelMenuKey == key && activeSecondLevelMenuKey == old(activeSecondLevelMenuKey)
      ensures pushed == if HasChildrenAt(menus, key) then old(pushed) else old(pushed) + [key]
    {
      SetActiveFirstLevelMenuKey(key);
      if !IsActiveFirstLevelMenuHasChildren(menus) {
        pushed := pushed + [key];
      }
    }

    method HandleSelectSecondLevelMenu(menus: seq<Menu>, key: string)
      modifies this
      ensures activeSecondLevelMenuKey == key && activeFirstLevelMenuKey == old(activeFirstLevelMenuKey)
      ensures pushed
                == if HasChildrenAt(ChildrenAt(menus, activeFirstLevelMenuKey), key) then old(pushed)
                   else old(pushed) + [key]
    {
      SetActiveSecondLevelMenuKey(key);
      if !IsActiveSecondLevelMenuHasChildren(menus) {
        pushed := pushed + [key];
      }
    }

    /** `activeDeepestLevelMenuKey`: selects the deepest second-level key when there is a non-empty one. */
    method ActiveDeepestLevelMenuKey(menus: seq<Menu>, autoSelectFirstMenu: bool)
      modifies this
      ensures var k := DeepestLevelMenuKey(ChildrenAt(menus, activeFirstLevelMenuKey), autoSelectFirstMenu);
        if Truthy(k) then
          && activeSecondLevelMenuKey == k.value
          && pushed == if HasChildrenAt(ChildrenAt(menus, activeFirstLevelMenuKey), k.value) then old(pushed)
                       else old(pushed) + [k.value]
        else activeSecondLevelMenuKey == old(activeSecondLevelMenuKey) && pushed == old(pushed)
      ensures activeFirstLevelMenuKey == old(activeFirstLevelMenuKey)
    {
      var deepest := DeepestLevelMenuKey(SecondLevelMenus(menus), autoSelectFirstMenu);
      if !Truthy(deepest) {
        return;
      }
      HandleSelectSecondLevelMenu(menus, deepest.value);
    }

    /**
     * The watcher on the route name: the first-level key is derived, and the
     * second-level key too when the child-level list, computed with the new
     * first-level key and the second-level key held so far, is non-empty.
     */
    method OnRouteChange(menus: seq<Menu>, selectedKey: string)
      modifies this
      ensures activeFirstLevelMenuKey == FirstLevelKey(selectedKey)
      ensures activeSecondLevelMenuKey ==
        if |ChildrenAt(ChildrenAt(menus, FirstLevelKey(selectedKey)), old(activeSecondLevelMenuKey))| > 0
        then SecondLevelKey(selectedKey) else old(activeSecondLevelMenuKey)
      ensures pushed == old(pushed)
    {
      GetActiveFirstLevelMenuKey(selectedKey);
      if |ChildLevelMenus(menus)| > 0 {
        GetActiveSecondLevelMenuKey(selectedKey);
      }
    }
  }

  /**
   * On the first route change after start-up the second-level key is still
   * '', so unless some second-level menu has the key '' the watcher leaves
   * it empty, whatever the route.
   */
  lemma FirstWatchKeepsSecondLevelEmpty(menus: seq<Menu>, selectedKey: string)
    requires forall m :: m in ChildrenAt(menus, FirstLevelKey(selectedKey)) ==> m.key != Some("")
    ensures ChildrenAt(ChildrenAt(menus, FirstLevelKey(selectedKey)), "") == []
  {
    var second := ChildrenAt(menus, FirstLevelKey(selectedKey));
    ChildrenAtSpec(second, "");
  }
}
