/**
 * Route records, their metadata, and the menu records derived from them.
 *
 * A route's `children` may be missing or an array; the two differ (an empty
 * array is truthy in JavaScript), so they are told apart here by `Unset`
 * and `Kids([])`. The same holds for menus. `meta` is a record of optional
 * properties; a route without `meta` reads like one with every property
 * missing.
 */
module RouteTypes {
  import opened Wrappers

  datatype Meta = Meta(
    title: Option<string>,
    icon: Option<string>,
    localIcon: Option<string>,
    i18nKey: Option<string>,
    order: Option<int>,
    hideInMenu: Option<bool>,
    keepAlive: Option<bool>,
    permissions: Option<seq<string>>,
    roles: Option<seq<string>>,
    requiresAuth: Option<bool>,
    layoutType: Option<string>,
    openType: Option<string>,
    href: Option<string>,
    useJsonRenderer: Option<bool>,
    schemaSource: Option<string>,
    isDefaultAfterLogin: Option<bool>,
    activeMenu: Option<string>)

  const EmptyMeta := Meta(None, None, None, None, None, None, None, None, None,
                          None, None, None, None, None, None, None, None)

  /** Lazily imported components, kept only as far as the code tells them apart. */
  datatype Component =
    | NoComponent
    | LayoutWrapper
    | RouteView
    | IframePage
    | DynamicPage(pageName: string, schemaSource: Option<string>)
    | ViewComponent(view: string)

  datatype Route = Route(
    name: Option<string>,
    path: string,
    redirect: Option<string>,
    meta: Meta,
    component: Component,
    children: Children)

  datatype Children = Unset | Kids(routes: seq<Route>)

  /** `route.children?.length` is truthy. */
  predicate HasKids(r: Route) {
    r.children.Kids? && |r.children.routes| > 0
  }

  predicate Named(r: Route, name: string) {
    r.name == Some(name)
  }

  /** The route with its children forgotten: what a shallow copy shares with its original. */
  function Strip(r: Route): Route {
    r.(children := Unset)
  }

  /**
   * A menu entry (`MenuItem`); `caption` is its `label` (a reserved word
   * here) and the icon is kept by name. `key`, `caption` and `routeKey` come
   * from a route's optional name, so they may be missing as well.
   */
  datatype Menu = Menu(
    key: Option<string>,
    caption: Option<string>,
    icon: Option<string>,
    routeKey: Option<string>,
    routePath: string,
    i18nKey: Option<string>,
    children: SubMenus)

  datatype SubMenus = NoSubMenus | SubMenus(menus: seq<Menu>)

  predicate HasSubMenus(m: Menu) {
    m.children.SubMenus? && |m.children.menus| > 0
  }

  /** A route as delivered by the menu API (`Api.Route.MenuRoute`). */
  datatype MenuRoute = MenuRoute(
    name: string,
    path: string,
    redirect: Option<string>,
    meta: Option<Meta>,
    children: MenuRouteChildren)

  datatype MenuRouteChildren = NoMenuRoutes | MenuRoutes(items: seq<MenuRoute>)
}
