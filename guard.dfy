/**
 * The navigation guard: its options, merged by object spread, and the one
 * ordered decision it takes for each navigation (re-initialise and
 * re-dispatch, open an external link, redirect for authentication or
 * permission, or proceed), with its effects on the page title, the list of
 * default pages and the progress bar.
 */
module Guard {
  import opened Wrappers
  import opened Seqs
  import opened JsText
  import opened RouteTypes
  import opened RouterHelper

  /**
   * What the configured hooks consult when the guard calls them: the login
   * state and permissions of the auth store and the route store's flag.
   */
  datatype World = World(isLogin: bool, isInitAuthRoute: bool, userPermissions: seq<string>)

  /** `RouterGuardOptions`: every property optional; the hooks as functions of the world. */
  datatype Options = Options(
    isLoggedIn: Field<World -> bool>,
    getUserPermissions: Field<World -> seq<string>>,
    hasAnyPermission: Field<(World, seq<string>) -> bool>,
    isAuthRouteInitialized: Field<World -> bool>,
    initAuthRoute: Field<()>,
    loginRouteName: Field<string>,
    forbiddenRouteName: Field<string>,
    appTitle: Field<string>,
    onLoginSuccess: Field<()>)

  const DefaultAppTitle := "Trix Admin"

  /** `defaultOptions`: logged in, every permission granted, routes initialised. */
  const DefaultOptions := Options(
    Defined((w: World) => true),
    Defined((w: World) => []),
    Defined((w: World, ps: seq<string>) => true),
    Defined((w: World) => true),
    Defined(()),
    Defined("login"),
    Defined("forbidden"),
    Defined(DefaultAppTitle),
    Defined(()))

  /** An options object with no property at all. */
  const NoOptions := Options(Absent, Absent, Absent, Absent, Absent, Absent, Absent, Absent, Absent)

  /** `{ ...base, ...over }` */
  function Merge(base: Options, over: Options): Options {
    Options(
      Spread(base.isLoggedIn, over.isLoggedIn),
      Spread(base.getUserPermissions, over.getUserPermissions),
      Spread(base.hasAnyPermission, over.hasAnyPermission),
      Spread(base.isAuthRouteInitialized, over.isAuthRouteInitialized),
      Spread(base.initAuthRoute, over.initAuthRoute),
      Spread(base.loginRouteName, over.loginRouteName),
      Spread(base.forbiddenRouteName, over.forbiddenRouteName),
      Spread(base.appTitle, over.appTitle),
      Spread(base.onLoginSuccess, over.onLoginSuccess))
  }

  /**
   * Merging is shallow: a property present in the update (even as
   * `undefined`) replaces the old one, a missing one keeps it; merging
   * nothing changes nothing, merging the same update twice is merging it
   * once, and two updates in a row are one combined update.
   */
  lemma MergeSpec(a: Options, b: Options, c: Options)
    ensures b.loginRouteName.Present() ==> Merge(a, b).loginRouteName == b.loginRouteName
    ensures !b.loginRouteName.Present() ==> Merge(a, b).loginRouteName == a.loginRouteName
    ensures b.isLoggedIn.Present() ==> Merge(a, b).isLoggedIn == b.isLoggedIn
    ensures !b.isLoggedIn.Present() ==> Merge(a, b).isLoggedIn == a.isLoggedIn
    ensures Merge(a, NoOptions) == a
    ensures Merge(Merge(a, b), b) == Merge(a, b)
    ensures Merge(Merge(a, b), c) == Merge(a, Merge(b, c))
  {
  }

  /** `RouteLocationNormalized`, as far as the guard reads it. */
  datatype Target = Target(name: Option<string>, path: string, fullPath: string, meta: Meta)

  /** The target seen through the route helpers, which only read `meta`. */
  function AsRoute(to: Target): Route {
    Route(to.name, to.path, None, to.meta, NoComponent, Unset)
  }

  // The hooks as the call sites read them: a hook that is missing or
  // `undefined` gives `undefined`, which `?? false` and `!` turn into false
  // and true respectively.

  /** `isLoggedIn?.() ?? false` */
  function LoggedIn(o: Options, w: World): bool {
    match o.isLoggedIn
    case Defined(f) => f(w)
    case _ => false
  }

  /** `!isAuthRouteInitialized?.()` */
  function NeedsInit(o: Options, w: World): bool {
    match o.isAuthRouteInitialized
    case Defined(f) => !f(w)
    case _ => true
  }

  /** `hasAnyPermission?.(permissions) ?? false` */
  function HasPermission(o: Options, w: World, permissions: seq<string>): bool {
    match o.hasAnyPermission
    case Defined(f) => f(w, permissions)
    case _ => false
  }

  /** Where a navigation ends up. */
  datatype Navigation =
    | Redispatch(target: Target)                    // `next({ ...to, replace: true })` after `initAuthRoute`
    | Abort(href: string)                           // `next(false)`, the link opened in a new window
    | ToHome                                        // `next({ path: '/home' })`
    | ToLogin(name: Option<string>, redirect: string) // `next({ name: loginRouteName, query: { redirect } })`
    | ToForbidden(name: Option<string>)             // `next({ name: forbiddenRouteName })`
    | Proceed                                       // `next()`

  /** The navigations ended inside `beforeEach`, where the progress bar is closed on the spot. */
  predicate Rejected(nav: Navigation) {
    nav.Abort? || nav.ToHome? || nav.ToLogin? || nav.ToForbidden?
  }

  /** `handleExternalLink`: the open type is 'newWindow' and there is a non-empty `href`. */
  predicate IsExternalLink(to: Target) {
    GetOpenType(AsRoute(to)) == "newWindow" && Truthy(GetHref(AsRoute(to)))
  }

  /** `handleAuthCheck`: the redirect it passes to `next`, if any. */
  function AuthCheck(o: Options, w: World, to: Target): Option<Navigation> {
    var loggedIn := LoggedIn(o, w);
    if loggedIn && to.name == o.loginRouteName.Read() then Some(ToHome)
    else if IsAuthRequired(AsRoute(to)) && !loggedIn then Some(ToLogin(o.loginRouteName.Read(), to.fullPath))
    else None
  }

  /** `handlePermissionCheck`: the redirect it passes to `next`, if any. */
  function PermissionCheck(o: Options, w: World, to: Target): Option<Navigation> {
    var permissions := GetPermissions(AsRoute(to));
    if |permissions| > 0 && !HasPermission(o, w, permissions) then Some(ToForbidden(o.forbiddenRouteName.Read()))
    else None
  }

  /** The title `setPageTitle` writes. */
  function PageTitle(o: Options, to: Target): string {
    var title := GetRouteTitle(AsRoute(to));
    var appTitle := OrElse(o.appTitle.Read(), DefaultAppTitle);
    if title != "" then title + " | " + appTitle else appTitle
  }

  /** `beforeEachGuard` as an outcome: the stages in order, the first that rejects deciding. */
  function Decide(o: Options, w: World, to: Target): Navigation {
    if LoggedIn(o, w) && NeedsInit(o, w) then Redispatch(to)
    else if IsExternalLink(to) then Abort(GetHref(AsRoute(to)).value)
    else if AuthCheck(o, w, to).Some? then AuthCheck(o, w, to).value
    else if PermissionCheck(o, w, to).Some? then PermissionCheck(o, w, to).value
    else Proceed
  }

  /**
   * Each outcome in terms of the target and the hooks: re-dispatch iff logged
   * in with the routes not loaded; otherwise an external link is aborted;
   * otherwise a logged-in visit to the login route goes home, an
   * unauthenticated visit to a protected route goes to login carrying its
   * full path, a route whose permission list is non-empty and not granted
   * goes to the forbidden page, and everything else proceeds.
   */
  lemma DecideSpec(o: Options, w: World, to: Target)
    ensures var nav := Decide(o, w, to);
      var reinit := LoggedIn(o, w) && NeedsInit(o, w);
      var perms := GetPermissions(AsRoute(to));
      && (nav.Redispatch? <==> reinit)
      && (nav.Redispatch? ==> nav.target == to)
      && (nav.Abort? <==> !reinit && IsExternalLink(to))
      && (nav.ToHome? <==>
            !reinit && !IsExternalLink(to) && LoggedIn(o, w) && to.name == o.loginRouteName.Read())
      && (nav.ToLogin? <==> !IsExternalLink(to) && !LoggedIn(o, w) && to.meta.requiresAuth != Some(false))
      && (nav.ToLogin? ==> nav.redirect == to.fullPath && nav.name == o.loginRouteName.Read())
      && (nav.ToForbidden? <==>
            !reinit && !IsExternalLink(to) && AuthCheck(o, w, to).None?
            && |perms| > 0 && !HasPermission(o, w, perms))
      && (nav.Proceed? <==>
            !reinit && !IsExternalLink(to) && AuthCheck(o, w, to).None? && PermissionCheck(o, w, to).None?)
  {
  }

  /**
   * With the default options nothing is ever refused: only an external link
   * is aborted and a visit to 'login' goes home.
   */
  lemma DefaultsArePermissive(w: World, to: Target)
    ensures Decide(DefaultOptions, w, to) ==
      if IsExternalLink(to) then Abort(GetHref(AsRoute(to)).value)
      else if to.name == Some("login") then ToHome
      else Proceed
  {
  }

  /** A route that lists no permissions is never sent to the forbidden page. */
  lemma EmptyPermissionsNeverForbidden(o: Options, w: World, to: Target)
    requires GetPermissions(AsRoute(to)) == []
    ensures !Decide(o, w, to).ToForbidden?
  {
  }

  /**
   * A hook merged in as `undefined` does not fall back to the permissive
   * default: an undefined `isLoggedIn` sends every protected route to the
   * login page, and an undefined `isAuthRouteInitialized` re-dispatches every
   * navigation of a logged-in user.
   */
  lemma UndefinedHooksFailClosed(o: Options, w: World, to: Target)
    ensures Merge(o, NoOptions.(isLoggedIn := Undefined)).isLoggedIn == Undefined
    ensures var o' := Merge(o, NoOptions.(isLoggedIn := Undefined));
      !IsExternalLink(to) && IsAuthRequired(AsRoute(to)) ==> Decide(o', w, to) == ToLogin(o.loginRouteName.Read(), to.fullPath)
    ensures var o' := Merge(o, NoOptions.(isAuthRouteInitialized := Undefined));
      LoggedIn(o, w) ==> Decide(o', w, to) == Redispatch(to)
  {
  }

  /** `collectDefaultAfterLoginRoute` on the list: a flagged target's full path, once. */
  function Collected(paths: seq<string>, to: Target): seq<string> {
    if IsDefaultAfterLogin(AsRoute(to)) && to.fullPath !in paths then paths + [to.fullPath] else paths
  }

  /**
   * Collecting adds the target's full path exactly when it is flagged, keeps
   * the list free of duplicates, and collecting the same target again
   * changes nothing.
   */
  lemma CollectedSpec(paths: seq<string>, to: Target)
    ensures forall p :: p in Collected(paths, to) <==>
              p in paths || (p == to.fullPath && IsDefaultAfterLogin(AsRoute(to)))
    ensures Distinct(paths) ==> Distinct(Collected(paths, to))
    ensures Collected(Collected(paths, to), to) == Collected(paths, to)
    ensures paths <= Collected(paths, to)
  {
  }

  /** The page title always ends with the application title and starts with the route's when it has one. */
  lemma PageTitleSpec(o: Options, to: Target)
    ensures var t := PageTitle(o, to); var app := OrElse(o.appTitle.Read(), DefaultAppTitle);
      && app != ""
      && |app| <= |t| && t[|t| - |app|..] == app
      && (GetRouteTitle(AsRoute(to)) != "" ==> StartsWith(t, GetRouteTitle(AsRoute(to)) + " | "))
      && (GetRouteTitle(AsRoute(to)) == "" ==> t == app)
  {
    var title := GetRouteTitle(AsRoute(to));
    var app := OrElse(o.appTitle.Read(), DefaultAppTitle);
    if title != "" {
      assert PageTitle(o, to) == (title + " | ") + app;
    }
  }

  /**
   * The guard's module state: the current options, the collected default
   * pages, and the page it acts on (the document title, the windows opened,
   * the progress bar, which may be missing).
   */
  class NavigationGuard {
    var options: Options
    var defaultAfterLoginRoutes: seq<string>
    var documentTitle: string
    var openedWindows: seq<string>
    var progressStarts: nat
    var progressDones: nat
    var initAuthRouteCalls: nat
    const hasProgress: bool

    constructor(hasProgress: bool, documentTitle: string)
      ensures this.hasProgress == hasProgress && this.documentTitle == documentTitle
      ensures options == DefaultOptions && defaultAfterLoginRoutes == [] && openedWindows == []
      ensures progressStarts == 0 && progressDones == 0 && initAuthRouteCalls == 0
    {
      this.hasProgress := hasProgress;
      this.documentTitle := documentTitle;
      options := DefaultOptions;
      defaultAfterLoginRoutes := [];
      openedWindows := [];
      progressStarts := 0;
      progressDones := 0;
      initAuthRouteCalls := 0;
    }

    /** `setRouterGuardOptions` (also what `setupRouterGuard` does with its options). */
    method SetRouterGuardOptions(over: Options)
      modifies this
      ensures options == Merge(old(options), over)
      ensures defaultAfterLoginRoutes == old(defaultAfterLoginRoutes) && documentTitle == old(documentTitle)
      ensures openedWindows == old(openedWindows) && initAuthRouteCalls == old(initAuthRouteCalls)
      ensures progressStarts == old(progressStarts) && progressDones == old(progressDones)
    {
      options := Merge(options, over);
    }

    /** `getDefaultAfterLoginRoutes`: a copy of the collected paths. */
    method GetDefaultAfterLoginRoutes() returns (paths: seq<string>)
      ensures paths == defaultAfterLoginRoutes
    {
      paths := defaultAfterLoginRoutes;
    }

    method CollectDefaultAfterLoginRoute(to: Target)
      modifies this
      ensures defaultAfterLoginRoutes == Collected(old(defaultAfterLoginRoutes), to)
      ensures options == old(options) && documentTitle == old(documentTitle)
      ensures openedWindows == old(openedWindows) && initAuthRouteCalls == old(initAuthRouteCalls)
      ensures progressStarts == old(progressStarts) && progressDones == old(progressDones)
    {
      if IsDefaultAfterLogin(AsRoute(to)) {
        var path := to.fullPath;
        if path !in defaultAfterLoginRoutes {
          defaultAfterLoginRoutes := defaultAfterLoginRoutes + [path];
        }
      }
    }

    method SetPageTitle(to: Target)
      modifies this
      ensures documentTitle == PageTitle(options, to)
      ensures options == old(options) && defaultAfterLoginRoutes == old(defaultAfterLoginRoutes)
      ensures openedWindows == old(openedWindows) && initAuthRouteCalls == old(initAuthRouteCalls)
      ensures progressStarts == old(progressStarts) && progressDones == old(progressDones)
    {
      var title := GetRouteTitle(AsRoute(to));
      var appTitle := OrElse(options.appTitle.Read(), DefaultAppTitle);
      if title != "" {
        documentTitle := title + " | " + appTitle;
      } else {
        documentTitle := appTitle;
      }
    }

    method HandleExternalLink(to: Target) returns (handled: bool)
      modifies this
      ensures handled == IsExternalLink(to)
      ensures openedWindows == if handled then old(openedWindows) + [GetHref(AsRoute(to)).value] else old(openedWindows)
      ensures options == old(options) && defaultAfterLoginRoutes == old(defaultAfterLoginRoutes)
      ensures documentTitle == old(documentTitle) && initAuthRouteCalls == old(initAuthRouteCalls)
      ensures progressStarts == old(progressStarts) && progressDones == old(progressDones)
    {
      var openType := GetOpenType(AsRoute(to));
      var href := GetHref(AsRoute(to));
      if openType == "newWindow" && Truthy(href) {
        openedWindows := openedWindows + [href.value];
        return true;
      }
      return false;
    }

    method HandleAuthCheck(to: Target, w: World) returns (redirect: Option<Navigation>)
      ensures redirect == AuthCheck(options, w, to)
    {
      var loggedIn := LoggedIn(options, w);
      if loggedIn && to.name == options.loginRouteName.Read() {
        return Some(ToHome);
      }
      if IsAuthRequired(AsRoute(to)) {
        if !loggedIn {
          return Some(ToLogin(options.loginRouteName.Read(), to.fullPath));
        }
      }
      return None;
    }

    method HandlePermissionCheck(to: Target, w: World) returns (redirect: Option<Navigation>)
      ensures redirect == PermissionCheck(options, w, to)
    {
      var permissions := GetPermissions(AsRoute(to));
      if |permissions| > 0 {
        var hasPermission := HasPermission(options, w, permissions);
        if !hasPermission {
          return Some(ToForbidden(options.forbiddenRouteName.Read()));
        }
      }
      return None;
    }

    method ProgressStart()
      modifies this
      ensures progressStarts == old(progressStarts) + (if hasProgress then 1 else 0)
      ensures progressDones == old(progressDones)
      ensures options == old(options) && defaultAfterLoginRoutes == old(defaultAfterLoginRoutes)
      ensures documentTitle == old(documentTitle) && openedWindows == old(openedWindows)
      ensures initAuthRouteCalls == old(initAuthRouteCalls)
    {
      if hasProgress {
        progressStarts := progressStarts + 1;
      }
    }

    /** `window.NProgress?.done()`; also the whole of `afterEachGuard` and of `onErrorHandler`. */
    method ProgressDone()
      modifies this
      ensures progressDones == old(progressDones) + (if hasProgress then 1 else 0)
      ensures progressStarts == old(progressStarts)
      ensures options == old(options) && defaultAfterLoginRoutes == old(defaultAfterLoginRoutes)
      ensures documentTitle == old(documentTitle) && openedWindows == old(openedWindows)
      ensures initAuthRouteCalls == old(initAuthRouteCalls)
    {
      if hasProgress {
        progressDones := progressDones + 1;
      }
    }

    /**
     * `beforeEachGuard`: the progress bar starts; a logged-in user whose
     * routes are not loaded triggers `initAuthRoute` and the same target is
     * dispatched again, with no other effect; otherwise the title is set,
     * the target collected, and the stages run in order, a rejecting stage
     * closing the progress bar itself.
     */
    method BeforeEach(to: Target, w: World) returns (nav: Navigation)
      modifies this
      ensures nav == Decide(old(options), w, to) && options == old(options)
      ensures progressStarts == old(progressStarts) + (if hasProgress then 1 else 0)
      ensures progressDones == old(progressDones) + (if hasProgress && Rejected(nav) then 1 else 0)
      ensures initAuthRouteCalls
                == old(initAuthRouteCalls) + (if nav.Redispatch? && old(options).initAuthRoute.Defined? then 1 else 0)
      ensures nav.Redispatch? ==>
                documentTitle == old(documentTitle) && defaultAfterLoginRoutes == old(defaultAfterLoginRoutes)
                && openedWindows == old(openedWindows)
      ensures !nav.Redispatch? ==>
                documentTitle == PageTitle(old(options), to)
                && defaultAfterLoginRoutes == Collected(old(defaultAfterLoginRoutes), to)
                && openedWindows == (if nav.Abort? then old(openedWindows) + [nav.href] else old(openedWindows))
    {
      ProgressStart();
      var loggedIn := LoggedIn(options, w);
      if loggedIn && NeedsInit(options, w) {
        if options.initAuthRoute.Defined? {
          initAuthRouteCalls := initAuthRouteCalls + 1;
        }
        return Redispatch(to);
      }
      SetPageTitle(to);
      CollectDefaultAfterLoginRoute(to);
      var external := HandleExternalLink(to);
      if external {
        ProgressDone();
        return Abort(GetHref(AsRoute(to)).value);
      }
      var auth := HandleAuthCheck(to, w);
      if auth.Some? {
        ProgressDone();
        return auth.value;
      }
      var permission := HandlePermissionCheck(to, w);
      if permission.Some? {
        ProgressDone();
        return permission.value;
      }
      return Proceed;
    }
  }

  /**
   * One navigation: the guard's decision, followed, when it proceeds, by the
   * `afterEach` hook's `done`. Every navigation that is not re-dispatched
   * ends the progress bar as many times as it started it.
   */
  method Navigate(g: NavigationGuard, to: Target, w: World) returns (nav: Navigation)
    modifies g
    ensures nav == Decide(old(g.options), w, to)
    ensures !nav.Redispatch? ==>
              g.progressDones - old(g.progressDones) == g.progressStarts - old(g.progressStarts)
    ensures g.progressStarts == old(g.progressStarts) + (if g.hasProgress then 1 else 0)
  {
    nav := g.BeforeEach(to, w);
    if nav.Proceed? {
      g.ProgressDone();
    }
  }
}
