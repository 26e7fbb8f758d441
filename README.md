# trix route authorisation and tab session, in Dafny

This project models the core of the trix admin shell, a Vue application whose
pages are described by JSON schemas:

- **Route pipeline.** The permission filter prunes a route forest against the
  user's roles. A stable sort orders each level by `meta.order`. Registration
  first runs every stored removal callback, then registers each top-level route
  of the constant and authorised routes, and adds the `not-found` catch-all
  last. Menus, the search index, the selected key path, the breadcrumbs and the
  view-cache name lists are projected from the registered routes.
- **Tab session store.** It keeps home, default, fixed and regular tabs and
  their retain rules. It offers the bulk-close operations and the
  login-gated persistence snapshot, and it keeps the cache lists in step.
- **Navigation guard.** Each navigation goes through one ordered decision:
  re-initialise the routes, open an external link, redirect to login,
  redirect to forbidden, or proceed. It also sets the page title and keeps the
  progress bar balanced.
- **Smaller stores and helpers.** The model also covers:
  - the route meta accessors with their defaults;
  - response-envelope parsing and the request/response adapter;
  - the notification message store;
  - the schema loader's last-call-wins state machine;
  - the mixed menu's key derivation;
  - the theme toggles and watermark;
  - the table hook's column-check merge;
  - the decisions inside the schema methods: which neighbour a closed tab
    hands over to, URL prefixing, and the download filename chain.

Each source file keeps its own form in the model:

- Code that is only expressions and recursion becomes datatypes, functions
  and lemmas.
- A store or hook whose refs change becomes a `class` whose methods state the
  whole new state in terms of specification functions. Lemmas then prove what
  the source promises about those functions.
- A loop in the source becomes a `while`/`for` loop with its invariants.

The collaborators are made explicit:

- vue-router is the `RouterRecords.RouterTable` class, a table of records with
  removal callbacks.
- The remote menu fetch, the API call and the schema fetch are outcome
  parameters.
- localStorage is an optional snapshot.
- `window.$message` and the other window, router and tab calls of the schema
  methods are recorded as call logs.

Modules, one per file: `Wrappers`, `Seqs`, `JsText` (JavaScript `split`,
`replace(/\/+/g, '/')` and path joining), `RouteTypes`, `RouterHelper`,
`RouteFilter`, `RouteSort`, `RouteMenu`, `RouteCache`, `RouteTransform`,
`RouterRecords`, `RouteCacheLists`, `RouteStore`, `TabStore`, `Guard`,
`MixMenu`, `ResponseFormat`, `RequestAdapter`, `Notifications`,
`SchemaLoader`, `Theme`, `UseTable`, `SchemaMethods`.

## Model

| member | source | states |
|---|---|---|
| ResponseFormat.Or | src/config/response.ts:97 | `v \|\| fallback`: a truthy value is kept, anything falsy gives the fallback |
| ResponseFormat.OrNullish | src/config/response.ts:104 | `v ?? fallback`: anything but `null` and `undefined` is kept |
| ResponseFormat.GetValueByPath | src/config/response.ts:66-78 | the loop over the dot-separated keys computes the path's value: `undefined` for a falsy object or an empty path, and `undefined` as soon as a step reaches `null` or `undefined` |
| ResponseFormat.WalkUndefined | src/config/response.ts:73 | once a step reaches `undefined`, every later key leaves it `undefined` |
| ResponseFormat.WalkConcat | src/config/response.ts:72-75 | walking two key lists one after the other is the same as walking them joined |
| ResponseFormat.WalkFromFalsy | src/config/response.ts:73-74 | walking at least one key from a falsy start never yields a value |
| ResponseFormat.ValueAtSpec | src/config/response.ts:67-77 | a falsy object or an empty path gives `undefined`; a path without a dot reads that one property |
| ResponseFormat.ValueAtCompose | src/config/response.ts:69-75 | the path `p.q` reads `q` from what `p` reads, so nested paths such as `result.code` compose |
| ResponseFormat.NestedPath | src/config/response.ts:31-38 | a nested field path reads the value stored under the inner key of the outer object |
| ResponseFormat.ParseResponseSpec | src/config/response.ts:86-106 | `success` holds exactly when the code read under the configured path equals the configured success code, and then `code` is that success code; `code` is never nullish; the message is truthy or empty; `data` is what the data path reads |
| ResponseFormat.DefaultSuccess | src/config/response.ts:47-58 | under the default format a response succeeds exactly when `code` is the number 0, so the string `"0"` fails (strict equality) |
| ResponseFormat.EmptyResponse | src/config/response.ts:86-106 | `null`, `undefined` and `{}` all parse to failure, no data, an empty message and an empty code |
| ResponseFormat.MissingSuccessCode | src/config/response.ts:95-98 | with no success code configured, a response succeeds exactly when its code is missing, and its code then reads as `''` |
| ResponseFormat.PaginationSpec | src/config/response.ts:114-129 | each of the four fields is the value read under its path when that is truthy, and its fallback (`[]`, 0, 1, 10) otherwise; list, page and page size are always truthy, and the page is never 0 |
| ResponseFormat.EmptyPagination | src/config/response.ts:114-129 | an empty object paginates to an empty list, total 0, page 1 and page size 10 |
| ResponseFormat.CreateResponseConfigSpec | src/config/response.ts:136-147 | each top-level field given (even as `undefined`) overrides the default and each left out keeps it; the result always has a pagination block: the default one, or the given one spread over the default field by field |
| ResponseFormat.CreateEmptyIsDefault | src/config/response.ts:136-147 | `createResponseConfig({})` is the default configuration |
| ResponseFormat.PartialPaginationKeepsDefaults | src/config/response.ts:143-145 | a partial pagination block keeps the default page fields under `createResponseConfig`, while a plain shallow spread would lose them |
| RequestAdapter.Headers.constructor | src/service/request/adapter.ts:90 | the fresh headers object starts as a copy of the given entries |
| RequestAdapter.Headers.Set | src/service/request/adapter.ts:98 | writing one header replaces the value under that name and leaves every other entry alone |
| RequestAdapter.Headers.Assign | src/service/request/adapter.ts:104 | `Object.assign` merges the custom headers in, and they win over entries already present |
| RequestAdapter.Intercept | src/service/request/adapter.ts:87-114 | the interceptor builds a fresh headers object from a copy of the caller's headers, then the token header, then the custom headers; `beforeRequest`, when there is one, gets that request and its answer is returned; no existing object is changed |
| RequestAdapter.BuiltHeadersSpec | src/service/request/adapter.ts:88-105 | a custom header always wins; the token header holds the prefixed token exactly when `addToken` holds and a non-empty token is stored; every other header keeps the caller's value or stays missing |
| RequestAdapter.DefaultTokenHeader | src/service/request/adapter.ts:57-61 | under the defaults a stored token becomes `Authorization: Bearer <token>`; with no token, or an empty one, the headers stay as they were |
| RequestAdapter.TokenSwitches | src/service/request/adapter.ts:93-99 | `addToken: false` makes the stored token irrelevant; an empty `tokenPrefix` stores the bare token |
| RequestAdapter.OnFulfilled | src/service/request/adapter.ts:122-125 | the response is handed back unchanged, and the success hook runs exactly when one is configured |
| RequestAdapter.OnRejectedSpec | src/service/request/adapter.ts:126-139 | the expiry hook runs, and runs first, exactly when the status equals the configured expiry status and a hook is given; the error hook runs, and runs last, exactly when one is given; a message is shown exactly when automatic handling is on (the default) and the message API exists, and the message is the one getErrorMessage picks; the success hook never runs |
| RequestAdapter.DefaultExpiryStatus | src/service/request/adapter.ts:63-67 | under the default configuration, status 401 and no other triggers the expiry hook, and a failure without a response never does |
| RequestAdapter.Decimal | src/service/request/adapter.ts:169 | a status is spelled as a non-empty string of decimal digits, with no leading zero |
| RequestAdapter.DecimalRoundTrip | src/service/request/adapter.ts:169 | reading the digits back gives the status, so the spelling loses nothing |
| RequestAdapter.StatusTextSpec | src/service/request/adapter.ts:150-171 | a status outside the table reads as `请求失败: ` followed by its digits, and two such statuses with the same text are the same status |
| RequestAdapter.ErrorMessageSpec | src/service/request/adapter.ts:143-179 | the message comes, in order, from a truthy `message` of an object body, the status text of a response, the timeout text for an `AbortError`, the error's own message, and last `未知错误`; the result is never empty |
| RequestAdapter.AdapterSettings.constructor | src/service/request/adapter.ts:69 | the global adapter configuration starts as `{}` |
| RequestAdapter.AdapterSettings.SetupInterceptors | src/service/request/adapter.ts:76-82 | the configuration is stored as given, and an omitted one stores `{}` |
| RequestAdapter.ResponseAdapter.constructor | src/service/request/adapter.ts:188-190 | the adapter holds the given format configuration, or the default one when none is given |
| RequestAdapter.ResponseAdapter.ParsePagination | src/service/request/adapter.ts:196-201 | it fails exactly when the held configuration has no pagination block; otherwise the page number is never zero and the list is always truthy |
| RequestAdapter.ResponseAdapter.UpdateConfig | src/service/request/adapter.ts:220-222 | the held configuration becomes the shallow spread of the update over it |
| RequestAdapter.CreateResponseAdapter | src/service/request/adapter.ts:225-227 | a new adapter is made, holding the given configuration or the default one |
| RequestAdapter.AdapterAgreesWithParse | src/service/request/adapter.ts:192-218 | `isSuccess`, `getData`, `getMessage` and `getCode` each agree with the matching field of `parseResponse` under the adapter's configuration |
| RequestAdapter.UpdateConfigSpec | src/service/request/adapter.ts:220-222 | an empty update changes nothing, and repeating an update changes nothing more; a given pagination block replaces the held one outright; a field left out is kept; `pagination: undefined` removes pagination |
| JsText.CollapseSlashes | src/store/modules/route/shared.ts:150 | collapsing runs of `/` never lengthens the text and keeps its first character |
| JsText.CollapseNoDoubleSlash | src/store/modules/route/shared.ts:150 | the collapsed text has no two `/` in a row |
| JsText.CollapseKeepsNonSlash | src/store/modules/route/shared.ts:150 | collapsing keeps every character that is not `/`, in order |
| JsText.CollapseFixesClean | src/store/modules/route/shared.ts:150 | text without two `/` in a row is left as it is |
| JsText.CollapseIdempotent | src/store/modules/route/shared.ts:150 | collapsing twice is collapsing once |
| JsText.JoinPath | src/store/modules/route/shared.ts:148-150 | the joined path is never empty; an absolute path is kept; a relative one gives a path without `//` whose other characters are the parent's followed by the path's |
| JsText.NonSlashConcat | src/store/modules/route/shared.ts:150 | the characters other than `/` of a concatenation are those of its parts |
| JsText.Split | src/layouts/modules/global-menu/context/index.ts:33 | `split` always gives at least one part |
| JsText.SplitNoSep | src/layouts/modules/global-menu/context/index.ts:33 | no part holds the separator |
| JsText.SplitSnoc | src/hooks/json/useSchemaMethods.ts:301-302 | one more character either starts a new part (the separator) or extends the last part |
| JsText.SplitJoin | src/layouts/modules/global-menu/context/index.ts:63-69 | joining the parts with the separator gives the text back |
| JsText.Before | src/hooks/json/useSchemaMethods.ts:301 | the first part is the longest prefix without the separator, followed in the text by the separator when it is shorter |
| JsText.SplitFirst | src/layouts/modules/global-menu/context/index.ts:33 | the first part of `split` is that prefix |
| JsText.BeforeNoSep | src/hooks/json/useSchemaMethods.ts:301 | text without the separator is its own first part |
| JsText.BeforeSnoc | src/hooks/json/useSchemaMethods.ts:301 | appending to text without the separator extends the first part unless the character is the separator |
| JsText.BeforeExtend | src/hooks/json/useSchemaMethods.ts:301 | once the separator occurs, appending does not change the first part |
| JsText.JoinHasSep | src/layouts/modules/global-menu/context/index.ts:63-69 | two or more parts joined hold the separator |
| JsText.SplitSingle | src/layouts/modules/global-menu/context/index.ts:64 | there is one part exactly when the text lacks the separator |
| JsText.AppendCharConcat | src/hooks/json/useSchemaMethods.ts:301-302 | extending the last part only touches the last list |
| JsText.SplitConcat | src/layouts/modules/global-menu/context/index.ts:63-69 | split of two texts around a separator is the concatenation of their splits |
| JsText.LastPartSnoc | src/hooks/json/useSchemaMethods.ts:302 | the last part after one more character is empty for a separator and extended otherwise |
| JsText.LastPartAbsent | src/hooks/json/useSchemaMethods.ts:302 | the last part holds neither the separator nor any character the text lacks |
| JsText.SplitLast | src/hooks/json/useSchemaMethods.ts:302 | the last part is a suffix of the text, preceded by the separator when it is shorter |
| JsText.SplitKeepsAbsent | src/layouts/modules/global-menu/context/index.ts:33 | no part holds a character the text lacks |
| JsText.AppendChar | src/hooks/json/useSchemaMethods.ts:301-302 | extending a non-empty list of parts keeps it non-empty |
| RouteMenu.GetMenusByRoutes | src/store/modules/route/shared.ts:137-164 | the loop over the routes builds exactly the menu forest `Menus` defines: a root group's children spliced in at its place, routes hidden in the menu dropped, every other route one menu whose path joins the parent path |
| RouteMenu.MenusFlatShift | src/store/modules/route/shared.ts:137-164 | the pre-order listing of a concatenation, taken from inside its second part, is that part's own listing |
| RouteMenu.MenusFlatConcatFrom | src/store/modules/route/shared.ts:137-164 | the pre-order listing of a concatenation from position i is the first part's listing from i followed by the whole second part's |
| RouteMenu.MenusFlatConcat | src/store/modules/route/shared.ts:137-164 | the pre-order listing of two forests side by side is the concatenation of their listings |
| RouteMenu.MenusFromRoutes | src/store/modules/route/shared.ts:137-164 | every menu, at any depth, of the forest built from the routes is the projection of some route of the flattened route tree |
| RouteMenu.NodeMenusFromRoute | src/store/modules/route/shared.ts:142-160 | every menu built from one route and its descendants projects a route of that route's subtree |
| RouteMenu.NodeMenuShape | src/store/modules/route/shared.ts:148-188 | a visible route that is not the root group gives exactly one menu, the projection of that route, with the joined parent path; it has children exactly when some child is visible, and they are the menus of its children under its own path |
| RouteMenu.HiddenContributesNothing | src/store/modules/route/shared.ts:152-160 | a route hidden in the menu contributes no menu |
| RouteMenu.RootGroupIsTransparent | src/store/modules/route/shared.ts:142-145 | the route named `root` contributes exactly the menus of its children, under the unchanged parent path |
| RouteMenu.SearchMenusInto | src/store/modules/route/shared.ts:386-398 | pushing a forest into the shared list appends exactly its entries without children, in pre-order |
| RouteMenu.SearchMenuInto | src/store/modules/route/shared.ts:388-396 | the reduce callback for one menu appends exactly the entries without children of that menu's subtree, in pre-order |
| RouteMenu.SearchAdvance | src/store/modules/route/shared.ts:388-396 | one reduce step keeps the accumulated list on course to the final list |
| RouteMenu.SearchEntriesOf | src/store/modules/route/shared.ts:389-394 | a menu without children is its own only search entry; a menu with children contributes exactly its children's entries and not itself |
| RouteMenu.TransformMenuToSearchMenus | src/store/modules/route/shared.ts:386-398 | the search list is the pre-order listing of the menus filtered to those without children |
| RouteMenu.SearchMenusExactly | src/store/modules/route/shared.ts:386-398 | a menu is in the search list exactly when it is somewhere in the tree and has no children |
| RouteMenu.Dfs | src/store/modules/route/shared.ts:306-324 | the depth-first search succeeds exactly when the subtree holds the key; on success the path has the chain from this menu down to the first pre-order match appended, on failure it is given back as it was (push and pop balance) |
| RouteMenu.FindMenuPath | src/store/modules/route/shared.ts:303-331 | the result is the key chain from the menu to its first pre-order match, or nothing when the subtree does not hold the key |
| RouteMenu.GetSelectedMenuKeyPath | src/store/modules/route/shared.ts:279-295 | the key path is the chain found in the first top-level menu that holds the key, or empty |
| RouteMenu.MenuPathShape | src/store/modules/route/shared.ts:306-324 | a chain starts with the key of the menu searched from and ends with the selected key |
| RouteMenu.ChildPathShape | src/store/modules/route/shared.ts:283-292 | a chain found among menus ends with the selected key and starts with the key of one of them |
| RouteMenu.MenuPathFound | src/store/modules/route/shared.ts:306-324 | no chain is found exactly when no menu of the subtree carries the key |
| RouteMenu.ChildPathFound | src/store/modules/route/shared.ts:283-292 | no chain is found among menus exactly when none of their subtrees carries the key |
| RouteMenu.KeyPathSpec | src/store/modules/route/shared.ts:279-295 | the key path is empty exactly when no menu anywhere carries the key; otherwise it ends at the key and starts at a top-level menu |
| RouteMenu.CrumbRoundTrip | src/store/modules/route/shared.ts:366-378 | a breadcrumb keeps all of its menu's fields and its children, as options, so the menu can be rebuilt from it when no `children` array is empty |
| RouteMenu.CrumbKeys | src/store/modules/route/shared.ts:339-359 | the keys of a breadcrumb list, position by position |
| RouteMenu.CrumbKeysCons | src/store/modules/route/shared.ts:349-352 | prepending a menu's breadcrumb prepends its key |
| RouteMenu.BreadcrumbsFollowKeyPath | src/store/modules/route/shared.ts:339-359 | the breadcrumbs of a route name carry exactly the keys of the selected key path of that name, and are empty exactly when there is no such path |
| RouterHelper.AccessorDefaults | src/router/helper.ts:12-116 | on a route with no metadata every accessor gives its default: authentication required, the boolean flags off, layout and open type `normal`, an empty title and permission list, no schema source and no link |
| RouterHelper.AccessorsReturnSetValues | src/router/helper.ts:12-116 | set values come back as set: non-empty strings and the permission list as given, `requiresAuth: false` switches authentication off, and a literal `false` keeps each other flag off |
| RouterHelper.FlattenSize | src/router/helper.ts:146-160 | the flattened list holds exactly one entry per route of the forest, at every depth |
| RouterHelper.FlattenNodeSize | src/router/helper.ts:150-155 | one route contributes itself and every route below it, once each |
| RouterHelper.FlattenHoldsRoots | src/router/helper.ts:150-151 | every top-level route is in the flattened list |
| RouterHelper.FlattenSingle | src/router/helper.ts:146-160 | flattening a one-route forest is the pre-order listing of that route |
| RouterHelper.FlattenConcat | src/router/helper.ts:149-156 | flattening two forests one after the other is flattening their concatenation |
| RouterHelper.FlattenPrefix | src/router/helper.ts:149-156 | flattening the first n routes depends on those routes only |
| RouterHelper.FlattenPrefixAt | src/router/helper.ts:149-156 | two forests with the same first n routes flatten the same up to n |
| RouterHelper.FindRouteByPath | src/router/helper.ts:168-171 | the route found has the path and is in the forest, and it is the first such route in pre-order; nothing is found exactly when no route has the path |
| RouterHelper.FindRouteByName | src/router/helper.ts:179-182 | the route found has the name and is in the forest, and it is the first such route in pre-order; nothing is found exactly when no route has the name |
| RouterHelper.DefaultAfterLoginIsFilteredFlatten | src/router/helper.ts:123-139 | the routes collected by the traversal are exactly the flattened forest's routes flagged `isDefaultAfterLogin`, in pre-order |
| RouterHelper.DefaultAfterLoginNodeIsFiltered | src/router/helper.ts:127-134 | one route contributes itself when flagged, then the flagged routes below it |
| RouteFilter.FilterNodeSurvival | src/store/modules/route/shared.ts:86-107 | a route yields at most one copy; it survives exactly when its roles are empty or share a role with the user and its children are not left empty (an empty `children` array drops it too); the copy differs from the route in its children only, and a route without children is kept as it is |
| RouteFilter.FilterForestEmpty | src/store/modules/route/shared.ts:76-78 | the filtered forest is empty exactly when every top-level route is dropped |
| RouteFilter.LeafSurvives | src/store/modules/route/shared.ts:102-106 | a route without children whose roles admit the user is kept unchanged |
| RouteFilter.FilteredForestAuthorized | src/store/modules/route/shared.ts:76-107 | every route left in the filtered tree, at any depth, admits the user's roles |
| RouteFilter.FilteredNodeAuthorized | src/store/modules/route/shared.ts:86-107 | every route left below one filtered route admits the user's roles |
| RouteFilter.FilterPreservesOrder | src/store/modules/route/shared.ts:76-107 | filtering never invents or reorders routes: listed in pre-order, and with children set aside, the filtered forest is the original with some routes left out |
| RouteFilter.FilterNodePreservesOrder | src/store/modules/route/shared.ts:95-106 | the same for the subtree of one route |
| RouteFilter.OrderConcat | src/store/modules/route/shared.ts:77 | `flatMap` joins the filtered parts in order, so the order property carries over from the parts to the whole |
| RouteFilter.SubsequenceConcat | src/store/modules/route/shared.ts:77 | two subsequences joined are a subsequence of the two sources joined |
| RouteFilter.FilterKeepsOpenForest | src/store/modules/route/shared.ts:76-107 | a forest whose every route, at any depth, is admitted by the roles and has no empty `children` array comes back unchanged |
| RouteFilter.FilterKeepsOpenNode | src/store/modules/route/shared.ts:86-107 | the same for one route and its subtree |
| RouteFilter.FilterIdempotent | src/store/modules/route/shared.ts:76-107 | under a fixed role list, filtering the filtered forest again gives the same forest |
| RouteSort.Insert | src/store/modules/route/shared.ts:115 | inserting one element into a sorted prefix gives one element more |
| RouteSort.SortBy | src/store/modules/route/shared.ts:115 | the sort keeps the length |
| RouteSort.StableSort | src/store/modules/route/shared.ts:115 | the top-level reordering keeps the length |
| RouteSort.SortNode | src/store/modules/route/shared.ts:124-129 | sorting a route's subtree leaves its own order key and every field but its children as they were |
| RouteSort.MapEach | src/store/modules/route/shared.ts:116 | `forEach` of a per-route update changes each element by the update and keeps positions |
| RouteSort.SortEach | src/store/modules/route/shared.ts:116 | every route of the array gets its subtree sorted, in place |
| RouteSort.InsertPermutes | src/store/modules/route/shared.ts:115 | inserting adds exactly the inserted element |
| RouteSort.SortPermutes | src/store/modules/route/shared.ts:115 | the sort is a permutation |
| RouteSort.InsertSorted | src/store/modules/route/shared.ts:115 | inserting into a sorted list keeps it sorted and adds nothing else |
| RouteSort.SortSorted | src/store/modules/route/shared.ts:115 | the result is sorted by `Number(meta.order) \|\| 0`, ascending |
| RouteSort.InsertStable | src/store/modules/route/shared.ts:115 | inserting keeps the elements of each key in their order, the new one last |
| RouteSort.SortStable | src/store/modules/route/shared.ts:115 | routes with equal keys keep their relative order, as `Array.prototype.sort` promises |
| RouteSort.SortForestSpec | src/store/modules/route/shared.ts:114-118 | the top level is a stable, sorted permutation of the routes with their subtrees sorted |
| RouteSort.SortNodeDeep | src/store/modules/route/shared.ts:124-129 | after `sortRouteByOrder` every non-empty `children` array below the route is sorted |
| RouteSort.SortForestDeep | src/store/modules/route/shared.ts:114-129 | after `sortRoutesByOrder` the array and every children array at any depth are sorted |
| RouteSort.InsertMap | src/store/modules/route/shared.ts:115-116 | updating every element in a way that keeps its key commutes with inserting |
| RouteSort.SortMap | src/store/modules/route/shared.ts:115-116 | updating every element in a way that keeps its key commutes with sorting |
| RouteSort.SortCommutes | src/store/modules/route/shared.ts:115-116 | sorting the top level first and then the subtrees gives what sorting the subtrees first would |
| RouteSort.InsertAt | src/store/modules/route/shared.ts:115 | the insertion point is right after the last element whose key is at most the new one's |
| RouteSort.InsertLast | src/store/modules/route/shared.ts:115 | the shifting loop inserts the element at position i into the sorted prefix, in place, leaving the rest of the array alone |
| RouteSort.SortArray | src/store/modules/route/shared.ts:115 | the in-place insertion sort leaves the array holding the stable sort of its old contents |
| RouteSort.SortForestEach | src/store/modules/route/shared.ts:114-118 | the sorted forest is the stable sort of the routes with their subtrees sorted |
| RouteSort.MapArray | src/store/modules/route/shared.ts:116 | the `forEach` loop replaces each element by its update, in place |
| RouteSort.SortRoutesByOrder | src/store/modules/route/shared.ts:114-118 | the array ends up holding the sorted forest: sorted, stable, a permutation, every subtree sorted (by SortForestSpec, SortForestDeep) |
| RouterRecords.IdRange | src/store/modules/route/index.ts:429-434 | the removal callbacks handed out for a forest registered in one go are consecutive, one per top-level route |
| RouterRecords.FilterIdsBelow | src/store/modules/route/index.ts:443 | removing records never brings back an id at or above the next fresh one |
| RouterRecords.RegisteredSpec | src/store/modules/route/index.ts:431 | `router.addRoute` keeps every other record in order, drops exactly the records of the same name (none for an unnamed route), and puts the new record last, so afterwards the name resolves to just that record |
| RouterRecords.RemovedAllSpec | src/store/modules/route/index.ts:189 | after the removal callbacks run, exactly the records with other ids are left |
| RouterRecords.RemovedAllIdsBelow | src/store/modules/route/index.ts:189 | running removal callbacks never brings back an id at or above the next fresh one |
| RouterRecords.RegisterAllHolds | src/store/modules/route/index.ts:429-434 | after a forest is registered, each top-level route is in the table under its own callback unless a later route of the same name replaced it |
| RouterRecords.RouterTable.constructor | src/store/modules/route/index.ts:87 | the router starts with no records and hands out ids from 0 |
| RouterRecords.RouterTable.AddRoute | src/store/modules/route/index.ts:431 | `addRoute` hands out a fresh id that no record holds and updates the table as RegisteredSpec says |
| RouterRecords.RouterTable.RemoveById | src/store/modules/route/index.ts:189 | a removal callback drops exactly the record it was handed out for |
| RouterRecords.RouterTable.RemoveRoute | src/store/modules/route/index.ts:442-443 | `removeRoute(name)` drops exactly the records of that name |
| RouteCache.CollectNames | src/store/modules/route/shared.ts:198-210 | the `forEach` over a list appends to the accumulator the names of the routes satisfying the test, in pre-order (each route before its children) |
| RouteCache.CollectNode | src/store/modules/route/shared.ts:199-209 | one route's callback appends its own name when it passes, then the names collected from its non-empty children |
| RouteCache.NodeNames | src/store/modules/route/shared.ts:202-208 | the names one route contributes are its own (when it passes) followed by those of its children |
| RouteCache.GetCacheRouteNames | src/store/modules/route/shared.ts:195-215 | the cached names are the names of every route, at any depth, that has a component and a name and is not `keepAlive: false`, in pre-order |
| RouteCache.GetExcludeCacheRouteNames | src/store/modules/route/shared.ts:222-241 | the excluded names are those of every route with a component and a name that says `keepAlive: false`, in pre-order |
| RouteCache.CacheSplit | src/store/modules/route/shared.ts:202-228 | every route with a component and a name is in exactly one of the two lists; any other route is in neither |
| RouteCache.ExistsIffListed | src/store/modules/route/shared.ts:249-271 | a name exists in a forest exactly when some route of its pre-order listing carries it |
| RouteCache.ExistsNodeIffListed | src/store/modules/route/shared.ts:259-271 | a name exists under one route exactly when that route or one below it carries it |
| RouteCache.IsRouteExistAgreesWithFind | src/store/modules/route/shared.ts:249-251 | `isRouteExistByRouteName` holds exactly when `findRouteByName` finds a route |
| RouteCacheLists.RemovedSpec | src/store/modules/route/index.ts:141-147 | removing an absent name changes nothing; otherwise exactly one copy goes, the first one, and the rest keep their order |
| RouteCacheLists.RestoredSpec | src/store/modules/route/index.ts:153-158 | a name is added back exactly when it is neither in the base exclude list nor already cached; restoring never makes a second copy, and restoring twice is the same as restoring once |
| RouteCacheLists.RemoveThenRestore | src/store/modules/route/index.ts:141-158 | closing and then reopening a tab whose name was cached once, and is not excluded, gives back the same cached names (in the same numbers, though at the end of the list) |
| RouteCacheLists.CacheLists.constructor | src/store/modules/route/index.ts:104-110 | all three name lists start empty |
| RouteCacheLists.CacheLists.GetCacheRoutes | src/store/modules/route/index.ts:116-120 | the cached names are the pre-order names of the keep-alive routes, the base exclude list is the names of the non-keep-alive routes, and the exclude list is a copy of the base list |
| RouteCacheLists.CacheLists.BeginResetRouteCache | src/store/modules/route/index.ts:126-129 | the synchronous part of resetRouteCache appends the route key, or else the current route's name, to the exclude list and changes nothing else |
| RouteCacheLists.CacheLists.FinishResetRouteCache | src/store/modules/route/index.ts:131-134 | after the timer, the exclude list is a copy of the base exclude list again |
| RouteCacheLists.CacheLists.RemoveCacheRoute | src/store/modules/route/index.ts:141-147 | the cached list loses its first copy of the name (see RemovedSpec); the other two lists are left alone |
| RouteCacheLists.CacheLists.RestoreCacheRoute | src/store/modules/route/index.ts:153-158 | the cached list gains the name under the conditions of RestoredSpec; the other two lists are left alone |
| RouteCacheLists.CacheLists.Clear | src/store/modules/route/index.ts:175-177 | the store reset empties all three lists |
| RouteStore.MapKeysSpec | src/store/modules/route/index.ts:56-64 | the map's keys, in insertion order, are exactly the named routes' names, each once |
| RouteStore.MapOfSpec | src/store/modules/route/index.ts:56-62 | a name is a key exactly when it is non-empty and some route carries it, and it maps to the last route of that name |
| RouteStore.DedupeSpec | src/store/modules/route/index.ts:55-65 | the deduplicated list has distinct, non-empty names; each entry is the last route of its name in the input, and every named route's name is present |
| RouteStore.DedupeByName | src/store/modules/route/index.ts:55-65 | filling the map in list order and reading its values back gives the deduplicated list |
| RouteStore.RoutesOfConcat | src/store/modules/route/index.ts:266-288 | the routes of two collected lists side by side are the two lists' routes concatenated |
| RouteStore.DefaultRoutesAreFlagged | src/store/modules/route/index.ts:266-288 | the collected routes are exactly the routes of the flattened tree, in pre-order, that are flagged `isDefaultAfterLogin` and have a name |
| RouteStore.DefaultNodeIsFlagged | src/store/modules/route/index.ts:270-282 | one route and its descendants contribute exactly their flagged, named routes, in pre-order |
| RouteStore.RoutesFiltered | src/store/modules/route/index.ts:266-288 | collecting two lists side by side filters their concatenation |
| RouteStore.DefaultNodePath | src/store/modules/route/index.ts:271-276 | a flagged route is recorded with the path joined to its parent's, and an absolute path is kept as it is |
| RouteStore.FindInIsFind | src/store/modules/route/index.ts:372-383 | the recursive lookup by name returns the first route of that name in the pre-order listing of the tree |
| RouteStore.FindInNodeIsFind | src/store/modules/route/index.ts:374-380 | the lookup in one route and its descendants returns the first match of its pre-order listing |
| RouteStore.FindInSpec | src/store/modules/route/index.ts:372-383 | nothing is found exactly when no route of the tree has the name; otherwise the result is a route with the name and no earlier route in pre-order has it |
| RouteStore.FindInAgreesWithHelper | src/store/modules/route/index.ts:372-383 | the store's lookup by name and the router helper's lookup by name agree on every forest |
| RouteStore.FullPathNonEmpty | src/store/modules/route/index.ts:391-406 | the full path of a name is never empty |
| RouteStore.FullPathFirstAnswer | src/store/modules/route/index.ts:391-406 | the full path comes from the first route that is named so or has children: the name's own joined path, the search of that route's children, or `/name` when no route answers |
| RouteStore.FullPathStaysInFirstGroup | src/store/modules/route/index.ts:400-403 | a route with children that does not hold the name ends the search with `/name`, although a later top-level route has the name and a path of its own |
| RouteStore.AfterSort | src/store/modules/route/index.ts:411-423 | the routes as seen after sorting keep their number |
| RouteStore.RouteStore.constructor | src/store/modules/route/index.ts:87-90 | the home route is the environment's value or `home`; every list is empty and neither initialisation has run |
| RouteStore.RouteStore.SetRouteHome | src/store/modules/route/index.ts:44-46 | only the home route changes |
| RouteStore.RouteStore.AddConstantRoutes | src/store/modules/route/index.ts:55-65 | the constant routes become the deduplicated input, and nothing else changes |
| RouteStore.RouteStore.AddAuthRoutes | src/store/modules/route/index.ts:74-84 | the authorised routes become the deduplicated input, and nothing else changes |
| RouteStore.RouteStore.GetGlobalMenus | src/store/modules/route/index.ts:99-101 | the menus become the menu forest of the routes |
| RouteStore.RouteStore.ResetVueRoutes | src/store/modules/route/index.ts:188-191 | every recorded registration is undone and the list of removal callbacks emptied; the id counter is kept |
| RouteStore.RouteStore.AddRoutesToVueRouter | src/store/modules/route/index.ts:429-434 | each route is registered in order under the next id, and one removal callback per route is appended |
| RouteStore.RouteStore.HandleConstantAndAuthRoutes | src/store/modules/route/index.ts:411-423 | the constant and authorised routes, sorted, replace the previous registrations, become the menus, and give the cache and base exclusion lists; the exclusion list restarts from the base list |
| RouteStore.RouteStore.AddNotFoundRoute | src/store/modules/route/index.ts:440-448 | any router record named `not-found-catch` is removed and the catch-all is registered last under the next id, with its removal callback recorded |
| RouteStore.RouteStore.InitConstantRoute | src/store/modules/route/index.ts:196-208 | runs once: afterwards it is marked done; the first run sets the constant routes from the (empty) static routes, removes the previously registered routes, registers the sorted constant and authorised routes with fresh removal callbacks, rebuilds the menus and the three cache lists from them; a later run changes nothing, router and cache lists included |
| RouteStore.RouteStore.ResetStore | src/store/modules/route/index.ts:168-183 | the authorised routes are gone and the router's registered routes removed; the constant routes are set up again, registered with fresh removal callbacks, and the menus and cache lists rebuilt from them alone; the store is marked constant-initialised but not auth-initialised |
| RouteStore.RouteStore.CollectDefaultAfterLoginRoutes | src/store/modules/route/index.ts:266-288 | the collected pairs are the flagged routes with their full paths, recorded in the store and returned |
| RouteStore.RouteStore.InitHomeTabFromRoutes | src/store/modules/route/index.ts:348-365 | with a route of the home name, the home tab is made from it and its full path with `首页` as the default title; without one it stays as it was; the tab list is untouched |
| RouteStore.RouteStore.InitDefaultTabs | src/store/modules/route/index.ts:297-325 | without flagged routes the home tab is initialised; with them the home tab is cleared, each flagged route added as a default tab, and the default tabs merged into the tab list when the tab bar is visible |
| RouteStore.RouteStore.InitAuthRoute | src/store/modules/route/index.ts:213-256 | the authorised routes come from the menu API, or from the dynamic routes when it is not configured or fails, filtered by the user's permissions; the router then holds the earlier records minus the removed ones plus the sorted constant and authorised routes, with the catch-all last, and one removal callback per registration; menus and cache lists are rebuilt from the sorted routes; the store is marked auth-initialised; the flagged routes become the default tabs and, when visible, open tabs; with no flagged route the home tab is the one of the home route |
| RouteStore.RouteStore.RegisterAuthRoutes | src/store/modules/route/index.ts:244-251 | the authorised routes are the deduplicated filtered routes; the router holds the earlier records minus the removed ones, the sorted routes without any earlier catch-all, and the catch-all last; the removal callbacks, menus and cache lists match the registrations; the store is marked auth-initialised and nothing else changes |
| RouteStore.RouteStore.RebuildWithAuthRoutes | src/store/modules/route/index.ts:244-246 | the authorised routes are the deduplicated filtered routes; the earlier registrations are undone, the sorted constant and authorised routes registered with fresh removal callbacks, and the menus and cache lists rebuilt from them; the flags and the home route are unchanged |
| RouteStore.RouteStore.InitTabsFromRoutes | src/store/modules/route/index.ts:254-255 | the default-after-login routes are the flagged ones among the given routes, with their full paths; with none the tab store's home tab becomes the home route's when that route is found (and is kept otherwise), and the open and default tabs are unchanged; otherwise the home tab is cleared, the flagged routes are added as default tabs and, when visible, opened; the active tab, the stored tabs and the route store's other fields are unchanged |
| RouteStore.RouteStore.GetSelectedMenuKeyPathByKey | src/store/modules/route/index.ts:463-465 | the key path of the selected key in the store's menus |
| RouteStore.Traverse | src/store/modules/route/index.ts:269-283 | the traversal appends to the result exactly the flagged routes of the list and their descendants, with their full paths |
| RouteStore.TraverseStep | src/store/modules/route/index.ts:270-282 | one loop step appends the current route's contribution |
| RouteStore.TraverseNode | src/store/modules/route/index.ts:271-281 | one route's step appends its own pair when it is flagged and then its descendants' |
| RouteStore.RedirectPathSpec | src/store/modules/route/index.ts:332-342 | no route is collected exactly when no route of the tree is flagged; otherwise the redirect target is the full path of the last flagged route, which is in the tree |
| RouteStore.LastCollected | src/store/modules/route/index.ts:332-342 | the last collected pair holds a flagged route of the tree |
| RouteStore.RegisterRoutes | src/store/modules/route/index.ts:429-434 | the registration loop records the routes in order under consecutive ids and returns one removal id per route |
| RouteStore.UnregisterRoutes | src/store/modules/route/index.ts:188-191 | the removal loop drops the records of the given ids and keeps the counter |
| RouteTransform.StripLeadingSlash | src/store/modules/route/shared.ts:456 | one leading `/` is removed and nothing else: a path that starts with `/` is that slash followed by the result, any other path is kept |
| RouteTransform.TransformAll | src/store/modules/route/shared.ts:440 | mapping keeps the number and order of the menu routes, each transformed on its own |
| RouteTransform.TransformedDefaults | src/store/modules/route/shared.ts:452-508 | every route of the transformed forest, at any depth, requires authentication, has a layout type and an open type, states whether it uses the JSON renderer, names no roles, has a name, and has no empty children array |
| RouteTransform.DefaultsConcat | src/store/modules/route/shared.ts:440 | two lists of such routes side by side are still such a list |
| RouteTransform.TransformedNodeDefaults | src/store/modules/route/shared.ts:452-508 | a transformed menu route and everything below it carry those defaults |
| RouteTransform.TransformSpec | src/store/modules/route/shared.ts:428-444 | the result is the one `root` record at `/` with layout component and redirect `/home`, whose children are the non-built-in routes, one per kept menu route in order, none of them built-in, and all carrying the defaults |
| RouteTransform.TransformLeaf | src/store/modules/route/shared.ts:493-507 | a menu route without children keeps its path minus one leading `/`, has no children and no redirect, and gets the iframe page exactly when its open type is `iframe` |
| RouteTransform.RemoteRoutesPassRoleFilter | src/store/modules/route/shared.ts:428-444 | the role filter leaves the transformed routes as they are for every user, except that a `root` without any child is dropped |
| RouteTransform.BuiltinMetasSpec | src/store/modules/route/shared.ts:404-421 | a name is in the map exactly when some built-in route of that name carries `meta`, and it maps to the `meta` of the last such route |
| RouteTransform.MetasKeys | src/store/modules/route/shared.ts:414-418 | the keys are the listed names of routes that carry `meta` |
| RouteTransform.MetasLast | src/store/modules/route/shared.ts:414-418 | a key's value is the `meta` of the last route of that name that carries one |
| TabStore.FilterKeepsDistinct | src/store/modules/tab/index.ts:177 | filtering a tab list with distinct ids keeps the ids distinct |
| TabStore.AllTabsSpec | src/store/modules/tab/index.ts:33-38 | without a home tab the shown list is the open tabs; with one it comes first, followed by exactly the open tabs with another id; distinct ids stay distinct |
| TabStore.AddedTabSpec | src/store/modules/tab/index.ts:112-133 | adding either keeps the list or appends the new tab, and appends exactly when the tab is neither the home tab nor already open; afterwards the id is open unless it is the home tab's; distinct ids stay distinct; adding twice is adding once |
| TabStore.AppendAbsentSpec | src/store/modules/tab/index.ts:354-365 | merging the default tabs keeps the open tabs as a prefix, leaves every default id open, adds only default tabs, and keeps ids distinct |
| TabStore.AppendAbsentPresent | src/store/modules/tab/index.ts:359-363 | when every default id is already open, the merge changes nothing |
| TabStore.AppendAbsentIdempotent | src/store/modules/tab/index.ts:354-365 | merging the default tabs a second time changes nothing |
| TabStore.TabRemovedSpec | src/store/modules/tab/index.ts:155-163 | removing an id that is not open changes nothing; otherwise exactly the first tab with that id is cut out; with distinct ids the id is gone afterwards |
| TabStore.RemovedFirst | src/store/modules/tab/index.ts:155-162 | the index `findIndex` returns holds the first tab with the id, and splicing there removes it |
| TabStore.RemovedDistinct | src/store/modules/tab/index.ts:162 | cutting a tab out of a list with distinct ids leaves distinct ids without that id |
| TabStore.ClearedSpec | src/store/modules/tab/index.ts:170-178 | a tab survives clearing exactly when it was open, has a non-empty id, and is the home tab, a default tab or one of the excluded ids; distinct ids stay distinct |
| TabStore.ClearSidesSpec | src/store/modules/tab/index.ts:184-202 | clearing to the left of a tab keeps every tab from it on, clearing to its right keeps every tab up to it |
| TabStore.FixedSpec | src/store/modules/tab/index.ts:208-213 | fixing leaves the ids and every other tab as they were, and gives the first tab with the id the number of tabs fixed before the call as its index; a missing id changes nothing |
| TabStore.UnfixedSpec | src/store/modules/tab/index.ts:219-224 | unfixing clears the fixed index of the first tab with the id and changes nothing else; a missing id changes nothing |
| TabStore.FixThenUnfix | src/store/modules/tab/index.ts:208-224 | fixing and then unfixing a tab is the same as only unfixing it |
| TabStore.HasIdFind | src/store/modules/tab/index.ts:155-156 | an id is open exactly when `findIndex` does not return -1 |
| TabStore.IdsUpdate | src/store/modules/tab/index.ts:211 | changing a tab's fixed index keeps the list of ids |
| TabStore.TabRetainedSpec | src/store/modules/tab/index.ts:230-248 | a tab may not be closed exactly when it is the home tab, or the bar is visible and it is a default tab, or the first open tab with its id is fixed |
| TabStore.GetTabIdByRoute | src/store/modules/tab/index.ts:255-258 | the id is the route's name, and the full path only when the name is empty |
| TabStore.DefaultPages | src/store/modules/tab/index.ts:339-348 | the default pages are a suffix of the default tabs: all of them with the bar visible, otherwise only the last one, or none when there are none |
| TabStore.RestoreSpec | src/store/modules/tab/index.ts:273-321 | restoring what was just cached gives the same state; a cached state with tabs, a home tab and an active id comes back whatever the current state; unparsable or missing storage changes nothing; restoring twice is restoring once |
| TabStore.TabStore.constructor | src/store/modules/tab/index.ts:20-30 | no tabs, no home tab, no default tabs and no active tab |
| TabStore.TabStore.SetActiveTabId | src/store/modules/tab/index.ts:44-46 | only the active id changes |
| TabStore.TabStore.InitHomeTab | src/store/modules/tab/index.ts:52-62 | the home tab is built from the route, titled `首页` when the route has no title; nothing else changes |
| TabStore.TabStore.ClearHomeTab | src/store/modules/tab/index.ts:68-70 | only the home tab is cleared |
| TabStore.TabStore.AddDefaultTab | src/store/modules/tab/index.ts:77-93 | the tab is appended to the default tabs unless one with its id is there already |
| TabStore.TabStore.AddTab | src/store/modules/tab/index.ts:112-138 | the tab is added when it is neither the home tab nor open, and then its page is restored to the keep-alive list; it becomes active when asked |
| TabStore.TabStore.RemoveTab | src/store/modules/tab/index.ts:144-164 | the home tab and, with the bar visible, retained tabs are never closed; otherwise the first tab with the id is removed and its page dropped from the keep-alive list |
| TabStore.TabStore.ClearTabs | src/store/modules/tab/index.ts:170-178 | the open tabs are cleared down to the home tab, the default tabs and the excluded ids |
| TabStore.TabStore.ClearLeftTabs | src/store/modules/tab/index.ts:184-190 | with the id open, everything left of its first tab is cleared except retained tabs; otherwise nothing changes |
| TabStore.TabStore.ClearRightTabs | src/store/modules/tab/index.ts:196-202 | with the id open, everything right of its first tab is cleared except retained tabs; otherwise nothing changes |
| TabStore.TabStore.FixTab | src/store/modules/tab/index.ts:208-213 | the tabs become the fixed list and nothing else changes |
| TabStore.TabStore.UnfixTab | src/store/modules/tab/index.ts:219-224 | the tabs become the unfixed list and nothing else changes |
| TabStore.TabStore.SwitchRouteByTab | src/store/modules/tab/index.ts:264-267 | only the active id changes, to the tab's |
| TabStore.TabStore.CacheTabs | src/store/modules/tab/index.ts:273-296 | with caching on and the user logged in, local storage receives the tabs, the home tab and the active id; otherwise it is untouched |
| TabStore.TabStore.RestoreTabs | src/store/modules/tab/index.ts:301-321 | the persisted part of the state becomes the restored state |
| TabStore.TabStore.ClearCachedTabs | src/store/modules/tab/index.ts:326-332 | the storage entry is removed and the store is untouched |
| TabStore.TabStore.InitTabStore | src/store/modules/tab/index.ts:99-105 | the cached tabs are restored, then the current route is added as the active tab |
| TabStore.TabStore.InitDefaultTabsAfterLogin | src/store/modules/tab/index.ts:354-365 | with the bar visible the default tabs not yet open are appended; otherwise nothing changes |
| Guard.MergeSpec | src/router/guard.ts:58-71 | each option given in the update replaces the current one and every other option is kept; an empty update changes nothing; merging twice is merging once; successive updates compose |
| Guard.DecideSpec | src/router/guard.ts:215-261 | the decision of a navigation, case by case: a logged-in user whose routes are not initialised re-dispatches the same target; otherwise an external link aborts, a logged-in user going to the login route is sent home, a user who is not logged in going to a route that requires authentication is sent to the login route with the target's full path as redirect, a route whose permissions the user lacks goes to the forbidden route, and only a navigation that none of these apply to proceeds |
| Guard.DefaultsArePermissive | src/router/guard.ts:43-53 | with the default options every navigation proceeds, except external links, which abort, and the login route, which is sent home |
| Guard.EmptyPermissionsNeverForbidden | src/router/guard.ts:182 | a route without permissions is never sent to the forbidden route |
| Guard.UndefinedHooksFailClosed | src/router/guard.ts:145-227 | a missing `isLoggedIn` hook counts as logged out, so a route that requires authentication goes to the login route; a missing `isAuthRouteInitialized` hook counts as not initialised, so a logged-in user's navigation is re-dispatched |
| Guard.CollectedSpec | src/router/guard.ts:91-97 | a path is collected exactly when it was already or it is the full path of a route flagged `isDefaultAfterLogin`; no path is collected twice; collecting again changes nothing; earlier paths stay in front |
| Guard.PageTitleSpec | src/router/guard.ts:199-210 | the title always ends with the application title (`Trix Admin` when unset or empty); a route with a title puts it in front, followed by ` \| `, and a route without one gets the application title alone |
| Guard.NavigationGuard.constructor | src/router/guard.ts:58-63 | the default options, no collected paths, no opened windows and no progress events |
| Guard.NavigationGuard.SetRouterGuardOptions | src/router/guard.ts:69-71 | the options become the merge of the current ones and the update; nothing else changes |
| Guard.NavigationGuard.GetDefaultAfterLoginRoutes | src/router/guard.ts:83-85 | the collected paths, unchanged |
| Guard.NavigationGuard.CollectDefaultAfterLoginRoute | src/router/guard.ts:91-115 | the collected paths take the target's full path when it is flagged and new; nothing else changes |
| Guard.NavigationGuard.SetPageTitle | src/router/guard.ts:199-210 | the document title becomes the page title of the target |
| Guard.NavigationGuard.HandleExternalLink | src/router/guard.ts:122-132 | a link that opens in a new window with an href is handled, and its href is opened; any other target is not, and nothing changes |
| Guard.NavigationGuard.HandleAuthCheck | src/router/guard.ts:140-166 | the redirect, if any, of the authentication check |
| Guard.NavigationGuard.HandlePermissionCheck | src/router/guard.ts:174-193 | the redirect, if any, of the permission check |
| Guard.NavigationGuard.ProgressStart | src/router/guard.ts:221 | one more progress start when the progress bar exists |
| Guard.NavigationGuard.ProgressDone | src/router/guard.ts:242-277 | one more progress end when the progress bar exists |
| Guard.NavigationGuard.BeforeEach | src/router/guard.ts:215-261 | the guard returns the decision and starts the progress bar; a re-dispatch calls `initAuthRoute` when it is defined and touches nothing else; every other navigation sets the page title and collects the path first, an abort opens its window, and a rejected navigation closes the progress bar |
| Guard.Navigate | src/router/guard.ts:215-298 | every navigation that is not re-dispatched ends the progress bar exactly as many times as it started it |
| MixMenu.SelectedKey | src/layouts/modules/global-menu/context/index.ts:159-164 | a route hidden from the menu selects its `activeMenu` when that is non-empty; every other route, and a hidden one without an active menu, selects its own name |
| MixMenu.JoinStartsWithTwo | src/layouts/modules/global-menu/context/index.ts:62-71 | a key joined from two or more segments starts with its first two segments around the separator |
| MixMenu.FirstLevelKeySpec | src/layouts/modules/global-menu/context/index.ts:32-35 | the first-level key is the prefix of the selected key up to its first '-', and holds no '-' |
| MixMenu.SecondLevelKeySpec | src/layouts/modules/global-menu/context/index.ts:62-71 | the second-level key is empty exactly when the selected key has no '-'; otherwise it is a prefix of the selected key made of the first-level key, '-', and one more segment without '-' |
| MixMenu.FirstLevelMenus | src/layouts/modules/global-menu/context/index.ts:19-24 | the first-level menus are the top-level menus, in order, each without its children |
| MixMenu.ChildrenAtSpec | src/layouts/modules/global-menu/context/index.ts:37-90 | the list shown below a key is the children of the first menu with that key, or empty when no menu has it or the menu has none; for a non-empty key, the menu has children exactly when that list is non-empty |
| MixMenu.FindDeepestIsFirstLeaf | src/layouts/modules/global-menu/context/index.ts:106-111 | descending through first children ends at the first menu without children in the pre-order listing of the subtree, and returns its route key |
| MixMenu.DeepestLevelMenuKey | src/layouts/modules/global-menu/context/index.ts:95-114 | there is no deepest key when there are no second-level menus or the option is off |
| MixMenu.MixMenuContext.constructor | src/layouts/modules/global-menu/context/index.ts:26-56 | both keys start empty and nothing has been pushed |
| MixMenu.MixMenuContext.SetActiveFirstLevelMenuKey | src/layouts/modules/global-menu/context/index.ts:28-30 | only the first-level key changes |
| MixMenu.MixMenuContext.SetActiveSecondLevelMenuKey | src/layouts/modules/global-menu/context/index.ts:58-60 | only the second-level key changes |
| MixMenu.MixMenuContext.GetActiveFirstLevelMenuKey | src/layouts/modules/global-menu/context/index.ts:32-35 | the first-level key becomes the first segment of the selected key |
| MixMenu.MixMenuContext.GetActiveSecondLevelMenuKey | src/layouts/modules/global-menu/context/index.ts:62-71 | the second-level key becomes the first two segments of the selected key, or empty |
| MixMenu.MixMenuContext.HandleSelectFirstLevelMenu | src/layouts/modules/global-menu/context/index.ts:45-50 | the key becomes active, and is pushed to the router exactly when its menu has no children |
| MixMenu.MixMenuContext.HandleSelectSecondLevelMenu | src/layouts/modules/global-menu/context/index.ts:81-86 | the key becomes active at the second level, and is pushed exactly when its second-level menu has no children |
| MixMenu.MixMenuContext.ActiveDeepestLevelMenuKey | src/layouts/modules/global-menu/context/index.ts:117-123 | a non-empty deepest key is selected at the second level, as a click would select it; otherwise nothing changes |
| MixMenu.MixMenuContext.OnRouteChange | src/layouts/modules/global-menu/context/index.ts:125-134 | the first-level key is derived from the selected key, and the second-level key too when the child-level list, computed with the second-level key held so far, is non-empty |
| MixMenu.FirstWatchKeepsSecondLevelEmpty | src/layouts/modules/global-menu/context/index.ts:125-134 | with the second-level key still empty, the child-level list is empty unless some second-level menu has an empty key, so the watcher leaves the second-level key empty |
| Notifications.UnreadCountByTypeSpec | src/store/modules/notification/index.ts:42-50 | a type is counted exactly when some unread message has it, and its count is the number of unread messages of that type |
| Notifications.UnreadTypesSpec | src/store/modules/notification/index.ts:42-50 | the keys of the count record, in the order they were first set, are distinct and are exactly the counted types |
| Notifications.SumAtOther | src/store/modules/notification/index.ts:46 | setting the count of a type outside the summed keys does not change the sum |
| Notifications.SumAtIncrement | src/store/modules/notification/index.ts:46 | incrementing one summed type's count raises the sum by one |
| Notifications.CountsSumToUnread | src/store/modules/notification/index.ts:39-50 | the per-type unread counts add up to the total unread count |
| Notifications.UnreadCountSnoc | src/store/modules/notification/index.ts:39 | appending a message raises the unread count by one exactly when the message is unread |
| Notifications.FilteredMessagesSpec | src/store/modules/notification/index.ts:53-69 | the `all` tab shows every message; another tab shows exactly the messages whose type is one of the tab's configured types, or, when it has none or an empty list, whose type is the tab's key |
| Notifications.MarkedAll | src/store/modules/notification/index.ts:110-116 | marking keeps the number of messages |
| Notifications.MarkedReadSpec | src/store/modules/notification/index.ts:99-104 | marking by id changes only the first message with that id, which becomes read, and lowers the unread count by one when it was unread; an unknown id changes nothing |
| Notifications.MarkedAllSpec | src/store/modules/notification/index.ts:110-116 | without types, or with an empty list, no message is left unread; with types, no type in the list has unread messages left |
| Notifications.AddMessageCounts | src/store/modules/notification/index.ts:77-80 | a message put at the front is the first message, the others follow unchanged, and the unread count rises by one exactly when it is unread |
| Notifications.NotificationStore.constructor | src/store/modules/notification/index.ts:13-34 | no messages, not loading, page 1 of size 10, total 0, more to load, the `all` tab and no type mapping |
| Notifications.NotificationStore.ComputeUnreadCountByType | src/store/modules/notification/index.ts:42-50 | the loop over the messages builds the per-type unread counts |
| Notifications.NotificationStore.AddMessage | src/store/modules/notification/index.ts:77-80 | the message goes to the front and the total rises by one; nothing else changes |
| Notifications.NotificationStore.SetMessages | src/store/modules/notification/index.ts:87-93 | the new messages are appended, or replace the list; nothing else changes |
| Notifications.NotificationStore.MarkAsRead | src/store/modules/notification/index.ts:99-104 | the messages become the list with the first message of the id read |
| Notifications.NotificationStore.MarkAllAsRead | src/store/modules/notification/index.ts:110-116 | the messages become the list with the selected types read |
| Notifications.NotificationStore.SetLoading | src/store/modules/notification/index.ts:122-124 | only the loading flag changes |
| Notifications.NotificationStore.SetPagination | src/store/modules/notification/index.ts:132-137 | page, size and total are set, and there is more to load exactly when the pages so far hold fewer than the total |
| Notifications.NotificationStore.SetActiveTab | src/store/modules/notification/index.ts:143-145 | only the active tab changes |
| Notifications.NotificationStore.SetTabTypesMap | src/store/modules/notification/index.ts:151-153 | only the type mapping changes |
| Notifications.NotificationStore.ResetPagination | src/store/modules/notification/index.ts:158-162 | page 1, total 0 and more to load, with the messages kept |
| Notifications.NotificationStore.Reset | src/store/modules/notification/index.ts:167-172 | no messages, page 1, total 0 and more to load; the tab and its mapping are kept |
| Notifications.NotificationStore.ResetAll | src/store/modules/notification/index.ts:177-181 | the reset, and the `all` tab with no type mapping |
| Theme.NextScheme | src/store/modules/theme/index.ts:263-273 | the next scheme is always one of `light`, `dark`, `auto` |
| Theme.DarkModeSpec | src/store/modules/theme/index.ts:31-36 | under `auto` dark mode is the OS preference; under any other scheme it is whether the scheme is `dark`, whatever the OS says |
| Theme.ColorsSpec | src/store/modules/theme/index.ts:45-53 | the primary colour is the theme colour; `info` is the theme colour when it follows the primary, else the configured `info` colour |
| Theme.WatermarkContentSpec | src/store/modules/theme/index.ts:69-81 | the watermark shows `Trix User` with the user-name flag on, else the formatted time with the time flag on, else its text |
| Theme.NextSchemeSpec | src/store/modules/theme/index.ts:263-273 | the toggle cycles light, dark, auto, light; an unknown scheme goes to light; three toggles from a known scheme come back to it |
| Theme.WithColorSpec | src/store/modules/theme/index.ts:281-294 | the colour, passed through the palette only when colours are recommended, goes to the theme colour for `primary` and to that key's other colour otherwise; no other setting changes |
| Theme.ThemeStore.constructor | src/store/modules/theme/index.ts:25 | the settings are the defaults and share their nested objects with them; both watermark flags are off and the clock is stopped |
| Theme.ThemeStore.Isolated | src/store/modules/theme/index.ts:152 | a store whose settings start as a deep copy of the defaults: nothing shared, defaults as declared |
| Theme.ThemeStore.SetThemeScheme | src/store/modules/theme/index.ts:240-242 | only the scheme changes |
| Theme.ThemeStore.SetGrayscale | src/store/modules/theme/index.ts:249-251 | only the grayscale flag changes |
| Theme.ThemeStore.SetColourWeakness | src/store/modules/theme/index.ts:258-260 | only the colour-weakness flag changes |
| Theme.ThemeStore.ToggleThemeScheme | src/store/modules/theme/index.ts:263-273 | the scheme moves to the next one and nothing else changes |
| Theme.ThemeStore.UpdateThemeColors | src/store/modules/theme/index.ts:281-294 | the settings become the colour update of the old settings; while the nested objects are shared, an `otherColor` write also lands in the defaults |
| Theme.ThemeStore.SetThemeColor | src/store/modules/theme/index.ts:301-303 | only the theme colour changes |
| Theme.ThemeStore.SetThemeLayout | src/store/modules/theme/index.ts:310-312 | only the layout mode changes, in the defaults as well while `layout` is shared |
| Theme.ThemeStore.SetScrollMode | src/store/modules/theme/index.ts:319-321 | only the scroll mode changes, in the defaults as well while `layout` is shared |
| Theme.ThemeStore.UpdateWatermarkTimer | src/store/modules/theme/index.ts:368-377 | the clock runs exactly when the watermark is visible and shows the time |
| Theme.ThemeStore.SetWatermarkEnableUserName | src/store/modules/theme/index.ts:346-352 | the user-name flag is set; turning it on turns the time off, turning it off leaves the time as it was; the two flags are never on together and the clock follows |
| Theme.ThemeStore.SetWatermarkEnableTime | src/store/modules/theme/index.ts:359-365 | the time flag is set; turning it on turns the user name off, turning it off leaves the user name as it was; the two flags are never on together and the clock follows |
| Theme.ThemeStore.SetWatermarkVisible | src/store/modules/theme/index.ts:120-123 | a write into the `watermark` object: only its visibility changes (in the defaults as well while it is shared), and the clock follows it |
| Theme.ThemeStore.WriteWatermark | src/store/modules/theme/index.ts:439-445 | a write into the `watermark` object reaches the defaults while it is shared, keeps the two flags exclusive, and the watcher sets the clock from the new object |
| Theme.ThemeStore.SetOsDark | src/store/modules/theme/index.ts:31-36 | only the OS preference changes |
| Theme.ThemeStore.ResetStore | src/store/modules/theme/index.ts:150-155 | the settings become a copy of the defaults as they now stand, nested writes made before the first reset included; nothing is shared afterwards; the clock follows the restored watermark |
| Theme.LayoutSurvivesReset | src/store/modules/theme/index.ts:150-155 | a new store, a layout change to `horizontal`, then a reset: the layout stays `horizontal`, although the declared default is `vertical` |
| Theme.IsolatedResetRestoresDefaults | src/store/modules/theme/index.ts:150-155 | on a store that shares nothing with the defaults, any layout, scroll, colour and watermark writes followed by a reset give exactly the declared defaults with the clock stopped |
| SchemaLoader.ErrorStatus | src/hooks/json/useSchemaLoader.ts:97 | the status is kept exactly when there is one and it is not zero; otherwise there is none |
| SchemaLoader.Loader.constructor | src/hooks/json/useSchemaLoader.ts:50-59 | empty state, `loading` from `initialLoading`, at most 3 retries unless given, the missing-source message defaulting to `Schema 来源未配置`; with `immediate` (with or without the watcher) one load has started: with a source it is loading, with no error, and has called `onLoading` if given; without one it is not loading, has called nothing, and holds the missing-source error exactly when a source is required |
| SchemaLoader.Loader.Load | src/hooks/json/useSchemaLoader.ts:61-79 | every call takes a new token; without a source it ends at once with no schema, not loading and no status, and with the missing-source message only when a source is required; with one, loading starts with the error and status cleared and `onLoading` called |
| SchemaLoader.Loader.Complete | src/hooks/json/useSchemaLoader.ts:81-103 | a completion whose token is no longer the latest changes nothing; otherwise a success installs the transformed schema, resets the retries and calls `onLoaded`, a failure drops the schema and records the message and the status and calls `onError`, and loading ends either way |
| SchemaLoader.Loader.Retry | src/hooks/json/useSchemaLoader.ts:106-110 | with the retries used up nothing changes; otherwise one more retry is counted and a load starts |
| SchemaLoader.Loader.Reset | src/hooks/json/useSchemaLoader.ts:112-119 | a new token, so no fetch in flight can land, and schema, loading, error, status and retries cleared |
| SchemaLoader.Loader.SourceChanged | src/hooks/json/useSchemaLoader.ts:121-129 | with the watcher on and a new value, a load starts; otherwise only the source changes |
| SchemaLoader.LastCallWins | src/hooks/json/useSchemaLoader.ts:58-101 | of two loads started one after the other, the first one's completion changes nothing and the second one's result stands |
| SchemaLoader.ResetCancels | src/hooks/json/useSchemaLoader.ts:112-119 | a reset while a fetch is in flight wins: the fetch's completion is ignored and the cleared state stays |
| UseTable.CheckMapSpec | packages/hooks/src/use-table.ts:66 | the map built from the checks has exactly their keys, each with the flag of the last check holding it |
| UseTable.ReloadedSpec | packages/hooks/src/use-table.ts:65-74 | the reloaded checks have the defaults' length and order; every field but `checked` comes from the default; `checked` is the last previous flag of that key, and a default whose key had no previous check is kept as it is |
| UseTable.ReloadIdempotent | packages/hooks/src/use-table.ts:65-74 | with distinct default keys, reloading twice in a row over the same defaults is reloading once |
| UseTable.ReloadFromDefaults | packages/hooks/src/use-table.ts:61-74 | reloading checks that were just taken from the same defaults (distinct keys) gives them back unchanged |
| UseTable.Table.constructor | packages/hooks/src/use-table.ts:54-61 | the checks come from the defaults, there is no data and the table is not empty; a first fetch has started when `immediate` (the default) is set |
| UseTable.Table.ReloadColumns | packages/hooks/src/use-table.ts:65-74 | the two loops give the checks the reloaded list, and the data and flags are untouched |
| UseTable.Table.StartGetData | packages/hooks/src/use-table.ts:78 | loading starts and nothing else changes |
| UseTable.Table.FinishGetData | packages/hooks/src/use-table.ts:80-91 | a transformed payload sets the data to its rows and `empty` exactly when there are none; when the API or the transform threw, the data and `empty` stay; loading ends in both cases |
| UseTable.GetTableDataSpec | packages/hooks/src/use-table.ts:109-118 | with pagination the data is the page's rows, without it the payload itself |
| SchemaMethods.CloseCallsSpec | src/hooks/json/useSchemaMethods.ts:81-98 | closing always ends with the removal of the target; closing another tab, or the only one, only removes it; closing the current tab among several first pushes the tab right of it, the one left of it when it is the last, or the first tab when the bar does not hold it, and that tab is never the one being closed when ids are distinct |
| SchemaMethods.FullUrl | src/hooks/json/useSchemaMethods.ts:215-219 | a path that starts with one `/` (not `//`) gets the API base URL in front; any other URL is kept |
| SchemaMethods.FullUrlSpec | src/hooks/json/useSchemaMethods.ts:215-219 | the result always ends with the given URL, differs from it exactly when the URL is relative and the base is non-empty, and prefixing again changes nothing when the base is not itself relative |
| SchemaMethods.Run | src/hooks/json/useSchemaMethods.ts:285-287 | the run of allowed characters from a position is maximal: every character in it is allowed and the next one is not |
| SchemaMethods.FirstMatch | src/hooks/json/useSchemaMethods.ts:285-287 | the regular expression's search position is the first place where the pattern matches (ignoring ASCII case) with a non-empty capture, or none when there is none |
| SchemaMethods.Capture | src/hooks/json/useSchemaMethods.ts:285-287 | a captured group is never empty |
| SchemaMethods.SegmentNameSpec | src/hooks/json/useSchemaMethods.ts:302-303 | the name taken from a path is its text after the last `/`, or `download` when that is empty; it holds no `/` and no character the path lacks |
| SchemaMethods.UrlFilenameSpec | src/hooks/json/useSchemaMethods.ts:301-303 | the fallback file name is the last segment of the URL before its first `?`, and holds neither `/` nor `?` |
| SchemaMethods.DownloadRejected | src/hooks/json/useSchemaMethods.ts:265-276 | a download whose request fails rejects with that error, and one without data rejects with `Download failed` |
| SchemaMethods.DownloadNamed | src/hooks/json/useSchemaMethods.ts:278-304 | the file name is the one given; else the percent-decoded `filename*=UTF-8''` value (a malformed escape rejects the download); else the quoted `filename`; else the bare `filename` token; else the last segment of the URL, or `download` |
| SchemaMethods.NoHeaderName | src/hooks/json/useSchemaMethods.ts:281-283 | without a `Content-Disposition` value no file name comes from the header |
| SchemaMethods.DownloadBlob | src/hooks/json/useSchemaMethods.ts:260-262 | a blob is saved as it is, under the given name or `download` |
| SchemaMethods.DownloadMethod | src/hooks/json/useSchemaMethods.ts:267 | the request method is the one given, or `GET` |
| SchemaMethods.SchemaMethods.constructor | src/hooks/json/useSchemaMethods.ts:26-34 | the base URL is the environment's value or empty, and no call has been made |
| SchemaMethods.SchemaMethods.Push | src/hooks/json/useSchemaMethods.ts:44-46 | one router push of the location |
| SchemaMethods.SchemaMethods.Replace | src/hooks/json/useSchemaMethods.ts:52-54 | one router replace of the location |
| SchemaMethods.SchemaMethods.Back | src/hooks/json/useSchemaMethods.ts:60-62 | one `go` by minus the delta, 1 by default |
| SchemaMethods.SchemaMethods.Forward | src/hooks/json/useSchemaMethods.ts:68-70 | one `go` by the delta, 1 by default |
| SchemaMethods.SchemaMethods.Close | src/hooks/json/useSchemaMethods.ts:81-98 | the calls of closing the target, the current route by default, on the tabs shown on the bar |
| SchemaMethods.SchemaMethods.CloseAndGo | src/hooks/json/useSchemaMethods.ts:104-110 | a push of the path, `/` by default, then the removal of the tab that was current |
| SchemaMethods.SchemaMethods.CloseOthers | src/hooks/json/useSchemaMethods.ts:116-119 | one `clearTabs` keeping only the target |
| SchemaMethods.SchemaMethods.CloseLeft | src/hooks/json/useSchemaMethods.ts:125-128 | one `clearLeftTabs` of the target |
| SchemaMethods.SchemaMethods.CloseRight | src/hooks/json/useSchemaMethods.ts:134-137 | one `clearRightTabs` of the target |
| SchemaMethods.SchemaMethods.Open | src/hooks/json/useSchemaMethods.ts:144-145 | one router push of the path |
| SchemaMethods.SchemaMethods.Relabel | src/hooks/json/useSchemaMethods.ts:145-154 | after the push, a non-empty title renames the first tab on the bar whose full path or route path is the path: the home tab when it matches, else the first matching open tab; nothing else in the tab store changes |
| SchemaMethods.SchemaMethods.OpenIframe | src/hooks/json/useSchemaMethods.ts:162-166 | one push of `/iframe` with the encoded URL and title |
| SchemaMethods.SchemaMethods.Refresh | src/hooks/json/useSchemaMethods.ts:171-175 | one router replace of `/redirect` followed by the current full path |
| SchemaMethods.SchemaMethods.Fix | src/hooks/json/useSchemaMethods.ts:181-184 | one `fixTab` of the target |
| SchemaMethods.SchemaMethods.Unfix | src/hooks/json/useSchemaMethods.ts:190-193 | one `unfixTab` of the target |
| SchemaMethods.SchemaMethods.OpenWindow | src/hooks/json/useSchemaMethods.ts:215-221 | one `window.open` of the full URL, in `_blank` by default, with the features |
| SchemaMethods.SchemaMethods.CloseWindow | src/hooks/json/useSchemaMethods.ts:226-228 | one `window.close` |
| SchemaMethods.SchemaMethods.PrintWindow | src/hooks/json/useSchemaMethods.ts:233-235 | one `window.print` |
| SchemaMethods.RelabelPicksFind | src/hooks/json/useSchemaMethods.ts:148-149 | the tab renamed is the one `tabs.find` picks on the bar: the home tab when it matches, else the first matching open tab after it |

## Left out

- Networking, timers and the browser are outside the model. The remote menu fetch, the API calls, the schema fetch, `JSON.parse` of stored blobs and `decodeURIComponent`/`encodeURIComponent` are parameters or outcome values. A `throw` from one of them is modelled only where the source catches it.
- Asynchrony is modelled as discrete steps. Each asynchronous operation is a start method plus an explicit completion or tick method: the `setTimeout` tick of `resetRouteCache`, the guard's `await initAuthRoute`, the schema fetch and the table fetch. Interleavings other than the ones these steps allow are not modelled.
- Numbers are integers. JavaScript floats, `NaN` and `Number(...)` of non-numeric values are left out: `Number(meta.order) || 0` is the order or 0, and JSON numbers are `int`.
- Default arguments of the source's functions are explicit parameters.
- Lazy component imports are an enumeration of component kinds.
- Components, icons and VNodes are left out. A menu icon is kept as its name.
- vue-router's path matching is not part of this model. The router is a table of records with removal callbacks (`RouterRecords.RouterTable`), so `addRoute` and `removeRoute` are modelled and matching is not.
- `src/router/routes/index.ts` is not part of this model beyond its route constants. `staticRoutes` is empty, and the catch-all and the built-in route names are constants.
- `src/store/modules/auth/index.ts` is not part of this model. The login state and the user's permissions are inputs.
- `RouteStore.RouteStore.InitAuthRoute`: `initUserInfo` and the store's asynchrony are left out. The permissions and the remote fetch outcome are arguments.
- Object identity and aliasing are left out, except for the theme store's nested settings objects, which the store shares with its defaults. Route, tab, menu and message objects are values:
  - the in-place sort of each `children` array becomes the replacement of the element that holds it (`RouteStore.AfterSort`);
  - `fixTab`, `unfixTab` and `markAsRead` replace the changed element of the list;
  - a caller that still holds a reference to the old object is not modelled.
- `getValueByPath` on strings, arrays, primitives and prototype names yields `undefined` in the model, where JavaScript would look up that property.
- The request interceptor's `beforeRequest` hook is treated as pure: it is a function of the built request, and its own side effects are left out. `onTokenExpired` and `onError` are recorded as calls.
- The guard's `require`-based `tabStore.addDefaultTab` (`src/router/guard.ts:98-113`) is left out. It depends on the bundler and is wrapped in a `try`/`catch` that discards its failure.
- `getRouterGuardOptions` returns a copy. Values have no identity here, so it is not modelled separately.
- `afterEach` after a rejected navigation is not modelled. A navigation re-dispatched after `initAuthRoute` is a new call of `Guard.Navigate`, so the repeated re-dispatch while the init hook keeps reporting the routes as uninitialised is not unfolded.
- In the tab store, the deep watcher and the `beforeunload` hook that call `cacheTabs` are left out. `TabStore.TabStore.CacheTabs` is an explicit call. The theme settings `tab.visible` and `tab.cache` and the login state are parameters.
- In the theme store, the following are left out:
  - `loadRemoteThemeConfig` and `saveRemoteThemeConfig`;
  - the localStorage caching and restore of the settings;
  - the `document` and CSS-variable writes;
  - the formatting of the time in the watermark, which is an input string;
  - the colour arithmetic, which is the opaque `palette` function.

  Its watchers are discrete methods: `UpdateWatermarkTimer` and `SetOsDark`. The store starts without cached settings. `restoreThemeSettings` would replace the settings with a spread over a parsed cache, and that would end the sharing. A setter that assigns a whole nested object through a computed ref (`settings.value.watermark = val`) would also end the sharing for that object. Neither is modelled.
- In the table hook, `onFetched` and concurrent `getData` calls are left out. The payload's shape is the one the `pagination` flag declares. A column title is text rather than a VNode.
- `SchemaLoader.Loader.Complete`: a `transform` or `onLoaded` that throws is left out. The completion installs the transformed schema, or records the fetch's own failure.
- In the schema loader, `requireSource` and `missingSourceMessage` are read once at creation rather than through getters.
- In the schema methods, the router calls, tab store calls and window calls are kept as a log instead of being executed. The following are left out:
  - `$nav` location objects, which are strings;
  - the DOM download anchor, `Blob` URLs and `window.print`.

  The `/i` flag of the filename patterns is matched on ASCII letters only. The chain is the source's simplified reading of the filename parameters of RFC 6266 section 4.1, not the full grammar. The deep watcher behind `SchemaMethods.SchemaMethods.Relabel` is left out.
- `SchemaMethods.SchemaMethods.Fix`, `isFixed`: `isFixed` is `isTabRetain`, as the source has it. So the home tab, and default tabs while the tab bar is visible, also read as fixed.
- The notification store's WebSocket transport and the `window.$notification` calls are outside the store and not part of this model.
- `Notifications.UnreadTypesSpec`: the keys are listed in creation order. JavaScript lists integer-like keys first, in ascending order; that order is not modelled, and the sum over `Object.values` that uses it does not depend on it.

## Findings

| source | as written | input that shows it | evidently intended | confidence | as-written member | corrected member |
|---|---|---|---|---|---|---|
| src/store/modules/theme/index.ts:25 | `settings` starts as `{ ...defaultThemeSettings }`, a shallow copy. The nested setters (`setThemeLayout`, `setScrollMode`, `updateThemeColors` for a non-primary key, the watermark setters) write into objects shared with `themeSettings`, so `resetStore`'s deep copy of the defaults brings those writes back | a new store, `setThemeLayout('horizontal')`, then `resetStore()`: the layout stays `horizontal` | `resetStore` returns every setting, nested ones included, to the declared defaults, as its comment about the deep copy says; a deep copy at creation gives that | not executed | Theme.LayoutSurvivesReset | Theme.IsolatedResetRestoresDefaults |
