/**
 * The methods a page schema can call (`$methods`): navigation, tab actions,
 * window actions and file download. Navigation, the tab store actions and
 * the window actions are calls the methods hand on; they are kept as a log
 * of calls, in the order they are made. `$tab.close` reads the tab bar and
 * the current route to pick the tab to go to; `$window.open` prefixes the
 * API base URL to relative URLs; `$download` picks the file name from the
 * argument, the response's `Content-Disposition` header or the URL.
 */
module SchemaMethods {
  import opened Wrappers
  import opened Seqs
  import opened JsText
  import Tabs = TabStore

  /** A call handed on to the router, the tab store or the browser window. */
  datatype Call =
    | RouterPush(to: string)
    | RouterReplace(to: string)
    | RouterGo(delta: int)
    | RemoveTab(id: string)
    | ClearTabs(excludes: seq<string>)
    | ClearLeftTabs(id: string)
    | ClearRightTabs(id: string)
    | FixTab(id: string)
    | UnfixTab(id: string)
    | WindowOpen(url: string, target: string, features: Option<string>)
    | WindowClose
    | WindowPrint

  /**
   * `tabs[i + 1] || tabs[i - 1]` for the index `findIndex` gave: the tab to
   * the right, else the one to the left; an index out of range reads as
   * `undefined`.
   */
  function Neighbour(tabs: seq<Tabs.Tab>, i: int): Option<Tabs.Tab> {
    if 0 <= i + 1 < |tabs| then Some(tabs[i + 1])
    else if 0 <= i - 1 < |tabs| then Some(tabs[i - 1])
    else None
  }

  /**
   * The calls `$tab.close` makes for the target id: when the target is the
   * current route and the bar holds more than one tab, a push to the
   * neighbouring tab; then the removal of the target.
   */
  function CloseCalls(tabs: seq<Tabs.Tab>, targetId: string, current: string): seq<Call> {
    var next := Neighbour(tabs, FindIndex(tabs, Tabs.IdIs(targetId)));
    (if targetId == current && |tabs| > 1 && next.Some? then [RouterPush(next.value.fullPath)] else [])
    + [RemoveTab(targetId)]
  }

  /**
   * Closing always ends with the removal of the target. Closing another tab,
   * or the only one, only removes it. Closing the current tab among several
   * first goes to the tab right of it, to the one left of it when it is the
   * last, and to the first tab when the bar does not hold it; that tab is
   * never the one being closed when tab ids are distinct.
   */
  lemma CloseCallsSpec(tabs: seq<Tabs.Tab>, targetId: string, current: string)
    ensures var calls := CloseCalls(tabs, targetId, current);
      && |calls| >= 1 && calls[|calls| - 1] == RemoveTab(targetId)
      && (targetId != current || |tabs| <= 1 ==> calls == [RemoveTab(targetId)])
    ensures targetId == current && |tabs| > 1 ==>
      var i := FindIndex(tabs, Tabs.IdIs(targetId));
      var next := if i == -1 then tabs[0] else if i + 1 < |tabs| then tabs[i + 1] else tabs[i - 1];
      && CloseCalls(tabs, targetId, current) == [RouterPush(next.fullPath), RemoveTab(targetId)]
      && (Tabs.DistinctIds(tabs) ==> next.id != targetId)
  {
  }

  /** Whether `$window.open` treats the URL as relative: it starts with one '/' but not two. */
  predicate RelativeUrl(url: string) {
    StartsWith(url, "/") && !StartsWith(url, "//")
  }

  /** The URL `$window.open` hands to `window.open`. */
  function FullUrl(apiBase: string, url: string): (r: string)
    ensures RelativeUrl(url) ==> r == apiBase + url
    ensures !RelativeUrl(url) ==> r == url
  {
    if RelativeUrl(url) then apiBase + url else url
  }

  /**
   * The URL always ends in the given one and differs from it exactly when
   * it is relative and a base is configured; with a base that is not itself
   * relative, opening the result again would not prefix it a second time.
   */
  lemma FullUrlSpec(apiBase: string, url: string)
    ensures var r := FullUrl(apiBase, url);
      && |url| <= |r| && r[|r| - |url|..] == url
      && (r != url <==> RelativeUrl(url) && apiBase != "")
      && (!RelativeUrl(apiBase) ==> FullUrl(apiBase, r) == r)
  {
    var r := FullUrl(apiBase, url);
    if RelativeUrl(url) {
      assert r[|r| - |url|..] == url;
      if apiBase != "" && !RelativeUrl(apiBase) {
        assert r[0] == apiBase[0];
        if apiBase[0] == '/' {
          assert apiBase[..2] == "//";
          assert r[..2] == apiBase[..2];
        }
      }
    }
  }

  /** What `$download` was handed: a blob, or a URL to fetch one from. */
  datatype DownloadSource<Blob> = BlobArg(blob: Blob) | UrlArg(url: string)

  /**
   * What the blob request of `$download` answered: its error, its data, and
   * the `Content-Disposition` header (None when there is no response or no
   * such header).
   */
  datatype BlobReply<Blob> = BlobReply(error: Option<string>, data: Option<Blob>, disposition: Option<string>)

  /** The error `$download` rejects with. */
  datatype DownloadError =
    | RequestError(message: string)
    /** `new Error('Download failed')` */
    | DownloadFailed
    /** The `URIError` of a malformed `filename*` value. */
    | MalformedName

  /** How `$download` ends: the blob saved under a file name, or a rejection. */
  datatype Download<Blob> = Saved(blob: Blob, filename: string) | Rejected(error: DownloadError)

  const DefaultFilename := "download"

  /** `/i` on an ASCII pattern: a letter matches in either case, anything else only itself. */
  function LowerAscii(c: char): char {
    if 'A' <= c <= 'Z' then (c as int + 32) as char else c
  }

  /** `\s`: the characters JavaScript counts as white space or line terminators. */
  predicate JsSpace(c: char) {
    var n := c as int;
    (9 <= n <= 13) || n == 32 || n == 0xA0 || n == 0x1680 || (0x2000 <= n <= 0x200A)
    || n == 0x2028 || n == 0x2029 || n == 0x202F || n == 0x205F || n == 0x3000 || n == 0xFEFF
  }

  /** `[^;\s]` */
  predicate TokenChar(c: char) {
    c != ';' && !JsSpace(c)
  }

  /** `[^"]` */
  predicate QuotedChar(c: char) {
    c != '"'
  }

  /** The lower-case pattern occurs at `i` of `s`, ignoring the case of ASCII letters. */
  predicate MatchesAt(s: string, i: nat, pat: string) {
    i + |pat| <= |s| && forall k :: 0 <= k < |pat| ==> LowerAscii(s[i + k]) == pat[k]
  }

  /** The length of the longest run of characters satisfying `ok` that starts at `j`. */
  function Run(s: string, j: nat, ok: char -> bool): (n: nat)
    requires j <= |s|
    ensures j + n <= |s|
    ensures forall k :: j <= k < j + n ==> ok(s[k])
    ensures j + n < |s| ==> !ok(s[j + n])
    decreases |s| - j
  {
    if j == |s| || !ok(s[j]) then 0 else 1 + Run(s, j + 1, ok)
  }

  /**
   * The regular expression `pat([ok]+)close` matches at `i`: the pattern,
   * then a greedy non-empty run, then the closing character when there is
   * one.
   */
  predicate MatchAt(s: string, i: nat, pat: string, ok: char -> bool, close: Option<char>) {
    && MatchesAt(s, i, pat)
    && Run(s, i + |pat|, ok) >= 1
    && (close.Some? ==> i + |pat| + Run(s, i + |pat|, ok) < |s| && s[i + |pat| + Run(s, i + |pat|, ok)] == close.value)
  }

  /** Where the leftmost match at or after `i` starts, or -1 when there is none. */
  function FirstMatch(s: string, i: nat, pat: string, ok: char -> bool, close: Option<char>): (j: int)
    requires i <= |s|
    ensures j == -1 || i <= j <= |s|
    ensures j != -1 ==> MatchAt(s, j, pat, ok, close)
    ensures j != -1 ==> forall l :: i <= l < j ==> !MatchAt(s, l, pat, ok, close)
    ensures j == -1 ==> forall l :: i <= l <= |s| ==> !MatchAt(s, l, pat, ok, close)
    decreases |s| - i
  {
    if MatchAt(s, i, pat, ok, close) then i
    else if i == |s| then -1
    else FirstMatch(s, i + 1, pat, ok, close)
  }

  /**
   * `s.match(/pat([ok]+)close/)?.[1]`: the greedy run after the leftmost
   * place the expression matches, or nothing when it matches nowhere.
   */
  function Capture(s: string, pat: string, ok: char -> bool, close: Option<char>): (r: Option<string>)
    ensures r.Some? ==> |r.value| >= 1
  {
    var j := FirstMatch(s, 0, pat, ok, close);
    if j == -1 then None else Some(s[j + |pat|..j + |pat| + Run(s, j + |pat|, ok)])
  }

  /** `filename\*=UTF-8''([^;\s]+)` with the `i` flag. */
  function Utf8Name(disposition: string): Option<string> {
    Capture(disposition, "filename*=utf-8''", TokenChar, None)
  }

  /** `filename="([^"]+)"` with the `i` flag. */
  function QuotedName(disposition: string): Option<string> {
    Capture(disposition, "filename=\"", QuotedChar, Some('"'))
  }

  /** `filename=([^;\s]+)` with the `i` flag. */
  function PlainName(disposition: string): Option<string> {
    Capture(disposition, "filename=", TokenChar, None)
  }

  /** What the header gives for the file name. */
  datatype HeaderName = NoName | Name(name: string) | Undecodable

  /**
   * The file name in a `Content-Disposition` value: a `filename*` value in
   * UTF-8 (percent-decoded by `decode`, which fails on malformed escapes),
   * else a quoted `filename`, else a bare `filename` token.
   */
  function NameFromHeader(disposition: string, decode: string -> Option<string>): HeaderName {
    var utf8 := Utf8Name(disposition);
    if utf8.Some? then (if decode(utf8.value).Some? then Name(decode(utf8.value).value) else Undecodable)
    else if QuotedName(disposition).Some? then Name(QuotedName(disposition).value)
    else if PlainName(disposition).Some? then Name(PlainName(disposition).value)
    else NoName
  }

  /** `path.split('/').pop() || 'download'` */
  function SegmentName(path: string): string {
    OrElse(Some(LastPart(path, '/')), DefaultFilename)
  }

  /** `urlOrBlob.split('?')[0].split('/').pop() || 'download'` */
  function UrlFilename(url: string): string {
    SegmentName(Split(url, '?')[0])
  }

  /**
   * The name taken from a path is its last segment, the text after its last
   * '/', or `download` when that is empty; it never holds a '/', nor a
   * character the path lacks.
   */
  lemma SegmentNameSpec(path: string, c: char)
    requires c !in path
    ensures var seg := LastPart(path, '/');
      && |seg| <= |path| && path[|path| - |seg|..] == seg
      && (|seg| < |path| ==> path[|path| - |seg| - 1] == '/')
      && SegmentName(path) == (if seg == "" then DefaultFilename else seg)
      && '/' !in SegmentName(path) && (c !in DefaultFilename ==> c !in SegmentName(path))
  {
    SplitLast(path, '/');
    LastPartAbsent(path, '/', c);
    assert '/' !in DefaultFilename;
  }

  /** The name taken from a URL is the one taken from its part before the first '?', so it holds no '?'. */
  lemma UrlFilenameSpec(url: string)
    ensures UrlFilename(url) == SegmentName(Before(url, '?'))
    ensures '/' !in UrlFilename(url) && '?' !in UrlFilename(url)
  {
    SplitFirst(url, '?');
    SegmentNameSpec(Before(url, '?'), '?');
    assert '?' !in DefaultFilename;
  }

  /**
   * `$download(urlOrBlob, filename)`: a blob is saved as given, named by the
   * argument or `download`. For a URL, the blob request's error rejects, and
   * so does a missing blob; otherwise the file name is the argument, else
   * the one in the header, else the one taken from the URL.
   */
  function DownloadOf<Blob>(source: DownloadSource<Blob>, filename: Option<string>, reply: BlobReply<Blob>,
                            decode: string -> Option<string>): Download<Blob>
  {
    match source
    case BlobArg(blob) => Saved(blob, OrElse(filename, DefaultFilename))
    case UrlArg(url) =>
      if reply.error.Some? then Rejected(RequestError(reply.error.value))
      else if reply.data.None? then Rejected(DownloadFailed)
      else
        var fromHeader := if !Truthy(filename) && Truthy(reply.disposition)
                          then NameFromHeader(reply.disposition.value, decode) else NoName;
        if fromHeader.Undecodable? then Rejected(MalformedName)
        else
          var chosen := if Truthy(filename) then filename else if fromHeader.Name? then Some(fromHeader.name) else None;
          Saved(reply.data.value, if Truthy(chosen) then chosen.value else UrlFilename(url))
  }

  /** A URL download rejects with the request's error, and without one when no blob came back. */
  lemma DownloadRejected<Blob>(url: string, filename: Option<string>, reply: BlobReply<Blob>, decode: string -> Option<string>)
    ensures reply.error.Some? ==> DownloadOf(UrlArg(url), filename, reply, decode) == Rejected(RequestError(reply.error.value))
    ensures reply.error.None? && reply.data.None? ==> DownloadOf(UrlArg(url), filename, reply, decode) == Rejected(DownloadFailed)
  {
  }

  /**
   * The file name of a URL download that came back with a blob, in the
   * order the sources are tried: the argument, the UTF-8 `filename*` value
   * (rejecting when it does not decode), the quoted and the bare `filename`,
   * and last the URL's own last segment.
   */
  lemma DownloadNamed<Blob>(url: string, filename: Option<string>, reply: BlobReply<Blob>, decode: string -> Option<string>)
    requires reply.error.None? && reply.data.Some?
    ensures var header := if Truthy(reply.disposition) then reply.disposition.value else "";
      var d := DownloadOf(UrlArg(url), filename, reply, decode);
      && (Truthy(filename) ==> d == Saved(reply.data.value, filename.value))
      && (!Truthy(filename) && Utf8Name(header).Some? ==>
            d == (if decode(Utf8Name(header).value).None? then Rejected(MalformedName)
                  else Saved(reply.data.value, OrElse(decode(Utf8Name(header).value), UrlFilename(url)))))
      && (!Truthy(filename) && Utf8Name(header).None? && QuotedName(header).Some? ==>
            d == Saved(reply.data.value, QuotedName(header).value))
      && (!Truthy(filename) && Utf8Name(header).None? && QuotedName(header).None? && PlainName(header).Some? ==>
            d == Saved(reply.data.value, PlainName(header).value))
      && (!Truthy(filename) && Utf8Name(header).None? && QuotedName(header).None? && PlainName(header).None? ==>
            d == Saved(reply.data.value, UrlFilename(url)))
  {
    var header := if Truthy(reply.disposition) then reply.disposition.value else "";
    if !Truthy(filename) {
      var fromHeader := NameFromHeader(header, decode);
      if !Truthy(reply.disposition) {
        NoHeaderName(decode);
      }
      assert DownloadOf(UrlArg(url), filename, reply, decode) ==
        if fromHeader.Undecodable? then Rejected(MalformedName)
        else Saved(reply.data.value, if fromHeader.Name? && fromHeader.name != "" then fromHeader.name else UrlFilename(url));
    }
  }

  /** An empty header names nothing. */
  lemma NoHeaderName(decode: string -> Option<string>)
    ensures NameFromHeader("", decode) == NoName
  {
    assert Utf8Name("").None? && QuotedName("").None? && PlainName("").None?;
  }

  /** A blob argument is saved at once, under the given name or `download`. */
  lemma DownloadBlob<Blob>(blob: Blob, filename: Option<string>, reply: BlobReply<Blob>, decode: string -> Option<string>)
    ensures DownloadOf(BlobArg(blob), filename, reply, decode) ==
            Saved(blob, if Truthy(filename) then filename.value else DefaultFilename)
  {
  }

  /** The request `$download` makes for a URL: the method given, `GET` by default. */
  function DownloadMethod(httpMethod: Option<string>): (r: string)
    ensures Truthy(httpMethod) ==> r == httpMethod.value
    ensures !Truthy(httpMethod) ==> r == "GET"
  {
    OrElse(httpMethod, "GET")
  }

  /**
   * `useSchemaMethods()`: the tab store, the current route's full path, the
   * configured API base URL, and the calls made so far.
   */
  class SchemaMethods {
    const store: Tabs.TabStore
    /** Whether the tab bar is shown (`themeStore.tab.visible`), which `isTabRetain` reads. */
    const tabVisible: bool
    const apiBaseUrl: string
    /** `route.fullPath` */
    var current: string
    var calls: seq<Call>

    constructor(store: Tabs.TabStore, tabVisible: bool, apiBaseUrl: Option<string>, current: string)
      ensures this.store == store && this.tabVisible == tabVisible && this.current == current
      ensures this.apiBaseUrl == OrElse(apiBaseUrl, "") && calls == []
    {
      this.store := store;
      this.tabVisible := tabVisible;
      this.apiBaseUrl := OrElse(apiBaseUrl, "");
      this.current := current;
      calls := [];
    }

    /** `tabId || route.fullPath` */
    function Target(tabId: Option<string>): string
      reads this
    {
      OrElse(tabId, current)
    }

    /** `$nav.push` */
    method Push(path: string)
      modifies this
      ensures calls == old(calls) + [RouterPush(path)] && current == old(current)
    {
      calls := calls + [RouterPush(path)];
    }

    /** `$nav.replace` */
    method Replace(path: string)
      modifies this
      ensures calls == old(calls) + [RouterReplace(path)] && current == old(current)
    {
      calls := calls + [RouterReplace(path)];
    }

    /** `$nav.back(delta = 1)` */
    method Back(delta: Option<int>)
      modifies this
      ensures calls == old(calls) + [RouterGo(-delta.GetOr(1))] && current == old(current)
    {
      calls := calls + [RouterGo(-delta.GetOr(1))];
    }

    /** `$nav.forward(delta = 1)` */
    method Forward(delta: Option<int>)
      modifies this
      ensures calls == old(calls) + [RouterGo(delta.GetOr(1))] && current == old(current)
    {
      calls := calls + [RouterGo(delta.GetOr(1))];
    }

    /** `$tab.close(tabId)`, reading the tab bar (`tabStore.tabs`, that is `allTabs`). */
    method Close(tabId: Option<string>)
      modifies this
      ensures calls == old(calls) + CloseCalls(store.AllTabs(), Target(tabId), current) && current == old(current)
    {
      var targetId := OrElse(tabId, current);
      var tabs := store.AllTabs();
      var currentIndex := FindIndex(tabs, Tabs.IdIs(targetId));
      if targetId == current && |tabs| > 1 {
        var nextTab := Neighbour(tabs, currentIndex);
        if nextTab.Some? {
          calls := calls + [RouterPush(nextTab.value.fullPath)];
        }
      }
      calls := calls + [RemoveTab(targetId)];
    }

    /**
     * `$tab.closeAndGo(path = '/')`: a push, and once it has resolved the
     * removal of the tab that was current when the call was made.
     */
    method CloseAndGo(path: Option<string>)
      modifies this
      ensures calls == old(calls) + [RouterPush(path.GetOr("/")), RemoveTab(old(current))] && current == old(current)
    {
      var currentId := current;
      calls := calls + [RouterPush(path.GetOr("/"))];
      calls := calls + [RemoveTab(currentId)];
    }

    /** `$tab.closeOthers` */
    method CloseOthers(tabId: Option<string>)
      modifies this
      ensures calls == old(calls) + [ClearTabs([Target(tabId)])] && current == old(current)
    {
      calls := calls + [ClearTabs([OrElse(tabId, current)])];
    }

    /** `$tab.closeLeft` */
    method CloseLeft(tabId: Option<string>)
      modifies this
      ensures calls == old(calls) + [ClearLeftTabs(Target(tabId))] && current == old(current)
    {
      calls := calls + [ClearLeftTabs(OrElse(tabId, current))];
    }

    /** `$tab.closeRight` */
    method CloseRight(tabId: Option<string>)
      modifies this
      ensures calls == old(calls) + [ClearRightTabs(Target(tabId))] && current == old(current)
    {
      calls := calls + [ClearRightTabs(OrElse(tabId, current))];
    }

    /** `$tab.open(path, title)`: the push; the relabelling after it is `Relabel`. */
    method Open(path: string)
      modifies this
      ensures calls == old(calls) + [RouterPush(path)] && current == old(current)
    {
      calls := calls + [RouterPush(path)];
    }

    /**
     * What `$tab.open` does once its push has resolved: with a title, the
     * first tab of the bar whose full path or route path is `path` takes it
     * as its label. The bar shows the home tab first, so that is the one
     * renamed when it matches.
     */
    method Relabel(path: string, title: Option<string>)
      modifies store
      ensures var home := old(store.homeTab);
        var i := FindIndex(old(store.tabs), OpenedAs(path, home));
        && (!Truthy(title) ==> store.tabs == old(store.tabs) && store.homeTab == home)
        && (Truthy(title) && home.Some? && Matches(home.value, path) ==>
              store.homeTab == Some(home.value.(caption := title.value)) && store.tabs == old(store.tabs))
        && (Truthy(title) && !(home.Some? && Matches(home.value, path)) ==>
              store.homeTab == home
              && store.tabs == (if i == -1 then old(store.tabs) else old(store.tabs)[i := old(store.tabs)[i].(caption := title.value)]))
      ensures store.defaultTabs == old(store.defaultTabs) && store.activeTabId == old(store.activeTabId)
      ensures store.stored == old(store.stored)
    {
      if !Truthy(title) {
        return;
      }
      var home := store.homeTab;
      if home.Some? && Matches(home.value, path) {
        store.homeTab := Some(home.value.(caption := title.value));
        return;
      }
      var i := FindIndex(store.tabs, OpenedAs(path, home));
      if i != -1 {
        store.tabs := store.tabs[i := store.tabs[i].(caption := title.value)];
      }
    }

    /** `$tab.openIframe(url, title)`, given `encodeURIComponent`. */
    method OpenIframe(url: string, title: string, encode: string -> string)
      modifies this
      ensures calls == old(calls) + [RouterPush(IframePath(url, title, encode))] && current == old(current)
    {
      calls := calls + [RouterPush(IframePath(url, title, encode))];
    }

    /** `$tab.refresh`: the current page again, through the redirect route. */
    method Refresh()
      modifies this
      ensures calls == old(calls) + [RouterReplace("/redirect" + current)] && current == old(current)
    {
      calls := calls + [RouterReplace("/redirect" + current)];
    }

    /** `$tab.fix` */
    method Fix(tabId: Option<string>)
      modifies this
      ensures calls == old(calls) + [FixTab(Target(tabId))] && current == old(current)
    {
      calls := calls + [FixTab(OrElse(tabId, current))];
    }

    /** `$tab.unfix` */
    method Unfix(tabId: Option<string>)
      modifies this
      ensures calls == old(calls) + [UnfixTab(Target(tabId))] && current == old(current)
    {
      calls := calls + [UnfixTab(OrElse(tabId, current))];
    }

    /** `$tab.isFixed`: whether the tab store retains the target (`isTabRetain`). */
    predicate IsFixed(tabId: Option<string>)
      reads this, store
    {
      store.IsTabRetain(OrElse(tabId, current), tabVisible)
    }

    /** `$window.open(url, target = '_blank', features)` */
    method OpenWindow(url: string, target: Option<string>, features: Option<string>)
      modifies this
      ensures calls == old(calls) + [WindowOpen(FullUrl(apiBaseUrl, url), target.GetOr("_blank"), features)]
      ensures current == old(current)
    {
      var fullUrl := if StartsWith(url, "/") && !StartsWith(url, "//") then apiBaseUrl + url else url;
      calls := calls + [WindowOpen(fullUrl, target.GetOr("_blank"), features)];
    }

    /** `$window.close` */
    method CloseWindow()
      modifies this
      ensures calls == old(calls) + [WindowClose] && current == old(current)
    {
      calls := calls + [WindowClose];
    }

    /** `$window.print` */
    method PrintWindow()
      modifies this
      ensures calls == old(calls) + [WindowPrint] && current == old(current)
    {
      calls := calls + [WindowPrint];
    }
  }

  /** The tab `$tab.open` looks for: its full path or its route path is `path`. */
  predicate Matches(t: Tabs.Tab, path: string) {
    t.fullPath == path || t.routePath == path
  }

  /** A tab after the home tab on the bar that matches `path`. */
  function OpenedAs(path: string, home: Option<Tabs.Tab>): Tabs.Tab -> bool {
    (t: Tabs.Tab) => Matches(t, path) && !Tabs.IsHomeId(home, t.id)
  }

  /** `/iframe?url=…&title=…` with both values encoded. */
  function IframePath(url: string, title: string, encode: string -> string): string {
    "/iframe?url=" + encode(url) + "&title=" + encode(title)
  }

  /**
   * The tab `Relabel` renames is the one `tabs.find` picks on the bar: the
   * home tab when it matches, else the first matching tab after it.
   */
  lemma RelabelPicksFind(tabs: seq<Tabs.Tab>, home: Option<Tabs.Tab>, path: string)
    ensures var found := Find(Tabs.AllTabsOf(tabs, home), (t: Tabs.Tab) => Matches(t, path));
      && (home.Some? && Matches(home.value, path) ==> found == home)
      && (!(home.Some? && Matches(home.value, path)) ==>
            var i := FindIndex(tabs, OpenedAs(path, home));
            found == (if i == -1 then None else Some(tabs[i])))
  {
    var p := (t: Tabs.Tab) => Matches(t, path);
    if home.Some? {
      var h := home.value;
      FindCons(h, Filter(tabs, Tabs.NotId(h.id)), p);
      FindFilter(tabs, Tabs.NotId(h.id), p, OpenedAs(path, home));
    } else {
      FindSame(tabs, p, OpenedAs(path, home));
    }
  }
}
