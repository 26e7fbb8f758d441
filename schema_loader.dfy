/**
 * The schema loader: loading a page schema from its source with a
 * last-call-wins request token, the missing-source case, bounded retries
 * and reset. The asynchronous fetch is split into the synchronous start of
 * `load` and an explicit completion event carrying the request's token and
 * its outcome.
 */
module SchemaLoader {
  import opened Wrappers
  import opened ResponseFormat

  /** What the fetch of a schema came back with. */
  datatype Outcome =
    | Fetched(raw: Value)
    /** A thrown error: its message and its `status` property, if any. */
    | Failed(message: string, status: Option<int>)

  /** The option callbacks, in the order they were called. */
  datatype Callback = OnLoading | OnLoaded(schema: Value) | OnError(message: string)

  const DefaultMissingSourceMessage := "Schema 来源未配置"

  const DefaultMaxRetries := 3

  /** `(err as any).status || null` */
  function ErrorStatus(status: Option<int>): (r: Option<int>)
    ensures r.Some? <==> status.Some? && status.value != 0
    ensures r.Some? ==> r == status
  {
    if status.Some? && status.value != 0 then status else None
  }

  /** The state behind `useSchemaLoader(options)`; the fields are its refs, `requestId` its closure counter. */
  class Loader {
    var schema: Option<Value>
    var loading: bool
    var error: Option<string>
    var errorStatus: Option<int>
    var retryCount: int
    var requestId: nat
    /** The current value of the `source` getter. */
    var source: Option<string>
    var calls: seq<Callback>

    const maxRetries: int
    const requireSource: bool
    const missingSourceMessage: string
    const transform: Option<Value -> Value>
    const watchSource: bool
    const hasOnLoading: bool
    const hasOnLoaded: bool
    const hasOnError: bool

    /**
     * `useSchemaLoader(options)`: empty state with `loading` from
     * `initialLoading`, `maxRetries` 3 unless given, and a first `load`
     * when `immediate` is set (with or without the source watcher).
     */
    constructor(source: Option<string>, immediate: bool, watchSource: bool, requireSource: bool,
                missingSourceMessage: Option<string>, maxRetries: Option<int>, initialLoading: bool,
                transform: Option<Value -> Value>, hasOnLoading: bool, hasOnLoaded: bool, hasOnError: bool)
      ensures this.source == source && this.watchSource == watchSource && this.requireSource == requireSource
      ensures this.missingSourceMessage == missingSourceMessage.GetOr(DefaultMissingSourceMessage)
      ensures this.maxRetries == maxRetries.GetOr(DefaultMaxRetries) && this.transform == transform
      ensures this.hasOnLoading == hasOnLoading && this.hasOnLoaded == hasOnLoaded && this.hasOnError == hasOnError
      ensures retryCount == 0 && schema == None && errorStatus == None
      ensures !immediate ==> requestId == 0 && loading == initialLoading && error == None && calls == []
      ensures immediate ==> requestId == 1 && (loading <==> Truthy(source))
      ensures immediate && Truthy(source) ==> error == None && calls == (if hasOnLoading then [OnLoading] else [])
      ensures immediate && !Truthy(source) ==>
        error == (if requireSource then Some(this.missingSourceMessage) else None) && calls == []
    {
      this.source := source;
      this.watchSource := watchSource;
      this.requireSource := requireSource;
      this.missingSourceMessage := missingSourceMessage.GetOr(DefaultMissingSourceMessage);
      this.maxRetries := maxRetries.GetOr(DefaultMaxRetries);
      this.transform := transform;
      this.hasOnLoading := hasOnLoading;
      this.hasOnLoaded := hasOnLoaded;
      this.hasOnError := hasOnError;
      schema := None;
      loading := initialLoading;
      error := None;
      errorStatus := None;
      retryCount := 0;
      requestId := 0;
      calls := [];
      new;
      if immediate {
        var _ := Load();
      }
    }

    /** The schema a successful fetch installs: `transform(raw)`, or `raw` without a transform. */
    function Installed(raw: Value): Value
      reads this
    {
      if transform.Some? then transform.value(raw) else raw
    }

    /**
     * The synchronous part of `load()`: the request takes a new token. Without
     * a source the load ends at once (no token is handed out) with no schema,
     * not loading and no status, and the missing-source message only when a
     * source is required; with one, loading starts with the error cleared.
     */
    method Load() returns (ticket: Option<nat>)
      modifies this
      ensures requestId == old(requestId) + 1
      ensures retryCount == old(retryCount) && source == old(source)
      ensures !Truthy(source) ==>
        && ticket == None && schema == None && !loading && errorStatus == None
        && error == (if requireSource then Some(missingSourceMessage) else old(error))
        && calls == old(calls)
      ensures Truthy(source) ==>
        && ticket == Some(requestId) && loading && error == None && errorStatus == None && schema == old(schema)
        && calls == old(calls) + (if hasOnLoading then [OnLoading] else [])
    {
      requestId := requestId + 1;
      if !Truthy(source) {
        if requireSource {
          error := Some(missingSourceMessage);
        }
        schema := None;
        loading := false;
        errorStatus := None;
        return None;
      }
      loading := true;
      error := None;
      errorStatus := None;
      if hasOnLoading {
        calls := calls + [OnLoading];
      }
      return Some(requestId);
    }

    /**
     * The completion of the fetch a `load` with token `id` started. Unless
     * `id` is still the latest token nothing changes (last call wins);
     * otherwise a success installs the schema and resets the retry count, a
     * failure records the message and the status (a missing or zero status
     * as none) and drops the schema, and loading ends either way.
     */
    method Complete(id: nat, outcome: Outcome)
      modifies this
      ensures id != old(requestId) ==> unchanged(this)
      ensures id == old(requestId) ==> !loading && requestId == old(requestId) && source == old(source)
      ensures id == old(requestId) && outcome.Fetched? ==>
        && schema == Some(Installed(outcome.raw)) && retryCount == 0
        && error == old(error) && errorStatus == old(errorStatus)
        && calls == old(calls) + (if hasOnLoaded then [OnLoaded(Installed(outcome.raw))] else [])
      ensures id == old(requestId) && outcome.Failed? ==>
        && schema == None && error == Some(outcome.message) && errorStatus == ErrorStatus(outcome.status)
        && retryCount == old(retryCount)
        && calls == old(calls) + (if hasOnError then [OnError(outcome.message)] else [])
    {
      if id != requestId {
        return;
      }
      match outcome {
        case Fetched(raw) =>
          schema := Some(Installed(raw));
          retryCount := 0;
          if hasOnLoaded {
            calls := calls + [OnLoaded(Installed(raw))];
          }
        case Failed(message, status) =>
          error := Some(message);
          errorStatus := ErrorStatus(status);
          schema := None;
          if hasOnError {
            calls := calls + [OnError(message)];
          }
      }
      loading := false;
    }

    /** `retry()`: nothing once the retries are used up; otherwise one more retry is counted and a load starts. */
    method Retry() returns (ticket: Option<nat>)
      modifies this
      ensures old(retryCount) >= maxRetries ==> unchanged(this) && ticket == None
      ensures old(retryCount) < maxRetries ==>
        && retryCount == old(retryCount) + 1 && requestId == old(requestId) + 1
        && (ticket.Some? <==> Truthy(source)) && (ticket.Some? ==> ticket.value == requestId && loading)
    {
      if retryCount >= maxRetries {
        return None;
      }
      retryCount := retryCount + 1;
      ticket := Load();
    }

    /** `reset()`: a new token, so no fetch in flight can land, and the state cleared. */
    method Reset()
      modifies this
      ensures requestId == old(requestId) + 1
      ensures schema == None && !loading && error == None && errorStatus == None && retryCount == 0
      ensures source == old(source) && calls == old(calls)
    {
      requestId := requestId + 1;
      schema := None;
      loading := false;
      error := None;
      errorStatus := None;
      retryCount := 0;
    }

    /** The `source` getter changing its value: with the watcher on, a load starts. */
    method SourceChanged(newSource: Option<string>) returns (ticket: Option<nat>)
      modifies this
      ensures source == newSource
      ensures !watchSource || newSource == old(source) ==>
        ticket == None && requestId == old(requestId) && schema == old(schema) && loading == old(loading)
        && error == old(error) && errorStatus == old(errorStatus) && retryCount == old(retryCount) && calls == old(calls)
      ensures watchSource && newSource != old(source) ==>
        requestId == old(requestId) + 1 && (ticket.Some? <==> Truthy(newSource)) && retryCount == old(retryCount)
    {
      var changed := newSource != source;
      source := newSource;
      ticket := None;
      if watchSource && changed {
        ticket := Load();
      }
    }
  }

  /**
   * Last call wins: of two loads started one after the other, the first
   * one's completion, whenever it arrives after the second has started,
   * changes nothing, and the second one's completion still applies.
   */
  method LastCallWins(l: Loader, first: Outcome, second: Outcome)
    requires Truthy(l.source)
    modifies l
    ensures !l.loading
    ensures second.Fetched? ==> l.schema == Some(l.Installed(second.raw))
    ensures second.Failed? ==> l.schema == None && l.error == Some(second.message)
  {
    var t1 := l.Load();
    var t2 := l.Load();
    assert t1.Some? && t2.Some? && t1.value < t2.value;
    l.Complete(t1.value, first);
    l.Complete(t2.value, second);
  }

  /** A reset while a fetch is in flight: its completion is ignored and the cleared state stays. */
  method ResetCancels(l: Loader, outcome: Outcome)
    requires Truthy(l.source)
    modifies l
    ensures l.schema == None && !l.loading && l.error == None && l.errorStatus == None && l.retryCount == 0
  {
    var t := l.Load();
    l.Reset();
    l.Complete(t.value, outcome);
  }
}
