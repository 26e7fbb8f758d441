/**
 * The request/response adapter: the request interceptor that adds the
 * authentication header and custom headers on a fresh headers object, the
 * response interceptor's decisions on success and on failure, the error
 * message shown for a failed request, the stored global adapter
 * configuration, and the `ResponseAdapter` that parses envelopes under a
 * configuration it holds.
 */
module RequestAdapter {
  import opened Wrappers
  import opened ResponseFormat

  // ---------------------------------------------------------------------
  // Request interceptor
  // ---------------------------------------------------------------------

  /** A headers object (`Record<string, string>`), which the interceptor fills in place. */
  class Headers {
    var entries: map<string, string>

    constructor(init: map<string, string>)
      ensures entries == init
    {
      entries := init;
    }

    /** `headers[name] = value` */
    method Set(name: string, value: string)
      modifies this
      ensures entries == old(entries)[name := value]
    {
      entries := entries[name := value];
    }

    /** `Object.assign(headers, extra)`: the extra entries win. */
    method Assign(extra: map<string, string>)
      modifies this
      ensures entries == old(entries) + extra
    {
      entries := entries + extra;
    }
  }

  /** The part of `RequestConfig` the interceptor looks at; the spread copies the rest along unchanged. */
  datatype Request = Request(url: string, httpMethod: Option<string>, headers: Option<Headers>)

  /** `RequestInterceptorConfig`; a hook is modelled as the function it computes on the request record. */
  datatype RequestInterceptorConfig = RequestInterceptorConfig(
    addToken: Field<bool>,
    tokenHeader: Field<string>,
    tokenPrefix: Field<string>,
    customHeaders: Field<map<string, string>>,
    beforeRequest: Field<Request -> Request>)

  /** `defaultRequestConfig` */
  const DefaultRequestConfig := RequestInterceptorConfig(Defined(true), Defined("Authorization"), Defined("Bearer "), Absent, Absent)

  const EmptyRequestConfig := RequestInterceptorConfig(Absent, Absent, Absent, Absent, Absent)

  /** `{ ...defaultRequestConfig, ...config }`; an omitted argument means the defaults, which spread to the same thing as `{}`. */
  function FinalRequestConfig(config: RequestInterceptorConfig): RequestInterceptorConfig {
    RequestInterceptorConfig(
      Spread(DefaultRequestConfig.addToken, config.addToken),
      Spread(DefaultRequestConfig.tokenHeader, config.tokenHeader),
      Spread(DefaultRequestConfig.tokenPrefix, config.tokenPrefix),
      Spread(DefaultRequestConfig.customHeaders, config.customHeaders),
      Spread(DefaultRequestConfig.beforeRequest, config.beforeRequest))
  }

  /** The header the token goes under: `tokenHeader || 'Authorization'`. */
  function TokenHeaderName(fin: RequestInterceptorConfig): string {
    OrElse(fin.tokenHeader.Read(), "Authorization")
  }

  /** `tokenPrefix ? tokenPrefix + token : token` */
  function TokenHeaderValue(fin: RequestInterceptorConfig, token: string): string {
    if Truthy(fin.tokenPrefix.Read()) then fin.tokenPrefix.value + token else token
  }

  /** Whether the token header is written: `addToken` is truthy and a non-empty token is stored. */
  predicate WritesToken(fin: RequestInterceptorConfig, token: Option<string>) {
    fin.addToken == Defined(true) && Truthy(token)
  }

  /** The headers after the token and the custom headers are applied to a copy of `base`. */
  function BuiltHeaders(fin: RequestInterceptorConfig, token: Option<string>, base: map<string, string>): map<string, string> {
    var withToken := if WritesToken(fin, token) then base[TokenHeaderName(fin) := TokenHeaderValue(fin, token.value)] else base;
    if fin.customHeaders.Defined? then withToken + fin.customHeaders.value else withToken
  }

  /** The entries of the caller's headers, `req.headers || {}`. */
  function HeadersOf(req: Request): map<string, string>
    reads if req.headers.Some? then {req.headers.value} else {}
  {
    if req.headers.Some? then req.headers.value.entries else map[]
  }

  /**
   * The function `createRequestInterceptor(config)` returns, applied to
   * `req` with the stored token `token`: a fresh headers object holding a
   * copy of the caller's headers, then the token header, then the custom
   * headers; `beforeRequest`, when given, sees that request last and its
   * answer is returned. The method changes no existing object, so the
   * caller's headers object is left as it was.
   */
  method Intercept(config: RequestInterceptorConfig, token: Option<string>, req: Request) returns (out: Request)
    ensures var fin := FinalRequestConfig(config);
      exists h: Headers ::
        && fresh(h)
        && h.entries == BuiltHeaders(fin, token, old(HeadersOf(req)))
        && out == (if fin.beforeRequest.Defined? then fin.beforeRequest.value(req.(headers := Some(h))) else req.(headers := Some(h)))
  {
    var fin := FinalRequestConfig(config);
    var h := new Headers(HeadersOf(req));
    if fin.addToken == Defined(true) {
      if Truthy(token) {
        h.Set(TokenHeaderName(fin), TokenHeaderValue(fin, token.value));
      }
    }
    if fin.customHeaders.Defined? {
      h.Assign(fin.customHeaders.value);
    }
    var next := req.(headers := Some(h));
    if fin.beforeRequest.Defined? {
      out := fin.beforeRequest.value(next);
    } else {
      out := next;
    }
  }

  /**
   * The token header is set to the prefixed token exactly when `addToken`
   * holds and a token is stored, unless a custom header of that name
   * overrides it; custom headers always win; every other header keeps the
   * caller's value (or stays missing).
   */
  lemma BuiltHeadersSpec(config: RequestInterceptorConfig, token: Option<string>, base: map<string, string>, k: string)
    ensures var fin := FinalRequestConfig(config);
      var r := BuiltHeaders(fin, token, base);
      var custom := if fin.customHeaders.Defined? then fin.customHeaders.value else map[];
      && (k in custom ==> k in r && r[k] == custom[k])
      && (k !in custom && WritesToken(fin, token) && k == TokenHeaderName(fin) ==>
            k in r && r[k] == TokenHeaderValue(fin, token.value))
      && (k !in custom && !(WritesToken(fin, token) && k == TokenHeaderName(fin)) ==>
            (k in r <==> k in base) && (k in base ==> r[k] == base[k]))
  { }

  /** With the defaults, a stored token `t` goes out as `Authorization: Bearer t`, and without a token no header is added. */
  lemma DefaultTokenHeader(token: string, base: map<string, string>)
    requires token != ""
    ensures BuiltHeaders(FinalRequestConfig(EmptyRequestConfig), Some(token), base) == base["Authorization" := "Bearer " + token]
    ensures BuiltHeaders(FinalRequestConfig(EmptyRequestConfig), None, base) == base
    ensures BuiltHeaders(FinalRequestConfig(EmptyRequestConfig), Some(""), base) == base
  { }

  /** Turning `addToken` off, or giving a falsy prefix, changes only what the token header says. */
  lemma TokenSwitches(config: RequestInterceptorConfig, token: string, base: map<string, string>)
    requires token != ""
    ensures config.addToken == Defined(false) ==>
      BuiltHeaders(FinalRequestConfig(config), Some(token), base) == BuiltHeaders(FinalRequestConfig(config), None, base)
    ensures config.tokenPrefix == Defined("") && config.addToken.Absent? && config.tokenHeader.Absent? && config.customHeaders.Absent? ==>
      BuiltHeaders(FinalRequestConfig(config), Some(token), base) == base["Authorization" := token]
  { }

  // ---------------------------------------------------------------------
  // Response interceptor
  // ---------------------------------------------------------------------

  /** `ResponseInterceptorConfig`; a hook field records only whether a hook was given. */
  datatype ResponseInterceptorConfig = ResponseInterceptorConfig(
    responseFormat: Field<FormatConfig>,
    autoHandleError: Field<bool>,
    onError: Field<()>,
    onSuccess: Field<()>,
    onTokenExpired: Field<()>,
    tokenExpiredStatus: Field<int>)

  /** `defaultResponseConfig` */
  const DefaultResponseConfig := ResponseInterceptorConfig(Defined(DefaultConfig), Defined(true), Absent, Absent, Absent, Defined(401))

  const EmptyResponseInterceptorConfig := ResponseInterceptorConfig(Absent, Absent, Absent, Absent, Absent, Absent)

  /** `{ ...defaultResponseConfig, ...config }` */
  function FinalResponseConfig(config: ResponseInterceptorConfig): ResponseInterceptorConfig {
    ResponseInterceptorConfig(
      Spread(DefaultResponseConfig.responseFormat, config.responseFormat),
      Spread(DefaultResponseConfig.autoHandleError, config.autoHandleError),
      Spread(DefaultResponseConfig.onError, config.onError),
      Spread(DefaultResponseConfig.onSuccess, config.onSuccess),
      Spread(DefaultResponseConfig.onTokenExpired, config.onTokenExpired),
      Spread(DefaultResponseConfig.tokenExpiredStatus, config.tokenExpiredStatus))
  }

  /** A fetch `Response`, as far as the adapter reads it. */
  datatype HttpResponse = HttpResponse(status: nat)

  /** A thrown `Error`. */
  datatype ErrorInfo = ErrorInfo(name: string, message: string)

  /** What an interceptor call does, in order. */
  datatype Effect = SuccessHook | TokenExpiredHook | ShowError(message: Value) | ErrorHook

  /** `onFulfilled`: the success hook, when given, sees the response, which is handed back unchanged. */
  function OnFulfilled(config: ResponseInterceptorConfig, response: HttpResponse): (r: (seq<Effect>, HttpResponse))
    ensures r.1 == response
    ensures r.0 == [SuccessHook] <==> config.onSuccess.Defined?
    ensures r.0 == [] <==> !config.onSuccess.Defined?
  {
    var fin := FinalResponseConfig(config);
    (if fin.onSuccess.Defined? then [SuccessHook] else [], response)
  }

  /** `tokenExpiredStatus && response?.status === tokenExpiredStatus` */
  predicate TokenExpired(fin: ResponseInterceptorConfig, response: Option<HttpResponse>) {
    fin.tokenExpiredStatus.Defined? && fin.tokenExpiredStatus.value != 0
    && response.Some? && response.value.status == fin.tokenExpiredStatus.value
  }

  /**
   * `onRejected(error, response, body)`. `hasMessageApi` says whether
   * `window.$message` exists. The message shown comes from the default
   * response format, whatever `responseFormat` the configuration holds.
   */
  function OnRejected(config: ResponseInterceptorConfig, hasMessageApi: bool, error: ErrorInfo, response: Option<HttpResponse>, body: Value): seq<Effect> {
    var fin := FinalResponseConfig(config);
    (if TokenExpired(fin, response) && fin.onTokenExpired.Defined? then [TokenExpiredHook] else [])
    + (if fin.autoHandleError == Defined(true) && hasMessageApi then [ShowError(ErrorMessage(error, response, body))] else [])
    + (if fin.onError.Defined? then [ErrorHook] else [])
  }

  /**
   * The token-expired hook runs exactly when the response status equals the
   * configured expiry status (401 unless overridden) and a hook is given,
   * and it runs first; the error hook, when given, always runs, and runs
   * last; a message is shown exactly when automatic handling is on (the
   * default) and the message API exists.
   */
  lemma OnRejectedSpec(config: ResponseInterceptorConfig, hasMessageApi: bool, error: ErrorInfo, response: Option<HttpResponse>, body: Value)
    ensures var fin := FinalResponseConfig(config);
      var es := OnRejected(config, hasMessageApi, error, response, body);
      && (TokenExpiredHook in es <==> TokenExpired(fin, response) && config.onTokenExpired.Defined?)
      && (TokenExpiredHook in es ==> es[0] == TokenExpiredHook)
      && (ErrorHook in es <==> config.onError.Defined?)
      && (ErrorHook in es ==> es[|es| - 1] == ErrorHook)
      && ((exists m :: ShowError(m) in es) <==> (!config.autoHandleError.Present() || config.autoHandleError == Defined(true)) && hasMessageApi)
      && (forall m :: ShowError(m) in es ==> m == ErrorMessage(error, response, body))
      && SuccessHook !in es
  {
    var fin := FinalResponseConfig(config);
    var es := OnRejected(config, hasMessageApi, error, response, body);
    if fin.autoHandleError == Defined(true) && hasMessageApi {
      assert ShowError(ErrorMessage(error, response, body)) in es;
    }
  }

  /** With the default configuration a 401 triggers the expiry hook, and no other status does. */
  lemma DefaultExpiryStatus(status: nat, error: ErrorInfo, body: Value)
    ensures var config := EmptyResponseInterceptorConfig.(onTokenExpired := Defined(()));
      TokenExpiredHook in OnRejected(config, true, error, Some(HttpResponse(status)), body) <==> status == 401
    ensures var config := EmptyResponseInterceptorConfig.(onTokenExpired := Defined(()));
      TokenExpiredHook !in OnRejected(config, true, error, None, body)
  { }

  // ---------------------------------------------------------------------
  // Error message
  // ---------------------------------------------------------------------

  /** The decimal digits of `n`. */
  function Decimal(n: nat): (s: string)
    ensures |s| >= 1 && forall i :: 0 <= i < |s| ==> '0' <= s[i] <= '9'
    ensures n >= 10 ==> s[0] != '0'
  {
    if n < 10 then [Digit(n)] else Decimal(n / 10) + [Digit(n % 10)]
  }

  function Digit(d: nat): char
    requires d < 10
  {
    ['0', '1', '2', '3', '4', '5', '6', '7', '8', '9'][d]
  }

  function DigitValue(c: char): nat {
    if '0' <= c <= '9' then (c as int - '0' as int) as nat else 0
  }

  /** The number a string of decimal digits denotes. */
  function DecimalValue(s: string): nat {
    if s == [] then 0 else DecimalValue(s[..|s| - 1]) * 10 + DigitValue(s[|s| - 1])
  }

  /** Reading back the printed digits gives the number: two statuses never print alike. */
  lemma {:induction false} DecimalRoundTrip(n: nat)
    ensures DecimalValue(Decimal(n)) == n
  {
    var s := Decimal(n);
    if n < 10 {
      assert s[..0] == [];
    } else {
      DecimalRoundTrip(n / 10);
      assert s[..|s| - 1] == Decimal(n / 10);
    }
  }

  /** The status texts: the statuses of the table have fixed texts, any other one is spelled out. */
  function StatusText(status: nat): string {
    match status
    case 400 => "请求参数错误"
    case 401 => "未授权，请重新登录"
    case 403 => "拒绝访问"
    case 404 => "请求的资源不存在"
    case 500 => "服务器内部错误"
    case 502 => "网关错误"
    case 503 => "服务不可用"
    case 504 => "网关超时"
    case _ => "请求失败: " + Decimal(status)
  }

  predicate InTable(status: nat) {
    status in {400, 401, 403, 404, 500, 502, 503, 504}
  }

  const FailedPrefix := "请求失败: "

  /** Statuses outside the table get texts of their own, telling their statuses apart. */
  lemma StatusTextSpec(a: nat, b: nat)
    ensures !InTable(a) ==> StatusText(a) == FailedPrefix + Decimal(a)
    ensures !InTable(a) && !InTable(b) && StatusText(a) == StatusText(b) ==> a == b
  {
    if !InTable(a) && !InTable(b) && StatusText(a) == StatusText(b) {
      var p := FailedPrefix;
      assert Decimal(a) == StatusText(a)[|p|..];
      assert Decimal(b) == StatusText(b)[|p|..];
      DecimalRoundTrip(a);
      DecimalRoundTrip(b);
    }
  }

  /** The message property of an error body, read where the default format keeps it. */
  function BodyMessage(body: Value): Value {
    if body.Obj? then ValueAt(body, PathOf(DefaultConfig.messageField)) else Undef
  }

  /** `getErrorMessage(error, response, body)` */
  function ErrorMessage(error: ErrorInfo, response: Option<HttpResponse>, body: Value): Value {
    if body.Obj? && IsTruthy(BodyMessage(body)) then BodyMessage(body)
    else if response.Some? then Str(StatusText(response.value.status))
    else if error.name == "AbortError" then Str("请求超时，请稍后重试")
    else Str(if error.message != "" then error.message else "未知错误")
  }

  /**
   * The priority of the sources: a truthy `message` in an object body
   * first, then the status text of a response, then the timeout text for an
   * `AbortError`, then the error's own message, then `'未知错误'`. An array
   * or a primitive body is never read.
   */
  lemma ErrorMessageSpec(error: ErrorInfo, response: Option<HttpResponse>, body: Value)
    ensures var m := ErrorMessage(error, response, body);
      var fromBody := body.Obj? && "message" in body.fields && IsTruthy(body.fields["message"]);
      && (fromBody ==> m == body.fields["message"])
      && (!fromBody && response.Some? ==> m == Str(StatusText(response.value.status)))
      && (!fromBody && response.None? && error.name == "AbortError" ==> m == Str("请求超时，请稍后重试"))
      && (!fromBody && response.None? && error.name != "AbortError" && error.message != "" ==> m == Str(error.message))
      && (!fromBody && response.None? && error.name != "AbortError" && error.message == "" ==> m == Str("未知错误"))
      && IsTruthy(m)
  {
    if body.Obj? {
      ValueAtSpec(body, "message");
    }
    if response.Some? {
      var s := response.value.status;
      if !InTable(s) {
        assert StatusText(s)[0] == '请';
      }
    }
  }

  // ---------------------------------------------------------------------
  // Global adapter configuration
  // ---------------------------------------------------------------------

  /** `AdapterConfig` */
  datatype AdapterConfig = AdapterConfig(request: Field<RequestInterceptorConfig>, response: Field<ResponseInterceptorConfig>)

  /** The module-level `globalAdapterConfig`, starting as `{}`. */
  class AdapterSettings {
    var global: AdapterConfig

    constructor()
      ensures global == AdapterConfig(Absent, Absent)
    {
      global := AdapterConfig(Absent, Absent);
    }

    /** `setupInterceptors(config)`: the configuration is stored as given; an omitted one means `{}`. */
    method SetupInterceptors(config: Option<AdapterConfig>)
      modifies this
      ensures global == config.GetOr(AdapterConfig(Absent, Absent))
    {
      global := config.GetOr(AdapterConfig(Absent, Absent));
    }

    /** `getAdapterConfig()` */
    function GetAdapterConfig(): AdapterConfig
      reads this
    {
      global
    }
  }

  // ---------------------------------------------------------------------
  // ResponseAdapter
  // ---------------------------------------------------------------------

  /** `ResponseAdapter`: envelope parsing under a configuration it holds and can update. */
  class ResponseAdapter {
    var config: FormatConfig

    /** `new ResponseAdapter(config)`; an omitted configuration means the default one. */
    constructor(config: Option<FormatConfig>)
      ensures this.config == config.GetOr(DefaultConfig)
    {
      this.config := config.GetOr(DefaultConfig);
    }

    function Parse(response: Value): Parsed
      reads this
    {
      ParseResponse(response, config)
    }

    /** `parsePagination`: `None` stands for the error thrown when the configuration has no pagination block. */
    function ParsePagination(data: Value): (r: Option<Page>)
      reads this
      ensures r.None? <==> !config.pagination.Defined?
      ensures r.Some? ==> r.value.page != Num(0) && IsTruthy(r.value.list)
    {
      if !config.pagination.Defined? then None
      else
        PaginationSpec(data, config.pagination.value);
        Some(ParsePaginationData(data, config.pagination.value))
    }

    function IsSuccess(response: Value): bool
      reads this
    {
      ValueAt(response, PathOf(config.codeField)) == SuccessValue(config.successCode)
    }

    function GetData(response: Value): Value
      reads this
    {
      ValueAt(response, PathOf(config.dataField))
    }

    function GetMessage(response: Value): Value
      reads this
    {
      Or(ValueAt(response, PathOf(config.messageField)), Str(""))
    }

    function GetCode(response: Value): Value
      reads this
    {
      OrNullish(ValueAt(response, PathOf(config.codeField)), Str(""))
    }

    /** `updateConfig(partial)`: a shallow spread over the held configuration. */
    method UpdateConfig(partial: FormatConfig)
      modifies this
      ensures config == SpreadConfig(old(config), partial)
    {
      config := SpreadConfig(config, partial);
    }
  }

  /** `createResponseAdapter(config)` */
  method CreateResponseAdapter(config: Option<FormatConfig>) returns (a: ResponseAdapter)
    ensures fresh(a) && a.config == config.GetOr(DefaultConfig)
  {
    a := new ResponseAdapter(config);
  }

  /** The separate accessors agree with `parseResponse` under the adapter's configuration. */
  lemma AdapterAgreesWithParse(a: ResponseAdapter, response: Value)
    ensures a.IsSuccess(response) == ParseResponse(response, a.config).success
    ensures a.GetData(response) == ParseResponse(response, a.config).data
    ensures a.GetMessage(response) == ParseResponse(response, a.config).message
    ensures a.GetCode(response) == ParseResponse(response, a.config).code
    ensures a.Parse(response) == Parsed(a.IsSuccess(response), a.GetData(response), a.GetMessage(response), a.GetCode(response))
  { }

  /**
   * `updateConfig` is shallow: properties it is given replace the held
   * ones (a pagination block outright, so fields it leaves out are gone),
   * the others stay; an empty update changes nothing, and repeating an
   * update changes nothing more. Setting `pagination: undefined` makes
   * `parsePagination` throw.
   */
  lemma UpdateConfigSpec(held: FormatConfig, partial: FormatConfig)
    ensures SpreadConfig(held, EmptyConfig) == held
    ensures SpreadConfig(SpreadConfig(held, partial), partial) == SpreadConfig(held, partial)
    ensures partial.pagination.Present() ==> SpreadConfig(held, partial).pagination == partial.pagination
    ensures !partial.codeField.Present() ==> SpreadConfig(held, partial).codeField == held.codeField
    ensures partial.pagination == Field.Undefined ==> !SpreadConfig(held, partial).pagination.Defined?
  { }
}
