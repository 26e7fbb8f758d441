/**
 * The response-format configuration: where the status code, the payload,
 * the message and the pagination block sit in a backend envelope, reading
 * a value at a dotted path, the parsed envelope, the parsed pagination
 * block with its fallbacks, and a custom configuration merged over the
 * defaults.
 */
module ResponseFormat {
  import opened Wrappers
  import opened JsText

  /** A JSON-like JavaScript value, as a decoded response body holds it. */
  datatype Value =
    | Undef
    | Null
    | Bool(b: bool)
    | Num(n: int)
    | Str(s: string)
    | Arr(items: seq<Value>)
    | Obj(fields: map<string, Value>)

  /** JavaScript truthiness: `undefined`, `null`, `false`, `0` and `''` are falsy; arrays and objects are truthy. */
  predicate IsTruthy(v: Value) {
    !(v.Undef? || v.Null? || v == Bool(false) || v == Num(0) || v == Str(""))
  }

  predicate IsNullish(v: Value) {
    v.Undef? || v.Null?
  }

  /** `v || fallback` */
  function Or(v: Value, fallback: Value): (r: Value)
    ensures IsTruthy(v) ==> r == v
    ensures !IsTruthy(v) ==> r == fallback
  {
    if IsTruthy(v) then v else fallback
  }

  /** `v ?? fallback` */
  function OrNullish(v: Value, fallback: Value): (r: Value)
    ensures !IsNullish(v) ==> r == v
    ensures IsNullish(v) ==> r == fallback
  {
    if IsNullish(v) then fallback else v
  }

  /** `(v as Record<string, unknown>)[key]` on a value that is not nullish: an object's own property, else `undefined`. */
  function Prop(v: Value, key: string): Value {
    if v.Obj? && key in v.fields then v.fields[key] else Undef
  }

  /** Reading `keys` in turn from `v`; once a nullish value is met before the keys run out, the answer is `undefined`. */
  function Walk(v: Value, keys: seq<string>): Value
    decreases |keys|
  {
    if keys == [] then v
    else if IsNullish(v) then Undef
    else Walk(Prop(v, keys[0]), keys[1..])
  }

  /** What `getValueByPath(obj, path)` answers: nothing for a falsy object or an empty path, else the walk along the `.`-separated keys. */
  function ValueAt(obj: Value, path: string): Value {
    if !IsTruthy(obj) || path == "" then Undef else Walk(obj, Split(path, '.'))
  }

  /** `getValueByPath`, with the loop over the keys. */
  method GetValueByPath(obj: Value, path: string) returns (r: Value)
    ensures r == ValueAt(obj, path)
  {
    if !IsTruthy(obj) || path == "" {
      return Undef;
    }
    var keys := Split(path, '.');
    var result := obj;
    var i := 0;
    while i < |keys|
      invariant 0 <= i <= |keys|
      invariant Walk(obj, keys) == Walk(result, keys[i..])
    {
      if IsNullish(result) {
        return Undef;
      }
      assert keys[i..][1..] == keys[i + 1..];
      result := Prop(result, keys[i]);
      i := i + 1;
    }
    return result;
  }

  lemma WalkUndefined(keys: seq<string>)
    ensures Walk(Undef, keys) == Undef
  { }

  /** Walking a concatenation of key lists is walking the first list, then the second from there. */
  lemma {:induction false} WalkConcat(v: Value, ks: seq<string>, ls: seq<string>)
    ensures Walk(v, ks + ls) == Walk(Walk(v, ks), ls)
    decreases |ks|
  {
    if ks == [] {
      assert ks + ls == ls;
    } else if IsNullish(v) {
      WalkUndefined(ls);
    } else {
      assert (ks + ls)[1..] == ks[1..] + ls;
      WalkConcat(Prop(v, ks[0]), ks[1..], ls);
    }
  }

  /** A falsy value has no properties worth reading: any non-empty walk from it ends at `undefined`. */
  lemma WalkFromFalsy(v: Value, keys: seq<string>)
    requires !IsTruthy(v) && keys != []
    ensures Walk(v, keys) == Undef
  {
    WalkUndefined(keys[1..]);
  }

  /**
   * `getValueByPath`: undefined for a falsy object or an empty path; a
   * path without a dot reads that one property; and a dotted path reads as
   * the path before the dot followed by the path after it.
   */
  lemma ValueAtSpec(obj: Value, path: string)
    ensures !IsTruthy(obj) || path == "" ==> ValueAt(obj, path) == Undef
    ensures IsTruthy(obj) && path != "" && '.' !in path ==> ValueAt(obj, path) == Prop(obj, path)
  {
    if IsTruthy(obj) && path != "" && '.' !in path {
      SplitSingle(path, '.');
      SplitJoin(path, '.');
      var keys := Split(path, '.');
      assert keys == [path];
      assert keys[1..] == [];
      assert !IsNullish(obj);
      assert Walk(obj, keys) == Walk(Prop(obj, path), []);
    }
  }

  lemma ValueAtCompose(obj: Value, p: string, q: string)
    requires p != "" && q != ""
    ensures ValueAt(obj, p + "." + q) == ValueAt(ValueAt(obj, p), q)
  {
    if IsTruthy(obj) {
      SplitConcat(p, q, '.');
      var ks, ls := Split(p, '.'), Split(q, '.');
      WalkConcat(obj, ks, ls);
      if !IsTruthy(Walk(obj, ks)) {
        WalkFromFalsy(Walk(obj, ks), ls);
      }
    }
  }

  /** The nested-path case: `result.code` in `{ result: { code: v } }` is `v`. */
  lemma NestedPath(outer: string, inner: string, v: Value, rest: map<string, Value>)
    requires outer != "" && inner != "" && '.' !in outer && '.' !in inner
    ensures ValueAt(Obj(rest[outer := Obj(map[inner := v])]), outer + "." + inner) == v
  {
    var obj := Obj(rest[outer := Obj(map[inner := v])]);
    ValueAtCompose(obj, outer, inner);
    ValueAtSpec(obj, outer);
    ValueAtSpec(Obj(map[inner := v]), inner);
  }

  /** A status-code value, number or string. */
  datatype Code = NumCode(n: int) | StrCode(s: string) {
    function AsValue(): Value {
      match this
      case NumCode(n) => Num(n)
      case StrCode(s) => Str(s)
    }
  }

  /** Where the pagination fields sit; each property may be missing at run time. */
  datatype PaginationConfig = PaginationConfig(
    totalField: Field<string>,
    pageField: Field<string>,
    pageSizeField: Field<string>,
    listField: Field<string>)

  /** `ResponseFormatConfig`, or a partial one: each property may be missing or `undefined`. */
  datatype FormatConfig = FormatConfig(
    codeField: Field<string>,
    successCode: Field<Code>,
    dataField: Field<string>,
    messageField: Field<string>,
    pagination: Field<PaginationConfig>)

  const DefaultPagination := PaginationConfig(Defined("total"), Defined("page"), Defined("pageSize"), Defined("list"))

  /** `responseConfig`: `{ code: 0, data: ..., message: ... }` with `total`/`page`/`pageSize`/`list` pagination. */
  const DefaultConfig := FormatConfig(Defined("code"), Defined(NumCode(0)), Defined("data"), Defined("message"), Defined(DefaultPagination))

  /** An empty custom configuration, `{}`. */
  const EmptyConfig := FormatConfig(Absent, Absent, Absent, Absent, Absent)

  /** A path property as `getValueByPath` sees it: a missing one is falsy, like `''`. */
  function PathOf(f: Field<string>): string {
    f.Read().GetOr("")
  }

  /** The right-hand side of `code === config.successCode`. */
  function SuccessValue(f: Field<Code>): Value {
    match f.Read()
    case Some(c) => c.AsValue()
    case None => Undef
  }

  /** The parsed envelope. */
  datatype Parsed = Parsed(success: bool, data: Value, message: Value, code: Value)

  /** `parseResponse(response, config)` */
  function ParseResponse(response: Value, config: FormatConfig): Parsed {
    var code := ValueAt(response, PathOf(config.codeField));
    Parsed(
      code == SuccessValue(config.successCode),
      ValueAt(response, PathOf(config.dataField)),
      Or(ValueAt(response, PathOf(config.messageField)), Str("")),
      OrNullish(code, Str("")))
  }

  /**
   * With a configured success code, success holds exactly when the code
   * found in the envelope is that very number or string; the code is never
   * nullish (a missing one reads as `''`), the message is truthy or `''`,
   * and the data is the value at the data path.
   */
  lemma ParseResponseSpec(response: Value, config: FormatConfig, c: Code)
    requires config.successCode == Defined(c)
    ensures var p := ParseResponse(response, config);
      && (p.success <==> ValueAt(response, PathOf(config.codeField)) == c.AsValue())
      && (p.success ==> p.code == c.AsValue())
      && !IsNullish(p.code)
      && (IsTruthy(p.message) || p.message == Str(""))
      && p.data == ValueAt(response, PathOf(config.dataField))
  { }

  /** With the defaults, a response succeeds exactly when its `code` property is the number 0; the string `'0'` does not. */
  lemma DefaultSuccess(fields: map<string, Value>)
    ensures ParseResponse(Obj(fields), DefaultConfig).success <==> "code" in fields && fields["code"] == Num(0)
    ensures ParseResponse(Obj(fields[ "code" := Str("0")]), DefaultConfig).success == false
  {
    ValueAtSpec(Obj(fields), "code");
    ValueAtSpec(Obj(fields["code" := Str("0")]), "code");
  }

  /** A null, undefined or empty response is a failure with no data, an empty message and code `''`. */
  lemma EmptyResponse(response: Value)
    requires response == Null || response == Undef || response == Obj(map[])
    ensures ParseResponse(response, DefaultConfig) == Parsed(false, Undef, Str(""), Str(""))
  {
    ValueAtSpec(response, "code");
    ValueAtSpec(response, "data");
    ValueAtSpec(response, "message");
  }

  /**
   * When a configuration has no success code at all, `code === undefined`
   * decides: success holds exactly when the code is missing, and the code
   * then reads as `''`.
   */
  lemma MissingSuccessCode(response: Value, config: FormatConfig)
    requires !config.successCode.Defined?
    ensures ParseResponse(response, config).success <==> ValueAt(response, PathOf(config.codeField)) == Undef
    ensures ParseResponse(response, config).success ==> ParseResponse(response, config).code == Str("")
  { }

  /** The parsed pagination block. */
  datatype Page = Page(list: Value, total: Value, page: Value, pageSize: Value)

  /** `parsePaginationData(data, config)` */
  function ParsePaginationData(data: Value, config: PaginationConfig): Page {
    Page(
      Or(ValueAt(data, PathOf(config.listField)), Arr([])),
      Or(ValueAt(data, PathOf(config.totalField)), Num(0)),
      Or(ValueAt(data, PathOf(config.pageField)), Num(1)),
      Or(ValueAt(data, PathOf(config.pageSizeField)), Num(10)))
  }

  /**
   * Every field keeps a truthy value found at its path and otherwise falls
   * back to `[]`, `0`, `1` and `10`: the list, the page and the page size
   * are always truthy, so page `0` comes back as page `1`.
   */
  lemma PaginationSpec(data: Value, config: PaginationConfig)
    ensures var p := ParsePaginationData(data, config);
      && (IsTruthy(ValueAt(data, PathOf(config.listField))) ==> p.list == ValueAt(data, PathOf(config.listField)))
      && (!IsTruthy(ValueAt(data, PathOf(config.listField))) ==> p.list == Arr([]))
      && (IsTruthy(ValueAt(data, PathOf(config.totalField))) ==> p.total == ValueAt(data, PathOf(config.totalField)))
      && (!IsTruthy(ValueAt(data, PathOf(config.totalField))) ==> p.total == Num(0))
      && (IsTruthy(ValueAt(data, PathOf(config.pageField))) ==> p.page == ValueAt(data, PathOf(config.pageField)))
      && (!IsTruthy(ValueAt(data, PathOf(config.pageField))) ==> p.page == Num(1))
      && (IsTruthy(ValueAt(data, PathOf(config.pageSizeField))) ==> p.pageSize == ValueAt(data, PathOf(config.pageSizeField)))
      && (!IsTruthy(ValueAt(data, PathOf(config.pageSizeField))) ==> p.pageSize == Num(10))
      && IsTruthy(p.list) && IsTruthy(p.page) && IsTruthy(p.pageSize)
      && p.page != Num(0)
  { }

  /** An empty data object parses to the defaults `[]`, `0`, `1`, `10`. */
  lemma EmptyPagination()
    ensures ParsePaginationData(Obj(map[]), DefaultPagination) == Page(Arr([]), Num(0), Num(1), Num(10))
  {
    ValueAtSpec(Obj(map[]), "list");
    ValueAtSpec(Obj(map[]), "total");
    ValueAtSpec(Obj(map[]), "page");
    ValueAtSpec(Obj(map[]), "pageSize");
  }

  /** `{ ...base, ...over }` on a pagination configuration. */
  function SpreadPagination(base: PaginationConfig, over: PaginationConfig): PaginationConfig {
    PaginationConfig(
      Spread(base.totalField, over.totalField),
      Spread(base.pageField, over.pageField),
      Spread(base.pageSizeField, over.pageSizeField),
      Spread(base.listField, over.listField))
  }

  /** `{ ...base, ...over }` on a format configuration: shallow, so a given `pagination` replaces the base's outright. */
  function SpreadConfig(base: FormatConfig, over: FormatConfig): FormatConfig {
    FormatConfig(
      Spread(base.codeField, over.codeField),
      Spread(base.successCode, over.successCode),
      Spread(base.dataField, over.dataField),
      Spread(base.messageField, over.messageField),
      Spread(base.pagination, over.pagination))
  }

  /** `createResponseConfig(custom)` */
  function CreateResponseConfig(custom: FormatConfig): FormatConfig {
    var basePagination := DefaultConfig.pagination;
    var customPagination := custom.pagination;
    SpreadConfig(DefaultConfig, custom).(pagination :=
      if basePagination.Defined? && customPagination.Defined?
      then Defined(SpreadPagination(basePagination.value, customPagination.value))
      else if customPagination.Defined? then customPagination else basePagination)
  }

  /**
   * Each top-level property given in the custom configuration (even as
   * `undefined`) overrides the default; each one left out keeps it. A
   * given pagination block is merged field by field over the default one,
   * and otherwise (left out or `undefined`) the default block stays, so the
   * result always has a pagination block.
   */
  lemma CreateResponseConfigSpec(custom: FormatConfig)
    ensures var r := CreateResponseConfig(custom);
      && r.codeField == (if custom.codeField.Present() then custom.codeField else Defined("code"))
      && r.successCode == (if custom.successCode.Present() then custom.successCode else Defined(NumCode(0)))
      && r.dataField == (if custom.dataField.Present() then custom.dataField else Defined("data"))
      && r.messageField == (if custom.messageField.Present() then custom.messageField else Defined("message"))
      && r.pagination.Defined?
      && (!custom.pagination.Defined? ==> r.pagination.value == DefaultPagination)
      && (custom.pagination.Defined? ==>
            var p := custom.pagination.value;
            var q := r.pagination.value;
            && q.totalField == (if p.totalField.Present() then p.totalField else Defined("total"))
            && q.pageField == (if p.pageField.Present() then p.pageField else Defined("page"))
            && q.pageSizeField == (if p.pageSizeField.Present() then p.pageSizeField else Defined("pageSize"))
            && q.listField == (if p.listField.Present() then p.listField else Defined("list")))
  { }

  /** `createResponseConfig({})` is the default configuration. */
  lemma CreateEmptyIsDefault()
    ensures CreateResponseConfig(EmptyConfig) == DefaultConfig
  { }

  /** Unlike the shallow spread, `createResponseConfig` keeps the default pagination fields a partial block leaves out. */
  lemma PartialPaginationKeepsDefaults(total: string, list: string)
    ensures var custom := EmptyConfig.(pagination := Defined(PaginationConfig(Defined(total), Absent, Absent, Defined(list))));
      && CreateResponseConfig(custom).pagination == Defined(PaginationConfig(Defined(total), Defined("page"), Defined("pageSize"), Defined(list)))
      && SpreadConfig(DefaultConfig, custom).pagination == Defined(PaginationConfig(Defined(total), Absent, Absent, Defined(list)))
  { }
}
