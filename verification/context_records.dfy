/**
 * The request and response context records that ApiService hands to its
 * listeners (pushRequestContext and pushResponseContext in src/index.ts,
 * record shapes in src/types.ts). Both builders are pure projections of a
 * request descriptor (and, for the response, of the reply) onto a flat record
 * from which every key whose value is `undefined` is dropped
 * (`_.omitBy(record, _.isUndefined)`). A dropped key is a `None` field here;
 * `RequestHasKey` and `ResponseHasKey` say which keys a record emits.
 */
module ContextRecords {
  import opened Wrappers

  /** The JavaScript values that can reach a record field. */
  datatype Js =
    | Undefined
    | Null
    | Bool(b: bool)
    | Num(n: int)
    | Str(s: string)
    | Dict(entries: map<string, string>)

  /** Header slot that carries the correlation identifier. */
  const RequestIdHeader: string := "X-Request-Id"
  /** `'Unknown'.toUpperCase()`: the method label when the method is missing. */
  const UnknownMethod: string := "UNKNOWN"
  /** The route label when the url is missing. */
  const UnknownRoute: string := "Unknown"

  /** Snapshot of the request-descriptor fields the builders read. */
  datatype ConfigView = ConfigView(
    httpMethod: Option<string>,
    url: Option<string>,
    data: Js,
    headers: Option<map<string, string>>,
    params: Js,
    startTimestamp: Option<int>)

  /** The keys a context record may carry, named as they are emitted (src/types.ts). */
  datatype Key =
    | Duration | Method | RequestData | RequestHeaders | RequestId
    | RequestParams | ResponseData | ResponseHeaders | Route | Status

  /** `$RequestContext` after undefined keys are dropped. */
  datatype RequestRecord = RequestRecord(
    httpMethod: string,
    requestData: Option<Js>,
    requestHeaders: Option<Js>,
    requestId: string,
    requestParams: Option<Js>,
    route: string)

  /** `$ResponseContext` after undefined keys are dropped. */
  datatype ResponseRecord = ResponseRecord(
    duration: int,
    httpMethod: string,
    requestData: Option<Js>,
    requestHeaders: Option<Js>,
    requestId: string,
    requestParams: Option<Js>,
    responseData: Option<Js>,
    responseHeaders: Option<Js>,
    route: string,
    status: int)

  /** JavaScript truthiness of an optional string: missing and "" are falsy. */
  predicate Truthy(s: Option<string>)
  {
    s.Some? && s.value != ""
  }

  predicate IsLower(c: char)
  {
    'a' <= c <= 'z'
  }

  /** `toUpperCase` on one character (ASCII letters only). */
  function UpperChar(c: char): (u: char)
    ensures !IsLower(u)
    ensures !IsLower(c) ==> u == c
    ensures IsLower(c) ==> u as int == c as int - 32
  {
    if IsLower(c) then (c as int - 32) as char else c
  }

  /** `toUpperCase` on a string: each character upper-cased, in place. */
  function Upper(s: string): (r: string)
    ensures |r| == |s|
    ensures forall i :: 0 <= i < |s| ==> r[i] == UpperChar(s[i])
  {
    if s == [] then [] else [UpperChar(s[0])] + Upper(s[1..])
  }

  /** The method label: the upper-cased method, or UNKNOWN when it is missing or empty. */
  function MethodLabel(httpMethod: Option<string>): string
  {
    if Truthy(httpMethod) then Upper(httpMethod.value) else UnknownMethod
  }

  /** The label is `(config.method || 'Unknown').toUpperCase()`. */
  lemma MethodLabelUpperCasesFallback(httpMethod: Option<string>)
    ensures MethodLabel(httpMethod) == Upper(if Truthy(httpMethod) then httpMethod.value else "Unknown")
  {
  }

  /** `config.url || 'Unknown'` */
  function RouteLabel(url: Option<string>): string
  {
    if Truthy(url) then url.value else UnknownRoute
  }

  /** `_.isUndefined` filter on one field: an undefined value leaves no key. */
  function Defined(v: Js): (o: Option<Js>)
    ensures o.Some? <==> v != Undefined
    ensures o.Some? ==> o.value == v
  {
    if v == Undefined then None else Some(v)
  }

  function HeadersValue(headers: Option<map<string, string>>): Js
  {
    if headers.Some? then Dict(headers.value) else Undefined
  }

  /** `_.get(config, 'headers.X-Request-Id', '')` */
  function HeaderRequestId(headers: Option<map<string, string>>): string
  {
    if headers.Some? && RequestIdHeader in headers.value then headers.value[RequestIdHeader] else ""
  }

  /**
   * The header object after the request interceptor writes `requestId` into
   * `X-Request-Id`; a descriptor without headers gets a fresh object.
   */
  function StampHeaders(headers: Option<map<string, string>>, requestId: string): map<string, string>
  {
    (if headers.Some? then headers.value else map[])[RequestIdHeader := requestId]
  }

  /** `_.get(config, 'startTimestamp', endTimestamp)` */
  function StartOr(start: Option<int>, end: int): int
  {
    if start.Some? then start.value else end
  }

  /** The record pushRequestContext hands to the request-context listener. */
  function RequestContext(config: ConfigView, requestId: string): (r: RequestRecord)
    ensures r.httpMethod == if Truthy(config.httpMethod) then Upper(config.httpMethod.value) else UnknownMethod
    ensures r.route == if Truthy(config.url) then config.url.value else UnknownRoute
    ensures r.requestId == requestId
    ensures r.requestData.Some? <==> config.data != Undefined
    ensures r.requestData.Some? ==> r.requestData.value == config.data
    ensures r.requestHeaders.Some? <==> config.headers.Some?
    ensures r.requestHeaders.Some? ==> r.requestHeaders.value == Dict(config.headers.value)
    ensures r.requestParams.Some? <==> config.params != Undefined
    ensures r.requestParams.Some? ==> r.requestParams.value == config.params
  {
    RequestRecord(
      MethodLabel(config.httpMethod),
      Defined(config.data),
      Defined(HeadersValue(config.headers)),
      requestId,
      Defined(config.params),
      RouteLabel(config.url))
  }

  /** The record pushResponseContext hands to the response-context listener. */
  function ResponseContext(config: ConfigView, data: Js, headers: Js, status: int, endTimestamp: int)
    : (r: ResponseRecord)
    ensures r.requestId == if config.headers.Some? && RequestIdHeader in config.headers.value
                           then config.headers.value[RequestIdHeader] else ""
    ensures config.startTimestamp.None? ==> r.duration == 0
    ensures config.startTimestamp.Some? ==> r.duration == endTimestamp - config.startTimestamp.value
    ensures r.status == status
    ensures r.responseData.Some? <==> data != Undefined
    ensures r.responseData.Some? ==> r.responseData.value == data
    ensures r.responseHeaders.Some? <==> headers != Undefined
    ensures r.responseHeaders.Some? ==> r.responseHeaders.value == headers
  {
    var common := RequestContext(config, HeaderRequestId(config.headers));
    ResponseRecord(
      endTimestamp - StartOr(config.startTimestamp, endTimestamp),
      common.httpMethod,
      common.requestData,
      common.requestHeaders,
      common.requestId,
      common.requestParams,
      Defined(data),
      Defined(headers),
      common.route,
      status)
  }

  /** The fields a response record shares with a request record. */
  function RequestPart(r: ResponseRecord): RequestRecord
  {
    RequestRecord(r.httpMethod, r.requestData, r.requestHeaders, r.requestId, r.requestParams, r.route)
  }

  /** Whether an emitted request record carries key `k`. */
  predicate RequestHasKey(r: RequestRecord, k: Key)
  {
    match k
    case Method | RequestId | Route => true
    case RequestData => r.requestData.Some?
    case RequestHeaders => r.requestHeaders.Some?
    case RequestParams => r.requestParams.Some?
    case _ => false
  }

  /** Whether an emitted response record carries key `k`. */
  predicate ResponseHasKey(r: ResponseRecord, k: Key)
  {
    match k
    case Duration | Status => true
    case ResponseData => r.responseData.Some?
    case ResponseHeaders => r.responseHeaders.Some?
    case _ => RequestHasKey(RequestPart(r), k)
  }

  /** Whether the value a key would hold before `_.omitBy` is anything but `undefined`. */
  predicate ResponseValueDefined(config: ConfigView, data: Js, headers: Js, k: Key)
  {
    match k
    case RequestData => config.data != Undefined
    case RequestHeaders => config.headers.Some?
    case RequestParams => config.params != Undefined
    case ResponseData => data != Undefined
    case ResponseHeaders => headers != Undefined
    case _ => true
  }

  /** No optional field of an emitted record holds `undefined`. */
  predicate NoUndefined(r: ResponseRecord)
  {
    && (r.requestData.Some? ==> r.requestData.value != Undefined)
    && (r.requestHeaders.Some? ==> r.requestHeaders.value != Undefined)
    && (r.requestParams.Some? ==> r.requestParams.value != Undefined)
    && (r.responseData.Some? ==> r.responseData.value != Undefined)
    && (r.responseHeaders.Some? ==> r.responseHeaders.value != Undefined)
  }

  /**
   * The omission rule: a key is emitted exactly when the descriptor or reply
   * gives it a value other than `undefined` (`null` is kept), and no emitted
   * key holds `undefined`.
   */
  lemma ResponseKeysAreDefinedFields(config: ConfigView, data: Js, headers: Js, status: int, endTimestamp: int, k: Key)
    ensures NoUndefined(ResponseContext(config, data, headers, status, endTimestamp))
    ensures ResponseHasKey(ResponseContext(config, data, headers, status, endTimestamp), k)
            <==> ResponseValueDefined(config, data, headers, k)
  {
  }

  /**
   * The same rule for the request record, whose possible keys are those of
   * the response record without Duration, ResponseData, ResponseHeaders and Status.
   */
  lemma RequestKeysAreDefinedFields(config: ConfigView, requestId: string, k: Key)
    ensures RequestHasKey(RequestContext(config, requestId), k)
            <==> k !in {Duration, ResponseData, ResponseHeaders, Status}
                 && ResponseValueDefined(config, Undefined, Undefined, k)
  {
  }

  /**
   * A response record carries every field of the request record built from the
   * same descriptor and the id found in its header, with the same value.
   */
  lemma ResponseExtendsRequest(config: ConfigView, data: Js, headers: Js, status: int, endTimestamp: int)
    ensures RequestPart(ResponseContext(config, data, headers, status, endTimestamp))
            == RequestContext(config, HeaderRequestId(config.headers))
    ensures forall k :: RequestHasKey(RequestContext(config, HeaderRequestId(config.headers)), k)
                        ==> ResponseHasKey(ResponseContext(config, data, headers, status, endTimestamp), k)
  {
  }

  /**
   * Stamping writes the id under `X-Request-Id`, where the response builder
   * reads it back, and leaves every other header as it was.
   */
  lemma StampedHeaderIsReadBack(headers: Option<map<string, string>>, requestId: string, name: string)
    ensures HeaderRequestId(Some(StampHeaders(headers, requestId))) == requestId
    ensures name != RequestIdHeader ==>
              (name in StampHeaders(headers, requestId) <==> headers.Some? && name in headers.value)
    ensures name != RequestIdHeader && name in StampHeaders(headers, requestId) ==>
              StampHeaders(headers, requestId)[name] == headers.value[name]
  {
  }

  /**
   * Stamping a stamped descriptor again replaces the earlier id: every attempt
   * of a reissued descriptor carries only its own id.
   */
  lemma RestampReplacesId(headers: Option<map<string, string>>, first: string, second: string)
    ensures StampHeaders(Some(StampHeaders(headers, first)), second) == StampHeaders(headers, second)
  {
  }

  /**
   * For a stamped descriptor, the request record and the response record of
   * the same attempt carry the same id, and the response record's duration is
   * the time elapsed since the stamp.
   */
  lemma StampedRecordsCorrelate(config: ConfigView, requestId: string, sentAt: int,
                                data: Js, headers: Js, status: int, settledAt: int)
    requires exists h :: config.headers == Some(StampHeaders(h, requestId))
    requires config.startTimestamp == Some(sentAt)
    ensures ResponseContext(config, data, headers, status, settledAt).requestId
            == RequestContext(config, requestId).requestId == requestId
    ensures ResponseContext(config, data, headers, status, settledAt).duration == settledAt - sentAt
    ensures RequestPart(ResponseContext(config, data, headers, status, settledAt)) == RequestContext(config, requestId)
  {
    var h :| config.headers == Some(StampHeaders(h, requestId));
    StampedHeaderIsReadBack(h, requestId, RequestIdHeader);
  }

  /** The method label is never empty and never holds a lower-case letter. */
  lemma MethodLabelIsUpperCase(httpMethod: Option<string>)
    ensures MethodLabel(httpMethod) != ""
    ensures forall i :: 0 <= i < |MethodLabel(httpMethod)| ==> !IsLower(MethodLabel(httpMethod)[i])
  {
  }

  /** A start stamp from a clock that does not go backwards gives a non-negative duration. */
  lemma DurationNonNegative(config: ConfigView, data: Js, headers: Js, status: int, endTimestamp: int)
    requires config.startTimestamp.Some? ==> config.startTimestamp.value <= endTimestamp
    ensures ResponseContext(config, data, headers, status, endTimestamp).duration >= 0
  {
  }
}
