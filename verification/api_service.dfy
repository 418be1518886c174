/**
 * ApiService (src/index.ts): the interceptor pipeline around the HTTP
 * transport. A request descriptor is stamped with a fresh correlation id and
 * a start time and reported to the request-context listener; a settled
 * attempt passes the unauthenticated stage, the response-context stage and the
 * retry stage, in that order, and the retry stage may send the same
 * descriptor again.
 *
 * Listener functions are named by `Callback` values; calling one is recorded
 * by appending to the log of its slot, with the argument it received. The
 * transport, the id generator and the clock are replaced by a script that
 * gives, for each attempt, the id to stamp, the start and end times and the
 * transport's reply.
 */
module ApiPipeline {
  import opened Wrappers
  import opened ContextRecords
  import opened RetryPolicy

  /** Status that triggers the unauthenticated handler. */
  const UnauthenticatedStatus: int := 401

  /** A registered handler or listener; the slots start with the no-op `() => {}`. */
  datatype Callback = NoOp | Registered(id: nat)

  /** A request descriptor (axios request config with the pipeline's own fields). */
  class RequestConfig {
    var httpMethod: Option<string>
    var url: Option<string>
    var data: Js
    var headers: Option<map<string, string>>
    var params: Js
    var retryQty: RetryQty
    var retryDelay: Option<int>
    var startTimestamp: Option<int>

    constructor (httpMethod: Option<string>, url: Option<string>, data: Js,
                 headers: Option<map<string, string>>, params: Js,
                 retryQty: RetryQty, retryDelay: Option<int>)
      ensures this.httpMethod == httpMethod && this.url == url && this.data == data
      ensures this.headers == headers && this.params == params
      ensures this.retryQty == retryQty && this.retryDelay == retryDelay
      ensures this.startTimestamp == None
    {
      this.httpMethod := httpMethod;
      this.url := url;
      this.data := data;
      this.headers := headers;
      this.params := params;
      this.retryQty := retryQty;
      this.retryDelay := retryDelay;
      this.startTimestamp := None;
    }

    /** The fields the context records read. */
    function View(): ConfigView
      reads this
    {
      ConfigView(httpMethod, url, data, headers, params, startTimestamp)
    }
  }

  /** A settled reply; `config` is the descriptor it answers. */
  datatype Response = Response(config: RequestConfig, data: Js, headers: Js, status: int)

  /** A failed attempt as the response interceptors see it (axios error). */
  datatype HttpError = HttpError(message: Option<string>, config: Option<RequestConfig>, response: Option<Response>)

  /** `_.get(error, 'response.status') === 401` */
  predicate IsUnauthenticated(error: HttpError)
  {
    error.response.Some? && error.response.value.status == UnauthenticatedStatus
  }

  /** What the retry interceptor returns for a failed attempt. */
  datatype RetryStep =
    | RejectWith(error: HttpError)                   // `Promise.reject(error)`
    | ReissueAfter(delay: int, config: RequestConfig) // wait, then `connection.request(config)`
    | ThrowTypeError                                  // `message.includes` threw

  /** What the transport answers with: body, headers and status. */
  datatype Answer = Answer(data: Js, headers: Js, status: int)

  /** The transport's verdict on one attempt. */
  datatype Reply =
    | Success(answer: Answer)
    | Failure(message: Option<string>, configAttached: bool, failedAnswer: Option<Answer>)

  /** Everything outside the pipeline that one attempt consumes: id, clock readings, reply. */
  datatype Attempt = Attempt(requestId: string, sentAt: int, reply: Reply, settledAt: int)

  /** How a call settles; `Pending` when the script ends while a reissue is due. */
  datatype Settlement =
    | Resolved(response: Response)
    | Rejected(error: HttpError)
    | TypeErrorThrown
    | Pending

  function ResponseTo(config: RequestConfig, answer: Answer): Response
  {
    Response(config, answer.data, answer.headers, answer.status)
  }

  /** The error object the transport hands to the response interceptors for a failed reply. */
  function ErrorFor(config: RequestConfig, reply: Reply): HttpError
    requires reply.Failure?
  {
    HttpError(
      reply.message,
      if reply.configAttached then Some(config) else None,
      if reply.failedAnswer.Some? then Some(ResponseTo(config, reply.failedAnswer.value)) else None)
  }

  predicate RepliesUnauthenticated(reply: Reply)
  {
    reply.Failure? && reply.failedAnswer.Some? && reply.failedAnswer.value.status == UnauthenticatedStatus
  }

  /** A reply that carries a response: every success, and failures with an answer. */
  predicate HasAnswer(reply: Reply)
  {
    reply.Success? || reply.failedAnswer.Some?
  }

  /** A failure the retry stage always wants to retry: transient message, descriptor attached. */
  predicate TransientFailure(reply: Reply)
  {
    reply.Failure? && reply.configAttached && reply.message.Some? && IsTransient(reply.message.value)
  }

  /** Among the first `n` attempts of `s`, those whose reply has status 401. */
  function CountUnauthenticated(s: seq<Attempt>, n: nat): nat
    requires n <= |s|
  {
    if n == 0 then 0
    else CountUnauthenticated(s, n - 1) + (if RepliesUnauthenticated(s[n - 1].reply) then 1 else 0)
  }

  /** Among the first `n` attempts of `s`, those whose reply carries a response. */
  function CountAnswered(s: seq<Attempt>, n: nat): nat
    requires n <= |s|
  {
    if n == 0 then 0
    else CountAnswered(s, n - 1) + (if HasAnswer(s[n - 1].reply) then 1 else 0)
  }

  /** The ids stamped on the first `n` attempts of `s`, in order. */
  function StampedIds(s: seq<Attempt>, n: nat): (ids: seq<string>)
    requires n <= |s|
    ensures |ids| == n
  {
    if n == 0 then [] else StampedIds(s, n - 1) + [s[n - 1].requestId]
  }

  /** The ids carried by the records of a request-context log, in order. */
  function RecordedIds(log: seq<(Callback, RequestRecord)>): (ids: seq<string>)
    ensures |ids| == |log|
  {
    if log == [] then [] else RecordedIds(log[..|log| - 1]) + [log[|log| - 1].1.requestId]
  }

  /** Every entry of `log` from position `from` on went to `cb`. */
  predicate SentFrom<R>(log: seq<(Callback, R)>, from: nat, cb: Callback)
    decreases |log| - from
  {
    from >= |log| || (log[from].0 == cb && SentFrom(log, from + 1, cb))
  }

  /** Every call of `calls` from position `from` on was a call of `cb`. */
  predicate CalledFrom(calls: seq<Callback>, from: nat, cb: Callback)
    decreases |calls| - from
  {
    from >= |calls| || (calls[from] == cb && CalledFrom(calls, from + 1, cb))
  }

  /** `SentFrom` holds exactly when every entry from `from` on went to `cb`. */
  lemma {:induction false} SentFromIff<R>(log: seq<(Callback, R)>, from: nat, cb: Callback)
    ensures SentFrom(log, from, cb) <==> forall k :: from <= k < |log| ==> log[k].0 == cb
    decreases |log| - from
  {
    if from < |log| {
      SentFromIff(log, from + 1, cb);
    }
  }

  /** `CalledFrom` holds exactly when every call from `from` on was of `cb`. */
  lemma {:induction false} CalledFromIff(calls: seq<Callback>, from: nat, cb: Callback)
    ensures CalledFrom(calls, from, cb) <==> forall k :: from <= k < |calls| ==> calls[k] == cb
    decreases |calls| - from
  {
    if from < |calls| {
      CalledFromIff(calls, from + 1, cb);
    }
  }

  /**
   * One attempt's step on a log that extends `log0`: keeping its entries and
   * adding at most one, for `cb`, keeps it an extension of `log0` sent to `cb`.
   */
  lemma {:induction false} SentStep<R>(log0: seq<(Callback, R)>, log: seq<(Callback, R)>, next: seq<(Callback, R)>,
                                       cb: Callback, from: nat)
    requires log0 <= log && |log0| <= from <= |log| && SentFrom(log, from, cb)
    requires log <= next && |next| <= |log| + 1
    requires |next| == |log| + 1 ==> next[|log|].0 == cb
    ensures log0 <= next && SentFrom(next, from, cb)
    decreases |log| - from
  {
    if from < |log| {
      SentStep(log0, log, next, cb, from + 1);
    }
  }

  /** `SentStep` for the handler log. */
  lemma {:induction false} CalledStep(calls0: seq<Callback>, calls: seq<Callback>, next: seq<Callback>,
                                      cb: Callback, from: nat)
    requires calls0 <= calls && |calls0| <= from <= |calls| && CalledFrom(calls, from, cb)
    requires calls <= next && |next| <= |calls| + 1
    requires |next| == |calls| + 1 ==> next[|calls|] == cb
    ensures calls0 <= next && CalledFrom(next, from, cb)
    decreases |calls| - from
  {
    if from < |calls| {
      CalledStep(calls0, calls, next, cb, from + 1);
    }
  }

  /** `RecordedIds` lists, position by position, the id of each record of the log. */
  lemma {:induction false} RecordedIdsAt(log: seq<(Callback, RequestRecord)>, i: nat)
    requires i < |log|
    ensures RecordedIds(log)[i] == log[i].1.requestId
  {
    if i < |log| - 1 {
      RecordedIdsAt(log[..|log| - 1], i);
    }
  }

  /** `StampedIds` lists, position by position, the id stamped on each attempt. */
  lemma {:induction false} StampedIdsAt(s: seq<Attempt>, n: nat, i: nat)
    requires i < n <= |s|
    ensures StampedIds(s, n)[i] == s[i].requestId
  {
    if i < n - 1 {
      StampedIdsAt(s, n - 1, i);
    }
  }

  /**
   * A log whose ids are those of `before` followed by the ids stamped on `n`
   * attempts holds one new record per attempt, the j-th carrying the j-th
   * attempt's id.
   */
  lemma {:induction false} IdsLineUp(before: seq<(Callback, RequestRecord)>, after: seq<(Callback, RequestRecord)>,
                  s: seq<Attempt>, n: nat, j: nat)
    requires n <= |s| && j < n
    requires RecordedIds(after) == RecordedIds(before) + StampedIds(s, n)
    ensures |after| == |before| + n
    ensures after[|before| + j].1.requestId == s[j].requestId
  {
    var ids := RecordedIds(before) + StampedIds(s, n);
    assert ids[|before| + j] == StampedIds(s, n)[j];
    RecordedIdsAt(after, |before| + j);
    StampedIdsAt(s, n, j);
  }

  /**
   * Attempt `j` of `script` fails and the retry stage asks for a reissue, the
   * descriptor's count having taken `j` steps from `qty0` by then.
   */
  predicate ReissuedAt(script: seq<Attempt>, j: nat, qty0: RetryQty, retryDelay: Option<int>)
    requires j < |script|
  {
    script[j].reply.Failure?
    && Decide(script[j].reply.message, script[j].reply.configAttached, QtyAfter(qty0, j), retryDelay).Reissue?
  }

  /**
   * The attempts a call makes from attempt `i` on, the count having started at
   * `qty0`: attempts go on while the retry stage reissues, and stop after the
   * first attempt that is not reissued or at the end of the script.
   */
  function AttemptsFrom(script: seq<Attempt>, i: nat, qty0: RetryQty, retryDelay: Option<int>): (n: nat)
    requires i <= |script|
    ensures n <= |script| - i
    decreases |script| - i
  {
    if i == |script| then 0
    else if ReissuedAt(script, i, qty0, retryDelay) then 1 + AttemptsFrom(script, i + 1, qty0, retryDelay)
    else 1
  }

  /** Every attempt before the last one counted by `AttemptsFrom` was reissued. */
  lemma {:induction false} AttemptsFromReissued(script: seq<Attempt>, i: nat, qty0: RetryQty, retryDelay: Option<int>, j: nat)
    requires i <= j && i <= |script|
    requires j + 1 < i + AttemptsFrom(script, i, qty0, retryDelay)
    ensures ReissuedAt(script, j, qty0, retryDelay)
    decreases j - i
  {
    if j > i {
      AttemptsFromReissued(script, i + 1, qty0, retryDelay, j);
    }
  }

  /**
   * The last attempt counted by `AttemptsFrom` was not reissued, unless it is
   * the last attempt of the script.
   */
  lemma {:induction false} AttemptsFromStops(script: seq<Attempt>, i: nat, qty0: RetryQty, retryDelay: Option<int>)
    requires i < |script|
    ensures 1 <= AttemptsFrom(script, i, qty0, retryDelay)
    ensures var last := i + AttemptsFrom(script, i, qty0, retryDelay) - 1;
            last + 1 < |script| ==> !ReissuedAt(script, last, qty0, retryDelay)
    decreases |script| - i
  {
    if ReissuedAt(script, i, qty0, retryDelay) && i + 1 < |script| {
      AttemptsFromStops(script, i + 1, qty0, retryDelay);
    }
  }

  /**
   * What one more attempt adds to each running total of a call: its id, its
   * 401 and answered counts, and one step of the attempt count and of the
   * stored retry count.
   */
  lemma AttemptStep(script: seq<Attempt>, n: nat, qty0: RetryQty, retryDelay: Option<int>, before: seq<string>)
    requires n < |script|
    ensures before + StampedIds(script, n + 1) == before + StampedIds(script, n) + [script[n].requestId]
    ensures CountUnauthenticated(script, n + 1)
              == CountUnauthenticated(script, n) + if RepliesUnauthenticated(script[n].reply) then 1 else 0
    ensures CountAnswered(script, n + 1) == CountAnswered(script, n) + if HasAnswer(script[n].reply) then 1 else 0
    ensures AttemptsFrom(script, n, qty0, retryDelay)
              == if ReissuedAt(script, n, qty0, retryDelay) then 1 + AttemptsFrom(script, n + 1, qty0, retryDelay) else 1
    ensures QtyAfter(qty0, n + 1) == Remaining(NextQty(QtyAfter(qty0, n)))
  {
    QtyAfterStep(qty0, n);
  }

  /** The attempts that asked for a reissue: all of them when pending, all but the last otherwise. */
  function Reissues(outcome: Settlement, attempts: nat): nat
  {
    if outcome.Pending? || attempts == 0 then attempts else attempts - 1
  }

  /**
   * Under persistent transient failure, the attempts a call makes give
   * exactly the reissues `PersistentReissues` counts: all of them when the
   * script runs out on a reissue, all but the last otherwise.
   */
  lemma PersistentAttempts(script: seq<Attempt>, qty0: RetryQty, retryDelay: Option<int>)
    requires forall j :: 0 <= j < |script| ==> TransientFailure(script[j].reply)
    ensures var n := AttemptsFrom(script, 0, qty0, retryDelay);
            var pending := n == |script| && (n == 0 || ReissuedAt(script, n - 1, qty0, retryDelay));
            (pending || n > 0) && PersistentReissues(qty0, |script|) == if pending then n else n - 1
  {
    PersistentAttemptsFrom(script, qty0, retryDelay, 0);
  }

  /** `PersistentAttempts` from attempt `k` on, every attempt before `k` having been reissued. */
  lemma {:induction false} PersistentAttemptsFrom(script: seq<Attempt>, qty0: RetryQty, retryDelay: Option<int>, k: nat)
    requires forall j :: 0 <= j < |script| ==> TransientFailure(script[j].reply)
    requires k <= |script|
    requires PersistentReissues(qty0, k) == k
    requires AttemptsFrom(script, 0, qty0, retryDelay) == k + AttemptsFrom(script, k, qty0, retryDelay)
    requires k > 0 ==> ReissuedAt(script, k - 1, qty0, retryDelay)
    ensures var n := AttemptsFrom(script, 0, qty0, retryDelay);
            var pending := n == |script| && (n == 0 || ReissuedAt(script, n - 1, qty0, retryDelay));
            (pending || n > 0) && PersistentReissues(qty0, |script|) == if pending then n else n - 1
    decreases |script| - k
  {
    if k < |script| {
      assert TransientFailure(script[k].reply);
      if ReissuedAt(script, k, qty0, retryDelay) {
        PersistentReissuesExtend(qty0, k);
        PersistentAttemptsFrom(script, qty0, retryDelay, k + 1);
      } else {
        PersistentReissuesStop(qty0, k, |script|);
      }
    }
  }

  class ApiService {
    var unauthenticatedHandler: Callback
    var requestContextListener: Callback
    var responseContextListener: Callback

    /** Each call of the unauthenticated slot, with the handler that was in it. */
    var unauthenticatedCalls: seq<Callback>
    /** Each call of the request-context slot, with the listener and its record. */
    var requestContexts: seq<(Callback, RequestRecord)>
    /** Each call of the response-context slot, with the listener and its record. */
    var responseContexts: seq<(Callback, ResponseRecord)>

    /** All three slots start as no-ops; nothing has been called yet. */
    constructor ()
      ensures unauthenticatedHandler == NoOp
      ensures requestContextListener == NoOp
      ensures responseContextListener == NoOp
      ensures unauthenticatedCalls == [] && requestContexts == [] && responseContexts == []
    {
      unauthenticatedHandler := NoOp;
      requestContextListener := NoOp;
      responseContextListener := NoOp;
      unauthenticatedCalls := [];
      requestContexts := [];
      responseContexts := [];
    }

    method SetUnauthenticatedHandler(handler: Callback)
      modifies this`unauthenticatedHandler
      ensures unauthenticatedHandler == handler
      ensures requestContextListener == old(requestContextListener)
      ensures responseContextListener == old(responseContextListener)
    {
      unauthenticatedHandler := handler;
    }

    method SetRequestContextListener(listener: Callback)
      modifies this`requestContextListener
      ensures requestContextListener == listener
      ensures unauthenticatedHandler == old(unauthenticatedHandler)
      ensures responseContextListener == old(responseContextListener)
    {
      requestContextListener := listener;
    }

    method SetResponseContextListener(listener: Callback)
      modifies this`responseContextListener
      ensures responseContextListener == listener
      ensures unauthenticatedHandler == old(unauthenticatedHandler)
      ensures requestContextListener == old(requestContextListener)
    {
      responseContextListener := listener;
    }

    /** pushRequestContext: one call of the request-context listener with the cleaned record. */
    method PushRequestContext(config: RequestConfig, requestId: string)
      modifies this`requestContexts
      ensures requestContexts == old(requestContexts) + [(requestContextListener, RequestContext(config.View(), requestId))]
    {
      requestContexts := requestContexts + [(requestContextListener, RequestContext(config.View(), requestId))];
    }

    /** pushResponseContext: one call of the response-context listener, `endTimestamp` being the clock now. */
    method PushResponseContext(response: Response, endTimestamp: int)
      modifies this`responseContexts
      ensures responseContexts == old(responseContexts) + [(responseContextListener,
                ResponseContext(response.config.View(), response.data, response.headers, response.status, endTimestamp))]
    {
      var cfg := response.config.View();
      responseContexts := responseContexts + [(responseContextListener,
        ResponseContext(cfg, response.data, response.headers, response.status, endTimestamp))];
    }

    /**
     * The request interceptor: writes `requestId` into the `X-Request-Id`
     * header and `now` into `startTimestamp`, then reports the descriptor,
     * with the id just written, to the request-context listener.
     */
    method InterceptRequest(config: RequestConfig, requestId: string, now: int)
      modifies config`headers, config`startTimestamp, this`requestContexts
      ensures config.httpMethod == old(config.httpMethod) && config.url == old(config.url)
      ensures config.data == old(config.data) && config.params == old(config.params)
      ensures config.headers == Some(StampHeaders(old(config.headers), requestId))
      ensures config.startTimestamp == Some(now)
      ensures requestContexts == old(requestContexts) + [(requestContextListener, RequestContext(config.View(), requestId))]
      // the emitted id is the one the response builder will read back from the header
      ensures HeaderRequestId(config.headers) == requestId
    {
      StampedHeaderIsReadBack(config.headers, requestId, RequestIdHeader);
      config.headers := Some(StampHeaders(config.headers, requestId));
      config.startTimestamp := Some(now);
      PushRequestContext(config, requestId);
    }

    /** First response interceptor: calls the unauthenticated handler on a 401, passes the error on unchanged. */
    method SignalUnauthenticated(error: HttpError) returns (rejected: HttpError)
      modifies this`unauthenticatedCalls
      ensures rejected == error
      ensures unauthenticatedCalls == old(unauthenticatedCalls)
                                      + (if IsUnauthenticated(error) then [unauthenticatedHandler] else [])
    {
      if IsUnauthenticated(error) {
        unauthenticatedCalls := unauthenticatedCalls + [unauthenticatedHandler];
      }
      rejected := error;
    }

    /** Second response interceptor, success side: always reports the response. */
    method ContextOnSuccess(response: Response, now: int) returns (passed: Response)
      modifies this`responseContexts
      ensures passed == response
      ensures responseContexts == old(responseContexts) + [(responseContextListener,
                ResponseContext(response.config.View(), response.data, response.headers, response.status, now))]
    {
      PushResponseContext(response, now);
      passed := response;
    }

    /** Second response interceptor, error side: reports the response only when the error carries one. */
    method ContextOnError(error: HttpError, now: int) returns (rejected: HttpError)
      modifies this`responseContexts
      ensures rejected == error
      ensures error.response.None? ==> responseContexts == old(responseContexts)
      ensures error.response.Some? ==>
                var r := error.response.value;
                responseContexts == old(responseContexts) + [(responseContextListener,
                  ResponseContext(r.config.View(), r.data, r.headers, r.status, now))]
    {
      if error.response.Some? {
        PushResponseContext(error.response.value, now);
      }
      rejected := error;
    }

    /**
     * Third response interceptor: on a transient failure of an attached
     * descriptor whose count is not zero, stores the new count and asks for the
     * same descriptor to be sent again after the delay; otherwise passes the
     * error on (or throws when there is no message to inspect).
     */
    method RetryOnError(error: HttpError) returns (step: RetryStep)
      modifies (if error.config.Some? then {error.config.value} else {})`retryQty
      ensures error.config.None? ==> step == RejectWith(error)
      ensures error.config.Some? ==>
                var c := error.config.value;
                var d := Decide(error.message, true, old(c.retryQty), c.retryDelay);
                && (d.Propagate? ==> step == RejectWith(error) && c.retryQty == old(c.retryQty))
                && (d.MessageTypeError? ==> step == ThrowTypeError && c.retryQty == old(c.retryQty))
                && (d.Reissue? ==> step == ReissueAfter(d.delay, c) && c.retryQty == Remaining(d.nextQty))
                && c.httpMethod == old(c.httpMethod) && c.url == old(c.url) && c.data == old(c.data)
                && c.headers == old(c.headers) && c.params == old(c.params)
                && c.retryDelay == old(c.retryDelay) && c.startTimestamp == old(c.startTimestamp)
    {
      if error.config.None? {
        return RejectWith(error);
      }
      var c := error.config.value;
      var d := Decide(error.message, true, c.retryQty, c.retryDelay);
      match d
      case Propagate =>
        step := RejectWith(error);
      case MessageTypeError =>
        step := ThrowTypeError;
      case Reissue(nextQty, delay) =>
        c.retryQty := Remaining(nextQty);
        step := ReissueAfter(delay, c);
    }

    /**
     * The response interceptors on a failed attempt, in order: unauthenticated
     * signal, response context, retry. `reissue` says the retry stage asked
     * for the descriptor to be sent again; otherwise `result` is how the call
     * settles.
     */
    method SettleFailure(config: RequestConfig, reply: Reply, now: int) returns (result: Settlement, reissue: bool)
      requires reply.Failure?
      modifies config`retryQty, this`unauthenticatedCalls, this`responseContexts
      ensures config.View() == old(config.View()) && config.retryDelay == old(config.retryDelay)
      ensures unauthenticatedCalls == old(unauthenticatedCalls)
                                      + (if RepliesUnauthenticated(reply) then [unauthenticatedHandler] else [])
      ensures reply.failedAnswer.None? ==> responseContexts == old(responseContexts)
      ensures reply.failedAnswer.Some? ==>
                var a := reply.failedAnswer.value;
                responseContexts == old(responseContexts) + [(responseContextListener,
                  ResponseContext(config.View(), a.data, a.headers, a.status, now))]
      ensures reissue <==> Decide(reply.message, reply.configAttached, old(config.retryQty), config.retryDelay).Reissue?
      ensures config.retryQty == if reissue then Remaining(NextQty(old(config.retryQty))) else old(config.retryQty)
      ensures reissue ==> result.Pending?
      ensures !reissue ==> result.Rejected? || result.TypeErrorThrown?
      ensures result.Rejected? ==> result.error == ErrorFor(config, reply)
      ensures result.TypeErrorThrown? <==>
                Decide(reply.message, reply.configAttached, old(config.retryQty), config.retryDelay).MessageTypeError?
      ensures result.TypeErrorThrown? ==> reply.message.None?
    {
      var error := ErrorFor(config, reply);
      error := SignalUnauthenticated(error);
      error := ContextOnError(error, now);
      var step := RetryOnError(error);
      match step
      case RejectWith(e) =>
        return Rejected(e), false;
      case ThrowTypeError =>
        return TypeErrorThrown, false;
      case ReissueAfter(_, _) =>
        return Pending, true;
    }

    /** The response interceptors on a successful attempt: only the response context is reported. */
    method SettleSuccess(config: RequestConfig, answer: Answer, now: int) returns (result: Settlement)
      modifies this`responseContexts
      ensures responseContexts == old(responseContexts) + [(responseContextListener,
                ResponseContext(config.View(), answer.data, answer.headers, answer.status, now))]
      ensures result == Resolved(ResponseTo(config, answer))
    {
      var response := ResponseTo(config, answer);
      response := ContextOnSuccess(response, now);
      result := Resolved(response);
    }

    /**
     * One attempt: the request interceptor stamps the descriptor with the
     * attempt's id and start time, the transport replies, and the response
     * interceptors run in order.
     */
    method RunAttempt(config: RequestConfig, attempt: Attempt) returns (result: Settlement, reissue: bool)
      modifies config`headers, config`startTimestamp, config`retryQty,
               this`requestContexts, this`unauthenticatedCalls, this`responseContexts
      // the descriptor: stamped with this attempt's id and start time, business fields kept
      ensures config.headers == Some(StampHeaders(old(config.headers), attempt.requestId))
      ensures HeaderRequestId(config.headers) == attempt.requestId
      ensures config.startTimestamp == Some(attempt.sentAt)
      ensures config.httpMethod == old(config.httpMethod) && config.url == old(config.url)
      ensures config.data == old(config.data) && config.params == old(config.params)
      ensures config.retryDelay == old(config.retryDelay)
      ensures config.retryQty == if reissue then Remaining(NextQty(old(config.retryQty))) else old(config.retryQty)
      // the listener logs keep their entries and gain this attempt's calls, each to the callback in its slot
      ensures old(requestContexts) <= requestContexts && |requestContexts| == |old(requestContexts)| + 1
      ensures requestContexts[|old(requestContexts)|].0 == requestContextListener
      ensures RecordedIds(requestContexts) == RecordedIds(old(requestContexts)) + [attempt.requestId]
      ensures unauthenticatedCalls == old(unauthenticatedCalls)
                                      + (if RepliesUnauthenticated(attempt.reply) then [unauthenticatedHandler] else [])
      ensures old(responseContexts) <= responseContexts
      ensures |responseContexts| == |old(responseContexts)| + if HasAnswer(attempt.reply) then 1 else 0
      ensures HasAnswer(attempt.reply) ==> responseContexts[|old(responseContexts)|].0 == responseContextListener
      // how the attempt ends
      ensures reissue <==> result.Pending?
      ensures attempt.reply.Success? ==> !reissue && result == Resolved(ResponseTo(config, attempt.reply.answer))
      ensures attempt.reply.Failure? ==>
                var d := Decide(attempt.reply.message, attempt.reply.configAttached, old(config.retryQty), config.retryDelay);
                && (reissue <==> d.Reissue?)
                && (result.TypeErrorThrown? <==> d.MessageTypeError?)
                && (result.Rejected? <==> d.Propagate?)
      ensures result.Rejected? ==> attempt.reply.Failure? && result.error == ErrorFor(config, attempt.reply)
      ensures TransientFailure(attempt.reply) ==>
                (reissue <==> old(config.retryQty) != Remaining(0)) && (!reissue ==> result.Rejected?)
    {
      ghost var requests0 := requestContexts;
      InterceptRequest(config, attempt.requestId, attempt.sentAt);
      assert requestContexts[..|requestContexts| - 1] == requests0;
      if attempt.reply.Success? {
        result := SettleSuccess(config, attempt.reply.answer, attempt.settledAt);
        reissue := false;
      } else {
        result, reissue := SettleFailure(config, attempt.reply, attempt.settledAt);
      }
    }

    /**
     * `connection.request(config)` through the whole pipeline: attempts are
     * made one after another while the retry stage reissues the same
     * descriptor. `attempts` is the number of attempts made; every attempt but
     * the last was reissued, and the last one too when the call is still
     * pending at the end of the script.
     */
    method Request(config: RequestConfig, script: seq<Attempt>) returns (outcome: Settlement, attempts: nat)
      modifies config`headers, config`startTimestamp, config`retryQty,
               this`requestContexts, this`unauthenticatedCalls, this`responseContexts
      // attempts go on exactly while the retry stage reissues (AttemptsFromReissued, AttemptsFromStops)
      ensures attempts == AttemptsFrom(script, 0, old(config.retryQty), old(config.retryDelay))
      ensures outcome.Pending? <==>
                attempts == |script| && (attempts == 0 || ReissuedAt(script, attempts - 1, old(config.retryQty), old(config.retryDelay)))
      // the count stored on the descriptor has taken one step per reissue
      ensures config.retryQty == QtyAfter(old(config.retryQty), Reissues(outcome, attempts))
      // the descriptor carries the last attempt's stamp and its business fields as they were
      ensures attempts > 0 ==> config.headers == Some(StampHeaders(old(config.headers), script[attempts - 1].requestId))
      ensures attempts > 0 ==> HeaderRequestId(config.headers) == script[attempts - 1].requestId
      ensures attempts > 0 ==> config.startTimestamp == Some(script[attempts - 1].sentAt)
      ensures config.httpMethod == old(config.httpMethod) && config.url == old(config.url)
      ensures config.data == old(config.data) && config.params == old(config.params)
      ensures config.retryDelay == old(config.retryDelay)
      // one request record per attempt, each with the id stamped on that attempt
      ensures RecordedIds(requestContexts) == RecordedIds(old(requestContexts)) + StampedIds(script, attempts)
      // one handler call per 401 reply, one response record per reply that carries a response
      ensures |unauthenticatedCalls| == |old(unauthenticatedCalls)| + CountUnauthenticated(script, attempts)
      ensures |responseContexts| == |old(responseContexts)| + CountAnswered(script, attempts)
      // earlier entries are kept, and every new one went to the callback in its slot
      ensures old(requestContexts) <= requestContexts && SentFrom(requestContexts, |old(requestContexts)|, requestContextListener)
      ensures old(unauthenticatedCalls) <= unauthenticatedCalls && CalledFrom(unauthenticatedCalls, |old(unauthenticatedCalls)|, unauthenticatedHandler)
      ensures old(responseContexts) <= responseContexts && SentFrom(responseContexts, |old(responseContexts)|, responseContextListener)
      // a call settles with the last attempt's own response or error, or with the TypeError it raised
      ensures outcome.Resolved? ==>
                script[attempts - 1].reply.Success?
                && outcome.response == ResponseTo(config, script[attempts - 1].reply.answer)
      ensures outcome.Rejected? ==>
                script[attempts - 1].reply.Failure?
                && outcome.error == ErrorFor(config, script[attempts - 1].reply)
      ensures outcome.TypeErrorThrown? ==>
                script[attempts - 1].reply.Failure?
                && Decide(script[attempts - 1].reply.message, script[attempts - 1].reply.configAttached,
                          QtyAfter(old(config.retryQty), attempts - 1), old(config.retryDelay)).MessageTypeError?
      ensures attempts > 0 && script[attempts - 1].reply.Failure?
              && Decide(script[attempts - 1].reply.message, script[attempts - 1].reply.configAttached,
                        QtyAfter(old(config.retryQty), attempts - 1), old(config.retryDelay)).MessageTypeError? ==>
                outcome.TypeErrorThrown?
      // a transport that keeps failing transiently gets exactly the reissues the count allows
      ensures (forall j :: 0 <= j < |script| ==> TransientFailure(script[j].reply)) ==>
                && (outcome.Rejected? || outcome.Pending?)
                && Reissues(outcome, attempts) == PersistentReissues(old(config.retryQty), |script|)
    {
      ghost var qty0 := config.retryQty;
      ghost var requests0 := requestContexts;
      ghost var unauth0 := unauthenticatedCalls;
      ghost var responses0 := responseContexts;
      ghost var delay0 := config.retryDelay;
      ghost var headers0 := config.headers;
      outcome, attempts := Pending, 0;
      // the attempt made most recently, whose stamp the descriptor carries
      ghost var last: Attempt := Attempt("", 0, Success(Answer(Undefined, Undefined, 0)), 0);
      while attempts < |script|
        invariant attempts <= |script|
        invariant config.retryQty == QtyAfter(qty0, attempts)
        invariant AttemptsFrom(script, 0, qty0, delay0) == attempts + AttemptsFrom(script, attempts, qty0, delay0)
        invariant attempts > 0 ==> ReissuedAt(script, attempts - 1, qty0, delay0)
        invariant attempts == 0 ==> config.headers == headers0
        invariant attempts > 0 ==> last == script[attempts - 1]
        invariant attempts > 0 ==> config.headers == Some(StampHeaders(headers0, last.requestId))
        invariant attempts > 0 ==> HeaderRequestId(config.headers) == last.requestId
        invariant attempts > 0 ==> config.startTimestamp == Some(last.sentAt)
        invariant config.retryDelay == delay0
        invariant RecordedIds(requestContexts) == RecordedIds(requests0) + StampedIds(script, attempts)
        invariant |unauthenticatedCalls| == |unauth0| + CountUnauthenticated(script, attempts)
        invariant |responseContexts| == |responses0| + CountAnswered(script, attempts)
        invariant requests0 <= requestContexts && unauth0 <= unauthenticatedCalls && responses0 <= responseContexts
        invariant SentFrom(requestContexts, |requests0|, requestContextListener)
        invariant CalledFrom(unauthenticatedCalls, |unauth0|, unauthenticatedHandler)
        invariant SentFrom(responseContexts, |responses0|, responseContextListener)
        invariant outcome.Pending?
      {
        var reissue;
        if attempts > 0 {
          RestampReplacesId(headers0, last.requestId, script[attempts].requestId);
        }
        last := script[attempts];
        ghost var requests, unauth, responses := requestContexts, unauthenticatedCalls, responseContexts;
        outcome, reissue := RunAttempt(config, script[attempts]);
        SentStep(requests0, requests, requestContexts, requestContextListener, |requests0|);
        CalledStep(unauth0, unauth, unauthenticatedCalls, unauthenticatedHandler, |unauth0|);
        SentStep(responses0, responses, responseContexts, responseContextListener, |responses0|);
        AttemptStep(script, attempts, qty0, delay0, RecordedIds(requests0));
        assert reissue == ReissuedAt(script, attempts, qty0, delay0);
        if !reissue {
          attempts := attempts + 1;
          break;
        }
        attempts := attempts + 1;
      }
      if forall j :: 0 <= j < |script| ==> TransientFailure(script[j].reply) {
        PersistentAttempts(script, qty0, delay0);
      }
    }
  }
}
