# library-api: the ApiService interceptor pipeline in Dafny

This project models `ApiService` from `src/index.ts`. `ApiService` is an HTTP client wrapper. It stamps every outgoing request with a correlation id and a start time. It reports request and response "context records" to two listeners. It calls an unauthenticated handler on a 401. It retries transient failures ("Network Error", "timeout") up to a per-request budget.

The model has five modules:

- `RetryPolicy` (`retry_policy.dfy`) is the retry decision as a pure function.
  - It covers the `retryQty` state machine: a count that is unset, zero or a number.
  - It covers the `retryDelay || 3000` delay.
  - It covers a missing error message, which throws a `TypeError` when the code inspects it.
  - It covers what a persistently failing transport gets: exactly n reissues from a count of n ≥ 0, four from an unset count, and unbounded reissues from a negative count.
- `ContextRecords` (`context_records.dfy`) holds the two record builders, `pushRequestContext` and `pushResponseContext`, as pure projections.
  - They build the method label, the route label, the id and its `''` fallback, and the duration with its start-defaults-to-end rule.
  - They apply the `_.omitBy(_.isUndefined)` omission rule. A dropped key is a `None` field.
- `RoutePattern` (`route_pattern.dfy`) is the `path` helper, `v.replace(/:\w+/g, '[^/]+')`, as a pure string rewrite.
- `ApiPipeline` (`api_service.dfy`) holds the imperative part.
  - `RequestConfig` is the mutable request descriptor. The pipeline writes `headers`, `startTimestamp` and `retryQty` on it in place.
  - `ApiService` holds the three listener slots and their setters.
  - Each interceptor stage is a method.
  - `Request` is the whole call. It runs the request interceptor, then the three response interceptors in registration order: unauthenticated signal, response context, retry. It repeats this for as long as the retry stage reissues the same descriptor.
- `Wrappers` (`wrappers.dfy`) holds `Option`.

A call to a listener or handler is modelled as an entry appended to a log kept for its slot. An entry of either context log records which registered callback (`Callback`) was in the slot and the record it received. The unauthenticated handler is called with no argument (`src/index.ts:82`), so an entry of its log is only the callback that was in the slot.

The transport, `uuidv4` and `performance.now` are outside the model. For each attempt, a script (`Attempt`) supplies the id to stamp, the start time, the transport's reply and the end time.

Two facts of the code shape the retry model:

- A reissue sends the descriptor through the whole pipeline again (`src/index.ts:142`), so the request interceptor stamps a fresh id on every attempt (`src/index.ts:150`).
- An unset `retryQty` is set to 3 on the first retry without being decremented (`src/index.ts:129-131`). A persistently failing call with an unset count is therefore reissued four times.

## Model

| member | source | states |
|---|---|---|
| `RetryPolicy.Decide` | src/index.ts:125-131 | A retry happens iff a config is attached, `retryQty` is not exactly 0, and the message contains "Network Error" or "timeout". A present config with a nonzero count and no message gives the TypeError outcome. On a retry the delay is `retryDelay`, or 3000 when that is falsy. The next count is 3 when unset and n - 1 when set. |
| `RetryPolicy.Includes` | src/index.ts:127 | `message.includes(part)`. `IncludesIffOccurs` shows it holds exactly when the part occurs at some index of the message. |
| `RetryPolicy.IsTransient` | src/index.ts:127 | A message is transient when it contains "Network Error" or "timeout". `Decide` reissues exactly on such messages. |
| `RetryPolicy.NextQty` | src/index.ts:129-131 | The count stored on a retry: 3 when unset, n - 1 when the count is n. `QtyAfterClosedForm` gives its effect over k retries. |
| `RetryPolicy.QtyAfter` | src/index.ts:129-131 | The count after k retries. `QtyAfterStep` shows each retry is one `NextQty` step, and `QtyAfterClosedForm` gives n - k from a set count and 4 - k from an unset one. |
| `RetryPolicy.RetryDelay` | src/index.ts:138 | The delay is never 0. It is the override when the override is set and nonzero, and 3000 when the override is unset or 0. |
| `RetryPolicy.IncludesIffOccurs` | src/index.ts:127 | The `includes` test used on the message holds exactly when the part occurs at some index of the message. |
| `RetryPolicy.QtyAfterStep` | src/index.ts:129-131 | k + 1 stored retries are one more count step on the count after k. |
| `RetryPolicy.QtyAfterClosedForm` | src/index.ts:129-131 | After k retries a set count n is n - k. An unset count is 4 - k for k ≥ 1. |
| `RetryPolicy.PersistentReissues` | src/index.ts:125-142 | A transport that fails every attempt transiently never gets more reissues than attempts. |
| `RetryPolicy.SetBudgetGivesExactlyN` | src/index.ts:125-131 | A starting count n ≥ 0 gives exactly n reissues. A count of 0 gives none. |
| `RetryPolicy.UnsetBudgetGivesFour` | src/index.ts:129-131 | An unset starting count gives exactly four reissues. |
| `RetryPolicy.NegativeBudgetNeverStops` | src/index.ts:126 | A negative count never equals 0, so every failing attempt is reissued. |
| `RetryPolicy.PersistentReissuesExtend` | src/index.ts:125-142 | While every attempt so far was reissued, the next failing attempt is reissued exactly when the stored count is not 0. |
| `RetryPolicy.PersistentReissuesStop` | src/index.ts:126 | Once the stored count reaches 0, further attempts add no reissue. |
| `ContextRecords.Upper` | src/index.ts:215 | `toUpperCase` keeps the length and upper-cases each character in place. |
| `ContextRecords.MethodLabel` | src/index.ts:215 | `(config.method || 'Unknown').toUpperCase()`. `MethodLabelUpperCasesFallback` shows it upper-cases the method or the fallback, and `MethodLabelIsUpperCase` that it is non-empty with no lower-case letter. |
| `ContextRecords.RouteLabel` | src/index.ts:220 | `config.url || 'Unknown'`. `RequestContext` and `ResponseContext` state the route is the url, or "Unknown" when the url is missing or empty. |
| `ContextRecords.HeaderRequestId` | src/index.ts:232-236 | `_.get(config, 'headers.X-Request-Id', '')`. `ResponseContext` states the response id is that header or `''`, and `StampedHeaderIsReadBack` shows a stamped id is read back. |
| `ContextRecords.StampHeaders` | src/index.ts:152-156 | `_.set(config, 'headers.X-Request-Id', requestId)`. `StampedHeaderIsReadBack` shows the id is read back and every other header is kept. `RestampReplacesId` shows a second stamp replaces the first. |
| `ContextRecords.StartOr` | src/index.ts:247-251 | `_.get(config, 'startTimestamp', endTimestamp)`. `ResponseContext` states the duration is end minus start, or 0 without a start, and `DurationNonNegative` that it is never negative with a clock that does not go backwards. |
| `ContextRecords.UpperChar` | src/index.ts:215 | Upper-casing one character yields no lower-case letter. Non-letters are kept, and a lower-case letter moves to its capital. |
| `ContextRecords.MethodLabelUpperCasesFallback` | src/index.ts:215 | The method label is the upper-cased method, with 'Unknown' as the fallback before upper-casing, so a missing or empty method gives "UNKNOWN". |
| `ContextRecords.MethodLabelIsUpperCase` | src/index.ts:215 | The method label is never empty and holds no lower-case letter. |
| `ContextRecords.Defined` | src/index.ts:223-226 | A field is kept exactly when its value is not `undefined`, and it is kept with its value. |
| `ContextRecords.RequestContext` | src/index.ts:213-229 | The request record's method is the upper-cased method or "UNKNOWN". Its route is the url or "Unknown", and its id is the given id. Data, headers and params are present exactly when defined, with their values. |
| `ContextRecords.ResponseContext` | src/index.ts:231-272 | The response record's id is the config's `X-Request-Id` header or `''`. Its duration is end minus start, or 0 without a start. Its status is the response status. Response data and headers are present exactly when defined. |
| `ContextRecords.RequestKeysAreDefinedFields` | src/types.ts:13-20 | The request record has key k exactly when k belongs to `$RequestContext` and its value is not `undefined`. |
| `ContextRecords.ResponseKeysAreDefinedFields` | src/types.ts:22-33 | The response record has key k exactly when its value is not `undefined`. No kept key holds `undefined`. |
| `ContextRecords.ResponseExtendsRequest` | src/index.ts:253-262 | The response record holds the request record built from the same descriptor and header id, field for field and key for key. |
| `ContextRecords.DurationNonNegative` | src/index.ts:245-254 | With a clock that does not go backwards, the duration is never negative. |
| `ContextRecords.StampedHeaderIsReadBack` | src/index.ts:152-156 | Writing the id into `X-Request-Id` makes it what `_.get(config, 'headers.X-Request-Id', '')` reads. Every other header is left as it was. |
| `ContextRecords.StampedRecordsCorrelate` | src/index.ts:149-172 | For a stamped descriptor, the request record and the response record carry the same id. The response duration is the time elapsed since the stamp. |
| `ContextRecords.RestampReplacesId` | src/index.ts:142-156 | Stamping an already stamped descriptor again replaces the earlier id, so a reissued descriptor carries only the latest attempt's id. |
| `RoutePattern.WordRun` | src/index.ts:179 | `\w+` is greedy: the run is the longest prefix made of word characters. |
| `RoutePattern.Rewrite` | src/index.ts:178-181 | `v.replace(/:\w+/g, '[^/]+')`. `RewriteLeavesNoParam`, `RewriteKeepsLiteral`, `RewriteReplacesParam` and `RewriteSplits` state what it replaces and what it copies. |
| `RoutePattern.Path` | src/index.ts:176-185 | `path` returns a literal exactly when the input has no `:`, and the literal is the input itself. Otherwise it returns the regex over the rewritten route, in which no `:` is followed by a word character. |
| `RoutePattern.RewriteWithoutParamIsIdentity` | src/index.ts:178-181 | A route with no `:word` segment is rewritten to itself. |
| `RoutePattern.RewriteLeavesNoParam` | src/index.ts:178-181 | After the rewrite, no `:` is followed by a word character. Every match has been replaced. |
| `RoutePattern.RewriteHead` | src/index.ts:178-181 | A non-empty rewrite starts with `[` for a parameter, and otherwise with the input's first character. |
| `RoutePattern.RewriteSplits` | src/index.ts:178-181 | At a non-word character, such as each `/`, the two sides are rewritten independently. |
| `RoutePattern.ParamSegment` | src/index.ts:179-180 | A segment `:name` becomes exactly `[^/]+`. |
| `RoutePattern.RewriteKeepsLiteral` | src/index.ts:178-181 | Text without a colon is copied unchanged and in order. |
| `RoutePattern.RewriteReplacesParam` | src/index.ts:178-181 | `:name` followed by a non-word character becomes `[^/]+`, followed by the rewrite of the rest. |
| `RoutePattern.TwoParamRoute` | src/index.ts:176-185 | A route shaped like `/:some/param/:random/string` becomes the regex `/[^/]+/param/[^/]+/string`, whatever the parameter names. |
| `ApiPipeline.RequestConfig.constructor` | src/index.ts:117-120 | A new descriptor holds the caller's fields. It has no start stamp yet. |
| `ApiPipeline.IsUnauthenticated` | src/index.ts:76-81 | `_.get(error, 'response.status') === 401`. `SignalUnauthenticated` calls the handler exactly when it holds. |
| `ApiPipeline.ErrorFor` | src/index.ts:96-123 | The error a failed reply hands to the response interceptors: its message, the descriptor when attached and the response when there is one. `SettleFailure`, `RunAttempt` and `Request` reject with exactly this error. |
| `ApiPipeline.ApiService.constructor` | src/index.ts:67-71 | All three slots start as no-ops, and nothing has been called. |
| `ApiPipeline.ApiService.SetUnauthenticatedHandler` | src/index.ts:189-195 | Replaces the unauthenticated handler and leaves the two listener slots as they were. |
| `ApiPipeline.ApiService.SetRequestContextListener` | src/index.ts:197-203 | Replaces the request-context listener and leaves the other two slots as they were. |
| `ApiPipeline.ApiService.SetResponseContextListener` | src/index.ts:205-211 | Replaces the response-context listener and leaves the other two slots as they were. |
| `ApiPipeline.ApiService.PushRequestContext` | src/index.ts:213-229 | Calls the current request-context listener once, with the cleaned request record. |
| `ApiPipeline.ApiService.PushResponseContext` | src/index.ts:231-272 | Calls the current response-context listener once, with the cleaned response record timed at the given end. |
| `ApiPipeline.ApiService.InterceptRequest` | src/index.ts:149-172 | Writes the id into `X-Request-Id` and the start time into `startTimestamp`, and changes nothing else on the descriptor. Reports one request record carrying that id, which is also the id the header now holds. |
| `ApiPipeline.ApiService.SignalUnauthenticated` | src/index.ts:75-86 | Calls the handler once when the error's response status is 401 and never otherwise. Rejects the identical error. |
| `ApiPipeline.ApiService.ContextOnSuccess` | src/index.ts:90-94 | Reports every successful response once and passes it on unchanged. |
| `ApiPipeline.ApiService.ContextOnError` | src/index.ts:95-106 | Reports the error's response once when there is one, and nothing otherwise. Rejects the identical error. |
| `ApiPipeline.ApiService.RetryOnError` | src/index.ts:109-147 | Follows `Decide`: it rejects the identical error, throws, or stores the new count and reissues the same descriptor after the delay. Only `retryQty` changes. |
| `ApiPipeline.ApiService.SettleFailure` | src/index.ts:73-147 | On a failed attempt the three stages run in order. The handler is called on a 401, and a response record is reported when a response exists. The call reissues exactly when `Decide` says so, throws exactly when `Decide` gives the TypeError outcome (a missing message), and otherwise rejects with the attempt's error. Only the count changes on the descriptor. |
| `ApiPipeline.ApiService.SettleSuccess` | src/index.ts:73-107 | On a success, only the response record is reported. The call resolves with the response. |
| `ApiPipeline.ApiService.RunAttempt` | src/index.ts:73-172 | One attempt writes its id into `X-Request-Id`, keeping the other headers, and its start time into `startTimestamp`. The business fields and the delay are unchanged. It keeps every earlier entry of the three logs. It adds one request record carrying the id, sent to the request-context listener. It adds one call of the unauthenticated handler on a 401 reply and none otherwise. It adds one response record, sent to the response-context listener, per reply that has a response. A success resolves with its response and is never reissued. A failure is reissued exactly when `Decide` says so on the count before the attempt, throws exactly when `Decide` gives the TypeError and rejects with the attempt's error exactly when `Decide` propagates. The count takes one step per reissue. |
| `ApiPipeline.ApiService.Request` | src/index.ts:109-172 | A call makes `AttemptsFrom` attempts: they go on exactly while the retry stage reissues. The call is pending exactly when the script ran out and its last attempt was reissued. The descriptor ends with the last attempt's id written into its headers, every other header as it was, the last start time and its business fields unchanged, and the listener slots are untouched. The request-record ids are the stamped ids in order, the count has taken one step per reissue, and the log lengths follow the 401 and answered replies. Every earlier entry of the three logs is kept, and every new entry went to the callback in its slot (`SentFromIff`, `CalledFromIff`). The call resolves with the last attempt's response or rejects with its error. It throws exactly when the last attempt failed and `Decide` gives the TypeError on that attempt's count. Under persistent transient failure, the reissues are exactly `PersistentReissues` of the starting count. |
| `ApiPipeline.StampedIds` | src/index.ts:150 | One stamped id per attempt. |
| `ApiPipeline.RecordedIds` | src/index.ts:228 | One id per request-context log entry. |
| `ApiPipeline.RecordedIdsAt` | src/index.ts:218 | The i-th recorded id is the id of the i-th request record. |
| `ApiPipeline.StampedIdsAt` | src/index.ts:150-155 | The i-th stamped id is the id of the i-th attempt. |
| `ApiPipeline.IdsLineUp` | src/index.ts:142-169 | From the id equation that `Request` ensures: the log gains one record per attempt, and the j-th new record carries the j-th attempt's id. |
| `ApiPipeline.AttemptsFrom` | src/index.ts:125-145 | A call never makes more attempts than the script has left. |
| `ApiPipeline.AttemptsFromReissued` | src/index.ts:125-142 | Every attempt before the last one a call makes was reissued by the retry stage. |
| `ApiPipeline.AttemptsFromStops` | src/index.ts:125-145 | A call makes at least one attempt, and its last attempt was not reissued unless it is the last one the script holds. |
| `ApiPipeline.PersistentAttempts` | src/index.ts:125-145 | When every attempt fails transiently, the attempts a call makes give exactly `PersistentReissues` of the starting count: all attempts are reissues when the script runs out on a reissue, and all but the last otherwise. |
| `ApiPipeline.SentFromIff` | src/index.ts:213-272 | `SentFrom`, which `Request` ensures of both context logs, holds exactly when every entry from the given position on went to the given listener. |
| `ApiPipeline.CalledFromIff` | src/index.ts:82 | `CalledFrom`, which `Request` ensures of the handler log, holds exactly when every call from the given position on was of the given handler. |

## Left out

- Axios itself is not modelled: instance creation, interceptor registration and promise chaining (`src/index.ts:65`, `src/index.ts:73-172`). The stages are methods called in registration order.
- On a reissue, `connection.request(config)` lets axios merge the config into a new object that copies `retryQty` and the headers. The model reissues the same descriptor object.
- The `setTimeout` wait before a reissue is not modelled. The delay is returned, and no time passes.
- `uuidv4`, `performance.now` and the transport come from the per-attempt script as plain values. Time is an integer, with no floating point.
- `retryQty` and `retryDelay` are integers, not JavaScript numbers. A fractional count is not modelled.
- `toUpperCase` is modelled on ASCII letters only.
- RoutePattern.Path: returns a regular expression for every input that contains `:`. In the code `new RegExp` (`src/index.ts:178`) throws a `SyntaxError` when the rewritten text is not a valid pattern, as `/a(:id` becomes `/a([^/]+`. That error is not modelled.
- Only the string rewrite of `path` is modelled. Matching with the compiled regular expression is not. `\w` is ASCII word characters.
- `_.get` and `_.set` are modelled as plain field access on the descriptor.
- `initMock` and the mock adapter (`src/index.ts:274-278`) wrap a test library that is not part of this model.
- The three listener slots each have their own call log, so the interleaving of calls across slots is not recorded. Within one attempt, the stage order is fixed by `SettleFailure` and `SettleSuccess`.
- The connection defaults from the constructor (base URL, `Accept` and `Content-Type` headers, timeout, credentials) are not modelled. They only configure the transport.
- A call that is still to be reissued when the script runs out settles as `Pending`.
- ApiPipeline.ApiService.Request: states that each log keeps its earlier entries and which callback every new entry went to. It also states the ids of the new request records and how many entries each log gains. It does not state the other fields of the new records. Those are stated attempt by attempt by `InterceptRequest`, `ContextOnError` and `ContextOnSuccess`.
- ApiPipeline.ApiService.RunAttempt: states which callback each new log entry went to and the id of the new request record, not the other record fields, for the same reason.
- Handlers and listeners are assumed to return normally. A throwing unauthenticated handler (`src/index.ts:82`) would reject with its own error, so `src/index.ts:85` is not reached. A throwing request-context listener (`src/index.ts:166`) would reject the call before it is sent.
- `Request` runs its attempts without interruption. In the code the setters and other calls can run during the wait before a reissue (`src/index.ts:133-142`), so a later attempt may report to a listener registered in between. The model keeps the slots fixed for the whole call.
