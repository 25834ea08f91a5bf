# Request instrumentation of the items service, in Dafny

This project models the decision logic of the service's request pipeline in
`observability.go`:

- the HTTP status label written into the "request completed" log entry;
- the sanitisation of database query parameters before they are logged;
- the status-capturing response writer that the tracing middleware puts
  around the transport's sink;
- the request-identifier choice of the tracing middleware;
- the latency and failure rules of the three downstream simulators: database,
  external enrichment API and cache;
- the control flow of the `/api/items` handler. The handler does a cache GET.
  On a miss it runs the database query and then a cache SET. On success it
  makes the enrichment call, then writes the response.

Every clock reading the decisions or results depend on is an explicit
parameter. The nanosecond readings (`time.Now().UnixNano()`) that act as the
simulators' random source are called "draws". The cached payload's timestamp
(`time.Now().Unix()`) is a parameter too. With these fixed, the simulators are
total functions. `Handler.Draws` holds the handler's readings, and
`TracingMiddleware`'s `nowNanos` holds the middleware's request-id reading.

Modules:

- `Decimal` renders integers the way Go's `%d` does.
- `StatusLabels` holds the status classification.
- `Params` is the parameter sanitiser; `SanitizeParams` is a loop over the
  keys, and `Sanitized` is its specification.
- `ResponseWriting` holds the sink and the decorator. They are classes, since
  observability.go updates them in place.
- `Simulators` holds the decision rules and the outcomes they produce.
- `Handler` is `apiHandler`, a method that returns the reply and the ordered
  events (downstream calls and the warning and error entries). It also holds
  client methods for the four forced scenarios.
- `Middleware` is `tracingMiddleware`, with `apiHandler` as the wrapped
  handler.

## Notes on the code's behaviour

- `responseWriter.WriteHeader` overwrites `statusCode` on every call, so the
  writer holds the most recent code, never the first
  (`ResponseWriting.LatestCodeWins`). The handler writes a status exactly once
  on every path, so the middleware only ever sees that one code.
- The database simulator receives only the parameters and its two draws. The
  query text only labels the span and the debug entry, so the handler records
  it in its `DbQuery` event.
- `http.Error` writes its message followed by a newline, so the 500 body is
  `Internal server error\n`.
- In Go, the cache simulator returns a nil map inside a non-nil `interface{}`
  on a miss. So `cachedData != nil` would be true even then. The handler only
  tests it on the hit path, where the value is a real map. The model uses
  `None` for the miss value, and this changes no result.

## Model

| member | source | states |
|---|---|---|
| `Decimal.NatToDecimal` | observability.go:86 | `%d` of a non-negative number is a non-empty string of digits, with a leading zero only for 0, and 0 prints as exactly `0` |
| `Decimal.IntToDecimal` | observability.go:86 | `%d` of any integer is non-empty and starts with a digit exactly when the number is non-negative, and with `-` exactly when it is negative; no zero follows the `-`, a non-negative number starts with `0` only when it is 0, and 0 prints as exactly `0` |
| `Decimal.DigitChar` | observability.go:86 | each digit value maps to a digit character, and reading that character back gives the same value |
| `Decimal.ParseDecimalOfNatToDecimal` | observability.go:86 | reading the printed digits back gives the original number (round trip) |
| `Decimal.NatToDecimalInjective` | observability.go:86 | two different naturals never print the same |
| `Decimal.IntToDecimalRoundTrip` | observability.go:86 | a non-negative number prints as digits that read back as the number; a negative one prints as `-` and digits that read back as its absolute value |
| `Decimal.IntToDecimalInjective` | observability.go:86 | two different integers never print the same |
| `StatusLabels.StatusLabel` | observability.go:151-160 | the label is always one of the four labels |
| `StatusLabels.StatusLabelPartition` | observability.go:151-160 | each label holds exactly on its range: 200-299 success, 400-499 client_error, 500 and above server_error, everything else unknown |
| `StatusLabels.StatusLabelAgreesWithClass` | observability.go:151-160 | the label equals the name of an independent classification by the hundreds digit |
| `Params.SanitizeParams` | observability.go:227-238 | the loop builds a map with the same key set in which password, token and secret map to `****` and every other key keeps its value |
| `Params.SanitizedMasksOnlySensitive` | observability.go:227-238 | no key is added or dropped, the size is unchanged, sensitive keys are masked, and any entry that differs from the input is sensitive |
| `Params.SanitizedIdempotent` | observability.go:227-238 | sanitising twice equals sanitising once |
| `Params.SanitizedExample` | observability.go:227-238 | `{password:abc, token:xyz, user_id:1}` becomes `{password:****, token:****, user_id:1}` |
| `ResponseWriting.Sink.constructor` | observability.go:137 | the wrapped transport sink starts with no status codes and an empty body |
| `ResponseWriting.Sink.WriteHeader` | observability.go:147 | the sink records the code after the earlier ones and leaves the body alone |
| `ResponseWriting.Sink.Write` | observability.go:398 | the sink appends the data to the body and leaves the codes alone |
| `ResponseWriting.ResponseWriter.constructor` | observability.go:141-143 | a fresh writer wraps the given sink and records 200 |
| `ResponseWriting.ResponseWriter.WriteHeader` | observability.go:145-148 | the recorded code becomes the given one, the code is forwarded to the wrapped sink, and the body does not change |
| `ResponseWriting.ResponseWriter.Write` | observability.go:136-139 | a body write passes unchanged to the wrapped sink and does not touch the recorded code |
| `ResponseWriting.LatestCodeWins` | observability.go:141-148 | after two WriteHeader calls the writer records the second code and the sink has received both, in order |
| `Simulators.QueryTimeMs` | observability.go:219-224 | the simulated query time is always between 50 and 249 ms |
| `Simulators.SimulateDBQuery` | observability.go:163-216 | latency is `QueryTimeMs` of the time draw, so in [50, 249]; timeout exactly when latency > 200 and the failure draw is a multiple of 10, reporting that latency; otherwise exactly two rows with ids 1 and 2; the logged parameters are the sanitised map: same key set, sensitive keys masked and every other value kept |
| `Simulators.QueryFailureNeedsSlowDraw` | observability.go:194 | a query fails exactly when the time draw is 151..199 modulo 200 and the failure draw is 0 modulo 10; a query of at most 200 ms never fails |
| `Simulators.QueryOutcomesReachable` | observability.go:193-208 | both the timeout (after 201 ms) and the two-row result occur for some draws |
| `Simulators.CallTimeMs` | observability.go:257-262 | the call takes 100 or 300 ms, and 300 exactly when the draw is a multiple of 3 |
| `Simulators.SimulateExternalAPICall` | observability.go:241-281 | latency is `CallTimeMs` of the time draw, so 100 or 300 ms; a 100 ms call never fails; an error happens exactly when the time draw is 0 modulo 3 and the failure draw is 0 modulo 8, and it reports that latency |
| `Simulators.SimulateCacheOperation` | observability.go:284-323 | hit exactly when the draw modulo 10 is below 7; a value is present exactly on a hit, holding the fixed data and the current Unix time; the error is always nil |
| `Simulators.CacheHitsInSplitLast` | observability.go:307 | the hit count over a window grows by the last draw's hit |
| `Simulators.SevenHitsInTen` | observability.go:307 | any ten consecutive draws contain exactly seven cache hits |
| `Simulators.OneSlowCallInThree` | observability.go:259-262 | any three consecutive draws contain exactly one 300 ms call |
| `Handler.CacheKey` | observability.go:351 | the key has length of the id plus 11, starts with `user:`, ends with `:items`, and holds the user id in between |
| `Handler.CacheKeyInjective` | observability.go:351 | distinct user ids give distinct cache keys |
| `Handler.BoolText` | observability.go:398 | `%v` of a boolean is `true` exactly for true and `false` exactly for false |
| `Handler.SuccessBody` | observability.go:398 | the body starts with `{"status":"success","cache_hit":`, then holds the flag's text, then `,"items":`, ends with `}`, and the digits just before the `}` read back as the item count |
| `Handler.StatusOf` | observability.go:367-395 | the status is 200 exactly for a success and 500 exactly for the internal error |
| `Handler.BodyOf` | observability.go:367-398 | a success gets exactly `SuccessBody` of its flag and count; the internal error gets `Internal server error\n`, which cannot be mistaken for a success body |
| `Handler.QueryParams` | observability.go:360-362 | the query parameters hold only `user_id`, mapped to the user id, and sanitising leaves them unchanged |
| `Handler.EnrichmentEvents` | observability.go:381-384 | the enrichment step is one external call, followed by one warning exactly when the call fails (the second entry is that warning) |
| `Handler.ApiHandler` | observability.go:326-399 | starts with a cache GET on `user:<id>:items`. On a hit: no query and no SET, then the enrichment step, reply 200 with cache_hit true and 1 item. On a miss with a failing query: GET, query, error entry, reply 500 with `Internal server error`, and no SET or enrichment. On a miss with a good query: GET, query, SET, enrichment, in that order, reply 200 with cache_hit false and 2 items. In every case one status is written to the sink, it is the one the writer records, and the body is the reply's body |
| `Handler.WarningsAppend` | observability.go:382 | the warning count of a concatenation is the sum of the counts |
| `Handler.WarningsNone` | observability.go:382 | a sequence without warning entries has warning count 0 |
| `Handler.EnrichmentIsNonFatal` | observability.go:381-398 | two requests that differ only in the enrichment draws get identical replies; a successful one carries one warning exactly when enrichment failed |
| `Handler.ScenarioCacheHit` | observability.go:350-398 | forced hit for user 42: reply cache_hit true with 1 item, events are the GET of `user:42:items` and the enrichment call only, and the body is `{"status":"success","cache_hit":true,"items":1}` |
| `Handler.ScenarioMissQueryOk` | observability.go:357-398 | forced miss with a good query: status 200 with body `{"status":"success","cache_hit":false,"items":2}` |
| `Handler.ScenarioMissQueryTimeout` | observability.go:364-369 | forced miss with a timeout: status 500, body `Internal server error\n`, and no enrichment call or SET |
| `Handler.ScenarioEnrichmentFails` | observability.go:381-398 | forced miss, good query, failing enrichment: still cache_hit false with 2 items, and exactly one warning, as the last event |
| `Middleware.RequestId` | observability.go:84-87 | a non-empty header is used verbatim; otherwise the identifier is the printed clock value; it is never empty |
| `Middleware.RequestIdReadsBackAsClock` | observability.go:84-87 | without a header, the identifier reads back as the clock value, with a leading `-` exactly for a negative value |
| `Middleware.RequestIdsDistinct` | observability.go:84-87 | without a header, different clock readings give different identifiers |
| `Middleware.TracingMiddleware` | observability.go:81-133 | the request id follows the header rule. The recorded status is the handler's reply status, and its label is `success` exactly on a success and `server_error` exactly on the database failure path. The reply is cache_hit true with 1 item on a hit, the 500 error on a miss with a failing query, and cache_hit false with 2 items otherwise. The events start with the cache GET and contain the enrichment call exactly on a success. The sink receives exactly that status and the reply body |

## Left out

- Span creation, span attributes, `RecordError` and `span.End`: OpenTelemetry
  calls with effects this model cannot see. The one-trace-per-request and
  exactly-one-End properties are therefore not stated.
- The zap logger and its bound fields: foreign library calls. Only the
  handler's error entry ("Database query failed") and warning entry
  (enrichment failure) are kept, as events. The debug and info entries and
  the simulators' own error entries are not modelled.
- `time.Sleep`, `time.Since` and the `duration_ms`/`response_time_ms`
  values: sleeping has no modellable effect, and durations come from the clock.
- Clock draws are natural numbers. A clock before 1970 would give negative
  nanoseconds, and Go's truncating `%` would then give negative remainders;
  that case is not modelled. The request-identifier clock is an `int`, since
  `%d` prints a sign.
- Response headers (`Content-Type`, `X-Trace-ID`, the headers `http.Error`
  sets), `r.ParseForm` and URL access. The user id and the `X-Request-ID`
  header value are string inputs, and the sink records only status codes and
  body text.
- The `user.id` span attribute and the `user_id` logger field set when the user
  id is non-empty: span and logger calls, as above.
- The names and `created_at` timestamps of the mock database rows: rows carry
  only their ids.
- The text of the timeout errors ("database query timeout after ...",
  "external API timeout after ..."): modelled as error values carrying the
  latency in milliseconds.
- `Middleware.TracingMiddleware`: the middleware is generic in the wrapped
  handler; the model fixes it to `apiHandler`, as the server's routing does.
- `initTracer`, `initLogger`, `main` and `healthcheckHandler`: process
  bootstrap, exporter set-up, environment reads, the listener, and a constant
  response.
- Concurrency between requests: each request is modelled on its own, and no
  state is shared between requests.
