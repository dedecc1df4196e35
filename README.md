# Frontend request layer of the Online Boutique demo, in Dafny

This project models the request layer of the Go `frontend` service of the
microservices demo. It covers three parts:

- **The HTTP interceptors** in `src/frontend/middleware.go`:
  - the `responseRecorder`;
  - `logHandler`;
  - `metricsHandler`, with its path-to-label classification;
  - `ensureSessionID`.
- **The Prometheus metric families and their recording helpers** in
  `src/frontend/metrics.go`.
- **The backend RPC facades of `frontendServer`** in `src/frontend/rpc.go`.

The files are:

| file | what it holds |
|---|---|
| `results.dfy` | Go's `(value, error)` pairs as `Result`, and `errors.Wrap`. |
| `text.dfy` | The library routines the layer uses: `strings.HasPrefix`, `strings.Contains`, `strings.Trim`, the first element of `strings.Split`, and `strconv.Itoa` with its inverse. |
| `metrics.dfy` | The registry as a value (`Snapshot`) and as the mutable object the helpers update (`Registry`). Each vector is a map from its label tuple to a count of increments or observations. `Record` and `RecordAll` give the effect of each recording event. |
| `http.dfy` | The `http.ResponseWriter` calls a handler makes (`Action`), the shared `http.Header` map, and the connection's own writer (`Sink`). |
| `recorder.dfy` | `responseRecorder` as a class, plus the status and byte-count folds that specify it. |
| `routes.dfy` | The classification in `metricsHandler.ServeHTTP` of a raw path into a `path` label and a `handler` label. |
| `middleware.dfy` | The layers as a value-level semantics, `Serve`, of any stack of layers. `Handle` runs the fixed chain on a connection and a registry, and is proved to produce exactly what `Serve` says. |
| `rpc.dfy` | `frontendServer`'s facades as a class over a `Backends` object. `Backends` logs every call it is sent and answers from fixed reply functions. |

The fixed chain is metrics, then session, then log, then page, outermost
first.

For unmatched routes the metrics `path` label keeps ids. The comment at
`middleware.go:99` says paths with ids are normalised to avoid high
cardinality. The code, however, replaces only paths containing `/product/` or
`/product-meta/`. Every other path is recorded verbatim as the `path` label
(`middleware.go:96-126`), and the model follows the code.
`Routes.CartSubpathEchoed` proves this: each distinct `/cart/<id>` yields its
own label.

## Model

| member | source | states |
|---|---|---|
| Results.Wrap | src/frontend/rpc.go:152 | The wrapped message is the context, then ": ", then the cause. Its prefix is exactly the context and its suffix exactly the cause. |
| Results.WrapErr | src/frontend/rpc.go:199 | Wrapping keeps success and failure as they were. It leaves a value untouched and prefixes an error's message with the context. |
| Text.HasPrefix | src/frontend/middleware.go:114 | `strings.HasPrefix`: the prefix is no longer than the string and equals its first characters. `Routes.NotStatic` uses it. |
| Text.Contains | src/frontend/middleware.go:100-103 | `strings.Contains`, searched suffix by suffix. Its meaning, an occurrence at some position, is `Text.ContainsIff`. |
| Text.ContainsIff | src/frontend/middleware.go:100-103 | The recursive `strings.Contains` holds exactly when `sub` occurs at some position of `s`, in both directions. |
| Text.ContainsAt | src/frontend/middleware.go:100 | A string built as `pre + sub + post` contains `sub`. |
| Text.TrimLeft | src/frontend/middleware.go:120 | The result is a suffix of the input that does not start with the cut character. Everything dropped was that character. |
| Text.TrimRight | src/frontend/middleware.go:120 | The result is a prefix of the input that does not end with the cut character. Everything dropped was that character. |
| Text.Trim | src/frontend/middleware.go:120 | The result is a contiguous piece of the input with the cut character at neither end. Everything cut off on either side was that character. |
| Text.FirstSegment | src/frontend/middleware.go:120-121 | `strings.Split(s, "/")[0]` is a prefix of `s` without slashes, followed in `s` by a slash or by the end of `s`. |
| Text.Decimal | src/frontend/middleware.go:133 | The decimal numeral is non-empty and made only of digits. It starts with `0` exactly for zero, whose numeral is "0", so it has no leading zeros. |
| Text.Itoa | src/frontend/middleware.go:133 | `strconv.Itoa`: a minus sign before the numeral of a negative number. `Text.AtoiOfItoa` and `Text.ItoaInjective` state that it is a well-formed numeral, read back by `Atoi`, and injective. |
| Text.ParseDecimalOfDecimal | src/frontend/middleware.go:133 | Reading the numeral back gives the number (induction on the number). |
| Text.AtoiOfItoa | src/frontend/middleware.go:133 | `strconv.Itoa` output is a well-formed numeral, and `Atoi` undoes it for every integer. |
| Text.ItoaInjective | src/frontend/middleware.go:133 | Distinct statuses give distinct status labels. |
| Text.ItoaExamples | src/frontend/middleware.go:133 | The labels of statuses 0, 200 and 404 are "0", "200" and "404". |
| Metrics.Record | src/frontend/metrics.go:148-173 | The effect of one recording helper on the registry. The `Record…Cells` lemmas below state for each event which cells rise and that nothing else changes. |
| Metrics.RecordAll | src/frontend/metrics.go:148-173 | Recording events in order. `Metrics.RecordAllConcat`, `Metrics.RecordAllGrows` and `Metrics.RecordAllGrpcCount` state its meaning. |
| Metrics.BumpCells | src/frontend/metrics.go:150 | `WithLabelValues(k).Inc()` raises its own cell by one, leaves every other cell alone, and adds its key. |
| Metrics.RecordAllConcat | src/frontend/metrics.go:148-173 | Recording two batches in turn is recording their concatenation (induction on the second batch). |
| Metrics.RecordHTTPRequestCells | src/frontend/metrics.go:149-156 | The request counter at (method, path, status) rises by one. The duration histogram at (method, path) and the server-duration histogram at (method, path, status) each gain one observation. No other cell and no other family changes. |
| Metrics.RecordHandlerResponseTimeCells | src/frontend/metrics.go:158-160 | The handler histogram gains one observation at (handler, method, status), and nothing else changes. |
| Metrics.RecordCartOperationCells | src/frontend/metrics.go:162-164 | One cart-operation cell rises by one, and nothing else changes. |
| Metrics.RecordGRPCRequestCells | src/frontend/metrics.go:166-169 | The gRPC counter at (service, method, status) rises by one. The duration histogram gains one observation at (service, method), whose labels leave out the status. Nothing else changes. |
| Metrics.RecordErrorCells | src/frontend/metrics.go:171-173 | One error cell rises by one, and nothing else changes. |
| Metrics.SessionGaugeRoundTrip | src/frontend/metrics.go:114-119 | Raising and then lowering the session gauge restores the whole registry. |
| Metrics.NotBelowBump | src/frontend/metrics.go:150 | An increment lowers no cell. |
| Metrics.RecordGrows | src/frontend/metrics.go:24-146 | No single recording lowers a counter cell or a histogram count; only the gauge can go down. |
| Metrics.GrownTransitive | src/frontend/metrics.go:24-146 | "Not below" is transitive across registry states. |
| Metrics.RecordAllGrows | src/frontend/metrics.go:24-146 | Any sequence of recordings leaves every counter and histogram count at or above where it started. |
| Metrics.RecordAllGrpcCount | src/frontend/metrics.go:166-169 | The gRPC counter at each label tuple rises by exactly the number of matching gRPC events recorded. |
| Metrics.RecordGrpcCount | src/frontend/metrics.go:166-169 | One event raises the gRPC counter at a label tuple by one exactly when it is a gRPC request with those labels, and otherwise leaves it alone. |
| Metrics.RecordAllHttpCount | src/frontend/metrics.go:149-156 | The HTTP request counter at each (method, path, status) rises by exactly the number of matching HTTP-request events recorded. |
| Metrics.RecordHttpCount | src/frontend/metrics.go:149-156 | One event raises the HTTP request counter at a label tuple by one exactly when it is an HTTP request with those labels, and otherwise leaves it alone. |
| Metrics.Registry.constructor | src/frontend/metrics.go:24-146 | A new registry is empty: every vector has no cells and every scalar is zero. |
| Metrics.Registry.RecordHTTPRequest | src/frontend/metrics.go:149-156 | The registry's new contents are the old ones after the HTTP-request event, and the event is appended to the trace. |
| Metrics.Registry.RecordHandlerResponseTime | src/frontend/metrics.go:158-160 | The new contents are the old ones after the handler-time event, and the trace is extended by it. |
| Metrics.Registry.RecordCartOperation | src/frontend/metrics.go:162-164 | The new contents are the old ones after the cart-operation event, and the trace is extended by it. |
| Metrics.Registry.RecordGRPCRequest | src/frontend/metrics.go:166-169 | The new contents are the old ones after the gRPC event, and the trace is extended by it. |
| Metrics.Registry.RecordError | src/frontend/metrics.go:171-173 | The new contents are the old ones after the error event, and the trace is extended by it. |
| Metrics.Registry.IncProductViews | src/frontend/metrics.go:72-77 | The product-view counter rises by one, as the ProductView event says. |
| Metrics.Registry.IncOrders | src/frontend/metrics.go:79-85 | The order counter at the status rises by one, as the Order event says. |
| Metrics.Registry.ObserveOrderValue | src/frontend/metrics.go:87-94 | The order-value histogram gains one observation. |
| Metrics.Registry.IncCurrencyConversions | src/frontend/metrics.go:122-129 | The conversion counter at (from, to) rises by one. |
| Metrics.Registry.IncRecommendationsServed | src/frontend/metrics.go:131-137 | The recommendations counter rises by one. |
| Metrics.Registry.IncActiveSessions | src/frontend/metrics.go:114-119 | The session gauge goes up by one. |
| Metrics.Registry.DecActiveSessions | src/frontend/metrics.go:114-119 | The session gauge goes down by one. |
| Http.HeaderMap.constructor | src/frontend/middleware.go:47 | A new header map is empty. |
| Http.Sink.constructor | src/frontend/middleware.go:44 | A fresh connection writer has an empty header map and has received nothing. |
| Http.Sink.Write | src/frontend/middleware.go:53 | The connection receives the write. The byte count and the error are the connection's own report. |
| Http.Sink.WriteHeader | src/frontend/middleware.go:60 | The connection receives the status line. |
| Recorder.StatusAfter | src/frontend/middleware.go:49-61 | The recorder's status after a sequence of calls. `StatusAfterNoHeader`, `StatusAfterLastHeader` and `StatusZeroIffSilent` state what it is. |
| Recorder.BytesAfter | src/frontend/middleware.go:53-55 | The recorder's byte count: the start plus what the connection reported for each body write. `Recorder.TwoWrites` and `Recorder.ResponseRecorder.Replay` use it. |
| Recorder.StatusAfterNoHeader | src/frontend/middleware.go:49-52 | With no WriteHeader among the calls, the status is unchanged, or it becomes 200 when it was unset and some body write happened. |
| Recorder.StatusAfterLastHeader | src/frontend/middleware.go:58-61 | The last WriteHeader with a non-zero code decides the recorded status, whatever body writes follow it. |
| Recorder.StatusZeroIffSilent | src/frontend/middleware.go:49-61 | For status codes 100–999 (`ValidCodes`), a fresh recorder still reads status 0 exactly when the handler below made no call, in both directions. |
| Recorder.TwoWrites | src/frontend/middleware.go:49-56 | Two writes with no explicit status record 200 and the sum of both byte counts. |
| Recorder.HeaderThenWrite | src/frontend/middleware.go:50-52 | An explicit 404 survives a later body write. |
| Recorder.ResponseRecorder.constructor | src/frontend/middleware.go:93 | A new recorder wraps the given writer with zero bytes and no status. |
| Recorder.ResponseRecorder.Header | src/frontend/middleware.go:47 | The recorder hands out the wrapped writer's own header map, so header edits reach the connection. |
| Recorder.ResponseRecorder.Write | src/frontend/middleware.go:49-56 | The status defaults to 200 if unset. The byte count grows by what the wrapped writer reports, whose results are returned unchanged. The write is passed through. |
| Recorder.ResponseRecorder.WriteHeader | src/frontend/middleware.go:58-61 | The status becomes the code and the byte count is kept. The call is passed through. |
| Recorder.ResponseRecorder.Replay | src/frontend/middleware.go:47-61 | After any sequence of calls, the status and byte count are the `StatusAfter` and `BytesAfter` folds of those calls, and the connection received exactly those calls. |
| Routes.SegmentHandler | src/frontend/middleware.go:118-126 | The fallback handler label is non-empty and slash-free. It is "unknown" or a prefix of the slash-trimmed path. |
| Routes.Classify | src/frontend/middleware.go:96-126 | A path containing `/product/` gets the fixed product route. Otherwise a path containing `/product-meta/` gets the fixed product-meta route. Only these two replace the raw path. The handler label is never empty and never holds a slash. |
| Routes.PageHandler | src/frontend/middleware.go:106-126 | Every handler label of a non-product path is non-empty and slash-free. |
| Routes.ClassifyPages | src/frontend/middleware.go:106-111 | `/`, `/cart` and `/cart/checkout` keep their paths and are labelled home, cart and checkout. |
| Routes.ClassifySetCurrency | src/frontend/middleware.go:112-113 | `/set_currency` keeps its path and is labelled set-currency. |
| Routes.SetCurrencyPage | src/frontend/middleware.go:106-113 | `/set_currency` passes the home, cart and checkout tests and gets the set-currency label. |
| Routes.ClassifyHealth | src/frontend/middleware.go:116-117 | `/_healthz` keeps its path and is labelled health. |
| Routes.HealthPage | src/frontend/middleware.go:106-117 | `/_healthz` passes every earlier page test, the static prefix included, and gets the health label. |
| Routes.NotStatic | src/frontend/middleware.go:114 | A path whose second character is not `s` is not under `/static/`. |
| Routes.NoProductIn | src/frontend/middleware.go:100-105 | A path without the letter `p` matches neither product route. |
| Routes.NoProductRoute | src/frontend/middleware.go:100-126 | Such a path keeps its raw path and is labelled by the page routes. |
| Routes.MissingChar | src/frontend/middleware.go:100-103 | A string lacking one of a pattern's characters does not contain the pattern. |
| Routes.ProductIdIrrelevant | src/frontend/middleware.go:100-102 | All product pages get the same route, whatever their id or prefix. |
| Routes.ClassifyStatic | src/frontend/middleware.go:114-115 | A non-product path under `/static/` keeps its path and is labelled static. |
| Routes.ClassifyOther | src/frontend/middleware.go:118-126 | Any other path keeps its raw path. Its handler is its first trimmed segment, or "unknown" when that is empty. |
| Routes.CartSubpathEchoed | src/frontend/middleware.go:96-126 | Each `/cart/<id>` other than the checkout page is recorded under its own raw path, with handler "cart". |
| Routes.CartNotFixedPage | src/frontend/middleware.go:106-118 | No fixed page matches `/cart/<id>` unless `<id>` is "checkout". |
| Routes.CartNotExactPage | src/frontend/middleware.go:106-117 | `/cart/<id>` equals none of the exact page paths unless `<id>` is "checkout". |
| Routes.CartSegment | src/frontend/middleware.go:120-122 | The first segment of `/cart/<id>` is "cart". |
| Routes.NoProductUnderCart | src/frontend/middleware.go:100-105 | No path `/cart/<id>` with a slash-free id matches a product route. |
| Routes.SlashesUnknown | src/frontend/middleware.go:106-126 | Every path of two or more slashes and nothing else keeps its raw path and is labelled "unknown". The single slash is the home page (`Routes.ClassifyPages`). |
| Routes.SlashesTrimmed | src/frontend/middleware.go:120 | Trimming slashes from a string of slashes leaves the empty string (induction on the string). |
| Middleware.Serve | src/frontend/middleware.go:63-171 | The value-level semantics of a stack of layers. `WritesPassThrough`, `OtherKeysPreserved`, `SessionAssigned` and the `Chain…` lemmas state what it gives, and `Middleware.Handle` is proved to do it. |
| Middleware.LogContext | src/frontend/middleware.go:64-87 | logHandler adds exactly the request id and the logger to the context. The logger is tagged with that request id, and every other entry is kept. |
| Middleware.StatusLabel | src/frontend/middleware.go:133 | The status label is a well-formed numeral that reads back as the recorder's final status. It is "0" exactly when that status is 0, which for codes 100–999 means the handler below made no call (`Recorder.StatusZeroIffSilent`). |
| Middleware.RequestEvents | src/frontend/middleware.go:132-135 | The HTTP-request event and then the handler-time event, both for the classified route and the given status. `Middleware.ObserveRequest` records them. |
| Middleware.MetricsEvents | src/frontend/middleware.go:128-135 | metricsHandler's two events under the status label of the writes below it. `Middleware.ChainCookieError` and `Middleware.ChainAssigned` state them for the chain. |
| Middleware.AssignSession | src/frontend/middleware.go:140-161 | Only a cookie error other than "no cookie" stops the request. An existing cookie's value is reused, and the session is not new. A missing cookie gives a new session: the shared id exactly when ENABLE_SINGLE_SHARED_SESSION is "true", else a fresh uuid. |
| Middleware.RequestLogger | src/frontend/middleware.go:70-77 | The logger carries path, method and request id. It has a "session" field exactly when the incoming context holds a session id, and then carries that id. |
| Middleware.WritesPassThrough | src/frontend/middleware.go:63-171 | No layer writes on its own. The connection receives exactly the page handler's calls, or nothing when the request was stopped (induction over the stack). |
| Middleware.OtherKeysPreserved | src/frontend/middleware.go:66-87 | The page handler sees the same method, path and foreign context entries as the incoming request. |
| Middleware.SessionAssigned | src/frontend/middleware.go:138-171 | Below metricsHandler, a request with an assigned session reaches the page handler with the session and the log context. It sets one cookie and raises the gauge exactly for a new session. |
| Middleware.ChainAssigned | src/frontend/middleware.go:91-171 | The full chain for an assigned session gives the page handler's writes, the cookie of a new session, the gauge event before the two request events, and the enriched request. |
| Middleware.ChainNewSession | src/frontend/middleware.go:142-156 | A cookieless visitor gets one cookie with the new id. The gauge rises before the request metrics. The page handler sees the id. |
| Middleware.ChainExistingSession | src/frontend/middleware.go:159-161 | A returning visitor's cookie value becomes the session id. No cookie is set and the gauge is untouched. |
| Middleware.ChainCookieError | src/frontend/middleware.go:157-158 | An unreadable cookie stops the request before the page handler. Nothing is written, and the request metrics are still recorded, with status label "0". |
| Middleware.ChainContext | src/frontend/middleware.go:66-86 | The page handler runs exactly when the cookie could be read. It then sees the request id, the session id and a logger tagged with both, because ensureSessionID runs outside logHandler. |
| Middleware.LogOutsideSession | src/frontend/middleware.go:75-77 | In the opposite wrap order the logger carries no session field. |
| Middleware.CookieLine | src/frontend/middleware.go:152-156 | The Set-Cookie line: `name=value`, then `; Max-Age=n` for a positive max age, `; Max-Age=0` for a negative one, and nothing for zero. |
| Middleware.SetCookies | src/frontend/middleware.go:152-156 | The header map after `http.SetCookie` for each cookie. `Middleware.SetCookiesLines` states its meaning. |
| Middleware.SetCookiesLines | src/frontend/middleware.go:152-156 | Setting cookies appends one Set-Cookie line per cookie, in order, after any earlier lines. It adds only the Set-Cookie key and leaves every other header unchanged (induction on the cookies). |
| Middleware.AddHeader | src/frontend/middleware.go:152-156 | One more value under the key, all other entries kept. |
| Middleware.Handle | src/frontend/middleware.go:91-171 | On a connection and a registry, the chain sends exactly `Serve`'s writes and sets its cookies in the header. The registry's trace grows by `Serve`'s events, and its contents are the old ones after those events. It returns the request the page handler saw. |
| Middleware.ObserveRequest | src/frontend/middleware.go:132-135 | The registry records the HTTP-request event and the handler-time event for the classified path, under `Itoa` of the final status, in that order. |
| Middleware.EnsureSession | src/frontend/middleware.go:138-171 | Under a recorder, the session and log layers do what `Serve` says for them. That covers the recorder's status, the bytes and calls sent, the Set-Cookie header, the gauge, and the request passed on. |
| Rpc.GrpcEvent | src/frontend/rpc.go:57-60 | The gRPC event of one facade call. `Rpc.GrpcStatus` states its status label, and `Metrics.RecordGRPCRequestCells` its effect. |
| Rpc.GrpcStatus | src/frontend/rpc.go:57-60 | The status label is "error" exactly for a failed call, and "success" exactly for a successful one. |
| Rpc.Whitelisted | src/frontend/rpc.go:37-41 | The whitelisted codes in the service's order. `Rpc.WhitelistedMembers` and `Rpc.WhitelistedCounts` state which codes and how often. |
| Rpc.WhitelistedAppend | src/frontend/rpc.go:37-41 | The filter distributes over concatenation, so it keeps the services' order. |
| Rpc.WhitelistedCounts | src/frontend/rpc.go:37-41 | Every whitelisted code is returned as often as the service listed it, and every other code is dropped. |
| Rpc.WhitelistedMembers | src/frontend/rpc.go:37-41 | A code is returned exactly when the service listed it and it is whitelisted. |
| Rpc.FirstFailure | src/frontend/rpc.go:170-174 | Every lookup before the returned position succeeded, and the lookup at it, if any, failed. |
| Rpc.LookupCalls | src/frontend/rpc.go:170-171 | One GetProduct request per id, in order. |
| Rpc.LookupEvents | src/frontend/rpc.go:170-171 | One gRPC event per id, in order, with the lookup's status. |
| Rpc.Attempted | src/frontend/rpc.go:170-174 | The lookups made never exceed the ids. |
| Rpc.RecommendationsSucceed | src/frontend/rpc.go:169-180 | Recommendations are returned iff every lookup succeeds. They are then the first four products, or all of them if fewer, in the recommender's order. |
| Rpc.RecommendationsFail | src/frontend/rpc.go:171-174 | On failure, the error is about the first id whose lookup failed, and no later id was looked up. |
| Rpc.LookupError | src/frontend/rpc.go:173 | The error for a failed lookup. `Rpc.LookupErrorNamesId` states its shape. |
| Rpc.Recommendations | src/frontend/rpc.go:169-180 | What getRecommendations returns once the recommender has answered. `Rpc.RecommendationsSucceed`, `Rpc.RecommendationsFail` and `Rpc.RecommendationsBounded` state it. |
| Rpc.LookupErrorNamesId | src/frontend/rpc.go:173 | The lookup error starts with the fixed context, names the id, and ends with the lookup's own error. |
| Rpc.RecommendationsBounded | src/frontend/rpc.go:177-179 | At most four products are returned. |
| Rpc.ShippingQuote | src/frontend/rpc.go:148-152 | A quote error is returned unwrapped. A conversion error is wrapped with "failed to convert currency for shipping cost". |
| Rpc.LookupsStopAt | src/frontend/rpc.go:171-174 | If the lookup at `i` fails after all earlier ones succeeded, `i + 1` lookups are made and the error names `ids[i]`. |
| Rpc.LookupsComplete | src/frontend/rpc.go:175-180 | When every lookup succeeds, the result is the first four products found. |
| Rpc.LookupStep | src/frontend/rpc.go:170-171 | One more lookup extends the call log and the event log by one entry each. |
| Rpc.FirstFailureAt | src/frontend/rpc.go:171-174 | All lookups before `i` succeed and the one at `i` fails, so `i` is the first failure. |
| Rpc.LookupRecorded | src/frontend/rpc.go:170-171 | Recording the events of one more lookup is recording that lookup's event after those of the earlier ones. |
| Rpc.Backends.constructor | src/frontend/rpc.go:31-32 | A fresh set of connections has sent nothing and answers from the given reply functions. |
| Rpc.Backends.LookupProduct | src/frontend/rpc.go:53-54 | The GetProduct request is logged and answered. |
| Rpc.Backends.SupportedCurrencies | src/frontend/rpc.go:31-32 | The GetSupportedCurrencies request is logged and answered. |
| Rpc.Backends.Products | src/frontend/rpc.go:46-47 | The ListProducts request is logged and answered. |
| Rpc.Backends.CartOf | src/frontend/rpc.go:68 | The GetCart request for the user is logged and answered. |
| Rpc.Backends.Empty | src/frontend/rpc.go:82 | The EmptyCart request for the user is logged and its error returned. |
| Rpc.Backends.Add | src/frontend/rpc.go:96-101 | The AddItem request with the user and the item is logged and its error returned. |
| Rpc.Backends.Conversion | src/frontend/rpc.go:119-122 | The Convert request with the money and target code is logged and answered. |
| Rpc.Backends.Quote | src/frontend/rpc.go:136-139 | The GetQuote request with the items is logged and answered. |
| Rpc.Backends.Recommend | src/frontend/rpc.go:157-158 | The ListRecommendations request with the user and products is logged and answered. |
| Rpc.Backends.Ads | src/frontend/rpc.go:188-190 | The GetAds request with the context keys is logged and answered. |
| Rpc.Frontend.constructor | src/frontend/rpc.go:30 | The frontend holds its connections, its registry and its whitelist. |
| Rpc.Frontend.GetCurrencies | src/frontend/rpc.go:30-43 | One GetSupportedCurrencies call. The service's error is returned as is. Otherwise the result is the whitelisted codes in the service's order. No metric is recorded. |
| Rpc.Frontend.GetProducts | src/frontend/rpc.go:45-49 | One ListProducts call, its answer returned, and no metric. |
| Rpc.Frontend.GetProduct | src/frontend/rpc.go:51-64 | One GetProduct call and its answer returned. The registry's counters become the old ones after one ProductCatalogService/GetProduct event with the call's status, and the event is appended to the trace. |
| Rpc.Frontend.GetCart | src/frontend/rpc.go:66-78 | One GetCart call and its answer returned. The counters record one CartService/GetCart event with the call's status. |
| Rpc.Frontend.EmptyCart | src/frontend/rpc.go:80-92 | One EmptyCart call and its error returned. The counters record one CartService/EmptyCart event with the call's status. |
| Rpc.Frontend.InsertCart | src/frontend/rpc.go:94-111 | One AddItem call carrying the product and quantity, and its error returned. The counters record one CartService/AddItem event with the call's status. |
| Rpc.Frontend.ConvertCurrency | src/frontend/rpc.go:113-132 | With the no-op switch on and equal currencies, the money is returned with no call and the registry unchanged. Otherwise there is one Convert call, its answer, and the counters record one CurrencyService/Convert event. |
| Rpc.Frontend.GetShippingQuote | src/frontend/rpc.go:134-153 | One GetQuote call and its event. A Convert call and its event follow only when the quote succeeded. The counters record exactly those events, and the result is `ShippingQuote` of the answers. |
| Rpc.Frontend.GetRecommendations | src/frontend/rpc.go:155-181 | One ListRecommendations call and its event. On a recommender error, nothing more and the error unwrapped. Otherwise there are GetProduct calls and events for exactly the ids up to the first failure, the counters record those events in order, and the result is `Recommendations`. |
| Rpc.Frontend.FetchInto | src/frontend/rpc.go:171-175 | One lookup of `ids[i]`. It stores the product at `out[i]` iff the lookup succeeded, and reports the failure otherwise. The call, the event and the counters for the first `i` lookups are extended to those of the first `i + 1`. |
| Rpc.Frontend.LookupNext | src/frontend/rpc.go:171 | getProduct on `ids[i]`: its answer is the backend's. The call, event and counters of the first `i` lookups are extended to those of the first `i + 1`. |
| Rpc.Frontend.LookUpAll | src/frontend/rpc.go:169-180 | The loop makes the lookups up to the first failure. It logs them and their events in order, the counters record those events, and it returns `Recommendations`. |
| Rpc.Frontend.GetAd | src/frontend/rpc.go:183-199 | One GetAds call and its event, recorded in the trace and the counters on success and failure alike. The answer is returned, with an error wrapped in "failed to get ads". |

## Left out

- Time: `time.Now`, the observed durations and the histogram buckets are not modelled. A histogram observation is a count of one more observation in its cell.
- The logrus output lines ("request started" and "request complete", with took_ms, status and bytes) are not modelled. The logger is modelled only by the fields it carries.
- `uuid.NewRandom` and `os.Getenv("ENABLE_SINGLE_SHARED_SESSION")` are parameters (`Env`). So are the cookie name and max age, which are declared outside the modelled files.
- The `Set-Cookie` line is a simplified `name=value; Max-Age=n` form. Cookie value quoting and the other attributes `http.SetCookie` may add are not modelled, and header names are not canonicalised.
- The backends are stateless reply functions. A real service's answer may change from one call to the next, and gRPC connections, contexts and cancellation are not modelled. That includes the 100 ms timeout of `getAd`.
- Concurrency: requests run one at a time against the registry. Prometheus' atomic updates and concurrent handlers are not modelled.
- The chain is modelled on values (`Serve`), with one recorder on the connection. Go builds it from `http.Handler` values that each wrap the writer they receive. `main.go`, which wires the chain, is not part of this model. The order metrics, session, log, page is the one `src/frontend/middleware_test.go:217-222` builds "like in main.go".
- Middleware.Handle: the page handler is a function from the request to its writer calls. It cannot edit `w.Header()`, record metrics or call the backends. Handle's header postcondition therefore covers only the Set-Cookie lines of the session layer. Its `reg.Snap() == RecordAll(old(reg.Snap()), o.events)` leaves out the events a Go page handler records in the middle of the request, such as the facades' gRPC events or product views. A Go page handler that sets headers or records metrics of its own is outside the model.
- Http.Sink.WriteHeader: accepts any status code, while net/http's `WriteHeader` panics on a code outside 100–999. The recorder lemmas that depend on real codes (`Recorder.StatusZeroIffSilent`) require `ValidCodes`, and `Recorder.StatusAfterLastHeader` requires a non-zero code.
- Protobuf messages are reduced to the fields the facades read. Getters on a nil response (`resp.GetProducts()` after an error) are modelled as the error alone.
- Integer widths: statuses and byte counts are unbounded integers, and only the `int32` quantity keeps its width.
- `strings.Contains`, `strings.Trim` and `strconv.Itoa` are defined here on `seq<char>`. No Unicode handling is modelled; the paths the layer sees are compared character by character.
