/**
 * The frontend's Prometheus metrics (src/frontend/metrics.go), reduced to
 * what the request layer can observe: every counter vector is a map from its
 * label tuple to a natural count, every histogram vector a map from its label
 * tuple to the number of observations it has received, and the one gauge an
 * integer. Bucket boundaries and observed durations are not modelled.
 */
module Metrics {

  /** The value of one cell of a vector; a cell never touched reads 0. */
  function Count<K>(m: map<K, nat>, k: K): nat {
    if k in m then m[k] else 0
  }

  /** `WithLabelValues(k).Inc()` (or `.Observe(...)` for a histogram's count): one cell up by one. */
  function Bump<K>(m: map<K, nat>, k: K): map<K, nat> {
    m[k := Count(m, k) + 1]
  }

  /** Bump raises its own cell by one, leaves every other cell alone, and adds its key. */
  lemma BumpCells<K>(m: map<K, nat>, k: K)
    ensures Count(Bump(m, k), k) == Count(m, k) + 1
    ensures forall j :: j != k ==> Count(Bump(m, k), j) == Count(m, j)
    ensures Bump(m, k).Keys == m.Keys + {k}
  {
  }

  type Labels2 = (string, string)
  type Labels3 = (string, string, string)

  /** Every metric family declared in metrics.go:24-146, by its Go variable name. */
  datatype Snapshot = Snapshot(
    httpRequestsTotal: map<Labels3, nat>,          // verb, path, status
    httpRequestDuration: map<Labels2, nat>,        // verb, path
    httpServerRequestDuration: map<Labels3, nat>,  // verb, route, status_code
    handlerResponseTime: map<Labels3, nat>,        // handler, verb, status
    cartOperationsTotal: map<Labels2, nat>,        // operation, status
    productViewsTotal: nat,
    ordersTotal: map<string, nat>,                 // status
    orderValue: nat,
    grpcRequestsTotal: map<Labels3, nat>,          // service, rpc, status
    grpcRequestDuration: map<Labels2, nat>,        // service, rpc
    activeSessionsTotal: int,                      // a gauge: may go down
    currencyConversionsTotal: map<Labels2, nat>,   // from_currency, to_currency
    recommendationsServedTotal: nat,
    errorsTotal: map<Labels2, nat>)                // error_type, handler

  /** The registry as promauto creates it: every vector empty, every scalar zero. */
  const Empty := Snapshot(map[], map[], map[], map[], map[], 0, map[], 0, map[], map[], 0, map[], 0, map[])

  /** One recording action on the registry. */
  datatype Event =
    | HttpRequest(verb: string, path: string, status: string)                   // recordHTTPRequest
    | HandlerResponseTime(handler: string, verb: string, status: string)        // recordHandlerResponseTime
    | CartOperation(operation: string, status: string)                            // recordCartOperation
    | GrpcRequest(service: string, rpc: string, status: string)                // recordGRPCRequest
    | Error(errorType: string, handler: string)                                   // recordError
    | ProductView                                                                 // productViewsTotal.Inc()
    | Order(status: string)                                                       // ordersTotal.WithLabelValues(status).Inc()
    | OrderValue                                                                  // orderValue.Observe(v)
    | CurrencyConversion(from: string, to: string)                                // currencyConversionsTotal...Inc()
    | RecommendationsServed                                                       // recommendationsServedTotal.Inc()
    | SessionStarted                                                              // activeSessionsTotal.Inc()
    | SessionEnded                                                                // activeSessionsTotal.Dec()

  /** The registry after one event. */
  function Record(s: Snapshot, e: Event): Snapshot {
    match e
    case HttpRequest(m, p, st) =>
      s.(httpRequestsTotal := Bump(s.httpRequestsTotal, (m, p, st)),
         httpRequestDuration := Bump(s.httpRequestDuration, (m, p)),
         httpServerRequestDuration := Bump(s.httpServerRequestDuration, (m, p, st)))
    case HandlerResponseTime(h, m, st) =>
      s.(handlerResponseTime := Bump(s.handlerResponseTime, (h, m, st)))
    case CartOperation(op, st) =>
      s.(cartOperationsTotal := Bump(s.cartOperationsTotal, (op, st)))
    case GrpcRequest(svc, m, st) =>
      s.(grpcRequestsTotal := Bump(s.grpcRequestsTotal, (svc, m, st)),
         grpcRequestDuration := Bump(s.grpcRequestDuration, (svc, m)))
    case Error(t, h) =>
      s.(errorsTotal := Bump(s.errorsTotal, (t, h)))
    case ProductView =>
      s.(productViewsTotal := s.productViewsTotal + 1)
    case Order(st) =>
      s.(ordersTotal := Bump(s.ordersTotal, st))
    case OrderValue =>
      s.(orderValue := s.orderValue + 1)
    case CurrencyConversion(f, t) =>
      s.(currencyConversionsTotal := Bump(s.currencyConversionsTotal, (f, t)))
    case RecommendationsServed =>
      s.(recommendationsServedTotal := s.recommendationsServedTotal + 1)
    case SessionStarted =>
      s.(activeSessionsTotal := s.activeSessionsTotal + 1)
    case SessionEnded =>
      s.(activeSessionsTotal := s.activeSessionsTotal - 1)
  }

  lemma HttpRequestShape(s: Snapshot, verb: string, path: string, status: string)
    ensures Record(s, HttpRequest(verb, path, status)) ==
      s.(httpRequestsTotal := Bump(s.httpRequestsTotal, (verb, path, status)),
         httpRequestDuration := Bump(s.httpRequestDuration, (verb, path)),
         httpServerRequestDuration := Bump(s.httpServerRequestDuration, (verb, path, status)))
  {
  }

  /** The registry after a sequence of events, recorded in order. */
  function RecordAll(s: Snapshot, evs: seq<Event>): Snapshot
    decreases |evs|
  {
    if evs == [] then s else Record(RecordAll(s, evs[..|evs| - 1]), evs[|evs| - 1])
  }

  lemma RecordAllAppend(s: Snapshot, evs: seq<Event>, e: Event)
    ensures RecordAll(s, evs + [e]) == Record(RecordAll(s, evs), e)
  {
    assert (evs + [e])[..|evs|] == evs;
  }

  /** Recording two batches one after the other is recording their concatenation. */
  lemma {:induction false} RecordAllConcat(s: Snapshot, a: seq<Event>, b: seq<Event>)
    ensures RecordAll(s, a + b) == RecordAll(RecordAll(s, a), b)
    decreases |b|
  {
    if b == [] {
      assert a + b == a;
    } else {
      var init := b[..|b| - 1];
      assert (a + b)[..|a + b| - 1] == a + init;
      RecordAllConcat(s, a, init);
    }
  }

  // ---------------------------------------------------------------------
  // What each helper touches

  /** recordHTTPRequest: the request counter at (verb, path, status), the
      duration histogram at (verb, path) and the server-duration histogram at
      (verb, path, status) each gain exactly one; nothing else changes. */
  lemma RecordHTTPRequestCells(s: Snapshot, verb: string, path: string, status: string)
    ensures var r := Record(s, HttpRequest(verb, path, status));
      && Count(r.httpRequestsTotal, (verb, path, status)) == Count(s.httpRequestsTotal, (verb, path, status)) + 1
      && (forall k :: k != (verb, path, status) ==> Count(r.httpRequestsTotal, k) == Count(s.httpRequestsTotal, k))
      && Count(r.httpRequestDuration, (verb, path)) == Count(s.httpRequestDuration, (verb, path)) + 1
      && (forall k :: k != (verb, path) ==> Count(r.httpRequestDuration, k) == Count(s.httpRequestDuration, k))
      && Count(r.httpServerRequestDuration, (verb, path, status)) == Count(s.httpServerRequestDuration, (verb, path, status)) + 1
      && (forall k :: k != (verb, path, status) ==> Count(r.httpServerRequestDuration, k) == Count(s.httpServerRequestDuration, k))
      && r.(httpRequestsTotal := s.httpRequestsTotal, httpRequestDuration := s.httpRequestDuration,
            httpServerRequestDuration := s.httpServerRequestDuration) == s
  {
  }

  /** recordHandlerResponseTime: one observation at (handler, verb, status) and nothing else. */
  lemma RecordHandlerResponseTimeCells(s: Snapshot, handler: string, verb: string, status: string)
    ensures var r := Record(s, HandlerResponseTime(handler, verb, status));
      && Count(r.handlerResponseTime, (handler, verb, status)) == Count(s.handlerResponseTime, (handler, verb, status)) + 1
      && (forall k :: k != (handler, verb, status) ==> Count(r.handlerResponseTime, k) == Count(s.handlerResponseTime, k))
      && r.(handlerResponseTime := s.handlerResponseTime) == s
  {
  }

  /** recordCartOperation: one cell of the cart-operation counter and nothing else. */
  lemma RecordCartOperationCells(s: Snapshot, operation: string, status: string)
    ensures var r := Record(s, CartOperation(operation, status));
      && Count(r.cartOperationsTotal, (operation, status)) == Count(s.cartOperationsTotal, (operation, status)) + 1
      && (forall k :: k != (operation, status) ==> Count(r.cartOperationsTotal, k) == Count(s.cartOperationsTotal, k))
      && r.(cartOperationsTotal := s.cartOperationsTotal) == s
  {
  }

  /** recordGRPCRequest: the call counter at (service, rpc, status) and one duration
      observation at (service, rpc); the status is not a label of the histogram. */
  lemma RecordGRPCRequestCells(s: Snapshot, service: string, rpc: string, status: string)
    ensures var r := Record(s, GrpcRequest(service, rpc, status));
      && Count(r.grpcRequestsTotal, (service, rpc, status)) == Count(s.grpcRequestsTotal, (service, rpc, status)) + 1
      && (forall k :: k != (service, rpc, status) ==> Count(r.grpcRequestsTotal, k) == Count(s.grpcRequestsTotal, k))
      && Count(r.grpcRequestDuration, (service, rpc)) == Count(s.grpcRequestDuration, (service, rpc)) + 1
      && (forall k :: k != (service, rpc) ==> Count(r.grpcRequestDuration, k) == Count(s.grpcRequestDuration, k))
      && r.(grpcRequestsTotal := s.grpcRequestsTotal, grpcRequestDuration := s.grpcRequestDuration) == s
  {
  }

  /** recordError: one cell of the error counter and nothing else. */
  lemma RecordErrorCells(s: Snapshot, errorType: string, handler: string)
    ensures var r := Record(s, Error(errorType, handler));
      && Count(r.errorsTotal, (errorType, handler)) == Count(s.errorsTotal, (errorType, handler)) + 1
      && (forall k :: k != (errorType, handler) ==> Count(r.errorsTotal, k) == Count(s.errorsTotal, k))
      && r.(errorsTotal := s.errorsTotal) == s
  {
  }

  /** activeSessionsTotal.Inc() followed by .Dec() leaves the whole registry as it was. */
  lemma SessionGaugeRoundTrip(s: Snapshot)
    ensures RecordAll(s, [SessionStarted, SessionEnded]) == s
  {
    assert [SessionStarted, SessionEnded][..1] == [SessionStarted];
    assert [SessionStarted][..0] == [];
  }

  // ---------------------------------------------------------------------
  // Counters and histogram counts never go down

  ghost predicate NotBelow<K(!new)>(m: map<K, nat>, n: map<K, nat>) {
    forall k :: Count(m, k) <= Count(n, k)
  }

  /** Every counter cell and every histogram count of `a` is at most that of `b`. */
  ghost predicate Grown(a: Snapshot, b: Snapshot) {
    && NotBelow(a.httpRequestsTotal, b.httpRequestsTotal)
    && NotBelow(a.httpRequestDuration, b.httpRequestDuration)
    && NotBelow(a.httpServerRequestDuration, b.httpServerRequestDuration)
    && NotBelow(a.handlerResponseTime, b.handlerResponseTime)
    && NotBelow(a.cartOperationsTotal, b.cartOperationsTotal)
    && a.productViewsTotal <= b.productViewsTotal
    && NotBelow(a.ordersTotal, b.ordersTotal)
    && a.orderValue <= b.orderValue
    && NotBelow(a.grpcRequestsTotal, b.grpcRequestsTotal)
    && NotBelow(a.grpcRequestDuration, b.grpcRequestDuration)
    && NotBelow(a.currencyConversionsTotal, b.currencyConversionsTotal)
    && a.recommendationsServedTotal <= b.recommendationsServedTotal
    && NotBelow(a.errorsTotal, b.errorsTotal)
  }

  lemma NotBelowBump<K(!new)>(m: map<K, nat>, k: K)
    ensures NotBelow(m, Bump(m, k))
  {
  }

  /** A single recording never lowers a counter or a histogram count. */
  lemma RecordGrows(s: Snapshot, e: Event)
    ensures Grown(s, Record(s, e))
  {
    match e
    case HttpRequest(m, p, st) =>
      NotBelowBump(s.httpRequestsTotal, (m, p, st));
      NotBelowBump(s.httpRequestDuration, (m, p));
      NotBelowBump(s.httpServerRequestDuration, (m, p, st));
    case HandlerResponseTime(h, m, st) =>
      NotBelowBump(s.handlerResponseTime, (h, m, st));
    case CartOperation(op, st) =>
      NotBelowBump(s.cartOperationsTotal, (op, st));
    case GrpcRequest(svc, m, st) =>
      NotBelowBump(s.grpcRequestsTotal, (svc, m, st));
      NotBelowBump(s.grpcRequestDuration, (svc, m));
    case Error(t, h) =>
      NotBelowBump(s.errorsTotal, (t, h));
    case Order(st) =>
      NotBelowBump(s.ordersTotal, st);
    case CurrencyConversion(f, t) =>
      NotBelowBump(s.currencyConversionsTotal, (f, t));
    case _ =>
  }

  lemma GrownTransitive(a: Snapshot, b: Snapshot, c: Snapshot)
    requires Grown(a, b) && Grown(b, c)
    ensures Grown(a, c)
  {
  }

  /** Any sequence of recordings leaves every counter and histogram at or above where it was. */
  lemma {:induction false} RecordAllGrows(s: Snapshot, evs: seq<Event>)
    ensures Grown(s, RecordAll(s, evs))
    decreases |evs|
  {
    if evs != [] {
      var mid := RecordAll(s, evs[..|evs| - 1]);
      RecordAllGrows(s, evs[..|evs| - 1]);
      RecordGrows(mid, evs[|evs| - 1]);
      GrownTransitive(s, mid, Record(mid, evs[|evs| - 1]));
    }
  }

  // ---------------------------------------------------------------------
  // Counting events

  /** How many of `evs` are gRPC events with these labels. */
  function GrpcEvents(evs: seq<Event>, k: Labels3): nat
    decreases |evs|
  {
    if evs == [] then 0
    else
      var last := if evs[|evs| - 1] == GrpcRequest(k.0, k.1, k.2) then 1 else 0;
      GrpcEvents(evs[..|evs| - 1], k) + last
  }

  /** The gRPC request counter rises at each label tuple by exactly the number of matching events. */
  lemma {:induction false} RecordAllGrpcCount(s: Snapshot, evs: seq<Event>, k: Labels3)
    ensures Count(RecordAll(s, evs).grpcRequestsTotal, k) == Count(s.grpcRequestsTotal, k) + GrpcEvents(evs, k)
    decreases |evs|
  {
    if evs != [] {
      RecordAllGrpcCount(s, evs[..|evs| - 1], k);
      RecordGrpcCount(RecordAll(s, evs[..|evs| - 1]), evs[|evs| - 1], k);
    }
  }

  /** One event raises the gRPC request counter at `k` by one exactly when it is a gRPC request with those labels. */
  lemma RecordGrpcCount(s: Snapshot, e: Event, k: Labels3)
    ensures Count(Record(s, e).grpcRequestsTotal, k) ==
      Count(s.grpcRequestsTotal, k) + (if e == GrpcRequest(k.0, k.1, k.2) then 1 else 0)
  {
    if e.GrpcRequest? {
      BumpCells(s.grpcRequestsTotal, (e.service, e.rpc, e.status));
    }
  }

  /** How many of `evs` are HTTP-request events with these labels. */
  function HttpEvents(evs: seq<Event>, k: Labels3): nat
    decreases |evs|
  {
    if evs == [] then 0
    else
      var last := if evs[|evs| - 1] == HttpRequest(k.0, k.1, k.2) then 1 else 0;
      HttpEvents(evs[..|evs| - 1], k) + last
  }

  /** The HTTP request counter rises at each label tuple by exactly the number of matching events. */
  lemma {:induction false} RecordAllHttpCount(s: Snapshot, evs: seq<Event>, k: Labels3)
    ensures Count(RecordAll(s, evs).httpRequestsTotal, k) == Count(s.httpRequestsTotal, k) + HttpEvents(evs, k)
    decreases |evs|
  {
    if evs != [] {
      RecordAllHttpCount(s, evs[..|evs| - 1], k);
      RecordHttpCount(RecordAll(s, evs[..|evs| - 1]), evs[|evs| - 1], k);
    }
  }

  /** One event raises the HTTP request counter at `k` by one exactly when it is an HTTP request with those labels. */
  lemma RecordHttpCount(s: Snapshot, e: Event, k: Labels3)
    ensures Count(Record(s, e).httpRequestsTotal, k) ==
      Count(s.httpRequestsTotal, k) + (if e == HttpRequest(k.0, k.1, k.2) then 1 else 0)
  {
    if e.HttpRequest? {
      BumpCells(s.httpRequestsTotal, (e.verb, e.path, e.status));
    }
  }

  // ---------------------------------------------------------------------
  // The process-wide registry

  /** The registry object the metric vectors live in; every field is one metric family. */
  class Registry {
    var httpRequestsTotal: map<Labels3, nat>
    var httpRequestDuration: map<Labels2, nat>
    var httpServerRequestDuration: map<Labels3, nat>
    var handlerResponseTime: map<Labels3, nat>
    var cartOperationsTotal: map<Labels2, nat>
    var productViewsTotal: nat
    var ordersTotal: map<string, nat>
    var orderValue: nat
    var grpcRequestsTotal: map<Labels3, nat>
    var grpcRequestDuration: map<Labels2, nat>
    var activeSessionsTotal: int
    var currencyConversionsTotal: map<Labels2, nat>
    var recommendationsServedTotal: nat
    var errorsTotal: map<Labels2, nat>

    /** Every event recorded since the registry was created, in order. */
    ghost var trace: seq<Event>

    /** The registry's current contents as a value. */
    function Snap(): Snapshot
      reads this
    {
      Snapshot(httpRequestsTotal, httpRequestDuration, httpServerRequestDuration, handlerResponseTime,
               cartOperationsTotal, productViewsTotal, ordersTotal, orderValue, grpcRequestsTotal,
               grpcRequestDuration, activeSessionsTotal, currencyConversionsTotal,
               recommendationsServedTotal, errorsTotal)
    }

    constructor ()
      ensures Snap() == Empty && trace == []
    {
      trace := [];
      httpRequestsTotal, httpRequestDuration, httpServerRequestDuration := map[], map[], map[];
      handlerResponseTime, cartOperationsTotal := map[], map[];
      productViewsTotal, ordersTotal, orderValue := 0, map[], 0;
      grpcRequestsTotal, grpcRequestDuration := map[], map[];
      activeSessionsTotal, currencyConversionsTotal := 0, map[];
      recommendationsServedTotal, errorsTotal := 0, map[];
    }

    method RecordHTTPRequest(verb: string, path: string, status: string)
      modifies this
      ensures Snap() == Record(old(Snap()), HttpRequest(verb, path, status))
      ensures trace == old(trace) + [HttpRequest(verb, path, status)]
    {
      HttpRequestShape(Snap(), verb, path, status);
      httpRequestsTotal, httpRequestDuration, httpServerRequestDuration :=
        Bump(httpRequestsTotal, (verb, path, status)), Bump(httpRequestDuration, (verb, path)),
        Bump(httpServerRequestDuration, (verb, path, status));
      trace := trace + [HttpRequest(verb, path, status)];
    }

    method RecordHandlerResponseTime(handler: string, verb: string, status: string)
      modifies this
      ensures Snap() == Record(old(Snap()), HandlerResponseTime(handler, verb, status))
      ensures trace == old(trace) + [HandlerResponseTime(handler, verb, status)]
    {
      handlerResponseTime := Bump(handlerResponseTime, (handler, verb, status));
      trace := trace + [HandlerResponseTime(handler, verb, status)];
    }

    method RecordCartOperation(operation: string, status: string)
      modifies this
      ensures Snap() == Record(old(Snap()), CartOperation(operation, status))
      ensures trace == old(trace) + [CartOperation(operation, status)]
    {
      cartOperationsTotal := Bump(cartOperationsTotal, (operation, status));
      trace := trace + [CartOperation(operation, status)];
    }

    method RecordGRPCRequest(service: string, rpc: string, status: string)
      modifies this
      ensures Snap() == Record(old(Snap()), GrpcRequest(service, rpc, status))
      ensures trace == old(trace) + [GrpcRequest(service, rpc, status)]
    {
      ghost var s0 := Snap();
      assert Record(s0, GrpcRequest(service, rpc, status)) ==
        s0.(grpcRequestsTotal := Bump(s0.grpcRequestsTotal, (service, rpc, status)),
            grpcRequestDuration := Bump(s0.grpcRequestDuration, (service, rpc)));
      grpcRequestsTotal := Bump(grpcRequestsTotal, (service, rpc, status));
      grpcRequestDuration := Bump(grpcRequestDuration, (service, rpc));
      trace := trace + [GrpcRequest(service, rpc, status)];
    }

    method RecordError(errorType: string, handler: string)
      modifies this
      ensures Snap() == Record(old(Snap()), Error(errorType, handler))
      ensures trace == old(trace) + [Error(errorType, handler)]
    {
      errorsTotal := Bump(errorsTotal, (errorType, handler));
      trace := trace + [Error(errorType, handler)];
    }

    method IncProductViews()
      modifies this
      ensures Snap() == Record(old(Snap()), ProductView)
      ensures trace == old(trace) + [ProductView]
    {
      productViewsTotal := productViewsTotal + 1;
      trace := trace + [ProductView];
    }

    method IncOrders(status: string)
      modifies this
      ensures Snap() == Record(old(Snap()), Order(status))
      ensures trace == old(trace) + [Order(status)]
    {
      ordersTotal := Bump(ordersTotal, status);
      trace := trace + [Order(status)];
    }

    method ObserveOrderValue()
      modifies this
      ensures Snap() == Record(old(Snap()), OrderValue)
      ensures trace == old(trace) + [OrderValue]
    {
      orderValue := orderValue + 1;
      trace := trace + [OrderValue];
    }

    method IncCurrencyConversions(from: string, to: string)
      modifies this
      ensures Snap() == Record(old(Snap()), CurrencyConversion(from, to))
      ensures trace == old(trace) + [CurrencyConversion(from, to)]
    {
      currencyConversionsTotal := Bump(currencyConversionsTotal, (from, to));
      trace := trace + [CurrencyConversion(from, to)];
    }

    method IncRecommendationsServed()
      modifies this
      ensures Snap() == Record(old(Snap()), RecommendationsServed)
      ensures trace == old(trace) + [RecommendationsServed]
    {
      recommendationsServedTotal := recommendationsServedTotal + 1;
      trace := trace + [RecommendationsServed];
    }

    method IncActiveSessions()
      modifies this
      ensures Snap() == Record(old(Snap()), SessionStarted)
      ensures trace == old(trace) + [SessionStarted]
    {
      activeSessionsTotal := activeSessionsTotal + 1;
      trace := trace + [SessionStarted];
    }

    method DecActiveSessions()
      modifies this
      ensures Snap() == Record(old(Snap()), SessionEnded)
      ensures trace == old(trace) + [SessionEnded]
    {
      activeSessionsTotal := activeSessionsTotal - 1;
      trace := trace + [SessionEnded];
    }
  }
}
