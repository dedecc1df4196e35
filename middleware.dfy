/**
 * The three request interceptors of src/frontend/middleware.go and the chain
 * built from them as src/frontend/middleware_test.go:217-222 builds it:
 * metricsHandler outermost, then ensureSessionID, then logHandler, then the
 * page handler.
 *
 * A handler is seen from outside as the ResponseWriter calls it makes; the
 * page handler at the bottom is a parameter `terminal` giving those calls
 * for the request it receives. `Serve` gives the meaning of any stack of
 * layers as a value; `Handle` runs the fixed chain on a connection and a
 * registry and is proved to do what `Serve` says.
 */
module Middleware {
  import opened Results
  import opened Text
  import opened Http
  import opened Recorder
  import opened Routes
  import opened Metrics

  /** A logrus entry: the structured fields it will print with every line. */
  datatype Logger = Logger(fields: map<string, string>)

  /** The context keys the layers use; any other key some caller set is `OtherKey`. */
  datatype CtxKey = LogKey | RequestIdKey | SessionKey | OtherKey(name: string)

  /** A context value: a string, or the request logger. */
  datatype CtxValue = Str(s: string) | Log(logger: Logger)

  /** context.Context as the layers use it: a lookup from key to value. */
  type Context = map<CtxKey, CtxValue>

  /** The result of r.Cookie(name): no such cookie, the cookie, or another error. */
  datatype CookieRead = NoCookie | Found(value: string) | ReadError(reason: string)

  /** What a layer sees of an *http.Request. */
  datatype Request = Request(verb: string, path: string, cookie: CookieRead, ctx: Context)

  /**
   * The inputs the layers take from outside the request: the value of the
   * ENABLE_SINGLE_SHARED_SESSION variable, the ids uuid.NewRandom returns for
   * the session and for the request, and the cookie name and lifetime, which
   * the frontend's main file declares.
   */
  datatype Env = Env(sharedSessions: string, sessionUuid: string, requestUuid: string,
                     cookieName: string, cookieMaxAge: int)

  /** An http.Cookie as ensureSessionID sets it. */
  datatype Cookie = Cookie(name: string, value: string, maxAge: int)

  /** The session id every visitor shares when ENABLE_SINGLE_SHARED_SESSION is "true". */
  const SharedSessionId := "12345678-1234-1234-1234-123456789123"

  // ---------------------------------------------------------------------
  // ensureSessionID (src/frontend/middleware.go:138-171)

  /** The decision ensureSessionID takes on the cookie it reads. */
  datatype Assignment = Rejected | Assigned(id: string, isNew: bool)

  function AssignSession(cookie: CookieRead, env: Env): (a: Assignment)
    // only an unexpected cookie error stops the request
    ensures a.Rejected? <==> cookie.ReadError?
    // an existing cookie is reused verbatim and is not new
    ensures cookie.Found? ==> a == Assigned(cookie.value, false)
    // a missing cookie yields a new session, the shared id exactly in shared mode
    ensures cookie.NoCookie? ==> a.Assigned? && a.isNew
    ensures cookie.NoCookie? && env.sharedSessions == "true" ==> a.id == SharedSessionId
    ensures cookie.NoCookie? && env.sharedSessions != "true" ==> a.id == env.sessionUuid
  {
    match cookie
    case NoCookie =>
      Assigned(if env.sharedSessions == "true" then SharedSessionId else env.sessionUuid, true)
    case ReadError(_) => Rejected
    case Found(v) => Assigned(v, false)
  }

  // ---------------------------------------------------------------------
  // logHandler (src/frontend/middleware.go:63-89)

  /** The session id a context carries, if it carries one as a string. */
  function SessionOf(ctx: Context): Option<string> {
    if SessionKey in ctx && ctx[SessionKey].Str? then Some(ctx[SessionKey].s) else None
  }

  /** The request logger: path, method and request id, plus the session when the
      incoming context already holds one. */
  function RequestLogger(r: Request, requestId: string): (l: Logger)
    ensures l.fields.Keys >= {"http.req.path", "http.req.method", "http.req.id"}
    ensures l.fields["http.req.path"] == r.path && l.fields["http.req.method"] == r.verb
    ensures l.fields["http.req.id"] == requestId
    ensures "session" in l.fields <==> SessionOf(r.ctx).Some?
    ensures "session" in l.fields ==> l.fields["session"] == SessionOf(r.ctx).value
  {
    var base := map["http.req.path" := r.path, "http.req.method" := r.verb, "http.req.id" := requestId];
    match SessionOf(r.ctx)
    case Some(v) => Logger(base["session" := v])
    case None => Logger(base)
  }

  /** The context logHandler passes on: the request id and the logger added, every
      other entry kept. */
  function LogContext(r: Request, requestId: string): (c: Context)
    ensures c.Keys == r.ctx.Keys + {RequestIdKey, LogKey}
    ensures c[RequestIdKey] == Str(requestId) && c[LogKey] == Log(RequestLogger(r, requestId))
    ensures forall k :: k in r.ctx && k != RequestIdKey && k != LogKey ==> c[k] == r.ctx[k]
  {
    r.ctx[RequestIdKey := Str(requestId)][LogKey := Log(RequestLogger(r, requestId))]
  }

  // ---------------------------------------------------------------------
  // The chain

  datatype Layer = MetricsLayer | SessionLayer | LogLayer

  /** The order middleware_test.go:217-222 wraps the page handler in, outermost first. */
  const Chain := [MetricsLayer, SessionLayer, LogLayer]

  /**
   * What serving one request through a stack of layers produces: the
   * ResponseWriter calls that reach the connection, the cookies set on it,
   * the metric events recorded, and the request the page handler received
   * (None when some layer returned without calling on).
   */
  datatype Outcome = Outcome(writes: seq<Action>, cookies: seq<Cookie>, events: seq<Event>,
                             reached: Option<Request>)

  /** The status label metricsHandler records for what the layers below it wrote: the
      recorder's final status, read back exactly by Atoi; "0" exactly when that status is 0. */
  function StatusLabel(writes: seq<Action>): (statusText: string)
    ensures IsNumeral(statusText) && Atoi(statusText) == StatusAfter(0, writes)
    ensures statusText == "0" <==> StatusAfter(0, writes) == 0
  {
    AtoiOfItoa(StatusAfter(0, writes));
    Itoa(StatusAfter(0, writes))
  }

  /** The two events metricsHandler records for `r` under the status label `status`. */
  function RequestEvents(r: Request, status: string): seq<Event> {
    var route := Classify(r.path);
    [HttpRequest(r.verb, route.path, status), HandlerResponseTime(route.handler, r.verb, status)]
  }

  /** The two events metricsHandler records once the layers below it return. */
  function MetricsEvents(r: Request, writes: seq<Action>): seq<Event> {
    RequestEvents(r, StatusLabel(writes))
  }

  /** Serving `r` through `layers` (outermost first) down to `terminal`. */
  function Serve(layers: seq<Layer>, terminal: Request -> seq<Action>, r: Request, env: Env): Outcome
    decreases |layers|
  {
    if layers == [] then Outcome(terminal(r), [], [], Some(r))
    else
      match layers[0]
      case MetricsLayer =>
        var inner := Serve(layers[1..], terminal, r, env);
        inner.(events := inner.events + MetricsEvents(r, inner.writes))
      case SessionLayer =>
        (match AssignSession(r.cookie, env)
         case Rejected => Outcome([], [], [], None)
         case Assigned(id, isNew) =>
           var inner := Serve(layers[1..], terminal, r.(ctx := r.ctx[SessionKey := Str(id)]), env);
           if isNew then
             inner.(cookies := [Cookie(env.cookieName, id, env.cookieMaxAge)] + inner.cookies,
                    events := [SessionStarted] + inner.events)
           else inner)
      case LogLayer =>
        Serve(layers[1..], terminal, r.(ctx := LogContext(r, env.requestUuid)), env)
  }

  // ---------------------------------------------------------------------
  // Properties of the chain

  /** No layer writes on its own: the connection receives exactly the page handler's
      calls, or nothing when the request was stopped. */
  lemma {:induction false} WritesPassThrough(layers: seq<Layer>, terminal: Request -> seq<Action>, r: Request, env: Env)
    ensures var o := Serve(layers, terminal, r, env);
      o.writes == if o.reached.Some? then terminal(o.reached.value) else []
    decreases |layers|
  {
    if layers != [] {
      match layers[0]
      case MetricsLayer =>
        WritesPassThrough(layers[1..], terminal, r, env);
      case SessionLayer =>
        var a := AssignSession(r.cookie, env);
        if a.Assigned? {
          WritesPassThrough(layers[1..], terminal, r.(ctx := r.ctx[SessionKey := Str(a.id)]), env);
        }
      case LogLayer =>
        WritesPassThrough(layers[1..], terminal, r.(ctx := LogContext(r, env.requestUuid)), env);
    }
  }

  /** The layers only add their own keys: whatever else the context held reaches the
      page handler unchanged, and so do the method and path. */
  lemma {:induction false} OtherKeysPreserved(layers: seq<Layer>, terminal: Request -> seq<Action>, r: Request, env: Env, name: string)
    ensures var o := Serve(layers, terminal, r, env);
      o.reached.Some? ==>
        && o.reached.value.verb == r.verb && o.reached.value.path == r.path
        && (OtherKey(name) in o.reached.value.ctx <==> OtherKey(name) in r.ctx)
        && (OtherKey(name) in r.ctx ==> o.reached.value.ctx[OtherKey(name)] == r.ctx[OtherKey(name)])
    decreases |layers|
  {
    if layers != [] {
      match layers[0]
      case MetricsLayer =>
        OtherKeysPreserved(layers[1..], terminal, r, env, name);
      case SessionLayer =>
        var a := AssignSession(r.cookie, env);
        if a.Assigned? {
          OtherKeysPreserved(layers[1..], terminal, r.(ctx := r.ctx[SessionKey := Str(a.id)]), env, name);
        }
      case LogLayer =>
        OtherKeysPreserved(layers[1..], terminal, r.(ctx := LogContext(r, env.requestUuid)), env, name);
    }
  }

  /** The request the standard chain hands to the page handler once a session is known. */
  function ChainRequest(r: Request, id: string, env: Env): Request {
    var withSession := r.(ctx := r.ctx[SessionKey := Str(id)]);
    withSession.(ctx := LogContext(withSession, env.requestUuid))
  }

  /** Unfolds the layers below metricsHandler for a request whose session was assigned. */
  lemma SessionAssigned(terminal: Request -> seq<Action>, r: Request, env: Env)
    requires AssignSession(r.cookie, env).Assigned?
    ensures var a := AssignSession(r.cookie, env);
      var inner := ChainRequest(r, a.id, env);
      Serve(Chain[1..], terminal, r, env) ==
        Outcome(terminal(inner),
                if a.isNew then [Cookie(env.cookieName, a.id, env.cookieMaxAge)] else [],
                if a.isNew then [SessionStarted] else [],
                Some(inner))
  {
    var a := AssignSession(r.cookie, env);
    var withSession := r.(ctx := r.ctx[SessionKey := Str(a.id)]);
    assert Chain[1..] == [SessionLayer, LogLayer];
    assert Chain[1..][1..] == [LogLayer];
    assert Chain[1..][1..][1..] == [];
    var logged := Serve([LogLayer], terminal, withSession, env);
    assert logged == Outcome(terminal(ChainRequest(r, a.id, env)), [], [], Some(ChainRequest(r, a.id, env)));
  }

  /** Unfolds the standard chain for a request whose session was assigned. */
  lemma ChainAssigned(terminal: Request -> seq<Action>, r: Request, env: Env)
    requires AssignSession(r.cookie, env).Assigned?
    ensures var a := AssignSession(r.cookie, env);
      var inner := ChainRequest(r, a.id, env);
      var writes := terminal(inner);
      Serve(Chain, terminal, r, env) ==
        Outcome(writes,
                if a.isNew then [Cookie(env.cookieName, a.id, env.cookieMaxAge)] else [],
                (if a.isNew then [SessionStarted] else []) + MetricsEvents(r, writes),
                Some(inner))
  {
    SessionAssigned(terminal, r, env);
    MetricsOutermost(terminal, r, env);
  }

  /** A visitor without a cookie: one cookie carrying the new id, the session gauge
      raised before the request metrics, and the page handler sees the id. */
  lemma ChainNewSession(terminal: Request -> seq<Action>, r: Request, env: Env)
    requires r.cookie.NoCookie?
    ensures var id := if env.sharedSessions == "true" then SharedSessionId else env.sessionUuid;
      var o := Serve(Chain, terminal, r, env);
      && o.cookies == [Cookie(env.cookieName, id, env.cookieMaxAge)]
      && o.events == [SessionStarted] + MetricsEvents(r, o.writes)
      && o.reached.Some? && SessionOf(o.reached.value.ctx) == Some(id)
  {
    ChainAssigned(terminal, r, env);
  }

  /** A returning visitor: the cookie value becomes the session id, no cookie is set
      and the gauge is left alone. */
  lemma ChainExistingSession(terminal: Request -> seq<Action>, r: Request, env: Env)
    requires r.cookie.Found?
    ensures var o := Serve(Chain, terminal, r, env);
      && o.cookies == []
      && o.events == MetricsEvents(r, o.writes)
      && o.reached.Some? && SessionOf(o.reached.value.ctx) == Some(r.cookie.value)
  {
    ChainAssigned(terminal, r, env);
  }

  /** A cookie that cannot be read stops the request before the page handler: nothing
      is written, and the request metrics are still recorded, with status label "0". */
  lemma ChainCookieError(terminal: Request -> seq<Action>, r: Request, env: Env)
    requires r.cookie.ReadError?
    ensures var route := Classify(r.path);
      Serve(Chain, terminal, r, env) ==
        Outcome([], [], [HttpRequest(r.verb, route.path, "0"), HandlerResponseTime(route.handler, r.verb, "0")], None)
  {
    assert Chain[1..] == [SessionLayer, LogLayer];
    assert StatusAfter(0, []) == 0;
    ItoaExamples();
  }

  /** Whenever the page handler runs under the standard chain, its context holds the
      logger, the request id and the session id, and the logger is tagged with that
      session because ensureSessionID runs before logHandler. */
  lemma ChainContext(terminal: Request -> seq<Action>, r: Request, env: Env)
    ensures var o := Serve(Chain, terminal, r, env);
      o.reached.Some? <==> !r.cookie.ReadError?
    ensures var o := Serve(Chain, terminal, r, env);
      o.reached.Some? ==>
        var ctx := o.reached.value.ctx;
        && RequestIdKey in ctx && ctx[RequestIdKey] == Str(env.requestUuid)
        && SessionOf(ctx).Some?
        && LogKey in ctx && ctx[LogKey].Log?
        && ctx[LogKey].logger.fields["http.req.id"] == env.requestUuid
        && "session" in ctx[LogKey].logger.fields
        && ctx[LogKey].logger.fields["session"] == SessionOf(ctx).value
  {
    if r.cookie.ReadError? {
      ChainCookieError(terminal, r, env);
    } else {
      ChainAssigned(terminal, r, env);
    }
  }

  /** With logHandler outside ensureSessionID, the logger never sees the session:
      wrap order decides whether the field is there. */
  lemma LogOutsideSession(terminal: Request -> seq<Action>, r: Request, env: Env)
    requires SessionOf(r.ctx) == None
    ensures var o := Serve([LogLayer, SessionLayer], terminal, r, env);
      o.reached.Some? ==>
        var ctx := o.reached.value.ctx;
        LogKey in ctx && ctx[LogKey].Log? && "session" !in ctx[LogKey].logger.fields
  {
    var logged := r.(ctx := LogContext(r, env.requestUuid));
    assert [LogLayer, SessionLayer][1..] == [SessionLayer];
    assert [SessionLayer][1..] == [];
    assert LogKey in logged.ctx && logged.ctx[LogKey] == Log(RequestLogger(r, env.requestUuid));
  }

  // ---------------------------------------------------------------------
  // The chain run on a connection and a registry

  /** http.Header.Add: one more value under `key`. */
  function AddHeader(h: map<string, seq<string>>, key: string, v: string): (r: map<string, seq<string>>)
    ensures key in r && r[key] == (if key in h then h[key] else []) + [v]
    ensures forall k :: k in h && k != key ==> k in r && r[k] == h[k]
    ensures r.Keys == h.Keys + {key}
  {
    h[key := (if key in h then h[key] else []) + [v]]
  }

  /** The Set-Cookie line for a cookie with a name, a value and a Max-Age. */
  function CookieLine(c: Cookie): string {
    c.name + "=" + c.value +
      (if c.maxAge > 0 then "; Max-Age=" + Itoa(c.maxAge) else if c.maxAge < 0 then "; Max-Age=0" else "")
  }

  /** The header map after http.SetCookie for each cookie in turn. */
  function SetCookies(h: map<string, seq<string>>, cookies: seq<Cookie>): map<string, seq<string>>
    decreases |cookies|
  {
    if cookies == [] then h
    else AddHeader(SetCookies(h, cookies[..|cookies| - 1]), "Set-Cookie", CookieLine(cookies[|cookies| - 1]))
  }

  /** Setting cookies appends one Set-Cookie line per cookie, in order, and leaves every other header alone. */
  lemma {:induction false} SetCookiesLines(h: map<string, seq<string>>, cookies: seq<Cookie>)
    ensures var before := if "Set-Cookie" in h then h["Set-Cookie"] else [];
      var r := SetCookies(h, cookies);
      cookies != [] ==> "Set-Cookie" in r && r["Set-Cookie"] == before + seq(|cookies|, i requires 0 <= i < |cookies| => CookieLine(cookies[i]))
    ensures SetCookies(h, cookies).Keys == h.Keys + (if cookies == [] then {} else {"Set-Cookie"})
    ensures forall k :: k in h && k != "Set-Cookie" ==> SetCookies(h, cookies)[k] == h[k]
    decreases |cookies|
  {
    if cookies != [] {
      var front := cookies[..|cookies| - 1];
      SetCookiesLines(h, front);
      var before := if "Set-Cookie" in h then h["Set-Cookie"] else [];
      var lines := seq(|front|, i requires 0 <= i < |front| => CookieLine(front[i]));
      assert before + seq(|cookies|, i requires 0 <= i < |cookies| => CookieLine(cookies[i]))
        == before + lines + [CookieLine(cookies[|cookies| - 1])];
    }
  }

  /**
   * One request through the standard chain, on the connection `w` and the
   * process-wide registry `reg`: metricsHandler wraps `w` in a recorder and
   * serves the layers below it, then records the request under the
   * recorder's final status. Returns the request the page handler saw.
   */
  method Handle(r: Request, env: Env, terminal: Request -> seq<Action>, w: Sink, reg: Registry)
    returns (reached: Option<Request>)
    modifies w, w.header, reg
    ensures var o := Serve(Chain, terminal, r, env);
      && reached == o.reached
      && w.received == old(w.received) + o.writes
      && w.header.values == SetCookies(old(w.header.values), o.cookies)
      && reg.trace == old(reg.trace) + o.events
      && reg.Snap() == RecordAll(old(reg.Snap()), o.events)
  {
    var rr := new ResponseRecorder(w);
    ghost var snap0, trace0 := reg.Snap(), reg.trace;
    reached := EnsureSession(r, env, terminal, rr, reg);
    ghost var inner := Serve(Chain[1..], terminal, r, env);
    ghost var events := MetricsEvents(r, inner.writes);
    assert RequestEvents(r, Itoa(rr.status)) == events;
    ghost var mid := reg.trace;
    assert mid == trace0 + inner.events;
    ObserveRequest(r, rr.status, reg);
    assert reg.trace == mid + events;
    ConcatAssoc(trace0, inner.events, events);
    RecordAllConcat(snap0, inner.events, events);
    MetricsOutermost(terminal, r, env);
  }

  lemma ConcatAssoc<T>(a: seq<T>, b: seq<T>, c: seq<T>)
    ensures a + b + c == a + (b + c)
  {
  }

  /** The metrics layer adds its two events after those of the layers below it
      and changes nothing else. */
  lemma MetricsOutermost(terminal: Request -> seq<Action>, r: Request, env: Env)
    ensures var inner := Serve(Chain[1..], terminal, r, env);
      Serve(Chain, terminal, r, env) == inner.(events := inner.events + MetricsEvents(r, inner.writes))
  {
  }

  /** The deferred half of metricsHandler.ServeHTTP: the request counter and the
      handler-time histogram under the path, the handler and the final status. */
  method ObserveRequest(r: Request, status: int, reg: Registry)
    modifies reg
    ensures reg.trace == old(reg.trace) + RequestEvents(r, Itoa(status))
    ensures reg.Snap() == RecordAll(old(reg.Snap()), RequestEvents(r, Itoa(status)))
  {
    var route := Classify(r.path);
    var statusText := Itoa(status);
    ghost var snap0 := reg.Snap();
    reg.RecordHTTPRequest(r.verb, route.path, statusText);
    reg.RecordHandlerResponseTime(route.handler, r.verb, statusText);
    RecordAllAppend(snap0, [], HttpRequest(r.verb, route.path, statusText));
    RecordAllAppend(snap0, [HttpRequest(r.verb, route.path, statusText)], HandlerResponseTime(route.handler, r.verb, statusText));
    assert [HttpRequest(r.verb, route.path, statusText)] + [HandlerResponseTime(route.handler, r.verb, statusText)]
      == RequestEvents(r, statusText);
  }

  /**
   * ensureSessionID and logHandler, below a metrics recorder `rr`: the
   * cookie goes into the connection's header map, the gauge is raised for a
   * new session, and the page handler's calls go through `rr`.
   */
  method EnsureSession(r: Request, env: Env, terminal: Request -> seq<Action>, rr: ResponseRecorder, reg: Registry)
    returns (reached: Option<Request>)
    modifies rr, rr.w, rr.w.header, reg
    ensures var o := Serve(Chain[1..], terminal, r, env);
      && reached == o.reached
      && rr.status == StatusAfter(old(rr.status), o.writes)
      && rr.b == BytesAfter(old(rr.b), o.writes, rr.w.transmit)
      && rr.w.received == old(rr.w.received) + o.writes
      && rr.w.header.values == SetCookies(old(rr.w.header.values), o.cookies)
      && reg.trace == old(reg.trace) + o.events
      && reg.Snap() == RecordAll(old(reg.Snap()), o.events)
  {
    var a := AssignSession(r.cookie, env);
    if a.Rejected? {
      assert Chain[1..] == [SessionLayer, LogLayer];
      return None;
    }
    SessionAssigned(terminal, r, env);
    if a.isNew {
      var c := Cookie(env.cookieName, a.id, env.cookieMaxAge);
      var h := rr.Header();
      h.values := AddHeader(h.values, "Set-Cookie", CookieLine(c));
      reg.IncActiveSessions();
      assert [c][..0] == [] && [SessionStarted][..0] == [];
    }
    var inner := ChainRequest(r, a.id, env);
    rr.Replay(terminal(inner));
    reached := Some(inner);
  }
}
