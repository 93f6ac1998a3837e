/**
 * The `Naivic\OswServer` gateway: its configuration tables, the worker
 * context built at worker start, the gRPC/HTTP dispatch of each request,
 * and the gRPC response writer (`send`) and streaming writer (`push`).
 *
 * The middleware chain's `handle`, message serialization and the worker
 * callbacks are library or user code; they enter as parameters. The port
 * `getClientInfo` reports arrives as the request's `serverPort` field.
 */
module Gateway {
  import opened Basics
  import opened Framing
  import opened Decimal
  import opened Uri
  import opened Protocol
  import opened Handles

  // ---------------------------------------------------------------- values

  datatype SettingValue = IntSetting(i: int) | BoolSetting(b: bool) | TextSetting(s: string)

  /** The settings every gateway starts with: HTTP/2 on, coroutines on. */
  const DefaultSettings: map<string, SettingValue> :=
    map["open_http2_protocol" := IntSetting(1), "enable_coroutine" := BoolSetting(true)]

  /** A value stored in the worker context. A callback's result is opaque to the gateway. */
  datatype CtxValue = WorkerIdValue(id: int) | GatewayRef | ServerRef | UserValue(token: nat)

  type WorkerContext = map<string, CtxValue>

  /** A user closure registered with `withWorkerContext`. */
  datatype Callback = Callback(id: nat)

  /** A registered `ServiceContainer`. */
  datatype Service = Service(className: string)

  /** A link of the `StackHandler` chain; the chain starts with the `ServiceHandler`. */
  datatype Middleware = ServiceHandler | UserMiddleware(id: nat)

  /** A protobuf message object; how it serializes is library code. */
  datatype ProtoMessage = ProtoMessage(token: nat)

  /**
   * The per-request `Context`: the worker context and service table it was
   * built from, the negotiated content-type, the path, the port reported by
   * `getClientInfo` (None when it reports nothing), and the gRPC status and
   * message once set.
   */
  datatype RequestContext = RequestContext(
    worker: WorkerContext,
    services: map<string, Service>,
    contentType: string,
    path: string,
    serverPort: Option<int>,
    status: Option<int>,
    message: Option<string>)

  /** What the gateway reads of an `OpenSwoole\Http\Request`. */
  datatype RawRequest = RawRequest(
    headers: map<string, string>,
    requestUri: Option<string>,
    pathInfo: string,
    content: seq<Byte>,
    serverPort: Option<int>)

  /** `new OpenSwoole\GRPC\Request($context, $service, $method, $message)`. */
  datatype GrpcRequest = GrpcRequest(ctx: RequestContext, service: string, rpc: string, message: seq<Byte>)

  /** `OpenSwoole\GRPC\Response`: a context and an unframed payload. */
  datatype GrpcResponse = GrpcResponse(ctx: RequestContext, payload: seq<Byte>)

  /** How the middleware chain's `handle` ends. */
  datatype HandlerOutcome =
    | Replied(response: GrpcResponse)
    | GrpcException(code: int, text: string)
    | OtherThrowable(text: string)

  /** How a request handler ends: it returns, or an exception leaves it. */
  datatype Outcome = Completed | Raised(error: Raised)

  // ------------------------------------------------ worker-context entries

  /** `$workerContexts`: a PHP array, so keys are unique and keep their first position. */
  type Entries = seq<(string, Callback)>

  predicate KeysUnique(es: Entries)
  {
    forall i, j :: 0 <= i < j < |es| ==> es[i].0 != es[j].0
  }

  function Lookup(es: Entries, key: string): Option<Callback>
  {
    if es == [] then None
    else if es[|es| - 1].0 == key then Some(es[|es| - 1].1)
    else Lookup(es[..|es| - 1], key)
  }

  /** The names an entry list registers. */
  function Names(es: Entries): set<string>
  {
    set i | 0 <= i < |es| :: es[i].0
  }

  lemma NamesCons(x: (string, Callback), rest: Entries)
    ensures Names([x] + rest) == {x.0} + Names(rest)
  {
    var es := [x] + rest;
    assert es[0] == x;
    forall n | n in Names(rest) ensures n in Names(es) {
      var i :| 0 <= i < |rest| && rest[i].0 == n;
      assert es[i + 1] == rest[i];
    }
    forall n | n in Names(es) ensures n in {x.0} + Names(rest) {
      var i :| 0 <= i < |es| && es[i].0 == n;
      if i > 0 { assert rest[i - 1] == es[i]; }
    }
  }

  /** `$es[$key] = $cb`: replaces the value in place, or appends a new key. */
  function Put(es: Entries, key: string, cb: Callback): (r: Entries)
    ensures Names(r) == Names(es) + {key}
  {
    if es == [] then NamesCons((key, cb), []); [(key, cb)]
    else if es[0].0 == key then NamesCons((key, cb), es[1..]); NamesCons(es[0], es[1..]); [(key, cb)] + es[1..]
    else
      var rest := Put(es[1..], key, cb);
      NamesCons(es[0], es[1..]);
      NamesCons(es[0], rest);
      assert es == [es[0]] + es[1..];
      [es[0]] + rest
  }

  /** A list with unique keys is a head whose name the rest does not use, and a rest with unique keys. */
  lemma UniqueCons(x: (string, Callback), rest: Entries)
    ensures KeysUnique([x] + rest) <==> KeysUnique(rest) && x.0 !in Names(rest)
  {
    var es := [x] + rest;
    assert es[0] == x;
    if KeysUnique(es) {
      forall i, j | 0 <= i < j < |rest| ensures rest[i].0 != rest[j].0 {
        assert es[i + 1] == rest[i] && es[j + 1] == rest[j];
      }
      forall k | 0 <= k < |rest| ensures rest[k].0 != x.0 {
        assert es[k + 1] == rest[k];
      }
    }
    if KeysUnique(rest) && x.0 !in Names(rest) {
      forall i, j | 0 <= i < j < |es| ensures es[i].0 != es[j].0 {
        assert es[j] == rest[j - 1] && rest[j - 1].0 in Names(rest);
        if i > 0 { assert es[i] == rest[i - 1]; }
      }
    }
  }

  /** `Put` keeps every name at its position and appends only a new name. */
  lemma {:induction false} PutKeepsPositions(es: Entries, key: string, cb: Callback)
    ensures |Put(es, key, cb)| == if key in Names(es) then |es| else |es| + 1
    ensures forall i :: 0 <= i < |es| ==> Put(es, key, cb)[i].0 == es[i].0
    decreases |es|
  {
    if es != [] {
      NamesCons(es[0], es[1..]);
      assert es == [es[0]] + es[1..];
      if es[0].0 != key {
        PutKeepsPositions(es[1..], key, cb);
        var r := Put(es, key, cb);
        forall i | 0 <= i < |es| ensures r[i].0 == es[i].0 {
          if i > 0 { assert r[i] == Put(es[1..], key, cb)[i - 1]; }
        }
      }
    }
  }

  /** Assigning into a PHP array never duplicates a key. */
  lemma {:induction false} PutUnique(es: Entries, key: string, cb: Callback)
    requires KeysUnique(es)
    ensures KeysUnique(Put(es, key, cb))
    decreases |es|
  {
    if es != [] {
      assert es == [es[0]] + es[1..];
      UniqueCons(es[0], es[1..]);
      if es[0].0 == key {
        UniqueCons((key, cb), es[1..]);
      } else {
        PutUnique(es[1..], key, cb);
        UniqueCons(es[0], Put(es[1..], key, cb));
      }
    }
  }

  /** After `Put`, the key maps to the new callback and every other key is as before. */
  lemma {:induction false} PutLookup(es: Entries, key: string, cb: Callback, other: string)
    requires KeysUnique(es)
    ensures Lookup(Put(es, key, cb), other) == if other == key then Some(cb) else Lookup(es, other)
    decreases |es|
  {
    if es == [] {
    } else if es[0].0 == key {
      PutUnique(es, key, cb);
      LookupHeadOrRest(es, other);
      LookupHeadOrRest(Put(es, key, cb), other);
    } else {
      PutLookup(es[1..], key, cb, other);
      PutUnique(es, key, cb);
      LookupHeadOrRest(es, other);
      LookupHeadOrRest(Put(es, key, cb), other);
    }
  }

  /** In a list with unique keys, a lookup is decided by the head or by the rest. */
  lemma {:induction false} LookupHeadOrRest(es: Entries, key: string)
    requires |es| >= 1 && KeysUnique(es)
    ensures Lookup(es, key) == if es[0].0 == key then Some(es[0].1) else Lookup(es[1..], key)
    decreases |es|
  {
    if |es| > 1 {
      var init := es[..|es| - 1];
      assert init[1..] == es[1..][..|es[1..]| - 1];
      if es[|es| - 1].0 != key {
        LookupHeadOrRest(init, key);
      }
    }
  }

  // ------------------------------------------------- the worker-context fold

  const WorkerIdKey: string := "WORKER_ID"
  const ServerClassKey: string := "OpenSwoole\\Server"

  /** The context `workerStart` begins with; `className` is `static::class`. */
  function Seed(workerId: int, className: string): (ctx: WorkerContext)
    ensures ServerClassKey in ctx && ctx[ServerClassKey] == ServerRef
    ensures className in ctx && (className != ServerClassKey ==> ctx[className] == GatewayRef)
    ensures WorkerIdKey in ctx
    ensures WorkerIdKey != className && WorkerIdKey != ServerClassKey ==> ctx[WorkerIdKey] == WorkerIdValue(workerId)
  {
    map[WorkerIdKey := WorkerIdValue(workerId)][className := GatewayRef][ServerClassKey := ServerRef]
  }

  /**
   * `withValue(key, $callback->call($this))` for every entry, in order. The
   * callback runs on the gateway, so it sees the context folded so far.
   */
  function Fold(ctx: WorkerContext, es: Entries, call: (Callback, WorkerContext) -> CtxValue): (r: WorkerContext)
    ensures r.Keys == ctx.Keys + Names(es)
    decreases |es|
  {
    if es == [] then ctx
    else
      var init := es[..|es| - 1];
      assert Names(es) == Names(init) + {es[|es| - 1].0};
      var before := Fold(ctx, init, call);
      before[es[|es| - 1].0 := call(es[|es| - 1].1, before)]
  }

  /** With unique names, the i-th name ends bound to its callback's result on the context built by the entries before it. */
  lemma {:induction false} FoldBindsEntry(ctx: WorkerContext, es: Entries, call: (Callback, WorkerContext) -> CtxValue, i: nat)
    requires KeysUnique(es) && i < |es|
    ensures es[i].0 in Fold(ctx, es, call)
    ensures Fold(ctx, es, call)[es[i].0] == call(es[i].1, Fold(ctx, es[..i], call))
    decreases |es|
  {
    var init := es[..|es| - 1];
    if i == |es| - 1 {
      assert es[..i] == init;
    } else {
      assert es[|es| - 1].0 != es[i].0;
      assert init[..i] == es[..i] && init[i] == es[i];
      FoldBindsEntry(ctx, init, call, i);
    }
  }

  /** A seed key that no entry names keeps its seed value. */
  lemma {:induction false} FoldKeepsSeed(ctx: WorkerContext, es: Entries, call: (Callback, WorkerContext) -> CtxValue, key: string)
    requires key in ctx && Lookup(es, key).None?
    ensures key in Fold(ctx, es, call) && Fold(ctx, es, call)[key] == ctx[key]
    decreases |es|
  {
    if es != [] {
      FoldKeepsSeed(ctx, es[..|es| - 1], call, key);
    }
  }

  // ------------------------------------------------------- gRPC dispatching

  /** The context with status UNKNOWN and an empty message, as set before dispatch. */
  function Pending(ctx: RequestContext): (p: RequestContext)
    ensures p.status == Some(StatusUnknown) && p.message == Some("")
    ensures p.contentType == ctx.contentType && p.services == ctx.services && p.worker == ctx.worker
    ensures p.path == ctx.path && p.serverPort == ctx.serverPort
  {
    ctx.(status := Some(StatusUnknown), message := Some(""))
  }

  /** The request handed to the chain, or None when the URI has no method part. */
  function HandlerRequest(ctx: RequestContext, uri: Option<string>, content: seq<Byte>): (q: Option<GrpcRequest>)
    ensures q.None? <==> SplitUri(uri).None?
    ensures q.Some? ==> q.value.ctx == Pending(ctx) && q.value.message == RequestMessage(content)
    ensures q.Some? ==> (q.value.service, q.value.rpc) == SplitUri(uri).value
  {
    match SplitUri(uri)
    case None => None
    case Some((service, rpc)) => Some(GrpcRequest(Pending(ctx), service, rpc, RequestMessage(content)))
  }

  /** What `processRequestGrpc` does once its context is set: send a response, or let an error out. */
  datatype GrpcStep = Respond(response: GrpcResponse) | Escape(error: Raised)

  function GrpcDispatch(
    ctx: RequestContext, uri: Option<string>, content: seq<Byte>,
    chain: seq<Middleware>, invoke: (seq<Middleware>, GrpcRequest) -> HandlerOutcome): (step: GrpcStep)
    ensures HandlerRequest(ctx, uri, content).None? ==> step.Escape? && step.error.UncaughtError?
    ensures HandlerRequest(ctx, uri, content).Some? ==>
      var outcome := invoke(chain, HandlerRequest(ctx, uri, content).value);
      && (outcome.Replied? ==> step == Respond(outcome.response))
      && (outcome.GrpcException? ==>
            && step.Respond? && step.response.payload == []
            && step.response.ctx == Pending(ctx).(status := Some(outcome.code), message := Some(outcome.text)))
      && (outcome.OtherThrowable? ==> step == Escape(UncaughtError(outcome.text)))
  {
    match HandlerRequest(ctx, uri, content)
    case None => Escape(UncaughtError("malformed request uri"))
    case Some(request) =>
      match invoke(chain, request)
      case Replied(response) => Respond(response)
      case GrpcException(code, text) =>
        Respond(GrpcResponse(request.ctx.(status := Some(code), message := Some(text)), []))
      case OtherThrowable(text) => Escape(UncaughtError(text))
  }

  /** A framed payload sent to `/S/M` reaches the chain as service `/S`, method `M` and that payload. */
  lemma HandlerSeesPayload(ctx: RequestContext, service: string, rpc: string, payload: seq<Byte>)
    requires '/' !in service && '/' !in rpc
    ensures HandlerRequest(ctx, Some("/" + service + "/" + rpc), Frame(payload))
         == Some(GrpcRequest(Pending(ctx), "/" + service, rpc, payload))
  {
    SplitServiceMethod(service, rpc);
    StripFrame(payload);
  }

  // -------------------------------------------------------------- send

  const TrailerHeaderValue: string := "grpc-status, grpc-message"
  const GrpcStatusName: string := "grpc-status"
  const GrpcMessageName: string := "grpc-message"

  /** `(string) $value` for the status: the code's decimal text, "" when it was never set. */
  function StatusText(status: Option<int>): (text: string)
    ensures status.Some? ==> ParseInt(text) == Some(status.value)
    ensures status.None? ==> text == ""
  {
    if status.Some? then IntToStringRoundTrip(status.value); IntToString(status.value) else ""
  }

  /** `(string) $value` for the message: the text itself, "" when it was never set. */
  function MessageText(message: Option<string>): (text: string)
    ensures message.Some? ==> text == message.value
    ensures message.None? ==> text == ""
  {
    if message.Some? then message.value else ""
  }

  /** The headers `send` writes, in order: written onto any header map they set exactly these two. */
  function ResponseHeaders(ctx: RequestContext): (hs: seq<(string, string)>)
    ensures forall m :: Written(m, hs) == m[ContentTypeHeader := ctx.contentType]["trailer" := TrailerHeaderValue]
  {
    var hs := [(ContentTypeHeader, ctx.contentType), ("trailer", TrailerHeaderValue)];
    WrittenTwo(hs);
    hs
  }

  /** The trailers `send` writes, in order: written onto any trailer map they set exactly these two. */
  function ResponseTrailers(ctx: RequestContext): (ts: seq<(string, string)>)
    ensures forall m :: Written(m, ts) == m[GrpcStatusName := StatusText(ctx.status)][GrpcMessageName := MessageText(ctx.message)]
  {
    var ts := [(GrpcStatusName, StatusText(ctx.status)), (GrpcMessageName, MessageText(ctx.message))];
    WrittenTwo(ts);
    ts
  }

  /** A map after writing the given name/value pairs in order. */
  function Written(m: map<string, string>, pairs: seq<(string, string)>): map<string, string>
  {
    if pairs == [] then m else Written(m, pairs[..|pairs| - 1])[pairs[|pairs| - 1].0 := pairs[|pairs| - 1].1]
  }

  /** The effect of `send(response)` on the raw response, relative to its state before. */
  twostate predicate Sent(raw: RawResponse, response: GrpcResponse)
    reads raw
  {
    if old(raw.ended) then unchanged(raw)
    else
      && raw.headers == old(raw.headers)[ContentTypeHeader := response.ctx.contentType]["trailer" := TrailerHeaderValue]
      && raw.trailers == old(raw.trailers)[GrpcStatusName := StatusText(response.ctx.status)]
                                          [GrpcMessageName := MessageText(response.ctx.message)]
      && raw.body == old(raw.body) + Frame(response.payload)
      && raw.ended
      && raw.status == old(raw.status) && raw.reason == old(raw.reason) && raw.connected == old(raw.connected)
  }

  /** The effect of a gRPC step: a response is sent, or nothing is written and the error leaves. */
  twostate predicate StepTaken(raw: RawResponse, step: GrpcStep, outcome: Outcome)
    reads raw
  {
    match step
    case Respond(response) => outcome == Completed && Sent(raw, response)
    case Escape(error) => outcome == Raised(error) && unchanged(raw)
  }

  /** A fresh response after a failed call: only the two headers, only the two trailers, five zero bytes. */
  lemma FailedCallOnFreshResponse(ctx: RequestContext, code: int, text: string)
    ensures var response := GrpcResponse(Pending(ctx).(status := Some(code), message := Some(text)), []);
      && Written(map[], ResponseHeaders(response.ctx)) == map[ContentTypeHeader := ctx.contentType, "trailer" := TrailerHeaderValue]
      && Written(map[], ResponseTrailers(response.ctx)) == map[GrpcStatusName := IntToString(code), GrpcMessageName := text]
      && ParseInt(Written(map[], ResponseTrailers(response.ctx))[GrpcStatusName]) == Some(code)
      && Frame(response.payload) == [0, 0, 0, 0, 0]
  {
    var response := GrpcResponse(Pending(ctx).(status := Some(code), message := Some(text)), []);
    EmptyFrame();
  }

  lemma WrittenTwo(pairs: seq<(string, string)>)
    requires |pairs| == 2
    ensures forall m :: Written(m, pairs) == m[pairs[0].0 := pairs[0].1][pairs[1].0 := pairs[1].1]
  {
    forall m {
      WrittenPair(m, pairs);
    }
  }

  lemma WrittenPair(m: map<string, string>, pairs: seq<(string, string)>)
    requires |pairs| == 2
    ensures Written(m, pairs) == m[pairs[0].0 := pairs[0].1][pairs[1].0 := pairs[1].1]
  {
    var first := pairs[..1];
    assert first[..0] == [] && first[0] == pairs[0];
    assert Written(m, first) == m[pairs[0].0 := pairs[0].1];
    assert pairs[..|pairs| - 1] == first;
  }

  // -------------------------------------------------------------- the gateway

  class OswServer {
    /** `static::class`: the concrete server class, used as a worker-context key. */
    const className: string
    /** The OpenSwoole server this gateway created. */
    const server: SocketServer
    var settings: map<string, SettingValue>
    var services: map<string, Service>
    var workerContexts: Entries
    var chain: seq<Middleware>
    var workerContext: WorkerContext

    ghost predicate Valid()
      reads this
    {
      KeysUnique(workerContexts) && |chain| >= 1 && chain[0] == ServiceHandler
    }

    constructor (className: string, server: SocketServer)
      ensures Valid()
      ensures this.className == className && this.server == server
      ensures settings == DefaultSettings && services == map[] && workerContexts == []
      ensures chain == [ServiceHandler] && workerContext == map[]
    {
      this.className := className;
      this.server := server;
      settings := DefaultSettings;
      services := map[];
      workerContexts := [];
      chain := [ServiceHandler];
      workerContext := map[];
    }

    /** `withWorkerContext($name, $callback)`. */
    method WithWorkerContext(name: string, callback: Callback)
      requires Valid()
      modifies this`workerContexts
      ensures Valid()
      ensures workerContexts == Put(old(workerContexts), name, callback)
      ensures Lookup(workerContexts, name) == Some(callback)
      ensures forall other :: other != name ==> Lookup(workerContexts, other) == Lookup(old(workerContexts), other)
    {
      forall other {
        PutLookup(workerContexts, name, callback, other);
      }
      PutUnique(workerContexts, name, callback);
      workerContexts := Put(workerContexts, name, callback);
    }

    /** `addMiddleware($m)`: the chain grows by one link; its first link stays the service handler. */
    method AddMiddleware(m: Middleware)
      requires Valid()
      modifies this`chain
      ensures Valid()
      ensures chain == old(chain) + [m]
    {
      chain := chain + [m];
    }

    /** `set($settings)`: `array_merge` of string-keyed arrays, the new values winning. */
    method Set(more: map<string, SettingValue>)
      modifies this`settings
      ensures settings.Keys == old(settings).Keys + more.Keys
      ensures forall k :: k in more ==> settings[k] == more[k]
      ensures forall k :: k in old(settings) && k !in more ==> settings[k] == old(settings)[k]
    {
      settings := settings + more;
    }

    /** `register`: the container is stored under the name the library gives it. */
    method Register(name: string, service: Service)
      modifies this`services
      ensures services == old(services)[name := service]
    {
      services := services[name := service];
    }

    /**
     * The `workerStart` closure: seed the context, then fold in every
     * registered callback in order, each run on the context built so far.
     */
    method WorkerStart(workerId: int, call: (Callback, WorkerContext) -> CtxValue)
      requires Valid()
      modifies this`workerContext
      ensures workerContext == Fold(Seed(workerId, className), workerContexts, call)
      ensures workerContext.Keys == Seed(workerId, className).Keys + Names(workerContexts)
      ensures forall i :: 0 <= i < |workerContexts| ==>
        && workerContexts[i].0 in workerContext
        && workerContext[workerContexts[i].0] == call(workerContexts[i].1, Fold(Seed(workerId, className), workerContexts[..i], call))
      ensures ServerClassKey !in Names(workerContexts) ==>
        ServerClassKey in workerContext && workerContext[ServerClassKey] == ServerRef
    {
      var ctx := Seed(workerId, className);
      for i := 0 to |workerContexts|
        invariant ctx == Fold(Seed(workerId, className), workerContexts[..i], call)
      {
        assert workerContexts[..i + 1][..i] == workerContexts[..i];
        ctx := ctx[workerContexts[i].0 := call(workerContexts[i].1, ctx)];
      }
      assert workerContexts[..|workerContexts|] == workerContexts;
      workerContext := ctx;
      forall i | 0 <= i < |workerContexts|
        ensures workerContexts[i].0 in workerContext
        ensures workerContext[workerContexts[i].0] == call(workerContexts[i].1, Fold(Seed(workerId, className), workerContexts[..i], call))
      {
        FoldBindsEntry(Seed(workerId, className), workerContexts, call, i);
      }
      if ServerClassKey !in Names(workerContexts) {
        LookupAbsent(workerContexts, ServerClassKey);
        FoldKeepsSeed(Seed(workerId, className), workerContexts, call, ServerClassKey);
      }
    }

    /** The context `processRequest` builds for a request. */
    function NewRequestContext(req: RawRequest): (ctx: RequestContext)
      reads this
      ensures ctx.worker == workerContext && ctx.services == services
      ensures ctx.contentType == ContentTypeOf(req.headers) && ctx.path == req.pathInfo
      ensures ctx.serverPort == req.serverPort && ctx.status.None? && ctx.message.None?
    {
      RequestContext(workerContext, services, ContentTypeOf(req.headers), req.pathInfo, req.serverPort, None, None)
    }

    /** `processRequest` with this class's own HTTP and gRPC handlers. */
    method ProcessRequest(req: RawRequest, raw: RawResponse, invoke: (seq<Middleware>, GrpcRequest) -> HandlerOutcome)
      returns (outcome: Outcome)
      modifies raw
      ensures Classify(req.headers) == MissingTe ==>
        outcome == Raised(InvokeException(MissingTeText, None)) && unchanged(raw)
      ensures Classify(req.headers) == HttpRoute ==> outcome == Completed && NotFound(raw)
      ensures Classify(req.headers) == GrpcRoute ==>
        StepTaken(raw, GrpcDispatch(NewRequestContext(req), req.requestUri, req.content, chain, invoke), outcome)
    {
      var ctx := NewRequestContext(req);
      match Classify(req.headers)
      case MissingTe =>
        outcome := Raised(InvokeException(MissingTeText, None));
      case GrpcRoute =>
        outcome := ProcessRequestGrpc(ctx, req, raw, invoke);
      case HttpRoute =>
        ProcessRequestHttp(ctx, raw);
        outcome := Completed;
    }

    /** The default HTTP handler: 404 and end. */
    method ProcessRequestHttp(ctx: RequestContext, raw: RawResponse)
      modifies raw
      ensures NotFound(raw)
    {
      raw.Status(404, "Not Found");
      raw.End([]);
    }

    /** `processRequestGrpc`: set status UNKNOWN, dispatch, and send what comes back. */
    method ProcessRequestGrpc(ctx: RequestContext, req: RawRequest, raw: RawResponse,
                              invoke: (seq<Middleware>, GrpcRequest) -> HandlerOutcome)
      returns (outcome: Outcome)
      modifies raw
      ensures StepTaken(raw, GrpcDispatch(ctx, req.requestUri, req.content, chain, invoke), outcome)
    {
      match GrpcDispatch(ctx, req.requestUri, req.content, chain, invoke)
      case Escape(error) =>
        outcome := Raised(error);
      case Respond(response) =>
        Send(response, raw);
        outcome := Completed;
    }

    /** `send`: the headers, then the trailers, then `end` with the framed payload. */
    method Send(response: GrpcResponse, raw: RawResponse)
      modifies raw
      ensures Sent(raw, response)
    {
      var headers := ResponseHeaders(response.ctx);
      var trailers := ResponseTrailers(response.ctx);
      var payload := Frame(response.payload);
      for i := 0 to |headers|
        invariant old(raw.ended) ==> unchanged(raw)
        invariant !old(raw.ended) ==> raw.headers == Written(old(raw.headers), headers[..i])
        invariant raw.trailers == old(raw.trailers) && raw.body == old(raw.body) && raw.ended == old(raw.ended)
        invariant raw.status == old(raw.status) && raw.reason == old(raw.reason) && raw.connected == old(raw.connected)
      {
        assert headers[..i + 1][..i] == headers[..i];
        raw.Header(headers[i].0, headers[i].1);
      }
      for i := 0 to |trailers|
        invariant old(raw.ended) ==> unchanged(raw)
        invariant !old(raw.ended) ==> raw.headers == Written(old(raw.headers), headers)
        invariant !old(raw.ended) ==> raw.trailers == Written(old(raw.trailers), trailers[..i])
        invariant raw.body == old(raw.body) && raw.ended == old(raw.ended)
        invariant raw.status == old(raw.status) && raw.reason == old(raw.reason) && raw.connected == old(raw.connected)
      {
        assert trailers[..i + 1][..i] == trailers[..i];
        raw.Trailer(trailers[i].0, trailers[i].1);
      }
      assert headers[..|headers|] == headers && trailers[..|trailers|] == trailers;
      raw.End(payload);
    }

    /** `push`: serialize by content-type, frame, and write; a refused write is an exception. */
    method Push(ctx: RequestContext, message: ProtoMessage, raw: RawResponse,
                serialize: (ProtoMessage, Encoding) -> Result<seq<Byte>, string>)
      returns (r: Result<bool, Raised>)
      modifies raw
      ensures var encoded := serialize(message, EncodingFor(ctx.contentType));
        && (encoded.Failure? ==> r == Failure(InvokeException(encoded.error, Some(StatusInternal))) && unchanged(raw))
        && (encoded.Success? && !old(raw.ended) && old(raw.connected) ==>
              r == Success(true) && raw.body == old(raw.body) + Frame(encoded.value))
        && (encoded.Success? && (old(raw.ended) || !old(raw.connected)) ==>
              r == Failure(TransportException("Client side is disconnected")) && raw.body == old(raw.body))
      ensures raw.ended == old(raw.ended) && raw.headers == old(raw.headers) && raw.trailers == old(raw.trailers)
      ensures raw.status == old(raw.status) && raw.reason == old(raw.reason) && raw.connected == old(raw.connected)
    {
      var encoded := serialize(message, EncodingFor(ctx.contentType));
      if encoded.Failure? {
        return Failure(InvokeException(encoded.error, Some(StatusInternal)));
      }
      var ok := raw.Write(Frame(encoded.value));
      if !ok {
        return Failure(TransportException("Client side is disconnected"));
      }
      r := Success(ok);
    }
  }

  /** The default HTTP answer: status 404 and the response ended, nothing else written. */
  twostate predicate NotFound(raw: RawResponse)
    reads raw
  {
    if old(raw.ended) then unchanged(raw)
    else
      && raw.status == 404 && raw.reason == "Not Found" && raw.ended
      && raw.headers == old(raw.headers) && raw.trailers == old(raw.trailers) && raw.body == old(raw.body)
      && raw.connected == old(raw.connected)
  }

  lemma {:induction false} LookupAbsent(es: Entries, key: string)
    requires key !in Names(es)
    ensures Lookup(es, key).None?
    decreases |es|
  {
    if es != [] {
      var init := es[..|es| - 1];
      assert es[|es| - 1].0 in Names(es);
      assert Names(init) <= Names(es);
      LookupAbsent(init, key);
    }
  }
}
