/**
 * The example host `MyServer`: the gateway with a port guard in front of
 * each protocol, a one-page HTTP site, and the chat relay between WebSocket
 * clients and a gRPC peer.
 *
 * `MyServer extends OswServer` is modelled by composition: `MyServer` holds
 * the gateway it extends, runs the same classification in its own
 * `ProcessRequest`, and its gRPC branch hands over to the gateway's.
 */
module Host {
  import opened Basics
  import opened Framing
  import opened Decimal
  import opened Protocol
  import opened Handles
  import opened Gateway

  /** The gRPC port, also the port the peer is called on. */
  const PortGrpc: int := 9501
  /** The HTTP and WebSocket port. */
  const PortHttp: int := 8080

  const DisconnectedText: string := "message not delivered, user is currently disconnected"
  const OfflineText: string := "message not delivered, server is currently offline"
  const ClosedSuffix: string := "because connection was closed"

  /** `[success, msg]` as `sendMsgToClient` returns it. */
  datatype MessageResult = MessageResult(success: bool, detail: string)

  /** The `MessageRequest` sent to the peer. */
  datatype PeerMessage = PeerMessage(name: string, text: string)

  /** How the call to the peer ends: a `MessageResponse`, or any exception on the way. */
  datatype PeerOutcome = PeerReplied(success: bool, message: string) | PeerThrew(error: string)

  /** A WebSocket frame: the sender's connection id and `json_decode($data, true)` (None when not an object). */
  datatype WsFrame = WsFrame(fd: int, decoded: Option<map<string, string>>)

  // ------------------------------------------------------------ port guards

  /** The status the host's HTTP handler answers with. */
  function HttpStatus(port: Option<int>, path: string): (code: int)
    ensures code == 403 <==> port != Some(PortHttp)
    ensures code == 200 <==> port == Some(PortHttp) && path == "/"
    ensures code == 404 <==> port == Some(PortHttp) && path != "/"
  {
    if port != Some(PortHttp) then 403 else if path == "/" then 200 else 404
  }

  function ReasonPhrase(code: int): string
  {
    if code == 403 then "Forbidden" else if code == 200 then "OK" else "Not Found"
  }

  /** A refused request: status 403 and the response ended, nothing else written. */
  twostate predicate Forbidden(raw: RawResponse)
    reads raw
  {
    if old(raw.ended) then unchanged(raw)
    else
      && raw.status == 403 && raw.reason == "Forbidden" && raw.ended
      && raw.headers == old(raw.headers) && raw.trailers == old(raw.trailers) && raw.body == old(raw.body)
      && raw.connected == old(raw.connected)
  }

  // ---------------------------------------------------------------- relay

  /** The reply `sendMsgToClient` gives the peer after `sent` successful pushes. */
  function SendOutcome(text: string, ip: string, sent: nat): (r: MessageResult)
    ensures r.success <==> sent > 0
    ensures sent > 0 ==> r.detail == SentDetail(sent)
    ensures !r.success ==> |r.detail| >= |ClosedSuffix| && r.detail[|r.detail| - |ClosedSuffix|..] == ClosedSuffix
  {
    if sent == 0 then
      var detail := "Message '" + text + "' from peer " + ip + " was not sent to client, " + ClosedSuffix;
      assert detail[|detail| - |ClosedSuffix|..] == ClosedSuffix;
      MessageResult(false, detail)
    else
      MessageResult(true, SentDetail(sent))
  }

  const SentPrefix: string := "The message has been sent to "

  /**
   * "The message has been sent to N client connection(s)": the prefix, then
   * the count's digits, ending in "s" exactly when more than one client got it.
   */
  function SentDetail(sent: nat): (d: string)
    ensures |d| > |SentPrefix| + |NatToString(sent)| && d[..|SentPrefix|] == SentPrefix
    ensures d[|SentPrefix|..|SentPrefix| + |NatToString(sent)|] == NatToString(sent)
    ensures d[|d| - 1] == 's' <==> sent > 1
  {
    var d := SentPrefix + NatToString(sent) + " client connection" + (if sent > 1 then "s" else "");
    assert d[..|SentPrefix|] == SentPrefix;
    assert d[|SentPrefix|..|SentPrefix| + |NatToString(sent)|] == NatToString(sent);
    d
  }

  /** The detail names the count unambiguously: different counts give different texts. */
  lemma SentDetailInjective(m: nat, n: nat)
    requires SentDetail(m) == SentDetail(n)
    ensures m == n
  {
    var a, b := NatToString(m), NatToString(n);
    var dm, dn := SentDetail(m), SentDetail(n);
    assert a == dm[|SentPrefix|..|SentPrefix| + |a|];
    assert b == dn[|SentPrefix|..|SentPrefix| + |b|];
    NatToStringInjective(m, n);
  }

  /** The connection ids in `fds` whose handshake is established. */
  function EstablishedIn(conns: map<int, bool>, fds: set<int>): set<int>
  {
    set fd | fd in fds && fd in conns && conns[fd]
  }

  /** The connection ids named by a list of pushes. */
  function PushedFds(ps: seq<PushRecord>): set<int>
  {
    set i | 0 <= i < |ps| :: ps[i].fd
  }

  lemma PushedFdsSnoc(ps: seq<PushRecord>, p: PushRecord)
    ensures PushedFds(ps + [p]) == PushedFds(ps) + {p.fd}
  {
    var qs := ps + [p];
    assert qs[|ps|] == p;
    forall fd | fd in PushedFds(ps) ensures fd in PushedFds(qs) {
      var i :| 0 <= i < |ps| && ps[i].fd == fd;
      assert qs[i] == ps[i];
    }
  }

  /** Visiting one more connection adds it to the established and delivered counts exactly when it qualifies. */
  lemma CountStep(conns: map<int, bool>, accepting: set<int>, done: set<int>, fd: int)
    requires fd !in done
    ensures var established := fd in conns && conns[fd];
      && EstablishedIn(conns, done + {fd}) == EstablishedIn(conns, done) + (if established then {fd} else {})
      && |EstablishedIn(conns, done + {fd})| == |EstablishedIn(conns, done)| + (if established then 1 else 0)
      && |EstablishedIn(conns, done + {fd}) * accepting|
         == |EstablishedIn(conns, done) * accepting| + (if established && fd in accepting then 1 else 0)
  {
    var before := EstablishedIn(conns, done);
    var after := EstablishedIn(conns, done + {fd});
    assert fd !in before;
    if fd in conns && conns[fd] {
      assert after == before + {fd};
      if fd in accepting {
        assert after * accepting == (before * accepting) + {fd};
      } else {
        assert after * accepting == before * accepting;
      }
    } else {
      assert after == before;
    }
  }

  /**
   * After visiting the connections in `done`, the pushes made are one per
   * established connection among them, each carrying `payload` and the push
   * result, and `sent` counts those that went through.
   */
  ghost predicate Broadcast(conns: map<int, bool>, accepting: set<int>, done: set<int>,
                            added: seq<PushRecord>, sent: nat, payload: Outbound)
  {
    && PushedFds(added) == EstablishedIn(conns, done)
    && |added| == |EstablishedIn(conns, done)|
    && (forall i :: 0 <= i < |added| ==> added[i].payload == payload && added[i].ok == (added[i].fd in accepting))
    && sent == |EstablishedIn(conns, done) * accepting|
  }

  /** Visiting a connection that is not established pushes nothing and keeps Broadcast. */
  lemma BroadcastSkip(conns: map<int, bool>, accepting: set<int>, done: set<int>,
                      added: seq<PushRecord>, sent: nat, payload: Outbound, fd: int)
    requires fd !in done && !(fd in conns && conns[fd])
    requires Broadcast(conns, accepting, done, added, sent, payload)
    ensures Broadcast(conns, accepting, done + {fd}, added, sent, payload)
  {
    CountStep(conns, accepting, done, fd);
  }

  /** Visiting an established connection adds its push, and counts it when it went through. */
  lemma BroadcastPush(conns: map<int, bool>, accepting: set<int>, done: set<int>,
                      added: seq<PushRecord>, sent: nat, payload: Outbound, fd: int)
    requires fd !in done && fd in conns && conns[fd]
    requires Broadcast(conns, accepting, done, added, sent, payload)
    ensures Broadcast(conns, accepting, done + {fd}, added + [PushRecord(fd, payload, fd in accepting)],
                      if fd in accepting then sent + 1 else sent, payload)
  {
    var pushed := PushRecord(fd, payload, fd in accepting);
    CountStep(conns, accepting, done, fd);
    PushedFdsSnoc(added, pushed);
    var longer := added + [pushed];
    forall i | 0 <= i < |longer|
      ensures longer[i].payload == payload && longer[i].ok == (longer[i].fd in accepting)
    {
      if i < |added| {
        assert longer[i] == added[i];
      }
    }
  }

  /** The frame's `text` and `name`, "" when absent or when the frame is not a JSON object. */
  function MessageFromFrame(decoded: Option<map<string, string>>): (m: PeerMessage)
    ensures decoded.Some? && "text" in decoded.value ==> m.text == decoded.value["text"]
    ensures decoded.Some? && "name" in decoded.value ==> m.name == decoded.value["name"]
    ensures decoded.None? || "text" !in decoded.value ==> m.text == ""
    ensures decoded.None? || "name" !in decoded.value ==> m.name == ""
  {
    var fields := if decoded.Some? then decoded.value else map[];
    PeerMessage(if "name" in fields then fields["name"] else "", if "text" in fields then fields["text"] else "")
  }

  /** The one frame pushed back to the sender after calling the peer. */
  function ReplyFor(outcome: PeerOutcome): (f: Outbound)
    ensures f.Notice?
    ensures f.kind == "info" <==> outcome.PeerReplied? && outcome.success
    ensures f.kind != "info" ==> f.kind == "error"
    ensures outcome.PeerReplied? && outcome.success ==> f.text == outcome.message
    ensures outcome.PeerReplied? && !outcome.success ==> f.text == DisconnectedText
    ensures outcome.PeerThrew? ==> f.text == OfflineText
  {
    match outcome
    case PeerReplied(success, message) =>
      if success then Notice("info", message) else Notice("error", DisconnectedText)
    case PeerThrew(_) => Notice("error", OfflineText)
  }

  /** A refusing peer's reason never reaches the client: every refusal looks the same. */
  lemma RefusalHidesReason(reason1: string, reason2: string)
    ensures ReplyFor(PeerReplied(false, reason1)) == ReplyFor(PeerReplied(false, reason2))
  {
  }

  // --------------------------------------------------------------- MyServer

  class MyServer {
    const gateway: OswServer

    constructor (server: SocketServer)
      ensures gateway.className == "MyServer" && gateway.server == server
      ensures gateway.Valid() && fresh(gateway)
    {
      gateway := new OswServer("MyServer", server);
    }

    /** The inherited `processRequest`, dispatching to this class's overrides. */
    method ProcessRequest(req: RawRequest, raw: RawResponse,
                          invoke: (seq<Middleware>, GrpcRequest) -> HandlerOutcome, rootHtml: seq<Byte>)
      returns (outcome: Outcome)
      modifies raw
      ensures Classify(req.headers) == MissingTe ==>
        outcome == Raised(InvokeException(MissingTeText, None)) && unchanged(raw)
      ensures Classify(req.headers) == HttpRoute ==>
        outcome == Completed && Answered(raw, HttpStatus(req.serverPort, req.pathInfo), rootHtml)
      ensures Classify(req.headers) == GrpcRoute && req.serverPort != Some(PortGrpc) ==>
        outcome == Completed && Forbidden(raw)
      ensures Classify(req.headers) == GrpcRoute && req.serverPort == Some(PortGrpc) ==>
        StepTaken(raw, GrpcDispatch(gateway.NewRequestContext(req), req.requestUri, req.content, gateway.chain, invoke), outcome)
    {
      var ctx := gateway.NewRequestContext(req);
      match Classify(req.headers)
      case MissingTe =>
        outcome := Raised(InvokeException(MissingTeText, None));
      case GrpcRoute =>
        outcome := ProcessRequestGrpc(ctx, req, raw, invoke);
      case HttpRoute =>
        ProcessRequestHttp(ctx, raw, rootHtml);
        outcome := Completed;
    }

    /** The gRPC override: off the gRPC port the answer is 403; otherwise the gateway dispatches. */
    method ProcessRequestGrpc(ctx: RequestContext, req: RawRequest, raw: RawResponse,
                              invoke: (seq<Middleware>, GrpcRequest) -> HandlerOutcome)
      returns (outcome: Outcome)
      modifies raw
      ensures ctx.serverPort != Some(PortGrpc) ==> outcome == Completed && Forbidden(raw)
      ensures ctx.serverPort == Some(PortGrpc) ==>
        StepTaken(raw, GrpcDispatch(ctx, req.requestUri, req.content, gateway.chain, invoke), outcome)
    {
      if ctx.serverPort != Some(PortGrpc) {
        raw.Status(403, "Forbidden");
        raw.End([]);
        return Completed;
      }
      outcome := gateway.ProcessRequestGrpc(ctx, req, raw, invoke);
    }

    /** The HTTP override: off the HTTP port 403; `/` gets the page and 200; any other path 404. */
    method ProcessRequestHttp(ctx: RequestContext, raw: RawResponse, rootHtml: seq<Byte>)
      modifies raw
      ensures Answered(raw, HttpStatus(ctx.serverPort, ctx.path), rootHtml)
    {
      if ctx.serverPort != Some(PortHttp) {
        raw.Status(403, "Forbidden");
        raw.End([]);
        return;
      }
      if ctx.path == "/" {
        var _ := raw.Write(rootHtml);
        raw.Status(200, "OK");
      } else {
        raw.Status(404, "Not Found");
      }
      raw.End([]);
    }

    /**
     * `sendMsgToClient`: push the message to every established connection,
     * count the pushes that went through, and report the count.
     */
    method SendMsgToClient(name: string, text: string, ip: string) returns (result: MessageResult)
      modifies gateway.server`pushes
      ensures |gateway.server.pushes| >= |old(gateway.server.pushes)|
      ensures gateway.server.pushes[..|old(gateway.server.pushes)|] == old(gateway.server.pushes)
      ensures var conns := gateway.server.connections;
        var added := gateway.server.pushes[|old(gateway.server.pushes)|..];
        && PushedFds(added) == EstablishedIn(conns, conns.Keys)
        && |added| == |EstablishedIn(conns, conns.Keys)|
        && (forall i :: 0 <= i < |added| ==>
              added[i].payload == Chat(name, text) && added[i].ok == (added[i].fd in gateway.server.accepting))
        && result == SendOutcome(text, ip, |EstablishedIn(conns, conns.Keys) * gateway.server.accepting|)
    {
      var server := gateway.server;
      var conns := server.connections;
      var accepting := server.accepting;
      ghost var before := server.pushes;
      ghost var added: seq<PushRecord> := [];
      var remaining := conns.Keys;
      var sent: nat := 0;
      while remaining != {}
        invariant remaining <= conns.Keys
        invariant server.pushes == before + added
        invariant Broadcast(conns, accepting, conns.Keys - remaining, added, sent, Chat(name, text))
        decreases remaining
      {
        var fd := PickMember(remaining);
        assert fd !in conns.Keys - remaining;
        assert conns.Keys - (remaining - {fd}) == (conns.Keys - remaining) + {fd};
        if server.IsEstablished(fd) {
          BroadcastPush(conns, accepting, conns.Keys - remaining, added, sent, Chat(name, text), fd);
          var ok := server.Push(fd, Chat(name, text));
          ghost var pushed := PushRecord(fd, Chat(name, text), ok);
          assert (before + added) + [pushed] == before + (added + [pushed]);
          added := added + [pushed];
          if ok {
            sent := sent + 1;
          }
        } else {
          BroadcastSkip(conns, accepting, conns.Keys - remaining, added, sent, Chat(name, text), fd);
        }
        remaining := remaining - {fd};
      }
      assert conns.Keys - remaining == conns.Keys;
      assert server.pushes[|before|..] == added;
      result := SendOutcome(text, ip, sent);
    }

    /** `processRequestWs`: forward the frame to the peer and push exactly one reply to the sender. */
    method ProcessRequestWs(frame: WsFrame, callPeer: PeerMessage -> PeerOutcome)
      modifies gateway.server`pushes
      ensures gateway.server.pushes == old(gateway.server.pushes) +
        [PushRecord(frame.fd, ReplyFor(callPeer(MessageFromFrame(frame.decoded))), frame.fd in gateway.server.accepting)]
    {
      var message := MessageFromFrame(frame.decoded);
      var reply := ReplyFor(callPeer(message));
      var _ := gateway.server.Push(frame.fd, reply);
    }
  }

  /** The host's HTTP answer: `code` and its reason, the page written first for 200, then ended. */
  twostate predicate Answered(raw: RawResponse, code: int, rootHtml: seq<Byte>)
    reads raw
  {
    if old(raw.ended) then unchanged(raw)
    else
      && raw.status == code && raw.reason == ReasonPhrase(code) && raw.ended
      && raw.body == old(raw.body) + (if code == 200 && old(raw.connected) then rootHtml else [])
      && raw.headers == old(raw.headers) && raw.trailers == old(raw.trailers)
      && raw.connected == old(raw.connected)
  }
}
