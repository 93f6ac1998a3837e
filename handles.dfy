/**
 * The two OpenSwoole handles the gateway drives: the HTTP response of one
 * request, and the server's WebSocket connection table with its `push`.
 * What the network does with the bytes is outside the model; whether a
 * write or a push succeeds is fixed by the handle's state.
 */
module Handles {
  import opened Framing

  /**
   * An `OpenSwoole\Http\Response`: status line, headers, trailers and body
   * accumulate until `end()`; calls after `end()` have no effect.
   * `connected` says whether the client still accepts a `write()`.
   */
  class RawResponse {
    var status: int
    var reason: string
    var headers: map<string, string>
    var trailers: map<string, string>
    var body: seq<Byte>
    var ended: bool
    var connected: bool

    constructor (connected: bool)
      ensures status == 200 && reason == "OK"
      ensures headers == map[] && trailers == map[] && body == [] && !ended
      ensures this.connected == connected
    {
      status, reason := 200, "OK";
      headers, trailers, body := map[], map[], [];
      ended := false;
      this.connected := connected;
    }

    /** `status($code, $reason)`. */
    method Status(code: int, text: string)
      modifies this
      ensures old(ended) ==> unchanged(this)
      ensures !old(ended) ==> status == code && reason == text
      ensures headers == old(headers) && trailers == old(trailers) && body == old(body)
      ensures ended == old(ended) && connected == old(connected)
    {
      if !ended {
        status, reason := code, text;
      }
    }

    /** `header($name, $value)`: a later value for the same name replaces the earlier one. */
    method Header(name: string, value: string)
      modifies this
      ensures old(ended) ==> unchanged(this)
      ensures !old(ended) ==> headers == old(headers)[name := value]
      ensures status == old(status) && reason == old(reason) && trailers == old(trailers) && body == old(body)
      ensures ended == old(ended) && connected == old(connected)
    {
      if !ended {
        headers := headers[name := value];
      }
    }

    /** `trailer($name, $value)`. */
    method Trailer(name: string, value: string)
      modifies this
      ensures old(ended) ==> unchanged(this)
      ensures !old(ended) ==> trailers == old(trailers)[name := value]
      ensures status == old(status) && reason == old(reason) && headers == old(headers) && body == old(body)
      ensures ended == old(ended) && connected == old(connected)
    {
      if !ended {
        trailers := trailers[name := value];
      }
    }

    /** `write($data)`: succeeds only before `end()` and while the client is connected. */
    method Write(data: seq<Byte>) returns (ok: bool)
      modifies this
      ensures ok == (!old(ended) && old(connected))
      ensures !ok ==> unchanged(this)
      ensures body == if ok then old(body) + data else old(body)
      ensures status == old(status) && reason == old(reason)
      ensures headers == old(headers) && trailers == old(trailers)
      ensures ended == old(ended) && connected == old(connected)
    {
      ok := !ended && connected;
      if ok {
        body := body + data;
      }
    }

    /** `end($data)`: the last bytes of the body; a second `end()` does nothing. */
    method End(data: seq<Byte>)
      modifies this
      ensures old(ended) ==> unchanged(this)
      ensures !old(ended) ==> body == old(body) + data
      ensures ended
      ensures status == old(status) && reason == old(reason)
      ensures headers == old(headers) && trailers == old(trailers) && connected == old(connected)
    {
      if !ended {
        body := body + data;
        ended := true;
      }
    }
  }

  /** What `json_encode` is given for a WebSocket frame to a client. */
  datatype Outbound =
    | Chat(name: string, text: string)
    | Notice(kind: string, text: string)

  /** One `push($fd, $data)` call and what it returned. */
  datatype PushRecord = PushRecord(fd: int, payload: Outbound, ok: bool)

  /**
   * The server handle as the relay sees it: `connections` maps every
   * connection id to whether its WebSocket handshake is established;
   * `accepting` are the connections a push currently succeeds on;
   * `pushes` logs every push in order.
   */
  class SocketServer {
    var connections: map<int, bool>
    const accepting: set<int>
    var pushes: seq<PushRecord>

    constructor (connections: map<int, bool>, accepting: set<int>)
      ensures this.connections == connections && this.accepting == accepting && pushes == []
    {
      this.connections := connections;
      this.accepting := accepting;
      pushes := [];
    }

    /** `isEstablished($fd)`: only a known connection can have finished its handshake. */
    predicate IsEstablished(fd: int)
      reads this
      ensures IsEstablished(fd) ==> fd in connections
    {
      fd in connections && connections[fd]
    }

    /** `push($fd, $data)`: records the attempt and reports whether it went through. */
    method Push(fd: int, payload: Outbound) returns (ok: bool)
      modifies this`pushes
      ensures ok == (fd in accepting)
      ensures pushes == old(pushes) + [PushRecord(fd, payload, ok)]
    {
      ok := fd in accepting;
      pushes := pushes + [PushRecord(fd, payload, ok)];
    }
  }
}
