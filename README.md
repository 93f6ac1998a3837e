# OswServer gateway and example host, in Dafny

This project models `Naivic\OswServer`. It is an OpenSwoole server that serves gRPC, plain HTTP and WebSocket on one event loop. It also models the example host `MyServer` built on top of it.

The gateway part (modules `Framing`, `Decimal`, `Uri`, `Protocol`, `Handles`, `Gateway`) covers:

- its configuration tables: settings, services, worker-context callbacks and the middleware chain;
- the worker context folded together at worker start;
- the classification of each request as gRPC, HTTP or an illegal gRPC request without a `te` header;
- the split of the request URI into service and method;
- the 5-byte gRPC Length-Prefixed-Message envelope: flag byte 0, a 32-bit big-endian length, then the payload;
- the status/message bookkeeping around the middleware chain;
- the headers, trailers and framed body that `send` writes, and the streaming `push`.

The host part (module `Host`) covers:

- the port guard: gRPC only on 9501, HTTP only on 8080, otherwise 403;
- the one-page HTTP site;
- the relay that broadcasts a peer's chat message to every established WebSocket connection and reports the count;
- the relay that turns a client's frame into exactly one reply frame after calling the gRPC peer.

Mutable things are classes with `modifies` clauses:

- the gateway `OswServer` and the host `MyServer`;
- the OpenSwoole response handle `RawResponse`;
- the WebSocket connection table `SocketServer`.

Pure decisions are functions with lemmas beside them. `MyServer extends OswServer` is modelled by composition: `MyServer` holds the gateway it extends and calls its `ProcessRequestGrpc` where PHP calls `parent::`.

Library calls enter as parameters:

- the middleware chain's `handle` (`invoke`);
- protobuf serialization (`serialize`);
- the worker-context callbacks, which see the context folded so far (`call`);
- the gRPC peer call (`callPeer`);
- the contents of `root.html` (`rootHtml`).

Where the code and the prose description of the system differ, the model follows the code:

- A refusing peer's reason never reaches the client. The client always gets the fixed text "message not delivered, user is currently disconnected" (example/host/server.php:96).
- `sendMsgToClient` pushes to every established connection, not to one addressee.
- `getContent() ? substr(..., 5) : ''` treats the body "0" as false. That yields the same empty message that `substr` would, so the model strips the prefix in every case.

## Model

| member | source | states |
|---|---|---|
| Framing.BigEndian32 | src/Naivic/OswServer/OswServer.php:205 | `pack('N', n)` is four bytes whose big-endian value is n modulo 2^32 |
| Framing.Frame | src/Naivic/OswServer/OswServer.php:228 | the envelope is 5 + len(payload) bytes: flag 0, the 32-bit length of the payload, then the payload unchanged |
| Framing.Truthy | src/Naivic/OswServer/OswServer.php:178 | PHP truthiness of a body: "" and "0" are false, every other single byte is true, and every body of two or more bytes is true |
| Framing.Substr | src/Naivic/OswServer/OswServer.php:178 | PHP 8 `substr($s, $start)`: the bytes from `start` on, position by position, and "" once `start` is past the end |
| Framing.RequestMessage | src/Naivic/OswServer/OswServer.php:178 | a body of at most 5 bytes (empty, "0" or a bare header) yields an empty message; a longer one yields everything after the 5-byte prefix |
| Framing.StripFrame | src/Naivic/OswServer/OswServer.php:178 | stripping an incoming body gives back the payload of any envelope `send` would build: the framing round trip |
| Framing.EmptyFrame | src/Naivic/OswServer/OswServer.php:228 | the body sent for an empty payload is exactly five zero bytes |
| Framing.FrameLength | src/Naivic/OswServer/OswServer.php:205 | the length field equals the payload length whenever the payload fits in 32 bits |
| Decimal.NatToString | example/host/server.php:42 | the decimal text of a count is non-empty, all digits, and has no leading zero |
| Decimal.IntToString | src/Naivic/OswServer/OswServer.php:236 | `(string)` of an integer starts with '-' exactly when the integer is negative |
| Decimal.ParseNatToString | src/Naivic/OswServer/OswServer.php:236 | the digits written for a natural number read back as that number |
| Decimal.IntToStringRoundTrip | src/Naivic/OswServer/OswServer.php:236 | the `grpc-status` text of any status code parses back to that code |
| Decimal.NatToStringInjective | example/host/server.php:42 | different counts are written as different texts |
| Uri.Explode | src/Naivic/OswServer/OswServer.php:176 | `explode('/')` gives at least one piece and no piece contains '/' |
| Uri.ImplodeExplode | src/Naivic/OswServer/OswServer.php:176 | joining the pieces with '/' gives the URI back, so nothing is lost |
| Uri.ExplodeSlashFree | src/Naivic/OswServer/OswServer.php:176 | a string without '/' explodes into itself alone |
| Uri.ExplodeAfterPiece | src/Naivic/OswServer/OswServer.php:176 | the first '/' ends the first piece and the rest explodes on its own |
| Uri.ExplodeCount | src/Naivic/OswServer/OswServer.php:176 | explode yields one piece more than the string has slashes |
| Uri.SplitUri | src/Naivic/OswServer/OswServer.php:176-177 | a split service starts with '/' and holds no other '/'; the method holds no '/' |
| Uri.SplitServiceMethod | src/Naivic/OswServer/OswServer.php:176-177 | the URI `/S/M` splits into service `/S` and method `M` |
| Uri.SplitIgnoresTail | src/Naivic/OswServer/OswServer.php:176 | pieces after the method (`/S/M/...`) are ignored by the destructuring |
| Uri.SplitNeedsTwoSlashes | src/Naivic/OswServer/OswServer.php:176 | a missing URI, or one with fewer than two slashes, leaves the method unset |
| Protocol.ContentTypeOf | src/Naivic/OswServer/OswServer.php:147 | the content-type is the header's value, or "" when the header is absent |
| Protocol.Classify | src/Naivic/OswServer/OswServer.php:152-159 | gRPC iff the content-type is exactly one of the three gRPC types and `te` is present; missing-te iff such a type without `te`; HTTP iff no such type |
| Protocol.NoContentTypeIsHttp | src/Naivic/OswServer/OswServer.php:147 | a request with no content-type header is always handled as HTTP |
| Protocol.EncodingFor | src/Naivic/OswServer/OswServer.php:196-200 | JSON serialization exactly for `application/grpc+json`, binary otherwise |
| Handles.RawResponse.constructor | src/Naivic/OswServer/OswServer.php:140 | a fresh response: 200 OK, no headers, no trailers, empty body, not ended |
| Handles.RawResponse.Status | src/Naivic/OswServer/OswServer.php:165 | sets status and reason before `end()`; no effect after it |
| Handles.RawResponse.Header | src/Naivic/OswServer/OswServer.php:232 | sets one header, a later value replacing an earlier one; no effect after `end()` |
| Handles.RawResponse.Trailer | src/Naivic/OswServer/OswServer.php:236 | sets one trailer; no effect after `end()` |
| Handles.RawResponse.Write | src/Naivic/OswServer/OswServer.php:207-208 | succeeds exactly when not ended and connected, appending the data; a failed write changes nothing |
| Handles.RawResponse.End | src/Naivic/OswServer/OswServer.php:238 | appends the last bytes and ends the response; a second `end()` changes nothing |
| Handles.SocketServer.constructor | example/host/server.php:26 | the connection table is the given one, with its accepting connections, and no push has been made |
| Handles.SocketServer.IsEstablished | example/host/server.php:27 | only a connection in the table can be established |
| Handles.SocketServer.Push | example/host/server.php:28 | one push is logged per call, and it succeeds exactly on accepting connections |
| Gateway.Put | src/Naivic/OswServer/OswServer.php:51 | assigning a key adds exactly that key to the table's names |
| Gateway.PutKeepsPositions | src/Naivic/OswServer/OswServer.php:51 | an existing key keeps its position and the table keeps its length; a new key is appended |
| Gateway.PutUnique | src/Naivic/OswServer/OswServer.php:51 | assignment never duplicates a key |
| Gateway.PutLookup | src/Naivic/OswServer/OswServer.php:51 | after the assignment the key maps to the new callback and every other key is unchanged |
| Gateway.Seed | src/Naivic/OswServer/OswServer.php:71-75 | the worker context starts with the worker id, the gateway under its class name, and the server under `OpenSwoole\Server` (later keys winning) |
| Gateway.Fold | src/Naivic/OswServer/OswServer.php:76-78 | the folded context has exactly the seed's keys plus the registered names |
| Gateway.FoldBindsEntry | src/Naivic/OswServer/OswServer.php:76-78 | with unique names, the i-th registered name ends bound to its callback's result, computed on the context folded from the entries before it |
| Gateway.FoldKeepsSeed | src/Naivic/OswServer/OswServer.php:76-78 | a seed key no callback is registered under keeps its seed value |
| Gateway.LookupAbsent | src/Naivic/OswServer/OswServer.php:76 | a name that was never registered has no callback |
| Gateway.Pending | src/Naivic/OswServer/OswServer.php:172-173 | before dispatch the status is UNKNOWN (2) and the message is ""; content-type, services, worker context, path and port are unchanged |
| Gateway.HandlerRequest | src/Naivic/OswServer/OswServer.php:176-179 | the chain gets a request exactly when the URI splits; it carries the pending context, the split service and method, and the stripped body |
| Gateway.GrpcDispatch | src/Naivic/OswServer/OswServer.php:175-187 | a reply is sent as is; a GRPCException becomes an empty-payload response carrying the exception's code and text; any other error, or a URI that does not split, escapes with nothing sent |
| Gateway.HandlerSeesPayload | src/Naivic/OswServer/OswServer.php:176-178 | a framed payload sent to `/S/M` reaches the chain as service `/S`, method `M` and exactly that payload |
| Gateway.FailedCallOnFreshResponse | src/Naivic/OswServer/OswServer.php:181-187 | after a GRPCException a fresh response carries exactly the two headers and the two trailers, the status reads back as the exception's code, and the body is five zero bytes |
| Gateway.StatusText | src/Naivic/OswServer/OswServer.php:236 | the `grpc-status` text parses back to the status code; it is "" when no status was set |
| Gateway.MessageText | src/Naivic/OswServer/OswServer.php:225 | the `grpc-message` text is the message, or "" when none was set |
| Gateway.ResponseHeaders | src/Naivic/OswServer/OswServer.php:218-221 | written onto any header map, the headers set exactly `content-type` (from the context) and `trailer: grpc-status, grpc-message` |
| Gateway.ResponseTrailers | src/Naivic/OswServer/OswServer.php:223-226 | written onto any trailer map, the trailers set exactly `grpc-status` (stringified) and `grpc-message` |
| Gateway.OswServer.constructor | src/Naivic/OswServer/OswServer.php:14-20 | settings start as HTTP/2 = 1 and coroutines = true; empty tables; the chain holds only the service handler |
| Gateway.OswServer.WithWorkerContext | src/Naivic/OswServer/OswServer.php:49-53 | the name now maps to the callback and every other name's callback is unchanged; names stay unique |
| Gateway.OswServer.AddMiddleware | src/Naivic/OswServer/OswServer.php:55-59 | the middleware is appended to the chain and the service handler stays first |
| Gateway.OswServer.Set | src/Naivic/OswServer/OswServer.php:61-65 | keys are the union; a new value wins; an old key not given again keeps its value |
| Gateway.OswServer.Register | src/Naivic/OswServer/OswServer.php:136 | the service is stored under its name, replacing any earlier one |
| Gateway.OswServer.WorkerStart | src/Naivic/OswServer/OswServer.php:70-79 | the worker context is the seed folded with every callback in order; its keys are the seed's plus the registered names; each name is bound to its callback's result on the context built before it; the server entry survives unless a callback is registered under its key |
| Gateway.OswServer.NewRequestContext | src/Naivic/OswServer/OswServer.php:142-150 | the request context holds the worker context, the services, the content-type (or ""), the path and the client's port, with no status yet |
| Gateway.OswServer.ProcessRequest | src/Naivic/OswServer/OswServer.php:140-161 | missing `te`: InvokeException with the fixed text and the response untouched; HTTP: 404 and ended; gRPC: the dispatch step is taken |
| Gateway.OswServer.ProcessRequestHttp | src/Naivic/OswServer/OswServer.php:163-167 | status 404 "Not Found" and the response ended, nothing else written |
| Gateway.OswServer.ProcessRequestGrpc | src/Naivic/OswServer/OswServer.php:169-190 | the response is the one the dispatch chose, sent by `send`; an escaping error leaves the response untouched |
| Gateway.OswServer.Send | src/Naivic/OswServer/OswServer.php:214-242 | exactly `content-type` and `trailer` headers, exactly `grpc-status` (stringified) and `grpc-message` trailers, and the framed payload appended once on `end` |
| Gateway.OswServer.Push | src/Naivic/OswServer/OswServer.php:192-212 | a serializer failure is an InvokeException with code INTERNAL (13) and nothing written; otherwise the framed payload is written, and a refused write is the "Client side is disconnected" exception; status, reason, headers, trailers and the ended flag never change |
| Host.HttpStatus | example/host/server.php:60-77 | 403 iff the port is not 8080; 200 iff on 8080 with path "/"; 404 iff on 8080 with any other path |
| Host.SendOutcome | example/host/server.php:37-42 | success iff at least one push went through; a success carries `SentDetail` of the count ("The message has been sent to N client connection(s)"); a failure's text ends with "because connection was closed" |
| Host.SentDetail | example/host/server.php:42 | the success text is the fixed prefix, then the count's digits, and it ends in "s" exactly when more than one connection got the message |
| Host.SentDetailInjective | example/host/server.php:42 | the detail determines the count |
| Host.CountStep | example/host/server.php:26-29 | visiting one more connection adds it to the established set, and to the delivered count, exactly when it qualifies |
| Host.BroadcastSkip | example/host/server.php:27 | a connection that is not established gets no push and changes no count |
| Host.BroadcastPush | example/host/server.php:27-29 | an established connection gets one push of the chat message; it is counted exactly when the push went through |
| Host.MessageFromFrame | example/host/server.php:83-86 | `text` and `name` come from the frame, each "" when absent or when the frame is not a JSON object |
| Host.ReplyFor | example/host/server.php:91-101 | peer success: "info" with the peer's message; peer refusal: "error" with the fixed disconnected text; any exception: "error" with the offline text |
| Host.RefusalHidesReason | example/host/server.php:94-96 | two refusals with different reasons produce the same reply |
| Host.MyServer.constructor | example/host/server.php:106 | the host is a gateway whose class name is `MyServer`, on the given server |
| Host.MyServer.ProcessRequest | src/Naivic/OswServer/OswServer.php:152-159 | the inherited classification with the host's overrides: missing `te` raises; HTTP is answered by port and path; gRPC off port 9501 is 403; gRPC on 9501 takes the gateway's dispatch step |
| Host.MyServer.ProcessRequestGrpc | example/host/server.php:45-58 | off port 9501: 403 "Forbidden" and ended, with no dispatch; on 9501: exactly the gateway's gRPC handling |
| Host.MyServer.ProcessRequestHttp | example/host/server.php:60-79 | status and reason as `HttpStatus` says; the page is written only for 200 on a connected client; the response is ended |
| Host.MyServer.SendMsgToClient | example/host/server.php:24-43 | exactly one push per established connection and none to any other; the result is `SendOutcome` of the number of pushes that went through; earlier pushes are untouched |
| Host.MyServer.ProcessRequestWs | example/host/server.php:81-102 | exactly one push, to the sending connection, carrying the reply for the peer's outcome |

## Left out

- Server construction, `start`'s event wiring, `on` and `addListener` are left out. They are OpenSwoole event-loop and socket plumbing.
- The `open_http_protocol`-style options passed to the server at construction are left out for the same reason.
- Logging (`Util::LOG`) is left out, as are `onStart`, `onOpen`, `onClose` and the base `processRequestWs`, which only log. So is the read of `$_ENV["PEER"]`. These are side effects and environment.
- Protobuf serialization, the middleware chain's `handle` and the gRPC client call are parameters (`serialize`, `invoke`, `callPeer`). Each returns a result or an error. They are library code.
- `StackHandler`/`ServiceHandler` internals and `ServiceContainer::getName` are library code. The chain is a sequence of links, and a service's name is given to `Register`.
- Gateway.OswServer.Register: does not model the `class_exists`/`instanceof` checks at src/Naivic/OswServer/OswServer.php:125-134. These are runtime reflection.
- `file_get_contents` of `root.html` is file I/O. Its bytes are the `rootHtml` parameter.
- `example/host/classes/Grpc/Interconnect/HostService.php` is not part of this model. It only copies `sendMsgToClient`'s `[success, msg]` into a protobuf reply.
- Coroutine concurrency across workers and requests is left out. Each handler is one sequential step.
- Host.MyServer.SendMsgToClient: does not fix the order of the pushes. PHP visits `connections` in the table's internal order, which the model does not know. The ensures state which connections get a push and the count, not their order.
- Host.MyServer.SendMsgToClient: does not model connections opening or closing during the loop. The connection table is fixed for the call.
- Gateway.OswServer.ProcessRequestGrpc: assumes one thing about a URI with fewer than three `/`-separated pieces. In that case `$method` is null, and the `Request` constructor rejects it under `strict_types`. The model treats this as an error that is not a GRPCException, so it escapes and nothing is sent. That constructor is library code.
- Gateway.OswServer.ProcessRequestGrpc: assumes the reply's context holds the request's own response handle. `send` writes to the handle stored in the reply's context (src/Naivic/OswServer/OswServer.php:216-217), and the model writes to the request's handle.
- Gateway.GrpcDispatch: does not model a `withValue` context shared with the handler. PHP's `offsetSet` mutates the context object the handler also sees. The model passes the pending context by value, and the handler's reply carries its own context.
- Gateway.OswServer.Send: does not model the catch of `OpenSwoole\Exception`. The modelled handle never throws; after `end()` a call simply has no effect.
- Gateway.OswServer.Push: does not model other `Throwable`s from the serializer. Every such error becomes the same InvokeException; the previous exception that PHP attaches is dropped.
- Host.MyServer.ProcessRequestWs: does not model a `push` that throws inside the `try`. The modelled push reports success as a boolean.
- Host.MyServer.ProcessRequestHttp: does not model that a `write()` before `status()` has already sent the status line in OpenSwoole. The modelled handle records the last status set.
- Gateway.OswServer.Set: does not model integer keys, which `array_merge` renumbers. Every setting name in this system is a string.
- Host.MessageFromFrame: does not model JSON values that are not strings. The decoded frame is a map from names to strings, or None when it is not an object.
- The library's default code for an `InvokeException` created without one (the missing-`te` error) is not modelled. The code is `None` there.

