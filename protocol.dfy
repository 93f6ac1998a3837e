/**
 * Protocol decisions the gateway takes from request headers alone: is this a
 * gRPC call, and which payload encoding does its content-type ask for.
 * Header names are the lower-case keys OpenSwoole stores them under.
 */
module Protocol {
  import opened Basics

  const ContentTypeHeader: string := "content-type"
  const TeHeader: string := "te"

  /** The three content-types that make a request a gRPC call (compared strictly). */
  const GrpcContentTypes: set<string> := {"application/grpc", "application/grpc+proto", "application/grpc+json"}

  const JsonContentType: string := "application/grpc+json"

  /** gRPC status codes used by the gateway. */
  const StatusOk: int := 0
  const StatusUnknown: int := 2
  const StatusInternal: int := 13

  const MissingTeText: string := "illegal GRPC request, missing te header"

  /** Exceptions that leave a handler. An `InvokeException` without a code takes the library's default. */
  datatype Raised =
    | InvokeException(message: string, code: Option<int>)
    | TransportException(message: string)
    | UncaughtError(message: string)

  /** `$rawRequest->header['content-type'] ?? ''`. */
  function ContentTypeOf(headers: map<string, string>): (ct: string)
    ensures ContentTypeHeader in headers ==> ct == headers[ContentTypeHeader]
    ensures ContentTypeHeader !in headers ==> ct == ""
  {
    if ContentTypeHeader in headers then headers[ContentTypeHeader] else ""
  }

  datatype Route = HttpRoute | GrpcRoute | MissingTe

  /**
   * `processRequest`'s decision: a gRPC content-type with a `te` header goes to
   * gRPC handling, a gRPC content-type without one raises, anything else
   * (including no content-type at all) goes to HTTP handling.
   */
  function Classify(headers: map<string, string>): (r: Route)
    ensures r == GrpcRoute <==>
      ContentTypeHeader in headers && headers[ContentTypeHeader] in GrpcContentTypes && TeHeader in headers
    ensures r == MissingTe <==>
      ContentTypeHeader in headers && headers[ContentTypeHeader] in GrpcContentTypes && TeHeader !in headers
    ensures r == HttpRoute <==>
      ContentTypeHeader !in headers || headers[ContentTypeHeader] !in GrpcContentTypes
  {
    if ContentTypeOf(headers) in GrpcContentTypes then
      if TeHeader in headers then GrpcRoute else MissingTe
    else
      HttpRoute
  }

  /** A request without a content-type header is never treated as gRPC. */
  lemma NoContentTypeIsHttp(headers: map<string, string>)
    requires ContentTypeHeader !in headers
    ensures Classify(headers) == HttpRoute
  {
  }

  datatype Encoding = Binary | Json

  /** `push` serializes to JSON only for exactly `application/grpc+json` (strict `!==`). */
  function EncodingFor(contentType: string): (e: Encoding)
    ensures e == Json <==> contentType == JsonContentType
  {
    if contentType != JsonContentType then Binary else Json
  }
}
