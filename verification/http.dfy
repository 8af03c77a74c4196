/** The request/response vocabulary the relay handlers share: the response a
    handler sends, the outbound request it would issue, the abstract outcome of
    that outbound call, the method gate of the serverless handlers and the
    shaping of an upstream reply. */
module Http {
  import opened Values

  /** A response sent to the caller. `body == None` is an empty body
      (`res.status(...).end()`); otherwise the body is that JSON value. */
  datatype Response = Response(status: int, body: Option<Json>)

  /** Where the bytes of one outbound multipart part come from: an in-memory
      buffer (multer) or a read stream over a temporary file (formidable). */
  datatype PartContent = Buffer(bytes: seq<bv8>) | FileStream(path: string)

  /** One part of an outbound multipart form: its field name, the file name
      and content type it declares, and its content. */
  datatype Part = Part(name: string, filename: string, contentType: string, content: PartContent)

  /** The body of an outbound request: nothing, the JSON serialisation of a
      value, or a multipart form with these parts in this order. */
  datatype Body = NoBody | JsonText(value: Json) | Multipart(parts: seq<Part>)

  /** An outbound HTTP request: its method (`verb`), target URL, Content-Type header, body. */
  datatype OutboundRequest = OutboundRequest(verb: string, url: string, contentType: string, body: Body)

  /** What the outbound call produced: it threw (connection, DNS, invalid URL,
      ...) with a message, or the target replied with a status and a body that
      parsed as JSON (`Some`) or did not (`None`). */
  datatype UpstreamOutcome = TransportError(message: string) | Reply(status: int, body: Option<Json>)

  /** What one handler invocation does: the response it sends and the
      outbound request it issues, if any. */
  datatype Handled = Handled(response: Response, outbound: Option<OutboundRequest>)

  const ContentTypeJson: string := "application/json"
  /** The media type `FormData.getHeaders()` declares; the random boundary
      parameter it appends is not modelled. */
  const ContentTypeMultipart: string := "multipart/form-data"
  /** The field name every forwarded file part carries. */
  const FilePartName: string := "file"

  /** `{success: false, error: message}`: the body every caught exception
      is turned into. */
  function ErrorEnvelope(message: string): Json
  {
    JObj(map["success" := JBool(false), "error" := JStr(message)])
  }

  /** `{error: message}`: the body of a 400 or 405 rejection. */
  function Rejection(message: string): Json
  {
    JObj(map["error" := JStr(message)])
  }

  /** The 500 response for a caught exception. */
  function Failure(message: string): (r: Response)
    ensures r.status == 500
    ensures r.body.Some? && r.body.value.JObj?
    ensures r.body.value.fields == map["success" := JBool(false), "error" := JStr(message)]
  {
    Response(500, Some(ErrorEnvelope(message)))
  }

  /** `await response.json().catch(() => ({}))`: the parsed upstream body,
      or `{}` when it is not JSON. Never an error. */
  function ParsedBody(body: Option<Json>): (j: Json)
    ensures body.Some? ==> j == body.value
    ensures body.None? ==> j == EmptyObject
  {
    body.GetOr(EmptyObject)
  }

  /** The method gate of the serverless handlers: a response that ends the
      request before any parsing, or `None` to go on (only for POST). */
  function MethodGate(verb: string): (r: Option<Response>)
    ensures r.None? <==> verb == "POST"
    ensures verb == "OPTIONS" ==> r == Some(Response(200, None))
    ensures verb != "OPTIONS" && verb != "POST" ==>
              r == Some(Response(405, Some(Rejection("Method not allowed"))))
  {
    if verb == "OPTIONS" then Some(Response(200, None))
    else if verb != "POST" then Some(Response(405, Some(Rejection("Method not allowed"))))
    else None
  }

  /** How a relay turns an upstream reply into its own response: the upload
      relay passes status and body through; the resume relay always answers
      200 with a `{success: true, status, data}` envelope. */
  datatype Shaping = PassThrough | SuccessEnvelope

  /** The response for an upstream reply with `status` and parsed body `data`. */
  function Shape(shaping: Shaping, status: int, data: Json): (r: Response)
    ensures shaping.PassThrough? ==> r == Response(status, Some(data))
    ensures shaping.SuccessEnvelope? ==> r.status == 200 && r.body.Some? && r.body.value.JObj?
    ensures shaping.SuccessEnvelope? ==>
              r.body.value.fields == map["success" := JBool(true), "status" := JNum(status), "data" := data]
  {
    match shaping
    case PassThrough => Response(status, Some(data))
    case SuccessEnvelope =>
      Response(200, Some(JObj(map["success" := JBool(true), "status" := JNum(status), "data" := data])))
  }

  /** Issue `request` and answer with the shaped upstream reply, or with a 500
      carrying the transport error's message. */
  function Forward(request: OutboundRequest, upstream: UpstreamOutcome, shaping: Shaping): (h: Handled)
    ensures h.outbound == Some(request)
    ensures upstream.TransportError? ==> h.response == Failure(upstream.message)
    ensures upstream.Reply? ==> h.response == Shape(shaping, upstream.status, ParsedBody(upstream.body))
  {
    match upstream
    case TransportError(message) => Handled(Failure(message), Some(request))
    case Reply(status, body) => Handled(Shape(shaping, status, ParsedBody(body)), Some(request))
  }
}
