/** The resume relay: forward `data` as a JSON POST to the caller-supplied
    `resumeUrl` and answer 200 with `{success: true, status, data}`, whatever
    status the target replied with. A missing `resumeUrl` is rejected with
    400 before any outbound call. Two variants: the Express route and the
    serverless handler, which adds a method gate and meets request bodies
    that cannot be destructured. */
module ResumeRelay {
  import opened Values
  import opened Http

  /** The two fields the relay destructures from the JSON request body;
      either may be absent. */
  datatype ResumeBody = ResumeBody(resumeUrl: Option<string>, data: Option<Json>)

  /** The 400 answer when the target is missing. */
  const MissingResumeUrl: Response := Response(400, Some(Rejection("resumeUrl is required")))

  /** Reading `req.body` as the serverless runtime hands it over: the read
      itself throws (the runtime parses lazily and fails on malformed JSON or
      an invalid Content-Type), or it yields `undefined` (no Content-Type),
      `null` (no body), or a value whose two fields are read. A value that is
      not an object reads as `ResumeBody(None, None)`. */
  datatype RequestBody = BodyError(message: string) | UndefinedBody | NullBody | Fields(fields: ResumeBody)

  /** The message of the exception thrown while destructuring `req.body`:
      the runtime's own message when the read throws, V8's wording when the
      body is `undefined` or `null`; `None` when the destructuring succeeds. */
  function DestructureError(body: RequestBody): (message: Option<string>)
    ensures message.None? <==> body.Fields?
    ensures body.BodyError? ==> message == Some(body.message)
    ensures body.UndefinedBody? ==>
              message == Some("Cannot destructure property 'resumeUrl' of 'req.body' as it is undefined.")
    ensures body.NullBody? ==>
              message == Some("Cannot destructure property 'resumeUrl' of 'req.body' as it is null.")
  {
    match body
    case BodyError(m) => Some(m)
    case UndefinedBody => Some("Cannot destructure property 'resumeUrl' of 'req.body' as it is undefined.")
    case NullBody => Some("Cannot destructure property 'resumeUrl' of 'req.body' as it is null.")
    case Fields(_) => None
  }

  /** `JSON.stringify(data)`: no body at all when `data` is undefined. */
  function JsonBody(data: Option<Json>): (b: Body)
    ensures data.None? <==> b.NoBody?
    ensures data.Some? ==> b == JsonText(data.value)
  {
    match data
    case None => NoBody
    case Some(v) => JsonText(v)
  }

  /** POST /resume on the Express server (whose JSON parser always yields
      an object). */
  function Resume(body: ResumeBody, upstream: UpstreamOutcome): (h: Handled)
    ensures h.outbound.None? <==> body.resumeUrl.None? || body.resumeUrl.value == ""
    ensures h.outbound.None? ==> h.response == MissingResumeUrl
    ensures h.outbound.Some? ==>
              h.outbound.value == OutboundRequest("POST", body.resumeUrl.value, ContentTypeJson, JsonBody(body.data))
    ensures h.outbound.Some? && upstream.Reply? ==>
              && h.response.status == 200
              && h.response.body == Some(JObj(map["success" := JBool(true),
                                                  "status" := JNum(upstream.status),
                                                  "data" := ParsedBody(upstream.body)]))
    ensures h.outbound.Some? && upstream.TransportError? ==> h.response == Failure(upstream.message)
  {
    match body.resumeUrl
    case None => Handled(MissingResumeUrl, None)
    case Some(url) =>
      if url == "" then Handled(MissingResumeUrl, None)
      else
        var request := OutboundRequest("POST", url, ContentTypeJson, JsonBody(body.data));
        Forward(request, upstream, SuccessEnvelope)
  }

  /** The serverless resume handler: method gate, then the relay. A body
      whose read throws, or that is undefined or null, makes the destructuring
      throw, which is caught as a 500 carrying the exception's message. */
  function ResumeServerless(verb: string, body: RequestBody, upstream: UpstreamOutcome): (h: Handled)
    ensures verb == "OPTIONS" ==> h == Handled(Response(200, None), None)
    ensures verb != "OPTIONS" && verb != "POST" ==>
              h == Handled(Response(405, Some(Rejection("Method not allowed"))), None)
    ensures verb == "POST" && !body.Fields? ==> h == Handled(Failure(DestructureError(body).value), None)
    ensures verb == "POST" && body.Fields? ==> h == Resume(body.fields, upstream)
    ensures verb == "POST" && body.BodyError? ==> h == Handled(Failure(body.message), None)
  {
    match MethodGate(verb)
    case Some(early) => Handled(early, None)
    case None =>
      match body
      case Fields(b) => Resume(b, upstream)
      case _ => Handled(Failure(DestructureError(body).value), None)
  }

  /** A missing or empty `resumeUrl` is answered 400 with no outbound
      request, in both variants, whatever the upstream would have done. */
  lemma MissingUrlMakesNoCall(data: Option<Json>, missing: Option<string>, upstream: UpstreamOutcome)
    requires missing.None? || missing == Some("")
    ensures Resume(ResumeBody(missing, data), upstream) == Handled(MissingResumeUrl, None)
    ensures ResumeServerless("POST", Fields(ResumeBody(missing, data)), upstream) == Handled(MissingResumeUrl, None)
  {
  }

  /** The envelope reports `success: true` for every upstream reply,
      including error statuses and unparsable bodies; only a transport
      error yields `success: false`. */
  lemma EnvelopeSuccessIffReply(url: string, data: Option<Json>, upstream: UpstreamOutcome)
    requires url != ""
    ensures var r := Resume(ResumeBody(Some(url), data), upstream).response;
            && r.body.Some? && r.body.value.JObj? && "success" in r.body.value.fields
            && (r.body.value.fields["success"] == JBool(true) <==> upstream.Reply?)
            && (upstream.Reply? ==> r.status == 200)
            && (upstream.Reply? && upstream.body.None? ==> r.body.value.fields["data"] == EmptyObject)
            && (upstream.TransportError? ==> r.status == 500)
  {
  }

  /** When the serverless handler makes no outbound call, its response
      does not depend on what the upstream would have done. */
  lemma ResumeServerlessNoCallIgnoresUpstream(verb: string, body: RequestBody,
                                              u1: UpstreamOutcome, u2: UpstreamOutcome)
    requires ResumeServerless(verb, body, u1).outbound.None?
    ensures ResumeServerless(verb, body, u2) == ResumeServerless(verb, body, u1)
  {
  }

  /** A request body the runtime cannot read (malformed JSON, an invalid
      Content-Type) is answered 500 `{success: false, error}` with the
      runtime's message, and no outbound request is made. */
  lemma UnreadableBodyMakesNoCall(message: string, upstream: UpstreamOutcome)
    ensures var h := ResumeServerless("POST", BodyError(message), upstream);
            && h.outbound.None?
            && h.response.status == 500
            && h.response.body == Some(JObj(map["success" := JBool(false), "error" := JStr(message)]))
  {
  }
}
