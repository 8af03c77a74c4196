/** The upload relay: take the files of an inbound multipart form, forward
    them as one outbound multipart POST (every part named `file`) to the
    form's `webhookUrl` or a fixed default, and answer with the upstream
    status and parsed body. Two variants: the Express route, fed by multer,
    and the serverless handler, fed by formidable and guarded by a method gate. */
module UploadRelay {
  import opened Values
  import opened Http

  /** The webhook that receives uploads when the form names none. */
  const DefaultWebhookUrl: string :=
    "https://n8n-test.iohealth.com/webhook/4cac2e27-c4f9-4d2d-8260-44cc8bedb55f"

  /** The target of the outbound POST (`webhookUrl || default`). */
  function ResolveWebhook(webhookUrl: Option<string>): (url: string)
    ensures url != ""
    ensures webhookUrl.Some? && webhookUrl.value != "" ==> url == webhookUrl.value
    ensures webhookUrl.None? || webhookUrl.value == "" ==> url == DefaultWebhookUrl
  {
    StringOr(webhookUrl, DefaultWebhookUrl)
  }

  // ---- Express route (multer) ----

  /** A file as multer hands it over: the form field it came in, its
      original name, its declared media type and its bytes. */
  datatype MulterFile = MulterFile(fieldname: string, originalname: string, mimetype: string, buffer: seq<bv8>)

  /** What the Express route reads from the request: the `webhookUrl` text
      field and `req.files`, which is absent when multer did not run. */
  datatype MulterForm = MulterForm(webhookUrl: Option<string>, files: Option<seq<MulterFile>>)

  /** The outbound part for one multer file. */
  function MulterPart(f: MulterFile): Part
  {
    Part(FilePartName, f.originalname, f.mimetype, Buffer(f.buffer))
  }

  /** One part per received file, in order; none when `req.files` is absent. */
  function MulterParts(files: Option<seq<MulterFile>>): (parts: seq<Part>)
    ensures files.None? ==> parts == []
    ensures files.Some? ==> |parts| == |files.value|
    ensures files.Some? ==> forall i :: 0 <= i < |parts| ==> parts[i] == MulterPart(files.value[i])
  {
    match files
    case None => []
    case Some(fs) => seq(|fs|, i requires 0 <= i < |fs| => MulterPart(fs[i]))
  }

  /** POST /upload on the Express server. The outbound call is always made. */
  function Upload(form: MulterForm, upstream: UpstreamOutcome): (h: Handled)
    ensures h.outbound.Some?
    ensures h.outbound.value.verb == "POST"
    ensures h.outbound.value.url == ResolveWebhook(form.webhookUrl)
    ensures h.outbound.value.contentType == ContentTypeMultipart
    ensures h.outbound.value.body == Multipart(MulterParts(form.files))
    ensures upstream.Reply? ==> h.response == Response(upstream.status, Some(ParsedBody(upstream.body)))
    ensures upstream.TransportError? ==> h.response == Failure(upstream.message)
  {
    var request := OutboundRequest("POST", ResolveWebhook(form.webhookUrl), ContentTypeMultipart,
                                   Multipart(MulterParts(form.files)));
    Forward(request, upstream, PassThrough)
  }

  /** Every received file becomes exactly one part named `file`, in order,
      with its original name, media type and bytes, whatever form field
      it arrived in. */
  lemma UploadForwardsEveryFile(webhookUrl: Option<string>, files: seq<MulterFile>, upstream: UpstreamOutcome)
    ensures var h := Upload(MulterForm(webhookUrl, Some(files)), upstream);
            && h.outbound.Some? && h.outbound.value.body.Multipart?
            && var parts := h.outbound.value.body.parts;
            && |parts| == |files|
            && forall i :: 0 <= i < |files| ==>
                 && parts[i].name == "file"
                 && parts[i].filename == files[i].originalname
                 && parts[i].contentType == files[i].mimetype
                 && parts[i].content == Buffer(files[i].buffer)
  {
  }

  // ---- Serverless handler (formidable) ----

  /** A file as formidable hands it over: its original name, media type and
      the temporary path its contents were written to. */
  datatype FormidableFile = FormidableFile(originalFilename: string, mimetype: string, filepath: string)

  /** The value formidable gives a file field: a single file, or an array
      whose entries may be missing. */
  datatype FileValue = Single(file: FormidableFile) | Multiple(entries: seq<Option<FormidableFile>>)

  /** The outcome of parsing the inbound form: an error with its message,
      or the `webhookUrl` field and the files by field name. */
  datatype FormParse =
    | ParseError(message: string)
    | Parsed(webhookUrl: Option<string>, files: map<string, FileValue>)

  /** `Array.isArray(files.file) ? files.file : [files.file]`: the list the
      handler iterates; an absent `file` field is a one-element list holding
      `undefined`. Other fields are not looked at. */
  function FileList(files: map<string, FileValue>): (es: seq<Option<FormidableFile>>)
    ensures "file" !in files ==> es == [None]
    ensures "file" in files && files["file"].Single? ==> es == [Some(files["file"].file)]
    ensures "file" in files && files["file"].Multiple? ==> es == files["file"].entries
  {
    if FilePartName !in files then [None]
    else match files[FilePartName]
      case Single(f) => [Some(f)]
      case Multiple(es) => es
  }

  /** The outbound part for one formidable file: a stream over its temporary file. */
  function FormidablePart(f: FormidableFile): Part
  {
    Part(FilePartName, f.originalFilename, f.mimetype, FileStream(f.filepath))
  }

  /** The outbound parts: one per present entry of the file list, in order. */
  function FormidableParts(files: map<string, FileValue>): (parts: seq<Part>)
    ensures |parts| == |Present(FileList(files))|
    ensures forall i :: 0 <= i < |parts| ==> parts[i] == FormidablePart(Present(FileList(files))[i])
  {
    var present := Present(FileList(files));
    seq(|present|, i requires 0 <= i < |present| => FormidablePart(present[i]))
  }

  /** The serverless upload handler: method gate, form parsing, forwarding. */
  function UploadServerless(verb: string, form: FormParse, upstream: UpstreamOutcome): (h: Handled)
    ensures verb == "OPTIONS" ==> h == Handled(Response(200, None), None)
    ensures verb != "OPTIONS" && verb != "POST" ==>
              h == Handled(Response(405, Some(Rejection("Method not allowed"))), None)
    ensures verb == "POST" && form.ParseError? ==> h == Handled(Failure(form.message), None)
    ensures h.outbound.Some? <==> verb == "POST" && form.Parsed?
    ensures h.outbound.Some? ==>
              h.outbound.value == OutboundRequest("POST", ResolveWebhook(form.webhookUrl), ContentTypeMultipart,
                                                  Multipart(FormidableParts(form.files)))
    ensures h.outbound.Some? && upstream.Reply? ==>
              h.response == Response(upstream.status, Some(ParsedBody(upstream.body)))
    ensures h.outbound.Some? && upstream.TransportError? ==> h.response == Failure(upstream.message)
  {
    match MethodGate(verb)
    case Some(early) => Handled(early, None)
    case None =>
      match form
      case ParseError(message) => Handled(Failure(message), None)
      case Parsed(webhookUrl, files) =>
        var request := OutboundRequest("POST", ResolveWebhook(webhookUrl), ContentTypeMultipart,
                                       Multipart(FormidableParts(files)));
        Forward(request, upstream, PassThrough)
  }

  /** When the handler makes no outbound call, its response does not depend
      on what the upstream would have done. */
  lemma UploadServerlessNoCallIgnoresUpstream(verb: string, form: FormParse, u1: UpstreamOutcome, u2: UpstreamOutcome)
    requires UploadServerless(verb, form, u1).outbound.None?
    ensures UploadServerless(verb, form, u2) == UploadServerless(verb, form, u1)
  {
  }

  /** The number of outbound parts is the number of present files, and
      each part carries its file's name and media type, in input order. */
  lemma {:induction false} ServerlessPartsMatchFiles(files: map<string, FileValue>)
    ensures |FormidableParts(files)| == CountPresent(FileList(files))
    ensures forall f :: f in Present(FileList(files)) ==> Some(f) in FileList(files)
    ensures forall i :: 0 <= i < |FormidableParts(files)| ==>
              && FormidableParts(files)[i].name == "file"
              && FormidableParts(files)[i].filename == Present(FileList(files))[i].originalFilename
              && FormidableParts(files)[i].contentType == Present(FileList(files))[i].mimetype
  {
    PresentLength(FileList(files));
    PresentFromInput(FileList(files));
  }

  /** An array of files with holes forwards the present ones only, keeping
      their order: skipping distributes over any split of the array. */
  lemma {:induction false} ServerlessSkipsHoles(a: seq<Option<FormidableFile>>, b: seq<Option<FormidableFile>>)
    ensures FormidableParts(map["file" := Multiple(a + b)]) ==
            FormidableParts(map["file" := Multiple(a)]) + FormidableParts(map["file" := Multiple(b)])
  {
    PresentAppend(a, b);
  }

  /** A single file is forwarded as a one-element list; an absent `file`
      field forwards nothing, but the call is still made. */
  lemma ServerlessSingleAndAbsent(f: FormidableFile, webhookUrl: Option<string>, upstream: UpstreamOutcome)
    ensures FormidableParts(map["file" := Single(f)]) == [FormidablePart(f)]
    ensures var h := UploadServerless("POST", Parsed(webhookUrl, map[]), upstream);
            h.outbound.Some? && h.outbound.value.body == Multipart([])
  {
    var one: seq<Option<FormidableFile>> := [Some(f)];
    assert Present(one) == [f] by {
      assert one[1..] == [];
    }
  }
}
