# Relay and coding mailbox — a Dafny model

This project models the request-handling core of a small HTTP relay that sits
between a browser front end and an n8n workflow:

- **Coding mailbox** (`CodingStore`). The workflow POSTs a "coding" result to
  `/coding` under a session id, or under the default key `latest` when no id is
  given. The front end polls `GET /coding/:sessionId?`. A deposit overwrites
  the slot (last write wins) and then sweeps out every entry stamped more than
  five minutes (300000 ms) before the sweep's clock reading. A poll is a
  destructive single read: a hit answers 200 and deletes the entry, a miss
  answers 404 and changes nothing. The store is an immutable
  `map<string, Entry>`. Each handler is one atomic transition. The clock
  (`Date.now()`) is an explicit parameter. The source reads the clock twice per
  deposit, once to stamp and once to sweep, so the model keeps both readings.
- **Upload relay** (`UploadRelay`). Inbound files go out as one multipart POST,
  every part named `file` and carrying the file's original name and media type.
  The target is the form's `webhookUrl`, or the fixed default webhook when that
  is absent or empty. The relay answers with the upstream status and the
  parsed upstream body, or `{}` when the body is not JSON. A transport error
  becomes a 500 `{success: false, error}`. The Express route takes multer's
  `req.files` as they come. The serverless handler first gates on the method.
  It then reads formidable's `files.file`, treats a single file as a
  one-element list and skips missing entries. A form-parse error becomes a 500
  with no outbound call.
- **Resume relay** (`ResumeRelay`). `data` goes out as a JSON POST to the
  required `resumeUrl`. The relay always answers 200 with
  `{success: true, status, data}`, even when the upstream status is an error
  code. A missing or empty `resumeUrl` is answered 400 with no outbound call.
  A transport error becomes a 500.

Each relay handler returns a `Handled` value: the response sent plus the
outbound request issued, if any (`Option<OutboundRequest>`). So "no call was
made" is a property the model can state. The outcome of the network call is a
parameter: `TransportError(message)` or `Reply(status, body)`, where
`body == None` means the reply was not JSON.

Modules: `Values` (Option, JSON values, JavaScript's `||` on strings, skipping
missing list entries), `Http` (responses, outbound requests, method gate,
reply shaping), `CodingStore`, `UploadRelay`, `ResumeRelay`.

## Model

| member | source | states |
|---|---|---|
| CodingStore.KeyFor | cors-proxy.js:115 | An absent or empty session id selects the key `latest`; any other id is used as given; the key is never empty |
| CodingStore.Sweep | cors-proxy.js:121-127 | After the sweep no entry is older than `now - 300000`; every entry at or after that bound survives unchanged; no key is added |
| CodingStore.SweepInPlace | cors-proxy.js:123-127 | The source's delete-while-iterating pass over the keys leaves exactly the store `Sweep` describes |
| CodingStore.Deposit | cors-proxy.js:115-127 | After a deposit the store is fresh at the sweep reading; the key holds exactly `{coding, storedAt}` iff that stamp is within the TTL of the sweep reading; other keys keep their entry or lose it only when stale |
| CodingStore.Poll | cors-proxy.js:146-162 | A hit iff the key is present, returning its coding and removing only that key; a miss leaves the store identical |
| CodingStore.PostCoding | cors-proxy.js:106-133 | A deposit always answers 200 with the acknowledgement and leaves the store fresh. The resolved key holds exactly the new coding iff its stamp is within the TTL of the sweep reading. Every other key keeps its entry unchanged, loses it only when stale, and no key is added |
| CodingStore.GetCoding | cors-proxy.js:144-163 | A poll answers 200 with the stored coding and consumes it iff the resolved key is present, else 404 `{success:false, message}` with the store unchanged |
| CodingStore.DepositThenPollTwice | cors-proxy.js:114-162 | Deposit, poll, poll on one session yields the payload, then a 404 that leaves the store as it was |
| CodingStore.DefaultKeyRoundTrip | cors-proxy.js:115-146 | A deposit with no session id is read by a poll with no session id |
| CodingStore.NextDepositEvictsStale | cors-proxy.js:122-126 | An entry older than the TTL at the next deposit's sweep is removed, whatever its key |
| CodingStore.SweepTwice | cors-proxy.js:122-126 | Sweeping at `a` then at `b` equals one sweep at the later reading, so the sweep is idempotent |
| CodingStore.PollKeepsOtherEntries | cors-proxy.js:147-152 | A poll keeps every other entry unchanged, stale or not, and preserves freshness |
| CodingStore.LastWriteWins | cors-proxy.js:116-119 | Of two deposits under one key, a poll sees only the later one |
| Values.PresentAppend | api/upload.js:47-48 | Skipping missing files distributes over concatenation, so the kept files keep their input order |
| Values.PresentLength | api/upload.js:47-48 | The number of kept files equals an independent count of the present entries |
| Values.PresentFromInput | api/upload.js:47-48 | Every kept file is a present entry of the input list |
| Values.PresentAllSome | api/upload.js:45-48 | A list with no missing entries is kept whole and in order |
| Http.MethodGate | api/upload.js:17-23 | OPTIONS ends with 200 and an empty body, any method but POST ends with 405 `{error: 'Method not allowed'}`, and only POST goes on |
| UploadRelay.ResolveWebhook | api/upload.js:36 | The target is the `webhookUrl` field when present and non-empty, else the default webhook; never empty |
| UploadRelay.Upload | cors-proxy.js:28-65 | The Express upload always POSTs the multipart parts to the resolved webhook and passes through the upstream status and parsed body, or answers 500 on a transport error |
| UploadRelay.UploadForwardsEveryFile | cors-proxy.js:37-44 | Every received file becomes one part named `file` with its original name, media type and bytes, in order, whatever field it came in |
| UploadRelay.UploadServerless | api/upload.js:11-78 | The gate answers OPTIONS and non-POST; a parse error answers 500 with no call; otherwise exactly one multipart POST to the resolved webhook, with status passthrough or a 500 |
| UploadRelay.UploadServerlessNoCallIgnoresUpstream | api/upload.js:17-34 | When no outbound request is made, the response is independent of any upstream outcome |
| UploadRelay.ServerlessPartsMatchFiles | api/upload.js:45-56 | The number of parts equals the number of present files; each part is named `file` and carries its file's name and media type, in order |
| UploadRelay.ServerlessSkipsHoles | api/upload.js:47-48 | For an array with holes, the parts of a concatenation are the concatenation of the parts |
| UploadRelay.ServerlessSingleAndAbsent | api/upload.js:45 | A single file yields one part; an absent `file` field yields no part, but the POST is still made |
| ResumeRelay.Resume | cors-proxy.js:68-103 | No call and 400 iff `resumeUrl` is missing or empty; otherwise one JSON POST to `resumeUrl`, answered 200 with `{success: true, status, data}` for any reply, or 500 on a transport error |
| ResumeRelay.ResumeServerless | api/resume.js:1-50 | The gate answers OPTIONS and non-POST with no call. A body whose read throws answers 500 with the runtime's message, and an undefined or null body answers 500 with the destructuring error's message, both with no call. Otherwise the resume relay |
| ResumeRelay.MissingUrlMakesNoCall | cors-proxy.js:72-74 | A missing or empty `resumeUrl` answers 400 `{error: 'resumeUrl is required'}` with no outbound request, in both variants |
| ResumeRelay.EnvelopeSuccessIffReply | api/resume.js:33-48 | `success` is true iff the upstream replied at all, regardless of its status; a non-JSON reply gives `data: {}`; a transport error gives 500 |
| ResumeRelay.UnreadableBodyMakesNoCall | api/resume.js:15-16 | A request body the runtime fails to read (malformed JSON, invalid Content-Type) is caught and answered 500 `{success: false, error: message}` with no outbound request |
| ResumeRelay.ResumeServerlessNoCallIgnoresUpstream | api/resume.js:7-20 | When no outbound request is made, the response is independent of any upstream outcome |

## Left out

- HTTP parsing by Express, multer, formidable and Vercel is abstract. Each handler receives what the parser produced, as a datatype; where the parser runs inside the serverless handler's `try`, its failure is an input case too (`ParseError`, `BodyError`). Byte-level multipart encoding is not modelled, and neither is the random boundary that `FormData.getHeaders()` puts in the Content-Type.
- The text `JSON.stringify` produces is not modelled. A JSON outbound body carries the value it serialises. Object key order in responses is not kept, and JSON numbers are integers.
- `fetch` and `response.json()` are replaced by the `UpstreamOutcome` parameter. Timeouts, retries and client disconnects are not modelled.
- `Date.now()` becomes the explicit parameters `storedAt` and `sweptAt`.
- Concurrency is not modelled: each store operation is one atomic transition on an immutable map.
- Static file serving, the `/` and `/health` routes, `app.listen`, port selection, CORS headers and console logging are not modelled. None of them changes a response body or the store. The Express app's preflight answer comes from the `cors` middleware and is not modelled. The serverless method gate is modelled.
- CodingStore.PostCoding: the source's catch block that answers 500 is not modelled. Nothing in the modelled try block can throw: a map write, a loop of deletes, and logging with optional chaining.
- CodingStore.KeyFor: session ids are strings or absent. A truthy non-string `sessionId` in a deposit body would become a non-string Map key that no poll can reach. That case is not modelled.
- UploadRelay.ResolveWebhook: `webhookUrl` is a string or absent. Array-valued form fields, which some formidable versions produce, are not modelled.
- ResumeRelay.Resume: `resumeUrl` is a string or absent. A truthy non-string value would be coerced by `fetch`, and any failure would reach the model as a `TransportError`. The 400 test is modelled for the falsy values a string can take: absent and empty.
- ResumeRelay.ResumeServerless: the runtime parses `req.body` lazily, inside the handler's `try`. A read that throws is modelled as `BodyError(message)`, but the message text is the runtime's and is left as a parameter. A body that is an object is read for its two fields. Any other non-null value (string, number, array) destructures to absent fields, so it arrives as `ResumeBody(None, None)`. An `undefined` or `null` body makes the destructuring throw. The model carries V8's message for each of these two cases; the exact wording is the engine's, not the source's.
- `MAX_FILES`, `MAX_FILE_SIZE` and the other front-end constants in config.js are not enforced by any handler, so they are not modelled.

## Notes on the model

- The TTL comparison is strict: an entry stamped exactly `now - 300000` survives. This matches the code (`timestamp < fiveMinutesAgo`).
- The just-deposited entry survives the deposit's own sweep only if the two clock readings are at most 300000 ms apart. `Deposit` states this as an if-and-only-if. The read-once lemmas assume it.
- A store with no deposits keeps stale entries indefinitely, because a poll never sweeps (`PollKeepsOtherEntries`).
