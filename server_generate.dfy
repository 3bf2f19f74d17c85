/** The `POST /api/generate` branch of the Node server: reading the request body under a
    size limit, choosing credentials, validating the fields, building the endpoint, and
    turning the upstream reply into the answer sent to the browser. */
module ServerGenerate {
  import opened Text
  import opened Js
  import opened Api

  /** Largest request body, in characters, that is read to the end. */
  const MaxBodyChars := 25 * 1024 * 1024

  const BodyTooLarge := "Request body too large"
  const MissingFields := "Missing required fields. Provide prompt/image reference, plus API base and key (or set MINIMAX_API_KEY/MINIMAX_API_BASE on server)."
  const MissingImage := "MiniMax response missing image_base64 output"
  const InvalidRequest := "Invalid request"
  /** The TypeError raised when the effective API base is truthy but not a string, so it
      has no `replace` method. */
  const BaseNotString := "effectiveApiBase.replace is not a function"

  /** The text of the first `n` chunks, `raw` after `n` data events. */
  function Concat(chunks: seq<string>): string
    decreases |chunks|
  {
    if chunks == [] then "" else Concat(chunks[..|chunks| - 1]) + chunks[|chunks| - 1]
  }

  /** Later prefixes of the chunk stream are never shorter. */
  lemma {:induction false} ConcatGrows(chunks: seq<string>, i: nat, j: nat)
    requires i <= j <= |chunks|
    ensures |Concat(chunks[..i])| <= |Concat(chunks[..j])|
    decreases j - i
  {
    if i < j {
      ConcatGrows(chunks, i, j - 1);
      assert chunks[..j][..j - 1] == chunks[..j - 1];
    }
  }

  /** `readJsonBody` up to `JSON.parse`: the chunks are appended one by one, and as soon as
      the text exceeds the limit the body is rejected and no further chunk is read.
      Otherwise the whole text is handed on. */
  method ReadJsonBody(chunks: seq<string>) returns (r: Result<string, string>, consumed: nat)
    ensures consumed <= |chunks|
    ensures r.Ok? <==> |Concat(chunks)| <= MaxBodyChars
    ensures r.Ok? ==> r.value == Concat(chunks) && consumed == |chunks|
    ensures r.Err? ==> r.error == BodyTooLarge
    ensures r.Err? ==> 0 < consumed && |Concat(chunks[..consumed])| > MaxBodyChars
                       && |Concat(chunks[..consumed - 1])| <= MaxBodyChars
  {
    var raw := "";
    var i := 0;
    while i < |chunks|
      invariant 0 <= i <= |chunks|
      invariant raw == Concat(chunks[..i])
      invariant |raw| <= MaxBodyChars
    {
      assert chunks[..i + 1][..i] == chunks[..i];
      raw := raw + chunks[i];
      i := i + 1;
      if |raw| > MaxBodyChars {
        ConcatGrows(chunks, i, |chunks|);
        assert chunks[..|chunks|] == chunks;
        return Err(BodyTooLarge), i;
      }
    }
    assert chunks[..i] == chunks;
    return Ok(raw), i;
  }

  /** `extractImageDataUrl`: only `image_base64` is looked at, a non-empty array before a
      non-empty string; hosted URLs are never returned. */
  function ExtractImageDataUrl(payload: Payload): (r: Option<string>)
    ensures r.Some? ==> StartsWith(r.value, ImagePrefix)
    ensures payload.data.None? ==> r == None
    ensures payload.data.Some? && payload.data.value.imageBase64.StrArray? ==>
              var items := payload.data.value.imageBase64.items;
              r == if |items| > 0 then Some(ImagePrefix + items[0]) else None
    ensures payload.data.Some? && payload.data.value.imageBase64.Str? ==>
              var s := payload.data.value.imageBase64.s;
              r == if s != "" then Some(ImagePrefix + s) else None
    ensures payload.data.Some? && !payload.data.value.imageBase64.StrArray? && !payload.data.value.imageBase64.Str? ==>
              r == None
  {
    match payload.data
    case None => None
    case Some(d) =>
      if d.imageBase64.StrArray? && |d.imageBase64.items| > 0 then Some(ImagePrefix + d.imageBase64.items[0])
      else if d.imageBase64.Str? && d.imageBase64.s != "" then Some(ImagePrefix + d.imageBase64.s)
      else None
  }

  /** Hosted-URL fields never change what `extractImageDataUrl` returns. */
  lemma ExtractIgnoresUrls(data: ImageData, urls: Value, url: Value, statusMsg: Value, message: Value)
    ensures ExtractImageDataUrl(Payload(Some(data), statusMsg, message))
         == ExtractImageDataUrl(Payload(Some(ImageData(data.imageBase64, urls, url)), Undefined, Undefined))
  {
  }

  /** The error reported for a non-ok upstream status: `base_resp.status_msg`, else
      `message`, else the raw body, else `Upstream error <status>`, whichever comes first
      being truthy. */
  function UpstreamError(status: nat, payload: Payload, raw: string): (e: Value)
    ensures Truthy(e)
    ensures Truthy(payload.statusMsg) ==> e == payload.statusMsg
    ensures !Truthy(payload.statusMsg) && Truthy(payload.message) ==> e == payload.message
    ensures !Truthy(payload.statusMsg) && !Truthy(payload.message) && raw != "" ==> e == Str(raw)
    ensures !Truthy(payload.statusMsg) && !Truthy(payload.message) && raw == "" ==>
              e == Str("Upstream error " + NatToString(status))
  {
    Or(payload.statusMsg, Or(payload.message, Or(Str(raw), Str("Upstream error " + NatToString(status)))))
  }

  /** The answer once the upstream call has been made. A transport failure rejects the
      promise and lands in the handler's catch, which answers 400. */
  function UpstreamAnswer(reply: Reply): (a: HttpAnswer)
    ensures a.status == 200 || a.status == 400 || a.status == 502
    ensures reply.Response? && !IsOk(reply.status) ==>
              a == HttpAnswer(502, ErrorBody(UpstreamError(reply.status, reply.payload, reply.raw)))
    ensures a.status == 200 <==> reply.Response? && IsOk(reply.status) && ExtractImageDataUrl(reply.payload).Some?
    ensures a.status == 200 ==> a.body == ImageBody(ExtractImageDataUrl(reply.payload).value)
    ensures reply.Response? && IsOk(reply.status) && ExtractImageDataUrl(reply.payload).None? ==>
              a == HttpAnswer(502, ErrorBody(Str(MissingImage)))
    ensures reply.NetworkFailure? ==> a.status == 400
    // the catch answers with the error's message, or `Invalid request` when it has none
    ensures reply.NetworkFailure? ==>
              a == HttpAnswer(400, ErrorBody(Str(if reply.message != "" then reply.message else InvalidRequest)))
  {
    match reply
    case NetworkFailure(msg) => HttpAnswer(400, ErrorBody(Str(if msg != "" then msg else InvalidRequest)))
    case Response(status, payload, raw) =>
      if !IsOk(status) then HttpAnswer(502, ErrorBody(UpstreamError(status, payload, raw)))
      else match ExtractImageDataUrl(payload)
        case None => HttpAnswer(502, ErrorBody(Str(MissingImage)))
        case Some(u) => HttpAnswer(200, ImageBody(u))
  }

  /** The `/api/generate` branch. `read` is the outcome of `readJsonBody` (the parsed body,
      or the message it was rejected with); `reply` is what the upstream POST would
      return, used only when that POST is made. `serverKey` and `serverBase` are
      `MINIMAX_API_KEY` and `MINIMAX_API_BASE`, empty when unset. */
  function HandleGenerate(serverKey: string, serverBase: string, read: Result<Body, string>, reply: Reply): (h: Handled)
    // a body that could not be read is answered 400 with its message
    ensures read.Err? ==> h.call == None && h.answer.status == 400
    ensures read.Err? ==>
              h.answer.body == ErrorBody(Str(if read.error != "" then read.error else InvalidRequest))
    // any missing effective field: 400, and no upstream call
    ensures read.Ok? && !AllPresent(Credential(serverKey, read.value.apiKey), Credential(serverBase, read.value.apiBase), read.value) ==>
              h == Handled(None, HttpAnswer(400, ErrorBody(Str(MissingFields))))
    // the upstream is called exactly when all four fields are present and the base is a string
    ensures h.call.Some? <==>
              read.Ok? && AllPresent(Credential(serverKey, read.value.apiKey), Credential(serverBase, read.value.apiBase), read.value)
              && Credential(serverBase, read.value.apiBase).Str?
    // a present base that is not a string makes `replace` throw: 400 with that TypeError
    ensures read.Ok? && AllPresent(Credential(serverKey, read.value.apiKey), Credential(serverBase, read.value.apiBase), read.value)
            && !Credential(serverBase, read.value.apiBase).Str? ==>
              h == Handled(None, HttpAnswer(400, ErrorBody(Str(BaseNotString))))
    // the call goes to the effective base's generation endpoint with the effective key
    ensures h.call.Some? ==>
              h.call.value == UpstreamCall(Endpoint(Credential(serverBase, read.value.apiBase).s),
                                           Bearer(Credential(serverKey, read.value.apiKey)),
                                           read.value.prompt, read.value.imageReference)
    // server-held credentials override the client's
    ensures h.call.Some? && serverKey != "" ==> h.call.value.authorization == "Bearer " + serverKey
    ensures h.call.Some? && serverBase != "" ==> h.call.value.endpoint == Endpoint(serverBase)
    // once the call is made, the answer is decided by the upstream reply alone
    ensures h.call.Some? ==> h.answer == UpstreamAnswer(reply)
    ensures h.call.None? ==> h.answer.status == 400
  {
    match read
    case Err(msg) => Handled(None, HttpAnswer(400, ErrorBody(Str(if msg != "" then msg else InvalidRequest))))
    case Ok(body) =>
      var key := Credential(serverKey, body.apiKey);
      var base := Credential(serverBase, body.apiBase);
      if !AllPresent(key, base, body) then Handled(None, HttpAnswer(400, ErrorBody(Str(MissingFields))))
      else if !base.Str? then Handled(None, HttpAnswer(400, ErrorBody(Str(BaseNotString))))
      else Handled(Some(UpstreamCall(Endpoint(base.s), Bearer(key), body.prompt, body.imageReference)), UpstreamAnswer(reply))
  }

  /** When no upstream call is made, the answer does not depend on what the upstream
      would have said. */
  lemma NoCallIgnoresReply(serverKey: string, serverBase: string, read: Result<Body, string>, r1: Reply, r2: Reply)
    requires HandleGenerate(serverKey, serverBase, read, r1).call.None?
    ensures HandleGenerate(serverKey, serverBase, read, r1) == HandleGenerate(serverKey, serverBase, read, r2)
  {
  }
}
