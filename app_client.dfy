/** One generation attempt in the browser: the call to the local proxy, the fallback
    classifier, and the direct call to the upstream API with its response normalisation. */
module AppClient {
  import opened Text
  import opened Js
  import opened Api
  import ServerGenerate

  /** What the browser reads from `/api/generate`: `error`, `message`, `imageDataUrl`. A
      body that is not valid JSON is the payload whose fields are all missing. */
  datatype ProxyPayload = ProxyPayload(error: Value, message: Value, imageDataUrl: Value)

  /** The outcome of the fetch to the local proxy. */
  datatype ProxyReply =
    | ProxyResponse(status: nat, payload: ProxyPayload)
    | ProxyNetworkFailure(message: string)

  /** The outcome of one request: the image reference it resolved to, or the message of
      the error it threw. */
  datatype Outcome = Success(image: Value) | Failure(message: string)

  const NoProxyImage := "No image returned from local generation API."
  const NoDirectData := "No image returned from MiniMax API."
  const UnsupportedFormat := "Unsupported MiniMax image response format."

  /** `HTTP ${response.status}` */
  function HttpStatusText(status: nat): string {
    "HTTP " + NatToString(status)
  }

  /** `requestViaLocalProxy`: a non-ok status throws `error`, else `message`, else the
      status text; an ok reply must carry a non-empty `imageDataUrl` string. */
  function ViaLocalProxy(reply: ProxyReply): (o: Outcome)
    ensures reply.ProxyNetworkFailure? ==> o == Failure(reply.message)
    ensures reply.ProxyResponse? && !IsOk(reply.status) ==>
              o == Failure(ToText(Or(reply.payload.error, Or(reply.payload.message, Str(HttpStatusText(reply.status))))))
    ensures o.Success? <==>
              reply.ProxyResponse? && IsOk(reply.status)
              && reply.payload.imageDataUrl.Str? && reply.payload.imageDataUrl.s != ""
    ensures o.Success? ==> o.image == reply.payload.imageDataUrl
    ensures reply.ProxyResponse? && IsOk(reply.status) && o.Failure? ==> o.message == NoProxyImage
  {
    match reply
    case ProxyNetworkFailure(msg) => Failure(msg)
    case ProxyResponse(status, p) =>
      if !IsOk(status) then Failure(ToText(Or(p.error, Or(p.message, Str(HttpStatusText(status))))))
      else if p.imageDataUrl.Str? && p.imageDataUrl.s != "" then Success(p.imageDataUrl)
      else Failure(NoProxyImage)
  }

  /** The normalisation in `requestDirectMiniMax`, in its order of precedence: a non-empty
      `image_base64` array, a non-empty `image_base64` string, a non-empty `image_urls`
      array, a truthy `image_url` (returned as it is). None when no branch applies. */
  function DirectImage(d: ImageData): (r: Option<Value>)
    ensures d.imageBase64.StrArray? && |d.imageBase64.items| > 0 ==>
              r == Some(Str(ImagePrefix + d.imageBase64.items[0]))
    ensures !(d.imageBase64.StrArray? && |d.imageBase64.items| > 0) && d.imageBase64.Str? && d.imageBase64.s != "" ==>
              r == Some(Str(ImagePrefix + d.imageBase64.s))
    ensures !HasBase64(d) && d.imageUrls.StrArray? && |d.imageUrls.items| > 0 ==>
              r == Some(Str(d.imageUrls.items[0]))
    ensures !HasBase64(d) && !(d.imageUrls.StrArray? && |d.imageUrls.items| > 0) ==>
              r == (if Truthy(d.imageUrl) then Some(d.imageUrl) else None)
  {
    if d.imageBase64.StrArray? && |d.imageBase64.items| > 0 then Some(Str(ImagePrefix + d.imageBase64.items[0]))
    else if d.imageBase64.Str? && d.imageBase64.s != "" then Some(Str(ImagePrefix + d.imageBase64.s))
    else if d.imageUrls.StrArray? && |d.imageUrls.items| > 0 then Some(Str(d.imageUrls.items[0]))
    else if Truthy(d.imageUrl) then Some(d.imageUrl)
    else None
  }

  /** `image_base64` holds something the first two branches accept. */
  predicate HasBase64(d: ImageData) {
    (d.imageBase64.StrArray? && |d.imageBase64.items| > 0) || (d.imageBase64.Str? && d.imageBase64.s != "")
  }

  /** `requestDirectMiniMax` once its fetch has answered. */
  function DirectMiniMax(reply: Reply): (o: Outcome)
    ensures reply.NetworkFailure? ==> o == Failure(reply.message)
    ensures reply.Response? && !IsOk(reply.status) ==>
              o == Failure(ToText(Or(reply.payload.statusMsg, Or(reply.payload.message, Str(HttpStatusText(reply.status))))))
    ensures reply.Response? && IsOk(reply.status) && reply.payload.data.None? ==> o == Failure(NoDirectData)
    ensures reply.Response? && IsOk(reply.status) && reply.payload.data.Some? ==>
              o == match DirectImage(reply.payload.data.value)
                   case Some(image) => Success(image)
                   case None => Failure(UnsupportedFormat)
  {
    match reply
    case NetworkFailure(msg) => Failure(msg)
    case Response(status, p, _) =>
      if !IsOk(status) then Failure(ToText(Or(p.statusMsg, Or(p.message, Str(HttpStatusText(status))))))
      else match p.data
        case None => Failure(NoDirectData)
        case Some(d) =>
          match DirectImage(d)
          case Some(image) => Success(image)
          case None => Failure(UnsupportedFormat)
  }

  /** The fallback classifier: the lower-cased proxy error says the local endpoint is not
      there (`404`, `failed to fetch`, `load failed`, `network`). */
  predicate BackendMissing(message: string) {
    var m := Lower(message);
    Contains(m, "404") || Contains(m, "failed to fetch") || Contains(m, "load failed") || Contains(m, "network")
  }

  /** The classifier lower-cases the message first, so its letter case never matters. */
  lemma BackendMissingIgnoresCase(message: string)
    ensures BackendMissing(Lower(message)) == BackendMissing(message)
  {
    LowerIdempotent(message);
  }

  /** The direct call carries the client's own credentials; unlike the servers, the base
      is used as it is, without removing a trailing slash. */
  function DirectCall(apiKey: string, apiBase: string, prompt: string, imageReference: string): (c: UpstreamCall)
    ensures StartsWith(c.endpoint, apiBase) && EndsWith(c.endpoint, GenerationPath)
    ensures |c.endpoint| == |apiBase| + |GenerationPath|
    ensures c.authorization == "Bearer " + apiKey
    ensures c.prompt == Str(prompt) && c.imageReference == Str(imageReference)
  {
    UpstreamCall(apiBase + GenerationPath, "Bearer " + apiKey, Str(prompt), Str(imageReference))
  }

  /** The browser's direct endpoint is the servers' endpoint exactly when the base has no
      trailing slash; with one, the browser keeps it and the two differ. */
  lemma DirectEndpointAgrees(apiKey: string, apiBase: string, prompt: string, imageReference: string)
    ensures DirectCall(apiKey, apiBase, prompt, imageReference).endpoint == Endpoint(apiBase)
            <==> !EndsWith(apiBase, "/")
  {
  }

  /** One attempt: its outcome and the direct call it fell back to, if any. */
  datatype Attempt = Attempt(outcome: Outcome, direct: Option<UpstreamCall>)

  /** `requestStyleAvatar`: the proxy first; the direct call only when the proxy error is
      classified as a missing backend, otherwise the proxy error propagates. `direct` is
      what the direct fetch would return, used only when it is made. */
  function RequestStyleAvatar(prompt: string, imageReference: string, apiKey: string, apiBase: string,
                              proxy: ProxyReply, direct: Reply): (a: Attempt)
    ensures a.direct.Some? <==> ViaLocalProxy(proxy).Failure? && BackendMissing(ViaLocalProxy(proxy).message)
    ensures a.direct.None? ==> a.outcome == ViaLocalProxy(proxy)
    ensures a.direct.Some? ==> a.outcome == DirectMiniMax(direct)
                               && a.direct.value == DirectCall(apiKey, apiBase, prompt, imageReference)
  {
    var p := ViaLocalProxy(proxy);
    if p.Failure? && BackendMissing(p.message) then
      Attempt(DirectMiniMax(direct), Some(DirectCall(apiKey, apiBase, prompt, imageReference)))
    else Attempt(p, None)
  }

  /** A plain static server answers `/api/generate` with 404 and a body that is not JSON;
      the browser then reads `HTTP 404` and falls back to the direct call. */
  lemma StaticServer404FallsBack(prompt: string, imageReference: string, apiKey: string, apiBase: string, direct: Reply)
    ensures var empty := ProxyPayload(Undefined, Undefined, Undefined);
            RequestStyleAvatar(prompt, imageReference, apiKey, apiBase, ProxyResponse(404, empty), direct)
              == Attempt(DirectMiniMax(direct), Some(DirectCall(apiKey, apiBase, prompt, imageReference)))
  {
    var empty := ProxyPayload(Undefined, Undefined, Undefined);
    ThreeDigits(404);
    assert HttpStatusText(404) == "HTTP 404";
    assert ViaLocalProxy(ProxyResponse(404, empty)) == Failure("HTTP 404");
    assert Lower("HTTP 404")[5..8] == "404";
    ContainsAt(Lower("HTTP 404"), "404", 5);
  }

  /** A proxy that is up and rejects the request with an error that does not look like a
      missing backend is never bypassed. */
  lemma ProxyErrorPropagates(prompt: string, imageReference: string, apiKey: string, apiBase: string,
                             proxy: ProxyReply, direct: Reply)
    requires ViaLocalProxy(proxy).Failure? && !BackendMissing(ViaLocalProxy(proxy).message)
    ensures RequestStyleAvatar(prompt, imageReference, apiKey, apiBase, proxy, direct) == Attempt(ViaLocalProxy(proxy), None)
  {
  }

  /** The direct path finds the same inline image as the proxy path: whenever the Node
      server's `extractImageDataUrl` finds base64 output in the upstream data, the direct
      normalisation yields exactly that data URL; when the server finds none, the direct
      call can only succeed with a hosted URL. */
  lemma DirectMatchesServerImage(d: ImageData, statusMsg: Value, message: Value)
    ensures var server := ServerGenerate.ExtractImageDataUrl(Payload(Some(d), statusMsg, message));
            server.Some? ==> DirectImage(d) == Some(Str(server.value))
    ensures var server := ServerGenerate.ExtractImageDataUrl(Payload(Some(d), statusMsg, message));
            server.None? && DirectImage(d).Some? ==>
              !HasBase64(d) && (DirectImage(d) == Some(d.imageUrl) || DirectImage(d) == Some(Str(d.imageUrls.items[0])))
  {
  }

  /** How the browser reads what the Node server answered. */
  function ProxyReplyOf(a: HttpAnswer): ProxyReply {
    match a.body
    case ErrorBody(e) => ProxyResponse(a.status, ProxyPayload(e, Undefined, Undefined))
    case ImageBody(u) => ProxyResponse(a.status, ProxyPayload(Undefined, Undefined, Str(u)))
  }

  /** Through the Node server, a 200 answer reaches the browser as that very image, and
      every other answer reaches it as an error carrying the server's `error` text. */
  lemma ProxyThroughServer(serverKey: string, serverBase: string, read: Result<Body, string>, reply: Reply)
    ensures var a := ServerGenerate.HandleGenerate(serverKey, serverBase, read, reply).answer;
            a.status == 200 ==> a.body.ImageBody? && ViaLocalProxy(ProxyReplyOf(a)) == Success(Str(a.body.imageDataUrl))
    ensures var a := ServerGenerate.HandleGenerate(serverKey, serverBase, read, reply).answer;
            a.status != 200 ==> a.body.ErrorBody? && ViaLocalProxy(ProxyReplyOf(a)) == Failure(ToText(a.body.error))
  {
  }

  /** A hosted URL is returned only when no inline base64 output is present. */
  lemma HostedUrlOnlyWithoutBase64(d: ImageData)
    requires DirectImage(d).Some? && !(DirectImage(d).value.Str? && StartsWith(DirectImage(d).value.s, ImagePrefix))
    ensures !HasBase64(d)
  {
  }
}
