/** What the three request paths share: the image-generation API's reply as the decision
    rules see it, the request body of `POST /api/generate`, the upstream call a handler
    makes, and the JSON answer it sends back. */
module Api {
  import opened Text
  import opened Js

  /** Prefix of every inline image reference the code builds. */
  const ImagePrefix := "data:image/png;base64,"

  /** Path appended to the API base to reach the generation endpoint. */
  const GenerationPath := "/image_generation"

  /** The `data` object of an upstream reply: `image_base64`, `image_urls`, `image_url`. */
  datatype ImageData = ImageData(imageBase64: Value, imageUrls: Value, imageUrl: Value)

  /** The parsed upstream body: `data` (None when missing, null or otherwise falsy),
      `base_resp.status_msg` and `message`. A body that is not valid JSON is the payload
      whose fields are all missing. */
  datatype Payload = Payload(data: Option<ImageData>, statusMsg: Value, message: Value)

  /** The outcome of one POST to the upstream API: a response with its status, parsed
      body and raw text, or a transport failure with its error message. */
  datatype Reply =
    | Response(status: nat, payload: Payload, raw: string)
    | NetworkFailure(message: string)

  /** `res.ok` / `statusCode >= 200 && statusCode < 300` */
  predicate IsOk(status: int) {
    200 <= status < 300
  }

  /** A status is ok exactly when its hundreds digit is 2: 200 and 299 are, 199 and 300
      are not. */
  lemma OkIsTwoHundreds(status: nat)
    ensures IsOk(status) <==> status / 100 == 2
    ensures IsOk(200) && IsOk(299) && !IsOk(199) && !IsOk(300)
  {
  }

  /** `${base.replace(/\/$/, '')}/image_generation`: at most one trailing slash is
      removed before the path is appended. */
  function Endpoint(base: string): (r: string)
    ensures EndsWith(base, "/") ==> r == base[..|base| - 1] + GenerationPath
    ensures !EndsWith(base, "/") ==> r == base + GenerationPath
  {
    (if |base| > 0 && base[|base| - 1] == '/' then base[..|base| - 1] else base) + GenerationPath
  }

  /** A base given with or without its trailing slash reaches the same endpoint, but a
      second trailing slash is kept. */
  lemma EndpointSlash(base: string)
    ensures Endpoint(base + "/") == base + GenerationPath
    ensures !EndsWith(base, "/") ==> Endpoint(base + "/") == Endpoint(base)
    ensures Endpoint(base + "//") == base + "/" + GenerationPath
  {
    assert (base + "/")[..|base|] == base;
    assert (base + "//")[..|base| + 1] == base + "/";
  }

  /** The JSON body of `POST /api/generate`: `apiKey`, `apiBase`, `prompt`, `imageReference`. */
  datatype Body = Body(apiKey: Value, apiBase: Value, prompt: Value, imageReference: Value)

  /** The upstream POST a handler makes: where it goes, its `Authorization` header, and
      the prompt and reference image it forwards. Model, aspect ratio and response format
      are fixed constants of the request and are not recorded. */
  datatype UpstreamCall = UpstreamCall(endpoint: string, authorization: string, prompt: Value, imageReference: Value)

  /** The JSON a handler answers with: `{error}` or `{imageDataUrl}`. */
  datatype JsonBody = ErrorBody(error: Value) | ImageBody(imageDataUrl: string)

  datatype HttpAnswer = HttpAnswer(status: nat, body: JsonBody)

  /** What one request did: the upstream call it made, if any, and its answer. */
  datatype Handled = Handled(call: Option<UpstreamCall>, answer: HttpAnswer)

  /** `configured || supplied`: a non-empty configured value wins over the client's. */
  function Credential(configured: string, supplied: Value): (v: Value)
    ensures configured != "" ==> v == Str(configured)
    ensures configured == "" ==> v == supplied
  {
    if configured != "" then Str(configured) else supplied
  }

  /** `Bearer ${key}` */
  function Bearer(key: Value): string {
    "Bearer " + ToText(key)
  }

  /** `!key || !base || !prompt || !imageReference` is false. */
  predicate AllPresent(key: Value, base: Value, body: Body) {
    Truthy(key) && Truthy(base) && Truthy(body.prompt) && Truthy(body.imageReference)
  }
}
