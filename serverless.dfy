/** The serverless `handler` of `/api/generate`: one chain of guards from the request
    method, the environment, the body and the upstream reply to a status and a JSON body. */
module Serverless {
  import opened Text
  import opened Js
  import opened Api
  import ServerGenerate

  const MethodNotAllowed := "Method not allowed"
  const MissingFields := "Missing required fields. Configure MINIMAX_API_KEY and MINIMAX_API_BASE in Vercel, or provide key/base from client."
  const MissingImage := "MiniMax response missing image_base64 output"
  const UnexpectedError := "Unexpected server error"

  /** `error?.message || 'Unexpected server error'` in the catch block. */
  function CaughtAnswer(message: string): (a: HttpAnswer)
    ensures a.status == 500 && a.body.ErrorBody? && Truthy(a.body.error)
    ensures message != "" ==> a.body.error == Str(message)
  {
    HttpAnswer(500, ErrorBody(Str(if message != "" then message else UnexpectedError)))
  }

  /** The value the handler inspects: element 0 of an `image_base64` array (undefined when
      the array is empty), otherwise `image_base64` itself. */
  function Candidate(payload: Payload): (c: Value)
    ensures payload.data.None? ==> c == Undefined
    ensures payload.data.Some? && payload.data.value.imageBase64.StrArray? ==>
              var items := payload.data.value.imageBase64.items;
              c == if |items| > 0 then Str(items[0]) else Undefined
    ensures payload.data.Some? && !payload.data.value.imageBase64.StrArray? ==> c == payload.data.value.imageBase64
    ensures !c.StrArray?
  {
    match payload.data
    case None => Undefined
    case Some(d) =>
      match d.imageBase64
      case StrArray(items) => if |items| > 0 then Str(items[0]) else Undefined
      case v => v
  }

  /** The image the handler answers 200 with: the candidate, when it is a non-empty string,
      after the inline-image prefix. */
  function ServerlessImage(payload: Payload): (r: Option<string>)
    ensures r.Some? <==> Candidate(payload).Str? && Candidate(payload).s != ""
    ensures r.Some? ==> r.value == ImagePrefix + Candidate(payload).s
  {
    var c := Candidate(payload);
    if c.Str? && c.s != "" then Some(ImagePrefix + c.s) else None
  }

  /** The error reported for a non-ok upstream status: `base_resp.status_msg`, else
      `message`, else `HTTP <status>`, whichever comes first being truthy. Unlike the
      Node server, the raw body is not consulted. */
  function UpstreamError(status: nat, payload: Payload): (e: Value)
    ensures Truthy(e)
    ensures Truthy(payload.statusMsg) ==> e == payload.statusMsg
    ensures !Truthy(payload.statusMsg) && Truthy(payload.message) ==> e == payload.message
    ensures !Truthy(payload.statusMsg) && !Truthy(payload.message) ==> e == Str("HTTP " + NatToString(status))
  {
    Or(payload.statusMsg, Or(payload.message, Str("HTTP " + NatToString(status))))
  }

  /** The answer once the upstream fetch has been made. A rejected fetch is caught and
      answered 500. */
  function UpstreamAnswer(reply: Reply): (a: HttpAnswer)
    ensures a.status == 200 || a.status == 500 || a.status == 502
    ensures reply.NetworkFailure? ==> a == CaughtAnswer(reply.message)
    ensures reply.Response? && !IsOk(reply.status) ==>
              a == HttpAnswer(502, ErrorBody(UpstreamError(reply.status, reply.payload)))
    ensures a.status == 200 <==> reply.Response? && IsOk(reply.status) && ServerlessImage(reply.payload).Some?
    ensures a.status == 200 ==> a.body == ImageBody(ServerlessImage(reply.payload).value)
    ensures reply.Response? && IsOk(reply.status) && ServerlessImage(reply.payload).None? ==>
              a == HttpAnswer(502, ErrorBody(Str(MissingImage)))
  {
    match reply
    case NetworkFailure(msg) => CaughtAnswer(msg)
    case Response(status, payload, _) =>
      if !IsOk(status) then HttpAnswer(502, ErrorBody(UpstreamError(status, payload)))
      else match ServerlessImage(payload)
        case Some(u) => HttpAnswer(200, ImageBody(u))
        case None => HttpAnswer(502, ErrorBody(Str(MissingImage)))
  }

  /** `handler(req, res)`. `body` is the request body after the string case went through
      `JSON.parse` (Err with the parser's message when that threw); `envKey` and `envBase`
      are `MINIMAX_API_KEY` and `MINIMAX_API_BASE`, empty when unset; `reply` is what
      the upstream fetch would return, used only when the fetch is made. */
  function Handler(envKey: string, envBase: string, httpMethod: string, body: Result<Body, string>, reply: Reply): (h: Handled)
    // only POST is served; anything else is 405 and nothing more happens
    ensures httpMethod != "POST" <==> h == Handled(None, HttpAnswer(405, ErrorBody(Str(MethodNotAllowed))))
    ensures httpMethod == "POST" && body.Err? ==> h == Handled(None, CaughtAnswer(body.error))
    // any missing effective field: 400, and no upstream fetch
    ensures httpMethod == "POST" && body.Ok?
            && !AllPresent(Credential(envKey, body.value.apiKey), Credential(envBase, body.value.apiBase), body.value) ==>
              h == Handled(None, HttpAnswer(400, ErrorBody(Str(MissingFields))))
    // the fetch is made exactly when the method is POST and all four fields are present
    ensures h.call.Some? <==>
              httpMethod == "POST" && body.Ok?
              && AllPresent(Credential(envKey, body.value.apiKey), Credential(envBase, body.value.apiBase), body.value)
    // it goes to the effective base's endpoint, with the environment's credentials first
    ensures h.call.Some? ==>
              h.call.value == UpstreamCall(Endpoint(ToText(Credential(envBase, body.value.apiBase))),
                                           Bearer(Credential(envKey, body.value.apiKey)),
                                           body.value.prompt, body.value.imageReference)
    ensures h.call.Some? && envKey != "" ==> h.call.value.authorization == "Bearer " + envKey
    ensures h.call.Some? && envBase != "" ==> h.call.value.endpoint == Endpoint(envBase)
    ensures h.call.Some? ==> h.answer == UpstreamAnswer(reply)
  {
    if httpMethod != "POST" then Handled(None, HttpAnswer(405, ErrorBody(Str(MethodNotAllowed))))
    else match body
      case Err(msg) => Handled(None, CaughtAnswer(msg))
      case Ok(b) =>
        var key := Credential(envKey, b.apiKey);
        var base := Credential(envBase, b.apiBase);
        if !AllPresent(key, base, b) then Handled(None, HttpAnswer(400, ErrorBody(Str(MissingFields))))
        else Handled(Some(UpstreamCall(Endpoint(ToText(base)), Bearer(key), b.prompt, b.imageReference)), UpstreamAnswer(reply))
  }

  /** Whenever the serverless handler finds an inline image, the Node server's
      `extractImageDataUrl` finds the same one; the converse fails exactly when
      `image_base64` is an array whose first element is the empty string, where the
      Node server answers with the bare prefix and the serverless handler with 502. */
  lemma ServerlessAgreesWithServer(payload: Payload)
    ensures ServerlessImage(payload).Some? ==> ServerGenerate.ExtractImageDataUrl(payload) == ServerlessImage(payload)
    ensures ServerGenerate.ExtractImageDataUrl(payload).Some? && ServerlessImage(payload).None? <==>
              payload.data.Some? && payload.data.value.imageBase64.StrArray?
              && |payload.data.value.imageBase64.items| > 0 && payload.data.value.imageBase64.items[0] == ""
  {
  }

  /** The empty-first-element case, concretely: the Node server answers 200 with the bare
      prefix where the serverless handler answers 502. */
  lemma EmptyFirstElement()
    ensures var p := Payload(Some(ImageData(StrArray(["", "AAA"]), Undefined, Undefined)), Undefined, Undefined);
            ServerGenerate.UpstreamAnswer(Response(200, p, "")) == HttpAnswer(200, ImageBody(ImagePrefix))
            && UpstreamAnswer(Response(200, p, "")) == HttpAnswer(502, ErrorBody(Str(MissingImage)))
  {
  }
}
