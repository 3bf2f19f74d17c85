# Professional Avatar Creator — decision rules in Dafny

The Professional Avatar Creator turns one uploaded photo into four styled headshots. The
browser sends one request per style to an image-generation API (MiniMax `image_generation`).
It goes through a local Node proxy (`server.js`) or a serverless function
(`api/generate.js`), and falls back to a direct call when neither is there.

This project models the deterministic rules inside that I/O glue. Every network reply,
file read and image load is an input value. The model covers:

- the retry policy per style;
- the proxy-to-direct fallback, and the three normalisations of the upstream response;
- the batch loop over the four styles;
- the upload check;
- request validation and credential precedence in both back ends, and the status codes
  they answer with;
- the request-body size guard;
- static-path sanitisation and the containment guard;
- the content-type lookup.

Modules follow the source files:

| module | file | what |
|---|---|---|
| `Text` | — | ASCII lower-casing, `startsWith`/`endsWith`/`includes`, `String(n)`, `join` |
| `Js` | — | `Option`/`Result`, the JSON value model (missing / string / array of strings / other), truthiness, `String(v)`, `||` |
| `Api` | shared | upstream reply and payload, request body, upstream call, JSON answer, endpoint construction, credential choice |
| `ServerGenerate` | `server.js` | `readJsonBody` size guard, `extractImageDataUrl`, the `/api/generate` branch |
| `ServerStatic` | `server.js` | routing order, path sanitisation, containment guard, MIME lookup, `sendFile` |
| `Serverless` | `api/generate.js` | `handler` as a function from inputs to (upstream call, status, body) |
| `AppClient` | `public/app.js` | `requestViaLocalProxy`, `requestDirectMiniMax`, `requestStyleAvatar` |
| `AppRetry` | `public/app.js` | `requestStyleAvatarWithRetry` as a loop over given attempt outcomes, recording its waits |
| `AppSession` | `public/app.js` | the style catalog, `useFile`, the `generateAvatars` loop, the `selectedFile`/`isGenerating` state |

Two modelling choices run through the project:

- **Method proved against a function.** Each imperative part of the source is a method
  whose `ensures` ties its result to a specification function. This applies to the retry
  loop, the batch loop, the body reader and the session class. The properties the source
  promises are then lemmas about that function.
- **Segment stand-in for Node paths.** `path.normalize` and `path.resolve` are modelled on
  sequences of path segments, by a stack-based resolver with POSIX rules.

## Model

| member | source | states |
|---|---|---|
| Api.Endpoint | server.js:179 | the endpoint is the base with at most one trailing `/` removed, followed by `/image_generation` |
| Api.EndpointSlash | api/generate.js:22 | a base with or without one trailing slash reaches the same endpoint; a second trailing slash is kept |
| Api.OkIsTwoHundreds | server.js:99 | `IsOk`, the ok-status rule the Node server's `postJson` applies and the browser reads as `response.ok` (public/app.js:284, 322), holds exactly for the statuses whose hundreds digit is 2: 200 and 299 are ok, 199 and 300 are not |
| Api.Credential | server.js:164-166 | a non-empty server-held value wins over the client's; an empty one leaves the client's value |
| ServerGenerate.ReadJsonBody | server.js:47-56 | chunks are appended in order; the body is accepted iff the whole text is at most 25×1024×1024 characters; otherwise `Request body too large`, and reading stops at the first chunk that crosses the limit (the socket is then destroyed, so the client sees a reset rather than the 400 text) |
| ServerGenerate.ExtractImageDataUrl | server.js:114-127 | a non-empty `image_base64` array gives the prefix plus element 0, else a non-empty string gives the prefix plus the string, else nothing; every result carries the inline-image prefix |
| ServerGenerate.ExtractIgnoresUrls | server.js:114-127 | hosted-URL fields and the status texts never change what is extracted |
| ServerGenerate.UpstreamError | server.js:199-204 | the error is the first truthy of `base_resp.status_msg`, `message`, raw body, `Upstream error <code>`, and is always truthy |
| ServerGenerate.UpstreamAnswer | server.js:199-223 | non-ok upstream gives 502 with that error; ok gives 200 exactly when an image was extracted, else 502 `missing image_base64`; a transport failure lands in the catch and gives 400 with the error's message, or `Invalid request` when it has none |
| ServerGenerate.HandleGenerate | server.js:161-223 | an unreadable body gives 400 with its rejection message (or `Invalid request`) and no upstream call; a missing field gives 400 with no upstream call; the upstream is called iff all four fields are present and the base is a string, to `Endpoint(base)` with `Bearer <key>`; a present non-string base gives 400 with the `replace` TypeError; server credentials override; after a call the answer depends on the reply alone |
| ServerGenerate.NoCallIgnoresReply | server.js:168-177 | when no upstream call is made, the answer does not depend on the upstream reply |
| ServerStatic.RouteOf | server.js:129-161 | routes are tried in the order `/healthz`, `/`, `/api/health`, `POST /api/generate`; the index is chosen iff the pathname is `/` and the health answer iff it is `/api/health`; everything else is a static lookup |
| ServerStatic.GetGenerateIsStatic | server.js:161 | a non-POST `/api/generate` falls through to the static lookup |
| ServerStatic.StripLeadingSlashes | server.js:227 | exactly the leading run of `/` is removed |
| ServerStatic.StripParents | server.js:228 | exactly the leading run of `..` segments is removed: every removed segment is `..`, and what remains is a suffix that does not start with one |
| ServerStatic.ServeStatic | server.js:227-235 | a served file is the resolved request path and lies inside the public directory; below a canonical public directory every pathname is served, as the directory followed by the cleaned request's names |
| ServerStatic.RequestPathCanonical | server.js:227-228 | after both strips and normalisation the request path is relative and contains only names (no `..`, `.` or empty segment) |
| ServerStatic.ResolvesBelow | server.js:227-235 | for any pathname the cleaned request has only names, resolving it appends them to the public directory, and the guard lets the result through |
| ServerStatic.GuardAdmits | server.js:231 | every path whose segments extend the public directory's passes the guard |
| ServerStatic.GuardConfines | server.js:231 | every path passing the guard has the public directory's segments as a prefix |
| ServerStatic.GuardExact | server.js:231 | the guard holds iff the directory's segments are a prefix of the file's |
| ServerStatic.TraversalStaysInside | server.js:227-229 | `/../../<a>/<b>` resolves to `<a>/<b>` inside the public directory |
| ServerStatic.AbsoluteRequestForbidden | server.js:227-235 | were the leading slashes kept, `//<a>/<b>` would resolve outside the directory and fail the guard |
| ServerStatic.StaticNeverForbidden | server.js:227-237 | a static request is answered 200 with the file or 404, never 403 |
| ServerStatic.LastIndex | server.js:40 | the last position holding the character, or -1 when there is none |
| ServerStatic.ExtName | server.js:40 | the extension is non-empty iff the base name's last `.` is past its first character (and the name is not `..`); it then runs from that last `.` to the end of the base name, holds no other `.`, and is a suffix of the path |
| ServerStatic.ExtNameOfStem | server.js:40 | `<dir>/<name><ext>` with a one-dot extension, whatever dots `name` holds, has extension `ext` |
| ServerStatic.ContentType | server.js:40-41 | the lower-cased extension's table entry when it has one, else `application/octet-stream` |
| ServerStatic.DefaultOnlyWhenUnlisted | server.js:20-41 | the content type is `application/octet-stream` iff the lower-cased extension is not in the table |
| ServerStatic.KnownExtension | server.js:20-41 | `<dir>/<name><ext>` with an extension from the table, in any letter case, gets that table entry, also when `name` has dots of its own (`app.min.js`) |
| ServerStatic.DefaultForDotlessOrDotfile | server.js:40-41 | a name without a dot, or a dotfile, is sent as `application/octet-stream` |
| ServerStatic.SendFile | server.js:32-45 | a failed read gives 404 `Not found` as plain text; a successful read gives 200 with the file's content type and the data unchanged |
| ServerStatic.StaticAnswerOf | server.js:227-237 | the answer is 200, 403 or 404; a 403 is the plain-text `Forbidden`; below a canonical public directory it is `sendFile` of the directory followed by the cleaned request's names |
| Serverless.Candidate | api/generate.js:50-53 | without `data` the candidate is undefined; for an array it is element 0 (undefined when empty); otherwise `image_base64` itself; never an array |
| Serverless.CaughtAnswer | api/generate.js:61-63 | a thrown error gives 500 with a truthy error text: the error's message when it has one |
| Serverless.ServerlessImage | api/generate.js:50-58 | the candidate is element 0 of an `image_base64` array, else `image_base64` itself; there is an image iff the candidate is a non-empty string, and it is the prefix plus the candidate |
| Serverless.UpstreamError | api/generate.js:44-47 | the error is the first truthy of `base_resp.status_msg`, `message`, `HTTP <status>` |
| Serverless.UpstreamAnswer | api/generate.js:43-62 | non-ok gives 502 with that error; ok gives 200 iff there is an image, else 502; a rejected fetch gives 500 |
| Serverless.Handler | api/generate.js:1-64 | non-POST iff 405 with nothing else done; a body that fails to parse gives 500; a missing field gives 400; the fetch is made iff POST, the body parses and all fields are present; environment credentials override the body's |
| Serverless.ServerlessAgreesWithServer | api/generate.js:50-58 | an image found by the serverless handler is the one the Node server finds; they differ exactly on an array whose first element is `""` |
| Serverless.EmptyFirstElement | api/generate.js:50-60 | on `image_base64: ["", …]` the Node server answers 200 with the bare prefix and the serverless handler answers 502 |
| AppClient.ViaLocalProxy | public/app.js:283-293 | non-ok throws the first truthy of `error`, `message`, `HTTP <status>`; ok succeeds iff `imageDataUrl` is a non-empty string, which is returned as it is |
| AppClient.DirectImage | public/app.js:332-346 | precedence: non-empty base64 array, then non-empty base64 string (both with the prefix), then first hosted URL, then a truthy `image_url` |
| AppClient.DirectMiniMax | public/app.js:321-348 | non-ok throws the first truthy of `status_msg`, `message`, `HTTP <status>`; missing `data` and an unmatched format each throw their own message |
| AppClient.BackendMissingIgnoresCase | public/app.js:232-237 | the missing-backend classifier lower-cases first, so the message's letter case never changes its verdict |
| AppClient.DirectCall | public/app.js:301-314 | the direct request goes to the base followed by `/image_generation`, with no slash removed, carries `Bearer <key>` and sends the style's prompt and the reference image |
| AppClient.DirectEndpointAgrees | public/app.js:301 | the direct endpoint equals the servers' endpoint iff the base has no trailing slash |
| AppClient.RequestStyleAvatar | public/app.js:228-243 | the direct call is made iff the proxy failed with a message containing `404`, `failed to fetch`, `load failed` or `network`; otherwise the proxy's outcome is returned |
| AppClient.StaticServer404FallsBack | public/app.js:232-241 | a plain static server's 404 without a JSON body makes the browser fall back to the direct call |
| AppClient.ProxyErrorPropagates | public/app.js:238-240 | a proxy error that does not look like a missing backend is rethrown unchanged, with no direct call |
| AppClient.DirectMatchesServerImage | public/app.js:332-338 | whenever the Node server extracts an inline image, the direct path yields the same data URL; otherwise the direct path can only succeed with a hosted URL |
| AppClient.ProxyThroughServer | public/app.js:283-293 | through the Node server, a 200 reaches the browser as that image and every other answer as an error with the server's `error` text |
| AppClient.HostedUrlOnlyWithoutBase64 | public/app.js:340-346 | a non-inline result is returned only when no base64 output is present |
| AppRetry.RequestStyleAvatarWithRetry | public/app.js:194-226 | the loop's outcome, number of requests and waits are those of the retry specification on the given attempt outcomes |
| AppRetry.RetryIgnoresCase | public/app.js:203-215 | the transience classifier lower-cases first, so letter case never changes the retry decision; a failure of the third attempt is never retried |
| AppRetry.RetryStep | public/app.js:215-222 | a retried failure followed by its wait and the next attempt is the same run as the loop from that attempt |
| AppRetry.RetryFromEnd | public/app.js:198-222 | from any attempt on, the loop makes at least one and at most the remaining requests and returns the last outcome unchanged |
| AppRetry.RetryFromShape | public/app.js:198-222 | from any attempt on, the loop stops at the first final outcome, and no outcome before it is final |
| AppRetry.RetryFromWaits | public/app.js:219-221 | from attempt `a` on, the loop waits `(a + j) × 2500` ms after the `j`-th retried failure, one wait fewer than its requests |
| AppRetry.RetryCharacterisation | public/app.js:194-226 | one to three requests; the last outcome is returned as it is; all earlier ones were transient failures; the waits are 2500, 5000, … one per retry; the closing `throw lastErr` is unreachable |
| AppRetry.AtMostThreeAttempts | public/app.js:195-198 | never a fourth request, whatever the outcomes |
| AppRetry.WaitsArePrefix | public/app.js:219-221 | the waits taken are a prefix of [2500, 5000] |
| AppRetry.StopsAtFirstFinal | public/app.js:198-222 | when attempt `k` is the first final outcome, the loop returns it after `k + 1` requests and the waits 2500, …, `k × 2500` |
| AppRetry.NonTransientRethrown | public/app.js:203-217 | a failure whose message has none of the eight transient markers is rethrown at once, with no later attempt or wait |
| AppRetry.ThirdFailureRethrown | public/app.js:204-217 | on attempt three even a transient failure is rethrown, after waits of 2500 and 5000 ms |
| AppRetry.FirstSuccessReturned | public/app.js:199-200 | the first successful attempt's image is returned unchanged and no later attempt is made |
| AppRetry.ServerErrorStatusIsTransient | public/app.js:203-213 | a 5xx without an error text reaches the classifier as `HTTP 5..` and is retried |
| AppSession.StyleKeysDistinct | public/app.js:3-28 | four styles with four distinct keys, in a fixed order |
| AppSession.FileRejection | public/app.js:119-128 | a file is taken iff its type starts with `image/` and its size is at most 12×1024×1024; the type is checked first |
| AppSession.ErrorText | public/app.js:163 | the reason recorded for a failed style is never empty: the error's message, or `Error` when the message is empty |
| AppSession.StyleResultOf | public/app.js:157-164 | a style is drawn iff its request succeeded and the image loaded; every other case records `<label>: <reason>`, and the result keeps the style's key |
| AppSession.FailureCount | public/app.js:152-175 | `failures.length` equals the number of failed styles and is at most the number visited |
| AppSession.FailurePosition | public/app.js:161-164 | a failed style's entry sits at the index given by the number of earlier failures |
| AppSession.FailuresInOrder | public/app.js:154-164 | `failures` keeps catalog order |
| AppSession.NoFailuresIffAllRendered | public/app.js:171-175 | no failure entry iff every style was drawn |
| AppSession.CompletionStatus | public/app.js:171-174 | the all-done text iff nothing failed; otherwise `Completed with <n> …` carrying the number of failures |
| AppSession.FailureNotice | public/app.js:173-175 | an alert iff something failed, and it names every failure entry |
| AppSession.FatalNotice | public/app.js:177-187 | the alert opens with `AI generation failed: `; a message mentioning `failed to fetch` or `load failed` gets the network hint, any other the message itself |
| AppSession.PercentRounds | public/app.js:166 | the progress `Percent(i + 1, n)` is `100 × (i + 1) / n` rounded to the nearest whole number, a half rounded up |
| AppSession.ProgressSteps | public/app.js:166 | with four styles the bar reports 25, 50, 75 and 100 |
| AppSession.ReportProgress | public/app.js:166-168 | after style `i` the reported widths are those of the first `i + 1` styles |
| AppSession.RunStyle | public/app.js:155-164 | one style's request runs through the retry loop, and its result is the image drawn or the failure recorded |
| AppSession.RunsSnoc | public/app.js:154-164 | the next style's run appended to the earlier ones keeps result `j` equal to style `j`'s run |
| AppSession.RunStyles | public/app.js:154-168 | every style is visited in order; result `i` is that style's retry outcome rendered or recorded; `failures` holds exactly the failed entries; progress is reported after each style |
| AppSession.GenerateAvatars | public/app.js:139-187 | for any catalog, the file is read only when the URL field is empty; an unreadable file aborts with the failure status; otherwise the batch yields one result per style, their failures, the progress and the closing status |
| AppSession.BatchStatus | public/app.js:171-187 | the batch aborts iff there is no URL and the file cannot be read; the status is the all-done text iff nothing failed, and the failure alert shows iff something did; there are at most as many failures as styles |
| AppSession.BatchShape | public/app.js:154-176 | a completed batch has one result per style with its key, at most one failure per style, and progress reported once per style |
| AppSession.CatalogBatch | public/app.js:154-176 | over the four-style catalog a completed batch has four results with distinct keys, at most four failures and progress 25/50/75/100 |
| AppSession.AllRenderedBatch | public/app.js:154-173 | when every style renders, there is one image per style in catalog order with its key, and no failure or alert |
| AppSession.Session.constructor | public/app.js:42-43 | no file selected, no batch running |
| AppSession.Session.GenerateEnabled | public/app.js:114-117 | the generate button is enabled only with a file selected and never during a batch |
| AppSession.Session.UseFile | public/app.js:119-137 | an accepted file becomes the selection; a rejected one gives its alert and leaves the selection unchanged |
| AppSession.Session.OnGenerate | public/app.js:85-88 | without a file or during a batch nothing happens; otherwise one batch runs, and `isGenerating` is cleared afterwards with the selection kept |
| AppSession.Session.Reset | public/app.js:90-100 | no file selected and no batch running |

## Left out

- Network, file and timer I/O are inputs, not operations:
  - `fetch`, `https.request`, `FileReader`, image loading and `setTimeout` are not modelled;
  - each call is replaced by its outcome: a `Reply`, a `ProxyReply`, the file-read result or the `renders` flag;
  - each delay is recorded as a wait, not taken.
- JSON parsing and stringifying are not modelled. A handler receives the parsed body, or the parser's error. An upstream body that does not parse, or that has no `data`, is a payload with the missing fields.
- Requests carry fixed constants that are not recorded: `model`, `aspect_ratio`, `response_format` and `subject_reference.type`.
- DOM wiring, status texts shown while generating, the retry counter text, canvases, downloads, drag and drop, `localStorage` and `console.error` are left out as UI glue.
- The model takes the input fields after `trim()`.
- The index, `/healthz` and `/api/health` answers are constants. Only their place in the routing order is modelled.
- Concurrency is left out. Every batch runs to completion as one step, so a reset issued while a batch is in flight, and interleaved clicks, are not modelled.
- Text.Lower: lower-cases ASCII letters only. JavaScript's `toLowerCase` also folds non-ASCII letters, and some of them fold to ASCII: U+212A KELVIN SIGN becomes `k`. A message spelling `networ` + U+212A therefore matches `network` in the source's classifier but not in the model's. The markers themselves are ASCII.
- String lengths count Dafny characters, not JavaScript's UTF-16 code units. This affects ServerGenerate.ReadJsonBody and the empty-string checks.
- Js.Value: the elements of arrays are strings. Non-string elements of `image_base64` or `image_urls` are not modelled.
- ServerStatic.Normalize: models Node's `path.normalize` and `path.resolve` as a stack resolver over `/`-separated segments.
  - The backslash alternative of the `..` regex is not modelled: `new URL` turns every `\` of an `http:` URL into `/` before the pathname is read (server.js:130).
  - WHATWG URL parsing itself is not modelled. It already resolves `..`, `.`, `%2e%2e` and `%2e` segments in the pathname (server.js:130), so the stripping and the guard modelled here act on what is left.
  - Trailing slashes are not modelled; `path.resolve` drops them anyway.
  - `PUBLIC_DIR` is a non-root, canonical absolute path.
- ServerStatic.ExtName: holds for paths without a trailing separator, which is every path the resolver produces.
- ServerGenerate.HandleGenerate: a truthy non-string API base makes `.replace` throw. The model answers with a fixed message, the one V8 gives for that TypeError.
- ServerGenerate.HandleGenerate: `h.call` records the request also when `new URL` or `https.request` would throw on the endpoint (server.js:68-73), for example on a malformed base. The request is then never sent; the model reaches the 400 that follows through the upstream's transport failure.
- ServerGenerate.ReadJsonBody: `req.on('error')` events are not modelled. Nor is `JSON.parse` of the accepted text or its `Invalid JSON body` error; that outcome is the `read` input of HandleGenerate.
- AppRetry.RequestStyleAvatarWithRetry: requires an outcome for each of the three attempts the loop can make, whether or not it makes them.
- AppSession.Percent: computes `Math.round(((i + 1) / n) × 100)` in exact rational arithmetic, not in floating point. The two agree for the four-style catalog, where the result is `(i + 1) × 25`. They can differ for other counts: with 200 styles and `i + 1 = 29`, the float product is just below 14.5, so `Math.round` gives 14 where the model gives 15.
- AppSession.Prompt: the prompt each style sends is looked up by the style's key, so a catalog entry keeps only its key and label.

A traversal request is never refused by the static server. Its leading slashes are
stripped, the rest is normalised, and the leading `..` segments are removed, all before
the path is resolved against the public directory (server.js:227-229). So a pathname such
as `/../../etc/passwd` resolves to `etc/passwd` inside the public directory. It is then
served, or answered 404 when no such file exists. ServerStatic.ResolvesBelow and
ServerStatic.StaticNeverForbidden state that the 403 branch is unreachable for any
pathname. ServerStatic.TraversalStaysInside works the example through.
AbsoluteRequestForbidden shows what the guard would catch if the first strip were missing.

The back ends also differ in ways the model keeps:

- A transport failure of the upstream call gives 400 from the Node server and 500 from the serverless handler.
- The serverless handler also differs on an `image_base64` array whose first element is empty; see Serverless.ServerlessAgreesWithServer.
- The browser's direct call appends `/image_generation` to the base without removing a trailing slash.
