# go-genai request pipeline, modelled in Dafny

This project models the transport core of the Go client for the Gemini API and
Vertex AI (`google.golang.org/genai`):

- how a short model or resource name becomes the path each backend expects
  (`transformer.go`);
- how a request URL, its SDK headers and its body are composed; how a unary
  response or a server error is classified and decoded; how a streamed body
  is cut into blank-line separated events and turned into the items handed
  to the caller (`api_client.go`);
- the resumable chunked file upload (`uploadFile` in `api_client.go`);
- the default base URLs and the priority by which a client picks its base
  URL (`base_url.go`);
- the realtime websocket session: connecting, the setup message, sending,
  receiving and closing (`live.go`);
- the request helpers `Text` and the defaults filled into a generation
  config (`models_helpers.go`).

Modules, one per file:

| file | module | models |
|---|---|---|
| `wrappers.dfy` | `Wrappers` | `Option` and `Result` |
| `seqs.dfy` | `Seqs` | prefix, suffix, index, count and cut on sequences (Go's `strings`/`bytes` helpers) |
| `common.dfy` | `Common` | backends, client configuration, HTTP options, abstract JSON values, responses, errors, the JSON codec |
| `transformer.dfy` | `Transformer` | `transformer.go` |
| `api_client.dfy` | `ApiClient` | URL, header and request composition; unary response and error decoding |
| `stream.dfy` | `StreamDecoder` | `dropCR`, `scan`, `deserializeStreamResponse`, `iterateResponseStream` |
| `upload.dfy` | `Upload` | `uploadFile` |
| `base_url.dfy` | `BaseUrl` | `base_url.go` |
| `live.dfy` | `Live` | `live.go` |
| `models_helpers.dfy` | `ModelsHelpers` | `models_helpers.go` |

How the outside world is represented:

- JSON encoding and decoding are a `Codec` of total functions: `unmarshal` is `None` on a syntax error and `marshal` is `None` when encoding fails. Payloads are an abstract `Json` datatype.
- A Go panic is modelled as a `Panicked` error value. Examples are a failed type assertion on an `any` and a nil dereference. This keeps the panic path explicit instead of excluding it by a precondition.
- `uploadFile`'s reader is a sequence of `Read` results, one per chunk. The server is a sequence of replies, one per chunk request. Building a request for the upload URL either always fails or never fails.
- The streaming scanner is modelled over the whole body as buffered. A lemma shows how the split depends on how much of the body has arrived.
- The websocket connection is a `Conn` object. It records the frames written to it and hands out the frames the server sends. Dialing, the access token and URL parsing are parameters.
- The process environment read by `GetBaseURL` is a map parameter. The package defaults are the `BaseUrl.Defaults` object.

Two behaviours worth noting:

- On Vertex AI a name already in its collection is still placed under `projects/<P>/locations/<L>/` (`transformer.go:33-34`); only on Gemini is it unchanged.
- The realtime tests disagree with the code, and the model follows the code. The tests expect the client's API version and the base URL's path in the websocket URL (`live_test.go:96`, `live_test.go:104`). The code hard-codes `v1beta1` and `v1alpha` and keeps only the base URL's host (`live.go:47-61`).

## Model

| member | source | states |
|---|---|---|
| Transformer.TResourceName | transformer.go:23-47 | On Gemini the collection is prepended exactly when the name does not already start with it and the result would have the requested depth. On Vertex AI a `projects/` name is kept; a `locations/` name gets `projects/<P>/`; a name in its collection gets the location scope `projects/<P>/locations/<L>/`; a name that should be prepended gets the scope and the collection; any other name is kept. The result always ends with the name. |
| Transformer.TResourceNameInCollection | transformer.go:33-34 | A name already in its collection is unchanged on Gemini. On Vertex AI it is placed under the location scope. |
| Transformer.TResourceNameDepth | transformer.go:24-25 | When the collection is prepended on Gemini, the result has exactly the requested number of segments. |
| Transformer.TResourceNameIdempotent | transformer.go:23-47 | Applying the transform to its own result changes nothing, on both backends. |
| Transformer.TCachedContentName | transformer.go:49-51 | A non-string name is a panic. A string is resolved in the `cachedContents` collection at depth 2. |
| Transformer.TModel | transformer.go:53-78 | A non-string is "not a string" and an empty string is "model is empty". Every other name succeeds, with a name the backend recognises as qualified. On Gemini a name outside `models/` and `tunedModels/` becomes `models/<name>`, whether or not it contains '/'. |
| Transformer.TModelKeepsQualified | transformer.go:59-74 | A name with a prefix the backend recognises is returned unchanged: `projects/`, `models/` or `publishers/` on Vertex AI, `models/` or `tunedModels/` on Gemini. |
| Transformer.TModelBareName | transformer.go:65-73 | A name without '/' becomes `publishers/google/models/<name>` on Vertex AI and `models/<name>` on Gemini. |
| Transformer.TModelVertexPublisher | transformer.go:62-64 | On Vertex AI, `<publisher>/<model>` becomes `publishers/<publisher>/models/<model>`, split at the first '/'. |
| Transformer.TModelIdempotent | transformer.go:53-78 | `tModel` applied to its own result changes nothing. |
| Transformer.TModelFullName | transformer.go:80-97 | It succeeds exactly when `tModel` does, and a `tModel` error is wrapped with `tModelFullName: `. On Gemini the result is `tModel`'s. On Vertex AI, with `m` the result of `tModel`: a `publishers/` name becomes `projects/<P>/locations/<L>/m`, a `models/` name becomes `projects/<P>/locations/<L>/publishers/google/m`, and any other name is `m`; the result always starts with `projects/`. |
| Transformer.TModelFullNameIdempotent | transformer.go:80-97 | Expanding an already expanded name changes nothing. |
| Transformer.TModelFullNameBareVertex | transformer.go:87-90 | On Vertex AI a bare name becomes `projects/<P>/locations/<L>/publishers/google/models/<name>`. |
| Transformer.TCachesModel | transformer.go:99-101 | Identical to `tModelFullName` on every input. |
| Transformer.FirstPartText | transformer.go:138-145 | A content that is not a map panics. A map without a non-empty `parts` list is the "parts is not a non-empty list" error. A first part that is not a map panics. A first part without a string `text` is the "text is not a string" error. Otherwise the result is the first part's `text`, so well-formed content always succeeds. |
| Transformer.EmbedTexts | transformer.go:136-148 | Succeeds iff every content has a first-part text. The result has the same length and order as the contents. The error is that of the first failing content. |
| Transformer.TContentsForEmbed | transformer.go:132-155 | Gemini passes the contents through unchanged. On Vertex AI a non-list is an error. A list succeeds exactly when every content has a first-part text, and then each content is replaced by that text, in order. Otherwise the error is that of the first content that fails. |
| Transformer.TModelsURL | transformer.go:157-171 | A non-boolean is a panic. The four (backend, base models) cases map to `publishers/google/models`, `models`, `models` and `tunedModels`. |
| Transformer.TExtractModels | transformer.go:173-189 | A non-map is an error. Otherwise the result is the first present member among `models`, `tunedModels` and `publisherModels`, or an empty list when none is present. |
| ApiClient.ComposeAPIURL | api_client.go:86-107 | Vertex AI: a suffix under `projects/`, or a GET of a Google base model, gives `base/version/suffix`; any other suffix gives exactly `base/version/projects/<P>/locations/<L>/suffix`. Gemini: a suffix that contains `/<version>/` gives `base/suffix`; any other gives exactly `base/version/suffix`. The result always ends with the suffix. |
| ApiClient.VertexScopedURL | api_client.go:89-92 | A Vertex AI suffix outside `projects/` is placed under the location scope, and the URL differs from the unscoped one. |
| ApiClient.GeminiVersionedURL | api_client.go:98-101 | A Gemini suffix without the version gets `version/` inserted, and the URL contains `/<version>/`. |
| ApiClient.GeminiVersionRepeated | api_client.go:98-101 | A Gemini suffix that starts with `<version>/` but has no `/<version>/` inside gets the version a second time. |
| ApiClient.VertexScopedNameNotRescoped | api_client.go:89-92 | A Vertex AI name that `tResourceName` put under `projects/` is used as the path without a second scope. |
| ApiClient.CreateAPIURL | api_client.go:86-107 | It succeeds with the composed URL exactly when parsing succeeds. A parse error is wrapped with the backend's own context text. |
| ApiClient.SdkHeader | api_client.go:132-144 | `Content-Type` is always `application/json`. The API key header is present iff the key is non-empty, and then carries the key. User agent and API client both carry exactly `google-genai-sdk/<v> gl-go/<go>`. No other header is set. |
| ApiClient.BuildRequest | api_client.go:109-130 | It succeeds exactly when the URL parses, the payload is empty or encodes, and the request can be created. The URL is the composed one. The body is empty iff the payload is empty, and otherwise is the payload's encoding plus the encoder's newline. A URL error is returned as it is, an encoding failure is wrapped with `buildRequest: error encoding body`, and the request-creation error is returned unchanged. Headers are the options' headers merged, then the SDK headers merged. |
| ApiClient.HttpStatusOk | api_client.go:277-279 | Success iff 200 ≤ code < 300. |
| ApiClient.NewAPIErrorAsWritten | api_client.go:253-267 | As written: a read error is wrapped; an empty body gives `APIError{code, status}`; a body that decodes without an `error` member panics. |
| ApiClient.NewAPIError | api_client.go:253-267 | Never panics. It agrees with the code on every other response, and a body without an `error` member is reported like an empty body. |
| ApiClient.NewAPIErrorAgrees | api_client.go:253-267 | The corrected and the as-written versions are equal on every response except a body that decodes without an `error` member. |
| ApiClient.NewAPIErrorEmptyObjectPanics | api_client.go:260-265 | A 404 whose body is `{}` panics as written, and the corrected version reports the 404. |
| ApiClient.DeserializeUnaryResponse | api_client.go:156-174 | A non-2xx status gives the server error of `NewAPIError` (the corrected one, see below). Otherwise it succeeds iff the body reads and is empty or a JSON object. On success `httpHeaders` holds the response headers; with an empty body it is the only key, otherwise the decoded members are kept. |
| ApiClient.EmptyErrorBody | api_client.go:156-174 | A non-2xx response with an empty body gives `APIError{Code: StatusCode, Status: Status}`. |
| StreamDecoder.DropCR | api_client.go:298-303 | The result is a prefix of the data, shorter by one exactly when the data ends in CR. |
| StreamDecoder.DropCRAppended | api_client.go:298-303 | Removing a terminal CR undoes appending one, and only one CR is removed. |
| StreamDecoder.Scan | api_client.go:305-327 | Advance is between 0 and the data length, and a token is a prefix of the data with no blank line. The first `\n\n` at i gives (i+2, data[..i] minus one CR). `\r\n\r\n` is used only when no `\n\n` occurs. At EOF the remainder is returned, and empty data gives nothing. Otherwise it asks for more data. |
| StreamDecoder.SplitAll | api_client.go:305-327 | The tokens a scanner over the whole body yields contain no blank line, and there are no more tokens than bytes. |
| StreamDecoder.SplitJoin | api_client.go:305-327 | Framing events with blank lines and scanning the result gives back exactly the events (a round trip). |
| StreamDecoder.ScanDependsOnArrival | api_client.go:310-319 | The same bytes split differently when only part of the body has arrived (`\r\n\r\n` is used before `\n\n` has arrived). |
| StreamDecoder.DataItems | api_client.go:196-220 | A `data` token yields, in order: an unmarshal error carrying the prefix and the data exactly when the payload is neither a JSON object nor `null`; the converter's error exactly when the converter, run on the decoded or empty map, fails; and last, always, the converted response without an error. Every item before the last is an error without a response. |
| StreamDecoder.TokenItems | api_client.go:190-226 | An empty token yields nothing. A `data` field yields the items of `DataItems` for the text after the first ':'. Any other field name yields exactly one invalid-chunk error carrying the prefix and the data. |
| StreamDecoder.StreamItemsAppend | api_client.go:189-227 | The items of consecutive tokens concatenate. |
| StreamDecoder.TakeUntilRefused | api_client.go:202-225 | The items handed out are a prefix of the items. All but the last were accepted; when the prefix is shorter, its last item was refused; when every item is accepted, all are handed out. |
| StreamDecoder.TakeUntilRefusedAppend | api_client.go:189-227 | When all of a first run is accepted, the iteration carries on into the next one. |
| StreamDecoder.TakeUntilRefusedStops | api_client.go:189-227 | A refusal inside a run ends the iteration before any later run. |
| StreamDecoder.ResponseStream.NextToken | api_client.go:189-190 | The next token is the first of the remaining body's tokens, and the rest of the body shrinks. None comes only once the body is used up. |
| StreamDecoder.DeserializeStreamResponse | api_client.go:281-295 | A non-2xx status gives the server error of `NewAPIError` (the corrected one, see below). Otherwise a new scanner holds the body, and the body has not been closed. |
| StreamDecoder.EmitToken | api_client.go:190-226 | One loop turn appends the token's items up to the first refused one, and stops exactly when one was refused. |
| StreamDecoder.EmitData | api_client.go:196-220 | The `data` case yields its items in order up to the first refused one, and stops exactly when one was refused. |
| StreamDecoder.IterateResponseStream | api_client.go:181-235 | The items yielded are every token's items in order, up to and including the first refused one. The body is closed exactly once. |
| Upload.ChunkSize | api_client.go:346 | The chunk is at most 8 MiB and does not pass the end of the file. It is either a full 8 MiB or reaches the end exactly. |
| Upload.ChunkAt | api_client.go:346-369 | The request carries the offset and the chunk size. The command is `upload, finalize` iff the chunk reaches the end, and `upload` iff bytes remain after it. |
| Upload.PlanCovers | api_client.go:345-394 | A complete upload covers the file exactly once: offsets are consecutive, every chunk but the last is a full `upload` chunk, and the last finalizes. |
| Upload.PlanSizes | api_client.go:346-349 | A file of at most 8 MiB, even an empty one, goes up in one finalizing request. 8 MiB plus one byte needs two. |
| Upload.FinalizeExtendsUpload | api_client.go:343-349 | Appending `, finalize` to `upload` gives the finalize command. |
| Upload.FileOf | api_client.go:405-410 | The result is the `file` member when it is an object. Otherwise it is the failed type assertion. |
| Upload.ChunkReadError | api_client.go:351-363 | A chunk is sent only if it was read whole and without error and its request was built. The checks are made in the code's order, each with its own error carrying size and offset. |
| Upload.AnswerOf | api_client.go:371-380 | A transport failure is distinguished from a rejected response. An answered chunk carries the response and its decoded body. |
| Upload.StatusOf | api_client.go:384-401 | `active` and `final` are recognised exactly by the `X-Goog-Upload-Status` header value. |
| Upload.StepAt | api_client.go:345-394 | A loop turn goes on only with a non-empty chunk that leaves bytes after it. |
| Upload.UploadFile | api_client.go:339-411 | The loop's result and the chunk requests it sends are those of the upload from the first chunk at offset 0. |
| Upload.UploadLoopAgrees | api_client.go:345-394 | The loop as the method runs it is the requests already sent followed by the upload from the next chunk. |
| Upload.UploadGoesOn | api_client.go:382-394 | A turn that goes on sent the planned `upload` request after a whole read, and the server answered `active`. |
| Upload.UploadStops | api_client.go:351-403 | A turn that stops ends in the case its read, request, answer or status calls for. |
| Upload.StepProceeds | api_client.go:382-394 | A whole read answered `active` with bytes remaining prepends the chunk to the rest of the upload. |
| Upload.StepFinishes | api_client.go:384-410 | A whole read answered `final` ends the upload with the `file` member of that answer. |
| Upload.UploadFollowsPlan | api_client.go:345-394 | The requests sent are always a prefix of the complete plan, and all of it once the last one finalizes. |
| Upload.UploadReadsWholeChunks | api_client.go:351-363 | Every chunk sent was read whole and without error. |
| Upload.UploadEarlierChunksActive | api_client.go:384-388 | The server answered `active` to every chunk before the last one sent. |
| Upload.UploadSucceedsOnFinal | api_client.go:400-410 | The upload succeeds only when the last chunk sent is answered `final`, and then returns that answer's `file` member. |
| Upload.UploadNotFinalized | api_client.go:390-403 | `not finalized after all` is returned iff the finalizing chunk was answered `active`. Any status other than `active` and `final` gives `not finalized`. |
| Upload.UploadChunkFails | api_client.go:371-380 | A last chunk whose request failed or whose answer was rejected gives an error naming that chunk's offset. |
| Upload.UploadStopsBeforeChunk | api_client.go:351-363 | An upload that stops before sending the next chunk stops because of that chunk's read or request construction, at that chunk's offset. |
| Upload.UploadCompletes | api_client.go:339-411 | When the reader and the server cooperate, the upload sends exactly the plan and returns the final answer's `file` member. |
| BaseUrl.Defaults.SetDefaultBaseURLs | base_url.go:31-36 | A nil argument changes nothing. Otherwise both defaults are replaced, an absent URL included, so that reading them back returns the argument (a round trip with `GetDefaultBaseURLs`). |
| BaseUrl.GetBaseURL | base_url.go:51-71 | A non-empty per-call URL wins. Then, for the chosen backend only, the program default, then the backend's environment variable. The result is none exactly when neither is set. |
| BaseUrl.BackendsIndependent | base_url.go:56-68 | The Vertex AI lookup never depends on the Gemini default or variable, and vice versa. |
| BaseUrl.SetDefaultsWin | base_url.go:31-71 | A default that was set is used for its backend whatever the environment says. |
| ModelsHelpers.Text | models_helpers.go:22-27 | Exactly one new content from the user, with a single part holding the text. |
| ModelsHelpers.DefaultRole | models_helpers.go:45-47 | An empty role becomes `user` and a set role stays. The result is never empty. |
| ModelsHelpers.DefaultCandidateCount | models_helpers.go:33-35 | A zero count becomes 1 and any other stays. The result is never zero. |
| ModelsHelpers.DefaultsIdempotent | models_helpers.go:29-47 | Setting the defaults twice is setting them once. |
| ModelsHelpers.ContentSetDefaults | models_helpers.go:41-47 | A nil content is untouched. Otherwise the role gets its default and the parts are unchanged. |
| ModelsHelpers.ConfigSetDefaults | models_helpers.go:29-39 | A nil config is untouched. Otherwise the candidate count gets its default and the system instruction's role gets its default. The instruction stays the same object, and no other setting changes. |
| Live.WebsocketScheme | live.go:30-34 | The scheme is `ws` or `wss`. A `ws`/`wss` base scheme is kept and any other becomes `wss`. |
| Live.DialTarget | live.go:36-65 | The host is always the base URL's host. Vertex AI fails exactly when the token does, and otherwise sends `Content-Type: application/json` and `Authorization: Bearer <token>` to the v1beta1 path with no query. Gemini always succeeds, with the v1alpha path, the query exactly `key=<APIKey>` and no headers. |
| Live.GeminiIgnoresToken | live.go:54-65 | The Gemini target never depends on the token. |
| Live.SetupJson | live.go:79-92 | The setup encodes the model always and each optional setting only when set (an empty tool list is omitted), and nothing else. |
| Live.MessageJson | live.go:88-106 | A message's setup, if any, is under `setup`, next to its other members. Without one, the message is its other members. |
| Live.SetupFor | live.go:75-87 | The model is `tModelFullName`'s result, and its error is returned unchanged. A nil config sets only the model; a config copies exactly its generation config, system instruction and tools. |
| Live.SetupMessageJsonOnly | live.go:88-92 | The first frame's JSON holds the setup and nothing else. |
| Live.ConnectHandshake | live.go:26-95 | It succeeds exactly when the base URL parses, the target is chosen, the dial succeeds, the model resolves and the setup encodes. Each failure is the first failing step's: the parse error wrapped with the base-URL context, the target's (token) error, the dial error naming the URL, `tModelFullName`'s error unchanged, or the marshal error. On success the frame is the encoded `{"setup": …}` of `SetupFor`'s setup, dialed with that URL and those headers. |
| Live.TokenFailsBeforeDial | live.go:38-42 | On Vertex AI a token failure is the error, whatever the dialer or the model would do. |
| Live.DialFailsBeforeModel | live.go:67-78 | A failed dial is reported as `Connect to <url> failed` before the model is looked at. |
| Live.GeminiSetupMessage | live_test.go:75-79 | On Gemini a bare model without config gives exactly `{"setup":{"model":"models/<name>"}}`. |
| Live.VertexSetupModel | live_test.go:107-111 | On Vertex AI a bare model is sent as `projects/<P>/locations/<L>/publishers/google/models/<name>`. |
| Live.ServerMessage | live.go:115-127 | A read failure is returned unchanged. A frame that is not a JSON object or `null`, or an object with a member whose type does not fit `LiveServerMessage`, gives an invalid-message-format error with the frame's type and bytes. `null` gives an empty message. The result is Ok exactly in the other cases. |
| Live.Conn.WriteFailure | live.go:96-110 | A closed connection refuses every write; an open one fails as its transport does. |
| Live.Conn.NextInbound | live.go:116 | A closed connection fails and a drained one reports an abnormal closure. Otherwise the next delivery is read. |
| Live.Conn.WriteMessage | live.go:96-110 | The frame is appended to those sent exactly when the write succeeds. |
| Live.Conn.ReadMessage | live.go:116 | The delivery read is consumed if it is a frame. A failure is kept, so later reads report it again. |
| Live.Live.Connect | live.go:25-98 | It fails exactly as the handshake does. Otherwise it returns a new session over a new open connection whose only frame sent is the setup, or none when the write failed. The session is returned even then. |
| Live.Session.Send | live.go:102-111 | A message with a setup is refused and nothing is written. An unencodable message is an error and nothing is written. Otherwise exactly one text frame is written on success and the write's error is the result. The connection stays open. |
| Live.Session.Receive | live.go:115-127 | The result is the next delivery decoded by `ServerMessage`. Nothing is sent, and the connection is not closed by either kind of failure. |
| Live.Session.Close | live.go:130-132 | The connection is closed, so later writes and reads fail. |

## Left out

- I/O is not modelled: sending the HTTP request (`doRequest`), `http.Client` and `sendRequest`/`sendStreamRequest`, which only chain the modelled steps. Neither is the websocket handshake on the wire, or opening the file in `uploadFileFromPath`.
- `doMergeHeaders` is not part of this model. It is an opaque merge function, so ApiClient.BuildRequest states the header composition only in terms of that function.
- `encoding/json` and `mapToStruct` are abstract (`Codec`). Upload.FileOf does not model a `mapToStruct` failure on a well-formed `file` object.
- The `bufio.Scanner` driver is not modelled: buffer growth, the 256 MiB token ceiling, and the logging of scanner errors. The scanner is modelled over the whole body as buffered.
- `log.Printf` is left out because it has no effect on results.
- Upload.UploadFile: `math.Min` over floats is modelled as an integer minimum, which is exact below 2^53 bytes. `uploadSize` is a `nat`: a negative `int64` size, for which Go's `make` panics, is not modelled.
- Upload.UploadFile: the `resp == nil` check after the loop is not modelled, because the loop only exits after a response was received.
- Request construction for the upload URL either always fails or never fails. `http.NewRequestWithContext` checks only the method and the URL, and those are the same for every chunk.
- The SDK's `version` constant and `runtime.Version()` are parameters.
- Context cancellation and concurrency are not modelled.
- BaseUrl.GetBaseURL takes the package defaults and the environment as parameters. The defaults are what `Defaults.GetDefaultBaseURLs` returns at the time of the call, and `os.LookupEnv` is a map lookup.
- Live.Live.Connect: a dialed connection that is abandoned when the model name is rejected is not modelled. The code leaves it open, and no session refers to it.
- Live.Live.Connect: `url.Parse`, the token source and the dialer are parameters. `URL.String()` is modelled without escaping, which the fixed paths here do not need.
- Live.LiveConnectConfig holds only the three settings the setup copies. The JSON encoding of generation configs, contents and tools is left abstract.
- The trivial identity transforms of `transformer.go` (`tContent`, `tContents`, `tTool`, `tTools`, `tSchema`, `tSpeechConfig`, `tBytes`) are not modelled.
- ApiClient.DeserializeUnaryResponse: a non-2xx body that decodes without an `error` member (such as `{}`) is reported with the corrected `ApiClient.NewAPIError` of the Findings row, where `api_client.go:158` panics. On every other response it equals the code as written (ApiClient.NewAPIErrorAgrees).
- StreamDecoder.DeserializeStreamResponse: the same corrected error replaces the panic of `api_client.go:283`.
- Upload.AnswerOf: a rejected chunk response goes through DeserializeUnaryResponse, so a `{}` error body gives the corrected error instead of the panic.
- Upload.UploadFile: inherits the same correction through Upload.AnswerOf.
- The `Error()` formatting of `APIError` is not modelled. Errors are structured values with their context text.

## Findings

| source | as written | input that shows it | evidently intended | confidence | as-written member | corrected member |
|---|---|---|---|---|---|---|
| api_client.go:260-265 | A non-empty error body that decodes but has no `error` member leaves `respWithError.ErrorInfo` nil, and `*respWithError.ErrorInfo` panics | a 404 response whose body is `{}` | report an `APIError` with the response's status code and status text, as for an empty body | not executed | ApiClient.NewAPIErrorAsWritten (with ApiClient.NewAPIErrorEmptyObjectPanics) | ApiClient.NewAPIError |
