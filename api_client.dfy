/** The request side and the unary response side of the HTTP pipeline: URL
    composition per backend, the SDK header set, request construction, status
    classification and the decoding of unary responses and server errors. */
module ApiClient {
  import opened Wrappers
  import opened Seqs
  import opened Common
  import Transformer

  // Error texts
  const VertexURLFailed := "createAPIURL: error parsing Vertex AI URL"
  const MLDevURLFailed := "createAPIURL: error parsing ML Dev URL"
  const EncodeBodyFailed := "buildRequest: error encoding body"
  const UnsupportedValue := "json: unsupported value"
  const SyntaxError := "json: syntax error"
  const NilDereference := "invalid memory address or nil pointer dereference"
  const NilMapAssignment := "assignment to entry in nil map"
  const CannotUnmarshal := "json: cannot unmarshal"

  /** The collaborators the pipeline calls but that are outside the model:
      URL parsing, request construction, header merging and the two version
      agents of the SDK header. */
  datatype Host = Host(
    parseURL: string -> Option<Error>,            // the error `url.Parse` returns, if any
    newRequest: (string, string) -> Option<Error>, // the error `http.NewRequestWithContext` returns for (httpMethod, url)
    mergeHeaders: (Headers, Headers) -> Headers,   // `doMergeHeaders(src, &dest)`: the new dest
    libraryVersion: string,                        // the SDK's `version` constant
    goVersion: string)                             // `runtime.Version()`

  /** A GET on Vertex AI for a Google base model is not placed under the project. */
  predicate QueryVertexBaseModel(httpMethod: string, suffix: string) {
    httpMethod == "GET" && StartsWith(suffix, Transformer.GoogleModelsCollection)
  }

  /** The URL text `createAPIURL` hands to `url.Parse`. */
  function ComposeAPIURL(cfg: ClientConfig, suffix: string, httpMethod: string, opts: HTTPOptions): (r: string)
    ensures cfg.backend == VertexAI ==>
              (r == opts.baseURL + "/" + opts.apiVersion + "/" + suffix
               <==> StartsWith(suffix, Transformer.ProjectsPrefix) || QueryVertexBaseModel(httpMethod, suffix))
    ensures cfg.backend == VertexAI && !QueryVertexBaseModel(httpMethod, suffix) ==>
              StartsWith(r, opts.baseURL + "/" + opts.apiVersion + "/" + Transformer.ProjectsPrefix)
    ensures cfg.backend == VertexAI ==> StartsWith(r, opts.baseURL + "/" + opts.apiVersion + "/") && EndsWith(r, suffix)
    ensures cfg.backend == GeminiAPI ==>
              (r == opts.baseURL + "/" + suffix <==> Contains(suffix, "/" + opts.apiVersion + "/"))
    ensures cfg.backend == GeminiAPI ==> Contains(r, "/" + opts.apiVersion + "/") && EndsWith(r, suffix)
    ensures cfg.backend == VertexAI && !StartsWith(suffix, Transformer.ProjectsPrefix)
            && !QueryVertexBaseModel(httpMethod, suffix) ==>
              r == opts.baseURL + "/" + opts.apiVersion + "/" + Transformer.LocationScope(cfg) + suffix
    ensures cfg.backend == GeminiAPI && !Contains(suffix, "/" + opts.apiVersion + "/") ==>
              r == opts.baseURL + "/" + opts.apiVersion + "/" + suffix
  {
    var base := opts.baseURL;
    var v := opts.apiVersion;
    if cfg.backend == VertexAI then
      if !StartsWith(suffix, Transformer.ProjectsPrefix) && !QueryVertexBaseModel(httpMethod, suffix) then
        VertexScopedURL(cfg, base + "/" + v + "/", suffix);
        AppendAssoc(base + "/" + v + "/", Transformer.LocationScope(cfg), suffix);
        base + "/" + v + "/" + (Transformer.LocationScope(cfg) + suffix)
      else
        VertexDirectURL(base + "/" + v + "/", suffix);
        base + "/" + v + "/" + suffix
    else
      if !Contains(suffix, "/" + v + "/") then
        GeminiVersionedURL(base, v, suffix);
        base + "/" + v + "/" + suffix
      else
        GeminiPlainURL(base, v, suffix);
        base + "/" + suffix
  }

  /** A Vertex AI path outside "projects/" is placed under the location scope. */
  lemma VertexScopedURL(cfg: ClientConfig, root: string, suffix: string)
    requires !StartsWith(suffix, Transformer.ProjectsPrefix)
    ensures var r := root + (Transformer.LocationScope(cfg) + suffix);
            r != root + suffix && StartsWith(r, root + Transformer.ProjectsPrefix)
            && StartsWith(r, root) && EndsWith(r, suffix)
  {
    var scoped := Transformer.LocationScope(cfg) + suffix;
    Transformer.ScopedStartsWithProjects(cfg, suffix);
    StartsWithAppend(root, scoped);
    PrefixPlusPrefix(root, scoped, Transformer.ProjectsPrefix);
    assert |root + scoped| != |root + suffix|;
    EndsWithAppend(root + Transformer.LocationScope(cfg), suffix);
    AppendAssoc(root, Transformer.LocationScope(cfg), suffix);
  }

  /** A Vertex AI path used as it is follows the version root. */
  lemma VertexDirectURL(root: string, suffix: string)
    ensures StartsWith(root + suffix, root) && EndsWith(root + suffix, suffix)
    ensures StartsWith(suffix, Transformer.ProjectsPrefix) ==>
              StartsWith(root + suffix, root + Transformer.ProjectsPrefix)
  {
    StartsWithAppend(root, suffix);
    EndsWithAppend(root, suffix);
    if StartsWith(suffix, Transformer.ProjectsPrefix) {
      PrefixPlusPrefix(root, suffix, Transformer.ProjectsPrefix);
    }
  }

  /** A Gemini path without "/<version>/" gets the version inserted. */
  lemma GeminiVersionedURL(base: string, v: string, suffix: string)
    ensures var r := base + "/" + v + "/" + suffix;
            r != base + "/" + suffix && Contains(r, "/" + v + "/") && EndsWith(r, suffix)
  {
    OccursInside(base, "/" + v + "/", suffix, "/" + v + "/");
    assert base + ("/" + v + "/") + suffix == base + "/" + v + "/" + suffix;
    assert |base + "/" + v + "/" + suffix| != |base + "/" + suffix|;
    EndsWithAppend(base + "/" + v + "/", suffix);
  }

  /** A Gemini path that already carries "/<version>/" is used as it is. */
  lemma GeminiPlainURL(base: string, v: string, suffix: string)
    requires Contains(suffix, "/" + v + "/")
    ensures Contains(base + "/" + suffix, "/" + v + "/") && EndsWith(base + "/" + suffix, suffix)
  {
    ContainsAfter(base + "/", suffix, "/" + v + "/");
    EndsWithAppend(base + "/", suffix);
  }

  /** A prefix `q` of `s` extends to a prefix `p + q` of `p + s`. */
  lemma PrefixPlusPrefix(p: string, s: string, q: string)
    requires StartsWith(s, q)
    ensures StartsWith(p + s, p + q)
  {
    assert (p + s)[..|p + q|] == p + s[..|q|];
  }

  /** An occurrence inside `s` is still an occurrence inside `pre + s`. */
  lemma ContainsAfter(pre: string, s: string, pat: string)
    requires Contains(s, pat)
    ensures Contains(pre + s, pat)
  {
    var i := IndexOf(s, pat).value;
    assert (pre + s)[|pre| + i..|pre| + i + |pat|] == s[i..i + |pat|];
    assert OccursAt(pre + s, pat, |pre| + i);
    assert !Absent(pre + s, pat);
  }

  /** On Gemini a suffix that starts with the version but has no "/<version>/"
      inside gets the version a second time. */
  lemma GeminiVersionRepeated(cfg: ClientConfig, opts: HTTPOptions, rest: string, httpMethod: string)
    requires cfg.backend == GeminiAPI
    requires !Contains(opts.apiVersion + "/" + rest, "/" + opts.apiVersion + "/")
    ensures ComposeAPIURL(cfg, opts.apiVersion + "/" + rest, httpMethod, opts)
            == opts.baseURL + "/" + opts.apiVersion + "/" + opts.apiVersion + "/" + rest
  {
    var v := opts.apiVersion;
    assert opts.baseURL + "/" + v + "/" + (v + "/" + rest) == opts.baseURL + "/" + v + "/" + v + "/" + rest;
  }

  /** A Vertex AI resource name produced by `tResourceName` under "projects/"
      is used as the path without a second scope. */
  lemma VertexScopedNameNotRescoped(cfg: ClientConfig, name: string, collection: string, depth: int,
                                    httpMethod: string, opts: HTTPOptions)
    requires cfg.backend == VertexAI
    requires StartsWith(Transformer.TResourceName(cfg, name, collection, depth), Transformer.ProjectsPrefix)
    ensures var path := Transformer.TResourceName(cfg, name, collection, depth);
            ComposeAPIURL(cfg, path, httpMethod, opts) == opts.baseURL + "/" + opts.apiVersion + "/" + path
  {
  }

  /** Go's `createAPIURL`: the composed URL, or the parse error wrapped with
      the backend's context. */
  function CreateAPIURL(host: Host, cfg: ClientConfig, suffix: string, httpMethod: string, opts: HTTPOptions)
    : (r: Result<string, Error>)
    ensures var text := ComposeAPIURL(cfg, suffix, httpMethod, opts);
            (r.Ok? <==> host.parseURL(text).None?) && (r.Ok? ==> r.value == text)
    ensures r.Err? && cfg.backend == VertexAI ==>
              r.error.Wrapped? && r.error.context == VertexURLFailed
    ensures r.Err? && cfg.backend == GeminiAPI ==>
              r.error.Wrapped? && r.error.context == MLDevURLFailed
  {
    var text := ComposeAPIURL(cfg, suffix, httpMethod, opts);
    match host.parseURL(text)
    case Some(e) =>
      if cfg.backend == VertexAI then Err(Wrapped(VertexURLFailed, e))
      else Err(Wrapped(MLDevURLFailed, e))
    case None => Ok(text)
  }

  const ContentTypeKey := "Content-Type"
  const JsonContentType := "application/json"
  const ApiKeyKey := "X-Goog-Api-Key"
  const UserAgentKey := "User-Agent"
  const ApiClientKey := "X-Goog-Api-Client"

  /** Go's `sdkHeader`, with header names in Go's canonical form. */
  function SdkHeader(host: Host, cfg: ClientConfig): (h: Headers)
    ensures ContentTypeKey in h && h[ContentTypeKey] == JsonContentType
    ensures ApiKeyKey in h <==> cfg.apiKey != ""
    ensures ApiKeyKey in h ==> h[ApiKeyKey] == cfg.apiKey
    ensures UserAgentKey in h && ApiClientKey in h && h[UserAgentKey] == h[ApiClientKey]
    ensures h[UserAgentKey] == "google-genai-sdk/" + host.libraryVersion + " gl-go/" + host.goVersion
    ensures h.Keys <= {ContentTypeKey, ApiKeyKey, UserAgentKey, ApiClientKey}
  {
    var agent := "google-genai-sdk/" + host.libraryVersion + " " + "gl-go/" + host.goVersion;
    assert agent == "google-genai-sdk/" + host.libraryVersion + " gl-go/" + host.goVersion;
    var base := map[ContentTypeKey := JsonContentType];
    var keyed := if cfg.apiKey != "" then base[ApiKeyKey := cfg.apiKey] else base;
    keyed[UserAgentKey := agent][ApiClientKey := agent]
  }

  /** The parts of an outgoing request the pipeline composes. */
  datatype Request = Request(httpMethod: string, url: string, header: Headers, body: Bytes)

  /** Go's `buildRequest`: the body is the JSON encoding of the payload followed
      by the encoder's newline, and stays empty for an empty payload. */
  function BuildRequest(host: Host, codec: Codec, cfg: ClientConfig, path: string, body: map<string, Json>,
                        httpMethod: string, opts: HTTPOptions): (r: Result<Request, Error>)
    ensures r.Ok? ==> r.value.url == ComposeAPIURL(cfg, path, httpMethod, opts) && r.value.httpMethod == httpMethod
    ensures r.Ok? ==> (|r.value.body| == 0 <==> |body| == 0)
    ensures r.Ok? && |body| > 0 ==> codec.marshal(body).Some? && r.value.body == codec.marshal(body).value + [LF]
    ensures r.Ok? ==> r.value.header == host.mergeHeaders(SdkHeader(host, cfg), host.mergeHeaders(opts.headers, map[]))
    ensures CreateAPIURL(host, cfg, path, httpMethod, opts).Err? ==> r == CreateAPIURL(host, cfg, path, httpMethod, opts).PropagateFailure()
    ensures CreateAPIURL(host, cfg, path, httpMethod, opts).Ok? && |body| > 0 && codec.marshal(body).None? ==>
              r.Err? && r.error.Wrapped? && r.error.context == EncodeBodyFailed
    ensures r.Ok? <==> CreateAPIURL(host, cfg, path, httpMethod, opts).Ok?
                       && (|body| == 0 || codec.marshal(body).Some?)
                       && host.newRequest(httpMethod, ComposeAPIURL(cfg, path, httpMethod, opts)).None?
    ensures CreateAPIURL(host, cfg, path, httpMethod, opts).Ok? && (|body| == 0 || codec.marshal(body).Some?)
            && host.newRequest(httpMethod, ComposeAPIURL(cfg, path, httpMethod, opts)).Some? ==>
              r == Err(host.newRequest(httpMethod, ComposeAPIURL(cfg, path, httpMethod, opts)).value)
  {
    var url :- CreateAPIURL(host, cfg, path, httpMethod, opts);
    var encoded :- if |body| > 0 then
                     match codec.marshal(body)
                     case Some(b) => Ok(b + [LF])
                     case None => Err(Wrapped(EncodeBodyFailed, External(UnsupportedValue)))
                   else Ok([]);
    match host.newRequest(httpMethod, url)
    case Some(e) => Err(e)
    case None =>
      var header := host.mergeHeaders(SdkHeader(host, cfg), host.mergeHeaders(opts.headers, map[]));
      Ok(Request(httpMethod, url, header, encoded))
  }

  /** Go's `httpStatusOk`. */
  function HttpStatusOk(code: int): (ok: bool)
    ensures ok <==> 200 <= code < 300
  {
    200 <= code && code < 300
  }

  const ReadBodyFailed := "newAPIError: error reading response body"
  const ErrorUnmarshalFailed := "newAPIError: unmarshal response to error failed"

  /** Go's `newAPIError` as written: a body that decodes but has no `error`
      member leaves the pointer nil, and dereferencing it panics. */
  function NewAPIErrorAsWritten(resp: Response, codec: Codec): (e: Error)
    ensures resp.readError.Some? ==> e == Wrapped(ReadBodyFailed, resp.readError.value)
    ensures resp.readError.None? && |resp.body| == 0 ==> e == Api(APIError(resp.statusCode, "", resp.status, []))
    ensures resp.readError.None? && |resp.body| > 0 && codec.unmarshalError(resp.body) == NoErrorMember ==> e.Panicked?
  {
    match resp.readError
    case Some(err) => Wrapped(ReadBodyFailed, err)
    case None =>
      if |resp.body| > 0 then
        match codec.unmarshalError(resp.body)
        case Unparsable => Wrapped(ErrorUnmarshalFailed, External(SyntaxError))
        case NoErrorMember => Panicked(NilDereference)
        case ErrorMember(info) => Api(info)
      else Api(APIError(resp.statusCode, "", resp.status, []))
  }

  /** `newAPIError` with the nil error member handled: the server's status
      code and status text stand in, as they do for an empty body. */
  function NewAPIError(resp: Response, codec: Codec): (e: Error)
    ensures !e.Panicked?
    ensures resp.readError.Some? ==> e == Wrapped(ReadBodyFailed, resp.readError.value)
    ensures resp.readError.None? && |resp.body| == 0 ==> e == Api(APIError(resp.statusCode, "", resp.status, []))
    ensures resp.readError.None? && |resp.body| > 0 ==>
              match codec.unmarshalError(resp.body)
              case Unparsable => e.Wrapped? && e.context == ErrorUnmarshalFailed
              case NoErrorMember => e == Api(APIError(resp.statusCode, "", resp.status, []))
              case ErrorMember(info) => e == Api(info)
  {
    if resp.readError.None? && |resp.body| > 0 && codec.unmarshalError(resp.body) == NoErrorMember then
      Api(APIError(resp.statusCode, "", resp.status, []))
    else
      NewAPIErrorAsWritten(resp, codec)
  }

  /** The two agree on every response except those whose body decodes
      without an `error` member. */
  lemma NewAPIErrorAgrees(resp: Response, codec: Codec)
    requires !(resp.readError.None? && |resp.body| > 0 && codec.unmarshalError(resp.body) == NoErrorMember)
    ensures NewAPIError(resp, codec) == NewAPIErrorAsWritten(resp, codec)
  {
  }

  /** A 404 whose body is `{}` makes the source panic instead of reporting
      the 404. */
  lemma NewAPIErrorEmptyObjectPanics(codec: Codec, body: Bytes)
    requires |body| > 0 && codec.unmarshalError(body) == NoErrorMember
    ensures NewAPIErrorAsWritten(Response(404, "404 Not Found", map[], body, None), codec).Panicked?
    ensures NewAPIError(Response(404, "404 Not Found", map[], body, None), codec)
            == Api(APIError(404, "", "404 Not Found", []))
  {
  }

  const UnmarshalResponseFailed := "deserializeUnaryResponse: error unmarshalling response"
  const HttpHeadersKey := "httpHeaders"

  /** Go's `deserializeUnaryResponse`: a non-2xx status becomes an API error;
      otherwise the decoded body, with the response headers under
      `httpHeaders`. Decoding `null` leaves a nil map, and the insertion
      into it panics. */
  function DeserializeUnaryResponse(resp: Response, codec: Codec): (r: Result<map<string, Json>, Error>)
    ensures !HttpStatusOk(resp.statusCode) ==> r == Err(NewAPIError(resp, codec))
    ensures r.Ok? <==> HttpStatusOk(resp.statusCode) && resp.readError.None?
                       && (|resp.body| == 0 || UnmarshalObject(codec, resp.body).Decoded?)
    ensures r.Ok? ==> HttpHeadersKey in r.value && r.value[HttpHeadersKey] == HeadersJson(resp.header)
    ensures r.Ok? && |resp.body| == 0 ==> r.value.Keys == {HttpHeadersKey}
    ensures r.Ok? && |resp.body| > 0 ==>
              var fields := UnmarshalObject(codec, resp.body).fields;
              r.value.Keys == fields.Keys + {HttpHeadersKey}
              && forall k :: k in fields && k != HttpHeadersKey ==> r.value[k] == fields[k]
    ensures HttpStatusOk(resp.statusCode) && resp.readError.Some? ==> r == Err(resp.readError.value)
  {
    if !HttpStatusOk(resp.statusCode) then Err(NewAPIError(resp, codec))
    else if resp.readError.Some? then Err(resp.readError.value)
    else if |resp.body| == 0 then Ok(map[HttpHeadersKey := HeadersJson(resp.header)])
    else
      match UnmarshalObject(codec, resp.body)
      case Decoded(fields) => Ok(fields[HttpHeadersKey := HeadersJson(resp.header)])
      case DecodedNull => Err(Panicked(NilMapAssignment))
      case DecodeFailed => Err(Wrapped(UnmarshalResponseFailed, External(CannotUnmarshal)))
  }

  /** A non-2xx response with an empty, fully read body is reported with the
      response's own status code and status text. */
  lemma EmptyErrorBody(resp: Response, codec: Codec)
    requires !HttpStatusOk(resp.statusCode) && resp.readError.None? && |resp.body| == 0
    ensures DeserializeUnaryResponse(resp, codec) == Err(Api(APIError(resp.statusCode, "", resp.status, [])))
  {
  }
}
