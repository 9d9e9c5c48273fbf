/** The values shared by every part of the client: the two backends, the client
    configuration, generic JSON payloads, HTTP responses, and the error values
    the operations return. */
module Common {
  import opened Wrappers

  /** One octet of a request or response body. */
  newtype byte = x: int | 0 <= x < 256

  type Bytes = seq<byte>

  const LF: byte := 10
  const CR: byte := 13
  const COLON: byte := 58

  /** The two deployment surfaces the client can target. */
  datatype Backend = GeminiAPI | VertexAI

  /** An HTTP header set, one value per (canonical) header name. */
  type Headers = map<string, string>

  /** The value of a header, or "" when it is absent (Go's `Header.Get`). */
  function HeaderGet(h: Headers, name: string): string {
    if name in h then h[name] else ""
  }

  /** Per-call HTTP options: base URL, API version path segment, extra headers. */
  datatype HTTPOptions = HTTPOptions(baseURL: string, apiVersion: string, headers: Headers)

  /** The parts of the client configuration the core reads. */
  datatype ClientConfig = ClientConfig(
    backend: Backend,
    project: string,
    location: string,
    apiKey: string,
    baseURL: string)

  /** A generic JSON value: the source's `any` inside `map[string]any` payloads. */
  datatype Json =
    | JNull
    | JBool(b: bool)
    | JNumber(literal: string)
    | JString(s: string)
    | JArray(items: seq<Json>)
    | JObject(fields: map<string, Json>)

  /** A server-reported failure, as carried by the `error` member of an error body. */
  datatype APIError = APIError(code: int, message: string, status: string, details: seq<map<string, Json>>)

  /** The errors the operations of the core return. Dynamic details that the
      source formats into a message are kept as fields. */
  datatype Error =
    | Failure(msg: string)                         // an error with a fixed text
    | Wrapped(context: string, cause: Error)       // "<context>: <cause>"
    | External(what: string)                       // an error raised by a collaborator outside the model
    | Panicked(reason: string)                     // a Go runtime panic (failed type assertion, nil dereference)
    | Api(apiError: APIError)                      // a server-reported error
    | InvalidStreamChunk(prefix: Bytes, data: Bytes)
    | StreamUnmarshalFailed(prefix: Bytes, data: Bytes)
    | ReadFailed(chunkSize: nat, offset: nat, cause: Error)
    | ShortRead(chunkSize: nat, offset: nat, bytesRead: nat)
    | RequestCreationFailed(offset: nat, cause: Error)
    | ChunkRequestFailed(offset: nat, cause: Error)
    | ChunkResponseInvalid(offset: nat, cause: Error)
    | InvalidMessageFormat(messageType: int, message: Bytes)

  /** What `io.ReadAll` produced from a response body: the bytes read and the
      error that stopped it, if any. */
  datatype Response = Response(
    statusCode: int,
    status: string,
    header: Headers,
    body: Bytes,
    readError: Option<Error>)

  /** What unmarshalling an error body into `{error: *APIError}` gives. */
  datatype ErrorBody = Unparsable | NoErrorMember | ErrorMember(info: APIError)

  /** The JSON encoder and decoders, which are outside the model: `unmarshal`
      is None on a syntax error, `marshal` None when encoding fails, and
      `fitsServerMessage` says whether every member of an object has the
      type of the `LiveServerMessage` field it decodes into (a mismatch is
      `json.Unmarshal`'s type error). */
  datatype Codec = Codec(
    unmarshal: Bytes -> Option<Json>,
    unmarshalError: Bytes -> ErrorBody,
    marshal: map<string, Json> -> Option<Bytes>,
    fitsServerMessage: map<string, Json> -> bool)

  /** The outcome of `json.Unmarshal(data, &m)` into a fresh `map[string]any`. */
  datatype ObjectDecoding =
    | Decoded(fields: map<string, Json>)   // a JSON object
    | DecodedNull                          // `null`: the map variable becomes nil
    | DecodeFailed                         // a syntax error, or a JSON value that is not an object

  function UnmarshalObject(codec: Codec, data: Bytes): (d: ObjectDecoding)
    ensures d.Decoded? <==> codec.unmarshal(data).Some? && codec.unmarshal(data).value.JObject?
    ensures d.DecodedNull? <==> codec.unmarshal(data) == Some(JNull)
  {
    match codec.unmarshal(data)
    case None => DecodeFailed
    case Some(JObject(m)) => Decoded(m)
    case Some(JNull) => DecodedNull
    case Some(_) => DecodeFailed
  }

  /** The headers of a response as a payload value. */
  function HeadersJson(h: Headers): Json {
    JObject(map k | k in h :: JArray([JString(h[k])]))
  }
}
