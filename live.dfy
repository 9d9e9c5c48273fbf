/** The realtime (live) API: opening a websocket session to a model, the
    setup message sent first, and sending, receiving and closing on the
    session. The websocket library is reduced to a connection object that
    records the frames written to it and hands out the frames the server
    sends. */
module Live {
  import opened Wrappers
  import opened Common
  import Transformer
  import ApiClient

  /** The websocket message type of a text frame. */
  const TextMessage := 1

  const WebsocketSecure := "wss"
  const WebsocketPlain := "ws"
  const VertexLivePath := "/ws/google.cloud.aiplatform.v1beta1.LlmBidiService/BidiGenerateContent"
  const GeminiLivePath := "/ws/google.ai.generativelanguage.v1alpha.GenerativeService.BidiGenerateContent"
  const AuthorizationKey := "Authorization"
  const BearerPrefix := "Bearer "
  const KeyQueryPrefix := "key="
  const SchemeSeparator := "://"
  const QueryMark := "?"

  // JSON member names of the setup message
  const SetupMember := "setup"
  const ModelMember := "model"
  const GenerationConfigMember := "generationConfig"
  const SystemInstructionMember := "systemInstruction"
  const ToolsMember := "tools"

  // Error texts
  const ParseBaseURLFailed := "failed to parse base URL"
  const TokenFailed := "failed to get token"
  const ConnectToPrefix := "Connect to "
  const ConnectFailedSuffix := " failed"
  const MarshalSetupFailed := "marshal LiveClientSetup failed"
  const SetupInSend := "message SetUp is not supported in Send(). Use Connect() instead"
  const MarshalMessageFailed := "marshal client message error"
  const ConnectionClosed := "use of closed network connection"
  const AbnormalClosure := "websocket: close 1006 (abnormal closure): unexpected EOF"

  /** The parts of a URL the handshake reads or sets. */
  datatype URL = URL(scheme: string, host: string, path: string, rawQuery: string)

  /** `URL.String()` for a URL with scheme, host, path and optional query.
      The fixed paths used here need no escaping. */
  function URLString(u: URL): string {
    u.scheme + SchemeSeparator + u.host + u.path + (if u.rawQuery == "" then "" else QueryMark + u.rawQuery)
  }

  /** One websocket frame: its message type and its payload. */
  datatype Frame = Frame(messageType: int, data: Bytes)

  /** What the server side of a connection delivers next: a frame, or a
      failure of the connection. */
  datatype Inbound = Message(frame: Frame) | Broken(err: Error)

  /** A websocket connection. `sent` is every frame written so far; `inbound`
      what the server has yet to deliver; `writeError` the failure every write
      meets on this connection, if any. */
  class Conn {
    var sent: seq<Frame>
    var inbound: seq<Inbound>
    var closed: bool
    const writeError: Option<Error>

    constructor (inbound: seq<Inbound>, writeError: Option<Error>)
      ensures sent == [] && this.inbound == inbound && !closed && this.writeError == writeError
    {
      sent := [];
      this.inbound := inbound;
      closed := false;
      this.writeError := writeError;
    }

    /** Why a write would fail now, if it would: a closed connection refuses
        every write. */
    function WriteFailure(): (e: Option<Error>)
      reads this
      ensures closed ==> e == Some(External(ConnectionClosed))
      ensures !closed ==> e == writeError
    {
      if closed then Some(External(ConnectionClosed)) else writeError
    }

    /** What a read returns now: a closed connection fails, a drained one
        reports the peer's abnormal closure, otherwise the next delivery. */
    function NextInbound(): (n: Inbound)
      reads this
      ensures closed ==> n == Broken(External(ConnectionClosed))
      ensures !closed && inbound == [] ==> n == Broken(External(AbnormalClosure))
      ensures !closed && inbound != [] ==> n == inbound[0]
    {
      if closed then Broken(External(ConnectionClosed))
      else if inbound == [] then Broken(External(AbnormalClosure))
      else inbound[0]
    }

    /** `Conn.WriteMessage`: the frame is recorded exactly when the write
        succeeds. */
    method WriteMessage(messageType: int, data: Bytes) returns (err: Option<Error>)
      modifies this
      ensures err == old(WriteFailure())
      ensures sent == old(sent) + (if err.None? then [Frame(messageType, data)] else [])
      ensures inbound == old(inbound) && closed == old(closed)
    {
      err := WriteFailure();
      if err.None? {
        sent := sent + [Frame(messageType, data)];
      }
    }

    /** `Conn.ReadMessage`: a delivered frame is consumed; a failure is not,
        so that every later read reports it again. */
    method ReadMessage() returns (n: Inbound)
      modifies this
      ensures n == old(NextInbound())
      ensures inbound == (if n.Message? then old(inbound)[1..] else old(inbound))
      ensures sent == old(sent) && closed == old(closed)
    {
      n := NextInbound();
      if n.Message? {
        inbound := inbound[1..];
      }
    }

    /** `Conn.Close`. */
    method Close()
      modifies this
      ensures closed && sent == old(sent) && inbound == old(inbound)
    {
      closed := true;
    }
  }

  /** The scheme of the websocket URL: a websocket scheme of the base URL is
      kept, any other becomes the secure one. */
  function WebsocketScheme(scheme: string): (s: string)
    ensures s == WebsocketPlain || s == WebsocketSecure
    ensures scheme == WebsocketPlain || scheme == WebsocketSecure ==> s == scheme
  {
    if scheme != WebsocketSecure && scheme != WebsocketPlain then WebsocketSecure else scheme
  }

  /** Where the session dials and the headers it sends. */
  datatype Target = Target(url: URL, header: Headers)

  /** The websocket target for a parsed base URL. Vertex AI needs an access
      token, sent as a bearer credential, and dials the v1beta1 service;
      Gemini dials the v1alpha service with the API key in the query and no
      headers. Only Vertex AI can fail, and only when its token does. */
  function DialTarget(cfg: ClientConfig, base: URL, token: Result<string, Error>): (r: Result<Target, Error>)
    ensures r.Ok? ==> r.value.url.scheme == WebsocketScheme(base.scheme) && r.value.url.host == base.host
    ensures cfg.backend == VertexAI ==>
              (r.Err? <==> token.Err?)
              && (token.Err? ==> r.error == Wrapped(TokenFailed, token.error))
              && (r.Ok? ==> r.value.url.path == VertexLivePath && r.value.url.rawQuery == ""
                            && r.value.header == map[ApiClient.ContentTypeKey := ApiClient.JsonContentType,
                                                     AuthorizationKey := BearerPrefix + token.value])
    ensures cfg.backend == GeminiAPI ==>
              r.Ok? && r.value.url.path == GeminiLivePath
              && r.value.url.rawQuery == KeyQueryPrefix + cfg.apiKey && r.value.header == map[]
  {
    var scheme := WebsocketScheme(base.scheme);
    if cfg.backend == VertexAI then
      match token
      case Err(e) => Err(Wrapped(TokenFailed, e))
      case Ok(t) =>
        Ok(Target(URL(scheme, base.host, VertexLivePath, ""),
                  map[ApiClient.ContentTypeKey := ApiClient.JsonContentType, AuthorizationKey := BearerPrefix + t]))
    else
      Ok(Target(URL(scheme, base.host, GeminiLivePath, KeyQueryPrefix + cfg.apiKey), map[]))
  }

  /** The Gemini target never depends on the token. */
  lemma GeminiIgnoresToken(cfg: ClientConfig, base: URL, t1: Result<string, Error>, t2: Result<string, Error>)
    requires cfg.backend == GeminiAPI
    ensures DialTarget(cfg, base, t1) == DialTarget(cfg, base, t2)
  {
  }

  /** Go's `LiveConnectConfig`, reduced to the settings the setup message
      copies; each is its JSON encoding. */
  datatype LiveConnectConfig = LiveConnectConfig(
    generationConfig: Option<Json>,
    systemInstruction: Option<Json>,
    tools: seq<Json>)

  /** Go's `LiveClientSetup`. */
  datatype LiveClientSetup = LiveClientSetup(
    model: string,
    generationConfig: Option<Json>,
    systemInstruction: Option<Json>,
    tools: seq<Json>)

  /** Go's `LiveClientMessage`: the setup, which only `Connect` may send, and
      the JSON members of the message's other fields. */
  datatype LiveClientMessage = LiveClientMessage(setup: Option<LiveClientSetup>, content: map<string, Json>)

  /** The JSON members of a setup: the model always, each optional setting
      only when it is set (an empty tool list counts as unset). */
  function SetupJson(s: LiveClientSetup): (j: map<string, Json>)
    ensures j.Keys <= {ModelMember, GenerationConfigMember, SystemInstructionMember, ToolsMember}
    ensures ModelMember in j && j[ModelMember] == JString(s.model)
    ensures GenerationConfigMember in j <==> s.generationConfig.Some?
    ensures GenerationConfigMember in j ==> j[GenerationConfigMember] == s.generationConfig.value
    ensures SystemInstructionMember in j <==> s.systemInstruction.Some?
    ensures SystemInstructionMember in j ==> j[SystemInstructionMember] == s.systemInstruction.value
    ensures ToolsMember in j <==> s.tools != []
    ensures ToolsMember in j ==> j[ToolsMember] == JArray(s.tools)
  {
    var withModel := map[ModelMember := JString(s.model)];
    var withGeneration :=
      if s.generationConfig.Some? then withModel[GenerationConfigMember := s.generationConfig.value] else withModel;
    var withInstruction :=
      if s.systemInstruction.Some? then withGeneration[SystemInstructionMember := s.systemInstruction.value]
      else withGeneration;
    if s.tools != [] then withInstruction[ToolsMember := JArray(s.tools)] else withInstruction
  }

  /** The JSON members of a client message: its setup, if any, under "setup". */
  function MessageJson(m: LiveClientMessage): (j: map<string, Json>)
    ensures m.setup.Some? ==> SetupMember in j && j[SetupMember] == JObject(SetupJson(m.setup.value))
    ensures m.setup.None? ==> j == m.content
    ensures j.Keys == m.content.Keys + (if m.setup.Some? then {SetupMember} else {})
  {
    if m.setup.Some? then m.content[SetupMember := JObject(SetupJson(m.setup.value))] else m.content
  }

  /** The setup `Connect` sends: the model's full resource name, and with a
      config exactly its generation config, system instruction and tools.
      A model name `tModelFullName` rejects is that error, unchanged. */
  function SetupFor(cfg: ClientConfig, model: string, config: Option<LiveConnectConfig>): (r: Result<LiveClientSetup, Error>)
    ensures r.Ok? <==> Transformer.TModelFullName(cfg, JString(model)).Ok?
    ensures r.Err? ==> r.error == Transformer.TModelFullName(cfg, JString(model)).error
    ensures r.Ok? ==> r.value.model == Transformer.TModelFullName(cfg, JString(model)).value
    ensures r.Ok? && config.None? ==> SetupJson(r.value).Keys == {ModelMember}
    ensures r.Ok? && config.Some? ==>
              r.value.generationConfig == config.value.generationConfig
              && r.value.systemInstruction == config.value.systemInstruction
              && r.value.tools == config.value.tools
  {
    match Transformer.TModelFullName(cfg, JString(model))
    case Err(e) => Err(e)
    case Ok(m) =>
      if config.Some? then
        Ok(LiveClientSetup(m, config.value.generationConfig, config.value.systemInstruction, config.value.tools))
      else
        Ok(LiveClientSetup(m, None, None, []))
  }

  /** The JSON of the first frame: `{"setup": <setup>}`. */
  function SetupMessageJson(setup: LiveClientSetup): map<string, Json> {
    MessageJson(LiveClientMessage(Some(setup), map[]))
  }

  /** A setup message holds the setup and nothing else. */
  lemma SetupMessageJsonOnly(setup: LiveClientSetup)
    ensures SetupMessageJson(setup) == map[SetupMember := JObject(SetupJson(setup))]
  {
    var j := SetupMessageJson(setup);
    assert j.Keys == {SetupMember};
  }

  /** The collaborators of `Connect` that are outside the model: parsing the
      base URL, the access token of the credentials, the dialer (the error of
      dialing a URL with headers, if any), the frames the server will send
      and the failure writes meet, and the JSON codec. */
  datatype Network = Network(
    parseURL: string -> Result<URL, Error>,
    token: Result<string, Error>,
    dialError: (string, Headers) -> Option<Error>,
    inbound: seq<Inbound>,
    writeError: Option<Error>,
    codec: Codec)

  /** Everything `Connect` settles before it writes: the URL dialed, its
      headers, the setup and the encoded setup frame. */
  datatype Handshake = Handshake(url: string, header: Headers, setup: LiveClientSetup, frame: Bytes)

  /** The context of a failed dial, naming the URL. */
  function DialFailed(url: string): string {
    ConnectToPrefix + url + ConnectFailedSuffix
  }

  /** The base URL parses, the target is chosen (its token obtained) and
      dialing it succeeds. */
  predicate Dials(cfg: ClientConfig, net: Network) {
    net.parseURL(cfg.baseURL).Ok?
    && DialTarget(cfg, net.parseURL(cfg.baseURL).value, net.token).Ok?
    && var target := DialTarget(cfg, net.parseURL(cfg.baseURL).value, net.token).value;
       net.dialError(URLString(target.url), target.header).None?
  }

  /** The handshake of `Connect`, step by step: parse the base URL, choose
      the target (fetching the token on Vertex AI), dial, resolve the model,
      encode the setup. The first step to fail decides the error. */
  function ConnectHandshake(cfg: ClientConfig, model: string, config: Option<LiveConnectConfig>, net: Network): (r: Result<Handshake, Error>)
    ensures r.Ok? ==> SetupFor(cfg, model, config) == Ok(r.value.setup)
                      && net.codec.marshal(SetupMessageJson(r.value.setup)) == Some(r.value.frame)
    ensures r.Ok? ==> net.parseURL(cfg.baseURL).Ok?
                      && DialTarget(cfg, net.parseURL(cfg.baseURL).value, net.token).Ok?
                      && var target := DialTarget(cfg, net.parseURL(cfg.baseURL).value, net.token).value;
                         r.value.url == URLString(target.url) && r.value.header == target.header
                         && net.dialError(r.value.url, r.value.header).None?
    ensures net.parseURL(cfg.baseURL).Err? ==> r == Err(Wrapped(ParseBaseURLFailed, net.parseURL(cfg.baseURL).error))
    ensures net.parseURL(cfg.baseURL).Ok? && DialTarget(cfg, net.parseURL(cfg.baseURL).value, net.token).Err? ==>
              r == Err(DialTarget(cfg, net.parseURL(cfg.baseURL).value, net.token).error)
    ensures Dials(cfg, net) && SetupFor(cfg, model, config).Err? ==> r == Err(SetupFor(cfg, model, config).error)
    ensures Dials(cfg, net) && SetupFor(cfg, model, config).Ok?
            && net.codec.marshal(SetupMessageJson(SetupFor(cfg, model, config).value)).None? ==>
              r == Err(Wrapped(MarshalSetupFailed, External(ApiClient.UnsupportedValue)))
    ensures r.Ok? <==> Dials(cfg, net) && SetupFor(cfg, model, config).Ok?
                       && net.codec.marshal(SetupMessageJson(SetupFor(cfg, model, config).value)).Some?
  {
    match net.parseURL(cfg.baseURL)
    case Err(e) => Err(Wrapped(ParseBaseURLFailed, e))
    case Ok(base) =>
      match DialTarget(cfg, base, net.token)
      case Err(e) => Err(e)
      case Ok(target) =>
        var url := URLString(target.url);
        match net.dialError(url, target.header)
        case Some(e) => Err(Wrapped(DialFailed(url), e))
        case None =>
          match SetupFor(cfg, model, config)
          case Err(e) => Err(e)
          case Ok(setup) =>
            match net.codec.marshal(SetupMessageJson(setup))
            case None => Err(Wrapped(MarshalSetupFailed, External(ApiClient.UnsupportedValue)))
            case Some(frame) => Ok(Handshake(url, target.header, setup, frame))
  }

  /** On Vertex AI a token failure ends the handshake before the dial: the
      error is the token's, whatever the dialer or the model would do. */
  lemma TokenFailsBeforeDial(cfg: ClientConfig, model: string, config: Option<LiveConnectConfig>, net: Network,
                             dialError: (string, Headers) -> Option<Error>)
    requires cfg.backend == VertexAI && net.parseURL(cfg.baseURL).Ok? && net.token.Err?
    ensures ConnectHandshake(cfg, model, config, net) == Err(Wrapped(TokenFailed, net.token.error))
    ensures ConnectHandshake(cfg, model, config, net.(dialError := dialError)) == ConnectHandshake(cfg, model, config, net)
  {
  }

  /** A failed dial is reported with the URL before the model is looked at,
      so even a model name that would be rejected gives the dial error. */
  lemma DialFailsBeforeModel(cfg: ClientConfig, model: string, config: Option<LiveConnectConfig>, net: Network)
    requires net.parseURL(cfg.baseURL).Ok?
    requires DialTarget(cfg, net.parseURL(cfg.baseURL).value, net.token).Ok?
    requires var target := DialTarget(cfg, net.parseURL(cfg.baseURL).value, net.token).value;
             net.dialError(URLString(target.url), target.header).Some?
    ensures var target := DialTarget(cfg, net.parseURL(cfg.baseURL).value, net.token).value;
            var url := URLString(target.url);
            ConnectHandshake(cfg, model, config, net) == Err(Wrapped(DialFailed(url), net.dialError(url, target.header).value))
  {
  }

  /** On Gemini, a bare model name with no config gives the setup message
      `{"setup": {"model": "models/<name>"}}`. */
  lemma GeminiSetupMessage(cfg: ClientConfig, model: string)
    requires cfg.backend == GeminiAPI && model != "" && '/' !in model
    ensures SetupFor(cfg, model, None).Ok?
    ensures SetupMessageJson(SetupFor(cfg, model, None).value)
            == map[SetupMember := JObject(map[ModelMember := JString(Transformer.ModelsPrefix + model)])]
  {
    Transformer.TModelBareName(cfg, model);
    var s := SetupFor(cfg, model, None).value;
    SetupMessageJsonOnly(s);
    assert SetupJson(s) == map[ModelMember := JString(Transformer.ModelsPrefix + model)];
  }

  /** On Vertex AI a bare model name is sent as the Google publisher model
      under the client's project and location. */
  lemma VertexSetupModel(cfg: ClientConfig, model: string, config: Option<LiveConnectConfig>)
    requires cfg.backend == VertexAI && model != "" && '/' !in model
    ensures SetupFor(cfg, model, config).Ok?
    ensures SetupFor(cfg, model, config).value.model
            == Transformer.LocationScope(cfg) + Transformer.GoogleModelsPrefix + model
  {
    Transformer.TModelFullNameBareVertex(cfg, model);
  }

  /** What a client receives for one delivery: a connection failure is
      passed on unchanged; a frame that is not a JSON object (`null` aside,
      which leaves the message empty), or an object with a member of the
      wrong type for `LiveServerMessage`, is an invalid message format error
      carrying the frame's type and bytes. */
  function ServerMessage(n: Inbound, codec: Codec): (r: Result<map<string, Json>, Error>)
    ensures n.Broken? ==> r == Err(n.err)
    ensures n.Message? ==>
              match UnmarshalObject(codec, n.frame.data)
              case DecodeFailed => r == Err(InvalidMessageFormat(n.frame.messageType, n.frame.data))
              case DecodedNull => r == Ok(map[])
              case Decoded(m) =>
                r == if codec.fitsServerMessage(m) then Ok(m)
                     else Err(InvalidMessageFormat(n.frame.messageType, n.frame.data))
    ensures r.Ok? <==> n.Message? && (UnmarshalObject(codec, n.frame.data).DecodedNull?
                                      || (UnmarshalObject(codec, n.frame.data).Decoded?
                                          && codec.fitsServerMessage(UnmarshalObject(codec, n.frame.data).fields)))
  {
    match n
    case Broken(e) => Err(e)
    case Message(f) =>
      match UnmarshalObject(codec, f.data)
      case DecodeFailed => Err(InvalidMessageFormat(f.messageType, f.data))
      case DecodedNull => Ok(map[])
      case Decoded(m) =>
        if codec.fitsServerMessage(m) then Ok(m) else Err(InvalidMessageFormat(f.messageType, f.data))
  }

  /** A realtime session: the connection and the client's configuration. */
  class Session {
    const conn: Conn
    const config: ClientConfig
    const codec: Codec

    constructor (conn: Conn, config: ClientConfig, codec: Codec)
      ensures this.conn == conn && this.config == config && this.codec == codec
    {
      this.conn := conn;
      this.config := config;
      this.codec := codec;
    }

    /** Go's `Session.Send`: a message carrying a setup is refused and
        nothing is written; a message that cannot be encoded is an error and
        nothing is written; otherwise its encoding is written as one text
        frame, and the write's failure, if any, is the result. */
    method Send(input: LiveClientMessage) returns (err: Option<Error>)
      modifies conn
      ensures input.setup.Some? ==> err == Some(Failure(SetupInSend)) && conn.sent == old(conn.sent)
      ensures input.setup.None? && codec.marshal(MessageJson(input)).None? ==>
                err == Some(Wrapped(MarshalMessageFailed, External(ApiClient.UnsupportedValue)))
                && conn.sent == old(conn.sent)
      ensures input.setup.None? && codec.marshal(MessageJson(input)).Some? ==>
                err == old(conn.WriteFailure())
                && conn.sent == old(conn.sent)
                                + (if err.None? then [Frame(TextMessage, codec.marshal(MessageJson(input)).value)] else [])
      ensures conn.inbound == old(conn.inbound) && conn.closed == old(conn.closed)
    {
      if input.setup.Some? {
        return Some(Failure(SetupInSend));
      }
      var data := codec.marshal(MessageJson(input));
      if data.None? {
        return Some(Wrapped(MarshalMessageFailed, External(ApiClient.UnsupportedValue)));
      }
      err := conn.WriteMessage(TextMessage, data.value);
    }

    /** Go's `Session.Receive`: the next delivery, decoded. The session is
        not closed by a failure of either kind. */
    method Receive() returns (r: Result<map<string, Json>, Error>)
      modifies conn
      ensures r == ServerMessage(old(conn.NextInbound()), codec)
      ensures conn.inbound == (if old(conn.NextInbound()).Message? then old(conn.inbound)[1..] else old(conn.inbound))
      ensures conn.sent == old(conn.sent) && conn.closed == old(conn.closed)
    {
      var n := conn.ReadMessage();
      r := ServerMessage(n, codec);
    }

    /** Go's `Session.Close`: later writes and reads fail. */
    method Close()
      modifies conn
      ensures conn.closed && conn.sent == old(conn.sent) && conn.inbound == old(conn.inbound)
      ensures conn.WriteFailure().Some? && conn.NextInbound().Broken?
    {
      conn.Close();
    }
  }

  /** Go's `Live`, the entry point holding the client's configuration. */
  class Live {
    const config: ClientConfig

    constructor (config: ClientConfig)
      ensures this.config == config
    {
      this.config := config;
    }

    /** Go's `Live.Connect`: the handshake's first failure is the error;
        otherwise a new session over a new connection, on which the setup
        frame has been written. The write's own failure is ignored: the
        session is returned all the same, with nothing sent. */
    method Connect(model: string, connectConfig: Option<LiveConnectConfig>, net: Network) returns (r: Result<Session, Error>)
      ensures r.Err? <==> ConnectHandshake(config, model, connectConfig, net).Err?
      ensures r.Err? ==> r.error == ConnectHandshake(config, model, connectConfig, net).error
      ensures r.Ok? ==>
                fresh(r.value) && fresh(r.value.conn)
                && r.value.config == config && r.value.codec == net.codec
                && r.value.conn.sent
                   == (if net.writeError.None? then [Frame(TextMessage, ConnectHandshake(config, model, connectConfig, net).value.frame)]
                       else [])
                && r.value.conn.inbound == net.inbound && !r.value.conn.closed
    {
      var parsed := net.parseURL(config.baseURL);
      if parsed.Err? {
        return Err(Wrapped(ParseBaseURLFailed, parsed.error));
      }
      var target := DialTarget(config, parsed.value, net.token);
      if target.Err? {
        return Err(target.error);
      }
      var url := URLString(target.value.url);
      var dialed := net.dialError(url, target.value.header);
      if dialed.Some? {
        return Err(Wrapped(DialFailed(url), dialed.value));
      }
      var conn := new Conn(net.inbound, net.writeError);
      var session := new Session(conn, config, net.codec);
      var setup := SetupFor(config, model, connectConfig);
      if setup.Err? {
        return Err(setup.error);
      }
      var frame := net.codec.marshal(SetupMessageJson(setup.value));
      if frame.None? {
        return Err(Wrapped(MarshalSetupFailed, External(ApiClient.UnsupportedValue)));
      }
      var ignored := conn.WriteMessage(TextMessage, frame.value);
      return Ok(session);
    }
  }
}
