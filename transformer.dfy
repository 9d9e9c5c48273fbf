/** Backend-aware name transforms: short user-supplied identifiers (model names,
    cached-content names) become the resource paths each backend expects. */
module Transformer {
  import opened Wrappers
  import opened Seqs
  import opened Common

  // Error texts
  const NameNotString := "interface conversion: name is not a string"
  const FullNameNotString := "tModelFullName: model is not a string"
  const FullNameContext := "tModelFullName: "
  const ContentNotMap := "interface conversion: content is not a map"
  const PartNotMap := "interface conversion: part is not a map"
  const ContentsNotList := "tContentsForEmbed: contents is not a list"
  const BaseModelsNotBool := "interface conversion: baseModels is not a bool"
  const ResponseNotMap := "tExtractModels: response is not a map"

  const ProjectsPrefix := "projects/"
  const LocationsPrefix := "locations/"
  const ModelsPrefix := "models/"
  const TunedModelsPrefix := "tunedModels/"
  const PublishersPrefix := "publishers/"
  const GooglePublisherPrefix := "publishers/google/"
  const GoogleModelsPrefix := "publishers/google/models/"
  const GoogleModelsCollection := "publishers/google/models"

  /** The Google publisher's model prefix lies under "publishers/" and ends
      in "models/". */
  lemma GoogleModelsPrefixParts()
    ensures StartsWith(GoogleModelsPrefix, PublishersPrefix)
    ensures GoogleModelsPrefix == GooglePublisherPrefix + ModelsPrefix
  {
    assert GoogleModelsPrefix[..|PublishersPrefix|] == PublishersPrefix;
  }

  /** "projects/<P>/locations/<L>/", the Vertex AI location scope. */
  function LocationScope(cfg: ClientConfig): string {
    ProjectsPrefix + cfg.project + "/" + LocationsPrefix + cfg.location + "/"
  }

  /** The collection is prepended when the name does not already start with it and
      prepending it gives exactly `depth` path segments. */
  predicate ShouldPrependCollection(name: string, collection: string, depth: int) {
    !StartsWith(name, collection + "/") && CountOf(collection + "/" + name, '/') + 1 == depth
  }

  /** Go's `tResourceName`. */
  function TResourceName(cfg: ClientConfig, name: string, collection: string, depth: int): (r: string)
    ensures cfg.backend == GeminiAPI ==>
              r == (if ShouldPrependCollection(name, collection, depth) then collection + "/" + name else name)
    ensures cfg.backend == VertexAI ==> StartsWith(r, ProjectsPrefix) || r == name
    ensures cfg.backend == VertexAI ==>
              if StartsWith(name, ProjectsPrefix) then r == name
              else if StartsWith(name, LocationsPrefix) then r == ProjectsPrefix + cfg.project + "/" + name
              else if StartsWith(name, collection + "/") then r == LocationScope(cfg) + name
              else if ShouldPrependCollection(name, collection, depth) then
                r == LocationScope(cfg) + collection + "/" + name
              else r == name
    ensures EndsWith(r, name)
  {
    var prepend := ShouldPrependCollection(name, collection, depth);
    match cfg.backend
    case VertexAI =>
      if StartsWith(name, ProjectsPrefix) then name
      else if StartsWith(name, LocationsPrefix) then
        StartsWithAppend(ProjectsPrefix, cfg.project + "/" + name);
        EndsWithAppend(ProjectsPrefix + cfg.project + "/", name);
        ProjectsPrefix + cfg.project + "/" + name
      else if StartsWith(name, collection + "/") then
        ScopedStartsWithProjects(cfg, name);
        LocationScope(cfg) + name
      else if prepend then
        ScopedStartsWithProjects(cfg, collection + "/" + name);
        assert LocationScope(cfg) + (collection + "/" + name) == LocationScope(cfg) + collection + "/" + name;
        EndsWithAppend(LocationScope(cfg) + collection + "/", name);
        LocationScope(cfg) + collection + "/" + name
      else name
    case GeminiAPI =>
      if prepend then
        EndsWithAppend(collection + "/", name);
        collection + "/" + name
      else name
  }

  /** A name prefixed with the location scope starts with "projects/" and ends with the name. */
  lemma ScopedStartsWithProjects(cfg: ClientConfig, name: string)
    ensures StartsWith(LocationScope(cfg) + name, ProjectsPrefix)
    ensures EndsWith(LocationScope(cfg) + name, name)
  {
    StartsWithAppend(ProjectsPrefix, cfg.project + "/" + LocationsPrefix + cfg.location + "/" + name);
    assert LocationScope(cfg) + name == ProjectsPrefix + (cfg.project + "/" + LocationsPrefix + cfg.location + "/" + name);
    EndsWithAppend(LocationScope(cfg), name);
  }

  /** On Gemini, a name already in the collection is returned unchanged; on Vertex AI
      it is placed under the configured project and location. */
  lemma TResourceNameInCollection(cfg: ClientConfig, name: string, collection: string, depth: int)
    requires StartsWith(name, collection + "/")
    ensures cfg.backend == GeminiAPI ==> TResourceName(cfg, name, collection, depth) == name
    ensures cfg.backend == VertexAI && !StartsWith(name, ProjectsPrefix) && !StartsWith(name, LocationsPrefix) ==>
              TResourceName(cfg, name, collection, depth) == LocationScope(cfg) + name
  {
  }

  /** When the collection is prepended on Gemini, the result has exactly `depth` segments. */
  lemma TResourceNameDepth(cfg: ClientConfig, name: string, collection: string, depth: int)
    requires cfg.backend == GeminiAPI && ShouldPrependCollection(name, collection, depth)
    ensures CountOf(TResourceName(cfg, name, collection, depth), '/') + 1 == depth
  {
  }

  /** Applying `tResourceName` to its own result changes nothing, on both backends. */
  lemma TResourceNameIdempotent(cfg: ClientConfig, name: string, collection: string, depth: int)
    ensures var r := TResourceName(cfg, name, collection, depth);
            TResourceName(cfg, r, collection, depth) == r
  {
    var r := TResourceName(cfg, name, collection, depth);
    if cfg.backend == GeminiAPI && ShouldPrependCollection(name, collection, depth) {
      StartsWithAppend(collection + "/", name);
      assert collection + "/" + name == (collection + "/") + name;
    }
  }

  /** Go's `tCachedContentName`: the value must be a string (the type assertion
      panics otherwise); cached contents live two segments deep. */
  function TCachedContentName(cfg: ClientConfig, name: Json): (r: Result<string, Error>)
    ensures r.Err? <==> !name.JString?
    ensures r.Ok? ==> r.value == TResourceName(cfg, name.s, "cachedContents", 2)
  {
    match name
    case JString(s) => Ok(TResourceName(cfg, s, "cachedContents", 2))
    case _ => Err(Panicked(NameNotString))
  }

  const ModelEmpty := "tModel: model is empty"
  const ModelNotString := "tModel: model is not a string"

  /** A model name is fully qualified for the backend when it carries one of the
      prefixes the backend recognises. */
  predicate QualifiedModel(backend: Backend, model: string) {
    match backend
    case VertexAI =>
      StartsWith(model, ProjectsPrefix) || StartsWith(model, ModelsPrefix) || StartsWith(model, PublishersPrefix)
    case GeminiAPI =>
      StartsWith(model, ModelsPrefix) || StartsWith(model, TunedModelsPrefix)
  }

  /** Go's `tModel`: the value must be a non-empty string; a name the backend
      already recognises is kept, any other is qualified. */
  function TModel(cfg: ClientConfig, origin: Json): (r: Result<string, Error>)
    ensures !origin.JString? ==> r == Err(Failure(ModelNotString))
    ensures origin == JString("") ==> r == Err(Failure(ModelEmpty))
    ensures r.Ok? <==> origin.JString? && origin.s != ""
    ensures r.Ok? ==> QualifiedModel(cfg.backend, r.value)
    ensures cfg.backend == GeminiAPI && r.Ok? && !QualifiedModel(GeminiAPI, origin.s) ==>
              r.value == ModelsPrefix + origin.s
  {
    match origin
    case JString(model) =>
      if model == "" then Err(Failure(ModelEmpty))
      else if cfg.backend == VertexAI then
        if QualifiedModel(VertexAI, model) then Ok(model)
        else
          var parts := CutAt(model, '/');
          if parts.found then
            StartsWithAppend(PublishersPrefix, parts.before + "/" + ModelsPrefix + parts.after);
            assert PublishersPrefix + parts.before + "/" + ModelsPrefix + parts.after
                == PublishersPrefix + (parts.before + "/" + ModelsPrefix + parts.after);
            Ok(PublishersPrefix + parts.before + "/" + ModelsPrefix + parts.after)
          else
            GoogleModelsPrefixParts();
            StartsWithAppend(GoogleModelsPrefix, model);
            StartsWithTrans(GoogleModelsPrefix + model, GoogleModelsPrefix, PublishersPrefix);
            Ok(GoogleModelsPrefix + model)
      else if QualifiedModel(GeminiAPI, model) then Ok(model)
      else
        StartsWithAppend(ModelsPrefix, model);
        Ok(ModelsPrefix + model)
    case _ => Err(Failure(ModelNotString))
  }

  /** Every qualifying prefix ends in '/', so a name without '/' is never qualified. */
  lemma QualifiedHasSlash(backend: Backend, model: string)
    ensures QualifiedModel(backend, model) ==> '/' in model
  {
    if StartsWith(model, ProjectsPrefix) {
      assert model[8] == model[..9][8];
    }
    if StartsWith(model, ModelsPrefix) {
      assert model[6] == model[..7][6];
    }
    if StartsWith(model, PublishersPrefix) {
      assert model[10] == model[..11][10];
    }
    if StartsWith(model, TunedModelsPrefix) {
      assert model[11] == model[..12][11];
    }
  }

  /** A name the backend already recognises is returned unchanged. */
  lemma TModelKeepsQualified(cfg: ClientConfig, model: string)
    requires model != "" && QualifiedModel(cfg.backend, model)
    ensures TModel(cfg, JString(model)) == Ok(model)
  {
  }

  /** A bare name (no '/') becomes a Google publisher model on Vertex AI and a
      "models/" name on Gemini. */
  lemma TModelBareName(cfg: ClientConfig, model: string)
    requires model != "" && '/' !in model
    ensures TModel(cfg, JString(model)) ==
            Ok((if cfg.backend == VertexAI then GoogleModelsPrefix else ModelsPrefix) + model)
  {
    QualifiedHasSlash(cfg.backend, model);
  }

  /** On Vertex AI an unrecognised "<publisher>/<model>" becomes
      "publishers/<publisher>/models/<model>", split at the first '/'. */
  lemma TModelVertexPublisher(cfg: ClientConfig, publisher: string, model: string)
    requires cfg.backend == VertexAI && '/' !in publisher
    requires !QualifiedModel(VertexAI, publisher + "/" + model)
    ensures TModel(cfg, JString(publisher + "/" + model)) ==
            Ok(PublishersPrefix + publisher + "/" + ModelsPrefix + model)
  {
    assert publisher + "/" + model == publisher + ['/'] + model;
    CutAtJoin(publisher, '/', model);
  }

  /** A name under "projects/" is neither a publisher nor a short model name. */
  lemma ProjectsExcludesOthers(name: string)
    requires StartsWith(name, ProjectsPrefix)
    ensures !StartsWith(name, PublishersPrefix) && !StartsWith(name, ModelsPrefix)
  {
    assert name[1] == name[..9][1] == 'r';
    if |name| >= 11 {
      assert name[..11][1] == 'r';
    }
    assert name[..7][1] == 'r';
  }

  /** `tModel` applied to its own result changes nothing. */
  lemma TModelIdempotent(cfg: ClientConfig, model: string)
    requires TModel(cfg, JString(model)).Ok?
    ensures var m := TModel(cfg, JString(model)).value;
            TModel(cfg, JString(m)) == Ok(m)
  {
    var m := TModel(cfg, JString(model)).value;
    QualifiedHasSlash(cfg.backend, m);
    TModelKeepsQualified(cfg, m);
  }

  /** Go's `tModelFullName`: Vertex AI names are expanded to the full
      `projects/<P>/locations/<L>/...` path; Gemini names are `tModel`'s. */
  function TModelFullName(cfg: ClientConfig, origin: Json): (r: Result<string, Error>)
    ensures !origin.JString? ==> r == Err(Failure(FullNameNotString))
    ensures origin == JString("") ==> r == Err(Failure(FullNameContext + ModelEmpty))
    ensures r.Ok? <==> TModel(cfg, origin).Ok?
    ensures cfg.backend == GeminiAPI && origin.JString? ==>
              r == match TModel(cfg, origin)
                   case Ok(m) => Ok(m)
                   case Err(e) => Err(Failure(FullNameContext + e.msg))
    ensures cfg.backend == VertexAI && r.Ok? ==>
              StartsWith(r.value, ProjectsPrefix) && EndsWith(r.value, TModel(cfg, origin).value)
    ensures cfg.backend == VertexAI && r.Ok? ==>
              var m := TModel(cfg, origin).value;
              if StartsWith(m, PublishersPrefix) then r.value == LocationScope(cfg) + m
              else if StartsWith(m, ModelsPrefix) then r.value == LocationScope(cfg) + GooglePublisherPrefix + m
              else r.value == m
  {
    if !origin.JString? then Err(Failure(FullNameNotString))
    else
      match TModel(cfg, origin)
      case Err(e) => Err(Failure(FullNameContext + e.msg))
      case Ok(name) =>
        if StartsWith(name, PublishersPrefix) && cfg.backend == VertexAI then
          ScopedStartsWithProjects(cfg, name);
          Ok(LocationScope(cfg) + name)
        else if StartsWith(name, ModelsPrefix) && cfg.backend == VertexAI then
          ScopedStartsWithProjects(cfg, GooglePublisherPrefix + name);
          AppendAssoc(LocationScope(cfg), GooglePublisherPrefix, name);
          EndsWithAppend(LocationScope(cfg) + GooglePublisherPrefix, name);
          Ok(LocationScope(cfg) + GooglePublisherPrefix + name)
        else
          assert cfg.backend == VertexAI ==> StartsWith(name, ProjectsPrefix);
          EndsWithAppend([], name);
          Ok(name)
  }

  /** Expanding an already expanded name changes nothing. */
  lemma TModelFullNameIdempotent(cfg: ClientConfig, model: string)
    requires TModelFullName(cfg, JString(model)).Ok?
    ensures var m := TModelFullName(cfg, JString(model)).value;
            TModelFullName(cfg, JString(m)) == Ok(m)
  {
    var m := TModelFullName(cfg, JString(model)).value;
    if cfg.backend == GeminiAPI {
      TModelIdempotent(cfg, model);
    } else {
      TModelKeepsQualified(cfg, m);
      ProjectsExcludesOthers(m);
    }
  }

  /** The realtime handshake's expectation: a bare model name on Vertex AI
      becomes the Google publisher model under the configured project and location. */
  lemma TModelFullNameBareVertex(cfg: ClientConfig, model: string)
    requires cfg.backend == VertexAI && model != "" && '/' !in model
    ensures TModelFullName(cfg, JString(model)) == Ok(LocationScope(cfg) + GoogleModelsPrefix + model)
  {
    TModelBareName(cfg, model);
    GoogleModelsPrefixParts();
    StartsWithAppend(GoogleModelsPrefix, model);
    StartsWithTrans(GoogleModelsPrefix + model, GoogleModelsPrefix, PublishersPrefix);
    AppendAssoc(LocationScope(cfg), GoogleModelsPrefix, model);
  }

  /** Go's `tCachesModel`, which is `tModelFullName`. */
  function TCachesModel(cfg: ClientConfig, origin: Json): (r: Result<string, Error>)
    ensures r == TModelFullName(cfg, origin)
  {
    TModelFullName(cfg, origin)
  }

  const PartsNotList := "tContentsForEmbed: content parts is not a non-empty list"
  const TextNotString := "tContentsForEmbed: content part text is not a string"

  /** A content map whose `parts` member is a non-empty list. */
  predicate HasPartList(content: Json) {
    content.JObject? && "parts" in content.fields && content.fields["parts"].JArray?
    && |content.fields["parts"].items| > 0
  }

  /** The text of a content's first part, with the checks `tContentsForEmbed`
      makes on each element (the unchecked map assertions panic). */
  function FirstPartText(content: Json): (r: Result<string, Error>)
    ensures !content.JObject? ==> r == Err(Panicked(ContentNotMap))
    ensures content.JObject? && !HasPartList(content) ==> r == Err(Failure(PartsNotList))
    ensures HasPartList(content) && !content.fields["parts"].items[0].JObject? ==> r == Err(Panicked(PartNotMap))
    ensures HasPartList(content) && content.fields["parts"].items[0].JObject? ==>
              var part := content.fields["parts"].items[0].fields;
              r == if "text" in part && part["text"].JString? then Ok(part["text"].s) else Err(Failure(TextNotString))
    ensures r.Ok? ==> content.JObject? && "parts" in content.fields
    ensures r.Ok? ==> var parts := content.fields["parts"];
                      parts.JArray? && |parts.items| > 0 && parts.items[0].JObject?
                      && "text" in parts.items[0].fields && parts.items[0].fields["text"] == JString(r.value)
  {
    if !content.JObject? then Err(Panicked(ContentNotMap))
    else
      var fields := content.fields;
      if "parts" !in fields || !fields["parts"].JArray? || |fields["parts"].items| == 0 then
        Err(Failure(PartsNotList))
      else if !fields["parts"].items[0].JObject? then Err(Panicked(PartNotMap))
      else
        var part := fields["parts"].items[0].fields;
        if "text" in part && part["text"].JString? then Ok(part["text"].s)
        else Err(Failure(TextNotString))
  }

  /** The first-part texts of `contents`, in order; the first failing element
      decides the error. */
  function EmbedTexts(contents: seq<Json>): (r: Result<seq<string>, Error>)
    ensures r.Ok? <==> forall i :: 0 <= i < |contents| ==> FirstPartText(contents[i]).Ok?
    ensures r.Ok? ==> |r.value| == |contents|
    ensures r.Ok? ==> forall i :: 0 <= i < |contents| ==> r.value[i] == FirstPartText(contents[i]).value
    ensures r.Err? ==> exists i :: 0 <= i < |contents| && FirstPartText(contents[i]).Err?
                                   && r.error == FirstPartText(contents[i]).error
                                   && forall j :: 0 <= j < i ==> FirstPartText(contents[j]).Ok?
  {
    if contents == [] then Ok([])
    else
      match FirstPartText(contents[0])
      case Err(e) => Err(e)
      case Ok(t) =>
        match EmbedTexts(contents[1..])
        case Err(e) =>
          var i :| 0 <= i < |contents[1..]| && FirstPartText(contents[1..][i]).Err?
                   && e == FirstPartText(contents[1..][i]).error
                   && forall j :: 0 <= j < i ==> FirstPartText(contents[1..][j]).Ok?;
          assert forall j :: 0 <= j < i + 1 ==> FirstPartText(contents[j]).Ok? by {
            forall j | 0 <= j < i + 1 ensures FirstPartText(contents[j]).Ok? {
              if j > 0 { assert contents[j] == contents[1..][j - 1]; }
            }
          }
          assert FirstPartText(contents[i + 1]).Err?;
          Err(e)
        case Ok(rest) =>
          assert forall i :: 1 <= i < |contents| ==> contents[i] == contents[1..][i - 1];
          Ok([t] + rest)
  }

  /** Go's `tContentsForEmbed`: Gemini passes the contents through; Vertex AI
      needs a list and replaces each content by its first part's text. */
  function TContentsForEmbed(cfg: ClientConfig, contents: Json): (r: Result<Json, Error>)
    ensures cfg.backend == GeminiAPI ==> r == Ok(contents)
    ensures cfg.backend == VertexAI && !contents.JArray? ==> r == Err(Failure(ContentsNotList))
    ensures cfg.backend == VertexAI && r.Ok? ==>
              contents.JArray? && r.value.JArray? && |r.value.items| == |contents.items|
              && forall i :: 0 <= i < |contents.items| ==>
                   FirstPartText(contents.items[i]).Ok? && r.value.items[i] == JString(FirstPartText(contents.items[i]).value)
    ensures cfg.backend == VertexAI && contents.JArray? ==>
              (r.Ok? <==> forall i :: 0 <= i < |contents.items| ==> FirstPartText(contents.items[i]).Ok?)
    ensures cfg.backend == VertexAI && contents.JArray? && r.Err? ==>
              exists i :: 0 <= i < |contents.items| && FirstPartText(contents.items[i]).Err?
                          && r.error == FirstPartText(contents.items[i]).error
                          && forall j :: 0 <= j < i ==> FirstPartText(contents.items[j]).Ok?
  {
    if cfg.backend == VertexAI then
      if !contents.JArray? then Err(Failure(ContentsNotList))
      else
        match EmbedTexts(contents.items)
        case Ok(texts) => Ok(JArray(seq(|texts|, i requires 0 <= i < |texts| => JString(texts[i]))))
        case Err(e) => Err(e)
    else Ok(contents)
  }

  /** Go's `tModelsURL`: which listing path serves base or tuned models (the
      value must be a boolean; the type assertion panics otherwise). */
  function TModelsURL(cfg: ClientConfig, baseModels: Json): (r: Result<string, Error>)
    ensures r.Ok? <==> baseModels.JBool?
    ensures r.Ok? && cfg.backend == VertexAI ==> r.value == (if baseModels.b then GoogleModelsCollection else "models")
    ensures r.Ok? && cfg.backend == GeminiAPI ==> r.value == (if baseModels.b then "models" else "tunedModels")
  {
    match baseModels
    case JBool(base) =>
      if cfg.backend == VertexAI then Ok(if base then GoogleModelsCollection else "models")
      else Ok(if base then "models" else "tunedModels")
    case _ => Err(Panicked(BaseModelsNotBool))
  }

  /** Go's `tExtractModels`: the first present member among `models`,
      `tunedModels` and `publisherModels`, or an empty list. */
  function TExtractModels(cfg: ClientConfig, response: Json): (r: Result<Json, Error>)
    ensures !response.JObject? ==> r == Err(Failure(ResponseNotMap))
    ensures response.JObject? ==> r.Ok?
    ensures r.Ok? && "models" in response.fields ==> r.value == response.fields["models"]
    ensures r.Ok? && "models" !in response.fields && "tunedModels" in response.fields ==>
              r.value == response.fields["tunedModels"]
    ensures r.Ok? && "models" !in response.fields && "tunedModels" !in response.fields
              && "publisherModels" in response.fields ==>
              r.value == response.fields["publisherModels"]
    ensures r.Ok? && "models" !in response.fields && "tunedModels" !in response.fields
              && "publisherModels" !in response.fields ==>
              r.value == JArray([])
  {
    match response
    case JObject(m) =>
      if "models" in m then Ok(m["models"])
      else if "tunedModels" in m then Ok(m["tunedModels"])
      else if "publisherModels" in m then Ok(m["publisherModels"])
      else Ok(JArray([]))
    case _ => Err(Failure(ResponseNotMap))
  }
}
