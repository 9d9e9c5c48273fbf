/** The default base URLs of the two backends: the package-wide defaults a
    program may set, and the priority by which a client picks its base URL. */
module BaseUrl {
  import opened Wrappers
  import opened Common

  /** The environment variables consulted when no default is set. */
  const VertexBaseURLVariable := "GOOGLE_VERTEX_BASE_URL"
  const GeminiBaseURLVariable := "GOOGLE_GEMINI_BASE_URL"

  /** Go's `BaseURLParameters`: either URL may be absent (a nil pointer). */
  datatype BaseURLParameters = BaseURLParameters(geminiURL: Option<string>, vertexURL: Option<string>)

  /** The package variables `defaultBaseGeminiURL` and `defaultBaseVertexURL`. */
  class Defaults {
    var geminiURL: Option<string>
    var vertexURL: Option<string>

    /** Both defaults start out nil. */
    constructor ()
      ensures geminiURL.None? && vertexURL.None?
    {
      geminiURL := None;
      vertexURL := None;
    }

    /** Go's `GetDefaultBaseURLs`: the two defaults as they are now. */
    function GetDefaultBaseURLs(): BaseURLParameters
      reads this
    {
      BaseURLParameters(geminiURL, vertexURL)
    }

    /** Go's `SetDefaultBaseURLs`: a nil argument changes nothing; any other
        replaces both defaults, an absent URL included, so that reading the
        defaults back gives the argument. */
    method SetDefaultBaseURLs(params: Option<BaseURLParameters>)
      modifies this
      ensures params.None? ==> GetDefaultBaseURLs() == old(GetDefaultBaseURLs())
      ensures params.Some? ==> GetDefaultBaseURLs() == params.value
    {
      if params.Some? {
        geminiURL := params.value.geminiURL;
        vertexURL := params.value.vertexURL;
      }
    }
  }

  /** The URL a caller supplied for one call, when it supplied a non-empty one. */
  predicate HasCallURL(httpOptions: Option<HTTPOptions>) {
    httpOptions.Some? && httpOptions.value.baseURL != ""
  }

  /** Go's `GetBaseURL`. `defaults` is what `GetDefaultBaseURLs` returns at the
      time of the call and `env` the process environment. The caller's
      non-empty URL comes first; then, for the chosen backend only, the
      default set in the program, then the backend's environment variable;
      otherwise there is none. */
  function GetBaseURL(vertexai: bool, httpOptions: Option<HTTPOptions>, defaults: BaseURLParameters,
                      env: map<string, string>): (r: Option<string>)
    ensures HasCallURL(httpOptions) ==> r == Some(httpOptions.value.baseURL)
    ensures !HasCallURL(httpOptions) && vertexai ==>
              (defaults.vertexURL.Some? ==> r == defaults.vertexURL)
              && (defaults.vertexURL.None? && VertexBaseURLVariable in env ==> r == Some(env[VertexBaseURLVariable]))
              && (r.None? <==> defaults.vertexURL.None? && VertexBaseURLVariable !in env)
    ensures !HasCallURL(httpOptions) && !vertexai ==>
              (defaults.geminiURL.Some? ==> r == defaults.geminiURL)
              && (defaults.geminiURL.None? && GeminiBaseURLVariable in env ==> r == Some(env[GeminiBaseURLVariable]))
              && (r.None? <==> defaults.geminiURL.None? && GeminiBaseURLVariable !in env)
  {
    if HasCallURL(httpOptions) then Some(httpOptions.value.baseURL)
    else if vertexai then
      if defaults.vertexURL.Some? then defaults.vertexURL
      else if VertexBaseURLVariable in env then Some(env[VertexBaseURLVariable])
      else None
    else
      if defaults.geminiURL.Some? then defaults.geminiURL
      else if GeminiBaseURLVariable in env then Some(env[GeminiBaseURLVariable])
      else None
  }

  /** The Vertex AI lookup never looks at the Gemini default or variable, and
      the Gemini lookup never at the Vertex AI ones. */
  lemma BackendsIndependent(httpOptions: Option<HTTPOptions>, d1: BaseURLParameters, d2: BaseURLParameters,
                            env1: map<string, string>, env2: map<string, string>)
    ensures d1.vertexURL == d2.vertexURL
            && (VertexBaseURLVariable in env1 <==> VertexBaseURLVariable in env2)
            && (VertexBaseURLVariable in env1 ==> env1[VertexBaseURLVariable] == env2[VertexBaseURLVariable])
            ==> GetBaseURL(true, httpOptions, d1, env1) == GetBaseURL(true, httpOptions, d2, env2)
    ensures d1.geminiURL == d2.geminiURL
            && (GeminiBaseURLVariable in env1 <==> GeminiBaseURLVariable in env2)
            && (GeminiBaseURLVariable in env1 ==> env1[GeminiBaseURLVariable] == env2[GeminiBaseURLVariable])
            ==> GetBaseURL(false, httpOptions, d1, env1) == GetBaseURL(false, httpOptions, d2, env2)
  {
  }

  /** After `SetDefaultBaseURLs(p)`, a call without its own URL uses p's URL
      for its backend whenever p has one, whatever the environment says. */
  lemma SetDefaultsWin(vertexai: bool, httpOptions: Option<HTTPOptions>, p: BaseURLParameters,
                       env: map<string, string>)
    requires !HasCallURL(httpOptions)
    requires (if vertexai then p.vertexURL else p.geminiURL).Some?
    ensures GetBaseURL(vertexai, httpOptions, p, env) == (if vertexai then p.vertexURL else p.geminiURL)
  {
  }
}
