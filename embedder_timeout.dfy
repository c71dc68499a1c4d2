/** The settings with which the embedder's client is rebuilt to get a timeout: the timeout
    itself, the API key and the base URL, each taken from the first source that has one. */
module EmbedderTimeout {
  import opened Wrappers
  import opened Strings
  import Json
  import opened Environment
  import Numerals

  const DefaultTimeout := 60
  const DefaultOpenAiUrl := "https://api.openai.com/v1"
  const VersionSuffix := "/v1"

  /** Python `int(v)` on a JSON value: integers as they are, booleans as 0 or 1, strings as
      `int()` reads them; `None` where it raises. */
  function ToInt(v: Json.Value): (r: Option<int>)
    ensures v.JInt? ==> r == Some(v.i)
    ensures v.JBool? ==> r == Some(if v.b then 1 else 0)
    ensures v.JStr? ==> r == Numerals.ParseInt(v.s)
    ensures v.JNull? || v.JFloat? || v.JArr? || v.JObj? ==> r.None?
  {
    match v
    case JInt(i) => Some(i)
    case JBool(b) => Some(if b then 1 else 0)
    case JStr(s) => Numerals.ParseInt(s)
    case _ => None
  }

  /** `_get_timeout_seconds`: the configuration's "timeout" (when the configuration is a
      non-empty dict), else a non-empty `EMBEDDER_TIMEOUT`, else 60 seconds. `None` where
      `int()` raises. */
  function TimeoutSeconds(config: Option<Json.Object>, env: Env): Option<int> {
    if config.Some? && config.value != map[] && "timeout" in config.value then ToInt(config.value["timeout"])
    else if IsSet(env, "EMBEDDER_TIMEOUT") then Numerals.ParseInt(env["EMBEDDER_TIMEOUT"])
    else Some(DefaultTimeout)
  }

  /** A timeout in the configuration decides, whatever the environment says; without one the
      variable decides; without either it is 60. */
  lemma TimeoutPrecedence(config: Option<Json.Object>, env: Env, env': Env)
    ensures config.Some? && "timeout" in config.value ==>
      TimeoutSeconds(config, env) == TimeoutSeconds(config, env') == ToInt(config.value["timeout"])
    ensures (config.None? || "timeout" !in config.value) && IsSet(env, "EMBEDDER_TIMEOUT") ==>
      TimeoutSeconds(config, env) == Numerals.ParseInt(env["EMBEDDER_TIMEOUT"])
    ensures (config.None? || "timeout" !in config.value) && !IsSet(env, "EMBEDDER_TIMEOUT") ==>
      TimeoutSeconds(config, env) == Some(60)
  {
  }

  /** A decimal timeout in the variable is read as its number. */
  lemma TimeoutFromVariable(env: Env, n: nat)
    requires "EMBEDDER_TIMEOUT" in env && env["EMBEDDER_TIMEOUT"] == Numerals.IntToString(n)
    ensures TimeoutSeconds(None, env) == Some(n)
  {
    Numerals.ParseIntToString(n);
  }

  /** `_get_api_key`: the configuration's key when it is non-empty, else `OPENAI_API_KEY`
      when that is non-empty, else whatever `EMBEDDER_API_KEY` is. */
  function ApiKey(configKey: Option<string>, env: Env): (r: Option<string>)
    ensures configKey.Some? && configKey.value != [] ==> r == configKey
    ensures (configKey.None? || configKey.value == []) && IsSet(env, "OPENAI_API_KEY") ==> r == Some(env["OPENAI_API_KEY"])
    ensures (configKey.None? || configKey.value == []) && !IsSet(env, "OPENAI_API_KEY") ==> r == Environment.Get(env, "EMBEDDER_API_KEY")
  {
    if configKey.Some? && configKey.value != [] then configKey
    else if IsSet(env, "OPENAI_API_KEY") then Environment.Get(env, "OPENAI_API_KEY")
    else Environment.Get(env, "EMBEDDER_API_KEY")
  }

  /** The key comes from one of the three places, and a configured key ignores the
      environment. */
  lemma ApiKeySources(configKey: Option<string>, env: Env, env': Env)
    ensures var r := ApiKey(configKey, env);
      r.Some? ==> r == configKey || r == Environment.Get(env, "OPENAI_API_KEY") || r == Environment.Get(env, "EMBEDDER_API_KEY")
    ensures configKey.Some? && configKey.value != [] ==> ApiKey(configKey, env) == ApiKey(configKey, env')
    ensures ApiKey(configKey, env).None? <==>
      (configKey.None? || configKey.value == []) && !IsSet(env, "OPENAI_API_KEY") && "EMBEDDER_API_KEY" !in env
  {
  }

  /** `_normalize_ollama_url`: an absent or empty URL as it is; any other without trailing
      slashes, and for Ollama ending in "/v1". */
  function NormalizeOllamaUrl(url: Option<string>, provider: string): (r: Option<string>)
    ensures url.None? ==> r.None?
    ensures url == Some([]) ==> r == url
    ensures url.Some? && url.value != [] ==> r.Some? && (r.value == [] || r.value[|r.value| - 1] != '/')
    ensures url.Some? && url.value != [] && provider == "ollama" ==> r.Some? && EndsWith(r.value, VersionSuffix)
    ensures url.Some? && url.value != [] && provider != "ollama" ==> r == Some(RStripChar(url.value, '/'))
  {
    match url
    case None => None
    case Some(u) =>
      if u == [] then url
      else
        var trimmed := RStripChar(u, '/');
        if provider == "ollama" && !EndsWith(trimmed, VersionSuffix) then
          var r := trimmed + VersionSuffix;
          assert r[|r| - 3..] == VersionSuffix;
          Some(r)
        else Some(trimmed)
  }

  /** A text without a trailing slash keeps its slashes. */
  lemma RStripNoSlash(s: string)
    requires s == [] || s[|s| - 1] != '/'
    ensures RStripChar(s, '/') == s
  {
  }

  /** Normalising twice is normalising once. */
  lemma NormalizeOllamaUrlIdempotent(url: Option<string>, provider: string)
    ensures NormalizeOllamaUrl(NormalizeOllamaUrl(url, provider), provider) == NormalizeOllamaUrl(url, provider)
  {
    var r := NormalizeOllamaUrl(url, provider);
    if r.Some? && r.value != [] {
      RStripNoSlash(r.value);
    }
  }

  /** Only Ollama gets the version path: another provider's URL differs at most by its
      trailing slashes, and an Ollama URL already versioned is kept. */
  lemma NormalizeOllamaUrlCases(u: string, provider: string)
    requires u != []
    ensures provider != "ollama" ==> NormalizeOllamaUrl(Some(u), provider).value + u[|RStripChar(u, '/')|..] == u
    ensures provider == "ollama" && EndsWith(RStripChar(u, '/'), VersionSuffix) ==>
      NormalizeOllamaUrl(Some(u), provider) == Some(RStripChar(u, '/'))
    ensures provider == "ollama" && !EndsWith(RStripChar(u, '/'), VersionSuffix) ==>
      NormalizeOllamaUrl(Some(u), provider) == Some(RStripChar(u, '/') + VersionSuffix)
  {
    var t := RStripChar(u, '/');
    assert t + u[|t|..] == u;
  }

  /** Where the client's base URL can come from, as `_get_base_url_for_openai` reads them:
      the current client's URL (absent when the client has none), the configuration's
      `openai_base_url` and `ollama_base_url`. */
  datatype UrlSources = UrlSources(clientUrl: Option<string>, openaiBaseUrl: Option<string>, ollamaBaseUrl: Option<string>)

  /** The current client's URL counts unless it is empty or the OpenAI default. */
  predicate UsableClientUrl(clientUrl: Option<string>) {
    clientUrl.Some? && RStripChar(clientUrl.value, '/') != [] && RStripChar(clientUrl.value, '/') != DefaultOpenAiUrl
  }

  predicate Given(url: Option<string>) {
    url.Some? && url.value != []
  }

  /** The environment's URL: `EMBEDDER_BASE_URL`, else `OPENAI_EMBEDDING_MODEL_BASE_URL`. */
  function EnvBaseUrl(env: Env): Option<string> {
    if IsSet(env, "EMBEDDER_BASE_URL") then Environment.Get(env, "EMBEDDER_BASE_URL") else Environment.Get(env, "OPENAI_EMBEDDING_MODEL_BASE_URL")
  }

  /** `_get_base_url_for_openai`: the first source that has a URL, normalised; the OpenAI
      default, as it is, when none has. */
  function BaseUrlForOpenAi(sources: UrlSources, env: Env, provider: string): string {
    if UsableClientUrl(sources.clientUrl) then NormalizeOllamaUrl(Some(RStripChar(sources.clientUrl.value, '/')), provider).value
    else if Given(sources.openaiBaseUrl) then NormalizeOllamaUrl(sources.openaiBaseUrl, provider).value
    else if Given(sources.ollamaBaseUrl) then NormalizeOllamaUrl(sources.ollamaBaseUrl, provider).value
    else if Given(EnvBaseUrl(env)) then NormalizeOllamaUrl(EnvBaseUrl(env), provider).value
    else DefaultOpenAiUrl
  }

  /** Each source is used only when every source before it has no URL, and then it alone
      decides. */
  lemma BaseUrlPrecedence(sources: UrlSources, env: Env, provider: string)
    ensures UsableClientUrl(sources.clientUrl) ==>
      BaseUrlForOpenAi(sources, env, provider) == NormalizeOllamaUrl(sources.clientUrl, provider).value
    ensures !UsableClientUrl(sources.clientUrl) && Given(sources.openaiBaseUrl) ==>
      BaseUrlForOpenAi(sources, env, provider) == NormalizeOllamaUrl(sources.openaiBaseUrl, provider).value
    ensures !UsableClientUrl(sources.clientUrl) && !Given(sources.openaiBaseUrl) && Given(sources.ollamaBaseUrl) ==>
      BaseUrlForOpenAi(sources, env, provider) == NormalizeOllamaUrl(sources.ollamaBaseUrl, provider).value
    ensures !UsableClientUrl(sources.clientUrl) && !Given(sources.openaiBaseUrl) && !Given(sources.ollamaBaseUrl) ==>
      BaseUrlForOpenAi(sources, env, provider) ==
        if Given(EnvBaseUrl(env)) then NormalizeOllamaUrl(EnvBaseUrl(env), provider).value else DefaultOpenAiUrl
  {
    if UsableClientUrl(sources.clientUrl) {
      var u := sources.clientUrl.value;
      var t := RStripChar(u, '/');
      RStripNoSlash(t);
    }
  }

  /** A client already pointing at the OpenAI default, with or without a trailing slash, does
      not count: the later sources decide. */
  lemma ClientDefaultSkipped(sources: UrlSources, env: Env, provider: string, slashes: nat)
    requires sources.clientUrl == Some(DefaultOpenAiUrl + seq(slashes, _ => '/'))
    ensures BaseUrlForOpenAi(sources, env, provider) == BaseUrlForOpenAi(sources.(clientUrl := None), env, provider)
  {
    var u := sources.clientUrl.value;
    var d := DefaultOpenAiUrl;
    assert d[|d| - 1] == '1';
    SlashesStripped(d, slashes);
  }

  /** Stripping the slashes appended to a text that does not end in one gives the text. */
  lemma {:induction false} SlashesStripped(s: string, n: nat)
    requires s == [] || s[|s| - 1] != '/'
    ensures RStripChar(s + seq(n, _ => '/'), '/') == s
    decreases n
  {
    var t := s + seq(n, _ => '/');
    if n == 0 {
      assert t == s;
      RStripNoSlash(s);
    } else {
      assert t[..|t| - 1] == s + seq(n - 1, _ => '/');
      SlashesStripped(s, n - 1);
    }
  }

  /** Every URL chosen other than the final default is in normal form, and so is the default
      for any provider but Ollama; for Ollama every URL chosen ends in "/v1". */
  lemma BaseUrlIsNormal(sources: UrlSources, env: Env, provider: string)
    ensures var r := BaseUrlForOpenAi(sources, env, provider);
      r == DefaultOpenAiUrl || NormalizeOllamaUrl(Some(r), provider) == Some(r)
    ensures provider == "ollama" ==> EndsWith(BaseUrlForOpenAi(sources, env, provider), VersionSuffix)
  {
    var r := BaseUrlForOpenAi(sources, env, provider);
    if r != DefaultOpenAiUrl {
      var from: Option<string> :=
        if UsableClientUrl(sources.clientUrl) then Some(RStripChar(sources.clientUrl.value, '/'))
        else if Given(sources.openaiBaseUrl) then sources.openaiBaseUrl
        else if Given(sources.ollamaBaseUrl) then sources.ollamaBaseUrl
        else EnvBaseUrl(env);
      assert NormalizeOllamaUrl(from, provider) == Some(r);
      NormalizeOllamaUrlIdempotent(from, provider);
    }
    if provider == "ollama" && r == DefaultOpenAiUrl {
      assert r[|r| - 3..] == VersionSuffix;
    }
  }
}
