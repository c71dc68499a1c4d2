/**
 * Assembly of the memory client's configuration: defaults detected from the environment,
 * the stored configuration laid over them, "env:NAME" references resolved, and the cached
 * client that is rebuilt only when the configuration's hash changes.
 */
module MemoryClient {
  import opened Wrappers
  import opened Strings
  import Numerals
  import opened Environment
  import opened Json

  /* ---------------------------------------------------------------- env references */

  /** An "env:NAME" string replaced by the variable's value when that is set and non-empty;
      NAME is everything after the first colon. */
  function ResolveString(s: string, env: Env): Value {
    if StartsWith(s, "env:") && IsSet(env, s[4..]) then JStr(env[s[4..]]) else JStr(s)
  }

  /** `_parse_environment_variables`: a dict has its string references resolved and its
      nested dicts resolved in turn; anything else is returned as it is. */
  function Resolve(v: Value, env: Env): (r: Value)
    ensures v.JObj? <==> r.JObj?
    ensures v.JObj? ==> r.fields.Keys == v.fields.Keys
    ensures !v.JObj? ==> r == v
    decreases v
  {
    match v
    case JObj(fields) =>
      JObj(map k | k in fields ::
        match fields[k]
        case JStr(s) => ResolveString(s, env)
        case JObj(_) => Resolve(fields[k], env)
        case _ => fields[k])
    case _ => v
  }

  /** Some string at some depth of the dicts names a variable that is set. */
  predicate ResolvesSomething(v: Value, env: Env)
    decreases v
  {
    match v
    case JObj(fields) =>
      exists k :: k in fields &&
        (match fields[k]
         case JStr(s) => StartsWith(s, "env:") && IsSet(env, s[4..])
         case JObj(_) => ResolvesSomething(fields[k], env)
         case _ => false)
    case _ => false
  }

  /** A configuration whose references all name unset variables comes back unchanged. */
  lemma {:induction false} ResolveUnchanged(v: Value, env: Env)
    requires !ResolvesSomething(v, env)
    ensures Resolve(v, env) == v
    decreases v
  {
    match v
    case JObj(fields) =>
      forall k | k in fields ensures Resolve(v, env).fields[k] == fields[k] {
        match fields[k]
        case JStr(s) =>
        case JObj(_) => ResolveUnchanged(fields[k], env);
        case _ =>
      }
      assert Resolve(v, env).fields == fields;
    case _ =>
  }

  /** The field-by-field outcome: a reference to a set variable becomes its value, any other
      string and any non-dict value is kept, a dict is resolved recursively. */
  lemma ResolveField(fields: Object, k: string, env: Env)
    requires k in fields
    ensures var r := Resolve(JObj(fields), env).fields[k];
      && (fields[k].JStr? && StartsWith(fields[k].s, "env:") && IsSet(env, fields[k].s[4..]) ==>
            r == JStr(env[fields[k].s[4..]]))
      && (fields[k].JStr? && !(StartsWith(fields[k].s, "env:") && IsSet(env, fields[k].s[4..])) ==> r == fields[k])
      && (fields[k].JObj? ==> r == Resolve(fields[k], env))
      && (!fields[k].JStr? && !fields[k].JObj? ==> r == fields[k])
  {
  }

  /** `_parse_environment_variables`, one key at a time. */
  method ParseEnvironmentVariables(v: Value, env: Env) returns (r: Value)
    ensures r == Resolve(v, env)
    decreases v
  {
    if !v.JObj? {
      return v;
    }
    var fields := v.fields;
    var parsed: map<string, Value> := map[];
    var remaining := fields.Keys;
    while remaining != {}
      invariant remaining <= fields.Keys
      invariant parsed.Keys == fields.Keys - remaining
      invariant forall k :: k in parsed ==> parsed[k] == Resolve(v, env).fields[k]
      decreases remaining
    {
      var key :| key in remaining;
      var value := fields[key];
      if value.JStr? && StartsWith(value.s, "env:") {
        var name := value.s[4..];
        if IsSet(env, name) {
          parsed := parsed[key := JStr(env[name])];
        } else {
          parsed := parsed[key := value];
        }
      } else if value.JObj? {
        var nested := ParseEnvironmentVariables(value, env);
        parsed := parsed[key := nested];
      } else {
        parsed := parsed[key := value];
      }
      remaining := remaining - {key};
    }
    assert parsed == Resolve(v, env).fields;
    r := JObj(parsed);
  }

  /* ---------------------------------------------------------------- Python operators */

  /** `key in v and v[key]`, as Python evaluates it: `None` where it raises, `Some(None)`
      where the key is absent. Indexing a string or a list by a string raises. */
  function Lookup(v: Value, key: string): (r: Option<Option<Value>>)
    ensures v.JObj? ==> r == Some(Json.Get(v.fields, key))
  {
    match v
    case JObj(fields) => Some(Json.Get(fields, key))
    case JStr(s) => if Contains(s, key) then None else Some(None)
    case JArr(items) => if JStr(key) in items then None else Some(None)
    case _ => None
  }

  /** `"localhost" in url or "127.0.0.1" in url`; `None` where `in` raises. */
  function MentionsLocalhost(url: Value): Option<bool> {
    match url
    case JStr(s) => Some(Contains(s, "localhost") || Contains(s, "127.0.0.1"))
    case JArr(items) => Some(JStr("localhost") in items || JStr("127.0.0.1") in items)
    case JObj(fields) => Some("localhost" in fields || "127.0.0.1" in fields)
    case _ => None
  }

  /* ---------------------------------------------------------------- Ollama URLs */

  const DefaultOllamaUrl := "http://host.docker.internal:11434"

  /** Both loopback spellings replaced by the docker host. */
  function Rehost(url: string, dockerHost: string): string {
    Replace(Replace(url, "localhost", dockerHost), "127.0.0.1", dockerHost)
  }

  /** `_fix_ollama_urls` on a provider section; `dockerHost` is what the host probe found.
      `None` where the section's `config` is not a dict or its URL cannot be rewritten. */
  function FixOllamaUrls(section: Object, dockerHost: string): (r: Option<Object>)
    ensures r.Some? ==> r.value.Keys == section.Keys
  {
    if section == map[] || "config" !in section then Some(section)
    else
      match section["config"]
      case JObj(c) =>
        if "ollama_base_url" !in c then
          Some(section["config" := JObj(c["ollama_base_url" := JStr(DefaultOllamaUrl)])])
        else
          var url := c["ollama_base_url"];
          (match MentionsLocalhost(url)
           case None => None
           case Some(false) => Some(section)
           case Some(true) =>
             if dockerHost == "localhost" then Some(section)
             else if url.JStr? then
               Some(section["config" := JObj(c["ollama_base_url" := JStr(Rehost(url.s, dockerHost))])])
             else None)
      case _ => None
  }

  /** The cases: an empty section or one without `config` is returned as it is; a missing
      URL gets the default; a URL without a loopback name is kept; with the host probe
      answering "localhost" nothing is rewritten; otherwise a string URL is rehosted. Only
      the URL entry can change. */
  lemma FixOllamaUrlsCases(section: Object, dockerHost: string)
    ensures section == map[] || "config" !in section ==> FixOllamaUrls(section, dockerHost) == Some(section)
    ensures "config" in section && !section["config"].JObj? ==> FixOllamaUrls(section, dockerHost).None?
    ensures "config" in section && section["config"].JObj? ==>
      var c := section["config"].fields;
      var r := FixOllamaUrls(section, dockerHost);
      && ("ollama_base_url" !in c ==>
            r == Some(section["config" := JObj(c["ollama_base_url" := JStr(DefaultOllamaUrl)])]))
      && ("ollama_base_url" in c && c["ollama_base_url"].JStr? ==>
            var url := c["ollama_base_url"].s;
            && (!Contains(url, "localhost") && !Contains(url, "127.0.0.1") ==> r == Some(section))
            && (dockerHost == "localhost" ==> r == Some(section))
            && ((Contains(url, "localhost") || Contains(url, "127.0.0.1")) && dockerHost != "localhost" ==>
                  r == Some(section["config" := JObj(c["ollama_base_url" := JStr(Rehost(url, dockerHost))])])))
      && (r.Some? ==>
            r.value["config"].JObj? && r.value["config"].fields.Keys == c.Keys + {"ollama_base_url"}
            && forall k :: k in c && k != "ollama_base_url" ==> r.value["config"].fields[k] == c[k])
  {
  }

  /** A URL that names neither loopback spelling is kept by rehosting. */
  lemma RehostAbsent(url: string, dockerHost: string)
    requires !Contains(url, "localhost") && !Contains(url, "127.0.0.1")
    ensures Rehost(url, dockerHost) == url
  {
    ReplaceAbsent(url, "localhost", dockerHost);
    ReplaceAbsent(url, "127.0.0.1", dockerHost);
  }

  /* ---------------------------------------------------------------- vector store detection */

  /** The `ValueError`s and `TypeError`s the builders raise. */
  datatype Fault = MissingSetting(name: string) | NotAnInteger(name: string) | InvalidMetric(metric: string)

  /** `int(os.environ.get(name, default))`. */
  function IntSetting(env: Env, name: string, default: int): (r: Result<int, Fault>)
    ensures name !in env ==> r == Ok(default)
    ensures name in env ==> (r.Ok? <==> Numerals.ParseInt(env[name]).Some?)
    ensures name in env && r.Ok? ==> Some(r.value) == Numerals.ParseInt(env[name])
  {
    match IntOr(env, name, default)
    case None => Err(NotAnInteger(name))
    case Some(n) => Ok(n)
  }

  /** `int(os.environ.get(name))`: an unset variable raises as well. */
  function RequiredInt(env: Env, name: string): (r: Result<int, Fault>)
    ensures r.Ok? <==> name in env && Numerals.ParseInt(env[name]).Some?
  {
    if name !in env then Err(NotAnInteger(name))
    else match Numerals.ParseInt(env[name])
      case None => Err(NotAnInteger(name))
      case Some(n) => Ok(n)
  }

  /** `os.environ.get(name)` stored in a config: a string, or null where unset. */
  function EnvValue(env: Env, name: string): Value {
    if name in env then JStr(env[name]) else JNull
  }

  const DefaultDims := 1536
  const DefaultTencentTimeout := 60
  const TencentMetrics := ["cosine", "l2", "ip"]

  /** `_get_tencent_vectordb_config`: URL, key and username are required in that order; the
      integers are parsed; the metric must be one of the three. */
  function TencentConfig(env: Env, collection: string): Result<Object, Fault> {
    if !IsSet(env, "TENCENT_VECTORDB_URL") then Err(MissingSetting("TENCENT_VECTORDB_URL"))
    else if !IsSet(env, "TENCENT_VECTORDB_KEY") then Err(MissingSetting("TENCENT_VECTORDB_KEY"))
    else if !IsSet(env, "TENCENT_VECTORDB_USERNAME") then Err(MissingSetting("TENCENT_VECTORDB_USERNAME"))
    else
      var dims :- IntSetting(env, "TENCENT_VECTORDB_EMBEDDING_MODEL_DIMS", DefaultDims);
      var timeout :- IntSetting(env, "TENCENT_VECTORDB_TIMEOUT", DefaultTencentTimeout);
      var metric := GetOr(env, "TENCENT_VECTORDB_METRIC_TYPE", "cosine");
      if metric !in TencentMetrics then Err(InvalidMetric(metric))
      else
        Ok(map[
          "url" := JStr(env["TENCENT_VECTORDB_URL"]),
          "key" := JStr(env["TENCENT_VECTORDB_KEY"]),
          "username" := JStr(env["TENCENT_VECTORDB_USERNAME"]),
          "database_name" := JStr(GetOr(env, "TENCENT_VECTORDB_DATABASE_NAME", collection)),
          "collection_name" := JStr(GetOr(env, "TENCENT_VECTORDB_COLLECTION_NAME", collection + "_collection")),
          "embedding_model_dims" := JInt(dims),
          "metric_type" := JStr(metric),
          "timeout" := JInt(timeout)])
  }

  /** The Tencent configuration is built exactly when the three credentials are set, the
      integers parse and the metric is valid; it names no host, and the collection, the
      dimension and the timeout fall back to `<collection>_collection`, 1536 and 60. */
  lemma TencentConfigCases(env: Env, collection: string)
    ensures TencentConfig(env, collection).Ok? <==>
      && IsSet(env, "TENCENT_VECTORDB_URL") && IsSet(env, "TENCENT_VECTORDB_KEY")
      && IsSet(env, "TENCENT_VECTORDB_USERNAME")
      && IntSetting(env, "TENCENT_VECTORDB_EMBEDDING_MODEL_DIMS", DefaultDims).Ok?
      && IntSetting(env, "TENCENT_VECTORDB_TIMEOUT", DefaultTencentTimeout).Ok?
      && GetOr(env, "TENCENT_VECTORDB_METRIC_TYPE", "cosine") in TencentMetrics
    ensures !IsSet(env, "TENCENT_VECTORDB_URL") ==>
      TencentConfig(env, collection) == Err(MissingSetting("TENCENT_VECTORDB_URL"))
    ensures TencentConfig(env, collection).Ok? ==>
      var c := TencentConfig(env, collection).value;
      && "host" !in c
      && ("TENCENT_VECTORDB_COLLECTION_NAME" !in env ==> c["collection_name"] == JStr(collection + "_collection"))
      && ("TENCENT_VECTORDB_EMBEDDING_MODEL_DIMS" !in env ==> c["embedding_model_dims"] == JInt(1536))
      && ("TENCENT_VECTORDB_TIMEOUT" !in env ==> c["timeout"] == JInt(60))
      && c["metric_type"].s in TencentMetrics
  {
  }

  /** The optional credentials of a builder: `(config key, variable)` pairs in order; each is
      added only when its variable is set and non-empty. */
  function WithCredentials(config: Object, pairs: seq<(string, string)>, env: Env): Object
    decreases |pairs|
  {
    if pairs == [] then config
    else
      var c := WithCredentials(config, pairs[..|pairs| - 1], env);
      var (key, name) := pairs[|pairs| - 1];
      if IsSet(env, name) then c[key := JStr(env[name])] else c
  }

  /** A credential key is present afterwards exactly when it was before or some pair for it
      has a set variable; keys of the base config without such a pair keep their values. */
  lemma {:induction false} WithCredentialsKeys(config: Object, pairs: seq<(string, string)>, env: Env)
    ensures forall key :: key in WithCredentials(config, pairs, env) <==>
      key in config || exists i :: 0 <= i < |pairs| && pairs[i].0 == key && IsSet(env, pairs[i].1)
    ensures forall key :: key in config && (forall i :: 0 <= i < |pairs| ==> pairs[i].0 != key) ==>
      WithCredentials(config, pairs, env)[key] == config[key]
    decreases |pairs|
  {
    if pairs != [] {
      var init := pairs[..|pairs| - 1];
      WithCredentialsKeys(config, init, env);
      forall key ensures key in WithCredentials(config, pairs, env) <==>
        key in config || exists i :: 0 <= i < |pairs| && pairs[i].0 == key && IsSet(env, pairs[i].1)
      {
        if exists i :: 0 <= i < |init| && init[i].0 == key && IsSet(env, init[i].1) {
          var i :| 0 <= i < |init| && init[i].0 == key && IsSet(env, init[i].1);
          assert pairs[i] == init[i];
        }
        if exists i :: 0 <= i < |pairs| && pairs[i].0 == key && IsSet(env, pairs[i].1) {
          var i :| 0 <= i < |pairs| && pairs[i].0 == key && IsSet(env, pairs[i].1);
          if i < |init| {
            assert init[i] == pairs[i];
          }
        }
      }
      forall key | key in config && (forall i :: 0 <= i < |pairs| ==> pairs[i].0 != key)
        ensures WithCredentials(config, pairs, env)[key] == config[key]
      {
        assert forall i :: 0 <= i < |init| ==> init[i] == pairs[i];
      }
    }
  }

  /** With distinct keys, the key of one pair that the base config lacks is present exactly
      when that pair's variable is set. */
  lemma CredentialPresent(config: Object, pairs: seq<(string, string)>, env: Env, i: nat)
    requires i < |pairs| && pairs[i].0 !in config
    requires forall j, k :: 0 <= j < k < |pairs| ==> pairs[j].0 != pairs[k].0
    ensures pairs[i].0 in WithCredentials(config, pairs, env) <==> IsSet(env, pairs[i].1)
  {
    WithCredentialsKeys(config, pairs, env);
    if exists j :: 0 <= j < |pairs| && pairs[j].0 == pairs[i].0 && IsSet(env, pairs[j].1) {
      var j :| 0 <= j < |pairs| && pairs[j].0 == pairs[i].0 && IsSet(env, pairs[j].1);
      assert j == i;
    }
  }

  /** The loop of the pgvector and Elasticsearch builders. */
  method AddCredentials(config: Object, pairs: seq<(string, string)>, env: Env) returns (r: Object)
    ensures r == WithCredentials(config, pairs, env)
  {
    r := config;
    for i := 0 to |pairs|
      invariant r == WithCredentials(config, pairs[..i], env)
    {
      assert pairs[..i + 1][..i] == pairs[..i];
      var (key, name) := pairs[i];
      if IsSet(env, name) {
        r := r[key := JStr(env[name])];
      }
    }
    assert pairs[..|pairs|] == pairs;
  }

  const PgvectorCredentials := [("dbname", "PG_DB"), ("user", "PG_USER"), ("password", "PG_PASSWORD")]
  const ElasticsearchCredentials := [("user", "ELASTICSEARCH_USER"), ("password", "ELASTICSEARCH_PASSWORD")]

  function HostPortConfig(env: Env, host: string, port: string): Result<Object, Fault> {
    var p :- RequiredInt(env, port);
    Ok(map["host" := EnvValue(env, host), "port" := JInt(p)])
  }

  function WeaviateConfig(env: Env, collection: string): Result<Object, Fault> {
    var url :-
      if IsSet(env, "WEAVIATE_CLUSTER_URL") then Ok(env["WEAVIATE_CLUSTER_URL"])
      else
        var port :- RequiredInt(env, "WEAVIATE_PORT");
        Ok("http://" + GetOr(env, "WEAVIATE_HOST", "None") + ":" + Numerals.IntToString(port));
    Ok(map["collection_name" := JStr(collection), "cluster_url" := JStr(url)])
  }

  function PgvectorConfig(env: Env): Result<Object, Fault> {
    var base :- HostPortConfig(env, "PG_HOST", "PG_PORT");
    Ok(WithCredentials(base, PgvectorCredentials, env))
  }

  function MilvusConfig(env: Env, collection: string): Result<Object, Fault> {
    var port :- RequiredInt(env, "MILVUS_PORT");
    var dims :- IntSetting(env, "MILVUS_EMBEDDING_DIMS", DefaultDims);
    Ok(map[
      "collection_name" := JStr(collection),
      "url" := JStr("http://" + GetOr(env, "MILVUS_HOST", "None") + ":" + Numerals.IntToString(port)),
      "token" := JStr(GetOr(env, "MILVUS_TOKEN", "")),
      "db_name" := JStr(GetOr(env, "MILVUS_DB_NAME", "")),
      "embedding_model_dims" := JInt(dims),
      "metric_type" := JStr("COSINE")])
  }

  function ElasticsearchConfig(env: Env): Result<Object, Fault> {
    var port :- RequiredInt(env, "ELASTICSEARCH_PORT");
    var dims :- IntSetting(env, "ELASTICSEARCH_EMBEDDING_DIMS", DefaultDims);
    Ok(WithCredentials(EsBase(env, port, dims), ElasticsearchCredentials, env))
  }

  function EsBase(env: Env, port: int, dims: int): Object {
    map[
      "host" := JStr("http://" + GetOr(env, "ELASTICSEARCH_HOST", "None")),
      "port" := JInt(port),
      "verify_certs" := JBool(false),
      "use_ssl" := JBool(false),
      "embedding_model_dims" := JInt(dims)]
  }

  function FaissConfig(env: Env, collection: string): Result<Object, Fault> {
    var dims :- IntSetting(env, "FAISS_EMBEDDING_DIMS", DefaultDims);
    Ok(map[
      "collection_name" := JStr(collection),
      "path" := EnvValue(env, "FAISS_PATH"),
      "embedding_model_dims" := JInt(dims),
      "distance_strategy" := JStr("cosine")])
  }

  const DefaultQdrantPort := 6333

  function DefaultQdrantConfig(env: Env): Result<Object, Fault> {
    var port :- IntSetting(env, "QDRANT_PORT", DefaultQdrantPort);
    Ok(map["port" := JInt(port)])
  }

  /** The providers in the order they are tried; the fallback after them is qdrant again. */
  const Priority := ["tencent_vectordb", "chroma", "qdrant", "weaviate", "redis", "pgvector",
                     "milvus", "elasticsearch", "opensearch", "faiss"]

  /** The environment selects this provider of `Priority`. */
  predicate Enabled(env: Env, provider: string) {
    if provider == "tencent_vectordb" then
      Environment.Get(env, "VECTOR_STORE_PROVIDER") == Some("tencent_vectordb")
      || (IsSet(env, "TENCENT_VECTORDB_URL") && IsSet(env, "TENCENT_VECTORDB_KEY"))
    else if provider == "chroma" then IsSet(env, "CHROMA_HOST") && IsSet(env, "CHROMA_PORT")
    else if provider == "qdrant" then IsSet(env, "QDRANT_HOST") && IsSet(env, "QDRANT_PORT")
    else if provider == "weaviate" then
      IsSet(env, "WEAVIATE_CLUSTER_URL") || (IsSet(env, "WEAVIATE_HOST") && IsSet(env, "WEAVIATE_PORT"))
    else if provider == "redis" then IsSet(env, "REDIS_URL")
    else if provider == "pgvector" then IsSet(env, "PG_HOST") && IsSet(env, "PG_PORT")
    else if provider == "milvus" then IsSet(env, "MILVUS_HOST") && IsSet(env, "MILVUS_PORT")
    else if provider == "elasticsearch" then IsSet(env, "ELASTICSEARCH_HOST") && IsSet(env, "ELASTICSEARCH_PORT")
    else if provider == "opensearch" then IsSet(env, "OPENSEARCH_HOST") && IsSet(env, "OPENSEARCH_PORT")
    else if provider == "faiss" then IsSet(env, "FAISS_PATH")
    else false
  }

  /** The builder of a provider of `Priority`. */
  function Build(env: Env, provider: string, collection: string): Result<Object, Fault> {
    if provider == "tencent_vectordb" then TencentConfig(env, collection)
    else if provider == "chroma" then HostPortConfig(env, "CHROMA_HOST", "CHROMA_PORT")
    else if provider == "qdrant" then HostPortConfig(env, "QDRANT_HOST", "QDRANT_PORT")
    else if provider == "weaviate" then WeaviateConfig(env, collection)
    else if provider == "redis" then Ok(map["collection_name" := JStr(collection), "redis_url" := EnvValue(env, "REDIS_URL")])
    else if provider == "pgvector" then PgvectorConfig(env)
    else if provider == "milvus" then MilvusConfig(env, collection)
    else if provider == "elasticsearch" then ElasticsearchConfig(env)
    else if provider == "opensearch" then HostPortConfig(env, "OPENSEARCH_HOST", "OPENSEARCH_PORT")
    else FaissConfig(env, collection)
  }

  /** `_detect_vector_store_config`: the chain of provider checks, each building its
      configuration when its variables are present. */
  function DetectVectorStore(env: Env, collection: string): Result<(string, Object), Fault> {
    if Enabled(env, "tencent_vectordb") then
      var c :- TencentConfig(env, collection); Ok(("tencent_vectordb", c))
    else if Enabled(env, "chroma") then
      var c :- HostPortConfig(env, "CHROMA_HOST", "CHROMA_PORT"); Ok(("chroma", c))
    else if Enabled(env, "qdrant") then
      var c :- HostPortConfig(env, "QDRANT_HOST", "QDRANT_PORT"); Ok(("qdrant", c))
    else if Enabled(env, "weaviate") then
      var c :- WeaviateConfig(env, collection); Ok(("weaviate", c))
    else if Enabled(env, "redis") then
      Ok(("redis", map["collection_name" := JStr(collection), "redis_url" := EnvValue(env, "REDIS_URL")]))
    else if Enabled(env, "pgvector") then
      var c :- PgvectorConfig(env); Ok(("pgvector", c))
    else if Enabled(env, "milvus") then
      var c :- MilvusConfig(env, collection); Ok(("milvus", c))
    else if Enabled(env, "elasticsearch") then
      var c :- ElasticsearchConfig(env); Ok(("elasticsearch", c))
    else if Enabled(env, "opensearch") then
      var c :- HostPortConfig(env, "OPENSEARCH_HOST", "OPENSEARCH_PORT"); Ok(("opensearch", c))
    else if Enabled(env, "faiss") then
      var c :- FaissConfig(env, collection); Ok(("faiss", c))
    else
      var c :- DefaultQdrantConfig(env); Ok(("qdrant", c))
  }

  /** Detection takes the first enabled provider of `Priority` and returns what its builder
      returns; with none enabled it falls back to qdrant with only a port. */
  lemma {:induction false} DetectFirstEnabled(env: Env, collection: string, i: nat)
    requires i < |Priority| && Enabled(env, Priority[i])
    requires forall j :: 0 <= j < i ==> !Enabled(env, Priority[j])
    ensures DetectVectorStore(env, collection) ==
      match Build(env, Priority[i], collection)
      case Ok(c) => Ok((Priority[i], c))
      case Err(e) => Err(e)
  {
    if i > 0 { assert !Enabled(env, Priority[0]); }
    if i > 1 { assert !Enabled(env, Priority[1]); }
    if i > 2 { assert !Enabled(env, Priority[2]); }
    if i > 3 { assert !Enabled(env, Priority[3]); }
    if i > 4 { assert !Enabled(env, Priority[4]); }
    if i > 5 { assert !Enabled(env, Priority[5]); }
    if i > 6 { assert !Enabled(env, Priority[6]); }
    if i > 7 { assert !Enabled(env, Priority[7]); }
    if i > 8 { assert !Enabled(env, Priority[8]); }
  }

  lemma DetectFallback(env: Env, collection: string)
    requires forall j :: 0 <= j < |Priority| ==> !Enabled(env, Priority[j])
    ensures DetectVectorStore(env, collection) ==
      match DefaultQdrantConfig(env)
      case Ok(c) => Ok(("qdrant", c))
      case Err(e) => Err(e)
    ensures "QDRANT_PORT" !in env ==> DetectVectorStore(env, collection) == Ok(("qdrant", map["port" := JInt(6333)]))
  {
    assert !Enabled(env, Priority[0]) && !Enabled(env, Priority[1]) && !Enabled(env, Priority[2]);
    assert !Enabled(env, Priority[3]) && !Enabled(env, Priority[4]) && !Enabled(env, Priority[5]);
    assert !Enabled(env, Priority[6]) && !Enabled(env, Priority[7]) && !Enabled(env, Priority[8]);
    assert !Enabled(env, Priority[9]);
  }

  /** Credentials of pgvector are present exactly when set and non-empty. */
  lemma PgvectorCredentialsPresent(env: Env)
    requires PgvectorConfig(env).Ok?
    ensures "dbname" in PgvectorConfig(env).value <==> IsSet(env, "PG_DB")
    ensures "user" in PgvectorConfig(env).value <==> IsSet(env, "PG_USER")
    ensures "password" in PgvectorConfig(env).value <==> IsSet(env, "PG_PASSWORD")
  {
    var base := HostPortConfig(env, "PG_HOST", "PG_PORT").value;
    assert base.Keys == {"host", "port"};
    PgvectorPairs();
    CredentialsPresent(base, PgvectorCredentials, env);
  }

  lemma PgvectorPairs()
    ensures var p := PgvectorCredentials;
      && p[0] == ("dbname", "PG_DB") && p[1] == ("user", "PG_USER") && p[2] == ("password", "PG_PASSWORD")
      && |p| == 3 && forall j, k :: 0 <= j < k < |p| ==> p[j].0 != p[k].0
  {
  }

  /** With distinct keys that the base config lacks, each key is present afterwards exactly
      when its variable is set. */
  lemma CredentialsPresent(config: Object, pairs: seq<(string, string)>, env: Env)
    requires forall i :: 0 <= i < |pairs| ==> pairs[i].0 !in config
    requires forall j, k :: 0 <= j < k < |pairs| ==> pairs[j].0 != pairs[k].0
    ensures forall i :: 0 <= i < |pairs| ==> (pairs[i].0 in WithCredentials(config, pairs, env) <==> IsSet(env, pairs[i].1))
  {
    forall i | 0 <= i < |pairs|
      ensures pairs[i].0 in WithCredentials(config, pairs, env) <==> IsSet(env, pairs[i].1)
    {
      CredentialPresent(config, pairs, env, i);
    }
  }

  /** The Elasticsearch builder: its fixed fields, and the credentials exactly when set
      and non-empty. */
  lemma ElasticsearchCredentialsPresent(env: Env)
    requires ElasticsearchConfig(env).Ok?
    ensures "user" in ElasticsearchConfig(env).value <==> IsSet(env, "ELASTICSEARCH_USER")
    ensures "password" in ElasticsearchConfig(env).value <==> IsSet(env, "ELASTICSEARCH_PASSWORD")
    ensures "verify_certs" in ElasticsearchConfig(env).value
    ensures ElasticsearchConfig(env).value["verify_certs"] == JBool(false)
  {
    var port := RequiredInt(env, "ELASTICSEARCH_PORT").value;
    var dims := IntSetting(env, "ELASTICSEARCH_EMBEDDING_DIMS", DefaultDims).value;
    var base := EsBase(env, port, dims);
    assert ElasticsearchConfig(env).value == WithCredentials(base, ElasticsearchCredentials, env);
    assert "user" !in base && "password" !in base;
    EsCredentials(base, env);
  }

  /** The Elasticsearch credentials over any base without them: each key is added exactly
      when its variable is set, and `verify_certs` keeps its value. */
  lemma EsCredentials(base: Object, env: Env)
    requires "user" !in base && "password" !in base && "verify_certs" in base
    ensures var c := WithCredentials(base, ElasticsearchCredentials, env);
      && ("user" in c <==> IsSet(env, "ELASTICSEARCH_USER"))
      && ("password" in c <==> IsSet(env, "ELASTICSEARCH_PASSWORD"))
      && "verify_certs" in c && c["verify_certs"] == base["verify_certs"]
  {
    ElasticsearchPairs();
    CredentialsPresent(base, ElasticsearchCredentials, env);
    WithCredentialsKeys(base, ElasticsearchCredentials, env);
    assert forall i :: 0 <= i < |ElasticsearchCredentials| ==> ElasticsearchCredentials[i].0 != "verify_certs";
  }

  lemma ElasticsearchPairs()
    ensures var p := ElasticsearchCredentials;
      && p[0] == ("user", "ELASTICSEARCH_USER") && p[1] == ("password", "ELASTICSEARCH_PASSWORD")
      && |p| == 2 && forall j, k :: 0 <= j < k < |p| ==> p[j].0 != p[k].0
  {
  }

  /* ---------------------------------------------------------------- the default configuration */

  const DefaultMaxTokens := 2000

  /** `_get_llm_config`; the temperature is kept as its literal text. */
  function LlmConfig(env: Env): (r: Result<(string, Object), Fault>)
    ensures r.Ok? <==> IntSetting(env, "LLM_MAX_TOKENS", DefaultMaxTokens).Ok?
    ensures r.Ok? ==>
      var (provider, config) := r.value;
      && provider == GetOr(env, "LLM_PROVIDER", "openai")
      && config.Keys == {"model", "temperature", "max_tokens", "api_key"}
                        + (if IsSet(env, "OPENAI_BASE_URL") then {"base_url"} else {})
      && Json.Get(config, "model") == Some(JStr(GetOr(env, "OPENAI_MODEL", "gpt-4o-mini")))
      && Json.Get(config, "temperature") == Some(JFloat(GetOr(env, "LLM_TEMPERATURE", "0.1")))
      && Json.Get(config, "max_tokens") == Some(JInt(IntSetting(env, "LLM_MAX_TOKENS", DefaultMaxTokens).value))
      && Json.Get(config, "api_key") == Some(JStr("env:OPENAI_API_KEY"))
      && (IsSet(env, "OPENAI_BASE_URL") ==> Json.Get(config, "base_url") == Some(JStr(env["OPENAI_BASE_URL"])))
  {
    var maxTokens :- IntSetting(env, "LLM_MAX_TOKENS", DefaultMaxTokens);
    var base := map[
      "model" := JStr(GetOr(env, "OPENAI_MODEL", "gpt-4o-mini")),
      "temperature" := JFloat(GetOr(env, "LLM_TEMPERATURE", "0.1")),
      "max_tokens" := JInt(maxTokens),
      "api_key" := JStr("env:OPENAI_API_KEY")];
    var config := if IsSet(env, "OPENAI_BASE_URL") then base["base_url" := JStr(env["OPENAI_BASE_URL"])] else base;
    Ok((GetOr(env, "LLM_PROVIDER", "openai"), config))
  }

  /** `_get_embedder_config`: the dimension is parsed whatever the provider, and recorded
      only for a non-zero dimension with provider ollama. */
  function EmbedderConfig(env: Env): (r: Result<(string, Object), Fault>)
    ensures r.Ok? <==> IntSetting(env, "EMBEDDER_DIMS", DefaultDims).Ok?
    ensures r.Ok? ==>
      var (provider, config) := r.value;
      var dims := IntSetting(env, "EMBEDDER_DIMS", DefaultDims).value;
      && provider == GetOr(env, "EMBEDDER_PROVIDER", "openai")
      && config.Keys == {"model", "api_key"}
                        + (if IsSet(env, "EMBEDDER_BASE_URL") then {"base_url"} else {})
                        + (if provider == "ollama" && dims != 0 then {"embedding_model_dims"} else {})
      && Json.Get(config, "model") == Some(JStr(GetOr(env, "EMBEDDER_MODEL", "text-embedding-3-small")))
      && Json.Get(config, "api_key") == Some(JStr("env:OPENAI_API_KEY"))
      && (IsSet(env, "EMBEDDER_BASE_URL") ==> Json.Get(config, "base_url") == Some(JStr(env["EMBEDDER_BASE_URL"])))
      && ("embedding_model_dims" in config ==> Json.Get(config, "embedding_model_dims") == Some(JInt(dims)))
  {
    var provider := GetOr(env, "EMBEDDER_PROVIDER", "openai");
    var dims :- IntSetting(env, "EMBEDDER_DIMS", DefaultDims);
    var base := map[
      "model" := JStr(GetOr(env, "EMBEDDER_MODEL", "text-embedding-3-small")),
      "api_key" := JStr("env:OPENAI_API_KEY")];
    var withUrl := if IsSet(env, "EMBEDDER_BASE_URL") then base["base_url" := JStr(env["EMBEDDER_BASE_URL"])] else base;
    var config := if provider == "ollama" && dims != 0 then withUrl["embedding_model_dims" := JInt(dims)] else withUrl;
    Ok((provider, config))
  }

  function Section(provider: string, config: Object): Value {
    JObj(map["provider" := JStr(provider), "config" := JObj(config)])
  }

  /** The vector-store defaults: a collection name whenever missing, and a host whenever
      missing except for Tencent. */
  function FillVectorStore(provider: string, config: Object, collection: string, host: string): (r: Object)
    ensures "collection_name" in r
    ensures "host" in r <==> "host" in config || provider != "tencent_vectordb"
    ensures forall k :: k in config ==> k in r && r[k] == config[k]
  {
    var c := if "collection_name" !in config then config["collection_name" := JStr(collection)] else config;
    if "host" !in c && provider != "tencent_vectordb" then c["host" := JStr(host)] else c
  }

  /** `get_default_memory_config`. */
  function DefaultMemoryConfig(env: Env): (r: Result<Object, Fault>)
    ensures r.Ok? ==> r.value.Keys == {"vector_store", "llm", "embedder", "version"}
  {
    var host := GetOr(env, "VECTOR_STORE_HOST", "mem0_store");
    var collection := GetOr(env, "VECTOR_STORE_COLLECTION_NAME", "openmemory");
    var detected :- DetectVectorStore(env, collection);
    var vectorStore := FillVectorStore(detected.0, detected.1, collection, host);
    var llm :- LlmConfig(env);
    var embedder :- EmbedderConfig(env);
    Ok(map[
      "vector_store" := Section(detected.0, vectorStore),
      "llm" := Section(llm.0, llm.1),
      "embedder" := Section(embedder.0, embedder.1),
      "version" := JStr("v1.1")])
  }

  /* ---------------------------------------------------------------- the stored configuration */

  /** The configuration being assembled, and whether loading the stored one has raised;
      once it has, the rest of the stored configuration is skipped but what was already
      applied stays. */
  datatype Loading = Loading(config: Object, failed: bool)

  /** One section of the stored `mem0` object laid over the defaults; a stored ollama
      section of the LLM or the embedder has its URL fixed as well. */
  function ApplySection(l: Loading, mem0: Value, key: string, fixOllama: bool, dockerHost: string): (r: Loading)
    ensures l.failed ==> r == l
    ensures l.config.Keys <= r.config.Keys
    ensures forall k :: k in l.config && k != key ==> r.config[k] == l.config[k]
  {
    if l.failed then l
    else match Lookup(mem0, key)
      case None => l.(failed := true)
      case Some(None) => l
      case Some(Some(x)) =>
        if x == JNull then l
        else
          var c := l.config[key := x];
          if !fixOllama then Loading(c, false)
          else if !x.JObj? then Loading(c, true)
          else if Json.Get(x.fields, "provider") != Some(JStr("ollama")) then Loading(c, false)
          else match FixOllamaUrls(x.fields, dockerHost)
            case None => Loading(c, true)
            case Some(f) => Loading(l.config[key := JObj(f)], false)
  }

  /** The stored row laid over the defaults: the custom instructions it holds (null when it
      holds none), then its llm, embedder and vector_store sections. */
  function Overlay(config: Object, stored: Object, dockerHost: string): (r: (Object, Value))
    ensures config.Keys <= r.0.Keys
  {
    var instructions :=
      if "openmemory" !in stored then Some(JNull)
      else match Lookup(stored["openmemory"], "custom_instructions")
        case None => None
        case Some(None) => Some(JNull)
        case Some(Some(x)) => Some(x);
    match instructions
    case None => (config, JNull)
    case Some(i) =>
      if "mem0" !in stored then (config, i)
      else
        var mem0 := stored["mem0"];
        var l1 := ApplySection(Loading(config, false), mem0, "llm", true, dockerHost);
        var l2 := ApplySection(l1, mem0, "embedder", true, dockerHost);
        var l3 := ApplySection(l2, mem0, "vector_store", false, dockerHost);
        (l3.config, i)
  }

  /** A stored section of the LLM or the embedder is an ollama one. */
  predicate OllamaSection(x: Value) {
    x.JObj? && Json.Get(x.fields, "provider") == Some(JStr("ollama"))
  }

  /** Laying the stored section `key` over the defaults does not raise: it is absent or
      null, or a dict whose URL fix (for an ollama provider) succeeds. */
  predicate SectionLoads(mem0: Object, key: string, dockerHost: string) {
    key !in mem0 || mem0[key] == JNull
    || (mem0[key].JObj? && (OllamaSection(mem0[key]) ==> FixOllamaUrls(mem0[key].fields, dockerHost).Some?))
  }

  /** What a loadable, non-null stored LLM or embedder section becomes: an ollama one has
      its URL fixed, any other is taken as it is. */
  function LoadedSection(x: Value, dockerHost: string): Value
    requires x.JObj? && (OllamaSection(x) ==> FixOllamaUrls(x.fields, dockerHost).Some?)
  {
    if OllamaSection(x) then JObj(FixOllamaUrls(x.fields, dockerHost).value) else x
  }

  /** With a stored `mem0` dict the defaults remain for every section it does not hold;
      each non-null stored section replaces the default once the sections before it have
      loaded, an ollama LLM or embedder with its URL fixed; a stored LLM section that
      raises stays as stored and nothing after it is applied. */
  lemma OverlaySections(config: Object, stored: Object, dockerHost: string)
    requires "mem0" in stored && stored["mem0"].JObj?
    requires "openmemory" !in stored || stored["openmemory"].JObj?
    ensures var (c, _) := Overlay(config, stored, dockerHost);
      var mem0 := stored["mem0"].fields;
      && (forall k :: k in config && k !in mem0 ==> k in c && c[k] == config[k])
      && ("llm" in mem0 && mem0["llm"] != JNull && SectionLoads(mem0, "llm", dockerHost) ==>
            "llm" in c && c["llm"] == LoadedSection(mem0["llm"], dockerHost))
      && ("llm" in mem0 && !SectionLoads(mem0, "llm", dockerHost) ==> c == config["llm" := mem0["llm"]])
      && (SectionLoads(mem0, "llm", dockerHost)
          && "embedder" in mem0 && mem0["embedder"] != JNull && SectionLoads(mem0, "embedder", dockerHost) ==>
            "embedder" in c && c["embedder"] == LoadedSection(mem0["embedder"], dockerHost))
      && (SectionLoads(mem0, "llm", dockerHost) && SectionLoads(mem0, "embedder", dockerHost)
          && "vector_store" in mem0 && mem0["vector_store"] != JNull ==>
            "vector_store" in c && c["vector_store"] == mem0["vector_store"])
  {
    var mem0 := stored["mem0"].fields;
    var l1 := ApplySection(Loading(config, false), stored["mem0"], "llm", true, dockerHost);
    var l2 := ApplySection(l1, stored["mem0"], "embedder", true, dockerHost);
    var l3 := ApplySection(l2, stored["mem0"], "vector_store", false, dockerHost);
    assert Overlay(config, stored, dockerHost).0 == l3.config;
    if SectionLoads(mem0, "llm", dockerHost) {
      assert !l1.failed;
      if "llm" in mem0 && mem0["llm"] != JNull {
        assert l1.config["llm"] == LoadedSection(mem0["llm"], dockerHost);
      }
      if SectionLoads(mem0, "embedder", dockerHost) {
        assert !l2.failed;
        if "embedder" in mem0 && mem0["embedder"] != JNull {
          assert l2.config["embedder"] == LoadedSection(mem0["embedder"], dockerHost);
        }
      }
    } else if "llm" in mem0 {
      assert l1.failed && l1.config == config["llm" := mem0["llm"]];
    }
  }

  /** The defaults with the stored row laid over them and the custom instructions chosen:
      the caller's when non-empty, else the stored ones, set only when truthy. */
  function Assemble(defaults: Object, stored: Option<Object>, custom: Option<string>, dockerHost: string): (r: Object)
    ensures defaults.Keys <= r.Keys
  {
    var (config, fromDb) := if stored.None? then (defaults, JNull) else Overlay(defaults, stored.value, dockerHost);
    var chosen := if custom.Some? && custom.value != [] then JStr(custom.value) else fromDb;
    if Truthy(chosen) then config["custom_fact_extraction_prompt" := chosen] else config
  }

  /** The configuration handed to `Memory.from_config`, before references are resolved;
      `None` where building the defaults raised. `stored` is the row keyed "main", `None`
      where there is none or reading it failed; `custom` is the caller's instructions. */
  function AssembleConfig(env: Env, stored: Option<Object>, custom: Option<string>, dockerHost: string): (r: Option<Object>)
    ensures r.Some? ==> "vector_store" in r.value && "llm" in r.value && "embedder" in r.value && "version" in r.value
  {
    match DefaultMemoryConfig(env)
    case Err(_) => None
    case Ok(defaults) => Some(Assemble(defaults, stored, custom, dockerHost))
  }

  /** Non-empty instructions from the caller win over the stored ones; without them the
      stored instructions are set when truthy; without a stored row and without
      instructions the defaults are used as they are. */
  lemma AssembleChoosesInstructions(defaults: Object, stored: Option<Object>, custom: Option<string>, dockerHost: string)
    ensures custom.Some? && custom.value != [] ==>
      Assemble(defaults, stored, custom, dockerHost)["custom_fact_extraction_prompt"] == JStr(custom.value)
    ensures stored.None? && (custom.None? || custom.value == []) ==> Assemble(defaults, stored, custom, dockerHost) == defaults
    ensures stored.Some? && (custom.None? || custom.value == []) ==>
      var (c, fromDb) := Overlay(defaults, stored.value, dockerHost);
      && (Truthy(fromDb) ==> Assemble(defaults, stored, custom, dockerHost) == c["custom_fact_extraction_prompt" := fromDb])
      && (!Truthy(fromDb) ==> Assemble(defaults, stored, custom, dockerHost) == c)
  {
  }

  /** Non-empty instructions from the caller win over the stored ones; without a stored row
      and without instructions the defaults are used; a failing default configuration
      yields no client. */
  lemma AssembleInstructions(env: Env, stored: Option<Object>, custom: Option<string>, dockerHost: string)
    ensures DefaultMemoryConfig(env).Err? ==> AssembleConfig(env, stored, custom, dockerHost).None?
    ensures DefaultMemoryConfig(env).Ok? && custom.Some? && custom.value != [] ==>
      && AssembleConfig(env, stored, custom, dockerHost).Some?
      && Json.Get(AssembleConfig(env, stored, custom, dockerHost).value, "custom_fact_extraction_prompt")
         == Some(JStr(custom.value))
    ensures DefaultMemoryConfig(env).Ok? && stored.None? && (custom.None? || custom.value == []) ==>
      AssembleConfig(env, stored, custom, dockerHost) == DefaultMemoryConfig(env).ToOption()
  {
    if DefaultMemoryConfig(env).Ok? {
      AssembleChoosesInstructions(DefaultMemoryConfig(env).value, stored, custom, dockerHost);
    }
  }

  /** Without instructions from the caller, truthy stored instructions become the prompt of
      the configuration handed to the engine. */
  lemma AssembleStoredInstructions(env: Env, stored: Object, custom: Option<string>, dockerHost: string)
    requires custom.None? || custom.value == []
    ensures DefaultMemoryConfig(env).Ok? ==>
      var fromDb := Overlay(DefaultMemoryConfig(env).value, stored, dockerHost).1;
      && AssembleConfig(env, Some(stored), custom, dockerHost).Some?
      && (Truthy(fromDb) ==>
            Json.Get(AssembleConfig(env, Some(stored), custom, dockerHost).value, "custom_fact_extraction_prompt")
              == Some(fromDb))
  {
    if DefaultMemoryConfig(env).Ok? {
      AssembleChoosesInstructions(DefaultMemoryConfig(env).value, Some(stored), custom, dockerHost);
    }
  }

  /* ---------------------------------------------------------------- the cached client */

  /** A client instance, by identity. */
  type Client = nat

  /** The module-level client and the hash of the configuration it was built from. */
  class ClientCache {
    var client: Option<Client>
    var hash: Option<string>

    /** A client is cached exactly together with its hash. */
    predicate Valid()
      reads this
    {
      client.Some? <==> hash.Some?
    }

    constructor ()
      ensures client.None? && hash.None? && Valid()
    {
      client, hash := None, None;
    }

    /** `reset_memory_client`. */
    method Reset()
      modifies this
      ensures client.None? && hash.None? && Valid()
    {
      client, hash := None, None;
    }

    /** The cache decision of `get_memory_client`: a cached client with the same hash is
        returned as it is; otherwise `built` (the outcome of `Memory.from_config`) is cached
        with the hash, and a failed build clears both. */
    method Obtain(h: string, built: Option<Client>) returns (r: Option<Client>)
      modifies this
      ensures old(client).Some? && old(hash) == Some(h) ==>
        r == old(client) && client == old(client) && hash == old(hash)
      ensures !(old(client).Some? && old(hash) == Some(h)) ==>
        r == built && client == built && hash == (if built.Some? then Some(h) else None)
      ensures old(Valid()) ==> Valid()
    {
      if client.None? || hash != Some(h) {
        if built.None? {
          client, hash := None, None;
          return None;
        }
        client, hash := built, Some(h);
      }
      r := client;
    }

    /** `get_memory_client`: assemble, resolve references, then consult the cache. A failing
        default configuration returns no client and leaves the cache as it is. */
    method GetMemoryClient(env: Env, stored: Option<Object>, custom: Option<string>, dockerHost: string,
                           hashOf: Value -> string, built: Option<Client>) returns (r: Option<Client>)
      modifies this
      ensures AssembleConfig(env, stored, custom, dockerHost).None? ==>
        r.None? && client == old(client) && hash == old(hash)
      ensures AssembleConfig(env, stored, custom, dockerHost).Some? ==>
        var h := hashOf(Resolve(JObj(AssembleConfig(env, stored, custom, dockerHost).value), env));
        && (old(client).Some? && old(hash) == Some(h) ==> r == old(client) && client == old(client) && hash == old(hash))
        && (!(old(client).Some? && old(hash) == Some(h)) ==>
              r == built && client == built && hash == (if built.Some? then Some(h) else None))
      ensures old(Valid()) ==> Valid()
    {
      var config := AssembleConfig(env, stored, custom, dockerHost);
      if config.None? {
        return None;
      }
      var resolved := ParseEnvironmentVariables(JObj(config.value), env);
      r := Obtain(hashOf(resolved), built);
    }
  }
}
