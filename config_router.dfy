/** The configuration router: the default configuration built from the environment, the
    stored row merged with it, and the handlers that replace or merge its sections. The
    stored configuration is a JSON dict per key; the handlers always use the key "main". */
module ConfigRouter {
  import opened Wrappers
  import opened Json
  import opened Environment
  import Strings
  import MemoryClient

  /** What a handler raises: any exception (an error 500), or the 404 of the graph store. */
  datatype ConfigError = Raised | GraphStoreNotFound {
    function Status(): int {
      if Raised? then 500 else 404
    }
  }

  const GraphStoreNotFoundDetail := "Graph store configuration not found"
  const GraphStoreDeleted := "Graph store configuration deleted successfully"
  const MainKey := "main"

  /* ---------------------------------------------------------------- the default configuration */

  const DefaultOpenMemory: Value := JObj(map["custom_instructions" := JNull])

  const DefaultLlm: Value := JObj(map[
    "provider" := JStr("openai"),
    "config" := JObj(map[
      "model" := JStr("gpt-4o-mini"),
      "temperature" := JFloat("0.1"),
      "max_tokens" := JInt(2000),
      "api_key" := JStr("env:OPENAI_API_KEY")])])

  const DefaultEmbedder: Value := JObj(map[
    "provider" := JStr("openai"),
    "config" := JObj(map[
      "model" := JStr("text-embedding-3-small"),
      "api_key" := JStr("env:OPENAI_API_KEY")])])

  /** Proxy mode is asked for: `NEO4J_USE_PROXY` reads "true" in any case and the proxy URL,
      the user name and the password are all set and non-empty. */
  predicate ProxyConfigured(env: Env) {
    && Strings.Lower(GetOr(env, "NEO4J_USE_PROXY", "false")) == "true"
    && IsSet(env, "NEO4J_PROXY_URL") && IsSet(env, "NEO4J_USERNAME") && IsSet(env, "NEO4J_PASSWORD")
  }

  /** Direct mode is possible: URL, user name and password are set and non-empty. */
  predicate DirectConfigured(env: Env) {
    IsSet(env, "NEO4J_URL") && IsSet(env, "NEO4J_USERNAME") && IsSet(env, "NEO4J_PASSWORD")
  }

  /** The graph store of the default configuration; the password is stored as a reference
      to the variable, never as its value. */
  function DefaultGraphStore(env: Env): Option<Value> {
    var database := JStr(GetOr(env, "NEO4J_DATABASE", "neo4j"));
    if ProxyConfigured(env) then
      Some(JObj(map[
        "provider" := JStr("neo4j"),
        "config" := JObj(map[
          "use_proxy" := JBool(true),
          "proxy_url" := JStr(env["NEO4J_PROXY_URL"]),
          "username" := JStr(env["NEO4J_USERNAME"]),
          "password" := JStr("env:NEO4J_PASSWORD"),
          "database" := database])]))
    else if DirectConfigured(env) then
      Some(JObj(map[
        "provider" := JStr("neo4j"),
        "config" := JObj(map[
          "use_proxy" := JBool(false),
          "url" := JStr(env["NEO4J_URL"]),
          "username" := JStr(env["NEO4J_USERNAME"]),
          "password" := JStr("env:NEO4J_PASSWORD"),
          "database" := database])]))
    else None
  }

  /** The `mem0` section of the default configuration. */
  function DefaultMem0(env: Env): (m: Object)
    ensures m.Keys == {"llm", "embedder"} + (if DefaultGraphStore(env).Some? then {"graph_store"} else {})
    ensures m["llm"] == DefaultLlm && m["embedder"] == DefaultEmbedder
    ensures DefaultGraphStore(env).Some? ==> m["graph_store"] == DefaultGraphStore(env).value
  {
    var m := map["llm" := DefaultLlm, "embedder" := DefaultEmbedder];
    match DefaultGraphStore(env)
    case None => m
    case Some(g) => m["graph_store" := g]
  }

  /** `get_default_configuration`. */
  function DefaultConfiguration(env: Env): (r: Object)
    ensures r.Keys == {"openmemory", "mem0"}
  {
    map["openmemory" := DefaultOpenMemory, "mem0" := JObj(DefaultMem0(env))]
  }

  /** The graph store is added in proxy mode when that is configured, else in direct mode
      when that is, else not at all; both modes keep the password as the literal reference
      "env:NEO4J_PASSWORD" and default the database to "neo4j". */
  lemma DefaultGraphStoreCases(env: Env)
    ensures DefaultGraphStore(env).Some? <==> ProxyConfigured(env) || DirectConfigured(env)
    ensures ProxyConfigured(env) ==>
      var g := DefaultGraphStore(env).value.fields["config"].fields;
      g["use_proxy"] == JBool(true) && g["proxy_url"] == JStr(env["NEO4J_PROXY_URL"]) && "url" !in g
    ensures !ProxyConfigured(env) && DirectConfigured(env) ==>
      var g := DefaultGraphStore(env).value.fields["config"].fields;
      g["use_proxy"] == JBool(false) && g["url"] == JStr(env["NEO4J_URL"]) && "proxy_url" !in g
    ensures DefaultGraphStore(env).Some? ==>
      var g := DefaultGraphStore(env).value.fields["config"].fields;
      && g["password"] == JStr("env:NEO4J_PASSWORD")
      && g["username"] == JStr(env["NEO4J_USERNAME"])
      && ("NEO4J_DATABASE" !in env ==> g["database"] == JStr("neo4j"))
  {
  }

  /** Proxy mode needs the flag to read "true" whatever its case; unset, it is off. */
  lemma ProxyFlagCaseInsensitive(env: Env, flag: string)
    requires "NEO4J_USE_PROXY" in env && env["NEO4J_USE_PROXY"] == Strings.Upper(flag)
    ensures ProxyConfigured(env) <==>
      && Strings.Lower(flag) == "true"
      && IsSet(env, "NEO4J_PROXY_URL") && IsSet(env, "NEO4J_USERNAME") && IsSet(env, "NEO4J_PASSWORD")
  {
    Strings.LowerAbsorbsCase(flag);
  }

  /* ---------------------------------------------------------------- the merge with the defaults */

  /** What the merge takes from a default `mem0` section: an llm and an embedder, neither
      null. */
  predicate Mem0Defaults(d: Object) {
    "llm" in d && d["llm"] != JNull && "embedder" in d && d["embedder"] != JNull
  }

  /** What the merge takes from a default configuration: an `openmemory` entry and a
      `mem0` dict as above. */
  predicate ConfigDefaults(d: Object) {
    "openmemory" in d && "mem0" in d && d["mem0"].JObj? && Mem0Defaults(d["mem0"].fields)
  }

  /** The default configuration has what the merge takes from it. */
  lemma DefaultConfigurationShaped(env: Env)
    ensures ConfigDefaults(DefaultConfiguration(env))
    ensures DefaultConfiguration(env)["mem0"].fields == DefaultMem0(env)
  {
  }

  /** The llm and embedder sections are filled from the defaults when missing or null, the
      graph store only when the defaults hold one and the key is missing. */
  function FillMem0(m: Object, defaults: Object): Object
    requires Mem0Defaults(defaults)
  {
    var withLlm := if "llm" !in m || m["llm"] == JNull then m["llm" := defaults["llm"]] else m;
    var withEmbedder :=
      if "embedder" !in withLlm || withLlm["embedder"] == JNull then withLlm["embedder" := defaults["embedder"]]
      else withLlm;
    if "graph_store" in defaults && "graph_store" !in withEmbedder then
      withEmbedder["graph_store" := defaults["graph_store"]]
    else withEmbedder
  }

  /** Filling adds exactly llm, embedder and the default graph store if there is one; it
      leaves llm and embedder non-null, keeps every non-null entry, and adds the default
      graph store only where none is stored. */
  lemma FillMem0Fills(m: Object, defaults: Object)
    requires Mem0Defaults(defaults)
    ensures var f := FillMem0(m, defaults);
      && f.Keys == m.Keys + {"llm", "embedder"} + (if "graph_store" in defaults then {"graph_store"} else {})
      && f["llm"] != JNull && f["embedder"] != JNull
      && (forall k :: k in m && m[k] != JNull ==> f[k] == m[k])
      && ("graph_store" !in m && "graph_store" in defaults ==> f["graph_store"] == defaults["graph_store"])
  {
  }

  /** The stored configuration merged with the defaults, as `get_config_from_db` returns an
      existing row; a stored `mem0` that is not a dict makes the merge raise. */
  function Merge(stored: Object, defaults: Object): Result<Object, ConfigError>
    requires ConfigDefaults(defaults)
  {
    var withOpenMemory := if "openmemory" !in stored then stored["openmemory" := defaults["openmemory"]] else stored;
    if "mem0" !in withOpenMemory then Ok(withOpenMemory["mem0" := defaults["mem0"]])
    else match withOpenMemory["mem0"]
      case JObj(m) => Ok(withOpenMemory["mem0" := JObj(FillMem0(m, defaults["mem0"].fields))])
      case _ => Err(Raised)
  }

  /** The merge raises exactly when the stored `mem0` is there and not a dict. */
  lemma MergeFails(stored: Object, defaults: Object)
    requires ConfigDefaults(defaults)
    ensures Merge(stored, defaults).Err? <==> "mem0" in stored && !stored["mem0"].JObj?
    ensures Merge(stored, defaults).Err? ==> Merge(stored, defaults) == Err(Raised)
  {
  }

  /** The merge never overwrites: every stored key other than `mem0` keeps its value, and
      every stored `mem0` entry that is not null keeps its value; it adds only `openmemory`
      and `mem0` at the top. */
  lemma MergeKeeps(stored: Object, defaults: Object)
    requires ConfigDefaults(defaults)
    requires Merge(stored, defaults).Ok?
    ensures Merge(stored, defaults).value.Keys == stored.Keys + {"openmemory", "mem0"}
    ensures forall k :: k in stored && k != "mem0" ==> Merge(stored, defaults).value[k] == stored[k]
    ensures "mem0" in stored ==>
      var m := stored["mem0"].fields;
      var r := Merge(stored, defaults).value["mem0"].fields;
      forall k :: k in m && m[k] != JNull ==> k in r && r[k] == m[k]
  {
    if "mem0" in stored {
      FillMem0Fills(stored["mem0"].fields, defaults["mem0"].fields);
    }
  }

  /** After the merge the configuration has `openmemory` and a `mem0` dict whose llm and
      embedder are not null; the graph store is there when stored or in the defaults; a
      missing `mem0` or `openmemory` is the default one. */
  lemma MergeFills(stored: Object, defaults: Object)
    requires ConfigDefaults(defaults)
    requires Merge(stored, defaults).Ok?
    ensures var r := Merge(stored, defaults).value;
      && "openmemory" in r && "mem0" in r && r["mem0"].JObj?
      && "llm" in r["mem0"].fields && r["mem0"].fields["llm"] != JNull
      && "embedder" in r["mem0"].fields && r["mem0"].fields["embedder"] != JNull
      && ("graph_store" in r["mem0"].fields <==>
            ("mem0" in stored && "graph_store" in stored["mem0"].fields) || "graph_store" in defaults["mem0"].fields)
      && ("mem0" !in stored ==> r["mem0"] == defaults["mem0"])
      && ("openmemory" !in stored ==> r["openmemory"] == defaults["openmemory"])
  {
    if "mem0" in stored {
      FillMem0Fills(stored["mem0"].fields, defaults["mem0"].fields);
    }
  }

  /** Filling a filled `mem0` changes nothing. */
  lemma FillMem0Idempotent(m: Object, defaults: Object)
    requires Mem0Defaults(defaults)
    ensures FillMem0(FillMem0(m, defaults), defaults) == FillMem0(m, defaults)
  {
    FillMem0Fills(m, defaults);
  }

  /** A `mem0` section with a non-null llm, embedder and, when the defaults have one, a
      graph store is left as it is. */
  lemma FillMem0Filled(m: Object, defaults: Object)
    requires Mem0Defaults(defaults) && Mem0Defaults(m)
    requires "graph_store" in defaults ==> "graph_store" in m
    ensures FillMem0(m, defaults) == m
  {
  }

  /** Merging twice is merging once. */
  lemma MergeIdempotent(stored: Object, defaults: Object)
    requires ConfigDefaults(defaults)
    requires Merge(stored, defaults).Ok?
    ensures Merge(Merge(stored, defaults).value, defaults) == Merge(stored, defaults)
  {
    var d := defaults["mem0"].fields;
    var r := Merge(stored, defaults).value;
    MergeFills(stored, defaults);
    var f := r["mem0"].fields;
    FillMem0Filled(f, d);
    assert r["mem0" := JObj(FillMem0(f, d))] == r;
  }

  /** The defaults are their own merge. */
  lemma MergeDefaults(defaults: Object)
    requires ConfigDefaults(defaults)
    ensures Merge(defaults, defaults) == Ok(defaults)
  {
    var d := defaults["mem0"].fields;
    FillMem0Filled(d, d);
    assert defaults["mem0" := JObj(FillMem0(d, d))] == defaults;
  }

  /** What `get_config_from_db` returns for the rows before it runs. */
  function Read(rows: map<string, Object>, key: string, env: Env): Result<Object, ConfigError> {
    if key !in rows then Ok(DefaultConfiguration(env))
    else DefaultConfigurationShaped(env); Merge(rows[key], DefaultConfiguration(env))
  }

  /** The rows after `get_config_from_db`: a missing row is created with the defaults; an
      existing one is not written back, since the check for a change compares the row's
      value with itself. */
  function Loaded(rows: map<string, Object>, key: string, env: Env): map<string, Object> {
    if key !in rows then rows[key := DefaultConfiguration(env)] else rows
  }

  /** Reading never fails on a row the router wrote, and reading a fresh row gives the
      defaults, which a second read finds unchanged. */
  lemma ReadAfterLoad(rows: map<string, Object>, key: string, env: Env)
    ensures key in Loaded(rows, key, env)
    ensures key !in rows ==> Read(Loaded(rows, key, env), key, env) == Read(rows, key, env)
    ensures Read(rows, key, env).Ok? && key in rows ==> Read(Loaded(rows, key, env), key, env) == Read(rows, key, env)
  {
    DefaultConfigurationShaped(env);
    if key !in rows {
      MergeDefaults(DefaultConfiguration(env));
    }
  }

  /* ---------------------------------------------------------------- request bodies */

  /** `model.dict(exclude_none=True)`: every null field is dropped, in nested dicts too. */
  function DropNone(v: Value): (r: Value)
    ensures v.JObj? <==> r.JObj?
    decreases v
  {
    match v
    case JObj(fields) => JObj(map k | k in fields && fields[k] != JNull :: DropNone(fields[k]))
    case _ => v
  }

  function DropNoneObject(o: Object): Object {
    DropNone(JObj(o)).fields
  }

  /** No null field anywhere among the nested dicts. */
  predicate NoNone(v: Value)
    decreases v
  {
    match v
    case JObj(fields) => forall k :: k in fields ==> fields[k] != JNull && NoNone(fields[k])
    case _ => true
  }

  /** Dropping leaves no null field, keeps exactly the non-null keys, and changes a value
      without nulls not at all. */
  lemma {:induction false} DropNoneSound(v: Value)
    ensures NoNone(DropNone(v))
    ensures v.JObj? ==> DropNone(v).fields.Keys == set k | k in v.fields && v.fields[k] != JNull
    ensures NoNone(v) ==> DropNone(v) == v
    decreases v
  {
    match v
    case JObj(fields) =>
      forall k | k in fields && fields[k] != JNull
        ensures DropNone(fields[k]) != JNull && NoNone(DropNone(fields[k]))
        ensures NoNone(v) ==> DropNone(fields[k]) == fields[k]
      {
        DropNoneSound(fields[k]);
      }
      if NoNone(v) {
        assert DropNone(v).fields == fields;
      }
    case _ =>
  }

  /** Dropping twice is dropping once. */
  lemma DropNoneIdempotent(v: Value)
    ensures DropNone(DropNone(v)) == DropNone(v)
  {
    DropNoneSound(v);
    DropNoneSound(DropNone(v));
  }

  /* ---------------------------------------------------------------- section handlers */

  /** `config.get("mem0", {})`: a missing `mem0` reads as an empty dict; one that is not a
      dict makes the `.get` (or the assignment) that follows raise. */
  function Mem0Of(config: Object): Result<Object, ConfigError> {
    if "mem0" !in config then Ok(map[])
    else match config["mem0"]
      case JObj(m) => Ok(m)
      case _ => Err(Raised)
  }

  /** The llm, embedder or graph-store update: the request body, without its nulls,
      becomes that `mem0` key. */
  function SetSection(config: Object, key: string, body: Object): Result<Object, ConfigError> {
    var m :- Mem0Of(config);
    Ok(config["mem0" := JObj(m[key := JObj(DropNoneObject(body))])])
  }

  /** A section update replaces only its own key of `mem0`; everything else stays; it
      fails only on a `mem0` that is not a dict. */
  lemma SetSectionOnly(config: Object, key: string, body: Object)
    ensures SetSection(config, key, body).Ok? <==> Mem0Of(config).Ok?
    ensures SetSection(config, key, body).Ok? ==>
      var r := SetSection(config, key, body).value;
      && r.Keys == config.Keys + {"mem0"}
      && (forall k :: k in config && k != "mem0" ==> r[k] == config[k])
      && r["mem0"].JObj?
      && r["mem0"].fields.Keys == Mem0Of(config).value.Keys + {key}
      && (forall k :: k in Mem0Of(config).value && k != key ==> r["mem0"].fields[k] == Mem0Of(config).value[k])
      && r["mem0"].fields[key] == DropNone(JObj(body))
  {
  }

  /** `config.get("mem0", {}).get(key, {})`, as the section getters read it. */
  function GetSection(config: Object, key: string): Result<Value, ConfigError> {
    var m :- Mem0Of(config);
    Ok(if key in m then m[key] else JObj(map[]))
  }

  /** The graph-store getter: a missing or null graph store is a 404. */
  function GraphStoreOf(config: Object): Result<Value, ConfigError> {
    var m :- Mem0Of(config);
    if "graph_store" !in m || m["graph_store"] == JNull then Err(GraphStoreNotFound) else Ok(m["graph_store"])
  }

  /** What a section update writes its getter reads back, other sections untouched. */
  lemma SetThenGet(config: Object, key: string, other: string, body: Object)
    requires SetSection(config, key, body).Ok?
    ensures GetSection(SetSection(config, key, body).value, key) == Ok(DropNone(JObj(body)))
    ensures other != key ==> GetSection(SetSection(config, key, body).value, other) == GetSection(config, other)
    ensures key == "graph_store" ==> GraphStoreOf(SetSection(config, key, body).value) == Ok(DropNone(JObj(body)))
  {
  }

  /** `config.get("openmemory", {})`. */
  function OpenMemoryOf(config: Object): Value {
    if "openmemory" in config then config["openmemory"] else JObj(map[])
  }

  /** The openmemory update: the body's non-null fields are merged into the stored dict,
      which is created when missing; a stored value that is not a dict raises. */
  function UpdateOpenMemory(config: Object, body: Object): Result<Object, ConfigError> {
    match OpenMemoryOf(config)
    case JObj(current) => Ok(config["openmemory" := JObj(current + DropNoneObject(body))])
    case _ => Err(Raised)
  }

  /** The openmemory update merges: stored fields the body leaves out or sets to null
      stay, the body's non-null fields win, and nothing outside `openmemory` changes. */
  lemma UpdateOpenMemoryMerges(config: Object, body: Object)
    ensures UpdateOpenMemory(config, body).Ok? <==> OpenMemoryOf(config).JObj?
    ensures UpdateOpenMemory(config, body).Ok? ==>
      var r := UpdateOpenMemory(config, body).value;
      var current := OpenMemoryOf(config).fields;
      && r.Keys == config.Keys + {"openmemory"}
      && (forall k :: k in config && k != "openmemory" ==> r[k] == config[k])
      && r["openmemory"].JObj?
      && (forall k :: k in current && (k !in body || body[k] == JNull) ==> r["openmemory"].fields[k] == current[k])
      && (forall k :: k in body && body[k] != JNull ==> r["openmemory"].fields[k] == DropNone(body[k]))
      && (forall k :: k in r["openmemory"].fields ==> k in current || (k in body && body[k] != JNull))
  {
  }

  /** `update_configuration`: openmemory is merged when given, `mem0` is replaced by the
      body's. */
  function UpdateConfiguration(config: Object, openMemory: Option<Object>, mem0: Object): Result<Object, ConfigError> {
    var c :- if openMemory.Some? then UpdateOpenMemory(config, openMemory.value) else Ok(config);
    Ok(c["mem0" := DropNone(JObj(mem0))])
  }

  /** The whole update keeps no stored `mem0` entry the body does not repeat, while the
      stored openmemory is kept when the body has none. */
  lemma UpdateConfigurationReplaces(config: Object, openMemory: Option<Object>, mem0: Object)
    ensures UpdateConfiguration(config, openMemory, mem0).Ok? <==>
      openMemory.None? || OpenMemoryOf(config).JObj?
    ensures UpdateConfiguration(config, openMemory, mem0).Ok? ==>
      var r := UpdateConfiguration(config, openMemory, mem0).value;
      && r["mem0"] == DropNone(JObj(mem0))
      && (forall k :: k in r["mem0"].fields ==> k in mem0)
      && (openMemory.None? ==> r == config["mem0" := DropNone(JObj(mem0))])
      && (openMemory.Some? ==> r["openmemory"] == UpdateOpenMemory(config, openMemory.value).value["openmemory"])
  {
    if UpdateConfiguration(config, openMemory, mem0).Ok? {
      DropNoneSound(JObj(mem0));
    }
  }

  /** `delete_graph_store_configuration`: a missing `mem0` or graph store is a 404;
      otherwise only the graph store is removed. */
  function DeleteGraphStore(config: Object): Result<Object, ConfigError> {
    if "mem0" !in config then Err(GraphStoreNotFound)
    else match config["mem0"]
      case JObj(m) =>
        if "graph_store" in m then Ok(config["mem0" := JObj(m - {"graph_store"})]) else Err(GraphStoreNotFound)
      case _ => Err(Raised)
  }

  /** Deleting removes the graph store and nothing else; afterwards the getter reports it
      missing. */
  lemma DeleteGraphStoreOnly(config: Object)
    ensures "mem0" !in config ==> DeleteGraphStore(config) == Err(GraphStoreNotFound)
    ensures "mem0" in config && config["mem0"].JObj? ==>
      (DeleteGraphStore(config).Ok? <==> "graph_store" in config["mem0"].fields)
    ensures DeleteGraphStore(config).Ok? ==>
      var r := DeleteGraphStore(config).value;
      var m := config["mem0"].fields;
      && r.Keys == config.Keys
      && (forall k :: k in config && k != "mem0" ==> r[k] == config[k])
      && r["mem0"].JObj? && r["mem0"].fields.Keys == m.Keys - {"graph_store"}
      && (forall k :: k in m && k != "graph_store" ==> r["mem0"].fields[k] == m[k])
      && GraphStoreOf(r) == Err(GraphStoreNotFound)
  {
  }

  /** When the defaults hold a graph store a deleted graph store does not stay deleted:
      the next merge fills it in again from the defaults. */
  lemma DeletedGraphStoreReturns(stored: Object, defaults: Object)
    requires ConfigDefaults(defaults)
    requires "graph_store" in defaults["mem0"].fields && defaults["mem0"].fields["graph_store"] != JNull
    requires Merge(stored, defaults).Ok?
    requires DeleteGraphStore(Merge(stored, defaults).value).Ok?
    ensures Merge(DeleteGraphStore(Merge(stored, defaults).value).value, defaults).Ok?
    ensures GraphStoreOf(Merge(DeleteGraphStore(Merge(stored, defaults).value).value, defaults).value)
      == Ok(defaults["mem0"].fields["graph_store"])
  {
    var r := Merge(stored, defaults).value;
    MergeFills(stored, defaults);
    var d := DeleteGraphStore(r).value;
    var m := r["mem0"].fields - {"graph_store"};
    assert d == r["mem0" := JObj(m)];
    assert "openmemory" in d && d["mem0"] == JObj(m);
    FillMem0Fills(m, defaults["mem0"].fields);
    assert Merge(d, defaults) == Ok(d["mem0" := JObj(FillMem0(m, defaults["mem0"].fields))]);
  }

  /** With Neo4j configured in the environment, a graph store deleted from the row the
      router read comes back on the next read. */
  lemma DeletedGraphStoreReread(rows: map<string, Object>, key: string, env: Env)
    requires DefaultGraphStore(env).Some?
    requires Read(rows, key, env).Ok? && DeleteGraphStore(Read(rows, key, env).value).Ok?
    ensures var saved := rows[key := DeleteGraphStore(Read(rows, key, env).value).value];
      && Read(saved, key, env).Ok?
      && GraphStoreOf(Read(saved, key, env).value) == Ok(DefaultGraphStore(env).value)
  {
    var defaults := DefaultConfiguration(env);
    DefaultConfigurationShaped(env);
    DefaultMem0Entries(env);
    if key in rows {
      DeletedGraphStoreReturns(rows[key], defaults);
    } else {
      MergeDefaults(defaults);
      DeletedGraphStoreReturns(defaults, defaults);
    }
  }

  /** The entries of the default `mem0` section, one by one. */
  lemma DefaultMem0Entries(env: Env)
    ensures DefaultConfiguration(env)["mem0"] == JObj(DefaultMem0(env))
    ensures DefaultConfiguration(env)["openmemory"] == DefaultOpenMemory
    ensures DefaultMem0(env)["llm"] == DefaultLlm && DefaultMem0(env)["embedder"] == DefaultEmbedder
    ensures "graph_store" in DefaultMem0(env) <==> DefaultGraphStore(env).Some?
    ensures "graph_store" in DefaultMem0(env) ==> DefaultMem0(env)["graph_store"] == DefaultGraphStore(env).value
  {
  }

  /** The merge of `get_config_from_db` as its steps update the row's value. */
  method MergeInPlace(stored: Object, defaults: Object) returns (r: Result<Object, ConfigError>)
    requires ConfigDefaults(defaults)
    ensures r == Merge(stored, defaults)
  {
    var value := stored;
    if "openmemory" !in value {
      value := value["openmemory" := defaults["openmemory"]];
    }
    if "mem0" !in value {
      value := value["mem0" := defaults["mem0"]];
    } else {
      if !value["mem0"].JObj? {
        return Err(Raised);
      }
      var mem0 := FillInPlace(value["mem0"].fields, defaults["mem0"].fields);
      value := value["mem0" := JObj(mem0)];
    }
    r := Ok(value);
  }

  /** The llm, embedder and graph-store steps of the merge on a stored `mem0` dict. */
  method FillInPlace(stored: Object, defaultMem0: Object) returns (mem0: Object)
    requires Mem0Defaults(defaultMem0)
    ensures mem0 == FillMem0(stored, defaultMem0)
  {
    mem0 := stored;
    if "llm" !in mem0 || mem0["llm"] == JNull {
      mem0 := mem0["llm" := defaultMem0["llm"]];
    }
    if "embedder" !in mem0 || mem0["embedder"] == JNull {
      mem0 := mem0["embedder" := defaultMem0["embedder"]];
    }
    if "graph_store" in defaultMem0 && "graph_store" !in mem0 {
      mem0 := mem0["graph_store" := defaultMem0["graph_store"]];
    }
  }

  /* ---------------------------------------------------------------- the configuration table */

  /** The `configs` table, one JSON dict per key. */
  class ConfigDb {
    var rows: map<string, Object>

    constructor (rows0: map<string, Object>)
      ensures rows == rows0
    {
      rows := rows0;
    }

    /** `get_config_from_db`: a missing row is created with the defaults and returned; an
        existing one is merged with the defaults, and not written back, since the check for
        a change compares the row's value with itself. */
    method GetConfig(env: Env, key: string) returns (r: Result<Object, ConfigError>)
      modifies this
      ensures rows == Loaded(old(rows), key, env)
      ensures r == Read(old(rows), key, env)
    {
      var defaults := DefaultConfiguration(env);
      if key !in rows {
        rows := rows[key := defaults];
        return Ok(defaults);
      }
      DefaultConfigurationShaped(env);
      r := MergeInPlace(rows[key], defaults);
    }

    /** `save_config_to_db`: an upsert by key. An existing row's instance is loaded afresh
        by the query, so its value is a new copy of the stored one; assigning `config` is
        written at the commit when it differs from that copy. Either way the row ends up
        holding `config`, which the refresh returns. */
    method SaveConfig(key: string, config: Object) returns (r: Object)
      modifies this
      ensures rows == old(rows)[key := config]
      ensures r == config
    {
      if key in rows {
        var loaded := rows[key];
        if config != loaded {
          rows := rows[key := config];
        }
      } else {
        rows := rows[key := config];
      }
      r := rows[key];
    }

    /** `GET /`. */
    method GetConfiguration(env: Env) returns (r: Result<Object, ConfigError>)
      modifies this
      ensures rows == Loaded(old(rows), MainKey, env)
      ensures r == Read(old(rows), MainKey, env)
    {
      r := GetConfig(env, MainKey);
    }

    /** `PUT /`: the stored configuration updated with the body and saved; the cached
        client is dropped. */
    method UpdateConfigurationHandler(env: Env, cache: MemoryClient.ClientCache,
                                      openMemory: Option<Object>, mem0: Object)
      returns (r: Result<Object, ConfigError>)
      modifies this, cache
      ensures r == (var c :- Read(old(rows), MainKey, env); UpdateConfiguration(c, openMemory, mem0))
      ensures r.Ok? ==> rows == old(rows)[MainKey := r.value] && cache.client.None? && cache.hash.None?
      ensures r.Err? ==> (rows == Loaded(old(rows), MainKey, env)
                          && cache.client == old(cache.client) && cache.hash == old(cache.hash))
    {
      var current := GetConfig(env, MainKey);
      if current.Err? {
        return Err(current.error);
      }
      r := SaveConfiguration(cache, current.value, openMemory, mem0);
    }

    /** The rest of `PUT /` once the row is read: update, save, drop the client. */
    method SaveConfiguration(cache: MemoryClient.ClientCache, config: Object,
                             openMemory: Option<Object>, mem0: Object)
      returns (r: Result<Object, ConfigError>)
      modifies this, cache
      ensures r == UpdateConfiguration(config, openMemory, mem0)
      ensures r.Ok? ==> rows == old(rows)[MainKey := r.value] && cache.client.None? && cache.hash.None?
      ensures r.Err? ==> rows == old(rows) && cache.client == old(cache.client) && cache.hash == old(cache.hash)
    {
      var updated := config;
      if openMemory.Some? {
        var om := OpenMemoryOf(updated);
        if !om.JObj? {
          return Err(Raised);
        }
        updated := updated["openmemory" := JObj(om.fields + DropNoneObject(openMemory.value))];
      }
      updated := updated["mem0" := DropNone(JObj(mem0))];
      var _ := SaveConfig(MainKey, updated);
      cache.Reset();
      r := Ok(updated);
    }

    /** `POST /reset`: the defaults are saved and returned. */
    method ResetConfiguration(env: Env, cache: MemoryClient.ClientCache) returns (r: Object)
      modifies this, cache
      ensures rows == old(rows)[MainKey := DefaultConfiguration(env)]
      ensures r == DefaultConfiguration(env)
      ensures cache.client.None? && cache.hash.None?
    {
      var defaults := DefaultConfiguration(env);
      var _ := SaveConfig(MainKey, defaults);
      cache.Reset();
      r := defaults;
    }

    /** `GET /mem0/llm`, `GET /mem0/embedder`. */
    method GetSectionHandler(env: Env, key: string) returns (r: Result<Value, ConfigError>)
      modifies this
      ensures rows == Loaded(old(rows), MainKey, env)
      ensures r == (var c :- Read(old(rows), MainKey, env); GetSection(c, key))
    {
      var config := GetConfig(env, MainKey);
      if config.Err? {
        return Err(config.error);
      }
      r := GetSection(config.value, key);
    }

    /** `GET /openmemory`. */
    method GetOpenMemoryHandler(env: Env) returns (r: Result<Value, ConfigError>)
      modifies this
      ensures rows == Loaded(old(rows), MainKey, env)
      ensures r == (var c :- Read(old(rows), MainKey, env); Ok(OpenMemoryOf(c)))
    {
      var config := GetConfig(env, MainKey);
      if config.Err? {
        return Err(config.error);
      }
      r := Ok(OpenMemoryOf(config.value));
    }

    /** `GET /mem0/graph-store`. */
    method GetGraphStoreHandler(env: Env) returns (r: Result<Value, ConfigError>)
      modifies this
      ensures rows == Loaded(old(rows), MainKey, env)
      ensures r == (var c :- Read(old(rows), MainKey, env); GraphStoreOf(c))
    {
      var config := GetConfig(env, MainKey);
      if config.Err? {
        return Err(config.error);
      }
      r := GraphStoreOf(config.value);
    }

    /** `PUT /mem0/llm`, `PUT /mem0/embedder`, `PUT /mem0/graph-store`: the body becomes
        that section, which is returned. */
    method UpdateSectionHandler(env: Env, cache: MemoryClient.ClientCache, key: string, body: Object)
      returns (r: Result<Value, ConfigError>)
      modifies this, cache
      ensures var updated := (var c :- Read(old(rows), MainKey, env); SetSection(c, key, body));
        && (updated.Ok? ==> (rows == old(rows)[MainKey := updated.value] && r == Ok(DropNone(JObj(body)))
                             && cache.client.None? && cache.hash.None?))
        && (updated.Err? ==> (rows == Loaded(old(rows), MainKey, env) && r == Err(updated.error)
                              && cache.client == old(cache.client) && cache.hash == old(cache.hash)))
    {
      var current := GetConfig(env, MainKey);
      if current.Err? {
        return Err(current.error);
      }
      r := SaveSection(cache, current.value, key, body);
    }

    /** The rest of a section update once the row is read: set, save, drop the client. */
    method SaveSection(cache: MemoryClient.ClientCache, config: Object, key: string, body: Object)
      returns (r: Result<Value, ConfigError>)
      modifies this, cache
      ensures var updated := SetSection(config, key, body);
        && (updated.Ok? ==> (rows == old(rows)[MainKey := updated.value] && r == Ok(DropNone(JObj(body)))
                             && cache.client.None? && cache.hash.None?))
        && (updated.Err? ==> (rows == old(rows) && r == Err(updated.error)
                              && cache.client == old(cache.client) && cache.hash == old(cache.hash)))
    {
      var mem0 := if "mem0" in config then config["mem0"] else JObj(map[]);
      if !mem0.JObj? {
        return Err(Raised);
      }
      var section := DropNone(JObj(body));
      var updated := config["mem0" := JObj(mem0.fields[key := section])];
      var _ := SaveConfig(MainKey, updated);
      cache.Reset();
      r := Ok(section);
    }

    /** `PUT /openmemory`: the body's fields are merged in and the merged section returned. */
    method UpdateOpenMemoryHandler(env: Env, cache: MemoryClient.ClientCache, body: Object)
      returns (r: Result<Value, ConfigError>)
      modifies this, cache
      ensures var updated := (var c :- Read(old(rows), MainKey, env); UpdateOpenMemory(c, body));
        && (updated.Ok? ==> (rows == old(rows)[MainKey := updated.value] && r == Ok(updated.value["openmemory"])
                             && cache.client.None? && cache.hash.None?))
        && (updated.Err? ==> (rows == Loaded(old(rows), MainKey, env) && r == Err(updated.error)
                              && cache.client == old(cache.client) && cache.hash == old(cache.hash)))
    {
      var current := GetConfig(env, MainKey);
      if current.Err? {
        return Err(current.error);
      }
      r := SaveOpenMemory(cache, current.value, body);
    }

    /** The rest of `PUT /openmemory` once the row is read: merge, save, drop the client. */
    method SaveOpenMemory(cache: MemoryClient.ClientCache, config: Object, body: Object)
      returns (r: Result<Value, ConfigError>)
      modifies this, cache
      ensures var updated := UpdateOpenMemory(config, body);
        && (updated.Ok? ==> (rows == old(rows)[MainKey := updated.value] && r == Ok(updated.value["openmemory"])
                             && cache.client.None? && cache.hash.None?))
        && (updated.Err? ==> (rows == old(rows) && r == Err(updated.error)
                              && cache.client == old(cache.client) && cache.hash == old(cache.hash)))
    {
      var om := OpenMemoryOf(config);
      if !om.JObj? {
        return Err(Raised);
      }
      var merged := config["openmemory" := JObj(om.fields + DropNoneObject(body))];
      var _ := SaveConfig(MainKey, merged);
      cache.Reset();
      r := Ok(merged["openmemory"]);
    }

    /** `DELETE /mem0/graph-store`: the graph store is removed and the row saved, or 404. */
    method DeleteGraphStoreHandler(env: Env, cache: MemoryClient.ClientCache) returns (r: Result<string, ConfigError>)
      modifies this, cache
      ensures var updated := (var c :- Read(old(rows), MainKey, env); DeleteGraphStore(c));
        && (updated.Ok? ==> (rows == old(rows)[MainKey := updated.value] && r == Ok(GraphStoreDeleted)
                             && cache.client.None? && cache.hash.None?))
        && (updated.Err? ==> (rows == Loaded(old(rows), MainKey, env) && r == Err(updated.error)
                              && cache.client == old(cache.client) && cache.hash == old(cache.hash)))
    {
      var current := GetConfig(env, MainKey);
      if current.Err? {
        return Err(current.error);
      }
      r := SaveWithoutGraphStore(cache, current.value);
    }

    /** The rest of the graph-store deletion once the row is read: remove, save, drop the
        client. */
    method SaveWithoutGraphStore(cache: MemoryClient.ClientCache, config: Object) returns (r: Result<string, ConfigError>)
      modifies this, cache
      ensures var updated := DeleteGraphStore(config);
        && (updated.Ok? ==> (rows == old(rows)[MainKey := updated.value] && r == Ok(GraphStoreDeleted)
                             && cache.client.None? && cache.hash.None?))
        && (updated.Err? ==> (rows == old(rows) && r == Err(updated.error)
                              && cache.client == old(cache.client) && cache.hash == old(cache.hash)))
    {
      if "mem0" !in config {
        return Err(GraphStoreNotFound);
      }
      if !config["mem0"].JObj? {
        return Err(Raised);
      }
      var mem0 := config["mem0"].fields;
      if "graph_store" !in mem0 {
        return Err(GraphStoreNotFound);
      }
      var updated := config["mem0" := JObj(mem0 - {"graph_store"})];
      var _ := SaveConfig(MainKey, updated);
      cache.Reset();
      r := Ok(GraphStoreDeleted);
    }
  }
}
