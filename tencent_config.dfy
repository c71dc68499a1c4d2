/** The configuration model of the Tencent Cloud VectorDB store: the fields it declares,
    their defaults, and the validator that refuses any other field. */
module TencentVectorDbConfig {
  import opened Wrappers
  import opened Json
  import MemoryClient
  import Environment

  /** The declared fields. */
  const AllowedFields: set<string> :=
    {"url", "username", "key", "database_name", "collection_name", "embedding_model_dims", "metric_type", "timeout"}

  const DefaultName := "mem0"
  const DefaultDims := 1536
  const DefaultMetric := "cosine"
  const DefaultTimeout := 30

  /** The validated configuration; the three credentials have no default. */
  datatype Config = Config(
    url: Option<string>,
    username: Option<string>,
    key: Option<string>,
    databaseName: string,
    collectionName: string,
    embeddingModelDims: int,
    metricType: string,
    timeout: int)

  /** `validate_extra_fields`: the input as it is, or an error naming the extra fields. */
  function ValidateExtraFields(values: Object): (r: Result<Object, set<string>>)
    ensures r.Ok? <==> values.Keys <= AllowedFields
    ensures r.Ok? ==> r.value == values
    ensures r.Err? ==> r.error == values.Keys - AllowedFields && r.error != {}
  {
    var extra := values.Keys - AllowedFields;
    if extra != {} then Err(extra) else Ok(values)
  }

  /** Why the input does not make a configuration: extra fields, or a field of the wrong
      type. */
  datatype Invalid = ExtraFields(names: set<string>) | WrongType(field: string)

  function TextField(values: Object, name: string, default: string): Result<string, Invalid> {
    if name !in values then Ok(default)
    else match values[name]
      case JStr(s) => Ok(s)
      case _ => Err(WrongType(name))
  }

  function CredentialField(values: Object, name: string): Result<Option<string>, Invalid> {
    if name !in values then Ok(None)
    else match values[name]
      case JStr(s) => Ok(Some(s))
      case _ => Err(WrongType(name))
  }

  function IntField(values: Object, name: string, default: int): Result<int, Invalid> {
    if name !in values then Ok(default)
    else match values[name]
      case JInt(i) => Ok(i)
      case _ => Err(WrongType(name))
  }

  /** The configuration built from the input: validated first, then each field taken from
      the input or defaulted. */
  function FromValues(values: Object): Result<Config, Invalid> {
    var checked :- match ValidateExtraFields(values)
      case Ok(v) => Result<Object, Invalid>.Ok(v)
      case Err(extra) => Err(ExtraFields(extra));
    var url :- CredentialField(checked, "url");
    var username :- CredentialField(checked, "username");
    var key :- CredentialField(checked, "key");
    var databaseName :- TextField(checked, "database_name", DefaultName);
    var collectionName :- TextField(checked, "collection_name", DefaultName);
    var dims :- IntField(checked, "embedding_model_dims", DefaultDims);
    var metric :- TextField(checked, "metric_type", DefaultMetric);
    var timeout :- IntField(checked, "timeout", DefaultTimeout);
    Ok(Config(url, username, key, databaseName, collectionName, dims, metric, timeout))
  }

  /** Every field missing from the input takes its default; an extra field is refused. */
  lemma FromValuesDefaults(values: Object)
    ensures values == map[] ==>
      FromValues(values) == Ok(Config(None, None, None, "mem0", "mem0", 1536, "cosine", 30))
    ensures !(values.Keys <= AllowedFields) ==> FromValues(values) == Err(ExtraFields(values.Keys - AllowedFields))
    ensures FromValues(values).Ok? ==>
      var c := FromValues(values).value;
      && ("url" !in values ==> c.url.None?)
      && ("database_name" !in values ==> c.databaseName == DefaultName)
      && ("collection_name" !in values ==> c.collectionName == DefaultName)
      && ("embedding_model_dims" !in values ==> c.embeddingModelDims == DefaultDims)
      && ("metric_type" !in values ==> c.metricType == DefaultMetric)
      && ("timeout" !in values ==> c.timeout == DefaultTimeout)
  {
  }

  /** A given field of the right type is taken as it is. */
  lemma FromValuesKeeps(values: Object)
    requires FromValues(values).Ok?
    ensures "url" in values ==> FromValues(values).value.url == Some(values["url"].s)
    ensures "key" in values ==> FromValues(values).value.key == Some(values["key"].s)
    ensures "collection_name" in values ==> FromValues(values).value.collectionName == values["collection_name"].s
    ensures "timeout" in values ==> FromValues(values).value.timeout == values["timeout"].i
  {
  }

  /** Every declared field that is given has the type the model declares. */
  predicate WellTyped(values: Object) {
    && (forall name :: name in {"url", "username", "key", "database_name", "collection_name", "metric_type"} && name in values ==>
          values[name].JStr?)
    && (forall name :: name in {"embedding_model_dims", "timeout"} && name in values ==> values[name].JInt?)
  }

  /** The input makes a configuration exactly when it has only declared fields, each of
      its declared type. */
  lemma FromValuesAccepts(values: Object)
    ensures FromValues(values).Ok? <==> values.Keys <= AllowedFields && WellTyped(values)
  {
    if FromValues(values).Ok? {
      assert values.Keys <= AllowedFields;
      forall name | name in {"url", "username", "key", "database_name", "collection_name", "metric_type"} && name in values
        ensures values[name].JStr?
      {
      }
      forall name | name in {"embedding_model_dims", "timeout"} && name in values
        ensures values[name].JInt?
      {
      }
    }
  }

  /** A `host` field, which the vector-store defaults add for every other provider, is
      refused. */
  lemma HostRefused(values: Object)
    requires "host" in values
    ensures ValidateExtraFields(values).Err? && "host" in ValidateExtraFields(values).error
  {
    assert forall f :: f in AllowedFields ==> |f| != 4;
  }

  /** The configuration that the memory client derives for Tencent passes the validator:
      it sets only declared fields, and the vector-store defaults add no `host` for this
      provider. */
  lemma ClientConfigAccepted(env: Environment.Env, collection: string, host: string)
    requires MemoryClient.TencentConfig(env, collection).Ok?
    ensures var c := MemoryClient.FillVectorStore("tencent_vectordb", MemoryClient.TencentConfig(env, collection).value, collection, host);
      ValidateExtraFields(c) == Ok(c) && FromValues(c).Ok?
  {
    ClientConfigShape(env, collection);
    ShapedAccepted(MemoryClient.TencentConfig(env, collection).value, collection, host);
  }

  /** A well-typed configuration of exactly the declared fields passes once the vector-store
      defaults are filled in, which add nothing to it. */
  lemma ShapedAccepted(t: Object, collection: string, host: string)
    requires t.Keys == AllowedFields && WellTyped(t)
    ensures var c := MemoryClient.FillVectorStore("tencent_vectordb", t, collection, host);
      ValidateExtraFields(c) == Ok(c) && FromValues(c).Ok?
  {
    var c := MemoryClient.FillVectorStore("tencent_vectordb", t, collection, host);
    assert c == t;
    FromValuesAccepts(t);
  }

  /** The fields and types of the memory client's Tencent configuration. */
  lemma ClientConfigShape(env: Environment.Env, collection: string)
    requires MemoryClient.TencentConfig(env, collection).Ok?
    ensures var t := MemoryClient.TencentConfig(env, collection).value;
      t.Keys == AllowedFields && WellTyped(t)
  {
  }
}
