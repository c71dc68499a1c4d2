/** The Tencent Cloud VectorDB adapter: the filter expression it builds, the metric it
    selects, the documents it sends on insert and update, and the way it turns the stored
    documents it receives back into results. The SDK calls themselves are not modelled:
    what the adapter sends is returned, and what it receives is a parameter. */
module TencentVectorDb {
  import opened Wrappers
  import opened Json
  import Strings
  import Numerals

  /* ---------------------------------------------------------------- filters */

  /** Python `str(value)`; lists and dicts are rendered by `show`, a float by its literal. */
  function PyStr(value: Value, show: Value -> string): string {
    match value
    case JNull => "None"
    case JBool(b) => if b then "True" else "False"
    case JInt(i) => Numerals.IntToString(i)
    case JFloat(literal) => literal
    case JStr(s) => s
    case JArr(_) => show(value)
    case JObj(_) => show(value)
  }

  function Quoted(s: string): string {
    "\"" + s + "\""
  }

  /** The condition of one filter entry: a string is compared quoted, a number (a bool
      included, as Python counts it an int) unquoted, a dict gives its `gte`/`lte` bounds
      and nothing when it has neither; anything else is compared as a quoted string. */
  function Clause(key: string, value: Value, show: Value -> string): Option<string> {
    match value
    case JStr(s) => Some(key + " = " + Quoted(s))
    case JInt(_) => Some(key + " = " + PyStr(value, show))
    case JFloat(_) => Some(key + " = " + PyStr(value, show))
    case JBool(_) => Some(key + " = " + PyStr(value, show))
    case JObj(f) =>
      if "gte" in f && "lte" in f then
        Some(key + " >= " + PyStr(f["gte"], show) + " AND " + key + " <= " + PyStr(f["lte"], show))
      else if "gte" in f then Some(key + " >= " + PyStr(f["gte"], show))
      else if "lte" in f then Some(key + " <= " + PyStr(f["lte"], show))
      else None
    case _ => Some(key + " = " + Quoted(PyStr(value, show)))
  }

  /** A dict entry with neither bound contributes no condition. */
  predicate Boundless(value: Value) {
    value.JObj? && "gte" !in value.fields && "lte" !in value.fields
  }

  /** The conditions of the filter entries, in their iteration order. */
  function Clauses(filters: seq<(string, Value)>, show: Value -> string): seq<string>
    decreases |filters|
  {
    if filters == [] then []
    else
      var (key, value) := filters[|filters| - 1];
      Clauses(filters[..|filters| - 1], show)
        + match Clause(key, value, show) case Some(c) => [c] case None => []
  }

  /** The expression `_create_filter` hands to the SDK: none for empty filters, else the
      conditions joined by " AND " (an empty expression when no entry contributes one). */
  function FilterExpression(filters: seq<(string, Value)>, show: Value -> string): Option<string> {
    if filters == [] then None else Some(Strings.Join(Clauses(filters, show), " AND "))
  }

  /** Every condition is about its own key, and exactly the boundless dicts yield none. */
  lemma ClauseCases(key: string, value: Value, show: Value -> string)
    ensures Clause(key, value, show).None? <==> Boundless(value)
    ensures Clause(key, value, show).Some? ==> Strings.StartsWith(Clause(key, value, show).value, key)
    ensures value.JStr? ==> Clause(key, value, show) == Some(key + " = \"" + value.s + "\"")
    ensures value.JInt? ==> Clause(key, value, show) == Some(key + " = " + Numerals.IntToString(value.i))
    ensures value.JNull? ==> Clause(key, value, show) == Some(key + " = \"None\"")
    ensures value.JBool? ==> Clause(key, value, show) == Some(key + " = " + (if value.b then "True" else "False"))
    ensures value.JFloat? ==> Clause(key, value, show) == Some(key + " = " + value.literal)
    ensures value.JArr? ==> Clause(key, value, show) == Some(key + " = \"" + show(value) + "\"")
    ensures value.JObj? && "gte" in value.fields && "lte" in value.fields ==>
      Clause(key, value, show) == Some(key + " >= " + PyStr(value.fields["gte"], show) + " AND "
                                       + key + " <= " + PyStr(value.fields["lte"], show))
    ensures value.JObj? && "gte" in value.fields && "lte" !in value.fields ==>
      Clause(key, value, show) == Some(key + " >= " + PyStr(value.fields["gte"], show))
    ensures value.JObj? && "gte" !in value.fields && "lte" in value.fields ==>
      Clause(key, value, show) == Some(key + " <= " + PyStr(value.fields["lte"], show))
  {
    if Clause(key, value, show).Some? {
      var c := Clause(key, value, show).value;
      assert c[..|key|] == key;
    }
    if value.JStr? {
      assert key + " = " + Quoted(value.s) == key + " = \"" + value.s + "\"";
    }
    if value.JNull? {
      assert key + " = " + Quoted("None") == key + " = \"None\"";
    }
    if value.JArr? {
      assert key + " = " + Quoted(show(value)) == key + " = \"" + show(value) + "\"";
    }
  }

  /** Without boundless dicts there is one condition per entry, in order. */
  lemma {:induction false} ClausesInOrder(filters: seq<(string, Value)>, show: Value -> string)
    requires forall i :: 0 <= i < |filters| ==> !Boundless(filters[i].1)
    ensures |Clauses(filters, show)| == |filters|
    ensures forall i :: 0 <= i < |filters| ==>
      Clause(filters[i].0, filters[i].1, show) == Some(Clauses(filters, show)[i])
    decreases |filters|
  {
    if filters != [] {
      var init := filters[..|filters| - 1];
      var (key, value) := filters[|filters| - 1];
      ClausesInOrder(init, show);
      ClauseCases(key, value, show);
      var c := Clause(key, value, show).value;
      assert Clauses(filters, show) == Clauses(init, show) + [c];
      forall i | 0 <= i < |filters|
        ensures Clause(filters[i].0, filters[i].1, show) == Some(Clauses(filters, show)[i])
      {
        if i < |init| {
          assert filters[i] == init[i];
          assert Clauses(filters, show)[i] == Clauses(init, show)[i];
        } else {
          assert Clauses(filters, show)[i] == c;
        }
      }
    }
  }

  /** There are never more conditions than entries. */
  lemma {:induction false} ClausesAtMost(filters: seq<(string, Value)>, show: Value -> string)
    ensures |Clauses(filters, show)| <= |filters|
    decreases |filters|
  {
    if filters != [] {
      ClausesAtMost(filters[..|filters| - 1], show);
    }
  }

  /** `_create_filter`: the conditions collected entry by entry, then joined. */
  method CreateFilter(filters: seq<(string, Value)>, show: Value -> string) returns (r: Option<string>)
    ensures r == FilterExpression(filters, show)
    ensures r.None? <==> filters == []
  {
    if filters == [] {
      return None;
    }
    var conditions: seq<string> := [];
    for i := 0 to |filters|
      invariant conditions == Clauses(filters[..i], show)
    {
      assert filters[..i + 1][..i] == filters[..i];
      var (key, value) := filters[i];
      match Clause(key, value, show)
      case Some(c) => conditions := conditions + [c];
      case None =>
    }
    assert filters[..|filters|] == filters;
    r := Some(Strings.Join(conditions, " AND "));
  }

  /** A single contributing entry is the whole expression. */
  lemma SingleFilter(key: string, value: Value, show: Value -> string)
    requires !Boundless(value)
    ensures FilterExpression([(key, value)], show) == Clause(key, value, show)
  {
    ClauseCases(key, value, show);
    assert [(key, value)][..0] == [];
    assert Clauses([(key, value)], show) == [Clause(key, value, show).value];
  }

  /* ---------------------------------------------------------------- metrics */

  datatype Metric = Cosine | L2 | Ip {
    /** The SDK's name of the metric. */
    function Name(): string {
      match this
      case Cosine => "COSINE"
      case L2 => "L2"
      case Ip => "IP"
    }
  }

  /** The metric table, looked up by the lower-cased name. */
  function MetricOf(name: string): Option<Metric> {
    var l := Strings.Lower(name);
    if l == "cosine" then Some(Cosine)
    else if l == "l2" then Some(L2)
    else if l == "ip" then Some(Ip)
    else None
  }

  /** The metric of `__init__`, which raises on an unknown name. */
  function InitMetric(name: string): Result<Metric, string> {
    match MetricOf(name)
    case Some(m) => Ok(m)
    case None => Err("Unsupported metric_type: " + name + ". Supported: cosine, l2, ip")
  }

  /** The metric of `create_col`, which falls back to cosine on an unknown name. */
  function CollectionMetric(distance: string): Metric {
    MetricOf(distance).GetOr(Cosine)
  }

  /** Names are matched in any case; the two lookups agree on known names, and on an
      unknown one initialisation raises while collection creation uses cosine. */
  lemma MetricLookups(name: string)
    ensures MetricOf(Strings.Upper(name)) == MetricOf(name)
    ensures InitMetric(name).Ok? <==> Strings.Lower(name) in {"cosine", "l2", "ip"}
    ensures InitMetric(name).Ok? ==> CollectionMetric(name) == InitMetric(name).value
    ensures InitMetric(name).Err? ==> CollectionMetric(name) == Cosine
  {
    Strings.LowerAbsorbsCase(name);
  }

  /** `reset` re-creates the collection with the lower-cased name of its metric, which
      selects the same metric again. */
  lemma ResetKeepsMetric(m: Metric)
    ensures CollectionMetric(Strings.Lower(m.Name())) == m
  {
    var l := Strings.Lower(m.Name());
    Strings.LowerAbsorbsCase(m.Name());
    LowerNames();
    assert MetricOf(l) == Some(m);
  }

  /** The SDK's metric names, lower-cased. */
  lemma LowerNames()
    ensures Strings.Lower("COSINE") == "cosine" && Strings.Lower("L2") == "l2" && Strings.Lower("IP") == "ip"
  {
    var c, l, i := Strings.Lower("COSINE"), Strings.Lower("L2"), Strings.Lower("IP");
    assert c[0] == 'c' && c[1] == 'o' && c[2] == 's' && c[3] == 'i' && c[4] == 'n' && c[5] == 'e';
    assert l[0] == 'l' && l[1] == '2';
    assert i[0] == 'i' && i[1] == 'p';
  }

  /* ---------------------------------------------------------------- documents */

  /** An attribute of an SDK document: a text id, a vector (or none), or a metadata value. */
  datatype Attr<V> = Text(s: string) | Vec(v: Option<V>) | Meta(value: Value)

  datatype Document<V> = Document(attrs: map<string, Attr<V>>)

  /** Every metadata entry set as an attribute, over whatever attribute has its name. */
  function WithMetadata<V>(attrs: map<string, Attr<V>>, metadata: Object): (r: map<string, Attr<V>>)
    ensures r.Keys == attrs.Keys + metadata.Keys
  {
    map k | k in attrs.Keys + metadata.Keys :: if k in metadata then Meta(metadata[k]) else attrs[k]
  }

  /** The document `insert` builds for one vector. */
  function DocumentOf<V>(id: string, vector: V, metadata: Object): Document<V> {
    Document(WithMetadata(map["id" := Text(id), "vector" := Vec(Some(vector))], metadata))
  }

  /** The `setattr` loop over the metadata items. */
  method SetAttributes<V>(attrs: map<string, Attr<V>>, metadata: Object) returns (r: map<string, Attr<V>>)
    ensures r == WithMetadata(attrs, metadata)
  {
    r := attrs;
    var remaining := metadata.Keys;
    while remaining != {}
      invariant remaining <= metadata.Keys
      invariant r.Keys == attrs.Keys + (metadata.Keys - remaining)
      invariant forall k :: k in r ==> r[k] == if k in metadata && k !in remaining then Meta(metadata[k]) else attrs[k]
      decreases remaining
    {
      var key :| key in remaining;
      r := r[key := Meta(metadata[key])];
      remaining := remaining - {key};
    }
    assert r == WithMetadata(attrs, metadata);
  }

  function Min(a: nat, b: nat): nat {
    if a <= b then a else b
  }

  /** The documents of `zip(ids, vectors, payloads)`: as many as the shortest list. */
  function Documents<V>(ids: seq<string>, vectors: seq<V>, payloads: seq<Object>): (r: seq<Document<V>>)
    ensures |r| == Min(Min(|ids|, |vectors|), |payloads|)
  {
    seq(Min(Min(|ids|, |vectors|), |payloads|), i requires 0 <= i < Min(Min(|ids|, |vectors|), |payloads|) =>
      DocumentOf(ids[i], vectors[i], payloads[i]))
  }

  /** The default ids "0" to "n-1". */
  function DefaultIds(n: nat): (r: seq<string>)
    ensures |r| == n
  {
    seq(n, i => Numerals.IntToString(i))
  }

  function EmptyPayloads(n: nat): (r: seq<Object>)
    ensures |r| == n
  {
    seq(n, _ => map[])
  }

  /** One document of `insert`: its id and vector, then its payload's entries when there are any. */
  method BuildDocument<V>(id: string, vector: V, payload: Object) returns (document: Document<V>)
    ensures document == DocumentOf(id, vector, payload)
  {
    var attrs: map<string, Attr<V>> := map["id" := Text(id), "vector" := Vec(Some(vector))];
    if payload != map[] {
      attrs := SetAttributes(attrs, payload);
    } else {
      assert attrs == WithMetadata(attrs, payload);
    }
    document := Document(attrs);
  }

  /** `insert`: nothing is sent for no vectors; otherwise the documents built from the ids
      (by default their positions) and the payloads (by default empty) are upserted. */
  method Insert<V>(vectors: seq<V>, payloads: Option<seq<Object>>, ids: Option<seq<string>>)
    returns (upserted: Option<seq<Document<V>>>)
    ensures vectors == [] ==> upserted.None?
    ensures vectors != [] ==>
      upserted == Some(Documents(ids.GetOr(DefaultIds(|vectors|)), vectors, payloads.GetOr(EmptyPayloads(|vectors|))))
  {
    if vectors == [] {
      return None;
    }
    var allIds := if ids.None? then DefaultIds(|vectors|) else ids.value;
    var allPayloads := if payloads.None? then EmptyPayloads(|vectors|) else payloads.value;
    var n := Min(Min(|allIds|, |vectors|), |allPayloads|);
    var documents: seq<Document<V>> := [];
    for i := 0 to n
      invariant |documents| == i
      invariant forall j :: 0 <= j < i ==> documents[j] == DocumentOf(allIds[j], vectors[j], allPayloads[j])
    {
      var document := BuildDocument(allIds[i], vectors[i], allPayloads[i]);
      documents := documents + [document];
    }
    assert documents == Documents(allIds, vectors, allPayloads);
    upserted := Some(documents);
  }

  /** Each payload entry becomes an attribute of its own; the id and the vector stay unless
      the payload has entries of those names, which then win. */
  lemma DocumentFields<V>(id: string, vector: V, metadata: Object)
    ensures DocumentOf(id, vector, metadata).attrs.Keys == {"id", "vector"} + metadata.Keys
    ensures forall k :: k in metadata ==> DocumentOf(id, vector, metadata).attrs[k] == Meta(metadata[k])
    ensures "id" !in metadata ==> DocumentOf(id, vector, metadata).attrs["id"] == Text(id)
    ensures "vector" !in metadata ==> DocumentOf(id, vector, metadata).attrs["vector"] == Vec(Some(vector))
  {
  }

  /** Default ids are the positions, and no two documents get the same one. */
  lemma DefaultIdsDistinct(n: nat)
    ensures forall i :: 0 <= i < n ==> Numerals.ParseInt(DefaultIds(n)[i]) == Some(i)
    ensures forall i, j :: 0 <= i < j < n ==> DefaultIds(n)[i] != DefaultIds(n)[j]
  {
    forall i | 0 <= i < n
      ensures Numerals.ParseInt(DefaultIds(n)[i]) == Some(i)
    {
      Numerals.ParseIntToString(i);
    }
  }

  /** `update`: an id is required; the payload is sent whole as the single `metadata`
      attribute, so unlike on insert its entries do not become attributes of their own. */
  function UpdateDocument<V>(vectorId: Option<string>, vector: Option<V>, payload: Option<Object>): Result<Document<V>, string> {
    match vectorId
    case None => Err("vector_id is required for update")
    case Some(id) =>
      Ok(Document(map[
        "id" := Text(id),
        "vector" := Vec(vector),
        "metadata" := Meta(if payload.Some? then JObj(payload.value) else JNull)]))
  }

  /** Update fails exactly without an id; a payload entry that is an attribute after
      insert is not one after update. */
  lemma UpdateNestsPayload<V>(id: string, vector: V, payload: Object, k: string)
    requires k in payload && k !in {"id", "vector", "metadata"}
    ensures UpdateDocument<V>(None, Some(vector), Some(payload)).Err?
    ensures UpdateDocument(Some(id), Some(vector), Some(payload)).Ok?
    ensures k !in UpdateDocument(Some(id), Some(vector), Some(payload)).value.attrs
    ensures UpdateDocument(Some(id), Some(vector), Some(payload)).value.attrs["metadata"] == Meta(JObj(payload))
    ensures DocumentOf(id, vector, payload).attrs[k] == Meta(payload[k])
  {
  }

  /* ---------------------------------------------------------------- results */

  /** A result; the score is kept as the value the SDK returned. */
  datatype OutputData = OutputData(id: Option<Value>, score: Option<Value>, payload: Option<Object>)

  /** The fields of a returned document other than the excluded ones. */
  function Without(doc: Object, excluded: set<string>): (r: Object)
    ensures forall k :: k in r <==> k in doc && k !in excluded
    ensures forall k :: k in r ==> r[k] == doc[k]
  {
    map k | k in doc && k !in excluded :: doc[k]
  }

  const SearchExcluded := {"id", "vector", "score"}
  const StoredExcluded := {"id", "vector"}

  /** One search hit: its id, its score (0.0 when it has none) and the other fields. */
  function SearchHit(doc: Object): OutputData {
    OutputData(Json.Get(doc, "id"), Some(if "score" in doc then doc["score"] else JFloat("0.0")),
               Some(Without(doc, SearchExcluded)))
  }

  /** One listed document: its id, no score, and the fields other than id and vector. */
  function StoredHit(doc: Object): OutputData {
    OutputData(Json.Get(doc, "id"), None, Some(Without(doc, StoredExcluded)))
  }

  /** `search`: the filter sent when filters are given, and the hits of the first result
      list received, in order. */
  method Search(filters: seq<(string, Value)>, show: Value -> string, results: seq<seq<Object>>)
    returns (filter: Option<string>, output: seq<OutputData>)
    ensures filter == FilterExpression(filters, show)
    ensures results == [] ==> output == []
    ensures results != [] ==>
      |output| == |results[0]| && forall i :: 0 <= i < |output| ==> output[i] == SearchHit(results[0][i])
  {
    filter := None;
    if filters != [] {
      filter := CreateFilter(filters, show);
    }
    output := [];
    if results != [] {
      var hits := results[0];
      for i := 0 to |hits|
        invariant |output| == i
        invariant forall j :: 0 <= j < i ==> output[j] == SearchHit(hits[j])
      {
        output := output + [SearchHit(hits[i])];
      }
    }
  }

  /** `get`: the first hit of the first queried id, or an empty result. */
  function GetVector(results: seq<seq<Object>>): (r: OutputData)
    ensures (results == [] || results[0] == []) <==> r == OutputData(None, None, None)
    ensures results != [] && results[0] != [] ==>
      && r.id == Json.Get(results[0][0], "id") && r.score.None? && r.payload.Some?
      && (forall k :: k in r.payload.value <==> k in results[0][0] && k != "id" && k != "vector")
      && (forall k :: k in r.payload.value ==> r.payload.value[k] == results[0][0][k])
  {
    if |results| > 0 && |results[0]| > 0 then StoredHit(results[0][0]) else OutputData(None, None, None)
  }

  /** `list`: the filter sent when filters are given, and every document received, wrapped
      in one outer list. */
  method ListVectors(filters: seq<(string, Value)>, show: Value -> string, results: seq<Object>)
    returns (filter: Option<string>, output: seq<seq<OutputData>>)
    ensures filter == FilterExpression(filters, show)
    ensures |output| == 1 && |output[0]| == |results|
    ensures forall i :: 0 <= i < |results| ==> output[0][i] == StoredHit(results[i])
  {
    filter := None;
    if filters != [] {
      filter := CreateFilter(filters, show);
    }
    var memories: seq<OutputData> := [];
    for i := 0 to |results|
      invariant |memories| == i
      invariant forall j :: 0 <= j < i ==> memories[j] == StoredHit(results[j])
    {
      memories := memories + [StoredHit(results[i])];
    }
    output := [memories];
  }

  /** Payloads never carry the id or the vector, and search payloads not the score either;
      every other field of the document is kept as it is. */
  lemma PayloadsExclude(doc: Object)
    ensures var p := SearchHit(doc).payload.value;
      && "id" !in p && "vector" !in p && "score" !in p
      && forall k :: k in doc && k !in SearchExcluded ==> k in p && p[k] == doc[k]
    ensures var p := StoredHit(doc).payload.value;
      && "id" !in p && "vector" !in p
      && ("score" in doc ==> "score" in p)
      && forall k :: k in doc && k !in StoredExcluded ==> k in p && p[k] == doc[k]
    ensures SearchHit(doc).id == StoredHit(doc).id
  {
  }
}
