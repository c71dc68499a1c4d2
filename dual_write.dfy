/**
 * The Neo4j query patch: every graph query is sent to the graph proxy over HTTP. A
 * classifier decides whether the query counts as a write, the proxy's reply is decoded into a
 * result or a failure, and a table of counters records every call and its outcome.
 */
module DualWrite {
  import opened Wrappers
  import opened Strings
  import opened Numerals
  import Environment
  import Json

  /** Settings read from the environment when the patch module is loaded. */
  datatype Settings = Settings(enabled: bool, proxyUrl: string, timeoutSeconds: int)

  const DefaultProxyUrl: string := "http://localhost:8090"

  /** The default of `NEO4J_DUAL_WRITE_TIMEOUT`, the text "60", read as a number. */
  const DefaultTimeoutSeconds: int := 60

  /** `None` stands for the ValueError that a non-numeric `NEO4J_DUAL_WRITE_TIMEOUT` raises
      while the module loads. */
  function LoadSettings(env: Environment.Env): (r: Option<Settings>)
    ensures r.Some? <==> "NEO4J_DUAL_WRITE_TIMEOUT" !in env || ParseInt(env["NEO4J_DUAL_WRITE_TIMEOUT"]).Some?
    ensures r.Some? ==> r.value.proxyUrl == Environment.GetOr(env, "NEO4J_PROXY_URL", DefaultProxyUrl)
    ensures r.Some? && "NEO4J_ENABLE_DUAL_WRITE" !in env ==> r.value.enabled
    ensures r.Some? && "NEO4J_ENABLE_DUAL_WRITE" in env ==>
      (r.value.enabled <==> Lower(env["NEO4J_ENABLE_DUAL_WRITE"]) == "true")
    ensures r.Some? && "NEO4J_DUAL_WRITE_TIMEOUT" in env ==>
      r.value.timeoutSeconds == ParseInt(env["NEO4J_DUAL_WRITE_TIMEOUT"]).value
    ensures r.Some? && "NEO4J_DUAL_WRITE_TIMEOUT" !in env ==> r.value.timeoutSeconds == DefaultTimeoutSeconds
  {
    var timeout :-
      if "NEO4J_DUAL_WRITE_TIMEOUT" in env then ParseInt(env["NEO4J_DUAL_WRITE_TIMEOUT"])
      else Some(DefaultTimeoutSeconds);
    Some(Settings(
      Lower(Environment.GetOr(env, "NEO4J_ENABLE_DUAL_WRITE", "true")) == "true",
      Environment.GetOr(env, "NEO4J_PROXY_URL", DefaultProxyUrl),
      timeout))
  }

  /** The default timeout is what `int("60")` gives. */
  lemma {:induction false} DefaultTimeoutParses()
    ensures ParseInt(IntToString(DefaultTimeoutSeconds)) == Some(DefaultTimeoutSeconds)
  {
    ParseIntToString(DefaultTimeoutSeconds);
  }

  /* ---------------------------------------------------------------- classifier */

  /** Clause keywords that mark a query as a write, in the order they are tried. */
  const WriteKeywords: seq<string> := ["CREATE", "MERGE", "SET", "DELETE", "DETACH DELETE", "REMOVE"]

  /** Surrounding whitespace removed and every whitespace run collapsed to one space. */
  function Normalize(query: string): string {
    Join(Split(Strip(query)), " ")
  }

  /** `text` begins with the keyword `k`, followed by the end of the text or by a space,
      newline, tab or carriage return. */
  predicate LeadsWith(text: string, k: string) {
    StartsWith(text, k) && (|text| == |k| || text[|k|] in {' ', '\n', '\t', '\r'})
  }

  /** Some write keyword leads `text`. */
  predicate IsWriteText(text: string) {
    exists i :: 0 <= i < |WriteKeywords| && LeadsWith(text, WriteKeywords[i])
  }

  /** The keyword search with early return, over a suffix of the keyword list. */
  function MatchesKeyword(text: string, keywords: seq<string>): (r: bool)
    ensures r <==> exists i :: 0 <= i < |keywords| && LeadsWith(text, keywords[i])
  {
    if keywords == [] then false
    else if LeadsWith(text, keywords[0]) then true
    else
      var rest := MatchesKeyword(text, keywords[1..]);
      assert forall i :: 1 <= i < |keywords| ==> keywords[i] == keywords[1..][i - 1];
      rest
  }

  /** No write keyword leads the empty text. */
  lemma {:induction false} EmptyIsNotWrite()
    ensures !IsWriteText([])
  {
    forall i | 0 <= i < |WriteKeywords|
      ensures !LeadsWith([], WriteKeywords[i])
    {
      assert WriteKeywords[i] != [];
    }
  }

  /** Whether a query is routed as a write. Only the leading clause is examined. */
  function ShouldDualWrite(enabled: bool, query: string): (r: bool)
    ensures r <==> enabled && IsWriteText(Upper(Normalize(query)))
    ensures !enabled ==> !r
    ensures AllSpace(query) ==> !r
  {
    StripEmptyIffAllSpace(query);
    if !enabled then false
    else
      var clean := Normalize(query);
      if clean == [] then
        EmptyIsNotWrite();
        assert Upper(clean) == [];
        false
      else MatchesKeyword(Upper(clean), WriteKeywords)
  }

  /** Text whose first clause is MATCH is not write text. */
  lemma {:induction false} MatchTextIsNotWrite(u: string)
    requires StartsWith(u, "MATCH")
    ensures !IsWriteText(u)
  {
    assert u[0] == 'M' && u[1] == 'A' by {
      assert u[..5] == "MATCH";
    }
    forall i | 0 <= i < |WriteKeywords|
      ensures !LeadsWith(u, WriteKeywords[i])
    {
      var k := WriteKeywords[i];
      assert k[0] != 'M' || k[1] != 'A';
    }
  }

  /** A query whose leading clause is MATCH is a read, whatever clauses follow it. */
  lemma {:induction false} MatchIsNeverWrite(enabled: bool, query: string)
    requires StartsWith(Upper(Normalize(query)), "MATCH")
    ensures !ShouldDualWrite(enabled, query)
  {
    MatchTextIsNotWrite(Upper(Normalize(query)));
  }

  /** SET must be followed by whitespace or the end, so "SETTINGS" is not write text. */
  lemma {:induction false} SettingsTextIsNotWrite(u: string)
    requires StartsWith(u, "SETTINGS")
    ensures !IsWriteText(u)
  {
    assert u[0] == 'S' && u[1] == 'E' && u[2] == 'T' && u[3] == 'T' by {
      assert u[..8] == "SETTINGS";
    }
    forall i | 0 <= i < |WriteKeywords|
      ensures !LeadsWith(u, WriteKeywords[i])
    {
      var k := WriteKeywords[i];
      if i == 2 {
        assert k == "SET";
      } else {
        assert k[0] != 'S';
      }
    }
  }

  /** A keyword that is only the head of a longer word does not count: "SETTINGS ..." is a read. */
  lemma {:induction false} SettingsIsNotWrite(enabled: bool, query: string)
    requires StartsWith(Upper(Normalize(query)), "SETTINGS")
    ensures !ShouldDualWrite(enabled, query)
  {
    SettingsTextIsNotWrite(Upper(Normalize(query)));
  }

  /** CREATE must be followed by whitespace or the end, so "CREATED" is not write text. */
  lemma {:induction false} CreatedTextIsNotWrite(u: string)
    requires StartsWith(u, "CREATED")
    ensures !IsWriteText(u)
  {
    assert u[0] == 'C' && u[6] == 'D' by {
      assert u[..7] == "CREATED";
    }
    forall i | 0 <= i < |WriteKeywords|
      ensures !LeadsWith(u, WriteKeywords[i])
    {
      var k := WriteKeywords[i];
      if i == 0 {
        assert k == "CREATE";
      } else {
        assert k[0] != 'C';
      }
    }
  }

  /** "CREATED ..." is a read. */
  lemma {:induction false} CreatedIsNotWrite(enabled: bool, query: string)
    requires StartsWith(Upper(Normalize(query)), "CREATED")
    ensures !ShouldDualWrite(enabled, query)
  {
    CreatedTextIsNotWrite(Upper(Normalize(query)));
  }

  /** The pieces that normalisation joins are non-empty and contain no whitespace. */
  lemma {:induction false} NormalizeWords(query: string)
    ensures Words(Split(Strip(query)))
  {
  }

  /** Normalising twice is normalising once, so the classifier is blind to whitespace layout. */
  lemma {:induction false} NormalizeIdempotent(query: string)
    ensures Normalize(Normalize(query)) == Normalize(query)
  {
    var words := Split(Strip(query));
    NormalizeWords(query);
    JoinedWordsStripped(words);
    SplitJoin(words);
  }

  lemma {:induction false} WhitespaceInsensitive(enabled: bool, query: string)
    ensures ShouldDualWrite(enabled, Normalize(query)) == ShouldDualWrite(enabled, query)
  {
    NormalizeIdempotent(query);
  }

  lemma {:induction false} NormalizeMap(f: char -> char, query: string)
    requires PreservesSpace(f) && f(' ') == ' '
    ensures Normalize(MapChars(f, query)) == MapChars(f, Normalize(query))
  {
    StripMap(f, query);
    SplitMap(f, Strip(query));
    SpaceFixed(f);
    JoinMap(f, Split(Strip(query)), " ");
  }

  /** Lower-casing or upper-casing a query does not change its classification. */
  lemma {:induction false} CaseInsensitive(enabled: bool, query: string)
    ensures ShouldDualWrite(enabled, Lower(query)) == ShouldDualWrite(enabled, query)
    ensures ShouldDualWrite(enabled, Upper(query)) == ShouldDualWrite(enabled, query)
  {
    CaseMapsPreserveSpace();
    NormalizeMap(LowerChar, query);
    NormalizeMap(UpperChar, query);
    UpperAbsorbsCase(Normalize(query));
  }

  /* ---------------------------------------------------------------- proxy replies */

  /** What the HTTP call produced: one of the exceptions the transport may raise, or a
      status with a body (`None` when the body is not valid JSON). */
  datatype Transport =
    | Timeout
    | ConnectionFailed
    | OtherFailure
    | Reply(status: int, body: Option<Json.Value>)

  /** The proxy accepted the query: a JSON object whose "success" member is truthy. */
  predicate Accepted(t: Transport) {
    t.Reply? && t.status == 200 && t.body.Some? && t.body.value.JObj?
    && "success" in t.body.value.fields && Json.Truthy(t.body.value.fields["success"])
  }

  /** The rows of a reply, or `None` for every kind of failure. A JSON null "result" is a
      failure too, because the caller tests the decoded value against `None`. */
  function DecodeResponse(t: Transport): (r: Option<Json.Value>)
    ensures r.Some? ==> Accepted(t)
    ensures Accepted(t) && "result" !in t.body.value.fields ==> r == Some(Json.JArr([]))
    ensures Accepted(t) && "result" in t.body.value.fields ==>
      r == (if t.body.value.fields["result"] == Json.JNull then None else Some(t.body.value.fields["result"]))
  {
    match t
    case Reply(status, body) =>
      if status != 200 then None
      else if body.None? || !body.value.JObj? then None
      else
        var fields := body.value.fields;
        if "success" in fields && Json.Truthy(fields["success"]) then
          var rows := if "result" in fields then fields["result"] else Json.JArr([]);
          if rows == Json.JNull then None else Some(rows)
        else None
    case _ => None
  }

  /* ---------------------------------------------------------------- counters */

  const CounterNames: set<string> :=
    {"read_total", "read_success", "read_errors", "write_total", "write_success", "write_errors"}

  /** A counter's value, 0 when the table has no entry for it. */
  function Count(counters: map<string, int>, key: string): int {
    if key in counters then counters[key] else 0
  }

  /** `Count` after adding `increment` to `key`. */
  function Bump(counters: map<string, int>, key: string, increment: int): (r: map<string, int>)
    ensures Count(r, key) == Count(counters, key) + increment
    ensures forall k :: k != key ==> Count(r, k) == Count(counters, k)
    ensures r.Keys == counters.Keys + {key}
  {
    counters[key := Count(counters, key) + increment]
  }

  /** Every finished call has been counted as exactly one success or one error. */
  predicate Balanced(counters: map<string, int>) {
    && Count(counters, "write_total") == Count(counters, "write_success") + Count(counters, "write_errors")
    && Count(counters, "read_total") == Count(counters, "read_success") + Count(counters, "read_errors")
  }

  function TotalKey(write: bool): string {
    if write then "write_total" else "read_total"
  }

  function OutcomeKey(write: bool, succeeded: bool): string {
    if write then (if succeeded then "write_success" else "write_errors")
    else (if succeeded then "read_success" else "read_errors")
  }

  /** The counters after one call: its kind's total, then its kind's success or error count. */
  function Tally(counters: map<string, int>, write: bool, succeeded: bool): map<string, int> {
    Bump(Bump(counters, TotalKey(write), 1), OutcomeKey(write, succeeded), 1)
  }

  /** A call raises exactly two counters by one, and each call keeps the table balanced. */
  lemma {:induction false} TallyPreservesBalance(counters: map<string, int>, write: bool, succeeded: bool)
    requires Balanced(counters)
    ensures Balanced(Tally(counters, write, succeeded))
    ensures Count(Tally(counters, write, succeeded), TotalKey(write)) == Count(counters, TotalKey(write)) + 1
    ensures Count(Tally(counters, write, succeeded), OutcomeKey(write, succeeded)) == Count(counters, OutcomeKey(write, succeeded)) + 1
    ensures forall k :: k != TotalKey(write) && k != OutcomeKey(write, succeeded) ==>
      Count(Tally(counters, write, succeeded), k) == Count(counters, k)
  {
  }

  /** The counters shared by every patched query. */
  class Stats {
    var counters: map<string, int>

    constructor()
      ensures counters == map k | k in CounterNames :: 0
      ensures Balanced(counters)
    {
      counters := map k | k in CounterNames :: 0;
    }

    /** Adds `increment` to one counter, creating it at 0 when missing. */
    method Update(key: string, increment: int)
      modifies this
      ensures counters == Bump(old(counters), key, increment)
    {
      counters := counters[key := (if key in counters then counters[key] else 0) + increment];
    }

    /** A copy of the counters. */
    method Snapshot() returns (copy: map<string, int>)
      ensures copy == counters
    {
      copy := counters;
    }
  }

  /** The failure a patched query raises when the proxy gives no rows. */
  datatype ProxyError = ProxyUnavailable(write: bool, proxyUrl: string)

  /** The patched `query`: classify, count, send to the proxy, count the outcome, and return the
      rows or raise. */
  method Query(stats: Stats, settings: Settings, query: string, transport: Transport)
    returns (r: Result<Json.Value, ProxyError>)
    modifies stats
    ensures stats.counters ==
      Tally(old(stats.counters), ShouldDualWrite(settings.enabled, query), DecodeResponse(transport).Some?)
    ensures DecodeResponse(transport).Some? ==> r == Ok(DecodeResponse(transport).value)
    ensures DecodeResponse(transport).None? ==>
      r == Err(ProxyUnavailable(ShouldDualWrite(settings.enabled, query), settings.proxyUrl))
    ensures Balanced(old(stats.counters)) ==> Balanced(stats.counters)
  {
    ghost var before := stats.counters;
    var isWrite := ShouldDualWrite(settings.enabled, query);
    if isWrite {
      stats.Update("write_total", 1);
    } else {
      stats.Update("read_total", 1);
    }
    assert stats.counters == Bump(before, TotalKey(isWrite), 1);
    var rows := DecodeResponse(transport);
    if rows.Some? {
      if isWrite {
        stats.Update("write_success", 1);
      } else {
        stats.Update("read_success", 1);
      }
      r := Ok(rows.value);
    } else {
      if isWrite {
        stats.Update("write_errors", 1);
      } else {
        stats.Update("read_errors", 1);
      }
      r := Err(ProxyUnavailable(isWrite, settings.proxyUrl));
    }
    assert stats.counters == Tally(before, isWrite, rows.Some?);
    if Balanced(before) {
      TallyPreservesBalance(before, isWrite, rows.Some?);
    }
  }

  /* ---------------------------------------------------------------- patch guard */

  /** The patched graph class: whether the original `query` has been saved, and how many
      layers of the wrapper its `query` carries. */
  class GraphClass {
    var hasOriginalQuery: bool
    var wrapperLayers: nat

    predicate Valid()
      reads this
    {
      wrapperLayers == (if hasOriginalQuery then 1 else 0)
    }

    constructor()
      ensures Valid() && !hasOriginalQuery
    {
      hasOriginalQuery := false;
      wrapperLayers := 0;
    }

    /** Saves the original `query` and wraps it, unless that was done before. */
    method Patch()
      requires Valid()
      modifies this
      ensures Valid() && hasOriginalQuery && wrapperLayers == 1
      ensures old(hasOriginalQuery) ==> unchanged(this)
    {
      if hasOriginalQuery {
        return;
      }
      hasOriginalQuery := true;
      wrapperLayers := wrapperLayers + 1;
    }
  }
}
