/** Categorisation of a memory's text by an OpenAI-compatible chat model: the base URL the
    client is built with, and the decoding of the model's JSON reply into category names.
    The model call itself is a parameter: its reply is given to the functions here. */
module Categorization {
  import opened Wrappers
  import opened Strings
  import opened Json
  import Numerals

  const ChatCompletions := "/chat/completions"
  const ChatCompletionsSlash := "/chat/completions/"
  const VersionSuffix := "/v1"

  /** `s` without the suffix that ends it. */
  function DropSuffix(s: string, suffix: string): (r: string)
    requires EndsWith(s, suffix)
    ensures s == r + suffix
  {
    var r := s[..|s| - |suffix|];
    assert s == r + s[|s| - |suffix|..];
    r
  }

  /** The base URL without a trailing chat-completions path, which the SDK adds itself. */
  function WithoutCompletions(url: string): (r: string)
    ensures EndsWith(url, ChatCompletions) ==> url == r + ChatCompletions
    ensures !EndsWith(url, ChatCompletions) && EndsWith(url, ChatCompletionsSlash) ==> url == r + ChatCompletionsSlash
    ensures !EndsWith(url, ChatCompletions) && !EndsWith(url, ChatCompletionsSlash) ==> r == url
  {
    if EndsWith(url, ChatCompletions) then DropSuffix(url, ChatCompletions)
    else if EndsWith(url, ChatCompletionsSlash) then DropSuffix(url, ChatCompletionsSlash)
    else url
  }

  /** `_normalize_base_url`: no URL stays empty; any other loses a trailing chat-completions
      path and then ends in "/v1", joined with one slash. */
  function NormalizeBaseUrl(baseUrl: Option<string>): (r: string)
    ensures baseUrl.None? || baseUrl.value == [] ==> r == []
    ensures baseUrl.Some? && baseUrl.value != [] ==> EndsWith(r, VersionSuffix)
    ensures baseUrl.Some? && baseUrl.value != [] ==>
      var b := WithoutCompletions(baseUrl.value);
      StartsWith(r, b) && |r| <= |b| + |VersionSuffix|
  {
    match baseUrl
    case None => []
    case Some(url) =>
      if url == [] then []
      else
        var b := WithoutCompletions(url);
        if EndsWith(b, VersionSuffix) then b
        else if EndsWith(b, "/") then b + "v1"
        else b + VersionSuffix
  }

  /** A URL ending in "/v1" ends in neither chat-completions path. */
  lemma VersionedHasNoCompletions(url: string)
    requires EndsWith(url, VersionSuffix)
    ensures !EndsWith(url, ChatCompletions) && !EndsWith(url, ChatCompletionsSlash)
  {
    var n := |url|;
    assert url[n - 1] == '1' by {
      assert url[n - 3..][2] == url[n - 1];
    }
    if |ChatCompletions| <= n {
      assert url[n - |ChatCompletions|..][|ChatCompletions| - 1] == url[n - 1];
    }
    if |ChatCompletionsSlash| <= n {
      assert url[n - |ChatCompletionsSlash|..][|ChatCompletionsSlash| - 1] == url[n - 1];
    }
  }

  /** A URL already in normal form is kept as it is. */
  lemma NormalizeKeepsVersioned(url: string)
    requires EndsWith(url, VersionSuffix)
    ensures NormalizeBaseUrl(Some(url)) == url
  {
    VersionedHasNoCompletions(url);
  }

  /** Normalising twice is normalising once. */
  lemma NormalizeIdempotent(baseUrl: Option<string>)
    ensures NormalizeBaseUrl(Some(NormalizeBaseUrl(baseUrl))) == NormalizeBaseUrl(baseUrl)
  {
    var r := NormalizeBaseUrl(baseUrl);
    if r != [] {
      NormalizeKeepsVersioned(r);
    }
  }

  /** A trailing chat-completions path, with or without a slash, makes no difference. */
  lemma NormalizeDropsCompletions(prefix: string)
    requires prefix != [] && !EndsWith(prefix, ChatCompletions) && !EndsWith(prefix, ChatCompletionsSlash)
    ensures NormalizeBaseUrl(Some(prefix + ChatCompletions)) == NormalizeBaseUrl(Some(prefix))
    ensures NormalizeBaseUrl(Some(prefix + ChatCompletionsSlash)) == NormalizeBaseUrl(Some(prefix))
  {
    assert WithoutCompletions(prefix) == prefix;
    DropsSuffix(prefix, ChatCompletions);
    SameCore(prefix + ChatCompletions, prefix);
    SlashedCore(prefix);
    SameCore(prefix + ChatCompletionsSlash, prefix);
  }

  /** Two URLs with the same completions-free part normalise alike. */
  lemma SameCore(u: string, v: string)
    requires u != [] && v != [] && WithoutCompletions(u) == WithoutCompletions(v)
    ensures NormalizeBaseUrl(Some(u)) == NormalizeBaseUrl(Some(v))
  {
  }

  /** The slashed completions path is dropped whole. */
  lemma SlashedCore(prefix: string)
    ensures WithoutCompletions(prefix + ChatCompletionsSlash) == prefix
  {
    var b := prefix + ChatCompletionsSlash;
    assert !EndsWith(b, ChatCompletions) by {
      assert b[|b| - 1] == '/';
      assert b[|b| - |ChatCompletions|..][|ChatCompletions| - 1] == b[|b| - 1];
    }
    DropsSuffix(prefix, ChatCompletionsSlash);
  }

  lemma DropsSuffix(prefix: string, suffix: string)
    ensures EndsWith(prefix + suffix, suffix) && DropSuffix(prefix + suffix, suffix) == prefix
  {
    var s := prefix + suffix;
    assert s[|s| - |suffix|..] == suffix && s[..|s| - |suffix|] == prefix;
  }

  /** A URL ending in a slash gets "v1" without a second slash; any other unversioned URL gets
      "/v1". */
  lemma NormalizeJoinsWithOneSlash(url: string)
    requires url != [] && !EndsWith(url, ChatCompletions) && !EndsWith(url, ChatCompletionsSlash)
    requires !EndsWith(url, VersionSuffix)
    ensures EndsWith(url, "/") ==> NormalizeBaseUrl(Some(url)) == url + "v1"
    ensures !EndsWith(url, "/") ==> NormalizeBaseUrl(Some(url)) == url + VersionSuffix
  {
  }

  /** The providers with a known base URL. */
  const DefaultBaseUrls: map<string, string> := map[
    "openai" := "https://api.openai.com/v1",
    "deepseek" := "https://api.deepseek.com/v1",
    "ollama" := "http://localhost:11434/v1"]

  /** `_get_default_base_url`: the provider's known URL, or OpenAI's for any other. */
  function DefaultBaseUrl(provider: string): (r: string)
    ensures provider in DefaultBaseUrls ==> r == DefaultBaseUrls[provider]
    ensures provider !in DefaultBaseUrls ==> r == DefaultBaseUrls["openai"]
  {
    if provider in DefaultBaseUrls then DefaultBaseUrls[provider] else DefaultBaseUrls["openai"]
  }

  /** Every default is already in normal form. */
  lemma DefaultsAreNormal(provider: string)
    ensures EndsWith(DefaultBaseUrl(provider), VersionSuffix)
    ensures NormalizeBaseUrl(Some(DefaultBaseUrl(provider))) == DefaultBaseUrl(provider)
  {
    var u := DefaultBaseUrl(provider);
    assert EndsWith(u, VersionSuffix) by {
      if u == "https://api.openai.com/v1" {
        assert u[|u| - 3..] == VersionSuffix;
      } else if u == "https://api.deepseek.com/v1" {
        assert u[|u| - 3..] == VersionSuffix;
      } else {
        assert u == "http://localhost:11434/v1";
        assert u[|u| - 3..] == VersionSuffix;
      }
    }
    NormalizeKeepsVersioned(u);
  }

  /** Why categorisation fails: no API key, a reply that is not JSON, or a JSON reply of a
      shape that Python cannot index by "categories". */
  datatype Failure = MissingApiKey | InvalidJson | NotIndexable

  /** The client's settings in `get_llm_client`: the base URL (normalised when configured,
      else the provider's default) and the API key, which is a placeholder for Ollama. */
  function ClientSettings(provider: string, baseUrl: Option<string>, apiKey: Option<string>): (r: Result<(string, string), Failure>)
    ensures r.Err? <==> apiKey.None? || apiKey.value == []
    ensures r.Ok? ==> EndsWith(r.value.0, VersionSuffix)
    ensures r.Ok? && baseUrl.Some? && baseUrl.value != [] ==> r.value.0 == NormalizeBaseUrl(baseUrl)
    ensures r.Ok? && (baseUrl.None? || baseUrl.value == []) ==> r.value.0 == DefaultBaseUrl(provider)
    ensures r.Ok? ==> r.value.1 == if provider == "ollama" then "ollama" else apiKey.value
  {
    match apiKey
    case None => Err(MissingApiKey)
    case Some(key) =>
      if key == [] then Err(MissingApiKey)
      else
        var url := if baseUrl.Some? && baseUrl.value != [] then NormalizeBaseUrl(baseUrl)
          else (DefaultsAreNormal(provider); DefaultBaseUrl(provider));
        Ok((url, if provider == "ollama" then "ollama" else key))
  }

  /** One category name as the reply gives it: stripped and lower-cased. */
  function NormalizeCategory(name: string): string {
    Lower(Strip(name))
  }

  /** What each entry adds, one entry after another. */
  function FlatMap(keep: Value -> seq<string>, items: seq<Value>): seq<string>
    decreases |items|
  {
    if items == [] then [] else keep(items[0]) + FlatMap(keep, items[1..])
  }

  /** What one entry adds: its normalised name if it is a string that is not blank. */
  function Kept(v: Value): seq<string> {
    if v.JStr? && NormalizeCategory(v.s) != [] then [NormalizeCategory(v.s)] else []
  }

  /** The names kept from the reply's list, in order: strings only, normalised, empties
      dropped. */
  function Normalized(items: seq<Value>): seq<string> {
    FlatMap(Kept, items)
  }

  /** The normalising loop of `_parse_categories_response`. */
  method NormalizeCategories(items: seq<Value>) returns (names: seq<string>)
    ensures names == Normalized(items)
  {
    names := [];
    for i := 0 to |items|
      invariant names == Normalized(items[..i])
    {
      FlatMapSnoc(Kept, items[..i], items[i]);
      assert items[..i + 1] == items[..i] + [items[i]];
      match items[i]
      case JStr(s) =>
        var n := Lower(Strip(s));
        if n != [] {
          names := names + [n];
        }
      case _ =>
    }
    assert items[..|items|] == items;
  }

  /** `_parse_categories_response` on the reply's text and the value `json.loads` makes of it
      (`None` where it raises): no text gives no names; a reply without a "categories" list
      gives none either. Python's `in` also works on a JSON list or string, but indexing
      those by "categories" raises. */
  function CategoriesOf(content: Option<string>, parsed: Option<Value>): Result<seq<string>, Failure> {
    if content.None? || content.value == [] then Ok([])
    else match parsed
      case None => Err(InvalidJson)
      case Some(JObj(fields)) =>
        if "categories" !in fields then Ok([])
        else (match fields["categories"]
          case JArr(items) => Ok(Normalized(items))
          case _ => Ok([]))
      case Some(JArr(items)) => if JStr("categories") in items then Err(NotIndexable) else Ok([])
      case Some(JStr(s)) => if Contains(s, "categories") then Err(NotIndexable) else Ok([])
      case Some(_) => Err(NotIndexable)
  }

  method ParseCategoriesResponse(content: Option<string>, parsed: Option<Value>) returns (r: Result<seq<string>, Failure>)
    ensures r == CategoriesOf(content, parsed)
  {
    if content.None? || content.value == [] {
      return Ok([]);
    }
    if parsed.None? {
      return Err(InvalidJson);
    }
    match parsed.value {
      case JObj(fields) =>
        if "categories" !in fields {
          return Ok([]);
        }
        match fields["categories"] {
          case JArr(items) =>
            var names := NormalizeCategories(items);
            r := Ok(names);
          case _ =>
            r := Ok([]);
        }
      case JArr(items) =>
        r := if JStr("categories") in items then Err(NotIndexable) else Ok([]);
      case JStr(s) =>
        r := if Contains(s, "categories") then Err(NotIndexable) else Ok([]);
      case _ =>
        r := Err(NotIndexable);
    }
  }

  /** How the empty and malformed replies are read. */
  lemma CategoriesOfCases(content: Option<string>, parsed: Option<Value>)
    ensures content.None? || content.value == [] ==> CategoriesOf(content, parsed) == Ok([])
    ensures content.Some? && content.value != [] && parsed.None? ==> CategoriesOf(content, parsed) == Err(InvalidJson)
    ensures content.Some? && content.value != [] && parsed.Some? && parsed.value.JObj? ==>
      var fields := parsed.value.fields;
      && ("categories" !in fields ==> CategoriesOf(content, parsed) == Ok([]))
      && ("categories" in fields && !fields["categories"].JArr? ==> CategoriesOf(content, parsed) == Ok([]))
      && ("categories" in fields && fields["categories"].JArr? ==>
            CategoriesOf(content, parsed) == Ok(Normalized(fields["categories"].items)))
  {
  }

  /** Every name kept is non-empty, lower-case and stripped. */
  lemma NormalizedNamesAreClean(items: seq<Value>)
    ensures forall i :: 0 <= i < |Normalized(items)| ==>
      var n := Normalized(items)[i];
      n != [] && Lower(n) == n && Strip(n) == n
  {
    forall i | 0 <= i < |Normalized(items)|
      ensures var n := Normalized(items)[i]; n != [] && Lower(n) == n && Strip(n) == n
    {
      var names := Normalized(items);
      NormalizedMembers(items, names[i]);
      var k :| 0 <= k < |items| && Names(items[k], names[i]);
      NormalizeCategoryClean(items[k].s);
    }
  }

  lemma NormalizeCategoryClean(s: string)
    requires NormalizeCategory(s) != []
    ensures Lower(NormalizeCategory(s)) == NormalizeCategory(s)
    ensures Strip(NormalizeCategory(s)) == NormalizeCategory(s)
  {
    var n := NormalizeCategory(s);
    LowerAbsorbsCase(Strip(s));
    CaseMapsPreserveSpace();
    assert n == MapChars(LowerChar, Strip(s));
    StripMap(LowerChar, Strip(s));
    Numerals.StripUnpadded(Strip(s));
  }

  /** The entry is a string that normalises to `name`. */
  predicate Names(v: Value, name: string) {
    v.JStr? && NormalizeCategory(v.s) == name
  }

  /** Some entry of `items` names `name`. */
  predicate NamedIn(items: seq<Value>, name: string) {
    exists k :: 0 <= k < |items| && Names(items[k], name)
  }

  /** A name is kept exactly when some string entry normalises to it. */
  lemma NormalizedMembers(items: seq<Value>, name: string)
    ensures name in Normalized(items) <==> name != [] && NamedIn(items, name)
  {
    FlatMapMembers(Kept, items, name);
    if name in Normalized(items) {
      var k :| 0 <= k < |items| && name in Kept(items[k]);
      assert Names(items[k], name);
    }
    if name != [] && NamedIn(items, name) {
      var k :| 0 <= k < |items| && Names(items[k], name);
      assert name in Kept(items[k]);
    }
  }

  /** An element is in the result exactly when some entry adds it. */
  lemma {:induction false} FlatMapMembers(keep: Value -> seq<string>, items: seq<Value>, name: string)
    ensures name in FlatMap(keep, items) <==> exists k :: 0 <= k < |items| && name in keep(items[k])
    decreases |items|
  {
    if items != [] {
      var rest := items[1..];
      FlatMapMembers(keep, rest, name);
      if exists k :: 0 <= k < |items| && name in keep(items[k]) {
        var k :| 0 <= k < |items| && name in keep(items[k]);
        if k > 0 {
          assert rest[k - 1] == items[k];
        }
      }
      if exists k :: 0 <= k < |rest| && name in keep(rest[k]) {
        var k :| 0 <= k < |rest| && name in keep(rest[k]);
        assert items[k + 1] == rest[k];
      }
    }
  }

  /** Order is preserved: the names of two lists in a row are the names of each, in a row. */
  lemma {:induction false} FlatMapConcat(keep: Value -> seq<string>, a: seq<Value>, b: seq<Value>)
    ensures FlatMap(keep, a + b) == FlatMap(keep, a) + FlatMap(keep, b)
    decreases |a|
  {
    if a == [] {
      assert a + b == b;
    } else {
      FlatMapConcat(keep, a[1..], b);
      assert (a + b)[0] == a[0] && (a + b)[1..] == a[1..] + b;
    }
  }

  /** One more entry adds what it keeps at the end. */
  lemma FlatMapSnoc(keep: Value -> seq<string>, items: seq<Value>, v: Value)
    ensures FlatMap(keep, items + [v]) == FlatMap(keep, items) + keep(v)
  {
    FlatMapConcat(keep, items, [v]);
    assert [v][1..] == [];
  }

  /** The names of the reply's list, split anywhere, are the names of the two parts in order. */
  lemma NormalizedConcat(a: seq<Value>, b: seq<Value>)
    ensures Normalized(a + b) == Normalized(a) + Normalized(b)
  {
    FlatMapConcat(Kept, a, b);
  }

  /** What the model replied: no choices, a choice without a message, or a message's text with
      the value `json.loads` makes of it. */
  datatype Reply = NoChoices | NoMessage | Message(content: Option<string>, parsed: Option<Value>)

  /** `get_categories_for_memory` after one answered call: a blank memory has no categories
      and the reply is not consulted; otherwise the client needs an API key and the reply is
      decoded. */
  function CategoriesForMemory(memory: string, apiKey: Option<string>, reply: Reply): Result<seq<string>, Failure> {
    if memory == [] || AllSpace(memory) then Ok([])
    else if apiKey.None? || apiKey.value == [] then Err(MissingApiKey)
    else match reply
      case NoChoices => Ok([])
      case NoMessage => Ok([])
      case Message(content, parsed) => CategoriesOf(content, parsed)
  }

  /** A blank memory gives no categories whatever the key and the reply: the model is not
      called. */
  lemma BlankMemoryNeedsNoCall(memory: string, apiKey: Option<string>, reply: Reply, apiKey': Option<string>, reply': Reply)
    requires AllSpace(memory)
    ensures CategoriesForMemory(memory, apiKey, reply) == Ok([])
    ensures CategoriesForMemory(memory, apiKey, reply) == CategoriesForMemory(memory, apiKey', reply')
  {
  }

  /** Text that is not blank is sent, and the reply decides the answer. */
  lemma MemoryUsesReply(memory: string, key: string, content: string, parsed: Option<Value>)
    requires !AllSpace(memory) && key != []
    ensures CategoriesForMemory(memory, Some(key), Message(Some(content), parsed)) == CategoriesOf(Some(content), parsed)
  {
  }
}
