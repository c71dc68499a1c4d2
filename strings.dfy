/**
 * Python string operations on `seq<char>`, restricted to ASCII: whitespace is what
 * `str.isspace()` accepts among the ASCII characters, case mapping touches A-Z and a-z only.
 */
module Strings {

  /** Python `str.isspace()` on ASCII: tab, line feed, vertical tab, form feed, carriage
      return, the four information separators 0x1C-0x1F and the space. */
  predicate IsSpace(c: char) {
    (9 <= c as int <= 13) || (28 <= c as int <= 32)
  }

  predicate AllSpace(s: string) {
    forall i :: 0 <= i < |s| ==> IsSpace(s[i])
  }

  predicate NoSpace(s: string) {
    forall i :: 0 <= i < |s| ==> !IsSpace(s[i])
  }

  predicate StartsWith(s: string, prefix: string) {
    |prefix| <= |s| && s[..|prefix|] == prefix
  }

  predicate EndsWith(s: string, suffix: string) {
    |suffix| <= |s| && s[|s| - |suffix|..] == suffix
  }

  /** Python `sub in s`. */
  predicate Contains(s: string, sub: string)
    decreases |s|
  {
    StartsWith(s, sub) || (s != [] && Contains(s[1..], sub))
  }

  lemma {:induction false} ContainsAt(s: string, sub: string, i: nat)
    requires i + |sub| <= |s| && s[i..i + |sub|] == sub
    ensures Contains(s, sub)
    decreases i
  {
    if i > 0 {
      assert s[1..][i - 1..i - 1 + |sub|] == sub;
      ContainsAt(s[1..], sub, i - 1);
    } else {
      assert s[..|sub|] == sub;
    }
  }

  function UpperChar(c: char): char {
    if 'a' <= c <= 'z' then (c as int - 32) as char else c
  }

  function LowerChar(c: char): char {
    if 'A' <= c <= 'Z' then (c as int + 32) as char else c
  }

  /** `f` applied to every character. */
  function MapChars(f: char -> char, s: string): (r: string)
    ensures |r| == |s| && forall i :: 0 <= i < |s| ==> r[i] == f(s[i])
  {
    seq(|s|, i requires 0 <= i < |s| => f(s[i]))
  }

  /** Python `str.upper()` on ASCII letters. */
  function Upper(s: string): (r: string)
    ensures |r| == |s| && forall i :: 0 <= i < |s| ==> r[i] == UpperChar(s[i])
  {
    MapChars(UpperChar, s)
  }

  /** Python `str.lower()` on ASCII letters. */
  function Lower(s: string): (r: string)
    ensures |r| == |s| && forall i :: 0 <= i < |s| ==> r[i] == LowerChar(s[i])
  {
    MapChars(LowerChar, s)
  }

  /** Leading whitespace removed (Python `str.lstrip()`). */
  function LStrip(s: string): (r: string)
    ensures |r| <= |s| && r == s[|s| - |r|..]
    ensures r == [] || !IsSpace(r[0])
    ensures AllSpace(s[..|s| - |r|])
    decreases |s|
  {
    if s != [] && IsSpace(s[0]) then LStrip(s[1..]) else s
  }

  /** Trailing whitespace removed (Python `str.rstrip()`). */
  function RStrip(s: string): (r: string)
    ensures |r| <= |s| && r == s[..|r|]
    ensures r == [] || !IsSpace(r[|r| - 1])
    ensures AllSpace(s[|r|..])
    decreases |s|
  {
    if s != [] && IsSpace(s[|s| - 1]) then RStrip(s[..|s| - 1]) else s
  }

  /** Python `str.strip()`. */
  function Strip(s: string): (r: string)
    ensures |r| <= |s|
    ensures r == [] || (!IsSpace(r[0]) && !IsSpace(r[|r| - 1]))
  {
    RStrip(LStrip(s))
  }

  lemma {:induction false} StripEmptyIffAllSpace(s: string)
    ensures Strip(s) == [] <==> AllSpace(s)
  {
    var l := LStrip(s);
    if !AllSpace(s) {
      var i :| 0 <= i < |s| && !IsSpace(s[i]);
      assert i >= |s| - |l|;
      assert l[i - (|s| - |l|)] == s[i];
    }
  }

  /** Trailing occurrences of `c` removed (Python `str.rstrip(c)`). */
  function RStripChar(s: string, c: char): (r: string)
    ensures |r| <= |s| && r == s[..|r|]
    ensures r == [] || r[|r| - 1] != c
    ensures forall i :: |r| <= i < |s| ==> s[i] == c
    decreases |s|
  {
    if s != [] && s[|s| - 1] == c then RStripChar(s[..|s| - 1], c) else s
  }

  /** The longest prefix of `s` without whitespace. */
  function WordPrefix(s: string): (w: string)
    ensures |w| <= |s| && w == s[..|w|] && NoSpace(w)
    ensures |w| < |s| ==> IsSpace(s[|w|])
    decreases |s|
  {
    if s == [] || IsSpace(s[0]) then [] else [s[0]] + WordPrefix(s[1..])
  }

  /** Python `str.split()` with no separator: the maximal runs of non-whitespace, in order. */
  function Split(s: string): (words: seq<string>)
    ensures forall i :: 0 <= i < |words| ==> words[i] != [] && NoSpace(words[i])
    decreases |s|
  {
    var t := LStrip(s);
    if t == [] then [] else
      var w := WordPrefix(t);
      [w] + Split(t[|w|..])
  }

  /** Python `sep.join(parts)`. */
  function Join(parts: seq<string>, sep: string): string {
    if parts == [] then []
    else if |parts| == 1 then parts[0]
    else parts[0] + sep + Join(parts[1..], sep)
  }

  /** Python `s.replace(pattern, replacement)` for a non-empty `pattern`: left to right, without overlaps. */
  function Replace(s: string, pattern: string, replacement: string): string
    requires pattern != []
    decreases |s|
  {
    if |s| < |pattern| then s
    else if s[..|pattern|] == pattern then replacement + Replace(s[|pattern|..], pattern, replacement)
    else [s[0]] + Replace(s[1..], pattern, replacement)
  }

  lemma {:induction false} ReplaceAbsent(s: string, pattern: string, replacement: string)
    requires pattern != [] && !Contains(s, pattern)
    ensures Replace(s, pattern, replacement) == s
    decreases |s|
  {
    if |s| >= |pattern| {
      assert !StartsWith(s, pattern);
      ReplaceAbsent(s[1..], pattern, replacement);
      assert [s[0]] + s[1..] == s;
    }
  }

  /* Whitespace handling commutes with a character map that neither creates nor removes
     whitespace, such as the ASCII case mappings. */

  predicate PreservesSpace(f: char -> char) {
    forall c {:trigger f(c)} :: IsSpace(f(c)) <==> IsSpace(c)
  }

  /** `f` applied to every character of every word. */
  function MapWords(f: char -> char, words: seq<string>): (r: seq<string>)
    ensures |r| == |words| && forall i :: 0 <= i < |words| ==> r[i] == MapChars(f, words[i])
  {
    seq(|words|, i requires 0 <= i < |words| => MapChars(f, words[i]))
  }

  lemma SpaceFixed(f: char -> char)
    requires f(' ') == ' '
    ensures MapChars(f, " ") == " "
  {
  }

  /** The ASCII case mappings neither create nor remove whitespace. */
  lemma CaseMapsPreserveSpace()
    ensures PreservesSpace(LowerChar) && PreservesSpace(UpperChar)
  {
  }

  /** Upper-casing after a change of case is upper-casing. */
  lemma UpperAbsorbsCase(s: string)
    ensures Upper(Lower(s)) == Upper(s)
    ensures Upper(Upper(s)) == Upper(s)
  {
  }

  /** Lower-casing after a change of case is lower-casing. */
  lemma LowerAbsorbsCase(s: string)
    ensures Lower(Upper(s)) == Lower(s)
    ensures Lower(Lower(s)) == Lower(s)
  {
  }

  lemma MapCharsSlice(f: char -> char, s: string, i: nat, j: nat)
    requires i <= j <= |s|
    ensures MapChars(f, s)[i..j] == MapChars(f, s[i..j])
  {
  }

  lemma MapCharsConcat(f: char -> char, a: string, b: string)
    ensures MapChars(f, a + b) == MapChars(f, a) + MapChars(f, b)
  {
  }

  lemma {:induction false} LStripMap(f: char -> char, s: string)
    requires PreservesSpace(f)
    ensures LStrip(MapChars(f, s)) == MapChars(f, LStrip(s))
    decreases |s|
  {
    var m := MapChars(f, s);
    if s == [] {
      assert m == [];
    } else if IsSpace(s[0]) {
      assert IsSpace(m[0]);
      MapCharsSlice(f, s, 1, |s|);
      LStripMap(f, s[1..]);
      calc {
        LStrip(m);
        LStrip(m[1..]);
        { assert m[1..] == MapChars(f, s[1..]); }
        LStrip(MapChars(f, s[1..]));
        MapChars(f, LStrip(s[1..]));
      }
    } else {
      assert !IsSpace(m[0]);
    }
  }

  lemma {:induction false} RStripMap(f: char -> char, s: string)
    requires PreservesSpace(f)
    ensures RStrip(MapChars(f, s)) == MapChars(f, RStrip(s))
    decreases |s|
  {
    var m := MapChars(f, s);
    if s == [] {
      assert m == [];
    } else if IsSpace(s[|s| - 1]) {
      var n := |s| - 1;
      assert IsSpace(m[n]);
      MapCharsSlice(f, s, 0, n);
      RStripMap(f, s[..n]);
      calc {
        RStrip(m);
        RStrip(m[..n]);
        { assert m[..n] == MapChars(f, s[..n]); }
        RStrip(MapChars(f, s[..n]));
        MapChars(f, RStrip(s[..n]));
        { assert RStrip(s) == RStrip(s[..n]); }
        MapChars(f, RStrip(s));
      }
    } else {
      assert !IsSpace(m[|m| - 1]);
      assert RStrip(m) == m && RStrip(s) == s;
    }
  }

  lemma StripMap(f: char -> char, s: string)
    requires PreservesSpace(f)
    ensures Strip(MapChars(f, s)) == MapChars(f, Strip(s))
  {
    LStripMap(f, s);
    RStripMap(f, LStrip(s));
  }

  lemma {:induction false} WordPrefixMap(f: char -> char, s: string)
    requires PreservesSpace(f)
    ensures WordPrefix(MapChars(f, s)) == MapChars(f, WordPrefix(s))
    decreases |s|
  {
    if s != [] && !IsSpace(s[0]) {
      MapCharsSlice(f, s, 1, |s|);
      WordPrefixMap(f, s[1..]);
      MapCharsConcat(f, [s[0]], WordPrefix(s[1..]));
    }
  }

  lemma MapWordsCons(f: char -> char, w: string, words: seq<string>)
    ensures MapWords(f, [w] + words) == [MapChars(f, w)] + MapWords(f, words)
  {
    var l := MapWords(f, [w] + words);
    var r := [MapChars(f, w)] + MapWords(f, words);
    forall i | 0 <= i < |l|
      ensures l[i] == r[i]
    {
      if i > 0 {
        assert ([w] + words)[i] == words[i - 1];
      }
    }
  }

  lemma {:induction false} SplitMap(f: char -> char, s: string)
    requires PreservesSpace(f)
    ensures Split(MapChars(f, s)) == MapWords(f, Split(s))
    decreases |s|
  {
    var t := LStrip(s);
    var m := MapChars(f, t);
    LStripMap(f, s);
    if t == [] {
      assert m == [];
    } else {
      var w := WordPrefix(t);
      WordPrefixMap(f, t);
      MapCharsSlice(f, t, |w|, |t|);
      SplitMap(f, t[|w|..]);
      calc {
        Split(MapChars(f, s));
        [WordPrefix(m)] + Split(m[|WordPrefix(m)|..]);
        [MapChars(f, w)] + Split(m[|w|..]);
        { assert m[|w|..] == MapChars(f, t[|w|..]); }
        [MapChars(f, w)] + MapWords(f, Split(t[|w|..]));
        { MapWordsCons(f, w, Split(t[|w|..])); }
        MapWords(f, Split(s));
      }
    }
  }

  lemma {:induction false} JoinMap(f: char -> char, parts: seq<string>, sep: string)
    requires MapChars(f, sep) == sep
    ensures Join(MapWords(f, parts), sep) == MapChars(f, Join(parts, sep))
  {
    if |parts| > 1 {
      JoinMap(f, parts[1..], sep);
      assert MapWords(f, parts)[1..] == MapWords(f, parts[1..]);
      MapCharsConcat(f, parts[0] + sep, Join(parts[1..], sep));
      MapCharsConcat(f, parts[0], sep);
    }
  }

  /* Splitting undoes joining with a single space. */

  predicate Words(words: seq<string>) {
    forall i :: 0 <= i < |words| ==> words[i] != [] && NoSpace(words[i])
  }

  lemma {:induction false} WordPrefixOfWord(w: string, tail: string)
    requires NoSpace(w) && (tail == [] || IsSpace(tail[0]))
    ensures WordPrefix(w + tail) == w
    decreases |w|
  {
    if w != [] {
      assert (w + tail)[1..] == w[1..] + tail;
      WordPrefixOfWord(w[1..], tail);
    }
  }

  lemma {:induction false} JoinEnds(words: seq<string>, sep: string)
    requires words != [] && Words(words)
    ensures var j := Join(words, sep);
      j != [] && j[0] == words[0][0] && j[|j| - 1] == words[|words| - 1][|words[|words| - 1]| - 1]
  {
    if |words| > 1 {
      JoinEnds(words[1..], sep);
    }
  }

  lemma JoinedWordsStripped(words: seq<string>)
    requires Words(words)
    ensures Strip(Join(words, " ")) == Join(words, " ")
  {
    if words != [] {
      JoinEnds(words, " ");
    }
  }

  lemma SplitSpaceCons(rest: string)
    ensures Split(" " + rest) == Split(rest)
  {
    assert (" " + rest)[1..] == rest;
    assert LStrip(" " + rest) == LStrip(rest);
  }

  lemma SplitWordThen(w: string, tail: string)
    requires w != [] && NoSpace(w) && (tail == [] || IsSpace(tail[0]))
    ensures Split(w + tail) == [w] + Split(tail)
  {
    var j := w + tail;
    assert !IsSpace(j[0]);
    assert LStrip(j) == j;
    WordPrefixOfWord(w, tail);
    assert j[|w|..] == tail;
  }

  lemma JoinCons(parts: seq<string>, sep: string)
    requires |parts| > 1
    ensures Join(parts, sep) == parts[0] + (sep + Join(parts[1..], sep))
  {
  }

  lemma ConsSlice<T>(s: seq<T>)
    requires s != []
    ensures [s[0]] + s[1..] == s
  {
  }

  lemma SplitJoinStep(words: seq<string>)
    requires |words| > 1 && Words(words)
    requires Split(Join(words[1..], " ")) == words[1..]
    ensures Split(Join(words, " ")) == words
  {
    var rest := Join(words[1..], " ");
    JoinCons(words, " ");
    SplitWordThen(words[0], " " + rest);
    SplitSpaceCons(rest);
    ConsSlice(words);
  }

  lemma {:induction false} SplitJoin(words: seq<string>)
    requires Words(words)
    ensures Split(Join(words, " ")) == words
  {
    if |words| == 1 {
      SplitWordThen(words[0], []);
      assert words[0] + [] == words[0];
    } else if |words| > 1 {
      assert Words(words[1..]);
      SplitJoin(words[1..]);
      SplitJoinStep(words);
    }
  }
}
