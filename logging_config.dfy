/** `parse_size` of the logging configuration: a byte count with an optional binary unit. */
module LoggingConfig {
  import opened Wrappers
  import opened Strings
  import Numerals

  const KiB := 1024
  const MiB := 1024 * 1024
  const GiB := 1024 * 1024 * 1024

  /** The units in the order they are tried: the two-letter ones first. */
  const Units: seq<(string, nat)> := [("GB", GiB), ("MB", MiB), ("KB", KiB), ("G", GiB), ("M", MiB), ("K", KiB)]

  /** The position in `units` of the first unit that ends `s`, if any. */
  function FindUnit(s: string, units: seq<(string, nat)>): (r: Option<nat>)
    ensures r.Some? ==> r.value < |units| && EndsWith(s, units[r.value].0)
    ensures r.Some? ==> forall j :: 0 <= j < r.value ==> !EndsWith(s, units[j].0)
    ensures r.None? ==> forall j :: 0 <= j < |units| ==> !EndsWith(s, units[j].0)
    decreases |units|
  {
    if units == [] then None
    else if EndsWith(s, units[0].0) then Some(0)
    else match FindUnit(s, units[1..])
      case Some(i) => Some(i + 1)
      case None => None
  }

  /** The number before a unit that ends `s`, times the unit's multiplier. */
  function Scaled(s: string, unit: string, multiplier: nat): Option<int>
    requires EndsWith(s, unit)
  {
    match Numerals.ParseInt(s[..|s| - |unit|])
    case Some(n) => Some(n * multiplier)
    case None => None
  }

  /** `parse_size`: stripped and upper-cased; the first unit that ends it multiplies the
      number before it, and without one it is a plain number. `None` where `int()` raises. */
  function ParseSize(sizeText: string): Option<int> {
    SizeOf(Upper(Strip(sizeText)))
  }

  /** The size a stripped, upper-cased text stands for. */
  function SizeOf(s: string): Option<int> {
    match FindUnit(s, Units)
    case Some(i) => Scaled(s, Units[i].0, Units[i].1)
    case None => Numerals.ParseInt(s)
  }

  /** The default of `LOG_MAX_BYTES`. */
  const DefaultMaxBytes := "10M"

  /** A text of digits is ended by no unit. */
  lemma NoUnit(s: string)
    requires forall i :: 0 <= i < |s| ==> Numerals.IsDigit(s[i])
    ensures FindUnit(s, Units).None?
  {
    UnitsEndInLetters();
    forall j | 0 <= j < |Units|
      ensures !EndsWith(s, Units[j].0)
    {
      if s != [] {
        LastCharMisses(s, Units[j].0);
      }
    }
  }

  /** A text is not ended by a suffix whose last character differs from its own. */
  lemma LastCharMisses(s: string, suffix: string)
    requires s != [] && suffix != [] && s[|s| - 1] != suffix[|suffix| - 1]
    ensures !EndsWith(s, suffix)
  {
    if |suffix| <= |s| {
      assert s[|s| - |suffix|..][|suffix| - 1] == s[|s| - 1];
    }
  }

  /** Nor by one whose next-to-last character differs from its own. */
  lemma SecondLastMisses(s: string, suffix: string)
    requires |s| >= 2 && |suffix| >= 2 && s[|s| - 2] != suffix[|suffix| - 2]
    ensures !EndsWith(s, suffix)
  {
    if |suffix| <= |s| {
      assert s[|s| - |suffix|..][|suffix| - 2] == s[|s| - 2];
    }
  }

  /** Every unit ends in a capital letter. */
  lemma UnitsEndInLetters()
    ensures forall i :: 0 <= i < |Units| ==> Units[i].0 != [] && 'A' <= Units[i].0[|Units[i].0| - 1] <= 'Z'
  {
  }

  /** Digits keep their case and have no surrounding space. */
  lemma DigitsUnchanged(s: string)
    requires forall i :: 0 <= i < |s| ==> Numerals.IsDigit(s[i]) || 'A' <= s[i] <= 'Z'
    requires s != [] && !IsSpace(s[0]) && !IsSpace(s[|s| - 1])
    ensures Upper(Strip(s)) == s
  {
    assert LStrip(s) == s;
    assert RStrip(s) == s;
  }

  /** A plain decimal number is that many bytes. */
  lemma PlainNumber(n: nat)
    ensures ParseSize(Numerals.NatToString(n)) == Some(n)
  {
    var d := Numerals.NatToString(n);
    DigitsUnchanged(d);
    NoUnit(d);
    Numerals.ParseIntToString(n);
  }

  /** A decimal number followed by one of the units, in either case, is scaled by it: the
      two-letter units are tried first, so "MB" is not read as a number followed by "B". */
  lemma WithUnit(n: nat, i: nat)
    requires i < |Units|
    ensures ParseSize(Numerals.NatToString(n) + Units[i].0) == Some(n * Units[i].1)
  {
    var d := Numerals.NatToString(n);
    NumberThenUnitUnchanged(d, i);
    NumberThenUnitFound(d, i);
    SizeOfFound(d + Units[i].0, i);
    Numerals.ParseIntToString(n);
    ScaledNumber(d, Units[i].0, Units[i].1, n);
  }

  /** A number followed by a unit is scaled by the unit's multiplier. */
  lemma ScaledNumber(d: string, unit: string, multiplier: nat, n: int)
    requires Numerals.ParseInt(d) == Some(n)
    ensures EndsWith(d + unit, unit) && Scaled(d + unit, unit, multiplier) == Some(n * multiplier)
  {
    var s := d + unit;
    assert s[|s| - |unit|..] == unit && s[..|s| - |unit|] == d;
  }

  /** A number followed by a unit is unchanged by the strip and upper-casing. */
  lemma NumberThenUnitUnchanged(d: string, i: nat)
    requires i < |Units| && forall k :: 0 <= k < |d| ==> Numerals.IsDigit(d[k])
    ensures Upper(Strip(d + Units[i].0)) == d + Units[i].0
  {
    UnitsAreCapitals();
    DigitsUnchanged(d + Units[i].0);
  }

  /** The unit a number is followed by is the one found. */
  lemma NumberThenUnitFound(d: string, i: nat)
    requires i < |Units| && forall k :: 0 <= k < |d| ==> Numerals.IsDigit(d[k])
    ensures FindUnit(d + Units[i].0, Units) == Some(i)
  {
    var s := d + Units[i].0;
    assert s[|s| - |Units[i].0|..] == Units[i].0;
    EarlierUnitsMiss(d, i);
    FirstUnit(s, Units, i);
  }

  lemma UnitsAreCapitals()
    ensures forall i, k :: 0 <= i < |Units| && 0 <= k < |Units[i].0| ==> 'A' <= Units[i].0[k] <= 'Z'
  {
  }

  /** The units tried before the one that ends the text do not end it. */
  lemma EarlierUnitsMiss(d: string, i: nat)
    requires i < |Units|
    ensures forall j :: 0 <= j < i ==> !EndsWith(d + Units[i].0, Units[j].0)
  {
    var s := d + Units[i].0;
    var u := Units[i].0;
    assert s[|s| - 1] == u[|u| - 1];
    forall j | 0 <= j < i
      ensures !EndsWith(s, Units[j].0)
    {
      if i < 3 {
        assert s[|s| - 2] == u[0];
        SecondLastMisses(s, Units[j].0);
      } else {
        LastCharMisses(s, Units[j].0);
      }
    }
  }

  /** The unit found is the first that ends the text. */
  lemma {:induction false} FirstUnit(s: string, units: seq<(string, nat)>, i: nat)
    requires i < |units| && EndsWith(s, units[i].0)
    requires forall j :: 0 <= j < i ==> !EndsWith(s, units[j].0)
    ensures FindUnit(s, units) == Some(i)
    decreases i
  {
    if i > 0 {
      assert !EndsWith(s, units[0].0);
      forall j | 0 <= j < i - 1
        ensures !EndsWith(s, units[1..][j].0)
      {
        assert units[1..][j] == units[j + 1];
      }
      FirstUnit(s, units[1..], i - 1);
    }
  }

  /** The default "10M" is ten mebibytes. */
  lemma DefaultIsTenMebibytes()
    ensures ParseSize(DefaultMaxBytes) == Some(10485760)
  {
    assert Numerals.NatToString(10) == "10";
    assert Units[4].0 == "M";
    assert "10" + "M" == DefaultMaxBytes;
    WithUnit(10, 4);
  }

  /** Case and surrounding space do not matter. */
  lemma ParseSizeCaseInsensitive(sizeText: string)
    ensures ParseSize(Lower(sizeText)) == ParseSize(sizeText)
  {
    CaseMapsPreserveSpace();
    StripMap(LowerChar, sizeText);
    UpperAbsorbsCase(Strip(sizeText));
    assert Upper(Strip(Lower(sizeText))) == Upper(Strip(sizeText));
  }

  /** A unit without a number before it is an error. */
  lemma RejectsBareUnit(i: nat)
    requires i < |Units|
    ensures ParseSize(Units[i].0) == None
  {
    UnitUnchanged(i);
    UnitFound(i);
    SizeOfFound(Units[i].0, i);
    ScaledNothing(Units[i].0, Units[i].1);
  }

  /** A unit is unchanged by the strip and upper-casing. */
  lemma UnitUnchanged(i: nat)
    requires i < |Units|
    ensures Upper(Strip(Units[i].0)) == Units[i].0
  {
    UnitsAreCapitals();
    DigitsUnchanged(Units[i].0);
  }

  /** A unit alone is found as itself. */
  lemma UnitFound(i: nat)
    requires i < |Units|
    ensures FindUnit(Units[i].0, Units) == Some(i)
  {
    var none: string := [];
    assert none + Units[i].0 == Units[i].0;
    EarlierUnitsMiss(none, i);
    FirstUnit(Units[i].0, Units, i);
  }

  /** A normalised text that the `i`-th unit ends is scaled by that unit. */
  lemma SizeOfFound(t: string, i: nat)
    requires i < |Units| && Upper(Strip(t)) == t && FindUnit(t, Units) == Some(i)
    ensures ParseSize(t) == Scaled(t, Units[i].0, Units[i].1)
  {
  }

  /** A unit alone scales nothing. */
  lemma ScaledNothing(unit: string, multiplier: nat)
    ensures EndsWith(unit, unit) && Scaled(unit, unit, multiplier) == None
  {
    assert unit[..|unit| - |unit|] == [];
    assert Numerals.ParseInt([]) == None;
  }

  /** A suffix that is not a unit is an error: "B" alone is not one. */
  lemma RejectsUnknownSuffix(n: nat)
    ensures ParseSize(Numerals.NatToString(n) + "B") == None
  {
    var d := Numerals.NatToString(n);
    var s := d + "B";
    assert s[|s| - 1] == 'B' && s[|s| - 2] == d[|d| - 1] && s[0] == d[0];
    DigitsUnchanged(s);
    DigitThenBRejected(s);
  }

  /** A text ending in a digit and "B" ends in no unit and is not a number. */
  lemma DigitThenBRejected(s: string)
    requires |s| >= 2 && s[|s| - 1] == 'B' && Numerals.IsDigit(s[|s| - 2]) && Numerals.IsDigit(s[0])
    ensures SizeOf(s) == None
  {
    DigitThenBMissesUnits(s);
    Numerals.StripUnpadded(s);
    assert !Numerals.WellFormedDigits(s);
    assert Numerals.ParseStripped(s) == None;
  }

  /** A text ending in a digit and "B" ends in no unit. */
  lemma DigitThenBMissesUnits(s: string)
    requires |s| >= 2 && s[|s| - 1] == 'B' && Numerals.IsDigit(s[|s| - 2])
    ensures FindUnit(s, Units).None?
  {
    UnitsAreCapitals();
    forall j | 0 <= j < |Units|
      ensures !EndsWith(s, Units[j].0)
    {
      if j < 3 {
        SecondLastMisses(s, Units[j].0);
      } else {
        LastCharMisses(s, Units[j].0);
      }
    }
  }
}
