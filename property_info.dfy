/**
 * How the production sheet reads a line item's description
 * (`parsePropertyInfoWithTrainingData` in project/src/utils/excelGenerator.ts):
 * the well name, the property number (with its hash-based fallback), the
 * product profile found by a keyword scan, the jittered owner interest and
 * the cleaned property name.
 *
 * The two lists of regular expressions are abstract matchers, tried in list
 * order; each yields its first capture group when it matches. The random
 * draw of `Math.random()` is a parameter.
 */
module PropertyInfo {
  import opened Options
  import opened Text
  import opened Records

  /** One pattern of a list, applied with `String.prototype.match`: its first capture group, if it matches. */
  type Matcher = string -> Option<string>

  // ---------------------------------------------------------------------
  // First match in list order
  // ---------------------------------------------------------------------

  /** Where the first matcher that matches `s` sits in the list, if any does. */
  function FirstMatchIndex(patterns: seq<Matcher>, s: string): (r: Option<nat>)
    ensures r.Some? ==> r.value < |patterns| && patterns[r.value](s).Some?
    ensures r.Some? ==> forall j :: 0 <= j < r.value ==> patterns[j](s).None?
    ensures r.None? <==> forall j :: 0 <= j < |patterns| ==> patterns[j](s).None?
    decreases |patterns|
  {
    if patterns == [] then None
    else if patterns[0](s).Some? then Some(0)
    else
      match FirstMatchIndex(patterns[1..], s)
      case Some(k) => Some(k + 1)
      case None => None
  }

  /** The capture of the first matcher that matches, as the `for … break` loops keep it. */
  function FirstMatch(patterns: seq<Matcher>, s: string): Option<string> {
    match FirstMatchIndex(patterns, s)
    case Some(k) => patterns[k](s)
    case None => None
  }

  /** A later matcher is consulted only when every earlier one fails. */
  lemma FirstMatchPriority(patterns: seq<Matcher>, s: string, i: nat)
    requires i < |patterns| && patterns[i](s).Some?
    requires forall j :: 0 <= j < i ==> patterns[j](s).None?
    ensures FirstMatch(patterns, s) == patterns[i](s)
  {
    var r := FirstMatchIndex(patterns, s);
    assert r.Some?;
    assert r.value == i;
  }

  // ---------------------------------------------------------------------
  // Well name
  // ---------------------------------------------------------------------

  /** The separators tried, in order, when no well-name pattern matched. */
  const Separators: seq<string> := [" - ", " – ", " | ", ": ", " / ", " for ", " FOR "]

  /** `s.split(sep)[0]`: the text before the first occurrence of `sep`. */
  function BeforeFirst(s: string, sep: string): (r: string)
    requires Contains(s, sep)
    ensures Contains(s, r + sep)
    ensures sep != [] ==> !Contains(r, sep)
  {
    var i := IndexOf(s, sep).value;
    var r := s[..i];
    assert s[..i + |sep|] == r + sep;
    ContainsAt(s, r + sep, 0);
    assert sep != [] ==> !Contains(r, sep) by {
      if sep != [] {
        forall j | 0 <= j ensures !OccursAt(r, sep, j) {
          if j + |sep| <= |r| {
            assert r[j..j + |sep|] == s[j..j + |sep|];
            assert !OccursAt(s, sep, j);
          }
        }
        ContainsIff(r, sep);
      }
    }
    r
  }

  /** The first separator of `seps`, in list order, that occurs in `s`, and the trimmed text before it. */
  function SeparatorCut(s: string, seps: seq<string>): (r: Option<string>)
    ensures r.None? <==> forall k :: 0 <= k < |seps| ==> !Contains(s, seps[k])
    decreases |seps|
  {
    if seps == [] then None
    else if Contains(s, seps[0]) then Some(Trim(BeforeFirst(s, seps[0])))
    else
      var r := SeparatorCut(s, seps[1..]);
      assert forall k :: 1 <= k < |seps| ==> seps[k] == seps[1..][k - 1];
      r
  }

  /** The separator cut uses the first separator of the list that occurs, whatever later ones do. */
  lemma {:induction false} SeparatorCutFirst(s: string, seps: seq<string>, i: nat)
    requires i < |seps| && Contains(s, seps[i])
    requires forall k :: 0 <= k < i ==> !Contains(s, seps[k])
    ensures SeparatorCut(s, seps) == Some(Trim(BeforeFirst(s, seps[i])))
    decreases i
  {
    if i > 0 {
      assert forall k :: 0 <= k < i - 1 ==> seps[1..][k] == seps[k + 1];
      SeparatorCutFirst(s, seps[1..], i - 1);
    }
  }

  /** Where the first whitespace character of `s` is, or `|s|`. */
  function WordEnd(s: string): (i: nat)
    ensures i <= |s| && (i < |s| ==> IsWhitespace(s[i]))
    ensures forall k :: 0 <= k < i ==> !IsWhitespace(s[k])
  {
    if s == [] || IsWhitespace(s[0]) then 0
    else
      var i := WordEnd(s[1..]);
      assert forall k :: 1 <= k < i + 1 ==> s[k] == s[1..][k - 1];
      i + 1
  }

  /** `s.split(/\s+/)`: the pieces between maximal runs of whitespace. */
  function SplitWhitespace(s: string): (ws: seq<string>)
    ensures |ws| >= 1
    ensures ws[0] == s[..WordEnd(s)]
    decreases |s|
  {
    var i := WordEnd(s);
    if i == |s| then [s]
    else
      var rest := s[i..];
      var j := i + LeadingWhitespace(rest);
      [s[..i]] + SplitWhitespace(s[j..])
  }

  /**
   * The last resort for a well name: the first two words joined by a space,
   * else the only word, else "Unknown Property".
   */
  function FallbackName(cleanDesc: string): string {
    var words := SplitWhitespace(cleanDesc);
    if |words| >= 2 then words[0] + " " + words[1]
    else if words[0] != "" then words[0]
    else "Unknown Property"
  }

  lemma FallbackNameNonEmpty(cleanDesc: string)
    ensures FallbackName(cleanDesc) != ""
  {
    var words := SplitWhitespace(cleanDesc);
    if |words| >= 2 {
      assert |words[0] + " " + words[1]| >= 1;
    }
  }

  /**
   * The well name the description yields: the trimmed capture of the first
   * well-name pattern that matches; when that is empty, the trimmed text
   * before the first separator that occurs; when that is empty too, the
   * first two words.
   */
  function WellName(cleanDesc: string, wellNamePatterns: seq<Matcher>): string {
    var fromPattern := match FirstMatch(wellNamePatterns, cleanDesc) case Some(m) => Trim(m) case None => "";
    if fromPattern != "" then fromPattern
    else
      var fromSeparator := match SeparatorCut(cleanDesc, Separators) case Some(p) => p case None => "";
      if fromSeparator != "" then fromSeparator
      else FallbackName(cleanDesc)
  }

  /** Some well name is always found. */
  lemma WellNameNonEmpty(cleanDesc: string, wellNamePatterns: seq<Matcher>)
    ensures WellName(cleanDesc, wellNamePatterns) != ""
  {
    FallbackNameNonEmpty(cleanDesc);
  }

  /** The three `for … break` searches of the well name, in order. */
  method ExtractWellName(cleanDesc: string, wellNamePatterns: seq<Matcher>) returns (extractedWellName: string)
    ensures extractedWellName == WellName(cleanDesc, wellNamePatterns)
    ensures extractedWellName != ""
  {
    extractedWellName := "";
    var k := 0;
    while k < |wellNamePatterns|
      invariant 0 <= k <= |wellNamePatterns|
      invariant forall j :: 0 <= j < k ==> wellNamePatterns[j](cleanDesc).None?
    {
      var m := wellNamePatterns[k](cleanDesc);
      if m.Some? {
        FirstMatchPriority(wellNamePatterns, cleanDesc, k);
        extractedWellName := Trim(m.value);
        break;
      }
      k := k + 1;
    }
    if extractedWellName == "" {
      extractedWellName := CutAtSeparator(cleanDesc, Separators);
    }
    if extractedWellName == "" {
      var words := SplitWhitespace(cleanDesc);
      if |words| >= 2 {
        extractedWellName := words[0] + " " + words[1];
      } else {
        extractedWellName := if words[0] != "" then words[0] else "Unknown Property";
      }
    }
    WellNameNonEmpty(cleanDesc, wellNamePatterns);
  }

  /** The separator loop: the trimmed text before the first separator of the list that occurs, else "". */
  method CutAtSeparator(cleanDesc: string, separators: seq<string>) returns (extracted: string)
    ensures extracted == match SeparatorCut(cleanDesc, separators) case Some(p) => p case None => ""
  {
    extracted := "";
    var s := 0;
    while s < |separators|
      invariant 0 <= s <= |separators|
      invariant forall j :: 0 <= j < s ==> !Contains(cleanDesc, separators[j])
    {
      var sep := separators[s];
      if Contains(cleanDesc, sep) {
        SeparatorCutFirst(cleanDesc, separators, s);
        extracted := Trim(BeforeFirst(cleanDesc, sep));
        break;
      }
      s := s + 1;
    }
  }

  // ---------------------------------------------------------------------
  // Property number and its hash-based fallback
  // ---------------------------------------------------------------------

  const TwoTo31: int := 0x8000_0000
  const TwoTo32: int := 0x1_0000_0000

  /** ToInt32: the integer congruent to `x` modulo 2^32 in [-2^31, 2^31). */
  function Wrap32(x: int): (r: int)
    ensures -TwoTo31 <= r < TwoTo31
  {
    (x + TwoTo31) % TwoTo32 - TwoTo31
  }

  /** Wrapping changes a number by a multiple of 2^32. */
  lemma Wrap32Offset(x: int)
    ensures (x - Wrap32(x)) % TwoTo32 == 0
  {
    var q := (x + TwoTo31) / TwoTo32;
    assert x - Wrap32(x) == q * TwoTo32;
  }

  /** Two integers congruent modulo 2^32 wrap to the same int32. */
  lemma Wrap32Congruent(x: int, y: int)
    requires (x - y) % TwoTo32 == 0
    ensures Wrap32(x) == Wrap32(y)
  {
    var q := (x - y) / TwoTo32;
    assert x + TwoTo31 == (y + TwoTo31) + q * TwoTo32;
  }

  /** `s.split('')` then `charCodeAt(0)`: the UTF-16 code units of `s`. */
  function Utf16(s: string): (units: seq<int>)
    ensures forall k :: 0 <= k < |units| ==> 0 <= units[k] < 0x1_0000
    decreases |s|
  {
    if s == [] then []
    else
      var c := s[|s| - 1] as int;
      Utf16(s[..|s| - 1])
      + if c < 0x1_0000 then [c]
        else [0xD800 + (c - 0x1_0000) / 0x400, 0xDC00 + (c - 0x1_0000) % 0x400]
  }

  /** One step of the reduction: `a = ((a << 5) - a) + code; return a & a`. */
  function HashStep(a: int, code: int): int {
    Wrap32(Wrap32(a * 32) - a + code)
  }

  /** The step is `31 * a + code` in 32-bit two's complement. */
  lemma HashStepIs31(a: int, code: int)
    ensures HashStep(a, code) == Wrap32(31 * a + code)
  {
    var w := Wrap32(a * 32);
    assert ((w - a + code) - (31 * a + code)) % TwoTo32 == 0 by {
      assert (w - a + code) - (31 * a + code) == w - 32 * a;
      Wrap32Offset(a * 32);
    }
    Wrap32Congruent(w - a + code, 31 * a + code);
  }

  /** The reduction over the code units, from 0, left to right. */
  function Hash(units: seq<int>): (h: int)
    ensures -TwoTo31 <= h < TwoTo31
    decreases |units|
  {
    if units == [] then 0 else HashStep(Hash(units[..|units| - 1]), units[|units| - 1])
  }

  /** JavaScript's `%`: the remainder takes the sign of the dividend. */
  function TruncRem(a: int, b: int): (r: int)
    requires b > 0
    ensures -b < r < b
    ensures a >= 0 ==> 0 <= r && r == a % b
    ensures a < 0 ==> r <= 0 && r == -((-a) % b)
  {
    if a >= 0 then a % b else -((-a) % b)
  }

  /**
   * `Math.abs(hash % 900000 + 100000)`, as written. For a non-negative hash
   * this is the intended six-digit base; for a negative one it is that base
   * reflected about 100000, which is below 100000 unless the remainder is 0
   * or at least 200000.
   */
  function FallbackBaseAsWritten(hash: int): (base: nat)
    ensures base < 1_000_000
    ensures hash >= 0 ==> base == FallbackBase(hash)
    ensures hash < 0 ==> base + FallbackBase(hash) == 200_000 || FallbackBase(hash) - base == 200_000
    ensures 100_000 <= base <==> hash >= 0 || (-hash) % 900_000 == 0 || (-hash) % 900_000 >= 200_000
  {
    var x := TruncRem(hash, 900_000) + 100_000;
    if x < 0 then -x else x
  }

  /** A negative hash brings the base as written below 100000: a name whose base is five digits long. */
  lemma FallbackBaseShortForNegativeHash()
    ensures FallbackBaseAsWritten(-1_677_711_412) == 11_412
    ensures exists h :: -TwoTo31 <= h < TwoTo31 && FallbackBaseAsWritten(h) < 100_000
  {
    assert TruncRem(-1_677_711_412, 900_000) == -111_412;
    assert FallbackBaseAsWritten(-1_677_711_412) == 11_412;
  }

  /** A string inside the Basic Multilingual Plane has one code unit per character. */
  lemma {:induction false} Utf16Bmp(s: string)
    requires forall k :: 0 <= k < |s| ==> s[k] as int < 0x1_0000
    ensures |Utf16(s)| == |s|
    ensures forall k :: 0 <= k < |s| ==> Utf16(s)[k] == s[k] as int
    decreases |s|
  {
    if s != [] {
      Utf16Bmp(s[..|s| - 1]);
    }
  }

  lemma HashSnoc(units: seq<int>, k: nat)
    requires k < |units|
    ensures Hash(units[..k + 1]) == HashStep(Hash(units[..k]), units[k])
  {
    assert units[..k + 1][..k] == units[..k];
  }

  /**
   * "Smith Lake" hashes to -1677711412, so its fallback number as written is
   * "11412-1", where the intended six-digit base gives "211412-1".
   */
  lemma SmithLakeFallback(name: string)
    requires name == "Smith Lake"
    ensures Hash(Utf16(name)) == -1_677_711_412
    ensures FallbackNumber(name) == "11412-1"
    ensures IntendedFallbackNumber(name) == "211412-1"
  {
    Utf16Bmp(name);
    var u := Utf16(name);
    assert u[0] == 83 && u[1] == 109 && u[2] == 105 && u[3] == 116 && u[4] == 104;
    assert u[5] == 32 && u[6] == 76 && u[7] == 97 && u[8] == 107 && u[9] == 101;
    SmithLakeHash(u);
    FallbackBaseShortForNegativeHash();
    assert NatToString(11_412) == "11412";
    assert FallbackBase(-1_677_711_412) == 211_412;
    assert NatToString(211_412) == "211412";
  }

  /** One step of the reduction, from a known prefix hash to the next. */
  lemma HashChain(units: seq<int>, k: nat, a: int, code: int, r: int)
    requires k < |units| && Hash(units[..k]) == a && units[k] == code && Wrap32(31 * a + code) == r
    ensures Hash(units[..k + 1]) == r
  {
    HashSnoc(units, k);
    HashStepIs31(a, code);
  }

  /** The ten steps of the reduction over "Smith Lake", in 32-bit arithmetic. */
  lemma SmithLakeSteps()
    ensures Wrap32(31 * 0 + 83) == 83
    ensures Wrap32(31 * 83 + 109) == 2682
    ensures Wrap32(31 * 2682 + 105) == 83247
    ensures Wrap32(31 * 83247 + 116) == 2580773
    ensures Wrap32(31 * 2580773 + 104) == 80004067
    ensures Wrap32(31 * 80004067 + 32) == -1814841187
    ensures Wrap32(31 * -1814841187 + 76) == -425501873
    ensures Wrap32(31 * -425501873 + 97) == -305656078
    ensures Wrap32(31 * -305656078 + 107) == -885403719
    ensures Wrap32(31 * -885403719 + 101) == -1677711412
  {
  }

  lemma SmithLakeHash(u: seq<int>)
    requires |u| == 10
    requires u[0] == 83 && u[1] == 109 && u[2] == 105 && u[3] == 116 && u[4] == 104
    requires u[5] == 32 && u[6] == 76 && u[7] == 97 && u[8] == 107 && u[9] == 101
    ensures Hash(u) == -1_677_711_412
  {
    assert u[..0] == [];
    SmithLakeSteps();
    HashChain(u, 0, 0, 83, 83);
    HashChain(u, 1, 83, 109, 2682);
    HashChain(u, 2, 2682, 105, 83247);
    HashChain(u, 3, 83247, 116, 2580773);
    HashChain(u, 4, 2580773, 104, 80004067);
    HashChain(u, 5, 80004067, 32, -1814841187);
    HashChain(u, 6, -1814841187, 76, -425501873);
    HashChain(u, 7, -425501873, 97, -305656078);
    HashChain(u, 8, -305656078, 107, -885403719);
    HashChain(u, 9, -885403719, 101, -1677711412);
    assert u[..10] == u;
  }

  /** The six-digit base the fallback is meant to give: `Math.abs(hash) % 900000 + 100000`. */
  function FallbackBase(hash: int): (base: nat)
    ensures 100_000 <= base <= 999_999
  {
    (if hash < 0 then -hash else hash) % 900_000 + 100_000
  }

  /**
   * The fallback property number of a well name, as written: the digits of
   * the base as written, then "-1"; eight characters exactly when that base
   * has six digits.
   */
  function FallbackNumber(wellName: string): (r: string)
    ensures 3 <= |r| <= 8 && r[|r| - 2..] == "-1" && AllDigits(r[..|r| - 2])
    ensures |r| == 8 <==> 100_000 <= FallbackBaseAsWritten(Hash(Utf16(wellName)))
  {
    var base := FallbackBaseAsWritten(Hash(Utf16(wellName)));
    assert Pow10(5) == 100_000 && Pow10(6) == 1_000_000;
    NatToStringWidth(base, 6);
    NatToString(base) + "-1"
  }

  /** The fallback number's digits spell the base as written, so equal numbers mean equal bases. */
  lemma FallbackNumberValue(wellName: string)
    ensures var r := FallbackNumber(wellName);
      DigitsValue(r[..|r| - 2]) == FallbackBaseAsWritten(Hash(Utf16(wellName)))
  {
    var base := FallbackBaseAsWritten(Hash(Utf16(wellName)));
    var r := FallbackNumber(wellName);
    assert r[..|r| - 2] == NatToString(base);
    NatToStringRoundTrip(base);
  }

  /** The intended fallback number: the six digits of the intended base, then "-1". */
  function IntendedFallbackNumber(wellName: string): (r: string)
    ensures |r| == 8 && AllDigits(r[..6]) && r[6..] == "-1"
    ensures DigitsValue(r[..6]) == FallbackBase(Hash(Utf16(wellName)))
  {
    var base := FallbackBase(Hash(Utf16(wellName)));
    assert Pow10(5) == 100_000 && Pow10(6) == 1_000_000;
    NatToStringLength(base, 6);
    NatToStringRoundTrip(base);
    assert (NatToString(base) + "-1")[..6] == NatToString(base);
    NatToString(base) + "-1"
  }

  /**
   * The number as written is the intended one exactly when the hash is
   * non-negative or a multiple of 900000.
   */
  lemma FallbackNumberAsIntended(wellName: string)
    ensures var h := Hash(Utf16(wellName));
      FallbackNumber(wellName) == IntendedFallbackNumber(wellName) <==> h >= 0 || (-h) % 900_000 == 0
  {
    var h := Hash(Utf16(wellName));
    var a, b := FallbackBaseAsWritten(h), FallbackBase(h);
    if FallbackNumber(wellName) == IntendedFallbackNumber(wellName) {
      var s := FallbackNumber(wellName);
      assert NatToString(a) == s[..|s| - 2];
      assert NatToString(b) == s[..|s| - 2];
      NatToStringInjective(a, b);
    }
  }

  /** The property number: the capture of the first number pattern that matches, else the fallback. */
  function PropertyNumber(cleanDesc: string, wellName: string, numberPatterns: seq<Matcher>): string {
    var found := match FirstMatch(numberPatterns, cleanDesc) case Some(m) => m case None => "";
    if found != "" then found else FallbackNumber(wellName)
  }

  /**
   * The number is never empty: a non-empty capture of the first matching
   * pattern is the number, and when no pattern matched, or the capture is
   * empty, the fallback is.
   */
  lemma PropertyNumberSpec(cleanDesc: string, wellName: string, numberPatterns: seq<Matcher>)
    ensures PropertyNumber(cleanDesc, wellName, numberPatterns) != ""
    ensures FirstMatch(numberPatterns, cleanDesc).Some? && FirstMatch(numberPatterns, cleanDesc).value != ""
            ==> PropertyNumber(cleanDesc, wellName, numberPatterns) == FirstMatch(numberPatterns, cleanDesc).value
    ensures FirstMatch(numberPatterns, cleanDesc) in {None, Some("")}
            ==> PropertyNumber(cleanDesc, wellName, numberPatterns) == FallbackNumber(wellName)
    ensures (forall j :: 0 <= j < |numberPatterns| ==> numberPatterns[j](cleanDesc).None?)
            ==> FirstMatch(numberPatterns, cleanDesc).None?
  {
  }

  /** The property-number search: the patterns in order, then the hash of the well name. */
  method ExtractPropertyNumber(cleanDesc: string, extractedWellName: string, numberPatterns: seq<Matcher>)
    returns (propertyNumber: string)
    ensures propertyNumber == PropertyNumber(cleanDesc, extractedWellName, numberPatterns)
  {
    propertyNumber := "";
    var k := 0;
    while k < |numberPatterns|
      invariant 0 <= k <= |numberPatterns|
      invariant forall j :: 0 <= j < k ==> numberPatterns[j](cleanDesc).None?
    {
      var m := numberPatterns[k](cleanDesc);
      if m.Some? {
        FirstMatchPriority(numberPatterns, cleanDesc, k);
        propertyNumber := m.value;
        break;
      }
      k := k + 1;
    }
    if k == |numberPatterns| {
      PropertyNumberSpec(cleanDesc, extractedWellName, numberPatterns);
    }
    if propertyNumber == "" {
      var units := Utf16(extractedWellName);
      var hash := HashUnits(units);
      var baseNumber := FallbackBaseAsWritten(hash);
      propertyNumber := NatToString(baseNumber) + "-1";
    }
  }

  /** The `reduce` of the hash, one code unit at a time. */
  method HashUnits(units: seq<int>) returns (a: int)
    ensures a == Hash(units)
  {
    a := 0;
    var k := 0;
    while k < |units|
      invariant 0 <= k <= |units|
      invariant a == Hash(units[..k])
    {
      assert units[..k + 1][..k] == units[..k];
      a := HashStep(a, units[k]);
      k := k + 1;
    }
    assert units[..k] == units;
  }

  // ---------------------------------------------------------------------
  // Product profile and owner interest
  // ---------------------------------------------------------------------

  /** Product type, unit, BTU factor and base owner interest, as set together by each branch of the scan. */
  datatype Profile = Profile(productType: string, unit: string, btuFactor: string, baseInterest: real)

  const GasProfile := Profile("GAS", "MCF", "1.035", 0.1875)
  const OilProfile := Profile("OIL", "BBL", "1.000", 0.125)
  const NglProfile := Profile("NGL", "GAL", "1.000", 0.15625)
  const WaterProfile := Profile("WATER", "BBL", "1.000", 0.1)

  predicate MentionsGas(t: string) {
    Contains(t, "gas") || Contains(t, "natural gas") || Contains(t, "methane")
  }

  predicate MentionsOil(t: string) {
    Contains(t, "oil") || Contains(t, "crude") || Contains(t, "petroleum")
  }

  predicate MentionsNgl(t: string) {
    Contains(t, "ngl") || Contains(t, "liquid") || Contains(t, "condensate") || Contains(t, "propane")
    || Contains(t, "butane")
  }

  predicate MentionsWater(t: string) {
    Contains(t, "water") || Contains(t, "brine") || Contains(t, "disposal")
  }

  /** The keyword scan of the lower-cased description: gas before oil before NGL before water, oil by default. */
  function ProfileOf(cleanDesc: string): Profile {
    var fullText := ToLowerAscii(cleanDesc);
    if MentionsGas(fullText) then GasProfile
    else if MentionsOil(fullText) then OilProfile
    else if MentionsNgl(fullText) then NglProfile
    else if MentionsWater(fullText) then WaterProfile
    else OilProfile
  }

  /**
   * Each product type comes from its own keywords and every higher-priority
   * group is absent; the unit, BTU factor and base interest always travel
   * with the type.
   */
  lemma ProfileSpec(cleanDesc: string)
    ensures var p, t := ProfileOf(cleanDesc), ToLowerAscii(cleanDesc);
      && p in {GasProfile, OilProfile, NglProfile, WaterProfile}
      && (p.productType == "GAS" <==> MentionsGas(t))
      && (p.productType == "NGL" <==> !MentionsGas(t) && !MentionsOil(t) && MentionsNgl(t))
      && (p.productType == "WATER" <==> !MentionsGas(t) && !MentionsOil(t) && !MentionsNgl(t) && MentionsWater(t))
      && (p.productType == "OIL" <==> !MentionsGas(t) && (MentionsOil(t) || (!MentionsNgl(t) && !MentionsWater(t))))
  {
  }

  /** `Math.max(0.001, Math.min(0.999, base + (draw - 0.5) * 0.05))`. */
  function FinalInterest(baseInterest: real, draw: real): (r: real)
    ensures 0.001 <= r <= 0.999
  {
    Max(0.001, Min(0.999, baseInterest + (draw - 0.5) * 0.05))
  }

  /**
   * For a draw of `Math.random()` in [0, 1) the clamp never binds on any
   * profile: the interest stays within 2.5 points of its base.
   */
  lemma FinalInterestUnclamped(cleanDesc: string, draw: real)
    requires 0.0 <= draw < 1.0
    ensures var base := ProfileOf(cleanDesc).baseInterest;
      && FinalInterest(base, draw) == base + (draw - 0.5) * 0.05
      && base - 0.025 <= FinalInterest(base, draw) < base + 0.025
  {
    ProfileSpec(cleanDesc);
  }

  // ---------------------------------------------------------------------
  // Property name
  // ---------------------------------------------------------------------

  /** A word character of `\b`: an ASCII letter, digit or underscore. */
  predicate IsWordChar(c: char) {
    ('a' <= c <= 'z') || ('A' <= c <= 'Z') || ('0' <= c <= '9') || c == '_'
  }

  /** The words the name cleaning removes, in the order of the alternation. */
  const NameWords: seq<string> := ["well", "lease", "unit", "property"]

  /** `word` occurs at `i` in `s`, in any ASCII case, as a whole word. */
  predicate WholeWordAt(s: string, i: nat, word: string) {
    && i + |word| <= |s|
    && ToLowerAscii(s[i..i + |word|]) == word
    && (i == 0 || !IsWordChar(s[i - 1]))
    && (i + |word| == |s| || !IsWordChar(s[i + |word|]))
  }

  /** The length of the name word the pattern matches at `i`, trying the alternatives in order. */
  function NameWordAt(s: string, i: nat): (r: Option<nat>)
    ensures r.Some? ==> 0 < r.value && i + r.value <= |s|
    ensures r.Some? ==> exists k :: 0 <= k < |NameWords| && r.value == |NameWords[k]| && WholeWordAt(s, i, NameWords[k])
    ensures r.None? ==> forall k :: 0 <= k < |NameWords| ==> !WholeWordAt(s, i, NameWords[k])
  {
    if WholeWordAt(s, i, NameWords[0]) then Some(4)
    else if WholeWordAt(s, i, NameWords[1]) then Some(5)
    else if WholeWordAt(s, i, NameWords[2]) then Some(4)
    else if WholeWordAt(s, i, NameWords[3]) then Some(8)
    else None
  }

  /** `s.replace(/\b(well|lease|unit|property)\b/gi, '')`, scanning from `i` left to right. */
  function RemoveNameWordsFrom(s: string, i: nat): string
    decreases |s| - i
  {
    if i >= |s| then ""
    else
      match NameWordAt(s, i)
      case Some(n) => RemoveNameWordsFrom(s, i + n)
      case None => [s[i]] + RemoveNameWordsFrom(s, i + 1)
  }

  /** A name without any of the words anywhere is left as it is. */
  lemma {:induction false} RemoveNameWordsAbsent(s: string, i: nat)
    requires i <= |s|
    requires forall j, k :: i <= j < |s| && 0 <= k < |NameWords| ==> !WholeWordAt(s, j, NameWords[k])
    ensures RemoveNameWordsFrom(s, i) == s[i..]
    decreases |s| - i
  {
    if i < |s| {
      assert NameWordAt(s, i).None?;
      RemoveNameWordsAbsent(s, i + 1);
    }
  }

  /** The cleaned property name: the words removed, trimmed, "Unknown Property" if nothing is left. */
  function PropertyName(wellName: string): (r: string)
    ensures r != ""
  {
    var cleaned := Trim(RemoveNameWordsFrom(wellName, 0));
    if cleaned != "" then cleaned else "Unknown Property"
  }

  // ---------------------------------------------------------------------
  // The parsed record
  // ---------------------------------------------------------------------

  /** The fields of the `info` object the function returns. The owner interest is kept as a number. */
  datatype Fields = Fields(
    propertyName: string,
    propertyNumber: string,
    productType: string,
    unit: string,
    ownerInterest: real,
    btuFactor: string)

  /** What `parsePropertyInfoWithTrainingData` returns for `description` and a draw of `Math.random()`. */
  function FieldsOf(description: string, wellNamePatterns: seq<Matcher>, numberPatterns: seq<Matcher>,
                    draw: real): Fields
  {
    var cleanDesc := Trim(description);
    var wellName := WellName(cleanDesc, wellNamePatterns);
    var profile := ProfileOf(cleanDesc);
    Fields(PropertyName(wellName), PropertyNumber(cleanDesc, wellName, numberPatterns), profile.productType,
           profile.unit, FinalInterest(profile.baseInterest, draw), profile.btuFactor)
  }

  /** Name and number are never empty, the interest lies in [0.001, 0.999], and the profile is one of the four. */
  lemma FieldsSpec(description: string, wellNamePatterns: seq<Matcher>, numberPatterns: seq<Matcher>, draw: real)
    ensures var f := FieldsOf(description, wellNamePatterns, numberPatterns, draw);
      && f.propertyName != "" && f.propertyNumber != ""
      && 0.001 <= f.ownerInterest <= 0.999
      && Profile(f.productType, f.unit, f.btuFactor, ProfileOf(Trim(description)).baseInterest)
         in {GasProfile, OilProfile, NglProfile, WaterProfile}
  {
    var cleanDesc := Trim(description);
    PropertyNumberSpec(cleanDesc, WellName(cleanDesc, wellNamePatterns), numberPatterns);
    ProfileSpec(cleanDesc);
  }

  /** The `info` object, whose fields the parse sets one after another. */
  class PropertyRecord {
    var propertyName: string
    var propertyNumber: string
    var productType: string
    var unit: string
    var ownerInterest: real
    var btuFactor: string

    /** The literal the function starts from: an oil well at 12.5%. */
    constructor ()
      ensures propertyName == "" && propertyNumber == "" && productType == "OIL" && unit == "BBL"
      ensures ownerInterest == 0.125 && btuFactor == "1.000"
    {
      propertyName := "";
      propertyNumber := "";
      productType := "OIL";
      unit := "BBL";
      ownerInterest := 0.125;
      btuFactor := "1.000";
    }

    function Snapshot(): Fields
      reads this
    {
      Fields(propertyName, propertyNumber, productType, unit, ownerInterest, btuFactor)
    }

    /** The branch of the keyword scan that matched sets the four profile fields. */
    method SetProfile(p: Profile)
      modifies this
      ensures productType == p.productType && unit == p.unit && btuFactor == p.btuFactor
      ensures ownerInterest == p.baseInterest
      ensures propertyName == old(propertyName) && propertyNumber == old(propertyNumber)
    {
      productType := p.productType;
      unit := p.unit;
      btuFactor := p.btuFactor;
      ownerInterest := p.baseInterest;
    }

    /** The keyword scan of the lower-cased description, setting the profile of the first group found. */
    method ScanProductType(cleanDesc: string)
      modifies this
      ensures Profile(productType, unit, btuFactor, ownerInterest) == ProfileOf(cleanDesc)
      ensures propertyName == old(propertyName) && propertyNumber == old(propertyNumber)
    {
      var fullText := ToLowerAscii(cleanDesc);
      if MentionsGas(fullText) {
        SetProfile(GasProfile);
      } else if MentionsOil(fullText) {
        SetProfile(OilProfile);
      } else if MentionsNgl(fullText) {
        SetProfile(NglProfile);
      } else if MentionsWater(fullText) {
        SetProfile(WaterProfile);
      } else {
        SetProfile(OilProfile);
      }
    }
  }

  /** `parsePropertyInfoWithTrainingData`: fills a fresh `info` record from the description. */
  method ParsePropertyInfoWithTrainingData(description: string, wellNamePatterns: seq<Matcher>,
                                           numberPatterns: seq<Matcher>, draw: real)
    returns (info: PropertyRecord)
    ensures fresh(info)
    ensures info.Snapshot() == FieldsOf(description, wellNamePatterns, numberPatterns, draw)
  {
    info := new PropertyRecord();
    var cleanDesc := Trim(description);
    var extractedWellName := ExtractWellName(cleanDesc, wellNamePatterns);
    var propertyNumber := ExtractPropertyNumber(cleanDesc, extractedWellName, numberPatterns);
    info.ScanProductType(cleanDesc);
    ghost var profile := Profile(info.productType, info.unit, info.btuFactor, info.ownerInterest);
    var baseInterest := info.ownerInterest;
    info.ownerInterest := FinalInterest(baseInterest, draw);
    var cleaned := Trim(RemoveNameWordsFrom(extractedWellName, 0));
    info.propertyName := if cleaned != "" then cleaned else "Unknown Property";
    info.propertyNumber := propertyNumber;
    assert info.Snapshot() == Fields(PropertyName(extractedWellName), propertyNumber, profile.productType, profile.unit,
                                     FinalInterest(profile.baseInterest, draw), profile.btuFactor);
  }
}
