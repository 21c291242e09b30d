/**
 * The pure text helpers of the Slack notifier (python/slack_integracao.py): pulling
 * the number out of a column's text, choosing the separator between a number and its
 * unit, and choosing the symbol of an alert level.
 */
module SlackText {
  import opened Wrappers

  /** A character of the class `[\d,.]`, with `\d` read as the ASCII digits. */
  predicate IsNumeric(c: char) {
    '0' <= c <= '9' || c == ',' || c == '.'
  }

  /** Where the first numeric character of `s` stands, or |s| when there is none. */
  function RunStart(s: string): (i: nat)
    ensures i <= |s|
    ensures forall k :: 0 <= k < i ==> !IsNumeric(s[k])
    ensures i < |s| ==> IsNumeric(s[i])
  {
    if s == [] || IsNumeric(s[0]) then 0 else 1 + RunStart(s[1..])
  }

  /** How many numeric characters `s` starts with. */
  function RunLength(s: string): (n: nat)
    ensures n <= |s|
    ensures forall k :: 0 <= k < n ==> IsNumeric(s[k])
    ensures n < |s| ==> !IsNumeric(s[n])
  {
    if s == [] || !IsNumeric(s[0]) then 0 else 1 + RunLength(s[1..])
  }

  /** `re.search(r'[\d,.]+', s)`: the matched text, or None when nothing matches. */
  function FirstNumericRun(s: string): (r: Option<string>)
    ensures r.Some? ==> |r.value| > 0 && r.value <= s[RunStart(s)..]
  {
    var i := RunStart(s);
    if i == |s| then None else Some(s[i..i + RunLength(s[i..])])
  }

  /** `t` is the leftmost longest match of `[\d,.]+` in `s`, and it starts at `i`. */
  predicate IsFirstRun(s: string, t: string, i: int) {
    && 0 <= i && i + |t| <= |s| && |t| > 0
    && s[i..i + |t|] == t
    && (forall k :: 0 <= k < |t| ==> IsNumeric(t[k]))
    && (forall k :: 0 <= k < i ==> !IsNumeric(s[k]))
    && (i + |t| == |s| || !IsNumeric(s[i + |t|]))
  }

  /** The search finds nothing exactly when `s` holds no digit, comma or point. */
  lemma FirstNumericRunNone(s: string)
    ensures FirstNumericRun(s) == None <==> forall k :: 0 <= k < |s| ==> !IsNumeric(s[k])
  {
  }

  /** What the search finds is the leftmost maximal run. */
  lemma FirstNumericRunFound(s: string)
    requires FirstNumericRun(s).Some?
    ensures IsFirstRun(s, FirstNumericRun(s).value, RunStart(s))
  {
    var i := RunStart(s);
    var n := RunLength(s[i..]);
    assert n > 0;
    var t := s[i..i + n];
    forall k | 0 <= k < n ensures IsNumeric(t[k]) {
      assert t[k] == s[i..][k];
    }
    if i + n < |s| {
      assert s[i + n] == s[i..][n];
    }
  }

  /** The leftmost maximal run is unique, so the search finds exactly it. */
  lemma FirstRunIsFound(s: string, t: string, i: int)
    requires IsFirstRun(s, t, i)
    ensures FirstNumericRun(s) == Some(t)
  {
    assert IsNumeric(s[i..i + |t|][0]);
    assert RunStart(s) == i;
    var rest := s[i..];
    forall k | 0 <= k < |t| ensures IsNumeric(rest[k]) {
      assert t[k] == s[i..i + |t|][k] == s[i + k] == rest[k];
    }
    if |t| < |rest| {
      assert rest[|t|] == s[i + |t|];
    }
    assert RunLength(rest) == |t|;
  }

  /** `.replace(',', '.')`. */
  function DotDecimal(t: string): string {
    seq(|t|, k requires 0 <= k < |t| => if t[k] == ',' then '.' else t[k])
  }

  /**
   * `valor_float` and `capacidade_float`: the first numeric run with its commas made
   * points, given to `float`; 0 when there is no run.  None stands for the ValueError
   * `float` raises on text such as "1.2.3".
   */
  function ExtractNumber(text: string, parse: string -> Option<real>): (r: Option<real>)
    ensures FirstNumericRun(text).None? ==> r == Some(0.0)
    ensures FirstNumericRun(text).Some? ==> r == parse(DotDecimal(FirstNumericRun(text).value))
  {
    match FirstNumericRun(text)
    case None => Some(0.0)
    case Some(t) => parse(DotDecimal(t))
  }

  /**
   * The text handed to `float` is the first run of `text`, of the same length, made of
   * digits and points only, with a point wherever the run had a comma.
   */
  lemma ExtractedTokenShape(text: string)
    requires FirstNumericRun(text).Some?
    ensures var run := FirstNumericRun(text).value;
      var t := DotDecimal(run);
      && |t| == |run| > 0
      && (forall k :: 0 <= k < |t| ==> '0' <= t[k] <= '9' || t[k] == '.')
      && (forall k :: 0 <= k < |t| ==> t[k] == run[k] || (run[k] == ',' && t[k] == '.'))
  {
    FirstNumericRunFound(text);
  }

  /** The number read is 0 when there is no run, and `float` of the normalised run otherwise. */
  lemma ExtractNumberCases(text: string, parse: string -> Option<real>)
    ensures (forall k :: 0 <= k < |text| ==> !IsNumeric(text[k])) ==> ExtractNumber(text, parse) == Some(0.0)
    ensures forall t, i :: IsFirstRun(text, t, i) ==> ExtractNumber(text, parse) == parse(DotDecimal(t))
  {
    FirstNumericRunNone(text);
    forall t, i | IsFirstRun(text, t, i) ensures ExtractNumber(text, parse) == parse(DotDecimal(t)) {
      FirstRunIsFound(text, t, i);
    }
  }

  /** `str.lower` on the characters that have a one-character lower case in ASCII and Latin-1. */
  function LowerChar(c: char): char {
    if 'A' <= c <= 'Z' || ('\U{C0}' <= c <= '\U{DE}' && c != '\U{D7}') then (c as int + 32) as char else c
  }

  /** The inverse of LowerChar on lower-case letters. */
  function UpperChar(c: char): char {
    if 'a' <= c <= 'z' || ('\U{E0}' <= c <= '\U{FE}' && c != '\U{F7}') then (c as int - 32) as char else c
  }

  function Lower(s: string): string {
    seq(|s|, k requires 0 <= k < |s| => LowerChar(s[k]))
  }

  predicate IsLowerCase(t: string) {
    forall k :: 0 <= k < |t| ==> LowerChar(t[k]) == t[k]
  }

  /** `s` is `t` with some of its letters in upper case. */
  predicate SpellsIgnoringCase(s: string, t: string) {
    |s| == |t| && forall k :: 0 <= k < |s| ==> s[k] == t[k] || s[k] == UpperChar(t[k])
  }

  /** The only characters that lower to a lower-case `c` are `c` and its capital. */
  lemma LowerCharPreimage(x: char, c: char)
    requires LowerChar(c) == c
    ensures LowerChar(x) == c <==> x == c || x == UpperChar(c)
  {
  }

  /** Comparing `lower(s)` with a lower-case word is comparing `s` with its spellings. */
  lemma LowerMatches(s: string, t: string)
    requires IsLowerCase(t)
    ensures Lower(s) == t <==> SpellsIgnoringCase(s, t)
  {
    if |s| == |t| {
      forall k | 0 <= k < |s| ensures LowerChar(s[k]) == t[k] <==> s[k] == t[k] || s[k] == UpperChar(t[k]) {
        LowerCharPreimage(s[k], t[k]);
      }
      if SpellsIgnoringCase(s, t) {
        assert Lower(s) == t;
      }
    }
  }

  /** The units printed after a space. */
  const SpacedUnits: seq<string> := ["gb", "mb", "tb"]

  /** The separator between a number and `unit`: a space for gb, mb and tb in any case, else nothing. */
  function UnitSeparator(unit: string): (r: string)
    ensures r == " " || r == ""
  {
    if Lower(unit) in SpacedUnits then " " else ""
  }

  /** `f"{number} {unit}"` or `f"{number}{unit}"`. */
  function WithUnit(number: string, unit: string): (r: string)
    ensures r == number + " " + unit || r == number + unit
    ensures |r| == |number| + |unit| + 1 <==> Lower(unit) in SpacedUnits
  {
    number + UnitSeparator(unit) + unit
  }

  /** A space is put exactly before the two-letter units gb, mb and tb, in any case. */
  lemma UnitSeparatorSpelling(unit: string)
    ensures UnitSeparator(unit) == " " || UnitSeparator(unit) == ""
    ensures UnitSeparator(unit) == " " <==>
      |unit| == 2 && unit[0] in "gGmMtT" && unit[1] in "bB"
  {
    LowerMatches(unit, "gb");
    LowerMatches(unit, "mb");
    LowerMatches(unit, "tb");
  }

  const Attention: string := "aten\U{E7}\U{E3}o"
  const Critical: string := "cr\U{ED}tico"
  const YellowCircle: string := "\U{1F7E1}"
  const RedCircle: string := "\U{1F534}"
  const InformationSign: string := "\U{2139}\U{FE0F}"

  /** `simbolo`: chosen by the level's lower-case form. */
  function LevelSymbol(level: string): (r: string)
    ensures r == YellowCircle || r == RedCircle || r == InformationSign
  {
    var l := Lower(level);
    if l == Attention then YellowCircle
    else if l == Critical then RedCircle
    else InformationSign
  }

  /**
   * The yellow circle marks exactly the spellings of "atenção", the red circle
   * exactly those of "crítico", and every other level gets the information sign.
   */
  lemma LevelSymbolSpelling(level: string)
    ensures LevelSymbol(level) == YellowCircle <==> SpellsIgnoringCase(level, Attention)
    ensures LevelSymbol(level) == RedCircle <==> SpellsIgnoringCase(level, Critical)
    ensures LevelSymbol(level) == InformationSign <==>
      !SpellsIgnoringCase(level, Attention) && !SpellsIgnoringCase(level, Critical)
  {
    LowerMatches(level, Attention);
    LowerMatches(level, Critical);
  }
}
