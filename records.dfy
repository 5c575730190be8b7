/**
 * Lines of an X-Plane airport data file (apt.dat, 810 and 850 layouts) and the
 * record patterns the converter searches for with regular expressions.
 *
 * A line is kept as its whitespace-split tokens plus the two facts about its raw text
 * that the patterns can see: whether anything precedes the first token (the patterns
 * are anchored with `^`) and whether it ends in "\r\n" rather than "\n".
 */
module Records {
  import opened Outcome

  datatype Line = Line(indented: bool, tokens: seq<string>, crlf: bool)

  /** The line is "\n" or "\r\n": the blank line that closes an airport's block. */
  predicate IsBlank(l: Line) {
    !l.indented && l.tokens == []
  }

  /** The line is exactly "\n" (the frequency look-ahead compares against this one only). */
  predicate IsLfBlank(l: Line) {
    IsBlank(l) && !l.crlf
  }

  predicate IsDigit(c: char) {
    '0' <= c <= '9'
  }

  predicate AllDigits(s: string) {
    forall i :: 0 <= i < |s| ==> IsDigit(s[i])
  }

  /** `[0-9]+` matching a whole token. */
  predicate IsDigits(s: string) {
    |s| > 0 && AllDigits(s)
  }

  /** `[0-9.]+` matching a whole token. */
  predicate IsNumeral(s: string) {
    |s| > 0 && forall i :: 0 <= i < |s| ==> IsDigit(s[i]) || s[i] == '.'
  }

  /** `[0-9A-Z]{3,5}` matching a whole token. */
  predicate IsIcao(s: string) {
    3 <= |s| <= 5 && forall i :: 0 <= i < |s| ==> IsDigit(s[i]) || 'A' <= s[i] <= 'Z'
  }

  /** `^<kind>\s+`: the record type, first on the line, is `kind`. */
  predicate HasType(l: Line, kind: string) {
    !l.indented && |l.tokens| > 0 && l.tokens[0] == kind
  }

  /** `^1\s+`: an airport header. */
  predicate IsAirportHeader(l: Line) {
    HasType(l, "1")
  }

  predicate EndsInXxx(t: string) {
    |t| >= 3 && t[|t| - 3..] == "xxx"
  }

  /** `^10\s+.*?xxx\s+`: a taxiway segment of the 810 layout. */
  predicate IsTaxiwaySegment(l: Line) {
    HasType(l, "10") && exists j :: 1 <= j < |l.tokens| && EndsInXxx(l.tokens[j])
  }

  /** The group of `^1\s+[0-9]+\s+[0-9]+\s+[0-9]+\s+([0-9A-Z]{3,5})\s+`, used by both classifiers. */
  function HeaderIcao(l: Line): (r: Option<string>)
    ensures r.Some? <==> IsAirportHeader(l) && |l.tokens| >= 5 && IsDigits(l.tokens[1])
                         && IsDigits(l.tokens[2]) && IsDigits(l.tokens[3]) && IsIcao(l.tokens[4])
    ensures r.Some? ==> r.value == l.tokens[4] && 3 <= |r.value| <= 5
    ensures r.Some? ==> IsAirportHeader(l) && IsIcao(r.value)
  {
    if IsAirportHeader(l) && |l.tokens| >= 5 && IsDigits(l.tokens[1]) && IsDigits(l.tokens[2])
       && IsDigits(l.tokens[3]) && IsIcao(l.tokens[4])
    then Some(l.tokens[4])
    else None
  }

  /**
   * `^1\s+[0-9]{1,7}\s+[0-9]{1}\s+[0-9]{1}\s+<apt>\s+`: the header the parsers look for, with
   * `apt` matched as a literal token. The source splices `apt` in as pattern text; the two agree
   * for every `[0-9A-Z]{3,5}` code, not for a code holding metacharacters or whitespace.
   */
  predicate IsHeaderOf(l: Line, apt: string) {
    IsAirportHeader(l) && |l.tokens| >= 5
    && IsDigits(l.tokens[1]) && |l.tokens[1]| <= 7
    && IsDigits(l.tokens[2]) && |l.tokens[2]| == 1
    && IsDigits(l.tokens[3]) && |l.tokens[3]| == 1
    && l.tokens[4] == apt
  }

  /**
   * The header the parsers look for is one the classifiers read the same code from, and a
   * classifier header carries its code in the parsers' pattern exactly when its three numeric
   * fields have the widths 1-7, 1 and 1.
   */
  lemma ParserHeaderIsClassifierHeader(l: Line, apt: string)
    ensures IsHeaderOf(l, apt) && IsIcao(apt) ==> HeaderIcao(l) == Some(apt)
    ensures HeaderIcao(l) == Some(apt) ==>
              (IsHeaderOf(l, apt) <==> |l.tokens[1]| <= 7 && |l.tokens[2]| == 1 && |l.tokens[3]| == 1)
  {
  }

  /** `^5[0-9]{1}\s+([0-9]{5})\s+`: a radio frequency record. */
  predicate IsFrequency(l: Line) {
    !l.indented && |l.tokens| >= 2
    && |l.tokens[0]| == 2 && l.tokens[0][0] == '5' && IsDigit(l.tokens[0][1])
    && |l.tokens[1]| == 5 && IsDigits(l.tokens[1])
  }

  /** `^110\s+`, `^111\s+`, `^112\s+`, `^120\s+`: the 850 records the 850 classifier counts. */
  predicate IsTaxiwayRecord(l: Line) { HasType(l, "110") }
  predicate IsNodeRecord(l: Line) { HasType(l, "111") }
  predicate IsBezierRecord(l: Line) { HasType(l, "112") }
  predicate IsHoldRecord(l: Line) { HasType(l, "120") }

  /** `^111\s+`, `^112\s+`, `^113\s+` or `^115\s+`: an 850 vertex the parser collects. */
  predicate IsVertexRecord(l: Line) {
    HasType(l, "111") || HasType(l, "112") || HasType(l, "113") || HasType(l, "115")
  }

  /** `^110\s+[0-9.]+\s+[0-9.]+\s+([0-9.]+)\s+`: an 850 taxiway record carrying a heading. */
  predicate IsHeadingRecord(l: Line) {
    HasType(l, "110") && |l.tokens| >= 4
    && IsNumeral(l.tokens[1]) && IsNumeral(l.tokens[2]) && IsNumeral(l.tokens[3])
  }

  /** Position of the first `c` in `s`, or `|s|` when there is none. */
  function IndexOf(s: string, c: char): (k: nat)
    ensures k <= |s|
    ensures k < |s| ==> s[k] == c
    ensures forall j :: 0 <= j < k ==> s[j] != c
  {
    if s == [] then 0
    else if s[0] == c then 0
    else 1 + IndexOf(s[1..], c)
  }

  function DigitsValue(s: string): nat
    requires AllDigits(s)
  {
    if s == [] then 0 else DigitsValue(s[..|s| - 1]) * 10 + (s[|s| - 1] - '0') as nat
  }

  function Pow10(n: nat): (p: nat)
    ensures p >= 1
  {
    if n == 0 then 1 else 10 * Pow10(n - 1)
  }

  /** Digits with at most one decimal point and at least one digit. */
  function ParseUnsigned(s: string): (r: Option<real>)
    ensures r.Some? ==> r.value >= 0.0
  {
    var d := IndexOf(s, '.');
    var whole := s[..d];
    var frac := if d < |s| then s[d + 1..] else "";
    if |whole| + |frac| > 0 && AllDigits(whole) && AllDigits(frac) then
      var w, f := DigitsValue(whole) as real, DigitsValue(frac) as real / Pow10(|frac|) as real;
      assert f >= 0.0;
      Some(w + f)
    else None
  }

  lemma NoPointInDigits(s: string)
    requires IsDigits(s)
    ensures IndexOf(s, '.') == |s|
  {
  }

  lemma UnsignedDigits(s: string)
    requires IsDigits(s)
    ensures ParseUnsigned(s) == Some(DigitsValue(s) as real)
  {
    var d := IndexOf(s, '.');
    NoPointInDigits(s);
    assert s[..d] == s;
    var frac: string := "";
    assert DigitsValue(frac) == 0 && Pow10(|frac|) == 1;
    assert DigitsValue(frac) as real / Pow10(|frac|) as real == 0.0;
  }

  /** Python's `float()` on a decimal token; `None` is the ValueError it raises otherwise. */
  function ParseReal(s: string): (r: Option<real>)
    ensures IsDigits(s) ==> r == Some(DigitsValue(s) as real)
    ensures r.Some? && r.value < 0.0 ==> |s| > 0 && s[0] == '-'
  {
    if |s| > 0 && s[0] == '-' then
      match ParseUnsigned(s[1..])
      case Some(v) => Some(-v)
      case None => None
    else if |s| > 0 && s[0] == '+' then ParseUnsigned(s[1..])
    else
      if IsDigits(s) then UnsignedDigits(s); ParseUnsigned(s) else ParseUnsigned(s)
  }

  /** `float(s)`: ValueError when `s` is not a number. */
  function Float(s: string): (r: Result<real>)
    ensures r.Ok? <==> ParseReal(s).Some?
    ensures r.Ok? ==> Some(r.value) == ParseReal(s)
    ensures r.Err? ==> r.fault == ValueError
    ensures IsDigits(s) ==> r == Ok(DigitsValue(s) as real)
    ensures r.Ok? && r.value < 0.0 ==> s[0] == '-'
  {
    match ParseReal(s)
    case None => Err(ValueError)
    case Some(v) => Ok(v)
  }

  /** `float(tokens[j])`: IndexError when the token is missing, ValueError when it is not a number. */
  function Field(tokens: seq<string>, j: nat): (r: Result<real>)
    ensures r.Ok? <==> j < |tokens| && ParseReal(tokens[j]).Some?
    ensures r.Err? && j < |tokens| ==> r.fault == ValueError
    ensures j >= |tokens| ==> r == Err(IndexError)
    ensures r.Ok? ==> ParseReal(tokens[j]) == Some(r.value)
    ensures j < |tokens| && IsDigits(tokens[j]) ==> r == Ok(DigitsValue(tokens[j]) as real)
  {
    if j >= |tokens| then Err(IndexError)
    else match ParseReal(tokens[j])
      case None => Err(ValueError)
      case Some(v) => Ok(v)
  }
}
