/** JavaScript's `parseFloat`, restricted to fixed-point notation: an optional
    sign, digits, an optional `.` and fraction digits. The longest such prefix
    is read and the rest ignored; when no digit is found the result is NaN,
    written `None` here. */
module NumberText {
  import opened Types

  predicate IsDigit(c: char) {
    '0' <= c <= '9'
  }

  predicate AllDigits(s: string) {
    forall i :: 0 <= i < |s| ==> IsDigit(s[i])
  }

  function DigitValue(c: char): (v: nat)
    requires IsDigit(c)
    ensures v < 10
  {
    (c as int) - ('0' as int)
  }

  /** The natural number a digit string denotes (most significant first). */
  function DigitsValue(s: string): nat
    requires AllDigits(s)
  {
    if s == [] then 0 else 10 * DigitsValue(s[..|s| - 1]) + DigitValue(s[|s| - 1])
  }

  function Pow10(k: nat): (p: nat)
    ensures p >= 1
  {
    if k == 0 then 1 else 10 * Pow10(k - 1)
  }

  /** The value of `a.b` where `b` is written with `k` fraction digits. */
  function Decimal(a: nat, b: nat, k: nat): (v: real)
    ensures v >= a as real
  {
    a as real + (b as real) / (Pow10(k) as real)
  }

  /** The length of the run of digits at the start of `s`. */
  function LeadingDigits(s: string): (n: nat)
    ensures n <= |s|
    ensures AllDigits(s[..n])
    ensures n < |s| ==> !IsDigit(s[n])
  {
    if s == [] || !IsDigit(s[0]) then 0
    else
      var n := 1 + LeadingDigits(s[1..]);
      assert s[..n] == [s[0]] + s[1..][..n - 1];
      n
  }

  lemma {:induction false} LeadingDigitsAll(w: string)
    requires AllDigits(w)
    ensures LeadingDigits(w) == |w|
  {
    if w != [] {
      LeadingDigitsAll(w[1..]);
    }
  }

  /** Integer digits, then optionally `.` and fraction digits. */
  function ParseUnsigned(s: string): (r: Option<real>)
    ensures r.Some? ==> r.value >= 0.0
  {
    var i := LeadingDigits(s);
    if i < |s| && s[i] == '.' then
      var frac := s[i + 1..];
      var j := LeadingDigits(frac);
      if i + j == 0 then None
      else Some(Decimal(DigitsValue(s[..i]), DigitsValue(frac[..j]), j))
    else if i == 0 then None
    else Some(DigitsValue(s[..i]) as real)
  }

  function ParseFloat(s: string): Option<real> {
    if |s| > 0 && (s[0] == '-' || s[0] == '+') then
      match ParseUnsigned(s[1..])
      case None => None
      case Some(v) => Some(if s[0] == '-' then -v else v)
    else ParseUnsigned(s)
  }

  /** A valid floating-point number as an HTML number input reports it
      (without an exponent): an optional `-`, then digits, `.` and digits, or
      both, as in "5", ".5" and "5.5" (but not "5." or "."). */
  predicate IsNumberText(s: string) {
    var body := if |s| > 0 && s[0] == '-' then s[1..] else s;
    var i := LeadingDigits(body);
    if i == |body| then i > 0
    else body[i] == '.' && i + 1 < |body| && LeadingDigits(body[i + 1..]) == |body| - i - 1
  }

  /** What the browser lets a number input hold: nothing yet, or a valid number. */
  predicate IsNumberField(s: string) {
    s == "" || IsNumberText(s)
  }

  /** `parseFloat` reads every valid number text completely: it never yields NaN,
      and the value is the one the whole text denotes. */
  lemma NumberTextParses(s: string)
    requires IsNumberText(s)
    ensures ParseFloat(s) == Some(NumberValue(s))
  {
    var body := if |s| > 0 && s[0] == '-' then s[1..] else s;
    var i := LeadingDigits(body);
    assert body[..|body|] == body;
    if i < |body| {
      var frac := body[i + 1..];
      assert frac[..|frac|] == frac;
    }
  }

  /** The value a valid number text denotes, read off the whole text. */
  function NumberValue(s: string): real
    requires IsNumberText(s)
  {
    var neg := |s| > 0 && s[0] == '-';
    var body := if neg then s[1..] else s;
    var i := LeadingDigits(body);
    var mag := if i == |body| then DigitsValue(body) as real
               else Decimal(DigitsValue(body[..i]), DigitsValue(body[i + 1..]), |body| - i - 1);
    if neg then -mag else mag
  }

  /** A number input may report a fraction without integer digits, such as
      ".5"; `parseFloat` reads it as the fraction it denotes. */
  lemma FractionOnlyIsNumber(f: string)
    requires AllDigits(f) && f != []
    ensures IsNumberText(['.'] + f)
    ensures ParseFloat(['.'] + f) == Some(Decimal(0, DigitsValue(f), |f|))
  {
    LeadingDigitsAll(f);
    var t := ['.'] + f;
    assert LeadingDigits(t) == 0;
    assert t[1..] == f;
    assert IsNumberText(t);
    assert t[..0] == [] && f[..|f|] == f;
    assert ParseUnsigned(t) == Some(Decimal(DigitsValue([]), DigitsValue(f), |f|));
  }

  /** The same with a minus sign, such as "-.5". */
  lemma NegativeFractionOnlyIsNumber(f: string)
    requires AllDigits(f) && f != []
    ensures IsNumberText(['-', '.'] + f)
    ensures ParseFloat(['-', '.'] + f) == Some(-Decimal(0, DigitsValue(f), |f|))
  {
    FractionOnlyIsNumber(f);
    var u := ['.'] + f;
    var t := ['-'] + u;
    assert t == ['-', '.'] + f;
    assert t[0] == '-' && t[1..] == u;
    assert LeadingDigits(t[1..]) == LeadingDigits(u);
    assert ParseFloat(t) == Some(-ParseUnsigned(u).value);
  }
}
