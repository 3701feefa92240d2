/** String helpers shared by the client and the server model: decimal rendering,
    substring search and ASCII lower-casing. */
module Text {

  predicate IsDigit(c: char) {
    '0' <= c <= '9'
  }

  function DigitChar(d: nat): (c: char)
    requires d < 10
    ensures IsDigit(c)
  {
    ('0' as int + d) as char
  }

  /** Decimal rendering of a natural number, as both `"\(n)"` in Swift and `str(n)` in Python. */
  function NatText(n: nat): (s: string)
    ensures |s| >= 1
    ensures forall i :: 0 <= i < |s| ==> IsDigit(s[i])
    decreases n
  {
    if n < 10 then [DigitChar(n)] else NatText(n / 10) + [DigitChar(n % 10)]
  }

  /** Decimal rendering of an integer with a leading minus sign when negative. */
  function IntText(n: int): string {
    if n < 0 then "-" + NatText(-n) else NatText(n)
  }

  /** The digits after the point of a millisecond fraction, trailing zeros dropped,
      at least one digit ("0" for a whole second). */
  function FractionText(ms: nat): (s: string)
    requires ms < 1000
    ensures 1 <= |s| <= 3
    ensures forall i :: 0 <= i < |s| ==> IsDigit(s[i])
  {
    var d1, d2, d3 := ms / 100, ms / 10 % 10, ms % 10;
    if d3 != 0 then [DigitChar(d1), DigitChar(d2), DigitChar(d3)]
    else if d2 != 0 then [DigitChar(d1), DigitChar(d2)]
    else [DigitChar(d1)]
  }

  /** How Swift prints `date.timeIntervalSince1970` (a Double) for an instant given in
      milliseconds: sign, whole seconds, a point and the fraction ("1772355600.0"). */
  function SecondsText(ms: int): (s: string)
    ensures ms >= 0 ==> '-' !in s
  {
    var mag := if ms < 0 then -ms else ms;
    var body := NatText(mag / 1000) + "." + FractionText(mag % 1000);
    assert forall i :: 0 <= i < |body| ==> body[i] == '.' || IsDigit(body[i]);
    if ms < 0 then "-" + body else body
  }

  predicate StartsWith(s: string, prefix: string) {
    |prefix| <= |s| && s[..|prefix|] == prefix
  }

  /** `pattern in text` (Python) and `text.contains(pattern)` (Swift): a substring test. */
  predicate Contains(text: string, pattern: string)
    decreases |text|
  {
    StartsWith(text, pattern) || (|text| > 0 && Contains(text[1..], pattern))
  }

  /** A text holding `p + q` holds `p`: a substring test for a longer pattern can only
      succeed where one for its prefix does. */
  lemma {:induction false} ContainsPrefix(text: string, p: string, q: string)
    requires Contains(text, p + q)
    ensures Contains(text, p)
    decreases |text|
  {
    if StartsWith(text, p + q) {
      assert text[..|p|] == (p + q)[..|p|] == p;
    } else {
      ContainsPrefix(text[1..], p, q);
    }
  }

  /** Lower-casing of the ASCII letters; every other character is kept. */
  function LowerChar(c: char): (l: char)
    ensures !('A' <= l <= 'Z')
  {
    if 'A' <= c <= 'Z' then (c as int - 'A' as int + 'a' as int) as char else c
  }

  function Lower(s: string): (l: string)
    ensures |l| == |s|
    ensures forall i :: 0 <= i < |s| ==> l[i] == LowerChar(s[i])
  {
    seq(|s|, i requires 0 <= i < |s| => LowerChar(s[i]))
  }
}
