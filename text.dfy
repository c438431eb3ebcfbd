/**
 * String helpers the bot relies on from Python's built-ins: `str.lower()`,
 * slicing `s[:n]`, `str(n)` of any integer (`NatToDecimal`, `IntToDecimal`)
 * and `str.title()`.
 */
module Text {

  /** True for the ASCII upper-case letters 'A'..'Z'. */
  predicate IsUpper(c: char) { 'A' <= c <= 'Z' }

  /** Python's `str.lower()` restricted to the ASCII letters. */
  function LowerChar(c: char): (r: char)
    ensures !IsUpper(r)
    ensures IsUpper(c) ==> r as int == c as int + 32
    ensures !IsUpper(c) ==> r == c
  {
    if IsUpper(c) then (c as int + 32) as char else c
  }

  /** Python's `str.lower()`: every upper-case ASCII letter is replaced by its lower-case form. */
  function Lower(s: string): (r: string)
    ensures |r| == |s|
    ensures forall i :: 0 <= i < |r| ==> !IsUpper(r[i])
    ensures forall i :: 0 <= i < |r| ==> LowerChar(s[i]) == r[i]
  {
    seq(|s|, i requires 0 <= i < |s| => LowerChar(s[i]))
  }

  /** Lowering twice is lowering once. */
  lemma LowerIdempotent(s: string)
    ensures Lower(Lower(s)) == Lower(s)
  {
  }

  function Min(a: int, b: int): int { if a <= b then a else b }

  /** Python's `s[:n]`: the longest prefix of `s` of length at most `n`. */
  function Take<T>(s: seq<T>, n: nat): (r: seq<T>)
    ensures r <= s
    ensures |r| == Min(|s|, n)
  {
    if |s| <= n then s else s[..n]
  }

  predicate IsDigit(c: char) { '0' <= c <= '9' }

  predicate IsDecimal(s: string)
  {
    |s| > 0 && forall i :: 0 <= i < |s| ==> IsDigit(s[i])
  }

  function DigitChar(d: nat): (c: char)
    requires d < 10
    ensures IsDigit(c) && c as int - '0' as int == d
  {
    (d + '0' as int) as char
  }

  /** Python's `str(n)` for `n >= 0`: decimal digits, most significant first, no leading zero. */
  function NatToDecimal(n: nat): (s: string)
    ensures IsDecimal(s)
    ensures s[0] == '0' ==> n == 0 && |s| == 1
    decreases n
  {
    if n < 10 then [DigitChar(n)] else NatToDecimal(n / 10) + [DigitChar(n % 10)]
  }

  /**
   * Python's `str(i)` for any integer: a minus sign in front of a negative
   * value, then the digits of its magnitude with no leading zero.
   */
  function IntToDecimal(i: int): (s: string)
    ensures |s| > 0
    ensures (s[0] == '-') == (i < 0)
    ensures var digits := if i < 0 then s[1..] else s;
            && IsDecimal(digits)
            && (digits[0] == '0' ==> |digits| == 1)
            && DecimalValue(digits) == (if i < 0 then -i else i)
  {
    if i < 0 then
      DecimalRoundTrip(-i);
      var s := "-" + NatToDecimal(-i);
      assert s[1..] == NatToDecimal(-i);
      s
    else
      DecimalRoundTrip(i);
      NatToDecimal(i)
  }

  /** The value a string of decimal digits denotes (Python's `int(s)` on such a string). */
  function DecimalValue(s: string): nat
    requires forall i :: 0 <= i < |s| ==> IsDigit(s[i])
  {
    if s == [] then 0
    else assert IsDigit(s[|s| - 1]); 10 * DecimalValue(s[..|s| - 1]) + (s[|s| - 1] as int - '0' as int)
  }

  /** Reading back what `str(n)` wrote gives `n`. */
  lemma {:induction false} DecimalRoundTrip(n: nat)
    ensures DecimalValue(NatToDecimal(n)) == n
    decreases n
  {
    if n >= 10 {
      var s := NatToDecimal(n);
      assert s[..|s| - 1] == NatToDecimal(n / 10);
      DecimalRoundTrip(n / 10);
    }
  }

  /** `str` is injective on non-negative integers. */
  lemma DecimalInjective(m: nat, n: nat)
    requires NatToDecimal(m) == NatToDecimal(n)
    ensures m == n
  {
    DecimalRoundTrip(m);
    DecimalRoundTrip(n);
  }

  /** `str` is injective on all integers: the text determines the sign and the magnitude. */
  lemma IntDecimalInjective(a: int, b: int)
    requires IntToDecimal(a) == IntToDecimal(b)
    ensures a == b
  {
  }

  predicate IsLetter(c: char) { 'A' <= c <= 'Z' || 'a' <= c <= 'z' }

  function UpperChar(c: char): (r: char)
    ensures 'a' <= c <= 'z' ==> r as int == c as int - 32
    ensures !('a' <= c <= 'z') ==> r == c
  {
    if 'a' <= c <= 'z' then (c as int - 32) as char else c
  }

  /**
   * Python's `str.title()` over ASCII letters: a letter that follows a letter
   * is lowered, any other letter is raised; other characters stay.
   */
  function TitleCase(s: string): (r: string)
    ensures |r| == |s|
  {
    seq(|s|, i requires 0 <= i < |s| =>
      if i > 0 && IsLetter(s[i - 1]) then LowerChar(s[i]) else UpperChar(s[i]))
  }

  /** Title-casing changes letters' case and nothing else. */
  lemma TitleCaseKeepsLetters(s: string)
    ensures Lower(TitleCase(s)) == Lower(s)
  {
    var t := TitleCase(s);
    forall i | 0 <= i < |s| ensures LowerChar(t[i]) == LowerChar(s[i]) {
    }
  }

  /** Each word starts with an upper-case letter and continues in lower case. */
  lemma TitleCaseShape(s: string, i: nat)
    requires i < |s| && IsLetter(s[i])
    ensures i == 0 || !IsLetter(s[i - 1]) ==> 'A' <= TitleCase(s)[i] <= 'Z'
    ensures i > 0 && IsLetter(s[i - 1]) ==> 'a' <= TitleCase(s)[i] <= 'z'
  {
  }
}
