/** Positional numerals, read from the left: what a printed number means to whoever reads it.  Written
    apart from the printers (the C library's `%lu`, `%d`, `%p` and `%02x`). */
module Numerals {

  /** The digits of every base up to sixteen. */
  const DIGITS: string := "0123456789abcdef"

  /** The value of a digit, or 16 for any other character. */
  function DigitOf(c: char): (v: nat)
    ensures v <= 16
  {
    if '0' <= c <= '9' then c as int - '0' as int
    else if 'a' <= c <= 'f' then 10 + (c as int - 'a' as int)
    else 16
  }

  lemma DigitsInOrder(v: nat)
    requires v < 16
    ensures |DIGITS| == 16 && DigitOf(DIGITS[v]) == v
  {
  }

  /** Some digits of the base, without a leading zero unless that is all. */
  predicate IsNumeral(s: string, base: nat) {
    && s != "" && (forall i :: 0 <= i < |s| ==> DigitOf(s[i]) < base)
    && (|s| > 1 ==> s[0] != '0')
  }

  /** Each further digit multiplies what was read so far by the base. */
  function ValueOf(s: string, base: nat): nat {
    if s == "" then 0 else ValueOf(s[..|s| - 1], base) * base + DigitOf(s[|s| - 1])
  }

  /** The text is the numeral of `n`. */
  predicate Writes(s: string, base: nat, n: nat) { IsNumeral(s, base) && ValueOf(s, base) == n }

  lemma ValueAppend(s: string, c: char, base: nat)
    ensures ValueOf(s + [c], base) == ValueOf(s, base) * base + DigitOf(c)
  {
    assert (s + [c])[..|s|] == s;
  }

  /** One more digit at the end of a numeral that is not zero. */
  lemma NumeralAppend(s: string, c: char, base: nat, n: nat)
    requires Writes(s, base, n) && n > 0 && DigitOf(c) < base
    ensures Writes(s + [c], base, n * base + DigitOf(c))
  {
    ValueAppend(s, c, base);
    if |s| == 1 { ZeroDigit(s, base); }
  }

  lemma ZeroDigit(s: string, base: nat)
    requires |s| == 1
    ensures ValueOf(s, base) == DigitOf(s[0]) && (s[0] == '0' <==> DigitOf(s[0]) == 0)
  {
    assert s[..0] == "";
  }

  lemma OneDigit(c: char, base: nat)
    requires DigitOf(c) < base
    ensures Writes([c], base, DigitOf(c))
  {
    ZeroDigit([c], base);
  }
}
