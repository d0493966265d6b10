/** Decimal numerals as Rust and Swift print and read them. */
module Decimal {
  import opened Options

  const U32_MAX: nat := 0xFFFF_FFFF

  predicate IsDigit(c: char) {
    '0' <= c <= '9'
  }

  function DigitValue(c: char): nat
    requires IsDigit(c)
  {
    c as nat - '0' as nat
  }

  function DigitChar(d: nat): (c: char)
    requires d < 10
    ensures IsDigit(c) && DigitValue(c) == d
  {
    '0' + d as char
  }

  predicate AllDigits(s: string) {
    forall i | 0 <= i < |s| :: IsDigit(s[i])
  }

  function ToDecimal(n: nat): (s: string)
    ensures s != "" && AllDigits(s)
  {
    if n < 10 then [DigitChar(n)] else ToDecimal(n / 10) + [DigitChar(n % 10)]
  }

  function Value(s: string): nat
    requires AllDigits(s)
  {
    if s == "" then 0 else 10 * Value(s[..|s| - 1]) + DigitValue(s[|s| - 1])
  }

  lemma {:induction false} ValueOfDecimal(n: nat)
    ensures Value(ToDecimal(n)) == n
  {
    if n < 10 {
      assert ToDecimal(n)[..0] == "";
    } else {
      ValueOfDecimal(n / 10);
      var front := ToDecimal(n / 10);
      assert ToDecimal(n)[..|front|] == front;
    }
  }

  /** The numeral of `n`: its digits have that value, and the first is not zero unless alone. */
  predicate Numeral(s: string, n: int) {
    && s != "" && AllDigits(s) && Value(s) == n
    && (|s| > 1 ==> s[0] != '0')
  }

  lemma {:induction false} NoLeadingZero(n: nat)
    ensures n > 0 ==> ToDecimal(n)[0] != '0'
  {
    if n >= 10 {
      NoLeadingZero(n / 10);
    }
  }

  /**
   * Swift's `UInt32(text)`: an optional sign, at least one ASCII digit, no
   * overflow; a minus sign is accepted only before a zero value.
   */
  function ParseUInt32(s: string): Option<nat> {
    var signed := s != "" && (s[0] == '+' || s[0] == '-');
    var digits := if signed then s[1..] else s;
    if digits == "" || !AllDigits(digits) then None
    else
      var v := Value(digits);
      if v > U32_MAX || (signed && s[0] == '-' && v != 0) then None else Some(v)
  }

  /** A printed number is read back, and refused exactly when it does not fit. */
  lemma ParsePrinted(n: nat)
    ensures ParseUInt32(ToDecimal(n)) == if n <= U32_MAX then Some(n) else None
  {
    ValueOfDecimal(n);
    assert IsDigit(ToDecimal(n)[0]);
  }
}
