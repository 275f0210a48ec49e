/** Decimal text of unsigned integers, and the canonical-text check of signed numeric fields. */
module Decimals {
  import opened Common

  function DigitChar(d: nat): char
    requires d < 10
  {
    '0' + d as char
  }

  predicate IsDigit(c: char) {
    '0' <= c <= '9'
  }

  function DigitValue(c: char): nat
    requires IsDigit(c)
  {
    (c - '0') as nat
  }

  /** `u128::to_string` */
  function Decimal(n: nat): (s: string)
    ensures s != [] && forall i | 0 <= i < |s| :: IsDigit(s[i])
  {
    if n < 10 then [DigitChar(n)] else Decimal(n / 10) + [DigitChar(n % 10)]
  }

  predicate AllDigits(s: string) {
    forall i | 0 <= i < |s| :: IsDigit(s[i])
  }

  function DigitsValue(s: string): nat
    requires AllDigits(s)
  {
    if s == [] then 0 else 10 * DigitsValue(s[..|s| - 1]) + DigitValue(s[|s| - 1])
  }

  /** `str::parse::<u128>`: an optional plus sign, at least one digit, leading zeros allowed. */
  function ParseU128(s: string): Option<nat> {
    var digits := if s != [] && s[0] == '+' then s[1..] else s;
    if digits == [] || !AllDigits(digits) || DigitsValue(digits) > U128_MAX then None else Some(DigitsValue(digits))
  }

  /** `parse_canonical_decimal` */
  function ParseCanonical(s: string, max: nat): Option<nat> {
    var parsed := ParseU128(s);
    if parsed.Some? && Decimal(parsed.value) == s && parsed.value <= max then parsed else None
  }

  lemma {:induction false} DecimalReadsBack(n: nat)
    ensures DigitsValue(Decimal(n)) == n
  {
    if n >= 10 {
      DecimalReadsBack(n / 10);
      assert Decimal(n)[..|Decimal(n)| - 1] == Decimal(n / 10);
    }
  }

  /** A text is accepted exactly when it is the one decimal text of a number in range, and then as that number. */
  lemma CanonicalIsDecimal(s: string, max: nat, n: nat)
    requires max <= U128_MAX
    ensures ParseCanonical(s, max) == Some(n) <==> n <= max && s == Decimal(n)
  {
    DecimalReadsBack(n);
    if s == Decimal(n) {
      assert IsDigit(s[0]) && AllDigits(s);
    }
  }

  /** Different accepted texts are different numbers. */
  lemma CanonicalIsInjective(s: string, t: string, max: nat)
    requires max <= U128_MAX
    requires ParseCanonical(s, max).Some? && ParseCanonical(s, max) == ParseCanonical(t, max)
    ensures s == t
  {
    CanonicalIsDecimal(s, max, ParseCanonical(s, max).value);
    CanonicalIsDecimal(t, max, ParseCanonical(s, max).value);
  }
}
