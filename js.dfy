/** The few JavaScript value semantics the SDK relies on. */
module Js {
  import opened Wrappers

  /** A string-valued property is truthy when present and non-empty. */
  predicate TruthyString(o: Option<string>) {
    o.Some? && o.value != ""
  }

  /** A number-valued property is truthy when present and non-zero (NaN is not modelled). */
  predicate TruthyNumber(o: Option<int>) {
    o.Some? && o.value != 0
  }

  /** The decimal character of a single digit. */
  function DigitChar(d: nat): (c: char)
    requires d < 10
    ensures '0' <= c <= '9'
  {
    (('0' as int) + d) as char
  }

  /** The value of a decimal digit character. */
  function DigitValue(c: char): int {
    (c as int) - ('0' as int)
  }

  /** The number a string of decimal digits spells, most significant first. */
  function DigitsValue(s: string): int
    decreases |s|
  {
    if s == [] then 0 else DigitsValue(s[..|s| - 1]) * 10 + DigitValue(s[|s| - 1])
  }

  /** Decimal digits of a natural number, most significant first, without leading zeros. */
  function NatDigits(n: nat): (s: string)
    ensures |s| >= 1
    ensures forall i :: 0 <= i < |s| ==> '0' <= s[i] <= '9'
    ensures n > 0 ==> s[0] != '0'
  {
    if n < 10 then [DigitChar(n)] else NatDigits(n / 10) + [DigitChar(n % 10)]
  }

  /** `String(n)` (or a template literal) for an integer-valued number. */
  function DecimalString(n: int): (s: string)
    ensures |s| >= 1
    ensures n >= 0 <==> s[0] != '-'
  {
    if n >= 0 then NatDigits(n) else "-" + NatDigits(-n)
  }

  /** The digits of `n` spell `n`. */
  lemma {:induction false} NatDigitsValue(n: nat)
    ensures DigitsValue(NatDigits(n)) == n
    decreases n
  {
    var s := NatDigits(n);
    if n < 10 {
      assert s[..|s| - 1] == [];
    } else {
      NatDigitsValue(n / 10);
      assert s[..|s| - 1] == NatDigits(n / 10);
    }
  }

  /** The decimal text of `n` spells `n`, after a minus sign when `n` is negative. */
  lemma DecimalStringValue(n: int)
    ensures n >= 0 ==> DigitsValue(DecimalString(n)) == n
    ensures n < 0 ==> DecimalString(n)[0] == '-' && DigitsValue(DecimalString(n)[1..]) == -n
  {
    if n >= 0 {
      NatDigitsValue(n);
    } else {
      var digits := NatDigits(-n);
      NatDigitsValue(-n);
      assert DecimalString(n) == "-" + digits;
      assert ("-" + digits)[1..] == digits;
    }
  }
}
