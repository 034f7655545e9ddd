/**
 * The two conversions between Java `int` values and their decimal text that
 * the preference code relies on: `Integer.valueOf(String)` (a parse that may
 * fail with NumberFormatException) and `String.valueOf(int)`.
 */
module JavaNumbers {
  import opened Wrappers

  const INT_MIN: int := -0x8000_0000
  const INT_MAX: int := 0x7FFF_FFFF

  /** The value fits in a Java `int`. */
  predicate InInt32(n: int) {
    INT_MIN <= n <= INT_MAX
  }

  predicate IsDigit(c: char) {
    '0' <= c <= '9'
  }

  predicate AllDigits(s: string) {
    forall i :: 0 <= i < |s| ==> IsDigit(s[i])
  }

  function DigitValue(c: char): (d: nat)
    requires IsDigit(c)
    ensures d < 10
  {
    (c as int) - ('0' as int)
  }

  function DigitChar(d: nat): (c: char)
    requires d < 10
    ensures IsDigit(c) && DigitValue(c) == d
  {
    (('0' as int) + d) as char
  }

  /** The number a string of decimal digits denotes, most significant digit first. */
  function DigitsValue(s: string): nat
    requires AllDigits(s)
  {
    if s == [] then 0 else DigitsValue(s[..|s| - 1]) * 10 + DigitValue(s[|s| - 1])
  }

  /** The text after an optional leading '-' or '+'. */
  function UnsignedPart(s: string): (d: string)
    ensures |d| <= |s|
  {
    if s != [] && (s[0] == '-' || s[0] == '+') then s[1..] else s
  }

  /** The value of the digits after the sign, negated when the sign is '-'. */
  function SignedValue(s: string): int
    requires AllDigits(UnsignedPart(s))
  {
    if s != [] && s[0] == '-' then 0 - DigitsValue(UnsignedPart(s)) else DigitsValue(UnsignedPart(s))
  }

  /**
   * `Integer.valueOf(s)`: an optional leading '-' or '+', then at least one
   * decimal digit and nothing else, denoting a value in the `int` range.
   * Every other string raises NumberFormatException, modelled as `None`.
   */
  function ParseInt(s: string): (r: Option<int>)
    // exactly the optionally signed, non-empty digit strings whose value fits in an int parse, to that value
    ensures r.Some? <==> (&& s != [] && UnsignedPart(s) != [] && AllDigits(UnsignedPart(s))
                          && InInt32(SignedValue(s)))
    ensures r.Some? ==> r.value == SignedValue(s)
    // consequences of the two clauses above, kept for callers
    ensures r.Some? ==> InInt32(r.value)
    ensures r.Some? ==> s != [] && (IsDigit(s[0]) || s[0] == '-' || s[0] == '+')
    ensures s != [] && AllDigits(s) && DigitsValue(s) <= INT_MAX ==> r == Some(DigitsValue(s))
  {
    if s == [] then None
    else
      var signed := s[0] == '-' || s[0] == '+';
      var digits := if signed then s[1..] else s;
      if digits == [] || !AllDigits(digits) then None
      else
        var magnitude: int := DigitsValue(digits);
        var value := if s[0] == '-' then -magnitude else magnitude;
        if InInt32(value) then Some(value) else None
  }

  /** The digits of a natural number, without leading zeros. */
  function NatString(n: nat): string
  {
    if n < 10 then [DigitChar(n)] else NatString(n / 10) + [DigitChar(n % 10)]
  }

  /** `String.valueOf(n)`: a '-' for negative numbers, then the digits of the magnitude. */
  function DecimalString(n: int): (s: string)
    ensures s != []
  {
    if n < 0 then "-" + NatString(-n) else NatString(n)
  }

  lemma {:induction false} NatStringDigits(n: nat)
    ensures NatString(n) != [] && AllDigits(NatString(n))
    ensures DigitsValue(NatString(n)) == n
  {
    var s := NatString(n);
    if n >= 10 {
      NatStringDigits(n / 10);
      assert s[..|s| - 1] == NatString(n / 10);
      assert s[|s| - 1] == DigitChar(n % 10);
    }
  }

  /** Parsing what `String.valueOf` prints gives back every `int`. */
  lemma {:induction false} ParseDecimalString(n: int)
    requires InInt32(n)
    ensures ParseInt(DecimalString(n)) == Some(n)
  {
    var s := DecimalString(n);
    if n < 0 {
      NatStringDigits(-n);
      assert s[0] == '-' && s[1..] == NatString(-n);
      assert UnsignedPart(s) == NatString(-n);
      assert SignedValue(s) == n;
    } else {
      NatStringDigits(n);
      assert s == NatString(n) && IsDigit(s[0]);
      assert UnsignedPart(s) == s;
    }
  }
}
