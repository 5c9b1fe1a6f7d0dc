/** Base-10 rendering and parsing of integers, as Go's `strconv.FormatUint`,
    `strconv.FormatInt`, `big.Int.String` and `strconv.ParseUint(s, 10, 64)`
    perform them. */
module Decimal {
  import opened Base

  predicate IsDigit(c: char) {
    '0' <= c <= '9'
  }

  predicate AllDigits(s: string) {
    forall i :: 0 <= i < |s| ==> IsDigit(s[i])
  }

  function DigitChar(d: nat): (c: char)
    requires d < 10
    ensures IsDigit(c) && c as int - '0' as int == d
  {
    (d + '0' as int) as char
  }

  /** The number a string of digits denotes, most significant digit first. */
  function DigitsValue(s: string): nat
    requires AllDigits(s)
  {
    if s == [] then 0
    else DigitsValue(s[..|s| - 1]) * 10 + (s[|s| - 1] as int - '0' as int)
  }

  /** `strconv.FormatUint(n, 10)`: digits only, never empty, and a leading zero
      only in the rendering of zero itself. */
  function FormatUint(n: nat): (s: string)
    ensures |s| >= 1 && AllDigits(s)
    ensures s[0] == '0' <==> n == 0
    ensures n == 0 <==> s == "0"
    decreases n
  {
    if n < 10 then [DigitChar(n)] else FormatUint(n / 10) + [DigitChar(n % 10)]
  }

  /** `strconv.FormatInt(n, 10)` and `big.Int.String()`: the digits of a
      non-negative number denote it, and a negative number is a minus sign
      followed by the digits of its magnitude. */
  function FormatInt(n: int): (s: string)
    ensures n >= 0 ==> s == FormatUint(n)
    ensures n < 0 ==> s == "-" + FormatUint(-n)
    ensures n >= 0 ==> |s| >= 1 && AllDigits(s) && DigitsValue(s) == n
    ensures n < 0 ==> |s| >= 2 && s[0] == '-' && AllDigits(s[1..]) && DigitsValue(s[1..]) == -n
  {
    if n < 0 then
      var digits := FormatUint(-n);
      FormatUintValue(-n);
      assert ("-" + digits)[1..] == digits;
      "-" + digits
    else
      FormatUintValue(n);
      FormatUint(n)
  }

  /** `strconv.ParseUint(s, 10, 64)`: fails on the empty string, on any
      character that is not a digit (no sign is accepted) and on values that
      do not fit in 64 bits; leading zeros are accepted. */
  function ParseUint(s: string): (r: Option<Uint64>)
    ensures r.Some? <==> s != [] && AllDigits(s) && DigitsValue(s) < TWO_64
    ensures r.Some? ==> r.value == DigitsValue(s)
  {
    if s != [] && AllDigits(s) && DigitsValue(s) < TWO_64 then Some(DigitsValue(s)) else None
  }

  /** Reading back the digits FormatUint writes yields the number. */
  lemma {:induction false} FormatUintValue(n: nat)
    ensures DigitsValue(FormatUint(n)) == n
    decreases n
  {
    if n >= 10 {
      var s := FormatUint(n / 10);
      var t := s + [DigitChar(n % 10)];
      assert t[..|t| - 1] == s;
      FormatUintValue(n / 10);
    }
  }

  /** ParseUint inverts FormatUint on every 64-bit value. */
  lemma ParseFormatUint(n: Uint64)
    ensures ParseUint(FormatUint(n)) == Some(n)
  {
    FormatUintValue(n);
  }

  /** Distinct numbers have distinct renderings. */
  lemma FormatUintInjective(m: nat, n: nat)
    requires FormatUint(m) == FormatUint(n)
    ensures m == n
  {
    FormatUintValue(m);
    FormatUintValue(n);
  }

  /** Distinct integers, negative ones included, have distinct renderings. */
  lemma FormatIntInjective(m: int, n: int)
    requires FormatInt(m) == FormatInt(n)
    ensures m == n
  {
    var a, b := FormatInt(m), FormatInt(n);
    if m < 0 && n < 0 {
      assert a[1..] == FormatUint(-m) && b[1..] == FormatUint(-n);
      FormatUintInjective(-m, -n);
    } else if m >= 0 && n >= 0 {
      FormatUintInjective(m, n);
    }
  }
}
