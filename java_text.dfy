/** The few pieces of java.lang text conversion the application relies on:
    decimal rendering of integers (Integer.toString, Long.toString) and
    decimal parsing with a range check (Integer.parseInt, Long.parseLong). */
module JavaText {
  import opened Wrappers

  const INT_MIN: int := -0x8000_0000
  const INT_MAX: int := 0x7fff_ffff
  const LONG_MIN: int := -0x8000_0000_0000_0000
  const LONG_MAX: int := 0x7fff_ffff_ffff_ffff

  predicate IsDigit(c: char) { '0' <= c <= '9' }

  predicate AllDigits(s: string) { forall i :: 0 <= i < |s| ==> IsDigit(s[i]) }

  function DigitChar(d: nat): (c: char)
    requires d < 10
    ensures IsDigit(c) && (c as int) - ('0' as int) == d
  {
    (('0' as int) + d) as char
  }

  /** Integer.toString / Long.toString: decimal digits without leading
      zeros, with a '-' in front of negative values. */
  function IntToString(x: int): (s: string)
    ensures |s| > 0
    ensures x < 0 <==> s[0] == '-'
    decreases if x < 0 then 1 - x else x
  {
    if x < 0 then "-" + IntToString(-x)
    else if x < 10 then [DigitChar(x)]
    else IntToString(x / 10) + [DigitChar(x % 10)]
  }

  /** The text of a value that is not negative is all digits. */
  lemma {:induction false} IntToStringDigits(n: nat)
    ensures AllDigits(IntToString(n))
  {
    if n >= 10 {
      IntToStringDigits(n / 10);
    }
  }

  /** Boolean.toString. */
  function BoolToString(b: bool): string {
    if b then "true" else "false"
  }

  /** The value of a string of decimal digits, most significant first. */
  function DigitsValue(s: string): nat
    requires AllDigits(s)
  {
    if s == [] then 0
    else DigitsValue(s[..|s| - 1]) * 10 + ((s[|s| - 1] as int) - ('0' as int))
  }

  /** Parsing with the shape Integer.parseInt accepts: an optional '-', then at
      least one decimal digit, and a value within [lo, hi]; None stands for the
      NumberFormatException. */
  function ParseDecimal(s: string, lo: int, hi: int): (r: Option<int>)
    ensures r.Some? ==> lo <= r.value <= hi
  {
    if s == [] then None
    else
      var negative := s[0] == '-';
      var digits := if negative then s[1..] else s;
      if digits == [] || !AllDigits(digits) then None
      else
        var v: int := if negative then 0 - (DigitsValue(digits) as int) else DigitsValue(digits);
        if lo <= v <= hi then Some(v) else None
  }

  /** Integer.parseInt. */
  function ParseInt(s: string): (r: Option<int>)
    ensures r.Some? ==> INT_MIN <= r.value <= INT_MAX
  {
    ParseDecimal(s, INT_MIN, INT_MAX)
  }

  /** Long.parseLong. */
  function ParseLong(s: string): (r: Option<int>)
    ensures r.Some? ==> LONG_MIN <= r.value <= LONG_MAX
  {
    ParseDecimal(s, LONG_MIN, LONG_MAX)
  }

  lemma {:induction false} DigitsValueOfIntToString(n: nat)
    ensures AllDigits(IntToString(n)) && DigitsValue(IntToString(n)) == n
  {
    var s := IntToString(n);
    IntToStringDigits(n);
    if n < 10 {
      assert s[..|s| - 1] == [];
    } else {
      DigitsValueOfIntToString(n / 10);
      assert s[..|s| - 1] == IntToString(n / 10);
    }
  }

  /** Rendering then parsing gives the value back, for every value in range. */
  lemma ParseOfToString(x: int, lo: int, hi: int)
    requires lo <= x <= hi
    ensures ParseDecimal(IntToString(x), lo, hi) == Some(x)
  {
    var s := IntToString(x);
    if x < 0 {
      assert s[1..] == IntToString(-x);
      DigitsValueOfIntToString(-x);
    } else {
      DigitsValueOfIntToString(x);
    }
  }

  lemma IntRoundTrip(x: int)
    requires INT_MIN <= x <= INT_MAX
    ensures ParseInt(IntToString(x)) == Some(x)
  {
    ParseOfToString(x, INT_MIN, INT_MAX);
  }

  lemma LongRoundTrip(x: int)
    requires LONG_MIN <= x <= LONG_MAX
    ensures ParseLong(IntToString(x)) == Some(x)
  {
    ParseOfToString(x, LONG_MIN, LONG_MAX);
  }

  /** Distinct numbers have distinct decimal texts. */
  lemma IntToStringInjective(x: int, y: int)
    requires IntToString(x) == IntToString(y)
    ensures x == y
  {
    var lo := if x < y then x else y;
    var hi := if x < y then y else x;
    ParseOfToString(x, lo, hi);
    ParseOfToString(y, lo, hi);
  }

  /** The range only decides whether the value is kept: text that parses
      within one range parses to the same value in any range holding it, and
      fails in any range that does not. */
  lemma ParseDecimalRange(s: string, lo: int, hi: int, lo2: int, hi2: int, v: int)
    requires ParseDecimal(s, lo2, hi2) == Some(v)
    ensures ParseDecimal(s, lo, hi) == if lo <= v <= hi then Some(v) else None
  {
  }
}
