/** Java's 32-bit `int` and the two conversions the locality cache relies
    on: `String.valueOf(int)` (also what `"..." + containerId` produces) and
    `Integer.parseInt(String)`. */
module JavaIntegers {
  import opened Wrappers

  const INT_MIN: int := -0x8000_0000
  const INT_MAX: int := 0x7fff_ffff

  /** A Java `int`, or a non-null `Integer`. */
  type Int32 = x: int | -0x8000_0000 <= x <= 0x7fff_ffff

  predicate IsDigit(c: char)
  {
    '0' <= c <= '9'
  }

  predicate AllDigits(s: string)
  {
    forall k :: 0 <= k < |s| ==> IsDigit(s[k])
  }

  function DigitValue(c: char): nat
    requires IsDigit(c)
  {
    c as int - '0' as int
  }

  function DigitChar(d: nat): (c: char)
    requires d < 10
    ensures IsDigit(c) && DigitValue(c) == d
  {
    ('0' as int + d) as char
  }

  /** The value of a string of decimal digits, most significant first. */
  function DigitsValue(ds: string): nat
    requires AllDigits(ds)
  {
    if |ds| == 0 then 0
    else DigitsValue(ds[..|ds| - 1]) * 10 + DigitValue(ds[|ds| - 1])
  }

  /** The decimal digits of `n`, without leading zeros. */
  function NatDigits(n: nat): string
  {
    if n < 10 then [DigitChar(n)]
    else NatDigits(n / 10) + [DigitChar(n % 10)]
  }

  /** `String.valueOf(int)`: a minus sign for negative values, then the digits. */
  function ValueOf(n: int): (s: string)
    ensures |s| > 0 && (s[0] == '-' <==> n < 0)
    ensures AllDigits(if n < 0 then s[1..] else s)
  {
    if n < 0 then
      NatDigitsValue(-n);
      var s := "-" + NatDigits(-n);
      assert s[1..] == NatDigits(-n);
      s
    else
      NatDigitsValue(n);
      NatDigits(n)
  }

  /** `Integer.parseInt(s)`: an optional leading '-' or '+', then at least one
      decimal digit, and a value that fits in an `int`; `None` where Java
      throws `NumberFormatException`. */
  function ParseInt(s: string): (r: Option<Int32>)
    ensures r.Some? ==> |s| > 0 && (s[0] == '-' || s[0] == '+' || IsDigit(s[0]))
  {
    if |s| == 0 then None
    else
      var start := if s[0] == '-' || s[0] == '+' then 1 else 0;
      var ds := s[start..];
      if |ds| == 0 || !AllDigits(ds) then None
      else
        var v: int := if s[0] == '-' then 0 - DigitsValue(ds) as int else DigitsValue(ds);
        if INT_MIN <= v <= INT_MAX then Some(v) else None
  }

  /** The digits of `n` are a non-empty digit string whose value is `n`. */
  lemma {:induction false} NatDigitsValue(n: nat)
    ensures |NatDigits(n)| > 0 && AllDigits(NatDigits(n))
    ensures DigitsValue(NatDigits(n)) == n
  {
    if n >= 10 {
      NatDigitsValue(n / 10);
      var d := NatDigits(n / 10);
      var s := d + [DigitChar(n % 10)];
      assert s[..|s| - 1] == d;
      assert AllDigits(s) by {
        forall k | 0 <= k < |s| ensures IsDigit(s[k]) {
          if k < |d| { assert s[k] == d[k]; }
        }
      }
    }
  }

  /** `Integer.parseInt(String.valueOf(n)) == n` for every `int`. */
  lemma ParseIntValueOf(n: Int32)
    ensures ParseInt(ValueOf(n)) == Some(n)
  {
    if n < 0 {
      var m: nat := -(n as int);
      NatDigitsValue(m);
      var s := ValueOf(n);
      assert s[1..] == NatDigits(m);
    } else {
      NatDigitsValue(n);
      assert IsDigit(ValueOf(n)[0]);
    }
  }

  /** Distinct `int`s print differently. */
  lemma ValueOfInjective(m: Int32, n: Int32)
    requires ValueOf(m) == ValueOf(n)
    ensures m == n
  {
    ParseIntValueOf(m);
    ParseIntValueOf(n);
  }
}
