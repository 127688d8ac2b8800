/**
 * Go's 64-bit `int` arithmetic and the `strconv` conversions the broker uses:
 * `Atoi`, `Itoa`, `ParseBool` and `FormatBool`.
 */
module GoConv {
  import opened Outcomes

  const MinInt64: int := -0x8000_0000_0000_0000
  const MaxInt64: int := 0x7FFF_FFFF_FFFF_FFFF
  const TwoTo64: int := 0x1_0000_0000_0000_0000

  /** The range of Go's `int` on a 64-bit platform. */
  predicate IsInt64(x: int) {
    MinInt64 <= x <= MaxInt64
  }

  /** Two's-complement wrap-around of a 64-bit `int` operation whose exact result is `x`. */
  function Wrap64(x: int): (r: int)
    ensures IsInt64(r)
    ensures (x - r) % TwoTo64 == 0
    ensures IsInt64(x) ==> r == x
  {
    var m := (x - MinInt64) % TwoTo64;
    m + MinInt64
  }

  /** Go's integer division by a positive divisor: it truncates toward zero. */
  function Quot(a: int, d: int): (q: int)
    requires d > 0
    ensures a >= 0 ==> 0 <= a - q * d < d
    ensures a < 0 ==> -d < a - q * d <= 0
  {
    if a >= 0 then a / d else -((-a) / d)
  }

  predicate IsDigit(c: char) {
    '0' <= c <= '9'
  }

  predicate AllDigits(s: string) {
    forall i :: 0 <= i < |s| ==> IsDigit(s[i])
  }

  function DigitChar(d: nat): (c: char)
    requires d < 10
    ensures IsDigit(c)
  {
    ('0' as int + d) as char
  }

  /** The value of a string of decimal digits, most significant first. */
  function DigitsValue(s: string): nat
    requires AllDigits(s)
    decreases |s|
  {
    if |s| == 0 then 0
    else DigitsValue(s[..|s| - 1]) * 10 + ((s[|s| - 1] as int) - ('0' as int))
  }

  /** The shortest decimal representation of `n`. */
  function NatDigits(n: nat): (s: string)
    ensures |s| > 0 && AllDigits(s)
    decreases n
  {
    if n < 10 then [DigitChar(n)] else NatDigits(n / 10) + [DigitChar(n % 10)]
  }

  /**
   * `strconv.Atoi`: an optional `+` or `-`, then one or more decimal digits,
   * whose value must fit Go's `int`. Any other input is an error.
   */
  function Atoi(s: string): (r: Option<int>)
    ensures r.Some? ==> IsInt64(r.value)
    ensures |s| == 0 ==> r.None?
    ensures |s| > 0 && !IsDigit(s[0]) && s[0] != '+' && s[0] != '-' ==> r.None?
    // Unsigned: every character a digit, at most the largest `int`.
    ensures |s| > 0 && IsDigit(s[0]) ==>
              && (r.Some? <==> AllDigits(s) && DigitsValue(s) <= MaxInt64)
              && (r.Some? ==> r.value == DigitsValue(s))
    // `+` and at least one digit after it, at most the largest `int`.
    ensures |s| > 0 && s[0] == '+' ==>
              && (r.Some? <==> |s| > 1 && AllDigits(s[1..]) && DigitsValue(s[1..]) <= MaxInt64)
              && (r.Some? ==> r.value == DigitsValue(s[1..]))
    // `-` and at least one digit after it; the magnitude may reach one more than the largest `int`.
    ensures |s| > 0 && s[0] == '-' ==>
              && (r.Some? <==> |s| > 1 && AllDigits(s[1..]) && DigitsValue(s[1..]) <= -MinInt64)
              && (r.Some? ==> r.value == -(DigitsValue(s[1..]) as int))
  {
    if |s| == 0 then None
    else
      var body := if s[0] == '+' || s[0] == '-' then s[1..] else s;
      if |body| == 0 || !AllDigits(body) then None
      else
        var mag: int := DigitsValue(body);
        var v: int := if s[0] == '-' then -mag else mag;
        if IsInt64(v) then Some(v) else None
  }

  /** `strconv.Itoa`. */
  function Itoa(n: int): string {
    if n < 0 then "-" + NatDigits(-n) else NatDigits(n)
  }

  lemma {:induction false} DigitsRoundTrip(n: nat)
    ensures DigitsValue(NatDigits(n)) == n
    decreases n
  {
    if n >= 10 {
      var s := NatDigits(n);
      assert s[..|s| - 1] == NatDigits(n / 10);
      DigitsRoundTrip(n / 10);
    }
  }

  /** Every 64-bit integer survives printing and parsing back. */
  lemma AtoiItoa(n: int)
    requires IsInt64(n)
    ensures Atoi(Itoa(n)) == Some(n)
  {
    if n < 0 {
      DigitsRoundTrip(-n);
      assert Itoa(n)[1..] == NatDigits(-n);
    } else {
      DigitsRoundTrip(n);
    }
  }

  /** `strconv.ParseBool`. */
  function ParseBool(s: string): (r: Option<bool>)
    ensures r.Some? ==> 1 <= |s| <= 5
  {
    if s in {"1", "t", "T", "TRUE", "true", "True"} then Some(true)
    else if s in {"0", "f", "F", "FALSE", "false", "False"} then Some(false)
    else None
  }

  /** `strconv.FormatBool`. */
  function FormatBool(b: bool): string {
    if b then "true" else "false"
  }

  lemma ParseBoolFormatBool(b: bool)
    ensures ParseBool(FormatBool(b)) == Some(b)
  {
  }
}
