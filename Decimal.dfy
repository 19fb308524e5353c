/**
 * The two number-to-text conversions the handlers rely on when they build
 * upstream filters: `strconv.Itoa` for years and `fmt.Sprintf("%.1f", …)`
 * for the minimum rating. Each comes with the parser that undoes it.
 */
module Decimal {

  predicate IsDigit(c: char) {
    '0' <= c <= '9'
  }

  predicate AllDigits(s: string) {
    forall i :: 0 <= i < |s| ==> IsDigit(s[i])
  }

  function DigitChar(d: nat): (c: char)
    requires d < 10
    ensures IsDigit(c) && c as int - '0' as int == d
  {
    ('0' as int + d) as char
  }

  function DigitValue(c: char): nat
    requires IsDigit(c)
  {
    c as int - '0' as int
  }

  /** The decimal numeral of `n`: digits only, most significant first, no leading zero. */
  function NatToDecimal(n: nat): (s: string)
    ensures |s| >= 1 && AllDigits(s)
    ensures |s| > 1 ==> s[0] != '0'
    decreases n
  {
    if n < 10 then [DigitChar(n)] else NatToDecimal(n / 10) + [DigitChar(n % 10)]
  }

  /** `strconv.Itoa`: a minus sign for negative numbers, then the numeral of the magnitude. */
  function Itoa(n: int): string {
    if n < 0 then "-" + NatToDecimal(-n) else NatToDecimal(n)
  }

  /** The number a string of decimal digits denotes (the empty string denotes 0). */
  function DecimalValue(s: string): nat
    requires AllDigits(s)
  {
    if s == [] then 0 else DecimalValue(s[..|s| - 1]) * 10 + DigitValue(s[|s| - 1])
  }

  lemma {:induction false} DecimalRoundTrip(n: nat)
    ensures DecimalValue(NatToDecimal(n)) == n
  {
    if n >= 10 {
      var s := NatToDecimal(n);
      assert s[..|s| - 1] == NatToDecimal(n / 10);
      DecimalRoundTrip(n / 10);
    }
  }

  /** Reading back what `Itoa` wrote gives the number again, sign included. */
  lemma ItoaRoundTrip(n: int)
    ensures n >= 0 ==> AllDigits(Itoa(n)) && DecimalValue(Itoa(n)) == n
    ensures n < 0 ==> Itoa(n)[0] == '-' && AllDigits(Itoa(n)[1..]) && DecimalValue(Itoa(n)[1..]) == -n
  {
    if n < 0 {
      assert Itoa(n)[1..] == NatToDecimal(-n);
      DecimalRoundTrip(-n);
    } else {
      DecimalRoundTrip(n);
    }
  }

  /** The integer nearest to `t`, ties going to the even neighbour. */
  function RoundHalfEven(t: real): (k: int)
    ensures t - 0.5 <= k as real <= t + 0.5
    ensures t - t.Floor as real == 0.5 ==> k % 2 == 0
  {
    var f := t.Floor;
    var d := t - f as real;
    if d > 0.5 || (d == 0.5 && f % 2 == 1) then f + 1 else f
  }

  /**
   * `fmt.Sprintf("%.1f", x)` for a non-negative `x`: the numeral of the
   * integer part, a point, and one digit, after rounding `x` to tenths
   * half to even on its exact value.
   */
  function FormatTenths(x: real): (s: string)
    requires x >= 0.0
    ensures |s| >= 3 && s[|s| - 2] == '.'
    ensures AllDigits(s[..|s| - 2]) && IsDigit(s[|s| - 1])
  {
    var k := RoundHalfEven(x * 10.0);
    NatToDecimal(k / 10) + "." + [DigitChar(k % 10)]
  }

  /** The number of tenths a `FormatTenths`-shaped string denotes. */
  function TenthsValue(s: string): nat
    requires |s| >= 3 && AllDigits(s[..|s| - 2]) && IsDigit(s[|s| - 1])
  {
    DecimalValue(s[..|s| - 2]) * 10 + DigitValue(s[|s| - 1])
  }

  /** The formatted rating reads back as `x` rounded to the nearest tenth. */
  lemma FormatTenthsValue(x: real)
    requires x >= 0.0
    ensures var v := TenthsValue(FormatTenths(x));
            x * 10.0 - 0.5 <= v as real <= x * 10.0 + 0.5
  {
    var k := RoundHalfEven(x * 10.0);
    var s := FormatTenths(x);
    assert s[..|s| - 2] == NatToDecimal(k / 10);
    DecimalRoundTrip(k / 10);
    assert TenthsValue(s) == k;
  }

  /** A minimum rating of 7.5 is sent as "7.5"; 0.25 is a tie and rounds to the even "0.2". */
  lemma FormatTenthsExamples()
    ensures FormatTenths(7.5) == "7.5"
    ensures FormatTenths(0.25) == "0.2"
  {
  }
}
