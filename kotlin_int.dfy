/** Kotlin's 32-bit `Int`: its range, its wrap-around arithmetic, and the
    decimal text that a string template such as "+${n}h" produces for it. */
module KotlinInt {

  const MIN_VALUE: int := -0x8000_0000
  const MAX_VALUE: int := 0x7fff_ffff
  const MODULUS: int := 0x1_0000_0000

  type Int32 = x: int | MIN_VALUE <= x <= MAX_VALUE

  /** The two's-complement result of an `Int` operation whose exact value is `x`. */
  function Wrap(x: int): (r: Int32)
    ensures MIN_VALUE <= x <= MAX_VALUE ==> r == x
    ensures (x - r) % MODULUS == 0
  {
    var q := (x - MIN_VALUE) / MODULUS;
    assert x - ((x - MIN_VALUE) % MODULUS + MIN_VALUE) == q * MODULUS;
    (x - MIN_VALUE) % MODULUS + MIN_VALUE
  }

  /** The `Int` that `Long.toInt()` gives for an unsigned 32-bit literal such as 0xff54c47f. */
  function FromUnsigned(u: nat): (r: Int32)
    requires u < MODULUS
    ensures r == if u <= MAX_VALUE then u else u - MODULUS
  {
    Wrap(u)
  }

  predicate IsDigit(c: char) { '0' <= c <= '9' }

  predicate AllDigits(s: string) { forall i | 0 <= i < |s| :: IsDigit(s[i]) }

  function DigitChar(d: nat): (c: char)
    requires d < 10
    ensures IsDigit(c)
  {
    ('0' as int + d) as char
  }

  function DigitValue(c: char): (d: nat)
    requires IsDigit(c)
    ensures d < 10 && DigitChar(d) == c
  {
    c as int - '0' as int
  }

  /** Decimal digits of `n`, most significant first, without leading zeros. */
  function NatToDecimal(n: nat): (s: string)
    ensures 1 <= |s| && AllDigits(s)
    ensures s[0] == '0' ==> n == 0 && |s| == 1
    decreases n
  {
    if n < 10 then [DigitChar(n)] else NatToDecimal(n / 10) + [DigitChar(n % 10)]
  }

  /** The number that a string of decimal digits denotes. */
  function DecimalValue(s: string): nat
    requires AllDigits(s)
    decreases |s|
  {
    if s == [] then 0 else DecimalValue(s[..|s| - 1]) * 10 + DigitValue(s[|s| - 1])
  }

  lemma {:induction false} DecimalRoundTrip(n: nat)
    ensures DecimalValue(NatToDecimal(n)) == n
  {
    if n >= 10 {
      var s := NatToDecimal(n / 10);
      var t := s + [DigitChar(n % 10)];
      assert t[..|t| - 1] == s;
      DecimalRoundTrip(n / 10);
    }
  }

  /** The texts `Int.toString()` can produce: digits without a leading zero, optionally negated. */
  predicate IsIntLiteral(s: string)
  {
    if 1 <= |s| && s[0] == '-' then
      2 <= |s| && AllDigits(s[1..]) && s[1] != '0'
    else
      1 <= |s| && AllDigits(s) && (s[0] == '0' ==> |s| == 1)
  }

  function ParseInt(s: string): int
    requires IsIntLiteral(s)
  {
    if s[0] == '-' then 0 - DecimalValue(s[1..]) as int else DecimalValue(s)
  }

  /** `Int.toString()`: a minus sign for negative values, then the digits of
      the magnitude. The text is an integer literal that reads back as `i`. */
  function IntToString(i: int): (s: string)
    ensures IsIntLiteral(s) && ParseInt(s) == i
  {
    if i < 0 then
      var d := NatToDecimal(-i);
      var t := "-" + d;
      assert t[1..] == d;
      DecimalRoundTrip(-i);
      t
    else
      DecimalRoundTrip(i);
      NatToDecimal(i)
  }

  /** Hence distinct integers are rendered as distinct texts. */
  lemma IntToStringInjective(i: int, j: int)
    requires IntToString(i) == IntToString(j)
    ensures i == j
  {
  }
}
