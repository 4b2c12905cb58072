/** Java `int` semantics that the rover's arithmetic depends on: 32-bit
    wrap-around on addition, the truncating remainder operator `%`, and the
    decimal text that string concatenation produces for a non-negative `int`. */
module JavaInt {

  const MinInt: int := -0x8000_0000
  const MaxInt: int := 0x7fff_ffff
  const Modulus: int := 0x1_0000_0000

  /** A value of Java's primitive `int` (or a non-null `Integer`). */
  type Int32 = x: int | MinInt <= x <= MaxInt

  /** Java's `a + b` on `int`: the mathematical sum, wrapped into 32 bits. */
  function Add(a: Int32, b: Int32): (r: Int32)
    ensures (r - (a + b)) % Modulus == 0
    ensures MinInt <= a + b <= MaxInt ==> r == a + b
  {
    var s := a + b;
    if s > MaxInt then s - Modulus else if s < MinInt then s + Modulus else s
  }

  /** Java's `a % 360`: the remainder of division rounded toward zero, so it
      takes the sign of the dividend (Dafny's `%` never returns a negative
      value). 360 is the only divisor the rover uses. */
  function Rem360(a: int): (r: int)
    ensures -360 < r < 360
    ensures (a - r) % 360 == 0
    ensures a >= 0 ==> r >= 0
    ensures a <= 0 ==> r <= 0
  {
    if a >= 0 then a % 360 else -((-a) % 360)
  }

  /** How `Rem360` differs from Dafny's Euclidean `%`: they agree unless the
      dividend is negative and not a multiple of 360, and then the truncated
      remainder is exactly 360 lower. */
  lemma RemVersusEuclidean(a: int)
    ensures a >= 0 || a % 360 == 0 ==> Rem360(a) == a % 360
    ensures a < 0 && a % 360 != 0 ==> Rem360(a) == a % 360 - 360
  {
  }

  /** The character for one decimal digit. */
  function DigitChar(d: int): (c: char)
    requires 0 <= d < 10
    ensures '0' <= c <= '9' && c as int - '0' as int == d
  {
    (d + '0' as int) as char
  }

  predicate IsDigits(s: string)
  {
    forall i :: 0 <= i < |s| ==> '0' <= s[i] <= '9'
  }

  /** `"" + n` for a non-negative `int` n: its decimal digits, most significant
      first, with no leading zero. */
  function NatString(n: nat): (s: string)
    ensures |s| >= 1 && IsDigits(s)
    ensures s[0] == '0' ==> n == 0
  {
    if n < 10 then [DigitChar(n)]
    else NatString(n / 10) + [DigitChar(n % 10)]
  }

  /** The number a string of decimal digits denotes. */
  function ParseNat(s: string): nat
    requires IsDigits(s)
  {
    if s == [] then 0
    else ParseNat(s[..|s| - 1]) * 10 + (s[|s| - 1] as int - '0' as int)
  }

  /** Reading back the decimal text of a number gives the number. */
  lemma {:induction false} ParseNatString(n: nat)
    ensures ParseNat(NatString(n)) == n
  {
    var s := NatString(n);
    if n >= 10 {
      ParseNatString(n / 10);
      assert s[..|s| - 1] == NatString(n / 10);
    }
  }
}
