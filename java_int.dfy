/** Java's 32-bit `int` and the integer operators of the survey writer whose
    meaning differs from Dafny's unbounded, Euclidean arithmetic: the
    `(short)` narrowing cast, the truncating `/` and `%`, the arithmetic
    shift `>>` and the mask `&`. */
module JavaInt {

  const INT_MIN: int := -0x8000_0000
  /** `Integer.MAX_VALUE`, which the telephony layer returns for "unknown". */
  const INT_MAX: int := 0x7FFF_FFFF

  type Int32 = x: int | INT_MIN <= x <= INT_MAX

  const SHORT_MIN: int := -0x8000
  const SHORT_MAX: int := 0x7FFF

  /** The cast `(short) v`: keep the low 16 bits, read them as two's complement. */
  function Narrow16(v: int): (s: int)
    ensures SHORT_MIN <= s <= SHORT_MAX
    ensures (v - s) % 0x1_0000 == 0
    ensures SHORT_MIN <= v <= SHORT_MAX ==> s == v
  {
    (v - SHORT_MIN) % 0x1_0000 + SHORT_MIN
  }

  /** Java's `a / b` for a positive divisor: the quotient truncated toward zero. */
  function JavaDiv(a: int, b: int): int
    requires b > 0
  {
    if a >= 0 then a / b else -((-a) / b)
  }

  /** Java's `a % b` for a positive divisor: the remainder takes the sign of `a`. */
  function JavaRem(a: int, b: int): int
    requires b > 0
  {
    if a >= 0 then a % b else -((-a) % b)
  }

  /** The identity Java guarantees for `/` and `%` (JLS 15.17.3), for the
      divisor 3 that splits a physical cell id, with the bounds of the
      remainder; on a non-negative dividend the remainder is 0, 1 or 2. */
  lemma JavaDivRem3(a: int)
    ensures a == 3 * JavaDiv(a, 3) + JavaRem(a, 3)
    ensures -3 < JavaRem(a, 3) < 3
    ensures a >= 0 ==> 0 <= JavaRem(a, 3) < 3 && JavaDiv(a, 3) >= 0
    ensures a < 0 ==> JavaRem(a, 3) <= 0
  {
  }

  /** `x >> n` on a two's-complement integer: each one-bit shift halves the
      value rounding toward negative infinity (the sign bit is copied in). */
  function ShiftRight(x: int, n: nat): int
    decreases n
  {
    if n == 0 then x else ShiftRight(Half(x), n - 1)
  }

  /** One arithmetic shift by one bit: floor(x / 2). */
  function Half(x: int): int {
    x / 2  // Dafny's division by a positive divisor rounds toward negative infinity
  }

  /** `x & (2^n - 1)`: the low `n` bits of the two's-complement representation,
      accumulated bit by bit from the least significant one. */
  function LowBits(x: int, n: nat): int
    decreases n
  {
    if n == 0 then 0 else 2 * LowBits(Half(x), n - 1) + (x - 2 * Half(x))
  }

  function Pow2(n: nat): (p: nat)
    ensures p >= 1
  {
    if n == 0 then 1 else 2 * Pow2(n - 1)
  }

  /** Splitting a value at bit `n`: the shifted-out high part and the masked
      low part recombine to the value, and the low part is a genuine n-bit
      field, whatever the sign of `x`. */
  lemma {:induction false} ShiftMaskSplit(x: int, n: nat)
    ensures 0 <= LowBits(x, n) < Pow2(n)
    ensures x == ShiftRight(x, n) * Pow2(n) + LowBits(x, n)
    decreases n
  {
    if n > 0 {
      var h := Half(x);
      var bit := x - 2 * h;
      ShiftMaskSplit(h, n - 1);
      var hi, lo, p := ShiftRight(h, n - 1), LowBits(h, n - 1), Pow2(n - 1);
      assert Pow2(n) == 2 * p;
      DoubleProduct(hi, p);
      assert x == 2 * (hi * p) + 2 * lo + bit;
    }
  }

  lemma DoubleProduct(a: int, b: int)
    ensures a * (2 * b) == 2 * (a * b)
  {
  }

  /** Hence `x >> 8` is the floor quotient and `x & 0xFF` the Euclidean
      remainder of `x` by 256. */
  lemma ShiftMask8(x: int)
    ensures LowBits(x, 8) == x % 256 && 0 <= LowBits(x, 8) <= 0xFF
    ensures ShiftRight(x, 8) == x / 256
  {
    ShiftMaskSplit(x, 8);
    assert Pow2(2) == 4 && Pow2(4) == 16 && Pow2(6) == 64;
    assert Pow2(8) == 256;
    var q, r := ShiftRight(x, 8), LowBits(x, 8);
    assert x == q * 256 + r && 0 <= r < 256;
    assert q == x / 256 && r == x % 256 by {
      var q', r' := x / 256, x % 256;
      assert x == q' * 256 + r' && 0 <= r' < 256;
    }
  }
}
