/**
 * The two Java numeric types the bridge touches: 32-bit `int` and IEEE
 * `double`. Doubles are never computed on here; they are copied, compared with
 * 0.0, widened from `int` and narrowed to `int`, so a double is modelled by the
 * value class it falls in rather than by its bits.
 */
module JavaNumbers {

  import opened Base

  const INT_MIN: int := -0x8000_0000
  const INT_MAX: int := 0x7FFF_FFFF

  /** A Java `int`. */
  type Int32 = x: int | INT_MIN <= x <= INT_MAX

  /** A Java `double`: a finite value, one of the two infinities, or NaN. */
  datatype Double = Finite(r: real) | PosInf | NegInf | NaN

  const ZERO: Double := Finite(0.0)

  /** Java's `d > 0.0`; false for NaN, as every ordered comparison with NaN is. */
  predicate IsPositive(d: Double)
  {
    match d
    case Finite(r) => r > 0.0
    case PosInf => true
    case _ => false
  }

  /** Widening `int` to `double` is exact for every `int`. */
  function IntToDouble(i: Int32): (d: Double)
    ensures d.Finite? && d.r == i as real
  {
    Finite(i as real)
  }

  function Abs(x: int): (r: nat)
  {
    if x < 0 then -x else x
  }

  /** Rounds a real toward zero (Dafny's `Floor` rounds toward negative infinity). */
  function TruncateReal(r: real): (t: int)
    ensures 0.0 <= r ==> t as real <= r < t as real + 1.0
    ensures r < 0.0 ==> t as real - 1.0 < r <= t as real
  {
    if r >= 0.0 then r.Floor else -((-r).Floor)
  }

  /**
   * The narrowing cast `(int) d` of section 5.1.3 of the Java Language
   * Specification: NaN becomes 0, values beyond the `int` range saturate, and
   * everything else rounds toward zero.
   */
  function DoubleToInt(d: Double): (i: Int32)
    ensures d.NaN? ==> i == 0
    ensures d.PosInf? ==> i == INT_MAX
    ensures d.NegInf? ==> i == INT_MIN
    ensures d.Finite? && d.r >= INT_MAX as real ==> i == INT_MAX
    ensures d.Finite? && d.r <= INT_MIN as real ==> i == INT_MIN
    ensures d.Finite? && 0.0 <= d.r < INT_MAX as real ==> i as real <= d.r < i as real + 1.0
    ensures d.Finite? && INT_MIN as real < d.r < 0.0 ==> i as real - 1.0 < d.r <= i as real
  {
    match d
    case NaN => 0
    case PosInf => INT_MAX
    case NegInf => INT_MIN
    case Finite(r) =>
      if r >= INT_MAX as real then INT_MAX
      else if r <= INT_MIN as real then INT_MIN
      else TruncateReal(r)
  }

  /** Narrowing a widened `int` gives the `int` back. */
  lemma WidenNarrow(i: Int32)
    ensures DoubleToInt(IntToDouble(i)) == i
  {
  }

  /**
   * Java's `a / b` on `int` (section 15.17.2 of the Java Language
   * Specification): `None` stands for the ArithmeticException raised on
   * division by zero; otherwise the quotient's magnitude is the quotient of the
   * magnitudes and its sign is the product of the signs (rounding toward zero),
   * except that the one overflowing case, `INT_MIN / -1`, wraps to `INT_MIN`.
   */
  function IntDiv(a: Int32, b: Int32): (q: Option<Int32>)
    ensures q.None? <==> b == 0
    ensures b != 0 && !(a == INT_MIN && b == -1) ==> Abs(q.value) == Abs(a) / Abs(b)
    ensures b != 0 && (a >= 0) == (b > 0) && !(a == INT_MIN && b == -1) ==> q.value >= 0
    ensures b != 0 && (a >= 0) != (b > 0) ==> q.value <= 0
    ensures a == INT_MIN && b == -1 ==> q == Some(INT_MIN)
  {
    if b == 0 then None
    else if a == INT_MIN && b == -1 then Some(INT_MIN)
    else if (a >= 0) == (b > 0) then Some(Magnitude(a, b))
    else var m: int := Magnitude(a, b); var q: Int32 := -m; Some(q)
  }

  /** The quotient of the magnitudes, which fits in an `int` with the quotient's sign. */
  function Magnitude(a: Int32, b: Int32): (m: nat)
    requires b != 0 && !(a == INT_MIN && b == -1)
    ensures m == Abs(a) / Abs(b)
    ensures m <= Abs(a)
    ensures (a >= 0) == (b > 0) ==> m <= INT_MAX
  {
    DivBound(Abs(a), Abs(b));
    Abs(a) / Abs(b)
  }

  /** A quotient by at least one is at most the dividend, by at least two at most half of it. */
  lemma DivBound(n: nat, d: nat)
    requires d >= 1
    ensures n / d <= n
    ensures d >= 2 ==> 2 * (n / d) <= n
  {
    var q := n / d;
    assert q * d <= n;
    MulGe(q, d);
    if d >= 2 {
      MulGe(q, d - 1);
      assert q * d == q * (d - 1) + q;
    }
  }

  lemma MulGe(m: nat, d: nat)
    requires d >= 1
    ensures m * d >= m
  {
    assert m * d == m * (d - 1) + m;
  }

  /** On non-negative operands Java's division agrees with Dafny's. */
  lemma IntDivNonNegative(a: Int32, b: Int32)
    requires 0 <= a && 0 < b
    ensures IntDiv(a, b) == Some(a / b)
  {
  }

  /** On operands of opposite sign it does not: Java rounds -7 / 2 up to -3. */
  lemma IntDivTruncates()
    ensures IntDiv(-7, 2) == Some(-3) && -7 / 2 == -4
  {
  }
}
