/**
 * The C++ integer operations the uptime computation relies on, written out over
 * Dafny's unbounded integers: signed division truncates toward zero, a conversion
 * to `unsigned long` reduces modulo 2^64 and a conversion to `int` keeps the low
 * 32 bits as a two's-complement value.
 */
module CInts {
  const TWO_31: int := 0x8000_0000
  const TWO_32: int := 0x1_0000_0000
  const TWO_64: int := 0x1_0000_0000_0000_0000

  function Abs(x: int): nat
  {
    if x < 0 then -x else x
  }

  /**
   * C++ `a / b` on signed integers: the exact quotient truncated toward zero.
   * The remainder `a - q * b` is smaller than the divisor in magnitude and is
   * zero or has the sign of `a`.
   */
  function TruncDiv(a: int, b: int): (q: int)
    requires b != 0
    ensures Abs(a - q * b) < Abs(b)
    ensures a - q * b == 0 || (a - q * b < 0 <==> a < 0)
    ensures 0 <= a && 0 < b ==> q == a / b
  {
    var m := Abs(a) / Abs(b);
    var q := if (a < 0) != (b < 0) then -m else m;
    TruncRemainder(a, b, m, q);
    q
  }

  /** The remainder of the truncating quotient is the Euclidean one of `|a|` by `|b|`, with the sign of `a`. */
  lemma TruncRemainder(a: int, b: int, m: int, q: int)
    requires b != 0 && m == Abs(a) / Abs(b)
    requires q == if (a < 0) != (b < 0) then -m else m
    ensures a - q * b == if a < 0 then -(Abs(a) % Abs(b)) else Abs(a) % Abs(b)
  {
    var x, y := Abs(a), Abs(b);
    assert x == m * y + x % y;
    // q * b is m * y, negated when a is negative
    if b < 0 {
      MulNegate(m, y);
      assert m * b == -(m * y);
    }
    MulNegate(m, b);
  }

  lemma MulNegate(m: int, n: int)
    ensures (-m) * n == -(m * n) == m * (-n)
  {
  }

  /** The value of `(unsigned long) x`. */
  function ToUnsigned64(x: int): (u: int)
    ensures 0 <= u < TWO_64
    ensures (u - x) % TWO_64 == 0
  {
    x % TWO_64
  }

  /** The value of `(int) x` for an integer `x` of any width: its low 32 bits, signed. */
  function ToInt32(x: int): (i: int)
    ensures -TWO_31 <= i < TWO_31
    ensures (i - x) % TWO_32 == 0
  {
    var m := x % TWO_32;
    if m < TWO_31 then m else m - TWO_32
  }

  /** Integer division undoes multiplication by the same positive factor. */
  lemma MulDivCancel(k: int, n: int)
    requires n > 0
    ensures (k * n) / n == k
  {
    DivUnique(k * n, n, k, 0);
  }

  /** The quotient is the only `q` that leaves a remainder in `[0, n)`. */
  lemma DivUnique(a: int, n: int, q: int, r: int)
    requires n > 0 && 0 <= r < n && a == q * n + r
    ensures a / n == q
  {
    var q', r' := a / n, a % n;
    assert (q - q') * n == r' - r;
    MulSmallIsZero(q - q', n);
  }

  lemma MulSmallIsZero(d: int, n: int)
    requires n > 0 && -n < d * n < n
    ensures d == 0
  {
    if d > 0 {
      MulAtLeast(d, n);
    } else if d < 0 {
      MulAtLeast(-d, n);
    }
  }

  lemma MulAtLeast(d: int, n: int)
    requires d >= 1 && n > 0
    ensures d * n >= n
  {
    assert d * n == (d - 1) * n + n;
  }

  lemma DivNonNegative(a: int, n: int)
    requires 0 <= a && n > 0
    ensures 0 <= TruncDiv(a, n) == a / n
  {
  }

  /** A non-negative quotient is bounded by any `k` with `a <= k * n`. */
  lemma DivAtMost(a: int, n: int, k: int)
    requires 0 <= a && n > 0 && a <= k * n
    ensures a / n <= k
  {
  }
}
