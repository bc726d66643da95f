/**
 * The two places where the scripts leave exact arithmetic: Python's `int()`
 * on a float, and a float division whose divisor may be zero.
 */
module Numerics {

  /** Python's `int(x)` for a finite float: truncation toward zero. */
  function Trunc(x: real): (n: int)
    ensures 0.0 <= x ==> 0 <= n && n as real <= x < n as real + 1.0
    ensures x < 0.0 ==> n <= 0 && n as real - 1.0 < x <= n as real
  {
    if x >= 0.0 then x.Floor else -((-x).Floor)
  }

  /** Truncation is monotone, so it never reorders two coordinates. */
  lemma TruncMonotone(x: real, y: real)
    requires x <= y
    ensures Trunc(x) <= Trunc(y)
  {
  }

  /** An integer-valued float truncates to itself. */
  lemma TruncOfInt(n: int)
    ensures Trunc(n as real) == n
  {
  }

  /** Half-way values truncate toward zero: `int(k + 0.5)` is `k` or `k + 1`. */
  lemma TruncHalf(k: int)
    ensures Trunc(k as real + 0.5) == if k >= 0 then k else k + 1
  {
  }

  /**
   * A float as numpy holds it after a division: either a finite value or one
   * of inf, -inf, nan, which the scripts never tell apart.
   */
  datatype Coord = Finite(value: real) | NonFinite

  /** numpy's elementwise `a / b`: a zero divisor gives inf or nan. */
  function Div(a: Coord, b: Coord): (q: Coord)
    ensures q.Finite? <==> a.Finite? && b.Finite? && b.value != 0.0
    ensures q.Finite? ==> q.value * b.value == a.value
  {
    if a.Finite? && b.Finite? && b.value != 0.0 then Finite(a.value / b.value) else NonFinite
  }
}
