/** Values shared by the camera, the projector and the rasterizer: pixel points,
    the C++ conversions the renderer relies on (truncating casts, integer halving)
    and the `float` accumulators of the scanline walk. */
module Basics {

  datatype Option<T> = None | Some(value: T)

  /** A point in pixel space (the renderer's `Vec2`). */
  datatype Vec2 = Vec2(x: int, y: int)

  function Min(a: int, b: int): int { if a <= b then a else b }
  function Max(a: int, b: int): int { if a <= b then b else a }

  /** The C++ cast `(int)r` of a floating value: truncation toward zero. */
  function Trunc(r: real): (t: int)
    ensures 0.0 <= r ==> t as real <= r < t as real + 1.0
    ensures r < 0.0 ==> t as real - 1.0 < r <= t as real
  {
    if r >= 0.0 then r.Floor else -((-r).Floor)
  }

  /** Truncation never leaves an integer interval that contains its argument. */
  lemma TruncBetween(lo: int, hi: int, r: real)
    requires lo as real <= r <= hi as real
    ensures lo <= Trunc(r) <= hi
  {
  }

  /** The C++ expression `n / 2` on `int`: the quotient rounded toward zero. */
  function HalfTowardZero(n: int): (q: int)
    ensures 0 <= n ==> n == 2 * q || n == 2 * q + 1
    ensures n < 0 ==> n == 2 * q || n == 2 * q - 1
  {
    if n >= 0 then n / 2 else -((-n) / 2)
  }

  /** A `float` accumulator: a finite value, or the infinity or NaN that a
      division by zero leaves behind (and that any later sum keeps). */
  datatype Float = Finite(v: real) | NonFinite

  /** `(float)n / d`: finite exactly when the divisor is nonzero. */
  function Quotient(n: int, d: int): (q: Float)
    ensures q.Finite? <==> d != 0
    ensures q.Finite? ==> q.v * d as real == n as real
  {
    if d == 0 then NonFinite else Finite(n as real / d as real)
  }

  /** `a += b` on floats. */
  function Plus(a: Float, b: Float): Float
  {
    if a.Finite? && b.Finite? then Finite(a.v + b.v) else NonFinite
  }

  /** `a -= b` on floats. */
  function Minus(a: Float, b: Float): Float
  {
    if a.Finite? && b.Finite? then Finite(a.v - b.v) else NonFinite
  }
}
