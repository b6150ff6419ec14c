/**
 * The JavaScript number operations the engine uses, over mathematical
 * reals and integers. IEEE rounding and the 32-bit wrap of `x | 0` are not
 * modelled.
 */
module JsMath {

  /** `Math.floor`: the greatest integer not above `x`. */
  function Floor(x: real): (r: int)
    ensures r as real <= x < r as real + 1.0
  {
    x.Floor
  }

  /** `Math.ceil`: the least integer not below `x`. */
  function Ceil(x: real): (r: int)
    ensures x <= r as real < x + 1.0
  {
    -((-x).Floor)
  }

  /** `x | 0` on values that fit in 32 bits: rounding toward zero. */
  function Trunc(x: real): (r: int)
    ensures 0.0 <= x ==> r as real <= x < r as real + 1.0
    ensures x < 0.0 ==> r as real - 1.0 < x <= r as real
  {
    if x >= 0.0 then Floor(x) else Ceil(x)
  }

  /** `Math.max` on integers. */
  function Max(a: int, b: int): (r: int)
    ensures a <= r && b <= r
    ensures r == a || r == b
  {
    if a < b then b else a
  }

  /** `Math.min` on integers. */
  function Min(a: int, b: int): (r: int)
    ensures r <= a && r <= b
    ensures r == a || r == b
  {
    if a < b then a else b
  }

  /** Below zero truncation and floor differ, but not once the result is clamped at zero. */
  lemma MaxZeroTruncIsMaxZeroFloor(x: real)
    ensures Max(0, Trunc(x)) == Max(0, Floor(x))
  {
  }

  /** Ceiling commutes with adding an integer. */
  lemma CeilShift(n: int, x: real)
    ensures Ceil(n as real + x) == n + Ceil(x)
  {
  }

  /** Comparing against a multiple of a positive size is comparing against the quotient. */
  lemma ScaleLt(x: real, y: real, s: real)
    requires s > 0.0
    ensures y * s < x <==> y < x / s
    ensures x < y * s <==> x / s < y
  {
    assert (x / s) * s == x;
  }

  lemma ScaleLe(y: real, x: real, s: real)
    requires s > 0.0
    ensures y * s <= x <==> y <= x / s
  {
    assert (x / s) * s == x;
  }
}
