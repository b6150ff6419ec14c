/**
 * `clamp(min, value, max)` from the core utilities. Its implementation is
 * not part of this model; the definition below is fixed by the assertions
 * of packages/core/src/utils/clamp.test.ts, which only use `min <= max`.
 */
module Clamping {

  function Clamp(min: real, value: real, max: real): (r: real)
    ensures min <= value <= max ==> r == value
    ensures value < min ==> r == min
    ensures min <= max < value ==> r == max
    ensures r == min || r == value || r == max
  {
    if value < min then min else if value > max then max else value
  }

  /** For a well-formed interval the result always lies inside it. */
  lemma ClampWithinBounds(min: real, value: real, max: real)
    requires min <= max
    ensures min <= Clamp(min, value, max) <= max
  {
  }

  /** A degenerate interval has a single possible result. */
  lemma ClampDegenerate(bound: real, value: real)
    ensures Clamp(bound, value, bound) == bound
  {
  }

  /** The value equalities asserted by the clamp test suite. */
  lemma ClampTestCases()
    ensures Clamp(0.0, 5.0, 10.0) == 5.0 && Clamp(0.0, 0.0, 10.0) == 0.0 && Clamp(0.0, 10.0, 10.0) == 10.0
    ensures Clamp(0.0, -5.0, 10.0) == 0.0 && Clamp(10.0, 5.0, 20.0) == 10.0 && Clamp(-10.0, -20.0, 0.0) == -10.0
    ensures Clamp(0.0, 15.0, 10.0) == 10.0 && Clamp(0.0, 100.0, 50.0) == 50.0 && Clamp(-10.0, 5.0, 0.0) == 0.0
    ensures Clamp(0.0, 0.0, 0.0) == 0.0 && Clamp(5.0, 5.0, 5.0) == 5.0 && Clamp(-5.0, -5.0, -5.0) == -5.0
    ensures Clamp(-10.0, -5.0, -1.0) == -5.0 && Clamp(-10.0, -15.0, -1.0) == -10.0 && Clamp(-10.0, 0.0, -1.0) == -1.0
    ensures Clamp(0.0, 3.14, 10.0) == 3.14 && Clamp(0.0, -0.5, 10.0) == 0.0 && Clamp(0.0, 10.5, 10.0) == 10.0
    ensures Clamp(0.5, 0.3, 1.0) == 0.5 && Clamp(0.5, 1.5, 1.0) == 1.0
  {
  }
}
