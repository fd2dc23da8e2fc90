/** Rounding of a value to 10 decimal places, as `round(v, 10)` does in the
    convergence mode of the value iteration: the exact value is rounded to the
    nearest multiple of 10^-10, and a value exactly halfway between two such
    multiples goes to the one whose last digit is even. */
module Decimal {

  /** 10^10: one unit in the 10th decimal place is 1 / Scale. */
  const Scale: real := 10_000_000_000.0

  /** Half a unit in the 10th decimal place: the largest rounding error. */
  const HalfUnit: real := 0.5 / Scale

  /** `x` has at most 10 decimal places. */
  predicate OnGrid(x: real) {
    (x * Scale).Floor as real == x * Scale
  }

  function Round10(x: real): (r: real)
    ensures x - HalfUnit <= r <= x + HalfUnit
    ensures OnGrid(r)
  {
    var y := x * Scale;
    var f := y.Floor;
    var d := y - f as real;
    var n := if d < 0.5 then f
             else if d > 0.5 then f + 1
             else if f % 2 == 0 then f else f + 1;
    assert n as real / Scale * Scale == n as real;
    n as real / Scale
  }

  /** A value that already has at most 10 decimal places is left unchanged;
      in particular rounding twice is the same as rounding once. */
  lemma Round10Fixes(x: real)
    requires OnGrid(x)
    ensures Round10(x) == x
  {
    var y := x * Scale;
    assert y - y.Floor as real == 0.0;
  }

  lemma Round10Idempotent(x: real)
    ensures Round10(Round10(x)) == Round10(x)
  {
    Round10Fixes(Round10(x));
  }
}
