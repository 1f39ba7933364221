/** Rounding to a number of decimals, ties to even, as both centroid computations and the similarity do it. */
module Rounding {

  const SCALE := 10000000.0
  /** Half a unit in the seventh decimal. */
  const HALF_UNIT := 0.00000005

  function Nearest(y: real): (n: int)
    ensures y - 0.5 <= n as real <= y + 0.5
  {
    var f := y.Floor;
    var d := y - f as real;
    if d < 0.5 then f
    else if d > 0.5 then f + 1
    else if f % 2 == 0 then f else f + 1
  }

  /** Halfway between two integers it is the even one. */
  lemma TiesToEven(n: int)
    ensures Nearest(n as real + 0.5) == if n % 2 == 0 then n else n + 1
  {
    assert (n as real + 0.5).Floor == n;
  }

  function Round7(x: real): (r: real)
    ensures x - HALF_UNIT <= r <= x + HALF_UNIT
  {
    Nearest(x * SCALE) as real / SCALE
  }

  const SCORE_SCALE := 1000000.0

  function Round6(x: real): real { Nearest(x * SCORE_SCALE) as real / SCORE_SCALE }

  /** Rounding moves a value by at most half a unit, and leaves the bounds and the steps of a score alone. */
  lemma Round6Within(x: real)
    ensures x - 0.0000005 <= Round6(x) <= x + 0.0000005
    ensures 0.0 <= x <= 1.0 ==> 0.0 <= Round6(x) <= 1.0
  {
  }
}
