/**
 * The clamp and stepper expressions shared by the stats bar, the ammo counter
 * and the quantity/step-amount buttons.
 */
module Counters {

  function Max(a: int, b: int): int { if a >= b then a else b }

  function Min(a: int, b: int): int { if a <= b then a else b }

  /**
   * `Math.max(0, Math.min(x, ceiling))`: the value stored by every resource and
   * ammo adjustment.
   */
  function ClampToCeiling(x: int, ceiling: int): (r: int)
    ensures r >= 0
    ensures ceiling >= 0 ==> r <= ceiling
    ensures ceiling < 0 ==> r == 0
    ensures 0 <= x <= ceiling ==> r == x
    ensures x > ceiling >= 0 ==> r == ceiling
    ensures x < 0 ==> r == 0
  {
    Max(0, Min(x, ceiling))
  }

  /** Adding a larger amount never yields a smaller clamped value. */
  lemma ClampMonotone(x: int, y: int, ceiling: int)
    requires x <= y
    ensures ClampToCeiling(x, ceiling) <= ClampToCeiling(y, ceiling)
  {
  }

  /** `Math.max(1, n - 1)`: the "-" button of every amount stepper. */
  function StepDown(n: int): (r: int)
    ensures r >= 1
    ensures n > 1 ==> r == n - 1
    ensures n <= 1 ==> r == 1
  {
    Max(1, n - 1)
  }

}
