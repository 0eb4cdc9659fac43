/** The two clamping helpers of the engine's math library that the aim code
    calls, with the engine's branch order: the lower bound is compared first. */
module Mathf {

  /** `Mathf.Clamp(value, min, max)`. When `min <= max` the result is the
      point of [min, max] nearest to `value`; otherwise it is one of the bounds. */
  function Clamp(value: real, min: real, max: real): (r: real)
    ensures min <= max ==> min <= r <= max
    ensures min <= value <= max ==> r == value
    ensures value < min ==> r == min
    ensures min <= max < value ==> r == max
    ensures min > max ==> r == min || r == max
  {
    if value < min then min else if value > max then max else value
  }

  /** `Mathf.Clamp01(value)`: `value` clamped to [0, 1]. */
  function Clamp01(value: real): (r: real)
    ensures 0.0 <= r <= 1.0
    ensures 0.0 <= value <= 1.0 ==> r == value
    ensures value <= 0.0 ==> r == 0.0
    ensures value >= 1.0 ==> r == 1.0
  {
    Clamp(value, 0.0, 1.0)
  }
}
