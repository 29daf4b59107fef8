/** The test project's own copy of the `int` clamp helper. */
module TestMathUtil {
  import MathUtil

  function Clamp(value: int, min: int, max: int): (r: int)
    ensures value < min ==> r == min
    ensures min <= max ==> min <= r <= max
    ensures min <= value <= max ==> r == value
  {
    if value < min then min else if value > max then max else value
  }

  /** A value above `max` and not below `min` is clamped to `max`. */
  lemma ClampAboveMax(value: int, min: int, max: int)
    requires value > max && value >= min
    ensures Clamp(value, min, max) == max
  {
  }

  lemma ClampIdempotent(value: int, min: int, max: int)
    requires min <= max
    ensures Clamp(Clamp(value, min, max), min, max) == Clamp(value, min, max)
  {
  }

  /** The test copy agrees with the engine's `int` clamp on every input. */
  lemma SameAsEngineClamp(value: int, min: int, max: int)
    ensures Clamp(value, min, max) == MathUtil.ClampInt(value, min, max)
  {
  }
}
