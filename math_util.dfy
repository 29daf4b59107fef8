/**
 * The engine's small numeric helpers: the two `Clamp` extension methods
 * (for `float` and for `int`) and `RotationLock`, which brings an angle in
 * degrees back into [0, 360] by whole turns.
 */
module MathUtil {

  /** `value.Clamp(min, max)` on floats: `min` is tested first, then `max`. */
  function Clamp(value: real, min: real, max: real): (r: real)
    ensures value < min ==> r == min
    ensures min <= value && max < value ==> r == max
    ensures min <= max ==> min <= r <= max
    ensures min <= value <= max ==> r == value
  {
    if value < min then min else if value > max then max else value
  }

  /** The `int` overload of `Clamp`, with the same order of tests. */
  function ClampInt(value: int, min: int, max: int): (r: int)
    ensures value < min ==> r == min
    ensures min <= value && max < value ==> r == max
    ensures min <= max ==> min <= r <= max
    ensures min <= value <= max ==> r == value
  {
    if value < min then min else if value > max then max else value
  }

  /** Because `min` is tested first, inverted bounds give `max` for every value from `min` up. */
  lemma ClampInvertedBounds(value: real, min: real, max: real)
    requires max < min <= value
    ensures Clamp(value, min, max) == max
  {
  }

  lemma ClampIdempotent(value: real, min: real, max: real)
    requires min <= max
    ensures Clamp(Clamp(value, min, max), min, max) == Clamp(value, min, max)
  {
  }

  lemma ClampIntIdempotent(value: int, min: int, max: int)
    requires min <= max
    ensures ClampInt(ClampInt(value, min, max), min, max) == ClampInt(value, min, max)
  {
  }

  /**
   * What the two loops of `RotationLock` compute: add 360 while the angle is
   * negative, then subtract 360 while it exceeds 360.
   */
  function RotationLocked(value: real): real
    decreases if value < 0.0 then 1 - value.Floor else 0, if value > 360.0 then value.Floor else 0
  {
    if value < 0.0 then RotationLocked(value + 360.0)
    else if value > 360.0 then RotationLocked(value - 360.0)
    else value
  }

  /** The number of whole turns that `RotationLock` adds (negative when it subtracts). */
  function Turns(value: real): int
    decreases if value < 0.0 then 1 - value.Floor else 0, if value > 360.0 then value.Floor else 0
  {
    if value < 0.0 then Turns(value + 360.0) + 1
    else if value > 360.0 then Turns(value - 360.0) - 1
    else 0
  }

  /** `RotationLock` runs the two loops of the source; both terminate. */
  method RotationLock(value: real) returns (r: real)
    ensures r == RotationLocked(value)
  {
    r := value;
    while r < 0.0
      invariant RotationLocked(r) == RotationLocked(value)
      decreases 1 - r.Floor
    {
      r := r + 360.0;
    }
    while r > 360.0
      invariant 0.0 <= r
      invariant RotationLocked(r) == RotationLocked(value)
      decreases r.Floor
    {
      r := r - 360.0;
    }
  }

  /** The locked angle lies in [0, 360]; from below it stays under 360, from above it stays above 0. */
  lemma {:induction false} RotationLockRange(value: real)
    ensures 0.0 <= RotationLocked(value) <= 360.0
    ensures value < 0.0 ==> RotationLocked(value) < 360.0
    ensures value > 360.0 ==> RotationLocked(value) > 0.0
    decreases if value < 0.0 then 1 - value.Floor else 0, if value > 360.0 then value.Floor else 0
  {
    if value < 0.0 {
      RotationLockRange(value + 360.0);
    } else if value > 360.0 {
      RotationLockRange(value - 360.0);
    }
  }

  /** The locked angle differs from the input by a whole number of turns. */
  lemma {:induction false} RotationLockWholeTurns(value: real)
    ensures RotationLocked(value) == value + 360.0 * Turns(value) as real
    decreases if value < 0.0 then 1 - value.Floor else 0, if value > 360.0 then value.Floor else 0
  {
    if value < 0.0 {
      RotationLockWholeTurns(value + 360.0);
    } else if value > 360.0 {
      RotationLockWholeTurns(value - 360.0);
    }
  }

  /** Angles already in [0, 360] are returned unchanged; 360 stays 360 and 720 becomes 360. */
  lemma RotationLockExamples()
    ensures RotationLocked(360.0) == 360.0
    ensures RotationLocked(720.0) == 360.0
    ensures RotationLocked(-360.0) == 0.0
  {
    assert RotationLocked(720.0) == RotationLocked(360.0);
    assert RotationLocked(-360.0) == RotationLocked(0.0);
  }

  lemma RotationLockIdempotent(value: real)
    ensures RotationLocked(RotationLocked(value)) == RotationLocked(value)
  {
    RotationLockRange(value);
  }
}
