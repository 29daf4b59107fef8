/**
 * `Velocity3D`: six non-negative speeds, one per direction key. Each frame a
 * speed grows slowly while its key is held, collapses while it is not, and is
 * then clamped to [0, frameTime * 0.03].
 */
module Velocity {
  import opened MathUtil
  import opened Movement

  const Acceleration: real := 0.001
  const Deceleration: real := -10.0
  const MaxVelocityPerMs: real := 0.03

  /** One component's `+=` step: up by 0.001 per ms while its key is held, down by 10 per ms otherwise. */
  function Step(speed: real, pressed: bool, frameTime: real): real
  {
    speed + (if pressed then Acceleration else Deceleration) * frameTime
  }

  /** One component's `+=` step followed by its clamp. */
  function Accelerate(speed: real, pressed: bool, frameTime: real): real
  {
    Clamp(Step(speed, pressed, frameTime), 0.0, frameTime * MaxVelocityPerMs)
  }

  /**
   * After one step a component lies in [0, 0.03 frameTime], and is 0 when the
   * frame took no time. A held key adds 0.001 frameTime while that stays
   * under the cap; a released key brings any speed up to 10 frameTime to 0.
   */
  lemma AccelerateBounds(speed: real, pressed: bool, frameTime: real)
    ensures var r := Accelerate(speed, pressed, frameTime);
      && (frameTime >= 0.0 ==> 0.0 <= r <= MaxVelocityPerMs * frameTime)
      && (frameTime == 0.0 ==> r == 0.0)
      && (pressed && 0.0 <= speed && speed + Acceleration * frameTime <= MaxVelocityPerMs * frameTime
          ==> r == speed + Acceleration * frameTime)
      && (!pressed && frameTime >= 0.0 && speed <= 10.0 * frameTime ==> r == 0.0)
  {
    var cap := frameTime * MaxVelocityPerMs;
    assert cap == MaxVelocityPerMs * frameTime;
    if frameTime >= 0.0 {
      assert cap >= 0.0;
    }
  }

  class Velocity3D {
    var forward: real
    var backward: real
    var leftward: real
    var rightward: real
    var upward: real
    var downward: real

    constructor ()
      ensures forward == backward == leftward == rightward == upward == downward == 0.0
    {
      forward, backward, leftward, rightward, upward, downward := 0.0, 0.0, 0.0, 0.0, 0.0, 0.0;
    }

    /** The net speed along one axis never exceeds either of its two non-negative components. */
    function NetForward(): (r: real)
      reads this
      ensures 0.0 <= forward && 0.0 <= backward ==> -backward <= r <= forward
    {
      forward - backward
    }

    /** The net speed along one axis never exceeds either of its two non-negative components. */
    function NetUpward(): (r: real)
      reads this
      ensures 0.0 <= upward && 0.0 <= downward ==> -downward <= r <= upward
    {
      upward - downward
    }

    /** The net speed along one axis never exceeds either of its two non-negative components. */
    function NetRightward(): (r: real)
      reads this
      ensures 0.0 <= rightward && 0.0 <= leftward ==> -leftward <= r <= rightward
    {
      rightward - leftward
    }

    /** Every component follows its own key only; the three net speeds stay within one frame's maximum. */
    method Update(frameTime: real, input: MovementInput)
      modifies this
      ensures forward == Accelerate(old(forward), input.forward, frameTime)
      ensures backward == Accelerate(old(backward), input.backward, frameTime)
      ensures leftward == Accelerate(old(leftward), input.leftward, frameTime)
      ensures rightward == Accelerate(old(rightward), input.rightward, frameTime)
      ensures upward == Accelerate(old(upward), input.upward, frameTime)
      ensures downward == Accelerate(old(downward), input.downward, frameTime)
      ensures frameTime >= 0.0 ==>
        && -MaxVelocityPerMs * frameTime <= NetForward() <= MaxVelocityPerMs * frameTime
        && -MaxVelocityPerMs * frameTime <= NetRightward() <= MaxVelocityPerMs * frameTime
        && -MaxVelocityPerMs * frameTime <= NetUpward() <= MaxVelocityPerMs * frameTime
      ensures frameTime == 0.0 ==> NetForward() == NetRightward() == NetUpward() == 0.0
    {
      forward := Step(forward, input.forward, frameTime);
      backward := Step(backward, input.backward, frameTime);
      leftward := Step(leftward, input.leftward, frameTime);
      rightward := Step(rightward, input.rightward, frameTime);
      upward := Step(upward, input.upward, frameTime);
      downward := Step(downward, input.downward, frameTime);

      var maxVelocity := frameTime * MaxVelocityPerMs;

      forward := Clamp(forward, 0.0, maxVelocity);
      backward := Clamp(backward, 0.0, maxVelocity);
      leftward := Clamp(leftward, 0.0, maxVelocity);
      rightward := Clamp(rightward, 0.0, maxVelocity);
      upward := Clamp(upward, 0.0, maxVelocity);
      downward := Clamp(downward, 0.0, maxVelocity);
      NetSpeedBounded(old(forward), old(backward), input.forward, input.backward, frameTime);
      NetSpeedBounded(old(rightward), old(leftward), input.rightward, input.leftward, frameTime);
      NetSpeedBounded(old(upward), old(downward), input.upward, input.downward, frameTime);
    }
  }

  /**
   * The net speed of two opposed components after a step, each within one
   * frame's maximum, is within that maximum either way, and is 0 when the
   * frame took no time.
   */
  lemma NetSpeedBounded(a: real, b: real, pressedA: bool, pressedB: bool, frameTime: real)
    ensures var net := Accelerate(a, pressedA, frameTime) - Accelerate(b, pressedB, frameTime);
      && (frameTime >= 0.0 ==> -MaxVelocityPerMs * frameTime <= net <= MaxVelocityPerMs * frameTime)
      && (frameTime == 0.0 ==> net == 0.0)
  {
    AccelerateBounds(a, pressedA, frameTime);
    AccelerateBounds(b, pressedB, frameTime);
  }
}
