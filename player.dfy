/**
 * `Player`: the first-person controller. Each frame it updates its speeds and
 * look direction from the input, jumps or falls, turns (pitch clamped to
 * [-90, 90], heading locked to [0, 360]) and moves.
 */
module PlayerModel {
  import opened MathUtil
  import opened Movement
  import opened Velocity
  import opened LookDirection

  const JumpVelocity: real := 1.0
  const Gravity: real := 0.05
  const TerminalVelocity: real := -10.0

  /** The jump test followed by the gravity step of `Update`. */
  function NextVerticalVelocity(v: real, jump: bool, heightDifference: real): (r: real)
    ensures -10.05 <= v <= 1.0 ==> -10.05 <= r <= 1.0
    ensures r > v ==> jump && heightDifference < 0.1
    ensures jump && heightDifference < 0.1 ==> r == JumpVelocity - Gravity
    ensures !(jump && heightDifference < 0.1) && v > TerminalVelocity ==> r == v - Gravity
    ensures !(jump && heightDifference < 0.1) && v <= TerminalVelocity ==> r == v
  {
    var afterJump := if jump && heightDifference < 0.1 then JumpVelocity else v;
    if afterJump > TerminalVelocity then afterJump - Gravity else afterJump
  }

  /** Starting at rest, the vertical velocity stays in [-10.05, 1] over any run of frames. */
  lemma {:induction false} VerticalVelocityStaysBounded(jumps: seq<bool>, heightDifferences: seq<real>, v: real)
    requires |jumps| == |heightDifferences|
    requires -10.05 <= v <= 1.0
    ensures -10.05 <= VerticalVelocityAfter(v, jumps, heightDifferences) <= 1.0
    decreases |jumps|
  {
    if |jumps| > 0 {
      var next := NextVerticalVelocity(v, jumps[0], heightDifferences[0]);
      VerticalVelocityStaysBounded(jumps[1..], heightDifferences[1..], next);
    }
  }

  /** The vertical velocity after a run of frames. */
  function VerticalVelocityAfter(v: real, jumps: seq<bool>, heightDifferences: seq<real>): real
    requires |jumps| == |heightDifferences|
    decreases |jumps|
  {
    if |jumps| == 0 then v
    else VerticalVelocityAfter(NextVerticalVelocity(v, jumps[0], heightDifferences[0]), jumps[1..], heightDifferences[1..])
  }

  class Player {
    const velocity: Velocity3D
    const lookDirection: LookDirection2D
    var verticalVelocity: real
    var position: Coordinate3D
    var rotation: Coordinate3D

    /** The constructor plus the caller's object initialiser that sets `Position` and `Rotation`. */
    constructor (position: Coordinate3D, rotation: Coordinate3D)
      ensures fresh(velocity) && fresh(lookDirection)
      ensures verticalVelocity == 0.0 && this.position == position && this.rotation == rotation
    {
      velocity := new Velocity3D();
      lookDirection := new LookDirection2D();
      verticalVelocity := 0.0;
      this.position := position;
      this.rotation := rotation;
    }

    /**
     * One frame. `horizontalMove` stands for the sine/cosine movement and its
     * speed cap: it maps the new heading, the net forward and rightward speeds
     * and the sprint flag to the (X, Z) displacement.
     */
    method Update(frameTime: real, heightDifference: real, input: MovementInput,
                  horizontalMove: (real, real, real, bool) -> (real, real))
      modifies this, velocity, lookDirection
      ensures verticalVelocity == NextVerticalVelocity(old(verticalVelocity), input.jump, heightDifference)
      ensures lookDirection.right == HalveTowardZero(input.lookRight)
      ensures lookDirection.down == HalveTowardZero(input.lookDown)
      ensures velocity.forward == Accelerate(old(velocity.forward), input.forward, frameTime)
      ensures velocity.backward == Accelerate(old(velocity.backward), input.backward, frameTime)
      ensures velocity.leftward == Accelerate(old(velocity.leftward), input.leftward, frameTime)
      ensures velocity.rightward == Accelerate(old(velocity.rightward), input.rightward, frameTime)
      ensures velocity.upward == Accelerate(old(velocity.upward), input.upward, frameTime)
      ensures velocity.downward == Accelerate(old(velocity.downward), input.downward, frameTime)
      ensures rotation.x == Clamp(old(rotation.x) + lookDirection.down as real, -90.0, 90.0)
      ensures rotation.y == RotationLocked(old(rotation.y) + lookDirection.right as real)
      ensures rotation.z == old(rotation.z)
      ensures -90.0 <= rotation.x <= 90.0 && 0.0 <= rotation.y <= 360.0
      ensures position.y == old(position.y) + verticalVelocity
      ensures (position.x - old(position.x), position.z - old(position.z))
              == horizontalMove(rotation.y, velocity.NetForward(), velocity.NetRightward(), input.sprint)
    {
      velocity.Update(frameTime, input);
      lookDirection.Update(frameTime, input);

      if input.jump && heightDifference < 0.1 {
        verticalVelocity := JumpVelocity;
      }

      if verticalVelocity > TerminalVelocity {
        verticalVelocity := verticalVelocity - Gravity;
      }

      var pitch := Clamp(rotation.x + lookDirection.down as real, -90.0, 90.0);
      var heading := RotationLock(rotation.y + lookDirection.right as real);
      RotationLockRange(rotation.y + lookDirection.right as real);
      rotation := rotation.(x := pitch, y := heading);

      var move := horizontalMove(rotation.y, velocity.NetForward(), velocity.NetRightward(), input.sprint);
      position := Coordinate3D(position.x + move.0, position.y + verticalVelocity, position.z + move.1);
    }
  }
}
