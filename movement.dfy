/**
 * `MovementInput`: one frame of player input, with the fields its callers
 * actually read and write (keyboard flags, the mouse deltas, jump and sprint).
 */
module Movement {

  datatype MovementInput = MovementInput(
    forward: bool,
    backward: bool,
    upward: bool,
    downward: bool,
    leftward: bool,
    rightward: bool,
    lookRight: int,
    lookDown: int,
    jump: bool,
    sprint: bool)

  /** A position or rotation triple (`Coordinate3D<float>`). */
  datatype Coordinate3D = Coordinate3D(x: real, y: real, z: real)
}
