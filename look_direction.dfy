/** `LookDirection2D`: the per-frame turn, half of the mouse movement in each axis. */
module LookDirection {
  import opened Movement

  /** C#'s `n / 2` on `int`: the quotient is truncated toward zero, not floored. */
  function HalveTowardZero(n: int): (r: int)
    ensures n >= 0 ==> 0 <= 2 * r <= n < 2 * r + 2
    ensures n < 0 ==> 2 * r - 2 < n <= 2 * r <= 0
  {
    if n >= 0 then n / 2 else -((-n) / 2)
  }

  /** Truncation differs from Dafny's Euclidean division on odd negative numbers. */
  lemma HalveTowardZeroOfMinusThree()
    ensures HalveTowardZero(-3) == -1
    ensures -3 / 2 == -2
  {
  }

  /** Halving commutes with negation, as truncation toward zero does. */
  lemma HalveTowardZeroIsOdd(n: int)
    ensures HalveTowardZero(-n) == -HalveTowardZero(n)
  {
  }

  class LookDirection2D {
    var right: int
    var down: int

    constructor ()
      ensures right == 0 && down == 0
    {
      right, down := 0, 0;
    }

    /** Overwrites both turns from this frame's mouse deltas; the frame time is not used. */
    method Update(frameTime: real, input: MovementInput)
      modifies this
      ensures right == HalveTowardZero(input.lookRight)
      ensures down == HalveTowardZero(input.lookDown)
    {
      right := HalveTowardZero(input.lookRight);
      down := HalveTowardZero(input.lookDown);
    }
  }

  /** Two look directions with different histories and frame times agree after the same input. */
  method UpdateForgetsHistory(a: LookDirection2D, b: LookDirection2D, t1: real, t2: real, input: MovementInput)
    modifies a, b
    ensures a.right == b.right && a.down == b.down
  {
    a.Update(t1, input);
    b.Update(t2, input);
  }
}
