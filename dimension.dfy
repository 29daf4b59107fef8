/** `Dimension`: a width and height in pixels, with the aspect ratio derived from them. */
module Dimensions {

  /** The two fields of a display mode that `SameSizeAs` compares against. */
  datatype ModeDescription = ModeDescription(width: int, height: int)

  class Dimension {
    var width: int
    var height: int

    /** `new Dimension()`: both sizes keep their default, 0. */
    constructor Empty()
      ensures width == 0 && height == 0
    {
      width, height := 0, 0;
    }

    /** `new Dimension(width, height)` stores both sizes. */
    constructor (width: int, height: int)
      ensures this.width == width && this.height == height
    {
      this.width, this.height := width, height;
    }

    /** `AspectRatio`: width over height, or 0 when the height is not positive. */
    function AspectRatio(): (r: real)
      reads this
      ensures height <= 0 ==> r == 0.0
      ensures height > 0 ==> r * height as real == width as real
      ensures height > 0 ==> (r > 0.0 <==> width > 0)
    {
      if height > 0 then width as real / height as real else 0.0
    }

    /** `SameSizeAs`: true exactly when both the width and the height match. */
    function SameSizeAs(mode: ModeDescription): bool
      reads this
    {
      width == mode.width && height == mode.height
    }
  }

  /**
   * Two dimensions that match the same display mode have the same aspect
   * ratio, so the mode a caller settles on fixes the projection's ratio.
   */
  lemma SameSizeSameAspect(d: Dimension, e: Dimension, mode: ModeDescription)
    requires d.SameSizeAs(mode) && e.SameSizeAs(mode)
    ensures d.AspectRatio() == e.AspectRatio()
  {
  }

  /** Scaling both sides by the same positive factor keeps the aspect ratio. */
  method AspectRatioIgnoresScale(w: int, h: int, k: int) returns (a: real, b: real)
    requires h > 0 && k > 0
    ensures a == b
  {
    var d := new Dimension(w, h);
    var e := new Dimension(w * k, h * k);
    a := d.AspectRatio();
    b := e.AspectRatio();
    assert b * (h * k) as real == (w * k) as real;
    assert (b * h as real) * k as real == (w as real) * k as real;
  }
}
