/** `Colour`: a mutable RGBA value that can be set from a small table of named colours. */
module Colours {

  /**
   * The `NamedColour` enum. A C# enum variable can hold any integer, so a value
   * outside the five names is `Unnamed`; it takes the `default` branch.
   */
  datatype NamedColour = Black | Green | Yellow | Red | White | Unnamed(code: int)

  datatype Rgb = Rgb(red: real, green: real, blue: real)

  /** The switch of `SetByName`, applied after Red, Green and Blue were zeroed. */
  function RgbOf(name: NamedColour): (c: Rgb)
    ensures c.red in {0.0, 1.0} && c.green in {0.0, 1.0} && c.blue in {0.0, 1.0}
    ensures c.blue == 1.0 <==> name == White
    ensures c.red == 1.0 <==> name in {Yellow, Red, White}
    ensures c.green == 1.0 <==> name in {Green, Yellow, White}
  {
    match name
    case Green => Rgb(0.0, 1.0, 0.0)
    case Yellow => Rgb(1.0, 1.0, 0.0)
    case Red => Rgb(1.0, 0.0, 0.0)
    case White => Rgb(1.0, 1.0, 1.0)
    case _ => Rgb(0.0, 0.0, 0.0)
  }

  class Colour {
    var alpha: real
    var red: real
    var green: real
    var blue: real

    function Components(): Rgb
      reads this
    {
      Rgb(red, green, blue)
    }

    /** `new Colour()`: every property keeps its default, 0. */
    constructor Default()
      ensures alpha == 0.0 && Components() == Rgb(0.0, 0.0, 0.0)
    {
      alpha, red, green, blue := 0.0, 0.0, 0.0, 0.0;
    }

    /** `new Colour(red, green, blue)` stores the three components unchanged. */
    constructor FromComponents(red: real, green: real, blue: real)
      ensures alpha == 0.0 && Components() == Rgb(red, green, blue)
    {
      this.alpha := 0.0;
      this.red, this.green, this.blue := red, green, blue;
    }

    /** `new Colour(name)`. */
    constructor FromName(name: NamedColour)
      ensures alpha == 0.0 && Components() == RgbOf(name)
    {
      alpha, red, green, blue := 0.0, 0.0, 0.0, 0.0;
      new;
      SetByName(name);
    }

    /** `ChangeTo` only forwards to `SetByName`. */
    method ChangeTo(name: NamedColour)
      modifies this
      ensures Components() == RgbOf(name)
      ensures alpha == old(alpha)
    {
      SetByName(name);
    }

    /** Zeroes the three colour components, then sets those the name calls for. Alpha is untouched. */
    method SetByName(name: NamedColour)
      modifies this
      ensures Components() == RgbOf(name)
      ensures alpha == old(alpha)
    {
      red := 0.0;
      green := 0.0;
      blue := 0.0;
      match name {
        case Green =>
          green := 1.0;
        case Yellow =>
          red := 1.0;
          green := 1.0;
        case Red =>
          red := 1.0;
        case White =>
          red := 1.0;
          green := 1.0;
          blue := 1.0;
        case _ =>
      }
    }
  }

  /** Black and every unlisted value give (0, 0, 0). */
  lemma UnlistedIsBlack(name: NamedColour)
    requires name.Black? || name.Unnamed?
    ensures RgbOf(name) == Rgb(0.0, 0.0, 0.0)
  {
  }

  /**
   * `ChangeTo` does not depend on the components it overwrites: from any two
   * starting colours it reaches the same result, so repeating it changes nothing.
   */
  method ChangeToForgetsPreviousColour(a: Colour, b: Colour, name: NamedColour)
    modifies a, b
    ensures a.Components() == b.Components()
  {
    a.ChangeTo(name);
    b.ChangeTo(name);
    var before := a.Components();
    a.ChangeTo(name);
    assert a.Components() == before;
  }
}
