/**
 * `Font`: a bitmap font of the 95 printable ASCII glyphs (' ' to '~'). Its
 * metrics file has one line per glyph ending in three numbers (left and right
 * texture coordinates, pixel width); text is laid out as one textured quad
 * (six vertices) per glyph, advancing a pen from left to right.
 */
module FontModel {
  import opened Wrappers
  import opened TextParsing
  import opened Vertices

  /** `FontType`: a glyph's texture span and width; a fresh array holds all-zero entries. */
  datatype FontType = FontType(left: real, right: real, size: int)

  const EmptyFont: FontType := FontType(0.0, 0.0, 0)

  /** `new FontType[95]`: one slot per printable ASCII character. */
  const GlyphCount: nat := 95

  /** `Coordinate2D<float>`: a pen position, passed by reference. */
  class Coordinate2D {
    var x: real
    var y: real

    constructor (x: real, y: real)
      ensures this.x == x && this.y == y
    {
      this.x := x;
      this.y := y;
    }
  }

  /**
   * The glyph index of a character, `character - 32`: a space is glyph 0, and
   * exactly the printable ASCII characters fall in the 95 slots of the table.
   */
  function Letter(c: char): (glyph: int)
    ensures glyph == 0 <==> c == ' '
    ensures 0 <= glyph < 95 <==> ' ' <= c <= '~'
  {
    c as int - 32
  }

  /**
   * The two triangles of a glyph with its top-left corner at (x, y): each
   * corner's texture coordinate is the matching corner of the glyph's span.
   */
  function GlyphQuad(x: real, y: real, height: real, f: FontType): (q: seq<PositionTextureVertex>)
    ensures |q| == 6 && q[3] == q[0] && q[5] == q[1]
    ensures forall k :: 0 <= k < 6 ==> q[k].z == 0.0
    ensures forall k :: 0 <= k < 6 ==>
      (q[k].x == x && q[k].tu == f.left) || (q[k].x == x + f.size as real && q[k].tu == f.right)
    ensures forall k :: 0 <= k < 6 ==>
      (q[k].y == y && q[k].tv == 0.0) || (q[k].y == y - height && q[k].tv == 1.0)
  {
    var right := x + f.size as real;
    var bottom := y - height;
    [PositionTextureVertex(x, y, 0.0, f.left, 0.0),
     PositionTextureVertex(right, bottom, 0.0, f.right, 1.0),
     PositionTextureVertex(x, bottom, 0.0, f.left, 1.0),
     PositionTextureVertex(x, y, 0.0, f.left, 0.0),
     PositionTextureVertex(right, y, 0.0, f.right, 0.0),
     PositionTextureVertex(right, bottom, 0.0, f.right, 1.0)]
  }

  /**
   * The outcome of laying out text: the vertices appended, where the pen ends,
   * and whether every glyph index was in range (otherwise the array access
   * throws, leaving what had been appended and the pen where it was).
   */
  datatype Layout = Layout(vertices: seq<PositionTextureVertex>, penX: real, complete: bool)

  /** Laying out `s[i..]` with the pen at `x`. */
  function LayoutFrom(s: string, i: nat, x: real, y: real, height: real, fonts: seq<FontType>): Layout
    requires i <= |s|
    decreases |s| - i
  {
    if i == |s| then Layout([], x, true)
    else
      var letter := Letter(s[i]);
      if letter == 0 then LayoutFrom(s, i + 1, x + 3.0, y, height, fonts)
      else if !(0 <= letter < |fonts|) then Layout([], x, false)
      else
        var rest := LayoutFrom(s, i + 1, x + fonts[letter].size as real + 1.0, y, height, fonts);
        Layout(GlyphQuad(x, y, height, fonts[letter]) + rest.vertices, rest.penX, rest.complete)
  }

  /** The number of characters in `s[i..]` that are not spaces. */
  function NonSpaceCount(s: string, i: nat): nat
    requires i <= |s|
    decreases |s| - i
  {
    if i == |s| then 0 else (if Letter(s[i]) == 0 then 0 else 1) + NonSpaceCount(s, i + 1)
  }

  predicate HasGlyph(c: char, fonts: seq<FontType>)
  {
    Letter(c) == 0 || 0 <= Letter(c) < |fonts|
  }

  /** A complete layout has exactly six vertices per non-space character and none for a space. */
  lemma {:induction false} SixVerticesPerGlyph(s: string, i: nat, x: real, y: real, height: real, fonts: seq<FontType>)
    requires i <= |s|
    requires LayoutFrom(s, i, x, y, height, fonts).complete
    ensures |LayoutFrom(s, i, x, y, height, fonts).vertices| == 6 * NonSpaceCount(s, i)
    decreases |s| - i
  {
    if i < |s| {
      var letter := Letter(s[i]);
      if letter == 0 {
        SixVerticesPerGlyph(s, i + 1, x + 3.0, y, height, fonts);
      } else {
        SixVerticesPerGlyph(s, i + 1, x + fonts[letter].size as real + 1.0, y, height, fonts);
      }
    }
  }

  /** The layout completes exactly when every character is a space or has a glyph slot. */
  lemma {:induction false} CompleteIffAllGlyphsExist(s: string, i: nat, x: real, y: real, height: real, fonts: seq<FontType>)
    requires i <= |s|
    ensures LayoutFrom(s, i, x, y, height, fonts).complete <==> forall k :: i <= k < |s| ==> HasGlyph(s[k], fonts)
    decreases |s| - i
  {
    if i < |s| {
      var letter := Letter(s[i]);
      if letter == 0 {
        CompleteIffAllGlyphsExist(s, i + 1, x + 3.0, y, height, fonts);
      } else if 0 <= letter < |fonts| {
        CompleteIffAllGlyphsExist(s, i + 1, x + fonts[letter].size as real + 1.0, y, height, fonts);
      }
    }
  }

  /** Every vertex lies in the z = 0 plane, on the pen's line or one glyph height below it. */
  lemma {:induction false} VerticesOnTheLine(s: string, i: nat, x: real, y: real, height: real, fonts: seq<FontType>)
    requires i <= |s|
    ensures forall v :: v in LayoutFrom(s, i, x, y, height, fonts).vertices ==>
      v.z == 0.0 && (v.y == y || v.y == y - height)
    decreases |s| - i
  {
    if i < |s| {
      var letter := Letter(s[i]);
      if letter == 0 {
        VerticesOnTheLine(s, i + 1, x + 3.0, y, height, fonts);
      } else if 0 <= letter < |fonts| {
        VerticesOnTheLine(s, i + 1, x + fonts[letter].size as real + 1.0, y, height, fonts);
      }
    }
  }

  /** With non-negative glyph widths the pen never moves left. */
  lemma {:induction false} PenMovesRight(s: string, i: nat, x: real, y: real, height: real, fonts: seq<FontType>)
    requires i <= |s|
    requires forall k :: 0 <= k < |fonts| ==> fonts[k].size >= 0
    ensures LayoutFrom(s, i, x, y, height, fonts).penX >= x
    decreases |s| - i
  {
    if i < |s| {
      var letter := Letter(s[i]);
      if letter == 0 {
        PenMovesRight(s, i + 1, x + 3.0, y, height, fonts);
      } else if 0 <= letter < |fonts| {
        PenMovesRight(s, i + 1, x + fonts[letter].size as real + 1.0, y, height, fonts);
      }
    }
  }

  /**
   * One metrics line: its last three space-separated tokens parsed as left,
   * right and size; `None` when there are fewer than three or one does not parse.
   */
  function FontEntry(line: string, parseFloat: string -> Option<real>, parseInt: string -> Option<int>): (entry: Option<FontType>)
    ensures entry.Some? ==> |SplitNonEmpty(line, ' ')| >= 3
    ensures entry.Some? ==> var t := SplitNonEmpty(line, ' ');
      && parseFloat(t[|t| - 3]) == Some(entry.value.left)
      && parseFloat(t[|t| - 2]) == Some(entry.value.right)
      && parseInt(t[|t| - 1]) == Some(entry.value.size)
    ensures entry.None? ==> var t := SplitNonEmpty(line, ' ');
      || |t| < 3 || parseFloat(t[|t| - 3]).None? || parseFloat(t[|t| - 2]).None? || parseInt(t[|t| - 1]).None?
  {
    var t := SplitNonEmpty(line, ' ');
    if |t| < 3 then None
    else
      match (parseFloat(t[|t| - 3]), parseFloat(t[|t| - 2]), parseInt(t[|t| - 1]))
      case (Some(left), Some(right), Some(size)) => Some(FontType(left, right, size))
      case _ => None
  }

  /**
   * How many lines from `k` on are stored before the loop stops: at the end of
   * the file, at a line that does not parse, or when the 96th line finds no slot.
   */
  function LoadedFrom(lines: seq<string>, k: nat, parseFloat: string -> Option<real>, parseInt: string -> Option<int>): (n: nat)
    requires k <= |lines| && k <= GlyphCount
    ensures k <= n <= |lines| && n <= GlyphCount
    ensures forall j :: k <= j < n ==> FontEntry(lines[j], parseFloat, parseInt).Some?
    ensures n < |lines| ==> n == GlyphCount || FontEntry(lines[n], parseFloat, parseInt).None?
    decreases |lines| - k
  {
    if k == |lines| || k == GlyphCount || FontEntry(lines[k], parseFloat, parseInt).None? then k
    else LoadedFrom(lines, k + 1, parseFloat, parseInt)
  }

  /**
   * The loop of `LoadFontData` over a table of empty slots: line n goes into
   * slot n, stopping at the first line that fails or when the table is full.
   */
  method FillGlyphs(table: array<FontType>, lines: seq<string>, parseFloat: string -> Option<real>, parseInt: string -> Option<int>)
    returns (ok: bool)
    requires table.Length == GlyphCount
    requires forall j :: 0 <= j < GlyphCount ==> table[j] == EmptyFont
    modifies table
    ensures var n := LoadedFrom(lines, 0, parseFloat, parseInt);
      && (ok <==> n == |lines|)
      && (forall j :: 0 <= j < n ==> table[j] == FontEntry(lines[j], parseFloat, parseInt).value)
      && (forall j :: n <= j < GlyphCount ==> table[j] == EmptyFont)
  {
    ghost var stop := LoadedFrom(lines, 0, parseFloat, parseInt);
    var index := 0;
    ok := true;
    while index < |lines|
      invariant 0 <= index <= stop
      invariant ok && LoadedFrom(lines, index, parseFloat, parseInt) == stop
      invariant forall j :: 0 <= j < index ==> FontEntry(lines[j], parseFloat, parseInt) == Some(table[j])
      invariant forall j :: index <= j < GlyphCount ==> table[j] == EmptyFont
      decreases |lines| - index
    {
      var entry := FontEntry(lines[index], parseFloat, parseInt);
      if index == GlyphCount || entry.None? {
        return false;
      }
      table[index] := entry.value;
      index := index + 1;
    }
  }

  class Font {
    var spaceSize: int
    var height: real
    var fonts: array<FontType>

    /** Before `LoadFontData` there is no glyph table, so every non-space glyph access fails. */
    constructor ()
      ensures fonts.Length == 0
    {
      spaceSize, height := 0, 0.0;
      fonts := new FontType[0];
    }

    /**
     * Stores the height and space size, loads the metrics, then the texture
     * (always attempted), and ANDs the two results. The glyph table is the one
     * `LoadFontData` builds. `file` is the metrics file's lines, `None` when it
     * cannot be read; `textureLoaded` is the texture loader's result.
     */
    method Initialise(height: real, spaceSize: int, file: Option<seq<string>>,
                      parseFloat: string -> Option<real>, parseInt: string -> Option<int>,
                      textureLoaded: bool) returns (result: bool)
      modifies this
      ensures this.height == height && this.spaceSize == spaceSize
      ensures fresh(fonts) && fonts.Length == GlyphCount
      ensures result <==> textureLoaded && file.Some? && LoadedFrom(file.value, 0, parseFloat, parseInt) == |file.value|
      ensures file.None? ==> forall j :: 0 <= j < GlyphCount ==> fonts[j] == EmptyFont
      ensures file.Some? ==>
        var n := LoadedFrom(file.value, 0, parseFloat, parseInt);
        && (forall j :: 0 <= j < n ==> fonts[j] == FontEntry(file.value[j], parseFloat, parseInt).value)
        && (forall j :: n <= j < GlyphCount ==> fonts[j] == EmptyFont)
    {
      this.height := height;
      this.spaceSize := spaceSize;
      result := LoadFontData(file, parseFloat, parseInt);
      result := result && textureLoaded;
    }

    /** Fills a fresh 95-slot table, line n into slot n, stopping at the first line that fails. */
    method LoadFontData(file: Option<seq<string>>, parseFloat: string -> Option<real>, parseInt: string -> Option<int>)
      returns (ok: bool)
      modifies this
      ensures height == old(height) && spaceSize == old(spaceSize)
      ensures fresh(fonts) && fonts.Length == GlyphCount
      ensures file.None? ==> !ok && forall j :: 0 <= j < GlyphCount ==> fonts[j] == EmptyFont
      ensures file.Some? ==>
        var n := LoadedFrom(file.value, 0, parseFloat, parseInt);
        && (ok <==> n == |file.value|)
        && (forall j :: 0 <= j < n ==> fonts[j] == FontEntry(file.value[j], parseFloat, parseInt).value)
        && (forall j :: n <= j < GlyphCount ==> fonts[j] == EmptyFont)
    {
      var table := new FontType[GlyphCount](_ => EmptyFont);
      fonts := table;
      if file.None? {
        return false;
      }
      ok := FillGlyphs(table, file.value, parseFloat, parseInt);
    }

    /**
     * The inner `BuildVertexArray`: appends the six vertices of glyph `letter`
     * at the pen, or fails on the first access when there is no such slot.
     */
    method BuildGlyph(vertices: seq<PositionTextureVertex>, letter: int, position: Coordinate2D)
      returns (extended: seq<PositionTextureVertex>, ok: bool)
      ensures ok <==> 0 <= letter < fonts.Length
      ensures ok ==> extended == vertices + GlyphQuad(position.x, position.y, height, fonts[letter])
      ensures !ok ==> extended == vertices
    {
      if !(0 <= letter < fonts.Length) {
        return vertices, false;
      }
      extended := vertices + GlyphQuad(position.x, position.y, height, fonts[letter]);
      ok := true;
    }

    /**
     * The outer `BuildVertexArray`: a space moves the pen 3 to the right, any
     * other character draws its glyph and moves the pen by its width plus 1.
     * The caller's pen object is moved; its Y never changes.
     */
    method BuildVertexArray(sentence: string, position: Coordinate2D)
      returns (vertices: seq<PositionTextureVertex>, ok: bool)
      modifies position
      ensures position.y == old(position.y)
      ensures Layout(vertices, position.x, ok) == LayoutFrom(sentence, 0, old(position.x), position.y, height, fonts[..])
    {
      ghost var whole := LayoutFrom(sentence, 0, position.x, position.y, height, fonts[..]);
      vertices := [];
      ok := true;
      var i := 0;
      assert Prepend([], whole) == whole;
      while i < |sentence| && ok
        invariant 0 <= i <= |sentence|
        invariant position.y == old(position.y)
        invariant ok ==> Prepend(vertices, LayoutFrom(sentence, i, position.x, position.y, height, fonts[..])) == whole
        invariant !ok ==> Layout(vertices, position.x, false) == whole
        decreases |sentence| - i
      {
        var letter := Letter(sentence[i]);
        if letter == 0 {
          position.x := position.x + 3.0;
        } else {
          ghost var before := vertices;
          ghost var x := position.x;
          vertices, ok := BuildGlyph(vertices, letter, position);
          if ok {
            var rest := LayoutFrom(sentence, i + 1, x + fonts[letter].size as real + 1.0, position.y, height, fonts[..]);
            PrependTwice(before, GlyphQuad(x, position.y, height, fonts[letter]), rest);
            position.x := position.x + fonts[letter].size as real + 1.0;
          } else {
            assert before + [] == before;
          }
        }
        i := i + 1;
      }
      if ok {
        assert vertices + [] == vertices;
      }
    }
  }

  /** Appends `vertices` in front of a layout's output. */
  function Prepend(vertices: seq<PositionTextureVertex>, rest: Layout): Layout
  {
    Layout(vertices + rest.vertices, rest.penX, rest.complete)
  }

  lemma PrependTwice(a: seq<PositionTextureVertex>, b: seq<PositionTextureVertex>, rest: Layout)
    ensures Prepend(a, Prepend(b, rest)) == Prepend(a + b, rest)
  {
    assert a + (b + rest.vertices) == (a + b) + rest.vertices;
  }
}
