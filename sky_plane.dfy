/**
 * `SkyPlane`: a square cloud plane bent into a paraboloid dome. A
 * (res + 1) x (res + 1) grid of points is laid out row by row, each quad of
 * the grid becomes two triangles of the vertex buffer, and the cloud texture
 * scrolls by a translation that wraps around at 1.
 */
module SkyPlaneModel {
  import opened Vertices
  import opened RowMajor

  /** The parameters of `InitializeSkyPlane`: resolution, width, top, bottom and texture repeat. */
  datatype Shape = Shape(res: int, width: real, top: real, bottom: real, repeat: int)

  /** The shapes the grid formulas are defined for: a zero resolution or width would divide by zero. */
  type ValidShape = s: Shape | s.res > 0 && s.width != 0.0 witness Shape(1, 1.0, 0.0, 0.0, 0)

  /** The shape `Initialze` builds: 50 x 50 quads over a width of 10, from 0.5 at the top to 0 at the bottom, texture repeated twice. */
  const SkyShape: ValidShape := Shape(50, 10.0, 0.5, 0.0, 2)

  const ZeroVertex: PositionTextureVertex := PositionTextureVertex(0.0, 0.0, 0.0, 0.0, 0.0)

  /** The height of the dome over (x, z): `top - constant * (x^2 + z^2)` with constant = (top - bottom) / radius^2. */
  function DomeHeight(s: ValidShape, x: real, z: real): real
  {
    var radius := s.width / 2.0;
    var constant := (s.top - s.bottom) / (radius * radius);
    s.top - constant * (x * x + z * z)
  }

  /** Grid point (i, j): position from the plane's corner in steps of width / res, texture in steps of repeat / res. */
  function GridPoint(s: ValidShape, i: int, j: int): PositionTextureVertex
  {
    var quadSize := s.width / s.res as real;
    var textureDelta := s.repeat as real / s.res as real;
    var x := -0.5 * s.width + i as real * quadSize;
    var z := -0.5 * s.width + j as real * quadSize;
    PositionTextureVertex(x, DomeHeight(s, x, z), z, i as real * textureDelta, j as real * textureDelta)
  }

  /** The dome peaks at `top` over the centre and comes down to `bottom` on the circle of radius width / 2. */
  lemma DomeShape(s: ValidShape, x: real, z: real)
    ensures DomeHeight(s, 0.0, 0.0) == s.top
    ensures x * x + z * z == (s.width / 2.0) * (s.width / 2.0) ==> DomeHeight(s, x, z) == s.bottom
  {
    if x * x + z * z == (s.width / 2.0) * (s.width / 2.0) {
      RimHeight(s.top, s.bottom, s.width / 2.0, x * x + z * z);
    }
  }

  /** At squared distance r^2 from the centre the height `top - (top - bottom) / r^2 * d` is `bottom`. */
  lemma RimHeight(top: real, bottom: real, r: real, d: real)
    requires r != 0.0 && d == r * r
    ensures top - (top - bottom) / (r * r) * d == bottom
  {
    assert r * r != 0.0 by {
      if r < 0.0 {
        assert r * r == (-r) * (-r);
      }
    }
  }

  /** For the sky plane itself: the middle point is at the top, the middles of the edges at the bottom. */
  lemma SkyPlaneCentreAndEdges()
    ensures GridPoint(SkyShape, 25, 25).y == SkyShape.top
    ensures GridPoint(SkyShape, 25, 0).y == SkyShape.bottom
    ensures GridPoint(SkyShape, 0, 25).y == SkyShape.bottom
  {
  }

  /** The texture coordinates run from 0 at the first point to `repeat` at the last one. */
  lemma TextureSpansRepeat(s: ValidShape)
    ensures GridPoint(s, 0, 0).tu == 0.0 && GridPoint(s, 0, 0).tv == 0.0
    ensures GridPoint(s, s.res, s.res).tu == s.repeat as real
    ensures GridPoint(s, s.res, s.res).tv == s.repeat as real
  {
  }

  /** Grid points (0, j) .. (i - 1, j) of row j. */
  function RowPoints(s: ValidShape, j: int, i: nat): (row: seq<PositionTextureVertex>)
    ensures |row| == i
  {
    if i == 0 then [] else RowPoints(s, j, i - 1) + [GridPoint(s, i - 1, j)]
  }

  /** The first j full rows of the grid, row after row. */
  function GridRows(s: ValidShape, j: nat): seq<PositionTextureVertex>
  {
    if j == 0 then [] else GridRows(s, j - 1) + RowPoints(s, j - 1, s.res + 1)
  }

  /** Point c of a row is grid point (c, j). */
  lemma {:induction false} RowPointsAt(s: ValidShape, j: int, i: nat, c: int)
    requires 0 <= c < i
    ensures RowPoints(s, j, i)[c] == GridPoint(s, c, j)
  {
    if c < i - 1 {
      RowPointsAt(s, j, i - 1, c);
    }
  }

  /** j rows hold j (res + 1) points. */
  lemma {:induction false} GridRowsLength(s: ValidShape, j: nat)
    ensures |GridRows(s, j)| == j * (s.res + 1)
  {
    if j > 0 {
      GridRowsLength(s, j - 1);
      RowAfterRow(s.res + 1, j, j - 1);
    }
  }

  /** Grid point (i, j) sits at slot j * (res + 1) + i of the grid. */
  lemma {:induction false} GridRowsAt(s: ValidShape, rows: nat, i: int, j: int)
    requires 0 <= i <= s.res && 0 <= j < rows
    ensures 0 <= Index(s.res + 1, i, j) < |GridRows(s, rows)|
    ensures GridRows(s, rows)[Index(s.res + 1, i, j)] == GridPoint(s, i, j)
    decreases rows
  {
    var n := s.res + 1;
    var previous := GridRows(s, rows - 1);
    GridRowsLength(s, rows - 1);
    IndexBelowArea(n, rows, i, j);
    if j < rows - 1 {
      GridRowsAt(s, rows - 1, i, j);
      IndexBelowArea(n, rows - 1, i, j);
    } else {
      assert Index(n, i, j) == |previous| + i;
      RowPointsAt(s, j, n, i);
    }
  }

  /** `g` is the whole (res + 1) x (res + 1) grid of shape s, point (i, j) at slot j * (res + 1) + i. */
  ghost predicate IsGrid(s: ValidShape, g: seq<PositionTextureVertex>)
  {
    |g| == (s.res + 1) * (s.res + 1) &&
    forall i, j :: 0 <= i <= s.res && 0 <= j <= s.res ==> PointAt(s, g, i, j)
  }

  /** Slot j * (res + 1) + i of `g` holds grid point (i, j). */
  ghost predicate PointAt(s: ValidShape, g: seq<PositionTextureVertex>, i: int, j: int)
  {
    0 <= Index(s.res + 1, i, j) < |g| && g[Index(s.res + 1, i, j)] == GridPoint(s, i, j)
  }

  /** The rows of the grid, all res + 1 of them, make up the whole grid. */
  lemma GridRowsIsGrid(s: ValidShape)
    ensures IsGrid(s, GridRows(s, s.res + 1))
  {
    var g := GridRows(s, s.res + 1);
    GridRowsLength(s, s.res + 1);
    assert |g| == (s.res + 1) * (s.res + 1);
    forall i, j | 0 <= i <= s.res && 0 <= j <= s.res
      ensures PointAt(s, g, i, j)
    {
      GridRowsAt(s, s.res + 1, i, j);
    }
  }

  /** The six grid slots cell (i, j) reads: upper left, upper right, bottom left, bottom left, upper right, bottom right. */
  function CellSlots(res: int, i: int, j: int): seq<int>
  {
    var n := res + 1;
    [Index(n, i, j), Index(n, i + 1, j), Index(n, i, j + 1),
     Index(n, i, j + 1), Index(n, i + 1, j), Index(n, i + 1, j + 1)]
  }

  /** Cell (i, j) reads its corner b = j (res + 1) + i, b + 1 and the two a row further on, all inside the (res + 1)^2 grid. */
  lemma CellSlotsInGrid(res: int, i: int, j: int)
    requires 0 <= i < res && 0 <= j < res
    ensures var b, n := Index(res + 1, i, j), res + 1;
      0 <= b && b + n + 1 < n * n &&
      CellSlots(res, i, j) == [b, b + 1, b + n, b + n, b + 1, b + n + 1]
  {
    IndexBelowArea(res + 1, res + 1, i + 1, j + 1);
  }

  /** The grid entry at `slot`; every slot a cell reads is inside the grid, so the fallback is never taken. */
  function At(model: seq<PositionTextureVertex>, slot: int): PositionTextureVertex
  {
    if 0 <= slot < |model| then model[slot] else ZeroVertex
  }

  /** The six vertices of cell (i, j). */
  function CellVertices(model: seq<PositionTextureVertex>, res: int, i: int, j: int): (cell: seq<PositionTextureVertex>)
    ensures |cell| == 6
  {
    var slots := CellSlots(res, i, j);
    [At(model, slots[0]), At(model, slots[1]), At(model, slots[2]),
     At(model, slots[3]), At(model, slots[4]), At(model, slots[5])]
  }

  /** Every cell's six vertices, as one function of the cell. */
  function SkyCells(model: seq<PositionTextureVertex>, res: int): (cell: (int, int) -> seq<PositionTextureVertex>)
    ensures SixEach(cell)
  {
    (i, j) => CellVertices(model, res, i, j)
  }

  /** The cells of the first j rows of res cells, in the order the buffer holds them. */
  function CellRows(model: seq<PositionTextureVertex>, res: nat, j: nat): seq<PositionTextureVertex>
  {
    CellGrid(SkyCells(model, res), res, j)
  }

  /** Vertex m of cell (i, j) is at buffer position 6 (j * res + i) + m and copies grid slot `CellSlots(res, i, j)[m]`. */
  lemma CellRowsAt(model: seq<PositionTextureVertex>, res: nat, rows: nat, i: int, j: int, m: int)
    requires 0 <= i < res && 0 <= j < rows && 0 <= m < 6
    ensures 0 <= 6 * Index(res, i, j) + m < |CellRows(model, res, rows)|
    ensures CellRows(model, res, rows)[6 * Index(res, i, j) + m] == At(model, CellSlots(res, i, j)[m])
  {
    CellGridAt(SkyCells(model, res), res, rows, i, j, m);
  }

  /** `Translation` after one `Frame`: up by 0.0001, back by 1 once past 1. */
  function NextTranslation(t: real): (r: real)
    ensures 0.0 <= t <= 1.0 ==> 0.0 <= r <= 1.0
    ensures r == t + 0.0001 || r == t + 0.0001 - 1.0
  {
    var r := t + 0.0001;
    if r > 1.0 then r - 1.0 else r
  }

  function TranslationAfter(t: real, frames: nat): real
    decreases frames
  {
    if frames == 0 then t else TranslationAfter(NextTranslation(t), frames - 1)
  }

  /** From any translation in [0, 1] the translation stays in [0, 1] however many frames pass. */
  lemma {:induction false} TranslationStaysInRange(t: real, frames: nat)
    requires 0.0 <= t <= 1.0
    ensures 0.0 <= TranslationAfter(t, frames) <= 1.0
    decreases frames
  {
    if frames > 0 {
      TranslationStaysInRange(NextTranslation(t), frames - 1);
    }
  }

  /** The cells fill res^2 * 6 of the (res + 1)^2 * 6 entries the buffers are sized for. */
  lemma BufferSizes(res: int)
    requires res > 0
    ensures 0 <= 6 * res * res == res * res * 6 <= (res + 1) * (res + 1) * 6
  {
    assert res * res <= (res + 1) * (res + 1);
  }

  class SkyPlane {
    var scale: real
    var brightness: real
    var translation: real
    var vertexCount: int
    var indexCount: int
    var skyPlaneModel: array<PositionTextureVertex>
    /** The contents handed to the vertex and index buffers. */
    var vertices: seq<PositionTextureVertex>
    var indices: seq<int>
    var cloudTextureCreated: bool
    var perturbTextureCreated: bool

    constructor ()
      ensures translation == 0.0 && !cloudTextureCreated && !perturbTextureCreated
    {
      scale, brightness, translation := 0.0, 0.0, 0.0;
      vertexCount, indexCount := 0, 0;
      skyPlaneModel := new PositionTextureVertex[0];
      vertices, indices := [], [];
      cloudTextureCreated, perturbTextureCreated := false, false;
    }

    /**
     * Sets the shader parameters, builds the grid and the buffers, then loads
     * the two textures, returning false at the first step that fails.
     * `cloudLoaded` and `perturbLoaded` are the texture loaders' results.
     * The resolution, width, top, bottom and texture repeat are `SkyShape`.
     */
    method Initialze(cloudLoaded: bool, perturbLoaded: bool) returns (ok: bool)
      modifies this
      ensures scale == 0.3 && brightness == 0.5 && translation == 0.0
      ensures IsGrid(SkyShape, skyPlaneModel[..])
      ensures vertexCount == indexCount == (SkyShape.res + 1) * (SkyShape.res + 1) * 6 == |vertices|
      ensures vertices[..SkyShape.res * SkyShape.res * 6] == CellRows(skyPlaneModel[..], SkyShape.res, SkyShape.res)
      ensures cloudTextureCreated
      ensures perturbTextureCreated == (cloudLoaded || old(perturbTextureCreated))
      ensures ok <==> cloudLoaded && perturbLoaded
    {
      ok := InitialzeShape(SkyShape, cloudLoaded, perturbLoaded);
    }

    /** The steps of `Initialze` for any shape the grid formulas are defined for. */
    method InitialzeShape(s: ValidShape, cloudLoaded: bool, perturbLoaded: bool) returns (ok: bool)
      modifies this
      ensures scale == 0.3 && brightness == 0.5 && translation == 0.0
      ensures IsGrid(s, skyPlaneModel[..])
      ensures vertexCount == indexCount == (s.res + 1) * (s.res + 1) * 6 == |vertices|
      ensures vertices[..s.res * s.res * 6] == CellRows(skyPlaneModel[..], s.res, s.res)
      ensures cloudTextureCreated
      ensures perturbTextureCreated == (cloudLoaded || old(perturbTextureCreated))
      ensures ok <==> cloudLoaded && perturbLoaded
    {
      scale := 0.3;
      brightness := 0.5;
      translation := 0.0;
      var stepOk := InitializeSkyPlane(s.res, s.width, s.top, s.bottom, s.repeat);
      if !stepOk {
        return false;
      }
      stepOk := InitializeBuffers(s.res);
      if !stepOk {
        return false;
      }
      stepOk := LoadTextures(cloudLoaded, perturbLoaded);
      if !stepOk {
        return false;
      }
      ok := true;
    }

    /**
     * Fills slot j * (res + 1) + i of a fresh (res + 1)^2 grid with grid point
     * (i, j), row by row; `GridRowsAt` says where each point lands.
     */
    method InitializeSkyPlane(res: int, width: real, top: real, bottom: real, repeat: int) returns (ok: bool)
      requires res > 0 && width != 0.0
      modifies this
      ensures ok
      ensures scale == old(scale) && brightness == old(brightness) && translation == old(translation)
      ensures vertices == old(vertices) && indices == old(indices)
      ensures cloudTextureCreated == old(cloudTextureCreated) && perturbTextureCreated == old(perturbTextureCreated)
      ensures fresh(skyPlaneModel) && skyPlaneModel.Length == (res + 1) * (res + 1)
      ensures IsGrid(Shape(res, width, top, bottom, repeat), skyPlaneModel[..])
    {
      var s: ValidShape := Shape(res, width, top, bottom, repeat);
      skyPlaneModel := BuildGrid(s);
      GridRowsIsGrid(s);
      ok := true;
    }

    /**
     * Sizes both buffers for (res + 1)^2 * 6 entries, then writes the six
     * vertices of each of the res^2 cells, row by row, with index k at
     * position k. The entries past res^2 * 6 keep their zero values.
     */
    method InitializeBuffers(res: int) returns (ok: bool)
      requires res > 0 && skyPlaneModel.Length == (res + 1) * (res + 1)
      modifies this
      ensures ok
      ensures scale == old(scale) && brightness == old(brightness) && translation == old(translation)
      ensures skyPlaneModel == old(skyPlaneModel)
      ensures cloudTextureCreated == old(cloudTextureCreated) && perturbTextureCreated == old(perturbTextureCreated)
      ensures vertexCount == indexCount == (res + 1) * (res + 1) * 6
      ensures |vertices| == vertexCount && |indices| == indexCount
      ensures vertices[..res * res * 6] == CellRows(skyPlaneModel[..], res, res)
      ensures forall k :: 0 <= k < res * res * 6 ==> indices[k] == k
      ensures forall k :: res * res * 6 <= k < vertexCount ==> vertices[k] == ZeroVertex && indices[k] == 0
    {
      var count, cells, order := BuildBuffers(skyPlaneModel[..], res);
      vertexCount := count;
      indexCount := vertexCount;
      vertices, indices := cells, order;
      ok := true;
    }

    /** Creates and loads the cloud texture, then (only if that worked) the perturb texture. */
    method LoadTextures(cloudLoaded: bool, perturbLoaded: bool) returns (ok: bool)
      modifies this
      ensures scale == old(scale) && brightness == old(brightness) && translation == old(translation)
      ensures skyPlaneModel == old(skyPlaneModel) && vertexCount == old(vertexCount) && indexCount == old(indexCount)
      ensures vertices == old(vertices) && indices == old(indices)
      ensures cloudTextureCreated && (perturbTextureCreated <==> cloudLoaded || old(perturbTextureCreated))
      ensures ok <==> cloudLoaded && perturbLoaded
    {
      cloudTextureCreated := true;
      if !cloudLoaded {
        return false;
      }
      perturbTextureCreated := true;
      if !perturbLoaded {
        return false;
      }
      ok := true;
    }

    /** Moves the cloud texture on by 0.0001, wrapping past 1; see `TranslationStaysInRange`. */
    method Frame()
      modifies this
      ensures translation == NextTranslation(old(translation))
      ensures scale == old(scale) && brightness == old(brightness)
    {
      translation := translation + 0.0001;
      if translation > 1.0 {
        translation := translation - 1.0;
      }
    }
  }

  /** The loops of `InitializeSkyPlane`: grid point (i, j) into slot j * (res + 1) + i of a fresh array, row by row. */
  method BuildGrid(s: ValidShape) returns (grid: array<PositionTextureVertex>)
    ensures fresh(grid) && grid.Length == (s.res + 1) * (s.res + 1)
    ensures grid[..] == GridRows(s, s.res + 1)
  {
    var n := s.res + 1;
    grid := new PositionTextureVertex[n * n](_ => ZeroVertex);
    var rowStart := 0;
    var j := 0;
    while j <= s.res
      invariant 0 <= j <= n
      invariant rowStart == j * n
      invariant j < n ==> rowStart + n <= grid.Length
      invariant j == n ==> rowStart == grid.Length
      invariant grid[..rowStart] == GridRows(s, j)
    {
      FillGridRow(s, j, rowStart, GridRows(s, j), grid);
      assert GridRows(s, j + 1) == GridRows(s, j) + RowPoints(s, j, n);
      RowAfterRow(n, n, j);
      rowStart := rowStart + n;
      j := j + 1;
    }
    assert grid[..] == grid[..n * n];
  }

  /** Row j of the grid, written point by point from slot rowStart on. */
  method FillGridRow(s: ValidShape, j: int, rowStart: int, ghost prefix: seq<PositionTextureVertex>,
                     grid: array<PositionTextureVertex>)
    requires 0 <= rowStart && rowStart + s.res + 1 <= grid.Length
    requires rowStart == j * (s.res + 1)
    requires grid[..rowStart] == prefix
    modifies grid
    ensures grid[..rowStart + s.res + 1] == prefix + RowPoints(s, j, s.res + 1)
  {
    var n := s.res + 1;
    var i := 0;
    while i <= s.res
      invariant 0 <= i <= n
      invariant grid[..rowStart + i] == prefix + RowPoints(s, j, i)
    {
      var index := j * n + i;
      grid[index] := GridPoint(s, i, j);
      assert grid[..index + 1] == grid[..index] + [grid[index]];
      i := i + 1;
    }
  }

  /**
   * The arrays `InitializeBuffers` fills: (res + 1)^2 * 6 vertices and as
   * many indices, all starting out zero, of which `FillCells` writes the
   * first res^2 * 6.
   */
  method BuildBuffers(model: seq<PositionTextureVertex>, res: int)
    returns (count: int, vertices: seq<PositionTextureVertex>, indices: seq<int>)
    requires res > 0 && |model| == (res + 1) * (res + 1)
    ensures count == (res + 1) * (res + 1) * 6
    ensures |vertices| == count && |indices| == count
    ensures vertices[..res * res * 6] == CellRows(model, res, res)
    ensures forall k :: 0 <= k < res * res * 6 ==> indices[k] == k
    ensures forall k :: res * res * 6 <= k < count ==> vertices[k] == ZeroVertex && indices[k] == 0
  {
    BufferSizes(res);
    SlotsProduct(res, res);
    count := (res + 1) * (res + 1) * 6;
    var written := new PositionTextureVertex[count](_ => ZeroVertex);
    var order := new int[count](_ => 0);
    var used := FillCells(model, res, written, order);
    vertices, indices := written[..], order[..];
  }

  /** The loops of `InitializeBuffers`: the res^2 cells, row by row, with a running index; the entries after them are left alone. */
  method FillCells(model: seq<PositionTextureVertex>, res: int, written: array<PositionTextureVertex>, order: array<int>)
    returns (used: int)
    requires res > 0 && |model| == (res + 1) * (res + 1)
    requires order.Length == written.Length && Slots(res, res) <= written.Length
    modifies written, order
    ensures 0 <= used == Slots(res, res)
    ensures written[..used] == CellRows(model, res, res)
    ensures forall k :: 0 <= k < used ==> order[k] == k
    ensures written[used..] == old(written[used..]) && order[used..] == old(order[used..])
  {
    SlotsBelow(res, 0, res);
    ghost var untouched, unnumbered := written[..], order[..];
    var index := 0;
    for j := 0 to res
      invariant 0 <= index == Slots(res, j) <= Slots(res, res)
      invariant written[..index] == CellRows(model, res, j)
      invariant forall k :: 0 <= k < index ==> order[k] == k
      invariant written[index..] == untouched[index..] && order[index..] == unnumbered[index..]
    {
      SlotsBelow(res, j + 1, res);
      index := FillCellRow(model, res, j, index, CellRows(model, res, j), written, order);
      CellGridGrows(SkyCells(model, res), res, j);
    }
    used := index;
  }

  /** The inner loop of `InitializeBuffers`: the cells of row j, after the `prefix` already written. */
  method FillCellRow(model: seq<PositionTextureVertex>, res: int, j: int, index: int, ghost prefix: seq<PositionTextureVertex>,
                     written: array<PositionTextureVertex>, order: array<int>) returns (next: int)
    requires res > 0 && |model| == (res + 1) * (res + 1) && 0 <= j < res
    requires 0 <= index && index + 6 * res <= written.Length && order.Length == written.Length
    requires written[..index] == prefix
    requires forall k :: 0 <= k < index ==> order[k] == k
    modifies written, order
    ensures next == index + 6 * res
    ensures written[..next] == prefix + CellRow(SkyCells(model, res), j, res)
    ensures forall k :: 0 <= k < next ==> order[k] == k
    ensures written[next..] == old(written[next..]) && order[next..] == old(order[next..])
  {
    next := index;
    for i := 0 to res
      invariant next == index + 6 * i
      invariant written[..next] == prefix + CellRow(SkyCells(model, res), j, i)
      invariant forall k :: 0 <= k < next ==> order[k] == k
      invariant written[next..] == old(written[next..]) && order[next..] == old(order[next..])
    {
      next := WriteCell(model, res, i, j, written, order, next);
      CellRowGrows(prefix, SkyCells(model, res), j, i);
    }
  }

  /** One cell's six writes: slots index1, index2, index3, index3, index2, index4, each with its own position as index. */
  method WriteCell(model: seq<PositionTextureVertex>, res: int, i: int, j: int,
                   written: array<PositionTextureVertex>, order: array<int>, index: int) returns (next: int)
    requires 0 <= i < res && 0 <= j < res && |model| == (res + 1) * (res + 1)
    requires 0 <= index && index + 6 <= written.Length && index + 6 <= order.Length
    modifies written, order
    ensures next == index + 6
    ensures written[..next] == old(written[..index]) + CellVertices(model, res, i, j)
    ensures forall k :: 0 <= k < next ==> order[k] == (if k < index then old(order[k]) else k)
    ensures written[next..] == old(written[next..]) && order[next..] == old(order[next..])
  {
    var n := res + 1;
    var index1 := j * n + i;
    var index2 := j * n + (i + 1);
    var index3 := (j + 1) * n + i;
    var index4 := (j + 1) * n + (i + 1);
    CellSlotsInGrid(res, i, j);
    assert index2 == index1 + 1 && index3 == index1 + n && index4 == index3 + 1;
    ghost var cell := CellVertices(model, res, i, j);
    assert cell == [model[index1], model[index2], model[index3], model[index3], model[index2], model[index4]];
    PutSix(written, index, [model[index1], model[index2], model[index3], model[index3], model[index2], model[index4]]);
    PutSix(order, index, [index, index + 1, index + 2, index + 3, index + 4, index + 5]);
    next := index + 6;
  }
}
