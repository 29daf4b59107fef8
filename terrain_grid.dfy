/**
 * The terrain height map as values. A bitmap of W x H pixels becomes a
 * row-major list of W * H samples; this module gives the functions the
 * `Terrain` class is proved against: the neighbourhood of a sample, the
 * 3 x 3 height edit, the face and vertex normals, the texture-tiling walk and
 * the triangle list. The members named `...AsWritten` reproduce index
 * formulas of the original code that use the height where the width is
 * meant; the class uses the corrected formulas.
 */
module TerrainGrid {
  import opened Vertices
  import opened Wrappers
  import opened RowMajor

  /** An `XYZTextureNormalType`: position, texture coordinate and normal of one height-map sample. */
  datatype Sample = Sample(x: real, y: real, z: real, tu: real, tv: real, nx: real, ny: real, nz: real)

  type Byte = b: int | 0 <= b < 256

  /** A decoded height-map bitmap: its size and the red channel of pixel (column, row). */
  datatype Image = Image(width: int, height: int, red: (int, int) -> Byte)

  /** A bitmap the image decoder accepts has at least one pixel each way. */
  type Bitmap = b: Image | b.width > 0 && b.height > 0 witness Image(1, 1, (column, row) => 0)

  /** How many times the texture is repeated across the terrain. */
  const TextureRepeat: int := 8

  // ---------------------------------------------------------------------
  // Loading

  /** Pixel (i, j) becomes the sample at x = i, z = j whose height is the pixel's red value. */
  function LoadedSample(b: Bitmap, i: int, j: int): Sample
  {
    Sample(i as real, b.red(i, j) as real, j as real, 0.0, 0.0, 0.0, 0.0, 0.0)
  }

  /** Samples (0, j) .. (i - 1, j) of the loaded bitmap. */
  function LoadedRow(b: Bitmap, j: int, i: nat): (row: seq<Sample>)
    ensures |row| == i
    ensures forall c :: 0 <= c < i ==> row[c] == LoadedSample(b, c, j)
  {
    if i == 0 then [] else LoadedRow(b, j, i - 1) + [LoadedSample(b, i - 1, j)]
  }

  /** The first j rows of the loaded bitmap, row after row. */
  function LoadedRows(b: Bitmap, j: nat): (rows: seq<Sample>)
  {
    if j == 0 then [] else LoadedRows(b, j - 1) + LoadedRow(b, j - 1, b.width)
  }

  /** Each row adds W samples. */
  lemma {:induction false} LoadedRowsLength(b: Bitmap, j: nat)
    ensures |LoadedRows(b, j)| == j * b.width
    decreases j
  {
    if j > 0 {
      LoadedRowsLength(b, j - 1);
      RowAfterRow(b.width, j, j - 1);
    }
  }

  /** The whole height map a bitmap loads into. */
  function LoadedMap(b: Bitmap): (m: seq<Sample>)
    ensures |m| == b.width * b.height
  {
    LoadedRowsLength(b, b.height);
    LoadedRows(b, b.height)
  }

  /** Pixel (i, j) is loaded into entry `Index(width, i, j)`. */
  lemma {:induction false} LoadedRowsAt(b: Bitmap, rows: nat, i: int, j: int)
    requires 0 <= i < b.width && 0 <= j < rows
    ensures Index(b.width, i, j) < |LoadedRows(b, rows)|
    ensures LoadedRows(b, rows)[Index(b.width, i, j)] == LoadedSample(b, i, j)
    decreases rows
  {
    LoadedRowsLength(b, rows - 1);
    if j < rows - 1 {
      LoadedRowsAt(b, rows - 1, i, j);
      RowAfterRow(b.width, rows - 1, j);
    } else {
      assert Index(b.width, i, j) == |LoadedRows(b, rows - 1)| + i;
    }
  }

  /** Every sample of a grid sits at its own grid position: x is its column, z its row. */
  ghost predicate OnGrid(m: seq<Sample>, width: int, height: int)
  {
    |m| == width * height &&
    (width > 0 ==> forall k :: 0 <= k < |m| ==> m[k].x == (k % width) as real && m[k].z == (k / width) as real)
  }

  /** A loaded height map is a unit-spaced grid. */
  lemma LoadedMapOnGrid(b: Bitmap)
    ensures OnGrid(LoadedMap(b), b.width, b.height)
  {
    forall k | 0 <= k < |LoadedMap(b)|
      ensures LoadedMap(b)[k].x == (k % b.width) as real && LoadedMap(b)[k].z == (k / b.width) as real
    {
      IndexToPosition(b.width, b.height, k);
      LoadedRowsAt(b, b.height, k % b.width, k / b.width);
    }
  }

  /** `NormaliseHeightMap`'s change to one sample: the height divided by 15. */
  function Flattened(s: Sample): Sample
  {
    s.(y := s.y / 15.0)
  }

  function NormalisedMap(m: seq<Sample>): (r: seq<Sample>)
    ensures |r| == |m|
    ensures forall k :: 0 <= k < |m| ==> r[k] == m[k].(y := m[k].y / 15.0)
  {
    seq(|m|, k requires 0 <= k < |m| => Flattened(m[k]))
  }

  // ---------------------------------------------------------------------
  // Neighbours

  /** The eight neighbours of a sample; "top" is the previous row. */
  datatype RelativePosition = TopLeft | TopMiddle | TopRight | Left | Right | BottomLeft | BottomMiddle | BottomRight

  function ColumnOffset(p: RelativePosition): int
  {
    match p
    case TopLeft | Left | BottomLeft => -1
    case TopMiddle | BottomMiddle => 0
    case TopRight | Right | BottomRight => 1
  }

  function RowOffset(p: RelativePosition): int
  {
    match p
    case TopLeft | TopMiddle | TopRight => -1
    case Left | Right => 0
    case BottomLeft | BottomMiddle | BottomRight => 1
  }

  /** `GetRelativeIndex`: the list index of a neighbour, found by offsetting the index alone. */
  function RelativeIndex(width: int, p: RelativePosition, index: int): int
  {
    match p
    case TopLeft => index - width - 1
    case TopMiddle => index - width
    case TopRight => index - width + 1
    case Left => index - 1
    case Right => index + 1
    case BottomLeft => index + width - 1
    case BottomMiddle => index + width
    case BottomRight => index + width + 1
  }

  /** Offsetting the index of (x, z) gives the index of the point offset by the neighbour's column and row. */
  lemma RelativeIndexIsNeighbour(width: int, p: RelativePosition, x: int, z: int)
    ensures RelativeIndex(width, p, Index(width, x, z)) == Index(width, x + ColumnOffset(p), z + RowOffset(p))
  {
  }

  /**
   * Nothing is bounds-checked: left of the first column is the last sample of
   * the previous row, right of the last column the first sample of the next
   * row, and the rows above the first and below the last are outside the list.
   */
  lemma NeighboursAtBorders(width: int, height: int, x: int, z: int)
    requires 0 <= x < width && 0 <= z < height
    ensures x == 0 && z > 0 ==> RelativeIndex(width, Left, Index(width, x, z)) == Index(width, width - 1, z - 1)
    ensures x == width - 1 && z < height - 1 ==> RelativeIndex(width, Right, Index(width, x, z)) == Index(width, 0, z + 1)
    ensures z == 0 ==> RelativeIndex(width, TopMiddle, Index(width, x, z)) < 0
    ensures z == height - 1 ==> RelativeIndex(width, BottomMiddle, Index(width, x, z)) >= width * height
  {
    RelativeIndexIsNeighbour(width, Left, x, z);
    RelativeIndexIsNeighbour(width, Right, x, z);
    RelativeIndexIsNeighbour(width, BottomMiddle, x, z);
  }

  // ---------------------------------------------------------------------
  // Height edits

  /** `ChangeHeight`'s change to one sample: the height raised by `delta`. */
  function Raised(s: Sample, delta: real): Sample
  {
    s.(y := s.y + delta)
  }

  /** The nine entries `ChangeHeightAtPosition` raises, in order: the point, then its neighbours from top left to bottom right. */
  function EditTargets(width: int, x: int, z: int): (targets: seq<int>)
    ensures |targets| == 9
  {
    var index := Index(width, x, z);
    [index,
     RelativeIndex(width, TopLeft, index), RelativeIndex(width, TopMiddle, index), RelativeIndex(width, TopRight, index),
     RelativeIndex(width, Left, index), RelativeIndex(width, Right, index),
     RelativeIndex(width, BottomLeft, index), RelativeIndex(width, BottomMiddle, index), RelativeIndex(width, BottomRight, index)]
  }

  /** The point is raised by the full amount, its neighbours by half of it. */
  function EditDeltas(delta: real): (deltas: seq<real>)
    ensures |deltas| == 9
  {
    [delta, delta / 2.0, delta / 2.0, delta / 2.0, delta / 2.0, delta / 2.0, delta / 2.0, delta / 2.0, delta / 2.0]
  }

  /**
   * `ChangeHeight` applied to each target in turn. The list indexer throws at
   * the first target outside the list; the entries raised before it stay
   * raised and the flag is false.
   */
  function RaiseAll(m: seq<Sample>, targets: seq<int>, deltas: seq<real>): (r: (seq<Sample>, bool))
    requires |targets| == |deltas|
    ensures |r.0| == |m|
    ensures forall k :: 0 <= k < |m| ==> r.0[k] == m[k].(y := r.0[k].y)
    ensures r.1 <==> forall t :: t in targets ==> 0 <= t < |m|
    decreases |targets|
  {
    if |targets| == 0 then (m, true)
    else if 0 <= targets[0] < |m| then
      var rest := RaiseAll(m[targets[0] := Raised(m[targets[0]], deltas[0])], targets[1..], deltas[1..]);
      assert forall t :: t in targets ==> t == targets[0] || t in targets[1..];
      assert forall t :: t in targets[1..] ==> t in targets;
      rest
    else
      assert targets[0] in targets;
      (m, false)
  }

  /** When the targets are distinct and inside the list, each is raised by its own delta and nothing else changes. */
  lemma {:induction false} RaiseDistinct(m: seq<Sample>, targets: seq<int>, deltas: seq<real>)
    requires |targets| == |deltas|
    requires forall i :: 0 <= i < |targets| ==> 0 <= targets[i] < |m|
    requires forall i, j :: 0 <= i < j < |targets| ==> targets[i] != targets[j]
    ensures forall i :: 0 <= i < |targets| ==> RaiseAll(m, targets, deltas).0[targets[i]] == Raised(m[targets[i]], deltas[i])
    ensures forall k :: 0 <= k < |m| && k !in targets ==> RaiseAll(m, targets, deltas).0[k] == m[k]
    decreases |targets|
  {
    if |targets| > 0 {
      var m' := m[targets[0] := Raised(m[targets[0]], deltas[0])];
      RaiseDistinct(m', targets[1..], deltas[1..]);
      assert RaiseAll(m, targets, deltas) == RaiseAll(m', targets[1..], deltas[1..]);
      forall i | 0 <= i < |targets|
        ensures RaiseAll(m, targets, deltas).0[targets[i]] == Raised(m[targets[i]], deltas[i])
      {
        if i > 0 {
          assert targets[i] == targets[1..][i - 1];
          assert targets[0] !in targets[1..];
        }
      }
    }
  }

  /** The column and row offsets of the nine targets of an edit, in the order they are raised. */
  const EditOffsets: seq<(int, int)> := [(0, 0), (-1, -1), (0, -1), (1, -1), (-1, 0), (1, 0), (-1, 1), (0, 1), (1, 1)]

  /** Target n of an edit at (x, z) is the index of the point offset by `EditOffsets[n]`. */
  lemma EditTargetsAreWindow(width: int, x: int, z: int)
    ensures forall n :: 0 <= n < 9 ==> EditTargets(width, x, z)[n] == Index(width, x + EditOffsets[n].0, z + EditOffsets[n].1)
  {
    RelativeIndexIsNeighbour(width, TopLeft, x, z);
    RelativeIndexIsNeighbour(width, TopMiddle, x, z);
    RelativeIndexIsNeighbour(width, TopRight, x, z);
    RelativeIndexIsNeighbour(width, BottomLeft, x, z);
    RelativeIndexIsNeighbour(width, BottomMiddle, x, z);
    RelativeIndexIsNeighbour(width, BottomRight, x, z);
  }

  /** The nine vertices whose normals `ChangeHeightAtPosition` recomputes, row by row from top left. */
  const RenormalOffsets: seq<(int, int)> := [(-1, -1), (0, -1), (1, -1), (-1, 0), (0, 0), (1, 0), (-1, 1), (0, 1), (1, 1)]

  /** `b` is `a` with at most the normals of some samples replaced. */
  ghost predicate SameButNormals(a: seq<Sample>, b: seq<Sample>)
  {
    |a| == |b| && forall k :: 0 <= k < |a| ==> b[k] == WithNormal(a[k], Vector3(b[k].nx, b[k].ny, b[k].nz))
  }

  lemma SameButNormalsReflexive(a: seq<Sample>)
    ensures SameButNormals(a, a)
  {
  }

  lemma SameButNormalsTransitive(a: seq<Sample>, b: seq<Sample>, c: seq<Sample>)
    requires SameButNormals(a, b) && SameButNormals(b, c)
    ensures SameButNormals(a, c)
  {
  }

  /** Whether entry k of a grid `width` wide lies in the 3 x 3 window around (x, z). */
  predicate InWindow(width: int, x: int, z: int, k: int)
    requires width > 0
  {
    x - 1 <= k % width <= x + 1 && z - 1 <= k / width <= z + 1
  }

  /** Away from the border the nine targets are distinct entries of the list, all inside the 3 x 3 window. */
  lemma InteriorTargets(width: int, height: int, x: int, z: int)
    requires 1 <= x < width - 1 && 1 <= z < height - 1
    ensures forall n :: 0 <= n < 9 ==> 0 <= EditTargets(width, x, z)[n] < width * height
    ensures forall n, n' :: 0 <= n < n' < 9 ==> EditTargets(width, x, z)[n] != EditTargets(width, x, z)[n']
    ensures forall k :: 0 <= k < width * height && !InWindow(width, x, z, k) ==> k !in EditTargets(width, x, z)
  {
    var targets := EditTargets(width, x, z);
    EditTargetsAreWindow(width, x, z);
    forall n | 0 <= n < 9
      ensures 0 <= targets[n] < width * height
    {
      PositionToIndex(width, height, x + EditOffsets[n].0, z + EditOffsets[n].1);
    }
    forall k, n | 0 <= k < width * height && !InWindow(width, x, z, k) && 0 <= n < 9
      ensures targets[n] != k
    {
      TargetInWindow(width, height, x, z, n);
    }
  }

  /** Target n of an interior edit lies in the window. */
  lemma TargetInWindow(width: int, height: int, x: int, z: int, n: int)
    requires 1 <= x < width - 1 && 1 <= z < height - 1 && 0 <= n < 9
    ensures InWindow(width, x, z, EditTargets(width, x, z)[n])
  {
    EditTargetsAreWindow(width, x, z);
    PositionToIndex(width, height, x + EditOffsets[n].0, z + EditOffsets[n].1);
  }

  /**
   * An edit away from the border succeeds: the point rises by the full amount,
   * its eight neighbours by half of it, and every sample outside the 3 x 3
   * window is unchanged.
   */
  lemma InteriorEdit(m: seq<Sample>, width: int, height: int, x: int, z: int, delta: real)
    requires |m| == width * height && 1 <= x < width - 1 && 1 <= z < height - 1
    ensures RaiseAll(m, EditTargets(width, x, z), EditDeltas(delta)).1
    ensures forall n :: 0 <= n < 9 ==> 0 <= EditTargets(width, x, z)[n] < |m|
    ensures forall n :: 0 <= n < 9 ==>
      RaiseAll(m, EditTargets(width, x, z), EditDeltas(delta)).0[EditTargets(width, x, z)[n]] ==
      Raised(m[EditTargets(width, x, z)[n]], if n == 0 then delta else delta / 2.0)
    ensures forall k :: 0 <= k < |m| && !InWindow(width, x, z, k) ==>
      RaiseAll(m, EditTargets(width, x, z), EditDeltas(delta)).0[k] == m[k]
  {
    var targets, deltas := EditTargets(width, x, z), EditDeltas(delta);
    InteriorTargets(width, height, x, z);
    RaiseDistinct(m, targets, deltas);
    forall n | 0 <= n < 9
      ensures RaiseAll(m, targets, deltas).0[targets[n]] == Raised(m[targets[n]], if n == 0 then delta else delta / 2.0)
    {
      assert deltas[n] == if n == 0 then delta else delta / 2.0;
    }
  }

  /** On the first row the second target (top left) is outside the list: only the point itself has been raised when the edit throws. */
  lemma TopRowEditFails(m: seq<Sample>, width: int, height: int, x: int, delta: real)
    requires |m| == width * height && 0 <= x < width && height > 0
    ensures x < |m|
    ensures RaiseAll(m, EditTargets(width, x, 0), EditDeltas(delta)) == (m[x := Raised(m[x], delta)], false)
  {
    var targets := EditTargets(width, x, 0);
    assert targets[0] == x && targets[1] < 0;
    assert targets[1..][0] == targets[1];
  }

  /** On the last row the bottom neighbours are outside the list, so the edit never completes. */
  lemma BottomRowEditFails(m: seq<Sample>, width: int, height: int, x: int, delta: real)
    requires |m| == width * height && 0 <= x < width && height > 0
    ensures !RaiseAll(m, EditTargets(width, x, height - 1), EditDeltas(delta)).1
  {
    NeighboursAtBorders(width, height, x, height - 1);
    assert EditTargets(width, x, height - 1)[7] in EditTargets(width, x, height - 1);
  }

  /** `ChangeNormal`'s change to one sample: the normal replaced. */
  function WithNormal(s: Sample, n: Vector3): Sample
  {
    s.(nx := n.x, ny := n.y, nz := n.z)
  }

  // ---------------------------------------------------------------------
  // Face normals

  function Position(s: Sample): Vector3
  {
    Vector3(s.x, s.y, s.z)
  }

  function Sub(a: Vector3, b: Vector3): Vector3
  {
    Vector3(a.x - b.x, a.y - b.y, a.z - b.z)
  }

  /** `AddNormalToVectorSum`: the componentwise sum. */
  function Add(a: Vector3, b: Vector3): Vector3
  {
    Vector3(a.x + b.x, a.y + b.y, a.z + b.z)
  }

  function Cross(a: Vector3, b: Vector3): Vector3
  {
    Vector3(a.y * b.z - a.z * b.y, a.z * b.x - a.x * b.z, a.x * b.y - a.y * b.x)
  }

  function Dot(a: Vector3, b: Vector3): real
  {
    a.x * b.x + a.y * b.y + a.z * b.z
  }

  function Divide(v: Vector3, d: real): Vector3
    requires d != 0.0
  {
    Vector3(v.x / d, v.y / d, v.z / d)
  }

  /** A cross product is perpendicular to both its factors. */
  lemma CrossPerpendicular(a: Vector3, b: Vector3)
    ensures Dot(Cross(a, b), a) == 0.0 && Dot(Cross(a, b), b) == 0.0
  {
  }

  /**
   * `GetNormalForPosition`: the unnormalised normal of the face whose top-left
   * sample is (x, z), the cross product of (P - B) and (B - R) where P is the
   * sample, R the entry after it and B the entry a row further on. None when
   * one of the three reads is outside the list (the list indexer throws).
   */
  function FaceNormal(m: seq<Sample>, width: int, x: int, z: int): Option<Vector3>
  {
    var index := Index(width, x, z);
    var right := RelativeIndex(width, Right, index);
    var bottom := RelativeIndex(width, BottomMiddle, index);
    if 0 <= index < |m| && 0 <= right < |m| && 0 <= bottom < |m| then
      var p, r, b := Position(m[index]), Position(m[right]), Position(m[bottom]);
      Some(Cross(Sub(p, b), Sub(b, r)))
    else
      None
  }

  /** The faces of a W x H grid: top-left corners (0 .. W - 2, 0 .. H - 2). */
  predicate IsFace(width: int, height: int, f: (int, int))
  {
    0 <= f.0 < width - 1 && 0 <= f.1 < height - 1
  }

  /**
   * The normal of every face of the grid is defined. On a unit-spaced grid it
   * is (y - yRight, 1, y - yBelow): it always points up, and it is perpendicular
   * to the face's two edges.
   */
  lemma GridFaceNormal(m: seq<Sample>, width: int, height: int, x: int, z: int)
    requires |m| == width * height && IsFace(width, height, (x, z))
    ensures 0 <= Index(width, x, z) && Index(width, x, z + 1) < |m|
    ensures FaceNormal(m, width, x, z).Some?
    ensures var p, r, b := Position(m[Index(width, x, z)]), Position(m[Index(width, x + 1, z)]), Position(m[Index(width, x, z + 1)]);
      Dot(FaceNormal(m, width, x, z).value, Sub(p, b)) == 0.0 && Dot(FaceNormal(m, width, x, z).value, Sub(b, r)) == 0.0
    ensures OnGrid(m, width, height) ==>
      FaceNormal(m, width, x, z).value ==
      Vector3(m[Index(width, x, z)].y - m[Index(width, x + 1, z)].y, 1.0, m[Index(width, x, z)].y - m[Index(width, x, z + 1)].y)
  {
    PositionToIndex(width, height, x, z);
    PositionToIndex(width, height, x + 1, z);
    PositionToIndex(width, height, x, z + 1);
    RelativeIndexIsNeighbour(width, Right, x, z);
    RelativeIndexIsNeighbour(width, BottomMiddle, x, z);
    var p, r, b := Position(m[Index(width, x, z)]), Position(m[Index(width, x + 1, z)]), Position(m[Index(width, x, z + 1)]);
    CrossPerpendicular(Sub(p, b), Sub(b, r));
  }

  /** A flat patch of a unit-spaced grid has the upright normal (0, 1, 0). */
  lemma FlatFaceIsUpright(m: seq<Sample>, width: int, height: int, x: int, z: int)
    requires OnGrid(m, width, height) && IsFace(width, height, (x, z))
    requires 0 <= Index(width, x, z) && Index(width, x, z + 1) < |m|
    requires m[Index(width, x, z)].y == m[Index(width, x + 1, z)].y == m[Index(width, x, z + 1)].y
    ensures FaceNormal(m, width, x, z) == Some(Vector3(0.0, 1.0, 0.0))
  {
    GridFaceNormal(m, width, height, x, z);
  }

  // ---------------------------------------------------------------------
  // Vertex normals

  predicate NotOnLeftBorder(x: int)
  {
    x >= 1
  }

  predicate NotOnSampleRightBorder(width: int, x: int)
  {
    x < width - 1
  }

  predicate NotOnTopBorder(z: int)
  {
    z >= 1
  }

  predicate NotOnSampleBottomBorder(height: int, z: int)
  {
    z < height - 1
  }

  /** Whether face f has vertex (x, z) as one of its four corners. */
  predicate Touches(f: (int, int), x: int, z: int)
  {
    f.0 <= x <= f.0 + 1 && f.1 <= z <= f.1 + 1
  }

  /**
   * The faces a vertex normal averages, in the order they are added: top
   * left, top right, bottom left, bottom right of vertex (x, z), each under
   * its border guard.
   */
  function TouchingFaces(width: int, height: int, x: int, z: int): (faces: seq<(int, int)>)
    ensures |faces| <= 4
  {
    (if NotOnLeftBorder(x) && NotOnTopBorder(z) then [(x - 1, z - 1)] else []) +
    (if NotOnSampleRightBorder(width, x) && NotOnTopBorder(z) then [(x, z - 1)] else []) +
    (if NotOnLeftBorder(x) && NotOnSampleBottomBorder(height, z) then [(x - 1, z)] else []) +
    (if NotOnSampleRightBorder(width, x) && NotOnSampleBottomBorder(height, z) then [(x, z)] else [])
  }

  /**
   * The guards pick out exactly the faces of the grid that have the vertex as
   * a corner, each once; a vertex away from the border has all four.
   */
  lemma TouchingFacesAreTheFacesAround(width: int, height: int, x: int, z: int)
    requires 0 <= x < width && 0 <= z < height
    ensures forall f :: f in TouchingFaces(width, height, x, z) <==> IsFace(width, height, f) && Touches(f, x, z)
    ensures forall i, j :: 0 <= i < j < |TouchingFaces(width, height, x, z)| ==>
      TouchingFaces(width, height, x, z)[i] != TouchingFaces(width, height, x, z)[j]
    ensures 1 <= x < width - 1 && 1 <= z < height - 1 ==> |TouchingFaces(width, height, x, z)| == 4
  {
  }

  /**
   * As written, `UpdateNormal` adds the faces (x - 1, z - 1), (x + 1, z - 1),
   * (x - 1, z + 1) and (x + 1, z + 1) under the guards meant for the faces
   * touching the vertex.
   */
  function DiagonalFacesAsWritten(width: int, height: int, x: int, z: int): (faces: seq<(int, int)>)
    ensures |faces| <= 4
  {
    (if NotOnLeftBorder(x) && NotOnTopBorder(z) then [(x - 1, z - 1)] else []) +
    (if NotOnSampleRightBorder(width, x) && NotOnTopBorder(z) then [(x + 1, z - 1)] else []) +
    (if NotOnLeftBorder(x) && NotOnSampleBottomBorder(height, z) then [(x - 1, z + 1)] else []) +
    (if NotOnSampleRightBorder(width, x) && NotOnSampleBottomBorder(height, z) then [(x + 1, z + 1)] else [])
  }

  /**
   * At the centre of a 3 x 3 map the faces `UpdateNormal` adds as written are
   * not the faces around the vertex. Called on its own at (1, 1), the first
   * two lookups succeed, and the third, face (0, 2), already reads entry 9 of
   * the 9-entry list (its bottom neighbour), so `UpdateNormal(1, 1)` throws
   * there. An edit at the centre throws earlier: see `CentreEditFirstThrow`.
   */
  lemma DiagonalFacesCounterexample(m: seq<Sample>)
    requires |m| == 9
    ensures DiagonalFacesAsWritten(3, 3, 1, 1) == [(0, 0), (2, 0), (0, 2), (2, 2)]
    ensures TouchingFaces(3, 3, 1, 1) == [(0, 0), (1, 0), (0, 1), (1, 1)]
    ensures !IsFace(3, 3, (2, 2)) && !Touches((2, 2), 1, 1)
    ensures FaceNormal(m, 3, 0, 0).Some? && FaceNormal(m, 3, 2, 0).Some?
    ensures RelativeIndex(3, BottomMiddle, Index(3, 0, 2)) == 9 && FaceNormal(m, 3, 0, 2) == None
  {
  }

  /**
   * An edit at the centre of a 3 x 3 map renormalises (0, 0), (1, 0), (2, 0)
   * and then (0, 1), before (1, 1). As written, the first three only look up
   * faces that exist, but `UpdateNormal(0, 1)` looks up face (1, 2), whose
   * bottom neighbour is entry 10 of the 9-entry list: the edit throws there.
   * A failed lookup is never cached, so the cache does not change this.
   */
  lemma CentreEditFirstThrow(m: seq<Sample>)
    requires |m| == 9
    ensures DiagonalFacesAsWritten(3, 3, 0, 0) == [(1, 1)] && DiagonalFacesAsWritten(3, 3, 2, 0) == [(1, 1)]
    ensures DiagonalFacesAsWritten(3, 3, 1, 0) == [(0, 1), (2, 1)]
    ensures FaceNormal(m, 3, 1, 1).Some? && FaceNormal(m, 3, 0, 1).Some? && FaceNormal(m, 3, 2, 1).Some?
    ensures DiagonalFacesAsWritten(3, 3, 0, 1) == [(1, 0), (1, 2)] && FaceNormal(m, 3, 1, 0).Some?
    ensures RelativeIndex(3, BottomMiddle, Index(3, 1, 2)) == 10 && FaceNormal(m, 3, 1, 2) == None
  {
  }

  /** The cached normal of face f if the cache holds one, its freshly computed normal otherwise. */
  function Lookup(cache: map<(int, int), Vector3>, m: seq<Sample>, width: int, f: (int, int)): Option<Vector3>
  {
    if f in cache then Some(cache[f]) else FaceNormal(m, width, f.0, f.1)
  }

  /** The normals of the faces, looked up in order; None if any of them fails. */
  function LookupFaces(cache: map<(int, int), Vector3>, m: seq<Sample>, width: int, faces: seq<(int, int)>): (r: Option<seq<Vector3>>)
    ensures r.Some? ==> |r.value| == |faces|
    decreases |faces|
  {
    if |faces| == 0 then Some([])
    else
      var init :- LookupFaces(cache, m, width, faces[..|faces| - 1]);
      var last :- Lookup(cache, m, width, faces[|faces| - 1]);
      Some(init + [last])
  }

  /** Every cached normal is the current normal of its face. */
  ghost predicate CacheAgrees(cache: map<(int, int), Vector3>, m: seq<Sample>, width: int)
  {
    forall f :: f in cache ==> FaceNormal(m, width, f.0, f.1) == Some(cache[f])
  }

  /** A cache that agrees with the map changes nothing: looking faces up gives their current normals. */
  lemma {:induction false} AgreeingCacheIsTransparent(cache: map<(int, int), Vector3>, m: seq<Sample>, width: int, faces: seq<(int, int)>)
    requires CacheAgrees(cache, m, width)
    ensures LookupFaces(cache, m, width, faces) == LookupFaces(map[], m, width, faces)
    decreases |faces|
  {
    if |faces| > 0 {
      AgreeingCacheIsTransparent(cache, m, width, faces[..|faces| - 1]);
    }
  }

  /**
   * The cache after some lookups: every entry it held is kept, and every entry
   * added is the normal its face had when it was added.
   */
  ghost predicate CacheExtends(start: map<(int, int), Vector3>, cache: map<(int, int), Vector3>, m: seq<Sample>, width: int)
  {
    (forall f :: f in start ==> f in cache && cache[f] == start[f]) &&
    (forall f :: f in cache && f !in start ==> FaceNormal(m, width, f.0, f.1) == Some(cache[f]))
  }

  /** Entries added while the map stays the same do not change what a lookup gives. */
  lemma {:induction false} ExtendedCacheLooksUpAlike(start: map<(int, int), Vector3>, cache: map<(int, int), Vector3>, m: seq<Sample>, width: int, faces: seq<(int, int)>)
    requires CacheExtends(start, cache, m, width)
    ensures LookupFaces(cache, m, width, faces) == LookupFaces(start, m, width, faces)
    decreases |faces|
  {
    if |faces| > 0 {
      ExtendedCacheLooksUpAlike(start, cache, m, width, faces[..|faces| - 1]);
      var f := faces[|faces| - 1];
      assert Lookup(cache, m, width, f) == Lookup(start, m, width, f);
    }
  }

  /** Looking up one more face extends the list of normals by that face's normal, or fails with it. */
  lemma LookupOneMore(cache: map<(int, int), Vector3>, m: seq<Sample>, width: int, faces: seq<(int, int)>, f: (int, int))
    requires LookupFaces(cache, m, width, faces).Some?
    ensures LookupFaces(cache, m, width, faces + [f]) ==
      if Lookup(cache, m, width, f).Some? then Some(LookupFaces(cache, m, width, faces).value + [Lookup(cache, m, width, f).value]) else None
  {
    assert (faces + [f])[..|faces|] == faces;
  }

  /** Once a lookup fails, looking up further faces fails too. */
  lemma {:induction false} LookupFailureStays(cache: map<(int, int), Vector3>, m: seq<Sample>, width: int, faces: seq<(int, int)>, rest: seq<(int, int)>)
    requires LookupFaces(cache, m, width, faces).None?
    ensures LookupFaces(cache, m, width, faces + rest).None?
    decreases |rest|
  {
    if |rest| == 0 {
      assert faces + rest == faces;
    } else {
      var front := rest[..|rest| - 1];
      LookupFailureStays(cache, m, width, faces, front);
      assert (faces + rest)[..|faces + rest| - 1] == faces + front;
    }
  }

  /** Faces inside the grid always have a normal, whatever the cache holds. */
  lemma {:induction false} GridFacesLookUpCached(cache: map<(int, int), Vector3>, m: seq<Sample>, width: int, height: int, faces: seq<(int, int)>)
    requires |m| == width * height
    requires forall f :: f in faces ==> IsFace(width, height, f)
    ensures LookupFaces(cache, m, width, faces).Some?
    decreases |faces|
  {
    if |faces| > 0 {
      var f := faces[|faces| - 1];
      assert f in faces;
      GridFacesLookUpCached(cache, m, width, height, faces[..|faces| - 1]);
      GridFaceNormal(m, width, height, f.0, f.1);
    }
  }

  /** The running sum of the normals, added in order from zero. */
  function Sum(ns: seq<Vector3>): Vector3
    decreases |ns|
  {
    if |ns| == 0 then Zero3 else Add(Sum(ns[..|ns| - 1]), ns[|ns| - 1])
  }

  /** Adding one more normal to the running sum. */
  lemma SumOneMore(ns: seq<Vector3>, n: Vector3)
    ensures Sum(ns + [n]) == Add(Sum(ns), n)
  {
    assert (ns + [n])[..|ns|] == ns;
  }

  /** The sum divided by the count, which starts at 9 and grows by one per face added. */
  function AverageNormal(ns: seq<Vector3>): Vector3
  {
    Divide(Sum(ns), (9 + |ns|) as real)
  }

  /** Summing k upright-pointing normals (y = 1) gives y = k. */
  lemma {:induction false} SumOfUprightNormals(ns: seq<Vector3>)
    requires forall i :: 0 <= i < |ns| ==> ns[i].y == 1.0
    ensures Sum(ns).y == |ns| as real
    decreases |ns|
  {
    if |ns| > 0 {
      SumOfUprightNormals(ns[..|ns| - 1]);
    }
  }

  /**
   * `sum / sum.Length()` is left to the `unit` parameter. The vertex normal
   * averages the normals of the faces around the vertex; None if one of them
   * cannot be computed.
   */
  function VertexNormal(m: seq<Sample>, width: int, height: int, x: int, z: int, unit: Vector3 -> Vector3): Option<Vector3>
  {
    var ns :- LookupFaces(map[], m, width, TouchingFaces(width, height, x, z));
    Some(unit(AverageNormal(ns)))
  }

  /**
   * Every vertex of the grid has a normal. On a unit-spaced grid, before the
   * division by the length, its y is k / (9 + k) for the k faces around it:
   * the count 9 + k keeps the average below one face's upright component.
   */
  lemma GridVertexNormal(m: seq<Sample>, width: int, height: int, x: int, z: int, unit: Vector3 -> Vector3)
    requires |m| == width * height && 0 <= x < width && 0 <= z < height
    ensures VertexNormal(m, width, height, x, z, unit).Some?
    ensures var faces := TouchingFaces(width, height, x, z);
      OnGrid(m, width, height) ==>
      AverageNormal(LookupFaces(map[], m, width, faces).value).y == |faces| as real / (9 + |faces|) as real
  {
    var faces := TouchingFaces(width, height, x, z);
    TouchingFacesAreTheFacesAround(width, height, x, z);
    GridFacesLookUpCached(map[], m, width, height, faces);
    if OnGrid(m, width, height) {
      UprightFaces(m, width, height, faces);
      SumOfUprightNormals(LookupFaces(map[], m, width, faces).value);
    }
  }

  /** On a unit-spaced grid every face normal has y = 1. */
  lemma {:induction false} UprightFaces(m: seq<Sample>, width: int, height: int, faces: seq<(int, int)>)
    requires OnGrid(m, width, height)
    requires forall f :: f in faces ==> IsFace(width, height, f)
    ensures LookupFaces(map[], m, width, faces).Some?
    ensures forall i :: 0 <= i < |faces| ==> LookupFaces(map[], m, width, faces).value[i].y == 1.0
    decreases |faces|
  {
    if |faces| > 0 {
      var f := faces[|faces| - 1];
      assert f in faces;
      UprightFaces(m, width, height, faces[..|faces| - 1]);
      GridFaceNormal(m, width, height, f.0, f.1);
    }
  }

  /** The vertex normal of every sample written in: the normals `CalculateNormals` produces. */
  function NormalledMap(m: seq<Sample>, width: int, height: int, unit: Vector3 -> Vector3): (r: seq<Sample>)
    requires |m| == width * height
    ensures |r| == |m|
  {
    if width <= 0 then
      m
    else
      seq(|m|, k requires 0 <= k < |m| =>
        match VertexNormal(m, width, height, k % width, k / width, unit)
        case Some(n) => WithNormal(m[k], n)
        case None => m[k])
  }

  // ---------------------------------------------------------------------
  // The face-normal array

  /** Face f's slot in the face-normal array, which holds W - 1 faces a row. */
  function FaceSlot(width: int, f: (int, int)): int
  {
    Index(width - 1, f.0, f.1)
  }

  /** As written, the slot uses H - 1 as the row length: `z * (H - 1) + x`. */
  function FaceSlotAsWritten(width: int, height: int, f: (int, int)): int
  {
    f.1 * (height - 1) + f.0
  }

  /**
   * With a 4 x 3 map the faces (2, 0) and (0, 1) share slot 2 as written, so
   * the normal of (2, 0) is lost and the array's last slots are never written.
   */
  lemma FaceSlotCounterexample()
    ensures IsFace(4, 3, (2, 0)) && IsFace(4, 3, (0, 1))
    ensures FaceSlotAsWritten(4, 3, (2, 0)) == FaceSlotAsWritten(4, 3, (0, 1)) == 2
    ensures FaceSlot(4, (2, 0)) == 2 && FaceSlot(4, (0, 1)) == 3
  {
  }

  /**
   * With a 2 x 4 map the first face, (0, 0), goes to slot 0 as written, and
   * the second, (0, 1), is already written to slot 3 of the 3-slot array.
   */
  lemma FaceSlotOverrun()
    ensures IsFace(2, 4, (0, 0)) && FaceSlotAsWritten(2, 4, (0, 0)) == 0
    ensures IsFace(2, 4, (0, 1)) && FaceSlotAsWritten(2, 4, (0, 1)) == 3 >= (4 - 1) * (2 - 1)
  {
  }

  /**
   * On every map with 2 <= W < H the last face, (W - 2, H - 2), is written
   * past the (H - 1)(W - 1) array as written, so `GetNewNormals` throws
   * before `Initialise` reaches the texture walk or the mesh.
   */
  lemma NarrowMapFaceOverrun(width: int, height: int)
    requires 2 <= width < height
    ensures IsFace(width, height, (width - 2, height - 2))
    ensures FaceSlotAsWritten(width, height, (width - 2, height - 2)) >= (height - 1) * (width - 1)
  {
    calc {
      (height - 1) * (width - 1);
    <= { assert width - 1 <= height - 2; }
      (height - 1) * (height - 2);
    <=
      (height - 2) * (height - 1) + width - 2;
    ==
      FaceSlotAsWritten(width, height, (width - 2, height - 2));
    }
  }

  /**
   * A one-column map has no faces, so `GetNewNormals` and `UpdateNormals`
   * touch no face slot; the texture walk as written then puts sample (0, 1)
   * at slot H of the H-entry list.
   */
  lemma OneColumnMap(height: int)
    requires 2 <= height
    ensures forall f: (int, int) :: !IsFace(1, height, f)
    ensures TextureSlotAsWritten(1, height, 0, 1) == height
  {
  }

  /** On a square map the two layouts agree. */
  lemma FaceSlotOnSquareMap(n: int, f: (int, int))
    ensures FaceSlotAsWritten(n, n, f) == FaceSlot(n, f)
  {
  }

  /** Each face of the grid has its own slot inside the (W - 1)(H - 1) array. */
  lemma FaceSlotInArray(width: int, height: int, f: (int, int))
    requires IsFace(width, height, f)
    ensures 0 <= FaceSlot(width, f) < (width - 1) * (height - 1)
  {
    PositionToIndex(width - 1, height - 1, f.0, f.1);
  }

  /** The array's normal for a slot; never read outside the array. */
  function SlotNormal(normals: seq<Vector3>, slot: int): Vector3
  {
    if 0 <= slot < |normals| then normals[slot] else Zero3
  }

  /** The normals of the faces, read from the face-normal array in order. */
  function StoredFaces(normals: seq<Vector3>, width: int, faces: seq<(int, int)>): (r: seq<Vector3>)
    ensures |r| == |faces|
    decreases |faces|
  {
    if |faces| == 0 then []
    else StoredFaces(normals, width, faces[..|faces| - 1]) + [SlotNormal(normals, FaceSlot(width, faces[|faces| - 1]))]
  }

  /** Reading one more face from the array appends its slot's normal. */
  lemma StoredOneMore(normals: seq<Vector3>, width: int, faces: seq<(int, int)>, f: (int, int))
    ensures StoredFaces(normals, width, faces + [f]) == StoredFaces(normals, width, faces) + [SlotNormal(normals, FaceSlot(width, f))]
  {
    assert (faces + [f])[..|faces|] == faces;
  }

  /** The face normal written to the array for face (x, z). */
  function GridFace(m: seq<Sample>, width: int, x: int, z: int): Vector3
  {
    match FaceNormal(m, width, x, z)
    case Some(n) => n
    case None => Zero3
  }

  /** The normals of the faces of the first `rows` rows of W - 1 faces each, in row-major order: the array `GetNewNormals` fills. */
  function FaceRows(m: seq<Sample>, width: nat, rows: nat): (normals: seq<Vector3>)
    requires width >= 1
    ensures |normals| == (width - 1) * rows
  {
    var cols := width - 1;
    if cols == 0 then []
    else seq(cols * rows, q requires 0 <= q < cols * rows => GridFace(m, width, q % cols, q / cols))
  }

  /** Face (x, z) is stored at its slot. */
  lemma FaceRowsAt(m: seq<Sample>, width: nat, rows: nat, x: int, z: int)
    requires width >= 1 && 0 <= x < width - 1 && 0 <= z < rows
    ensures 0 <= FaceSlot(width, (x, z)) < |FaceRows(m, width, rows)|
    ensures FaceRows(m, width, rows)[FaceSlot(width, (x, z))] == GridFace(m, width, x, z)
  {
    PositionToIndex(width - 1, rows, x, z);
  }

  /** A grid face's normal read from the filled array is its computed normal. */
  lemma StoredFace(m: seq<Sample>, width: nat, height: nat, f: (int, int))
    requires width >= 1 && height >= 1 && |m| == width * height && IsFace(width, height, f)
    ensures Lookup(map[], m, width, f) == Some(SlotNormal(FaceRows(m, width, height - 1), FaceSlot(width, f)))
  {
    GridFaceNormal(m, width, height, f.0, f.1);
    FaceRowsAt(m, width, height - 1, f.0, f.1);
    FaceSlotInArray(width, height, f);
  }

  /** Reading grid faces from the filled array gives the same normals as computing them. */
  lemma {:induction false} StoredFacesAreFresh(m: seq<Sample>, width: nat, height: nat, faces: seq<(int, int)>)
    requires width >= 1 && height >= 1 && |m| == width * height
    requires forall f :: f in faces ==> IsFace(width, height, f)
    ensures LookupFaces(map[], m, width, faces) == Some(StoredFaces(FaceRows(m, width, height - 1), width, faces))
    decreases |faces|
  {
    if |faces| > 0 {
      var f := faces[|faces| - 1];
      assert f in faces;
      StoredFacesAreFresh(m, width, height, faces[..|faces| - 1]);
      StoredFace(m, width, height, f);
    }
  }

  /** Every sample's normal replaced by the average of the array's normals of the faces around it: what `UpdateNormals` writes. */
  function ArrayNormalled(m: seq<Sample>, normals: seq<Vector3>, width: int, height: int, unit: Vector3 -> Vector3): (r: seq<Sample>)
    ensures |r| == |m|
  {
    if width <= 0 then
      m
    else
      seq(|m|, k requires 0 <= k < |m| =>
        WithNormal(m[k], unit(AverageNormal(StoredFaces(normals, width, TouchingFaces(width, height, k % width, k / width))))))
  }

  /** Averaging from the filled face-normal array gives every sample its vertex normal. */
  lemma ArrayNormalsAreVertexNormals(m: seq<Sample>, width: nat, height: nat, unit: Vector3 -> Vector3)
    requires width >= 1 && height >= 1 && |m| == width * height
    ensures ArrayNormalled(m, FaceRows(m, width, height - 1), width, height, unit) == NormalledMap(m, width, height, unit)
  {
    forall k | 0 <= k < |m|
      ensures ArrayNormalled(m, FaceRows(m, width, height - 1), width, height, unit)[k] == NormalledMap(m, width, height, unit)[k]
    {
      IndexToPosition(width, height, k);
      TouchingFacesAreTheFacesAround(width, height, k % width, k / width);
      StoredFacesAreFresh(m, width, height, TouchingFaces(width, height, k % width, k / width));
    }
  }

  // ---------------------------------------------------------------------
  // Texture coordinates

  /** `incrementValue`: the texture advance per sample, repeat / W; an empty map (W = 0) has no sample to use it on. */
  function TextureStep(width: int): real
  {
    if width == 0 then 0.0 else TextureRepeat as real / width as real
  }

  /** `incrementCount`: samples per texture repeat, W / repeat in integer division; 0 when W < repeat. */
  function TextureCycle(width: nat): nat
  {
    width / TextureRepeat
  }

  /**
   * `tuCount` and `tvCount` after k steps: up by one a step, back to 0 on
   * reaching n; with n = 0 the counter never goes back.
   */
  function Counter(n: nat, k: nat): nat
    decreases k
  {
    if k == 0 then 0
    else if Counter(n, k - 1) + 1 == n then 0
    else Counter(n, k - 1) + 1
  }

  /** The counter is the remainder of k by n, and k itself when n = 0. */
  lemma {:induction false} CounterIsRemainder(n: nat, k: nat)
    ensures Counter(n, k) == if n == 0 then k else k % n
    decreases k
  {
    if k > 0 {
      CounterIsRemainder(n, k - 1);
      if n > 0 {
        var q := (k - 1) / n;
        if (k - 1) % n + 1 == n {
          DivModUnique(k, n, q + 1, 0);
        } else {
          DivModUnique(k, n, q, (k - 1) % n + 1);
        }
      }
    }
  }

  /** One more step of s: the running coordinate after c + 1 steps. */
  lemma StepUp(c: int, s: real)
    ensures (c + 1) as real * s == c as real * s + s
  {
  }

  /**
   * Sample k, in row k / W, textured: tu runs with a counter over all samples,
   * not restarted at the start of a row, tv with a counter over the rows and
   * downwards from 1.
   */
  function Textured(s: Sample, width: nat, k: nat): Sample
    requires width > 0
  {
    s.(tu := TuAt(width, k), tv := TvAt(width, k / width))
  }

  /** `tuCoordinate` after k samples: up by a step a sample, back to 0 whenever the counter resets. */
  function TuAt(width: nat, k: nat): real
    decreases k
  {
    if k == 0 then 0.0
    else if Counter(TextureCycle(width), k - 1) + 1 == TextureCycle(width) then 0.0
    else TuAt(width, k - 1) + TextureStep(width)
  }

  /** `tvCoordinate` after j rows: down by a step a row, back to 1 whenever the counter resets. */
  function TvAt(width: nat, j: nat): real
    decreases j
  {
    if j == 0 then 1.0
    else if Counter(TextureCycle(width), j - 1) + 1 == TextureCycle(width) then 1.0
    else TvAt(width, j - 1) - TextureStep(width)
  }

  /** The running tu is the counter times the step. */
  lemma {:induction false} TuIsCounterSteps(width: nat, k: nat)
    ensures TuAt(width, k) == Counter(TextureCycle(width), k) as real * TextureStep(width)
    decreases k
  {
    if k > 0 {
      TuIsCounterSteps(width, k - 1);
      StepUp(Counter(TextureCycle(width), k - 1), TextureStep(width));
    }
  }

  /** The running tv is 1 less the counter times the step. */
  lemma {:induction false} TvIsCounterSteps(width: nat, j: nat)
    ensures TvAt(width, j) == 1.0 - Counter(TextureCycle(width), j) as real * TextureStep(width)
    decreases j
  {
    if j > 0 {
      TvIsCounterSteps(width, j - 1);
      StepUp(Counter(TextureCycle(width), j - 1), TextureStep(width));
    }
  }

  /** Every sample textured: the coordinates `CalculateTextureCoordinates` writes. Nothing but tu and tv changes. */
  function TexturedMap(m: seq<Sample>, width: nat): (r: seq<Sample>)
    ensures |r| == |m|
    ensures forall k :: 0 <= k < |m| ==> r[k] == m[k].(tu := r[k].tu, tv := r[k].tv)
  {
    if width == 0 then m else seq(|m|, k requires 0 <= k < |m| => Textured(m[k], width, k))
  }

  /** A list whose every entry is its sample textured is the textured map. */
  lemma TexturedMapFromEntries(m: seq<Sample>, width: nat, r: seq<Sample>)
    requires |r| == |m|
    requires forall k :: 0 <= k < |m| ==> width > 0 && r[k] == Textured(m[k], width, k)
    ensures r == TexturedMap(m, width)
  {
  }

  /** Sample (i, j) of a W x H map is textured with the sample counter at its index and the row counter at j. */
  lemma TexturedEntry(m: seq<Sample>, width: nat, height: nat, i: int, j: int)
    requires |m| == width * height && 0 <= i < width && 0 <= j < height
    ensures 0 <= Index(width, i, j) < |m|
    ensures TexturedMap(m, width)[Index(width, i, j)] ==
      m[Index(width, i, j)].(tu := TuAt(width, Index(width, i, j)), tv := TvAt(width, j))
  {
    PositionToIndex(width, height, i, j);
  }

  /** A map narrower than the repeat has no texture cycle: tu is never reset and grows by 8 / W per sample. */
  lemma NarrowMapNeverWraps(m: seq<Sample>, width: nat)
    requires 0 < width < TextureRepeat
    ensures TextureCycle(width) == 0
    ensures forall k :: 0 <= k < |m| ==> TexturedMap(m, width)[k].tu == k as real * (8.0 / width as real)
  {
    forall k | 0 <= k < |m|
      ensures TexturedMap(m, width)[k].tu == k as real * (8.0 / width as real)
    {
      assert TexturedMap(m, width)[k] == Textured(m[k], width, k);
      NarrowTu(width, k);
    }
  }

  /** With no texture cycle the running tu is k steps. */
  lemma NarrowTu(width: nat, k: nat)
    requires 0 < width < TextureRepeat
    ensures TuAt(width, k) == k as real * (8.0 / width as real)
  {
    CounterIsRemainder(0, k);
    TuIsCounterSteps(width, k);
    assert TextureCycle(width) == 0;
    assert TextureStep(width) == 8.0 / width as real;
  }

  /** c steps of s = 8 / w stay below 1 while 8 c < w. */
  lemma StepsBelowOne(c: real, s: real, w: real)
    requires 0.0 <= c && 8.0 * c < w && s == 8.0 / w
    ensures 0.0 <= c * s < 1.0
  {
    assert w > 0.0;
    assert s * w == 8.0;
    assert s > 0.0;
    NonNegativeProduct(c, s);
    if c * s >= 1.0 {
      MulMonotone(c * s, 1.0, w);
      assert false;
    }
  }

  lemma NonNegativeProduct(a: real, b: real)
    requires a >= 0.0 && b >= 0.0
    ensures a * b >= 0.0
  {
  }

  lemma MulMonotone(a: real, b: real, w: real)
    requires w > 0.0 && a >= b
    ensures a * w >= b * w
  {
  }

  /** On a map at least as wide as the repeat the counter stays below W / 8. */
  lemma CounterBelowCycle(width: nat, k: nat)
    requires TextureRepeat <= width
    ensures 8 * Counter(TextureCycle(width), k) < width
  {
    CounterIsRemainder(TextureCycle(width), k);
  }

  /** Fewer than W / 8 steps of 8 / W stay in [0, 1). */
  lemma CounterStepsBelowOne(c: nat, width: nat)
    requires 8 * c < width
    ensures 0.0 <= c as real * TextureStep(width) < 1.0
  {
    StepsBelowOne(c as real, TextureStep(width), width as real);
  }

  /**
   * On a map at least as wide as the repeat the counters wrap in time:
   * 0 <= tu < 1 and 0 < tv <= 1 for every sample, and tu repeats every
   * W / 8 samples.
   */
  lemma WideMapTexture(m: seq<Sample>, width: nat, k: nat)
    requires TextureRepeat <= width && k < |m|
    ensures 0.0 <= TexturedMap(m, width)[k].tu < 1.0
    ensures 0.0 < TexturedMap(m, width)[k].tv <= 1.0
  {
    assert TexturedMap(m, width)[k] == Textured(m[k], width, k);
    TuInUnitRange(width, k);
    TvInUnitRange(width, k / width);
  }

  /** On a map at least as wide as the repeat the running tu stays in [0, 1). */
  lemma TuInUnitRange(width: nat, k: nat)
    requires TextureRepeat <= width
    ensures 0.0 <= TuAt(width, k) < 1.0
  {
    TuIsCounterSteps(width, k);
    CounterBelowCycle(width, k);
    StepsInUnitRange(TuAt(width, k), Counter(TextureCycle(width), k), width);
  }

  /** A coordinate of c steps of 8 / W with 8 c < W lies in [0, 1). */
  lemma StepsInUnitRange(coordinate: real, c: nat, width: nat)
    requires 8 * c < width && coordinate == c as real * TextureStep(width)
    ensures 0.0 <= coordinate < 1.0
  {
    CounterStepsBelowOne(c, width);
  }

  /** On a map at least as wide as the repeat the running tv stays in (0, 1]. */
  lemma TvInUnitRange(width: nat, j: nat)
    requires TextureRepeat <= width
    ensures 0.0 < TvAt(width, j) <= 1.0
  {
    TvIsCounterSteps(width, j);
    CounterBelowCycle(width, j);
    StepsInUnitRange(1.0 - TvAt(width, j), Counter(TextureCycle(width), j), width);
  }

  /** On a map at least as wide as the repeat, tu comes round again every W / 8 samples. */
  lemma WideMapTexturePeriod(m: seq<Sample>, width: nat, k: nat)
    requires TextureRepeat <= width && k + TextureCycle(width) < |m|
    ensures TexturedMap(m, width)[k + TextureCycle(width)].tu == TexturedMap(m, width)[k].tu
  {
    var n := TextureCycle(width);
    assert TexturedMap(m, width)[k] == Textured(m[k], width, k);
    assert TexturedMap(m, width)[k + n] == Textured(m[k + n], width, k + n);
    TuPeriod(width, k);
  }

  /** The running tu repeats after W / 8 samples. */
  lemma TuPeriod(width: nat, k: nat)
    requires TextureRepeat <= width
    ensures TuAt(width, k + TextureCycle(width)) == TuAt(width, k)
  {
    TuIsCounterSteps(width, k);
    TuIsCounterSteps(width, k + TextureCycle(width));
    CounterPeriod(TextureCycle(width), k);
  }

  /** A counter reset every n samples repeats after n samples. */
  lemma CounterPeriod(n: nat, k: nat)
    requires n > 0
    ensures Counter(n, k + n) == Counter(n, k)
  {
    CounterIsRemainder(n, k);
    CounterIsRemainder(n, k + n);
    DivModUnique(k + n, n, k / n + 1, k % n);
  }

  /** As written, the walk stores sample (i, j) at `H * j + i`. */
  function TextureSlotAsWritten(width: int, height: int, i: int, j: int): int
  {
    height * j + i
  }

  /**
   * On a 2 x 3 map the walk writes rows 0 and 1 inside the list, then reaches
   * slot 6 of the 6-entry list at sample (0, 2) and throws; on a 3 x 2 map
   * (2, 0) and (0, 1) both land in slot 2, so sample 5 keeps its old
   * coordinates.
   */
  lemma TextureSlotCounterexample()
    ensures forall i, j :: 0 <= i < 2 && 0 <= j < 2 ==> 0 <= TextureSlotAsWritten(2, 3, i, j) < 2 * 3
    ensures TextureSlotAsWritten(2, 3, 0, 2) == 6 >= 2 * 3
    ensures TextureSlotAsWritten(3, 2, 2, 0) == TextureSlotAsWritten(3, 2, 0, 1) == 2
    ensures Index(3, 2, 0) != Index(3, 0, 1)
  {
  }

  /** On a square map the walk's slot is the sample's own index. */
  lemma TextureSlotOnSquareMap(n: int, i: int, j: int)
    ensures TextureSlotAsWritten(n, n, i, j) == Index(n, i, j)
  {
  }

  // ---------------------------------------------------------------------
  // The triangle list

  /** A sample as a vertex: its position, texture coordinate and normal. */
  function ToVertex(s: Sample): PositionTextureNormalVertex
  {
    PositionTextureNormalVertex(Position(s), s.tu, s.tv, Vector3(s.nx, s.ny, s.nz))
  }

  /** The vertex the buffers start out with before a cell is written into them. */
  const EmptyVertex: PositionTextureNormalVertex := PositionTextureNormalVertex(Zero3, 0.0, 0.0, Zero3)

  /** A top-edge tv of 1 is drawn as 0, so a cell at the start of a texture repeat covers its top edge. */
  function TopEdge(tv: real): (r: real)
    ensures 0.0 < tv <= 1.0 ==> 0.0 <= r < 1.0
    ensures tv != 1.0 ==> r == tv
  {
    if tv == 1.0 then 0.0 else tv
  }

  /** A right-edge tu of 0 is drawn as 1, so a cell at the end of a texture repeat covers its right edge. */
  function RightEdge(tu: real): (r: real)
    ensures 0.0 <= tu < 1.0 ==> 0.0 < r <= 1.0
    ensures tu != 0.0 ==> r == tu
  {
    if tu == 0.0 then 1.0 else tu
  }

  /** The sample at a slot of the list; a fallback for slots outside it, which a cell of the grid never reads. */
  function SampleAt(m: seq<Sample>, slot: int): Sample
  {
    if 0 <= slot < |m| then m[slot] else Sample(0.0, 0.0, 0.0, 0.0, 0.0, 0.0, 0.0, 0.0)
  }

  /** The slots of cell (i, j)'s corners, upper left, upper right, bottom left, bottom right, on rows of W samples. */
  function CornerSlots(width: int, i: int, j: int): seq<int>
  {
    [Index(width, i, j + 1), Index(width, i + 1, j + 1), Index(width, i, j), Index(width, i + 1, j)]
  }

  /**
   * The six vertices of cell (i, j): the triangle upper left, upper right,
   * bottom left and then bottom left, upper right, bottom right, with the
   * top and right edges' texture coordinates adjusted.
   */
  function CellMesh(m: seq<Sample>, width: int, i: int, j: int): (cell: seq<PositionTextureNormalVertex>)
    ensures |cell| == 6
  {
    var slots := CornerSlots(width, i, j);
    var upperLeft, upperRight := SampleAt(m, slots[0]), SampleAt(m, slots[1]);
    var bottomLeft, bottomRight := SampleAt(m, slots[2]), SampleAt(m, slots[3]);
    [ToVertex(upperLeft).(tv := TopEdge(upperLeft.tv)),
     ToVertex(upperRight).(tu := RightEdge(upperRight.tu), tv := TopEdge(upperRight.tv)),
     ToVertex(bottomLeft),
     ToVertex(bottomLeft),
     ToVertex(upperRight).(tu := RightEdge(upperRight.tu), tv := TopEdge(upperRight.tv)),
     ToVertex(bottomRight).(tu := RightEdge(bottomRight.tu))]
  }

  /** Every cell's six vertices, as one function of the cell. */
  function MeshCells(m: seq<Sample>, width: int): (cell: (int, int) -> seq<PositionTextureNormalVertex>)
    ensures SixEach(cell)
  {
    (i, j) => CellMesh(m, width, i, j)
  }

  /** The vertices of the first `rows` rows of W - 1 cells, row after row: the vertex array `InitialiseBuffers` fills. */
  function MeshRows(m: seq<Sample>, width: nat, rows: nat): seq<PositionTextureNormalVertex>
    requires width >= 1
  {
    CellGrid(MeshCells(m, width), width - 1, rows)
  }

  /** The first `rows` rows hold six vertices for each of their (W - 1) rows cells. */
  lemma MeshRowsLength(m: seq<Sample>, width: nat, rows: nat)
    requires width >= 1
    ensures |MeshRows(m, width, rows)| == 6 * (width - 1) * rows
  {
    CellGridLength(MeshCells(m, width), width - 1, rows);
    SlotsProduct(width - 1, rows);
  }

  /** Vertex c of cell (i, j) is entry c of the cell's six, which start at 6 times the cell's row-major index. */
  lemma MeshRowsAt(m: seq<Sample>, width: nat, rows: nat, i: int, j: int, c: int)
    requires width >= 1 && 0 <= i < width - 1 && 0 <= j < rows && 0 <= c < 6
    ensures 0 <= 6 * Index(width - 1, i, j) + c < |MeshRows(m, width, rows)|
    ensures MeshRows(m, width, rows)[6 * Index(width - 1, i, j) + c] == CellMesh(m, width, i, j)[c]
  {
    CellGridAt(MeshCells(m, width), width - 1, rows, i, j, c);
  }

  /** Cell (i, j)'s corners: its bottom-left sample b, b + 1, and the two a row of W further on, all inside the list. */
  lemma CornerSlotsFromBottomLeft(width: int, height: int, i: int, j: int)
    requires IsFace(width, height, (i, j))
    ensures var b := Index(width, i, j);
      0 <= b && b + width + 1 < width * height &&
      CornerSlots(width, i, j) == [b + width, b + width + 1, b, b + 1]
  {
    PositionToIndex(width, height, i + 1, j + 1);
  }

  /** The corners of a cell of the grid lie inside the list. */
  lemma CornerSlotsInGrid(width: int, height: int, i: int, j: int)
    requires IsFace(width, height, (i, j))
    ensures forall c :: 0 <= c < 4 ==> 0 <= CornerSlots(width, i, j)[c] < width * height
  {
    PositionToIndex(width, height, i, j);
    PositionToIndex(width, height, i + 1, j);
    PositionToIndex(width, height, i, j + 1);
    PositionToIndex(width, height, i + 1, j + 1);
  }

  /**
   * On a unit-spaced grid the six vertices of cell (i, j) sit on its four
   * corners, the upper ones one row further on, each with its own sample's
   * height and normal.
   */
  lemma CellCorners(m: seq<Sample>, width: int, height: int, i: int, j: int)
    requires OnGrid(m, width, height) && IsFace(width, height, (i, j))
    ensures 0 <= Index(width, i, j) < |m| && 0 <= Index(width, i + 1, j) < |m|
    ensures 0 <= Index(width, i, j + 1) < |m| && 0 <= Index(width, i + 1, j + 1) < |m|
    ensures var cell := CellMesh(m, width, i, j);
      cell[0].position == Vector3(i as real, m[Index(width, i, j + 1)].y, (j + 1) as real) &&
      cell[1].position == Vector3((i + 1) as real, m[Index(width, i + 1, j + 1)].y, (j + 1) as real) &&
      cell[2].position == cell[3].position == Vector3(i as real, m[Index(width, i, j)].y, j as real) &&
      cell[4].position == cell[1].position &&
      cell[5].position == Vector3((i + 1) as real, m[Index(width, i + 1, j)].y, j as real)
    ensures CellMesh(m, width, i, j)[2].normal == Vector3(m[Index(width, i, j)].nx, m[Index(width, i, j)].ny, m[Index(width, i, j)].nz)
  {
    CornerSlotsInGrid(width, height, i, j);
    SampleOnGrid(m, width, height, i, j);
    SampleOnGrid(m, width, height, i + 1, j);
    SampleOnGrid(m, width, height, i, j + 1);
    SampleOnGrid(m, width, height, i + 1, j + 1);
  }

  /** On a unit-spaced grid sample (i, j) sits at x = i, z = j. */
  lemma SampleOnGrid(m: seq<Sample>, width: int, height: int, i: int, j: int)
    requires OnGrid(m, width, height) && 0 <= i < width && 0 <= j < height
    ensures 0 <= Index(width, i, j) < |m|
    ensures Position(m[Index(width, i, j)]) == Vector3(i as real, m[Index(width, i, j)].y, j as real)
  {
    PositionToIndex(width, height, i, j);
    DivModUnique(Index(width, i, j), width, j, i);
  }

  /** The y of the normal of triangle (a, b, c) with its edges taken from a. */
  function TriangleFacing(a: Vector3, b: Vector3, c: Vector3): real
  {
    Cross(Sub(b, a), Sub(c, a)).y
  }

  /**
   * On a unit-spaced grid both triangles of a cell are wound the same way,
   * whatever the heights: their normals' y is 1, so neither is culled while
   * the other is drawn.
   */
  lemma CellTrianglesFaceAlike(m: seq<Sample>, width: int, height: int, i: int, j: int)
    requires OnGrid(m, width, height) && IsFace(width, height, (i, j))
    ensures var cell := CellMesh(m, width, i, j);
      TriangleFacing(cell[0].position, cell[1].position, cell[2].position) == 1.0 &&
      TriangleFacing(cell[3].position, cell[4].position, cell[5].position) == 1.0
  {
    CellCorners(m, width, height, i, j);
  }

  /** As written, cell (i, j)'s corners are read from rows of H samples: `H * j + i` and so on. */
  function CornerSlotsAsWritten(height: int, i: int, j: int): seq<int>
  {
    [height * (j + 1) + i, height * (j + 1) + i + 1, height * j + i, height * j + i + 1]
  }

  /** On a 3 x 2 map cell (1, 0)'s upper-right corner is read from slot 4, which holds sample (1, 1), not (2, 1). */
  lemma CornerSlotsCounterexample()
    ensures IsFace(3, 2, (1, 0))
    ensures CornerSlotsAsWritten(2, 1, 0)[1] == Index(3, 1, 1) == 4
    ensures CornerSlots(3, 1, 0)[1] == Index(3, 2, 1) == 5
  {
    var written, corrected := CornerSlotsAsWritten(2, 1, 0), CornerSlots(3, 1, 0);
    assert written[1] == 2 * 1 + 1 + 1;
    assert corrected[1] == 1 * 3 + 2;
  }

  /**
   * On a 2 x 3 map the first cell, (0, 0), reads only slots inside the
   * 6-entry list; the second, (0, 1), reads its upper-left corner first, at
   * slot 6, so that read throws and the buffers are not created.
   */
  lemma CornerSlotsOverrun()
    ensures IsFace(2, 3, (0, 0)) && IsFace(2, 3, (0, 1))
    ensures forall k :: 0 <= k < 4 ==> 0 <= CornerSlotsAsWritten(3, 0, 0)[k] < 2 * 3
    ensures CornerSlotsAsWritten(3, 0, 1)[0] == 6 >= 2 * 3
  {
    var first, second := CornerSlotsAsWritten(3, 0, 0), CornerSlotsAsWritten(3, 0, 1);
    assert first == [3, 4, 0, 1];
    assert second[0] == 3 * 2 + 0;
  }

  /** On a square map the two layouts agree. */
  lemma CornerSlotsOnSquareMap(n: int, i: int, j: int)
    ensures CornerSlotsAsWritten(n, i, j) == CornerSlots(n, i, j)
  {
  }
}
