/**
 * Row-major grids: point (x, z) of a grid whose rows are `width` points long
 * is stored at z * width + x. The sky plane and the terrain both lay out
 * their points this way.
 */
module RowMajor {

  function Index(width: int, x: int, z: int): int
  {
    z * width + x
  }

  /** A multiple of n strictly between -n and n is zero. */
  lemma QuotientUnique(n: int, d: int, e: int)
    requires n > 0 && -n < e < n && n * d == e
    ensures d == 0
  {
  }

  /** Division with remainder is unique: a = q * n + r with 0 <= r < n fixes a / n and a % n. */
  lemma DivModUnique(a: int, n: int, q: int, r: int)
    requires n > 0 && 0 <= r < n && a == q * n + r
    ensures a / n == q && a % n == r
  {
    var q', r' := a / n, a % n;
    assert q' * n + r' == q * n + r;
    QuotientUnique(n, q' - q, r - r');
  }

  /** The index of a point of a width x height grid lies in [0, width * height), and dividing by the width gives the point back. */
  lemma PositionToIndex(width: int, height: int, x: int, z: int)
    requires 0 <= x < width && 0 <= z < height
    ensures 0 <= Index(width, x, z) < width * height
    ensures Index(width, x, z) / width == z && Index(width, x, z) % width == x
  {
    IndexBelowArea(width, height, x, z);
    DivModUnique(Index(width, x, z), width, z, x);
  }

  /** The index of a point of a width x height grid lies in [0, width * height). */
  lemma IndexBelowArea(width: int, height: int, x: int, z: int)
    requires 0 <= x < width && 0 <= z < height
    ensures 0 <= Index(width, x, z) < width * height
  {
    ProductMonotone(z, height - 1, width);
    assert (height - 1) * width == height * width - width;
  }

  lemma ProductMonotone(a: int, b: int, c: int)
    requires 0 <= a <= b && 0 <= c
    ensures 0 <= a * c <= b * c
  {
    assert b * c == a * c + (b - a) * c;
  }

  /** Every index in [0, width * height) is the index of the point (k % width, k / width) of the grid. */
  lemma IndexToPosition(width: int, height: int, k: int)
    requires width > 0 && 0 <= k < width * height
    ensures 0 <= k % width < width && 0 <= k / width < height
    ensures Index(width, k % width, k / width) == k
  {
  }

  /** Two points of a grid share an index only if they are the same point. */
  lemma IndexInjective(width: int, height: int, x: int, z: int, x': int, z': int)
    requires 0 <= x < width && 0 <= z < height && 0 <= x' < width && 0 <= z' < height
    requires Index(width, x, z) == Index(width, x', z')
    ensures x == x' && z == z'
  {
    PositionToIndex(width, height, x, z);
    PositionToIndex(width, height, x', z');
  }

  /** Row z + 1 starts `width` points after row z; the last row ends where the grid does. */
  lemma RowAfterRow(width: int, height: int, z: int)
    requires 0 <= width && 0 <= z < height
    ensures (z + 1) * width == z * width + width
    ensures z + 1 < height ==> (z + 1) * width + width <= width * height
    ensures z + 1 == height ==> (z + 1) * width == width * height
  {
    if z + 1 < height {
      assert (z + 2) * width <= height * width;
    }
  }

  /** Where entry m of cell (i, j) falls among the first `rows` rows of 6 * cols entries each. */
  lemma CellPosition(cols: nat, rows: nat, i: int, j: int, m: int)
    requires 0 <= i < cols && 0 <= j < rows && 0 <= m < 6
    ensures j < rows - 1 ==> (j * cols + i) * 6 + m < 6 * cols * (rows - 1)
    ensures j == rows - 1 ==> (j * cols + i) * 6 + m == 6 * cols * (rows - 1) + (6 * i + m)
  {
    if j < rows - 1 {
      assert (j * cols + i) * 6 + m < (j + 1) * cols * 6;
      assert (j + 1) * cols <= (rows - 1) * cols;
    }
  }

  /** The number of entries in `rows` rows of `cols` cells of six entries, counted row by row. */
  function Slots(cols: int, rows: nat): int
  {
    if rows == 0 then 0 else Slots(cols, rows - 1) + 6 * cols
  }

  /** Fewer rows never hold more entries. */
  lemma {:induction false} SlotsBelow(cols: nat, j: nat, rows: nat)
    requires j <= rows
    ensures Slots(cols, j) <= Slots(cols, rows)
    decreases rows
  {
    if j < rows {
      SlotsBelow(cols, j, rows - 1);
    }
  }

  /** Row by row, the count is six entries per cell of a cols by rows grid. */
  lemma {:induction false} SlotsProduct(cols: int, rows: nat)
    ensures Slots(cols, rows) == 6 * cols * rows
  {
    if rows > 0 {
      SlotsProduct(cols, rows - 1);
      RowStep(cols, rows - 1);
    }
  }

  /** Slot m of cell (i, j) lies before the last row of cells, or inside that row at 6 i + m past its start. */
  lemma MeshSlot(cols: nat, rows: nat, i: int, j: int, m: int)
    requires 0 <= i < cols && 0 <= j < rows && 0 <= m < 6
    ensures 0 <= 6 * Index(cols, i, j) + m
    ensures j < rows - 1 ==> 6 * Index(cols, i, j) + m < Slots(cols, rows - 1)
    ensures j == rows - 1 ==> 6 * Index(cols, i, j) + m == Slots(cols, rows - 1) + (6 * i + m)
  {
    SlotsProduct(cols, rows - 1);
    assert 6 * Index(cols, i, j) + m == (j * cols + i) * 6 + m;
    CellPosition(cols, rows, i, j, m);
  }

  /** The six entries of cell (i, j) fit in the cols * rows * 6 entries the cells fill. */
  lemma CellFits(cols: int, rows: int, i: int, j: int)
    requires 0 <= i < cols && 0 <= j < rows
    ensures 6 * cols * j + 6 * i + 6 <= cols * rows * 6
  {
    assert cols * j + cols == cols * (j + 1);
    assert cols * (j + 1) <= cols * rows;
    assert 6 * cols * j == 6 * (cols * j) && cols * rows * 6 == 6 * (cols * rows);
  }

  /** Row j of 6 * cols entries fits in a buffer of cols * rows * 6 entries, and ends where row j + 1 starts. */
  lemma RowFits(cols: int, rows: int, j: int, length: int)
    requires 0 <= cols && 0 <= j < rows && length == cols * rows * 6
    ensures 6 * cols * j + 6 * cols <= length
    ensures 6 * cols * j + 6 * cols == 6 * cols * (j + 1)
  {
    ProductMonotone(j + 1, rows, cols);
  }

  /** A full row of cells takes 6 * cols entries. */
  lemma RowStep(cols: int, j: int)
    ensures 6 * cols * j + 6 * cols == 6 * cols * (j + 1)
  {
  }

  /** A buffer of cols * rows * 6 entries ends where the rows of 6 * cols entries do. */
  lemma BufferLength(cols: int, rows: int, length: int)
    requires length == cols * rows * 6
    ensures length == 6 * cols * rows
  {
  }

  // Meshes built cell by cell: cell (i, j) of a cols x rows block of cells
  // contributes six vertices, cells are written row after row, and the six
  // vertices of cell (i, j) therefore start at 6 times its row-major index.

  /** The six vertices of every cell (two triangles). */
  ghost predicate SixEach<T>(cell: (int, int) -> seq<T>)
  {
    forall i, j :: |cell(i, j)| == 6
  }

  /** Cells (0, j) .. (i - 1, j) of row j, in order. */
  function CellRow<T>(cell: (int, int) -> seq<T>, j: int, i: nat): seq<T>
  {
    if i == 0 then [] else CellRow(cell, j, i - 1) + cell(i - 1, j)
  }

  /** The first `rows` rows of `cols` cells each, row after row. */
  function CellGrid<T>(cell: (int, int) -> seq<T>, cols: nat, rows: nat): seq<T>
  {
    if rows == 0 then [] else CellGrid(cell, cols, rows - 1) + CellRow(cell, rows - 1, cols)
  }

  /** Appending cell (i, j) to cells (0, j) .. (i - 1, j), after any prefix, gives the first i + 1 cells of the row. */
  lemma CellRowGrows<T>(prefix: seq<T>, cell: (int, int) -> seq<T>, j: int, i: nat)
    ensures (prefix + CellRow(cell, j, i)) + cell(i, j) == prefix + CellRow(cell, j, i + 1)
  {
  }

  /** Appending full row j to the first j rows gives the first j + 1 rows. */
  lemma CellGridGrows<T>(cell: (int, int) -> seq<T>, cols: nat, j: nat)
    ensures CellGrid(cell, cols, j) + CellRow(cell, j, cols) == CellGrid(cell, cols, j + 1)
  {
  }

  /** A row of i cells holds 6 i vertices. */
  lemma {:induction false} CellRowLength<T>(cell: (int, int) -> seq<T>, j: int, i: nat)
    requires SixEach(cell)
    ensures |CellRow(cell, j, i)| == 6 * i
  {
    if i > 0 {
      CellRowLength(cell, j, i - 1);
    }
  }

  /** The first `rows` rows hold `Slots(cols, rows)` = 6 cols rows vertices. */
  lemma {:induction false} CellGridLength<T>(cell: (int, int) -> seq<T>, cols: nat, rows: nat)
    requires SixEach(cell)
    ensures |CellGrid(cell, cols, rows)| == Slots(cols, rows)
  {
    if rows > 0 {
      CellGridLength(cell, cols, rows - 1);
      CellRowLength(cell, rows - 1, cols);
    }
  }

  /** Vertex m of cell (i, j) sits at 6 i + m within its row. */
  lemma {:induction false} CellRowAt<T>(cell: (int, int) -> seq<T>, j: int, cells: nat, i: int, m: int)
    requires SixEach(cell) && 0 <= i < cells && 0 <= m < 6
    ensures 6 * i + m < |CellRow(cell, j, cells)|
    ensures CellRow(cell, j, cells)[6 * i + m] == cell(i, j)[m]
  {
    var before := CellRow(cell, j, cells - 1);
    CellRowLength(cell, j, cells - 1);
    assert |cell(cells - 1, j)| == 6;
    if i < cells - 1 {
      CellRowAt(cell, j, cells - 1, i, m);
    } else {
      assert 6 * i + m == |before| + m;
    }
  }

  /** Vertex m of cell (i, j) sits at 6 Index(cols, i, j) + m of the grid. */
  lemma {:induction false} CellGridAt<T>(cell: (int, int) -> seq<T>, cols: nat, rows: nat, i: int, j: int, m: int)
    requires SixEach(cell) && 0 <= i < cols && 0 <= j < rows && 0 <= m < 6
    ensures 0 <= 6 * Index(cols, i, j) + m < |CellGrid(cell, cols, rows)|
    ensures CellGrid(cell, cols, rows)[6 * Index(cols, i, j) + m] == cell(i, j)[m]
  {
    var previous := CellGrid(cell, cols, rows - 1);
    CellGridLength(cell, cols, rows - 1);
    CellRowLength(cell, rows - 1, cols);
    MeshSlot(cols, rows, i, j, m);
    if j < rows - 1 {
      CellGridAt(cell, cols, rows - 1, i, j, m);
    } else {
      CellRowAt(cell, j, cols, i, m);
    }
  }

  /** The six consecutive writes of one cell: `a[index + m] := s[m]` for m = 0..5, nothing else touched. */
  method PutSix<T>(a: array<T>, index: int, s: seq<T>)
    requires |s| == 6 && 0 <= index && index + 6 <= a.Length
    modifies a
    ensures a[..index + 6] == old(a[..index]) + s
    ensures a[index + 6..] == old(a[index + 6..])
  {
    ghost var before := a[..index];
    a[index] := s[0];
    a[index + 1] := s[1];
    a[index + 2] := s[2];
    a[index + 3] := s[3];
    a[index + 4] := s[4];
    a[index + 5] := s[5];
    assert a[..index] == before;
    assert a[index..index + 6] == s;
    assert a[..index + 6] == a[..index] + a[index..index + 6];
  }
}
