/**
 * Row-major buffer layout shared by the mesh builders of sphere_chunk_demo.py
 * and engine.py: a flat list of floats is read as rows of a fixed width, a
 * (rows x cols) grid of cells is laid out row by row, two attribute streams are
 * interleaved row by row, and a UV-sphere grid is triangulated quad by quad.
 */
module MeshLayout {

  /** Three float components: a position, a normal, a colour or an offset. */
  datatype Vec3 = Vec3(x: real, y: real, z: real)

  /** A vertex buffer and the index buffer that triangulates it. */
  datatype Mesh = Mesh(vertices: seq<real>, indices: seq<int>)

  /** The Python exceptions the mesh builders and the chunk can raise. */
  datatype PyError = ZeroDivisionError | ValueError

  const Zero3 := Vec3(0.0, 0.0, 0.0)

  function Plus(a: Vec3, b: Vec3): Vec3 {
    Vec3(a.x + b.x, a.y + b.y, a.z + b.z)
  }

  function Coords(v: Vec3): seq<real> {
    [v.x, v.y, v.z]
  }

  /** Python's true division a / b; b == 0 gives 0, and no returned mesh contains such a value. */
  function Quot(a: real, b: real): real
  {
    if b == 0.0 then 0.0 else a / b
  }

  /** How many values Python's range(n) yields. */
  function Count(n: int): (r: nat)
    ensures n >= 0 ==> r == n
    ensures n < 0 ==> r == 0
  {
    if n > 0 then n else 0
  }

  /** The row number of cell (y, x) in a grid cols cells wide, rows first. */
  function Flat(cols: nat, y: nat, x: nat): nat
  {
    y * cols + x
  }

  /** Row i of a flat buffer read as rows of width w. */
  function Row<T>(s: seq<T>, w: nat, i: nat): (r: seq<T>)
    requires i * w + w <= |s|
    ensures |r| == w
  {
    s[i * w .. i * w + w]
  }

  /* ---------- grids of cells, laid out row by row ---------- */

  /** The cells (y, 0), ..., (y, x-1), concatenated. */
  function GridRow<T>(y: nat, x: nat, cell: (nat, nat) -> seq<T>): seq<T>
  {
    if x == 0 then [] else GridRow(y, x - 1, cell) + cell(y, x - 1)
  }

  /** The cells of rows 0 .. rows-1, each row of cols cells, concatenated:
      the order of a nested `for y in range(rows): for x in range(cols)`. */
  function Grid<T>(rows: nat, cols: nat, cell: (nat, nat) -> seq<T>): seq<T>
  {
    if rows == 0 then [] else Grid(rows - 1, cols, cell) + GridRow(rows - 1, cols, cell)
  }

  /** Every cell of the grid has exactly w entries. */
  ghost predicate Uniform<T>(rows: nat, cols: nat, cell: (nat, nat) -> seq<T>, w: nat)
  {
    forall y: nat, x: nat :: y < rows && x < cols ==> |cell(y, x)| == w
  }

  lemma MulStep(a: nat, b: nat)
    requires a > 0
    ensures (a - 1) * b + b == a * b
  {
  }

  lemma MulMono(a: nat, b: nat, c: nat)
    requires a <= b
    ensures a * c <= b * c
  {
  }

  /** n rows of six make a buffer of whole rows of six, n of them. */
  lemma WholeRows(n: nat)
    ensures (n * 6) % 6 == 0 && (n * 6) / 6 == n
  {
  }

  lemma GridLengthStep(r: nat, c: nat, w: nat)
    requires r > 0
    ensures (r - 1) * c * w + c * w == r * c * w
  {
    MulStep(r, c * w);
    assert (r - 1) * c * w == (r - 1) * (c * w);
    assert r * c * w == r * (c * w);
  }

  lemma CellBeforeLastRow(rows: nat, cols: nat, w: nat, y: nat, x: nat)
    requires y + 1 < rows && x < cols
    ensures (y * cols + x) * w + w <= (rows - 1) * cols * w
  {
    MulMono(y + 1, rows - 1, cols);
    assert y * cols + cols == (y + 1) * cols;
    MulMono(y * cols + x + 1, (rows - 1) * cols, w);
    assert (y * cols + x) * w + w == (y * cols + x + 1) * w;
  }

  lemma CellInRow(y: nat, cols: nat, w: nat, x: nat)
    requires x < cols
    ensures (y * cols + x) * w == y * cols * w + x * w
    ensures x * w + w <= cols * w
  {
    MulMono(x + 1, cols, w);
  }

  lemma {:induction false} GridRowLength<T>(y: nat, x: nat, cell: (nat, nat) -> seq<T>, w: nat)
    requires forall i: nat :: i < x ==> |cell(y, i)| == w
    ensures |GridRow(y, x, cell)| == x * w
  {
    if x > 0 {
      GridRowLength(y, x - 1, cell, w);
      MulStep(x, w);
    }
  }

  /** A grid of uniform cells of width w holds rows * cols * w entries. */
  lemma {:induction false} GridLength<T>(rows: nat, cols: nat, cell: (nat, nat) -> seq<T>, w: nat)
    requires Uniform(rows, cols, cell, w)
    ensures |Grid(rows, cols, cell)| == rows * cols * w
  {
    if rows > 0 {
      GridLength(rows - 1, cols, cell, w);
      GridRowLength(rows - 1, cols, cell, w);
      GridLengthStep(rows, cols, w);
    }
  }

  lemma SliceLeft<T>(a: seq<T>, b: seq<T>, lo: nat, hi: nat)
    requires lo <= hi <= |a|
    ensures (a + b)[lo .. hi] == a[lo .. hi]
  {
  }

  lemma SliceRight<T>(a: seq<T>, b: seq<T>, lo: nat, hi: nat)
    requires |a| <= lo <= hi <= |a| + |b|
    ensures (a + b)[lo .. hi] == b[lo - |a| .. hi - |a|]
  {
  }

  lemma {:induction false} GridRowCell<T>(y: nat, xs: nat, cell: (nat, nat) -> seq<T>, w: nat, x: nat)
    requires forall i: nat :: i < xs ==> |cell(y, i)| == w
    requires x < xs
    ensures |GridRow(y, xs, cell)| == xs * w
    ensures x * w + w <= xs * w
    ensures Row(GridRow(y, xs, cell), w, x) == cell(y, x)
  {
    GridRowLength(y, xs, cell, w);
    GridRowLength(y, xs - 1, cell, w);
    CellInRow(0, xs, w, x);
    var front, back := GridRow(y, xs - 1, cell), cell(y, xs - 1);
    assert GridRow(y, xs, cell) == front + back;
    MulMono(0, x, w);
    var lo := x * w;
    if x < xs - 1 {
      GridRowCell(y, xs - 1, cell, w, x);
      SliceLeft(front, back, lo, lo + w);
    } else {
      assert lo == |front|;
      SliceRight(front, back, lo, lo + w);
    }
  }

  lemma CellFits(rows: nat, cols: nat, w: nat, y: nat, x: nat)
    requires y < rows && x < cols
    ensures (y * cols + x) * w + w <= rows * cols * w
  {
    MulMono(y + 1, rows, cols);
    assert y * cols + cols == (y + 1) * cols;
    MulMono(y * cols + x + 1, rows * cols, w);
    assert (y * cols + x) * w + w == (y * cols + x + 1) * w;
  }

  /** Cell (y, x) of a uniform grid is its row number y * cols + x. */
  lemma {:induction false} GridCell<T>(rows: nat, cols: nat, cell: (nat, nat) -> seq<T>, w: nat, y: nat, x: nat)
    requires Uniform(rows, cols, cell, w)
    requires y < rows && x < cols
    ensures |Grid(rows, cols, cell)| == rows * cols * w
    ensures (y * cols + x) * w + w <= rows * cols * w
    ensures Row(Grid(rows, cols, cell), w, y * cols + x) == cell(y, x)
    decreases rows, 1
  {
    GridLength(rows, cols, cell, w);
    CellFits(rows, cols, w, y, x);
    if y + 1 < rows {
      GridCellEarlierRow(rows, cols, cell, w, y, x);
    } else {
      GridCellLastRow(rows, cols, cell, w, x);
    }
  }

  lemma {:induction false} GridCellEarlierRow<T>(rows: nat, cols: nat, cell: (nat, nat) -> seq<T>, w: nat, y: nat, x: nat)
    requires Uniform(rows, cols, cell, w)
    requires y + 1 < rows && x < cols
    ensures (y * cols + x) * w + w <= |Grid(rows - 1, cols, cell)|
    ensures Grid(rows, cols, cell)[(y * cols + x) * w .. (y * cols + x) * w + w] == cell(y, x)
    decreases rows, 0
  {
    GridCell(rows - 1, cols, cell, w, y, x);
    MulMono(0, y * cols + x, w);
    var lo := (y * cols + x) * w;
    SliceLeft(Grid(rows - 1, cols, cell), GridRow(rows - 1, cols, cell), lo, lo + w);
  }

  lemma {:induction false} GridCellLastRow<T>(rows: nat, cols: nat, cell: (nat, nat) -> seq<T>, w: nat, x: nat)
    requires Uniform(rows, cols, cell, w)
    requires 0 < rows && x < cols
    ensures ((rows - 1) * cols + x) * w + w <= |Grid(rows, cols, cell)|
    ensures Grid(rows, cols, cell)[((rows - 1) * cols + x) * w .. ((rows - 1) * cols + x) * w + w] == cell(rows - 1, x)
  {
    var y := rows - 1;
    var front, back := Grid(y, cols, cell), GridRow(y, cols, cell);
    assert Grid(rows, cols, cell) == front + back;
    GridLength(y, cols, cell, w);
    GridRowCell(y, cols, cell, w, x);
    CellInRow(y, cols, w, x);
    MulMono(0, x, w);
    var lo := |front| + x * w;
    assert lo == (y * cols + x) * w;
    SliceRight(front, back, lo, lo + w);
  }

  /** Bounds that hold of every entry of every cell hold of every entry of the grid. */
  lemma {:induction false} GridWithin(rows: nat, cols: nat, cell: (nat, nat) -> seq<int>, lo: int, hi: int)
    requires forall y: nat, x: nat, k: nat :: y < rows && x < cols && k < |cell(y, x)| ==> lo <= cell(y, x)[k] < hi
    ensures forall k :: 0 <= k < |Grid(rows, cols, cell)| ==> lo <= Grid(rows, cols, cell)[k] < hi
  {
    if rows > 0 {
      GridWithin(rows - 1, cols, cell, lo, hi);
      GridRowWithin(rows - 1, cols, cell, lo, hi);
    }
  }

  lemma {:induction false} GridRowWithin(y: nat, xs: nat, cell: (nat, nat) -> seq<int>, lo: int, hi: int)
    requires forall x: nat, k: nat :: x < xs && k < |cell(y, x)| ==> lo <= cell(y, x)[k] < hi
    ensures forall k :: 0 <= k < |GridRow(y, xs, cell)| ==> lo <= GridRow(y, xs, cell)[k] < hi
  {
    if xs > 0 {
      GridRowWithin(y, xs - 1, cell, lo, hi);
    }
  }

  /* ---------- interleaving two attribute streams row by row ---------- */

  /** Rows 0 .. n-1 of a (width wa) each followed by the same row of b (width wb):
      the buffer `for i in range(n): out.extend(a_row_i); out.extend(b_row_i)` builds. */
  function Zip<T>(a: seq<T>, wa: nat, b: seq<T>, wb: nat, n: nat): seq<T>
    requires n * wa <= |a| && n * wb <= |b|
  {
    if n == 0 then []
    else
      MulStep(n, wa);
      MulStep(n, wb);
      Zip(a, wa, b, wb, n - 1) + Row(a, wa, n - 1) + Row(b, wb, n - 1)
  }

  lemma {:induction false} ZipLength<T>(a: seq<T>, wa: nat, b: seq<T>, wb: nat, n: nat)
    requires n * wa <= |a| && n * wb <= |b|
    ensures |Zip(a, wa, b, wb, n)| == n * (wa + wb)
  {
    if n > 0 {
      MulStep(n, wa);
      MulStep(n, wb);
      ZipLength(a, wa, b, wb, n - 1);
      MulStep(n, wa + wb);
    }
  }

  /** Row i of the interleaved buffer (width wa + wb) is row i of a then row i of b. */
  lemma {:induction false} ZipRow<T>(a: seq<T>, wa: nat, b: seq<T>, wb: nat, n: nat, i: nat)
    requires n * wa <= |a| && n * wb <= |b|
    requires i < n
    ensures |Zip(a, wa, b, wb, n)| == n * (wa + wb)
    ensures i * wa + wa <= |a| && i * wb + wb <= |b|
    ensures i * (wa + wb) + (wa + wb) <= n * (wa + wb)
    ensures Row(Zip(a, wa, b, wb, n), wa + wb, i) == Row(a, wa, i) + Row(b, wb, i)
    decreases n, 1
  {
    ZipLength(a, wa, b, wb, n);
    MulMono(i + 1, n, wa);
    MulMono(i + 1, n, wb);
    MulMono(i + 1, n, wa + wb);
    if i < n - 1 {
      ZipRowEarlier(a, wa, b, wb, n, i);
    } else {
      ZipRowLast(a, wa, b, wb, n);
    }
  }

  lemma {:induction false} ZipRowEarlier<T>(a: seq<T>, wa: nat, b: seq<T>, wb: nat, n: nat, i: nat)
    requires n * wa <= |a| && n * wb <= |b|
    requires i + 1 < n
    ensures i * wa + wa <= |a| && i * wb + wb <= |b|
    ensures i * (wa + wb) + (wa + wb) <= |Zip(a, wa, b, wb, n)|
    ensures Zip(a, wa, b, wb, n)[i * (wa + wb) .. i * (wa + wb) + (wa + wb)] == Row(a, wa, i) + Row(b, wb, i)
    decreases n, 0
  {
    ZipUnfold(a, wa, b, wb, n);
    ZipRow(a, wa, b, wb, n - 1, i);
    var front := Zip(a, wa, b, wb, n - 1);
    var lo := i * (wa + wb);
    MulMono(0, i, wa + wb);
    SliceLeft(front, Row(a, wa, n - 1) + Row(b, wb, n - 1), lo, lo + (wa + wb));
  }

  /** The last step of Zip, with the earlier rows' prefix defined. */
  lemma ZipUnfold<T>(a: seq<T>, wa: nat, b: seq<T>, wb: nat, n: nat)
    requires n * wa <= |a| && n * wb <= |b|
    requires n > 0
    ensures (n - 1) * wa <= |a| && (n - 1) * wb <= |b|
    ensures (n - 1) * wa + wa <= |a| && (n - 1) * wb + wb <= |b|
    ensures Zip(a, wa, b, wb, n) == Zip(a, wa, b, wb, n - 1) + Row(a, wa, n - 1) + Row(b, wb, n - 1)
  {
    MulStep(n, wa);
    MulStep(n, wb);
  }

  lemma {:induction false} ZipRowLast<T>(a: seq<T>, wa: nat, b: seq<T>, wb: nat, n: nat)
    requires n * wa <= |a| && n * wb <= |b|
    requires 0 < n
    ensures (n - 1) * wa + wa <= |a| && (n - 1) * wb + wb <= |b|
    ensures (n - 1) * (wa + wb) + (wa + wb) <= |Zip(a, wa, b, wb, n)|
    ensures Zip(a, wa, b, wb, n)[(n - 1) * (wa + wb) .. (n - 1) * (wa + wb) + (wa + wb)]
         == Row(a, wa, n - 1) + Row(b, wb, n - 1)
  {
    ZipUnfold(a, wa, b, wb, n);
    ZipLength(a, wa, b, wb, n - 1);
    var front := Zip(a, wa, b, wb, n - 1);
    var back := Row(a, wa, n - 1) + Row(b, wb, n - 1);
    SliceRight(front, back, |front|, |front| + |back|);
  }

  /** The components of a list of 3-vectors, in order (numpy's view of an n x 3 array as flat). */
  function Flatten(vs: seq<Vec3>): seq<real>
  {
    if |vs| == 0 then [] else Flatten(vs[..|vs| - 1]) + Coords(vs[|vs| - 1])
  }

  lemma {:induction false} FlattenRow(vs: seq<Vec3>, i: nat)
    requires i < |vs|
    ensures |Flatten(vs)| == 3 * |vs|
    ensures Row(Flatten(vs), 3, i) == Coords(vs[i])
  {
    FlattenLength(vs);
    var n := |vs|;
    var front := Flatten(vs[..n - 1]);
    FlattenLength(vs[..n - 1]);
    if i < n - 1 {
      FlattenRow(vs[..n - 1], i);
      SliceLeft(front, Coords(vs[n - 1]), 3 * i, 3 * i + 3);
    } else {
      SliceRight(front, Coords(vs[n - 1]), 3 * i, 3 * i + 3);
    }
  }

  lemma {:induction false} FlattenLength(vs: seq<Vec3>)
    ensures |Flatten(vs)| == 3 * |vs|
  {
    if |vs| > 0 {
      FlattenLength(vs[..|vs| - 1]);
    }
  }

  /* ---------- triangulation of a UV-sphere grid ---------- */

  /** The two triangles of grid quad (y, x) when each grid row holds segments + 1
      points: (i0, i2, i1) and (i1, i2, i3), where i1 is the right neighbour of
      i0, i2 the point below i0 and i3 the right neighbour of i2. */
  function Quad(y: nat, x: nat, segments: nat): seq<int>
  {
    var i0 := y * (segments + 1) + x;
    var i2 := i0 + segments + 1;
    [i0, i2, i0 + 1, i0 + 1, i2, i2 + 1]
  }

  function QuadCell(segments: nat): (nat, nat) -> seq<int>
  {
    (y: nat, x: nat) => Quad(y, x, segments)
  }


  /** The index buffer of a sphere of `rings` rings and `segments` segments: the
      quads taken row by row, six indices each. */
  function QuadIndices(rings: nat, segments: nat): seq<int>
  {
    Grid(rings, segments, QuadCell(segments))
  }

  lemma QuadCellUniform(rings: nat, segments: nat)
    ensures Uniform(rings, segments, QuadCell(segments), 6)
  {
  }

  /** The index buffer has six entries per quad: 6 * rings * segments. */
  lemma QuadIndicesLength(rings: nat, segments: nat)
    ensures |QuadIndices(rings, segments)| == 6 * (rings * segments)
  {
    QuadCellUniform(rings, segments);
    GridLength(rings, segments, QuadCell(segments), 6);
  }

  /** Quad (y, x) occupies entries 6 * (y * segments + x) .. + 6 and emits the two
      triangles (i0, i2, i1) and (i1, i2, i3), which share the edge i1 - i2. */
  lemma QuadIndicesAt(rings: nat, segments: nat, y: nat, x: nat)
    requires y < rings && x < segments
    ensures (y * segments + x) * 6 + 6 <= |QuadIndices(rings, segments)|
    ensures
      var i0 := y * (segments + 1) + x;
      var i1 := i0 + 1;
      var i2 := i0 + (segments + 1);
      var i3 := i2 + 1;
      var quad := Row(QuadIndices(rings, segments), 6, y * segments + x);
      quad == [i0, i2, i1, i1, i2, i3] && quad[..3] == [i0, i2, i1] && quad[3..] == [i1, i2, i3]
  {
    QuadCellUniform(rings, segments);
    GridCell(rings, segments, QuadCell(segments), 6, y, x);
  }

  lemma QuadWithin(rings: nat, segments: nat, y: nat, x: nat)
    requires y < rings && x < segments
    ensures forall k :: 0 <= k < 6 ==> 0 <= Quad(y, x, segments)[k] < (rings + 1) * (segments + 1)
  {
    MulMono(y + 2, rings + 1, segments + 1);
    assert (y + 2) * (segments + 1) == y * (segments + 1) + 2 * segments + 2;
  }

  /** Every index names an existing grid point: 0 <= index < (rings + 1) * (segments + 1). */
  lemma QuadIndicesWithin(rings: nat, segments: nat)
    ensures forall k :: 0 <= k < |QuadIndices(rings, segments)| ==>
      0 <= QuadIndices(rings, segments)[k] < (rings + 1) * (segments + 1)
  {
    forall y: nat, x: nat | y < rings && x < segments
      ensures forall k :: 0 <= k < 6 ==> 0 <= QuadCell(segments)(y, x)[k] < (rings + 1) * (segments + 1)
    {
      QuadWithin(rings, segments, y, x);
    }
    GridWithin(rings, segments, QuadCell(segments), 0, (rings + 1) * (segments + 1));
  }
}
