/**
 * The mesh engine of super-python/engine.py: `generate_normals`, the box, sphere
 * and plane geometries, and the scene / object records.
 *
 * Floats are reals. `np.cross` is the function parameter `cross`, and
 * `v / np.linalg.norm(v)` for a non-zero v is the function parameter `unit`;
 * everything stated here holds whatever those two functions compute.
 */
module Engine {
  import opened Wrappers
  import opened MeshLayout

  /* ---------- generate_normals ---------- */

  /** What generate_normals needs of its input: whole rows of six floats
      (x, y, z, r, g, b), whole triangles, and every index naming a row. */
  predicate ValidTriangles(vertices: seq<real>, indices: seq<int>)
  {
    && |vertices| % 6 == 0
    && |indices| % 3 == 0
    && forall k :: 0 <= k < |indices| ==> 0 <= indices[k] < |vertices| / 6
  }

  /** verts[i]: the x, y, z of vertex row i. */
  function PositionOf(vertices: seq<real>, i: int): Vec3
    requires 0 <= i && 6 * i + 6 <= |vertices|
  {
    Vec3(vertices[6 * i], vertices[6 * i + 1], vertices[6 * i + 2])
  }

  function Minus(a: Vec3, b: Vec3): Vec3
  {
    Vec3(a.x - b.x, a.y - b.y, a.z - b.z)
  }

  /** `n / norm(n) if norm(n) != 0 else n`: a real vector has norm 0 exactly when
      it is the zero vector, and then it is kept as it is. */
  function Normalize(n: Vec3, unit: Vec3 -> Vec3): (r: Vec3)
    ensures n == Zero3 ==> r == Zero3
    ensures n != Zero3 ==> r == unit(n)
  {
    if n == Zero3 then n else unit(n)
  }

  /** The normal of triangle s: the normalised cross product of its two edges
      from the first corner. */
  function FaceNormal(vertices: seq<real>, indices: seq<int>, cross: (Vec3, Vec3) -> Vec3,
                      unit: Vec3 -> Vec3, s: nat): Vec3
    requires ValidTriangles(vertices, indices) && s < |indices| / 3
  {
    var v1 := PositionOf(vertices, indices[3 * s]);
    var v2 := PositionOf(vertices, indices[3 * s + 1]);
    var v3 := PositionOf(vertices, indices[3 * s + 2]);
    Normalize(cross(Minus(v2, v1), Minus(v3, v1)), unit)
  }

  /** The three corners of triangle s name whole vertex rows. */
  lemma TriangleCorners(vertices: seq<real>, indices: seq<int>, s: nat)
    requires ValidTriangles(vertices, indices) && s < |indices| / 3
    ensures 3 * s + 2 < |indices|
    ensures forall c :: 3 * s <= c < 3 * s + 3 ==> 0 <= indices[c] && 6 * indices[c] + 6 <= |vertices|
  {
  }

  /** The face normal of every triangle, in order. */
  function FaceNormals(vertices: seq<real>, indices: seq<int>, cross: (Vec3, Vec3) -> Vec3,
                       unit: Vec3 -> Vec3): (fs: seq<Vec3>)
    requires ValidTriangles(vertices, indices)
    ensures |fs| == |indices| / 3
    ensures forall s :: 0 <= s < |fs| ==> fs[s] == FaceNormal(vertices, indices, cross, unit, s)
  {
    seq(|indices| / 3, s requires 0 <= s < |indices| / 3 => FaceNormal(vertices, indices, cross, unit, s))
  }

  /** The normal the loop computes for the triangle (i1, i2, i3) at position s
      is the face normal of triangle s. */
  lemma FaceNormalOf(vertices: seq<real>, indices: seq<int>, cross: (Vec3, Vec3) -> Vec3, unit: Vec3 -> Vec3,
                     s: nat, i1: int, i2: int, i3: int, normal: Vec3)
    requires ValidTriangles(vertices, indices) && s < |indices| / 3
    requires 3 * s + 2 < |indices|
    requires i1 == indices[3 * s] && i2 == indices[3 * s + 1] && i3 == indices[3 * s + 2]
    requires 0 <= i1 && 6 * i1 + 6 <= |vertices| && 0 <= i2 && 6 * i2 + 6 <= |vertices| && 0 <= i3 && 6 * i3 + 6 <= |vertices|
    requires
      var v1, v2, v3 := PositionOf(vertices, i1), PositionOf(vertices, i2), PositionOf(vertices, i3);
      var c := cross(Minus(v2, v1), Minus(v3, v1));
      normal == if c != Zero3 then unit(c) else c
    ensures normal == FaceNormals(vertices, indices, cross, unit)[s]
  {
  }

  /** `acc[i] += f`; an index outside the array is never passed in (see
      ValidTriangles), and leaves it unchanged. */
  function AddAt(acc: seq<Vec3>, i: int, f: Vec3): (r: seq<Vec3>)
    ensures |r| == |acc|
  {
    if 0 <= i < |acc| then acc[i := Plus(acc[i], f)] else acc
  }

  /** n zero vectors: `np.zeros((n, 3))` read as rows. */
  function Zeros(n: nat): (z: seq<Vec3>)
    ensures |z| == n
    ensures forall i :: 0 <= i < n ==> z[i] == Zero3
  {
    if n == 0 then [] else Zeros(n - 1) + [Zero3]
  }

  /** The `normals` array of n zero vectors after the first t triangles of
      `indices`, whose normals are `faces`, have been added to their three
      corners, in the order the loop does it. */
  function Scattered(indices: seq<int>, faces: seq<Vec3>, n: nat, t: nat): (acc: seq<Vec3>)
    requires 3 * t <= |indices| && t <= |faces|
    ensures |acc| == n
  {
    if t == 0 then Zeros(n)
    else
      var s := t - 1;
      var prev := Scattered(indices, faces, n, s);
      AddAt(AddAt(AddAt(prev, indices[3 * s], faces[s]), indices[3 * s + 1], faces[s]), indices[3 * s + 2], faces[s])
  }

  /** What corner `i` of a triangle with normal f gives vertex v. */
  function Corner(i: int, v: int, f: Vec3): Vec3
  {
    if i == v then f else Zero3
  }

  /** What triangle s gives vertex v: its normal once per corner that is v. */
  function Contribution(indices: seq<int>, faces: seq<Vec3>, s: nat, v: int): Vec3
    requires 3 * s + 3 <= |indices| && s < |faces|
  {
    var f := faces[s];
    Plus(Plus(Corner(indices[3 * s], v, f), Corner(indices[3 * s + 1], v, f)), Corner(indices[3 * s + 2], v, f))
  }

  /** The sum over the first t triangles of what each gives vertex v. */
  function FaceSum(indices: seq<int>, faces: seq<Vec3>, t: nat, v: int): Vec3
    requires 3 * t <= |indices| && t <= |faces|
  {
    if t == 0 then Zero3
    else Plus(FaceSum(indices, faces, t - 1, v), Contribution(indices, faces, t - 1, v))
  }

  /** The scatter loop leaves in every vertex the sum of the normals of the
      triangles that have it as a corner, counted once per such corner. */
  lemma {:induction false} ScatteredIsFaceSum(indices: seq<int>, faces: seq<Vec3>, n: nat, t: nat, v: nat)
    requires 3 * t <= |indices| && t <= |faces|
    requires forall k :: 0 <= k < 3 * t ==> 0 <= indices[k] < n
    requires v < n
    ensures Scattered(indices, faces, n, t)[v] == FaceSum(indices, faces, t, v)
  {
    if t > 0 {
      var s := t - 1;
      ScatteredIsFaceSum(indices, faces, n, s, v);
      ScatteredStepAt(indices, faces, n, s, v);
      var f := faces[s];
      var c1, c2, c3 := Corner(indices[3 * s], v, f), Corner(indices[3 * s + 1], v, f), Corner(indices[3 * s + 2], v, f);
      PlusAssoc3(Scattered(indices, faces, n, s)[v], c1, c2, c3);
    }
  }

  /** One triangle step of the scatter, seen from vertex v. */
  lemma ScatteredStepAt(indices: seq<int>, faces: seq<Vec3>, n: nat, s: nat, v: nat)
    requires 3 * s + 3 <= |indices| && s < |faces|
    requires forall k :: 3 * s <= k < 3 * s + 3 ==> 0 <= indices[k] < n
    requires v < n
    ensures
      var f := faces[s];
      Scattered(indices, faces, n, s + 1)[v]
      == Plus(Plus(Plus(Scattered(indices, faces, n, s)[v], Corner(indices[3 * s], v, f)),
                   Corner(indices[3 * s + 1], v, f)), Corner(indices[3 * s + 2], v, f))
  {
    var f := faces[s];
    var a0 := Scattered(indices, faces, n, s);
    var a1 := AddAt(a0, indices[3 * s], f);
    var a2 := AddAt(a1, indices[3 * s + 1], f);
    AddAtAt(a0, indices[3 * s], f, v);
    AddAtAt(a1, indices[3 * s + 1], f, v);
    AddAtAt(a2, indices[3 * s + 2], f, v);
  }

  /** After `acc[i] += f`, entry v has gained f exactly when v is i. */
  lemma AddAtAt(acc: seq<Vec3>, i: int, f: Vec3, v: nat)
    requires 0 <= i < |acc| && v < |acc|
    ensures AddAt(acc, i, f)[v] == Plus(acc[v], Corner(i, v, f))
  {
  }

  lemma PlusAssoc3(a: Vec3, b: Vec3, c: Vec3, d: Vec3)
    ensures Plus(Plus(Plus(a, b), c), d) == Plus(a, Plus(Plus(b, c), d))
  {
  }

  /** A vertex that no index names keeps the zero normal. */
  lemma {:induction false} UnreferencedKeepsZero(indices: seq<int>, faces: seq<Vec3>, t: nat, v: int)
    requires 3 * t <= |indices| && t <= |faces|
    requires forall k :: 0 <= k < 3 * t ==> indices[k] != v
    ensures FaceSum(indices, faces, t, v) == Zero3
  {
    if t > 0 {
      UnreferencedKeepsZero(indices, faces, t - 1, v);
      assert indices[3 * (t - 1)] != v && indices[3 * (t - 1) + 1] != v && indices[3 * (t - 1) + 2] != v;
    }
  }

  /** The normals array after the scatter loop. */
  function Accumulated(vertices: seq<real>, indices: seq<int>, cross: (Vec3, Vec3) -> Vec3,
                       unit: Vec3 -> Vec3): (acc: seq<Vec3>)
    requires ValidTriangles(vertices, indices)
    ensures |acc| == |vertices| / 6
  {
    Scattered(indices, FaceNormals(vertices, indices, cross, unit), |vertices| / 6, |indices| / 3)
  }

  /** The normals after line 24: every accumulated normal normalised. */
  function VertexNormals(vertices: seq<real>, indices: seq<int>, cross: (Vec3, Vec3) -> Vec3,
                         unit: Vec3 -> Vec3): (ns: seq<Vec3>)
    requires ValidTriangles(vertices, indices)
    ensures |ns| == |vertices| / 6
  {
    NormalizeAll(Accumulated(vertices, indices, cross, unit), unit)
  }

  /** Line 24: every normal divided by its length, zero normals kept. */
  function NormalizeAll(acc: seq<Vec3>, unit: Vec3 -> Vec3): (ns: seq<Vec3>)
    ensures |ns| == |acc|
    ensures forall k :: 0 <= k < |acc| ==> ns[k] == Normalize(acc[k], unit)
  {
    seq(|acc|, k requires 0 <= k < |acc| => Normalize(acc[k], unit))
  }

  /** The returned array: each row of six widened to nine by its normal. */
  function WithNormals(vertices: seq<real>, indices: seq<int>, cross: (Vec3, Vec3) -> Vec3,
                       unit: Vec3 -> Vec3): seq<real>
    requires ValidTriangles(vertices, indices)
  {
    var ns := VertexNormals(vertices, indices, cross, unit);
    FlattenLength(ns);
    Zip(vertices, 6, Flatten(ns), 3, |vertices| / 6)
  }

  /** The scatter loop of generate_normals over the zero-initialised `normals` array. */
  method AccumulateNormals(vertices: seq<real>, indices: seq<int>, cross: (Vec3, Vec3) -> Vec3, unit: Vec3 -> Vec3)
    returns (acc: seq<Vec3>)
    requires ValidTriangles(vertices, indices)
    ensures acc == Accumulated(vertices, indices, cross, unit)
  {
    var normals := new Vec3[|vertices| / 6](_ => Zero3);
    assert normals[..] == Zeros(|vertices| / 6);
    ScatterFaces(vertices, indices, cross, unit, normals);
    acc := normals[..];
  }

  /** The loop proper, on the zeroed array: one pass per triangle (i = 0, 3, 6, ...
      in the source). */
  method ScatterFaces(vertices: seq<real>, indices: seq<int>, cross: (Vec3, Vec3) -> Vec3, unit: Vec3 -> Vec3,
                      normals: array<Vec3>)
    requires ValidTriangles(vertices, indices)
    requires normals[..] == Zeros(|vertices| / 6)
    modifies normals
    ensures normals[..] == Accumulated(vertices, indices, cross, unit)
  {
    ghost var faces := FaceNormals(vertices, indices, cross, unit);
    var triangles := |indices| / 3;
    var t := 0;
    while t < triangles
      invariant t <= triangles
      invariant normals[..] == Scattered(indices, faces, |vertices| / 6, t)
    {
      AddFaceNormal(vertices, indices, cross, unit, normals, 3 * t, t, faces);
      t := t + 1;
    }
  }

  /** One pass of the scatter loop: the normal of the triangle at indices[i .. i + 3]
      is added to each of its three corners. */
  method AddFaceNormal(vertices: seq<real>, indices: seq<int>, cross: (Vec3, Vec3) -> Vec3, unit: Vec3 -> Vec3,
                       normals: array<Vec3>, i: int, ghost t: nat, ghost faces: seq<Vec3>)
    requires ValidTriangles(vertices, indices) && faces == FaceNormals(vertices, indices, cross, unit)
    requires i == 3 * t && t < |faces|
    requires normals[..] == Scattered(indices, faces, |vertices| / 6, t)
    modifies normals
    ensures normals[..] == Scattered(indices, faces, |vertices| / 6, t + 1)
  {
    TriangleCorners(vertices, indices, t);
    var i1, i2, i3 := indices[i], indices[i + 1], indices[i + 2];
    var v1, v2, v3 := PositionOf(vertices, i1), PositionOf(vertices, i2), PositionOf(vertices, i3);
    var edge1, edge2 := Minus(v2, v1), Minus(v3, v1);
    var normal := cross(edge1, edge2);
    if normal != Zero3 {
      normal := unit(normal);
    }
    FaceNormalOf(vertices, indices, cross, unit, t, i1, i2, i3, normal);
    ghost var before := normals[..];
    normals[i1] := Plus(normals[i1], normal);
    assert normals[..] == AddAt(before, i1, normal);
    normals[i2] := Plus(normals[i2], normal);
    assert normals[..] == AddAt(AddAt(before, i1, normal), i2, normal);
    normals[i3] := Plus(normals[i3], normal);
    assert normals[..] == AddAt(AddAt(AddAt(before, i1, normal), i2, normal), i3, normal);
  }

  /** generate_normals: accumulate, normalise, then widen every row of six to nine. */
  method GenerateNormals(vertices: seq<real>, indices: seq<int>, cross: (Vec3, Vec3) -> Vec3, unit: Vec3 -> Vec3)
    returns (out: seq<real>)
    requires ValidTriangles(vertices, indices)
    ensures out == WithNormals(vertices, indices, cross, unit)
  {
    var acc := AccumulateNormals(vertices, indices, cross, unit);
    var units := NormalizeAll(acc, unit);
    out := WidenRows(vertices, units);
  }

  /** The widening loop: row i of six floats followed by normal i. */
  method WidenRows(vertices: seq<real>, units: seq<Vec3>) returns (out: seq<real>)
    requires |vertices| == 6 * |units|
    ensures |Flatten(units)| == 3 * |units|
    ensures out == Zip(vertices, 6, Flatten(units), 3, |units|)
  {
    var n := |units|;
    FlattenLength(units);
    out := [];
    var j := 0;
    while j < n
      invariant j <= n
      invariant out == Zip(vertices, 6, Flatten(units), 3, j)
    {
      var nx, ny, nz := units[j].x, units[j].y, units[j].z;
      FlattenRow(units, j);
      out := out + vertices[6 * j .. 6 * j + 6] + [nx, ny, nz];
      j := j + 1;
    }
  }

  /** The normal of vertex i is the normalised sum of its face contributions. */
  lemma VertexNormalIsFaceSum(vertices: seq<real>, indices: seq<int>, cross: (Vec3, Vec3) -> Vec3,
                              unit: Vec3 -> Vec3, i: nat)
    requires ValidTriangles(vertices, indices)
    requires i < |vertices| / 6
    ensures VertexNormals(vertices, indices, cross, unit)[i]
         == Normalize(FaceSum(indices, FaceNormals(vertices, indices, cross, unit), |indices| / 3, i), unit)
  {
    var faces := FaceNormals(vertices, indices, cross, unit);
    var t := |indices| / 3;
    assert 3 * t == |indices|;
    ScatteredIsFaceSum(indices, faces, |vertices| / 6, t, i);
  }

  /** Nine floats per input vertex: row i of the result is input row i followed
      by the normalised sum of the normals of the triangles around vertex i. */
  lemma GenerateNormalsRow(vertices: seq<real>, indices: seq<int>, cross: (Vec3, Vec3) -> Vec3,
                           unit: Vec3 -> Vec3, i: nat)
    requires ValidTriangles(vertices, indices)
    requires i < |vertices| / 6
    ensures |WithNormals(vertices, indices, cross, unit)| == |vertices| / 6 * 9
    ensures i * 9 + 9 <= |WithNormals(vertices, indices, cross, unit)| && i * 6 + 6 <= |vertices|
    ensures
      var normal := Normalize(FaceSum(indices, FaceNormals(vertices, indices, cross, unit), |indices| / 3, i), unit);
      Row(WithNormals(vertices, indices, cross, unit), 9, i) == Row(vertices, 6, i) + Coords(normal)
  {
    var n := |vertices| / 6;
    var ns := VertexNormals(vertices, indices, cross, unit);
    FlattenRow(ns, i);
    ZipRow(vertices, 6, Flatten(ns), 3, n, i);
    VertexNormalIsFaceSum(vertices, indices, cross, unit, i);
  }

  /** The first six floats of every output row are the input row unchanged;
      the last three are its normal. */
  lemma GenerateNormalsKeepsInput(vertices: seq<real>, indices: seq<int>, cross: (Vec3, Vec3) -> Vec3,
                                  unit: Vec3 -> Vec3, i: nat)
    requires ValidTriangles(vertices, indices)
    requires i < |vertices| / 6
    ensures i * 9 + 9 <= |WithNormals(vertices, indices, cross, unit)| && i * 6 + 6 <= |vertices|
    ensures
      var out := WithNormals(vertices, indices, cross, unit);
      var normal := Normalize(FaceSum(indices, FaceNormals(vertices, indices, cross, unit), |indices| / 3, i), unit);
      && out[i * 9 .. i * 9 + 6] == vertices[i * 6 .. i * 6 + 6]
      && out[i * 9 + 6 .. i * 9 + 9] == Coords(normal)
  {
    GenerateNormalsRow(vertices, indices, cross, unit, i);
    var out := WithNormals(vertices, indices, cross, unit);
    var row := out[i * 9 .. i * 9 + 9];
    assert out[i * 9 .. i * 9 + 6] == row[..6];
    assert out[i * 9 + 6 .. i * 9 + 9] == row[6..];
  }

  /* ---------- BoxGeometry ---------- */

  /** The eight corners of the cube [-1, 1]^3, position then colour. */
  function BoxVertices(): (v: seq<real>)
    ensures |v| == 8 * 6
  {
    [ -1.0, -1.0, -1.0, 1.0, 0.0, 0.0,
       1.0, -1.0, -1.0, 0.0, 1.0, 0.0,
       1.0,  1.0, -1.0, 0.0, 0.0, 1.0,
      -1.0,  1.0, -1.0, 1.0, 1.0, 0.0,
      -1.0, -1.0,  1.0, 1.0, 0.0, 1.0,
       1.0, -1.0,  1.0, 0.0, 1.0, 1.0,
       1.0,  1.0,  1.0, 1.0, 1.0, 1.0,
      -1.0,  1.0,  1.0, 0.0, 0.0, 0.0 ]
  }

  /** Six faces of two triangles each. */
  function BoxIndices(): (r: seq<int>)
    ensures |r| == 36
    ensures forall k :: 0 <= k < |r| ==> 0 <= r[k] < 8
  {
    [ 0, 1, 2, 2, 3, 0,
      4, 5, 6, 6, 7, 4,
      0, 1, 5, 5, 4, 0,
      2, 3, 7, 7, 6, 2,
      0, 3, 7, 7, 4, 0,
      1, 2, 6, 6, 5, 1 ]
  }

  method BoxGeometry(cross: (Vec3, Vec3) -> Vec3, unit: Vec3 -> Vec3) returns (mesh: Mesh)
    ensures ValidTriangles(BoxVertices(), BoxIndices())
    ensures mesh.indices == BoxIndices()
    ensures mesh.vertices == WithNormals(BoxVertices(), BoxIndices(), cross, unit)
    ensures |mesh.vertices| == 8 * 9
  {
    var vertices := BoxVertices();
    var indices := BoxIndices();
    vertices := GenerateNormals(vertices, indices, cross, unit);
    GenerateNormalsRow(BoxVertices(), indices, cross, unit, 0);
    mesh := Mesh(vertices, indices);
  }

  /* ---------- PlaneGeometry ---------- */

  /** A width x height rectangle in the z = 0 plane centred on the origin. */
  function PlaneVertices(width: real, height: real): (v: seq<real>)
    ensures |v| == 4 * 6
    ensures forall i :: 0 <= i < 4 ==> v[6 * i + 2] == 0.0
    ensures forall i :: 0 <= i < 4 ==> (v[6 * i] == width / 2.0 || v[6 * i] == -width / 2.0)
    ensures forall i :: 0 <= i < 4 ==> (v[6 * i + 1] == height / 2.0 || v[6 * i + 1] == -height / 2.0)
  {
    [ -width / 2.0, -height / 2.0, 0.0, 1.0, 0.0, 0.0,
       width / 2.0, -height / 2.0, 0.0, 0.0, 1.0, 0.0,
       width / 2.0,  height / 2.0, 0.0, 0.0, 0.0, 1.0,
      -width / 2.0,  height / 2.0, 0.0, 1.0, 1.0, 0.0 ]
  }

  /** Two triangles sharing the diagonal 0 - 2. */
  function PlaneIndices(): (r: seq<int>)
    ensures |r| == 6
    ensures forall k :: 0 <= k < |r| ==> 0 <= r[k] < 4
  {
    [0, 1, 2, 2, 3, 0]
  }

  method PlaneGeometry(width: real, height: real, cross: (Vec3, Vec3) -> Vec3, unit: Vec3 -> Vec3)
    returns (mesh: Mesh)
    ensures ValidTriangles(PlaneVertices(width, height), PlaneIndices())
    ensures mesh.indices == PlaneIndices()
    ensures mesh.vertices == WithNormals(PlaneVertices(width, height), PlaneIndices(), cross, unit)
    ensures |mesh.vertices| == 4 * 9
  {
    var vertices := PlaneVertices(width, height);
    var indices := PlaneIndices();
    vertices := GenerateNormals(vertices, indices, cross, unit);
    GenerateNormalsRow(PlaneVertices(width, height), indices, cross, unit, 0);
    mesh := Mesh(vertices, indices);
  }

  /* ---------- SphereGeometry ---------- */

  /** The constructor raises ZeroDivisionError exactly when its loops reach
      x / segments or y / rings with a zero divisor. */
  predicate SphereGeometryRaises(segments: int, rings: int)
  {
    rings >= 0 && segments >= 0 && (segments == 0 || rings == 0)
  }

  /** Grid point (y, x) of the unit sphere, white. */
  function SphereCell(surface: (real, real) -> Vec3, segments: int, rings: int): (nat, nat) -> seq<real>
  {
    (y: nat, x: nat) => Coords(surface(Quot(y as real, rings as real), Quot(x as real, segments as real))) + [1.0, 1.0, 1.0]
  }

  lemma SphereCellAt(surface: (real, real) -> Vec3, segments: int, rings: int, y: nat, x: nat)
    ensures SphereCell(surface, segments, rings)(y, x)
         == Coords(surface(Quot(y as real, rings as real), Quot(x as real, segments as real))) + [1.0, 1.0, 1.0]
  {
  }

  lemma SphereCellUniform(surface: (real, real) -> Vec3, segments: int, rings: int, rows: nat, cols: nat)
    ensures Uniform(rows, cols, SphereCell(surface, segments, rings), 6)
  {
    forall y: nat, x: nat | y < rows && x < cols
      ensures |SphereCell(surface, segments, rings)(y, x)| == 6
    {
      SphereCellAt(surface, segments, rings, y, x);
    }
  }

  /** The `vertices` list before normals: (rings + 1) * (segments + 1) rows of six. */
  function SphereGridVertices(surface: (real, real) -> Vec3, segments: int, rings: int): (v: seq<real>)
    ensures |v| == Count(rings + 1) * Count(segments + 1) * 6
  {
    SphereCellUniform(surface, segments, rings, Count(rings + 1), Count(segments + 1));
    GridLength(Count(rings + 1), Count(segments + 1), SphereCell(surface, segments, rings), 6);
    Grid(Count(rings + 1), Count(segments + 1), SphereCell(surface, segments, rings))
  }

  /** Row y * (segments + 1) + x of the vertex list is grid point (y, x), white. */
  lemma SphereGridVertexAt(surface: (real, real) -> Vec3, segments: int, rings: int, y: nat, x: nat)
    requires y < Count(rings + 1) && x < Count(segments + 1)
    ensures
      var vertices := SphereGridVertices(surface, segments, rings);
      && Flat(Count(segments + 1), y, x) * 6 + 6 <= |vertices|
      && Row(vertices, 6, Flat(Count(segments + 1), y, x))
         == Coords(surface(Quot(y as real, rings as real), Quot(x as real, segments as real))) + [1.0, 1.0, 1.0]
  {
    var rows, cols := Count(rings + 1), Count(segments + 1);
    SphereCellUniform(surface, segments, rings, rows, cols);
    GridCell(rows, cols, SphereCell(surface, segments, rings), 6, y, x);
  }

  /** Whenever the constructor gets past its loops, the triangulation only names
      existing grid points, so generate_normals may be called on it. */
  lemma SphereGeometryValid(surface: (real, real) -> Vec3, segments: int, rings: int)
    requires !SphereGeometryRaises(segments, rings)
    ensures ValidTriangles(SphereGridVertices(surface, segments, rings), QuadIndices(Count(rings), Count(segments)))
  {
    var vertices := SphereGridVertices(surface, segments, rings);
    var indices := QuadIndices(Count(rings), Count(segments));
    QuadIndicesLength(Count(rings), Count(segments));
    if rings > 0 && segments > 0 {
      QuadIndicesWithin(rings, segments);
      assert |vertices| / 6 == (rings + 1) * (segments + 1);
    } else {
      assert Count(rings) * Count(segments) == 0;
      assert indices == [];
    }
  }

  /** The index loop of the constructor: two triangles per grid quad. */
  method SphereGridIndices(segments: int, rings: int) returns (indices: seq<int>)
    ensures indices == QuadIndices(Count(rings), Count(segments))
  {
    indices := [];
    ghost var quads := Count(segments);
    var y: nat := 0;
    while y < rings
      invariant y <= Count(rings)
      invariant indices == Grid(y, quads, QuadCell(quads))
    {
      var x: nat := 0;
      while x < segments
        invariant x <= quads
        invariant indices == Grid(y, quads, QuadCell(quads)) + GridRow(y, x, QuadCell(quads))
      {
        var i1 := y * (segments + 1) + x;
        var i2 := i1 + segments + 1;
        indices := indices + [i1, i2, i1 + 1, i1 + 1, i2, i2 + 1];
        x := x + 1;
      }
      y := y + 1;
    }
  }

  /** The vertex loop of the constructor: one white grid point per (ring, segment),
      raising on the first division by a zero segment or ring count. */
  method SphereVertexLoop(segments: int, rings: int, surface: (real, real) -> Vec3)
    returns (r: Result<seq<real>, PyError>)
    ensures r.Failure? <==> SphereGeometryRaises(segments, rings)
    ensures r.Failure? ==> r.error == ZeroDivisionError
    ensures r.Success? ==> r.value == SphereGridVertices(surface, segments, rings)
  {
    var vertices: seq<real> := [];
    ghost var cols := Count(segments + 1);
    ghost var cell := SphereCell(surface, segments, rings);
    var y: nat := 0;
    while y < rings + 1
      invariant y <= Count(rings + 1)
      invariant y > 0 && segments >= 0 ==> segments != 0 && rings != 0
      invariant vertices == Grid(y, cols, cell)
    {
      var x: nat := 0;
      while x < segments + 1
        invariant x <= cols
        invariant x > 0 ==> segments != 0 && rings != 0
        invariant vertices == Grid(y, cols, cell) + GridRow(y, x, cell)
      {
        if segments == 0 {
          return Failure(ZeroDivisionError);
        }
        var xSegment := x as real / segments as real;
        if rings == 0 {
          return Failure(ZeroDivisionError);
        }
        var ySegment := y as real / rings as real;
        var p := surface(ySegment, xSegment);
        SphereCellAt(surface, segments, rings, y, x);
        vertices := vertices + [p.x, p.y, p.z, 1.0, 1.0, 1.0];
        x := x + 1;
      }
      assert x == cols;
      y := y + 1;
    }
    assert y == Count(rings + 1);
    r := Success(vertices);
  }

  method SphereGeometry(segments: int, rings: int, surface: (real, real) -> Vec3,
                        cross: (Vec3, Vec3) -> Vec3, unit: Vec3 -> Vec3)
    returns (r: Result<Mesh, PyError>)
    ensures r.Failure? <==> SphereGeometryRaises(segments, rings)
    ensures r.Failure? ==> r.error == ZeroDivisionError
    ensures r.Success? ==>
      && ValidTriangles(SphereGridVertices(surface, segments, rings), QuadIndices(Count(rings), Count(segments)))
      && r.value.indices == QuadIndices(Count(rings), Count(segments))
      && r.value.vertices == WithNormals(SphereGridVertices(surface, segments, rings),
                                         QuadIndices(Count(rings), Count(segments)), cross, unit)
  {
    var grid := SphereVertexLoop(segments, rings, surface);
    if grid.Failure? {
      return Failure(grid.error);
    }
    var indices := SphereGridIndices(segments, rings);
    SphereGeometryValid(surface, segments, rings);
    var vertices := GenerateNormals(grid.value, indices, cross, unit);
    r := Success(Mesh(vertices, indices));
  }

  /* ---------- Scene and Object3D ---------- */

  /** The vertex array an object draws with (a GPU handle). */
  datatype VertexArrayHandle = VertexArrayHandle(id: nat)

  class Object3D {
    const vao: VertexArrayHandle
    var position: Vec3
    var rotation: Vec3
    var scale: Vec3

    /** A new object sits at the origin, unrotated, at scale 1. */
    constructor (vao: VertexArrayHandle)
      ensures this.vao == vao
      ensures position == Vec3(0.0, 0.0, 0.0) && rotation == Vec3(0.0, 0.0, 0.0)
      ensures scale == Vec3(1.0, 1.0, 1.0)
    {
      this.vao := vao;
      position := Vec3(0.0, 0.0, 0.0);
      rotation := Vec3(0.0, 0.0, 0.0);
      scale := Vec3(1.0, 1.0, 1.0);
    }
  }

  class Scene {
    var objects: seq<Object3D>

    constructor ()
      ensures objects == []
    {
      objects := [];
    }

    /** Appends obj at the end, whether or not it is already in the scene. */
    method Add(obj: Object3D)
      modifies this
      ensures objects == old(objects) + [obj]
    {
      objects := objects + [obj];
    }
  }

  /** The scene set-up of main_world.py: one sphere object added twice, so the
      scene holds it twice and draws it twice. */
  method SetUpWorld(sphereVao: VertexArrayHandle) returns (scene: Scene, sphereObj: Object3D)
    ensures scene.objects == [sphereObj, sphereObj]
    ensures sphereObj.vao == sphereVao && sphereObj.scale == Vec3(1.0, 1.0, 1.0)
  {
    scene := new Scene();
    sphereObj := new Object3D(sphereVao);
    scene.Add(sphereObj);
    scene.Add(sphereObj);
  }
}
