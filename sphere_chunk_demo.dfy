/**
 * The instanced sphere demo of super-python/sphere_chunk_demo.py: the UV-sphere
 * builder `make_sphere`, the chunk grid of sphere centres and the `Chunk` that
 * packs one instance row per centre and draws them.
 *
 * Float values are reals. The trigonometry of a sphere point is the function
 * parameter `surface`: surface(v, u) stands for
 * radius * (sin(v pi) cos(2 u pi), cos(v pi), sin(v pi) sin(2 u pi)).
 */
module SphereChunkDemo {
  import opened Wrappers
  import opened MeshLayout

  /* ---------- make_sphere ---------- */

  /** make_sphere raises ZeroDivisionError exactly when one of its divisions
      y / rings, x / segments or p / radius is reached with a zero divisor. */
  predicate MakeSphereRaises(radius: real, segments: int, rings: int)
  {
    rings == 0 || (rings > 0 && segments == 0) || (rings > 0 && segments > 0 && radius == 0.0)
  }

  /** The position of grid point (y, x), as three floats. */
  function PositionCell(surface: (real, real) -> Vec3, segments: int, rings: int): (nat, nat) -> seq<real>
  {
    (y: nat, x: nat) => Coords(surface(Quot(y as real, rings as real), Quot(x as real, segments as real)))
  }

  lemma PositionCellAt(surface: (real, real) -> Vec3, segments: int, rings: int, y: nat, x: nat)
    ensures PositionCell(surface, segments, rings)(y, x)
         == Coords(surface(Quot(y as real, rings as real), Quot(x as real, segments as real)))
  {
  }

  lemma PositionCellUniform(surface: (real, real) -> Vec3, segments: int, rings: int, rows: nat, cols: nat)
    ensures Uniform(rows, cols, PositionCell(surface, segments, rings), 3)
  {
    forall y: nat, x: nat | y < rows && x < cols
      ensures |PositionCell(surface, segments, rings)(y, x)| == 3
    {
      PositionCellAt(surface, segments, rings, y, x);
    }
  }

  /** The `positions` list: one point per grid point, row by row. */
  function SpherePositions(surface: (real, real) -> Vec3, segments: int, rings: int): (p: seq<real>)
    ensures |p| == Count(rings + 1) * Count(segments + 1) * 3
  {
    PositionCellUniform(surface, segments, rings, Count(rings + 1), Count(segments + 1));
    GridLength(Count(rings + 1), Count(segments + 1), PositionCell(surface, segments, rings), 3);
    Grid(Count(rings + 1), Count(segments + 1), PositionCell(surface, segments, rings))
  }

  /** `p / radius`, componentwise. */
  function DivideBy(p: Vec3, radius: real): Vec3
  {
    Vec3(Quot(p.x, radius), Quot(p.y, radius), Quot(p.z, radius))
  }

  /** The normal of grid point (y, x): its position divided by the radius. */
  function NormalCell(surface: (real, real) -> Vec3, segments: int, rings: int, radius: real): (nat, nat) -> seq<real>
  {
    (y: nat, x: nat) => Coords(DivideBy(surface(Quot(y as real, rings as real), Quot(x as real, segments as real)), radius))
  }

  lemma NormalCellAt(surface: (real, real) -> Vec3, segments: int, rings: int, radius: real, y: nat, x: nat)
    ensures NormalCell(surface, segments, rings, radius)(y, x)
         == Coords(DivideBy(surface(Quot(y as real, rings as real), Quot(x as real, segments as real)), radius))
  {
  }

  lemma NormalCellUniform(surface: (real, real) -> Vec3, segments: int, rings: int, radius: real, rows: nat, cols: nat)
    ensures Uniform(rows, cols, NormalCell(surface, segments, rings, radius), 3)
  {
    forall y: nat, x: nat | y < rows && x < cols
      ensures |NormalCell(surface, segments, rings, radius)(y, x)| == 3
    {
      NormalCellAt(surface, segments, rings, radius, y, x);
    }
  }

  /** The `normals` list: one normal per grid point, row by row. */
  function SphereNormals(surface: (real, real) -> Vec3, segments: int, rings: int, radius: real): (n: seq<real>)
    ensures |n| == Count(rings + 1) * Count(segments + 1) * 3
  {
    NormalCellUniform(surface, segments, rings, radius, Count(rings + 1), Count(segments + 1));
    GridLength(Count(rings + 1), Count(segments + 1), NormalCell(surface, segments, rings, radius), 3);
    Grid(Count(rings + 1), Count(segments + 1), NormalCell(surface, segments, rings, radius))
  }

  /** The interleaved vertex buffer: position i then normal i, six floats per point. */
  function SphereVertices(surface: (real, real) -> Vec3, segments: int, rings: int, radius: real): (v: seq<real>)
    ensures |v| == Count(rings + 1) * Count(segments + 1) * 6
  {
    var positions := SpherePositions(surface, segments, rings);
    var normals := SphereNormals(surface, segments, rings, radius);
    var n := Count(rings + 1) * Count(segments + 1);
    ZipLength(positions, 3, normals, 3, n);
    Zip(positions, 3, normals, 3, n)
  }

  /** The index loop of make_sphere: two triangles per grid quad. */
  method SphereIndices(segments: int, rings: int) returns (indices: seq<int>)
    ensures indices == QuadIndices(Count(rings), Count(segments))
  {
    indices := [];
    ghost var quads := Count(segments);
    var y: nat := 0;
    while y < rings
      invariant y <= Count(rings)
      invariant indices == Grid(y, quads, QuadCell(quads))
    {
      var x: nat := 0;
      while x < segments
        invariant x <= quads
        invariant indices == Grid(y, quads, QuadCell(quads)) + GridRow(y, x, QuadCell(quads))
      {
        var i0 := y * (segments + 1) + x;
        var i1 := i0 + 1;
        var i2 := i0 + (segments + 1);
        var i3 := i2 + 1;
        indices := indices + [i0, i2, i1, i1, i2, i3];
        x := x + 1;
      }
      assert x == quads;
      y := y + 1;
    }
    assert y == Count(rings);
  }

  /** The interleave loop of make_sphere: position i, then normal i. */
  method Interleave(positions: seq<real>, normals: seq<real>) returns (verts: seq<real>)
    requires |normals| == |positions|
    ensures verts == Zip(positions, 3, normals, 3, |positions| / 3)
  {
    verts := [];
    var n := |positions| / 3;
    var i: nat := 0;
    while i < n
      invariant i <= n
      invariant verts == Zip(positions, 3, normals, 3, i)
    {
      verts := verts + positions[3 * i .. 3 * i + 3] + normals[3 * i .. 3 * i + 3];
      i := i + 1;
    }
  }

  /** The position and normal loops of make_sphere: they raise exactly when
      they reach y / rings, x / segments or p / radius with a zero divisor. */
  method SpherePointLoop(radius: real, segments: int, rings: int, surface: (real, real) -> Vec3)
    returns (r: Result<(seq<real>, seq<real>), PyError>)
    ensures r.Failure? <==> MakeSphereRaises(radius, segments, rings)
    ensures r.Failure? ==> r.error == ZeroDivisionError
    ensures r.Success? ==>
      r.value.0 == SpherePositions(surface, segments, rings) && r.value.1 == SphereNormals(surface, segments, rings, radius)
  {
    var positions: seq<real> := [];
    var normals: seq<real> := [];
    ghost var cols := Count(segments + 1);
    ghost var cell := PositionCell(surface, segments, rings);
    ghost var ncell := NormalCell(surface, segments, rings, radius);

    var y: nat := 0;
    while y < rings + 1
      invariant y <= Count(rings + 1)
      invariant y > 0 ==> rings != 0
      invariant y > 0 && segments >= 0 ==> segments != 0 && radius != 0.0
      invariant positions == Grid(y, cols, cell)
      invariant normals == Grid(y, cols, ncell)
    {
      if rings == 0 {
        return Failure(ZeroDivisionError);
      }
      var v := y as real / rings as real;
      var x: nat := 0;
      while x < segments + 1
        invariant x <= cols
        invariant x > 0 ==> segments != 0 && radius != 0.0
        invariant positions == Grid(y, cols, cell) + GridRow(y, x, cell)
        invariant normals == Grid(y, cols, ncell) + GridRow(y, x, ncell)
      {
        if segments == 0 {
          return Failure(ZeroDivisionError);
        }
        var u := x as real / segments as real;
        var p := surface(v, u);
        PositionCellAt(surface, segments, rings, y, x);
        positions := positions + [p.x, p.y, p.z];
        if radius == 0.0 {
          return Failure(ZeroDivisionError);
        }
        NormalCellAt(surface, segments, rings, radius, y, x);
        normals := normals + [p.x / radius, p.y / radius, p.z / radius];
        x := x + 1;
      }
      assert x == cols;
      y := y + 1;
    }
    assert y == Count(rings + 1);
    r := Success((positions, normals));
  }

  method MakeSphere(radius: real, segments: int, rings: int, surface: (real, real) -> Vec3)
    returns (r: Result<Mesh, PyError>)
    ensures r.Failure? <==> MakeSphereRaises(radius, segments, rings)
    ensures r.Failure? ==> r.error == ZeroDivisionError
    ensures r.Success? ==>
      r.value == Mesh(SphereVertices(surface, segments, rings, radius), QuadIndices(Count(rings), Count(segments)))
  {
    var points := SpherePointLoop(radius, segments, rings, surface);
    if points.Failure? {
      return Failure(points.error);
    }
    var (positions, normals) := points.value;
    ghost var n := Count(rings + 1) * Count(segments + 1);
    assert |positions| == n * 3;
    assert |positions| / 3 == n;
    var indices := SphereIndices(segments, rings);
    var verts := Interleave(positions, normals);
    r := Success(Mesh(verts, indices));
  }

  /** Grid point (y, x) is vertex y * (segments + 1) + x: its six floats are its
      position followed by its normal, the position divided by the radius. */
  lemma SphereVertexAt(radius: real, segments: int, rings: int, surface: (real, real) -> Vec3, y: nat, x: nat)
    requires y < Count(rings + 1) && x < Count(segments + 1)
    ensures
      var vertices := SphereVertices(surface, segments, rings, radius);
      var p := surface(Quot(y as real, rings as real), Quot(x as real, segments as real));
      && Flat(Count(segments + 1), y, x) * 6 + 6 <= |vertices|
      && Row(vertices, 6, Flat(Count(segments + 1), y, x))
         == [p.x, p.y, p.z, Quot(p.x, radius), Quot(p.y, radius), Quot(p.z, radius)]
  {
    var rows, cols := Count(rings + 1), Count(segments + 1);
    var positions := SpherePositions(surface, segments, rings);
    var normals := SphereNormals(surface, segments, rings, radius);
    var k := Flat(cols, y, x);
    SpherePositionRow(surface, segments, rings, y, x);
    SphereNormalRow(surface, segments, rings, radius, y, x);
    CellFits(rows, cols, 1, y, x);
    ZipRow(positions, 3, normals, 3, rows * cols, k);
  }

  /** Position row y * (segments + 1) + x is the surface point of grid point (y, x). */
  lemma SpherePositionRow(surface: (real, real) -> Vec3, segments: int, rings: int, y: nat, x: nat)
    requires y < Count(rings + 1) && x < Count(segments + 1)
    ensures
      var positions := SpherePositions(surface, segments, rings);
      && Flat(Count(segments + 1), y, x) * 3 + 3 <= |positions|
      && Row(positions, 3, Flat(Count(segments + 1), y, x))
         == Coords(surface(Quot(y as real, rings as real), Quot(x as real, segments as real)))
  {
    var rows, cols := Count(rings + 1), Count(segments + 1);
    PositionCellUniform(surface, segments, rings, rows, cols);
    GridCell(rows, cols, PositionCell(surface, segments, rings), 3, y, x);
  }

  /** Normal row y * (segments + 1) + x is that surface point divided by the radius. */
  lemma SphereNormalRow(surface: (real, real) -> Vec3, segments: int, rings: int, radius: real, y: nat, x: nat)
    requires y < Count(rings + 1) && x < Count(segments + 1)
    ensures
      var normals := SphereNormals(surface, segments, rings, radius);
      && Flat(Count(segments + 1), y, x) * 3 + 3 <= |normals|
      && Row(normals, 3, Flat(Count(segments + 1), y, x))
         == Coords(DivideBy(surface(Quot(y as real, rings as real), Quot(x as real, segments as real)), radius))
  {
    var rows, cols := Count(rings + 1), Count(segments + 1);
    NormalCellUniform(surface, segments, rings, radius, rows, cols);
    GridCell(rows, cols, NormalCell(surface, segments, rings, radius), 3, y, x);
  }

  /** For positive rings and segments: (rings + 1) * (segments + 1) points of six
      floats, 6 * rings * segments indices, and every index names one of those points. */
  lemma MakeSphereCounts(radius: real, segments: int, rings: int, surface: (real, real) -> Vec3)
    requires rings > 0 && segments > 0
    ensures |SphereVertices(surface, segments, rings, radius)| == 6 * ((rings + 1) * (segments + 1))
    ensures |QuadIndices(rings, segments)| == 6 * (rings * segments)
    ensures forall k :: 0 <= k < |QuadIndices(rings, segments)| ==>
      0 <= QuadIndices(rings, segments)[k] < (rings + 1) * (segments + 1)
  {
    QuadIndicesLength(rings, segments);
    QuadIndicesWithin(rings, segments);
  }

  /** Whenever make_sphere returns, no triangle references a missing vertex. */
  lemma MakeSphereIndicesValid(radius: real, segments: int, rings: int, surface: (real, real) -> Vec3)
    requires !MakeSphereRaises(radius, segments, rings)
    ensures
      var vertices := SphereVertices(surface, segments, rings, radius);
      var indices := QuadIndices(Count(rings), Count(segments));
      |vertices| % 6 == 0 &&
      forall k :: 0 <= k < |indices| ==> 0 <= indices[k] < |vertices| / 6
  {
    var vertices := SphereVertices(surface, segments, rings, radius);
    var indices := QuadIndices(Count(rings), Count(segments));
    var n := Count(rings + 1) * Count(segments + 1);
    WholeRows(n);
    assert |vertices| == n * 6;
    if rings > 0 && segments > 0 {
      QuadIndicesWithin(rings, segments);
      assert n == (rings + 1) * (segments + 1);
    } else {
      QuadIndicesLength(Count(rings), Count(segments));
      assert Count(rings) * Count(segments) == 0;
      assert indices == [];
    }
  }

  /* ---------- generate_chunk_grid ---------- */

  /** np.clip(c, 0.0, 1.0) on one component. */
  function Clip01(c: real): (r: real)
    ensures 0.0 <= r <= 1.0
    ensures 0.0 <= c <= 1.0 ==> r == c
    ensures c < 0.0 ==> r == 0.0
    ensures c > 1.0 ==> r == 1.0
  {
    if c < 0.0 then 0.0 else if c > 1.0 then 1.0 else c
  }

  /** The colour of a sphere at height y: red rises and blue falls with height. */
  function HeightColour(y: real): Vec3
  {
    Vec3(Clip01((y + 2.0) / 4.0), Clip01(0.6), Clip01(1.0 - (y + 2.0) / 4.0))
  }

  /** The centre of chunk cell (ix, iz): the grid is centred on the origin and
      the height comes from height_fn when one is given. */
  function ChunkCenter(ix: nat, iz: nat, sizeX: int, sizeZ: int, spacing: real, heightFn: Option<(real, real) -> real>): Vec3
  {
    var x := (ix as real - sizeX as real / 2.0) * spacing;
    var z := (iz as real - sizeZ as real / 2.0) * spacing;
    var y := if heightFn.Some? then heightFn.value(x, z) else 0.0;
    Vec3(x, y, z)
  }

  function CenterCell(sizeX: int, sizeZ: int, spacing: real, heightFn: Option<(real, real) -> real>): (nat, nat) -> seq<Vec3>
  {
    (iz: nat, ix: nat) => [ChunkCenter(ix, iz, sizeX, sizeZ, spacing, heightFn)]
  }

  /** The centres, z outer and x inner. */
  lemma CenterCellAt(sizeX: int, sizeZ: int, spacing: real, heightFn: Option<(real, real) -> real>, iz: nat, ix: nat)
    ensures CenterCell(sizeX, sizeZ, spacing, heightFn)(iz, ix) ==
      [Vec3((ix as real - sizeX as real / 2.0) * spacing,
            if heightFn.Some? then heightFn.value((ix as real - sizeX as real / 2.0) * spacing, (iz as real - sizeZ as real / 2.0) * spacing) else 0.0,
            (iz as real - sizeZ as real / 2.0) * spacing)]
  {
  }

  function ChunkCenters(sizeX: int, sizeZ: int, spacing: real, heightFn: Option<(real, real) -> real>): (c: seq<Vec3>)
    ensures |c| == Count(sizeZ) * Count(sizeX) * 1
  {
    GridLength(Count(sizeZ), Count(sizeX), CenterCell(sizeX, sizeZ, spacing, heightFn), 1);
    Grid(Count(sizeZ), Count(sizeX), CenterCell(sizeX, sizeZ, spacing, heightFn))
  }

  method GenerateChunkGrid(chunkSizeX: int, chunkSizeZ: int, spacing: real, heightFn: Option<(real, real) -> real>)
    returns (centers: seq<Vec3>, colors: seq<Vec3>)
    ensures centers == ChunkCenters(chunkSizeX, chunkSizeZ, spacing, heightFn)
    ensures |colors| == |centers|
    ensures forall i :: 0 <= i < |colors| ==> colors[i] == HeightColour(centers[i].y)
  {
    centers := [];
    colors := [];
    var hx, hz := chunkSizeX, chunkSizeZ;
    ghost var cell := CenterCell(hx, hz, spacing, heightFn);
    var iz: nat := 0;
    while iz < hz
      invariant iz <= Count(hz)
      invariant centers == Grid(iz, Count(hx), cell)
      invariant |colors| == |centers|
      invariant forall i :: 0 <= i < |colors| ==> colors[i] == HeightColour(centers[i].y)
    {
      var ix: nat := 0;
      while ix < hx
        invariant ix <= Count(hx)
        invariant centers == Grid(iz, Count(hx), cell) + GridRow(iz, ix, cell)
        invariant |colors| == |centers|
        invariant forall i :: 0 <= i < |colors| ==> colors[i] == HeightColour(centers[i].y)
      {
        var x := (ix as real - hx as real / 2.0) * spacing;
        var z := (iz as real - hz as real / 2.0) * spacing;
        var y := if heightFn.Some? then heightFn.value(x, z) else 0.0;
        CenterCellAt(hx, hz, spacing, heightFn, iz, ix);
        centers := centers + [Vec3(x, y, z)];
        var c := Vec3(Clip01((y + 2.0) / 4.0), Clip01(0.6), Clip01(1.0 - (y + 2.0) / 4.0));
        colors := colors + [c];
        ix := ix + 1;
      }
      assert ix == Count(hx);
      iz := iz + 1;
    }
    assert iz == Count(hz);
  }

  /** chunk_size_x * chunk_size_z centres, and cell (ix, iz) is number iz * chunk_size_x + ix. */
  lemma ChunkCenterAt(sizeX: nat, sizeZ: nat, spacing: real, heightFn: Option<(real, real) -> real>, ix: nat, iz: nat)
    requires ix < sizeX && iz < sizeZ
    ensures |ChunkCenters(sizeX, sizeZ, spacing, heightFn)| == sizeX * sizeZ
    ensures iz * sizeX + ix < sizeX * sizeZ
    ensures ChunkCenters(sizeX, sizeZ, spacing, heightFn)[iz * sizeX + ix] == ChunkCenter(ix, iz, sizeX, sizeZ, spacing, heightFn)
  {
    var cell := CenterCell(sizeX, sizeZ, spacing, heightFn);
    GridCell(sizeZ, sizeX, cell, 1, iz, ix);
    var k := Flat(sizeX, iz, ix);
    assert Row(Grid(sizeZ, sizeX, cell), 1, k) == [Grid(sizeZ, sizeX, cell)[k]];
  }

  /* ---------- Chunk ---------- */

  /** A vertex array: the sphere vertex buffer, the per-instance buffer and the
      index buffer bound together ('3f 3f' per vertex, '3f 3f/i' per instance). */
  datatype VertexArray = VertexArray(vertices: seq<real>, instances: seq<real>, indices: seq<int>)

  /** One instanced draw: the vertex array and the number of instances drawn. */
  datatype DrawCall = DrawCall(vao: VertexArray, instances: nat)

  /** The colour of every instance when build_instances is given none. */
  const DefaultColour := Vec3(0.8, 0.8, 0.8)

  function InstanceColours(centers: seq<Vec3>, colors: Option<seq<Vec3>>): (c: seq<Vec3>)
    requires colors.Some? ==> |colors.value| == |centers|
    ensures |c| == |centers|
  {
    if colors.None? then seq(|centers|, _ => DefaultColour) else colors.value
  }

  /** inst_data: one row of six floats per centre, offset then colour. */
  function InstanceData(centers: seq<Vec3>, colors: Option<seq<Vec3>>): (d: seq<real>)
    requires colors.Some? ==> |colors.value| == |centers|
    ensures |d| == |centers| * 6
  {
    var n := |centers|;
    FlattenLength(centers);
    FlattenLength(InstanceColours(centers, colors));
    ZipLength(Flatten(centers), 3, Flatten(InstanceColours(centers, colors)), 3, n);
    Zip(Flatten(centers), 3, Flatten(InstanceColours(centers, colors)), 3, n)
  }

  /** Instance row i is centre i followed by colour i (0.8 grey when no colours are given). */
  lemma InstanceRow(centers: seq<Vec3>, colors: Option<seq<Vec3>>, i: nat)
    requires colors.Some? ==> |colors.value| == |centers|
    requires i < |centers|
    ensures i * 6 + 6 <= |InstanceData(centers, colors)|
    ensures Row(InstanceData(centers, colors), 6, i)
         == Coords(centers[i]) + Coords(if colors.Some? then colors.value[i] else DefaultColour)
  {
    var cs := InstanceColours(centers, colors);
    FlattenRow(centers, i);
    FlattenRow(cs, i);
    ZipRow(Flatten(centers), 3, Flatten(cs), 3, |centers|, i);
  }

  class Chunk {
    const vbo: seq<real>
    const ibo: seq<int>
    const indexCount: nat
    var instanceBuf: Option<seq<real>>
    var instanceCount: nat
    var vao: Option<VertexArray>

    /** Either nothing has been built yet, or the instance buffer, a positive
        instance count and the vertex array binding that buffer all exist. */
    predicate Valid()
      reads this
    {
      && (vao.None? <==> instanceCount == 0)
      && (vao.None? <==> instanceBuf.None?)
      && (vao.Some? ==> vao.value == VertexArray(vbo, instanceBuf.value, ibo))
    }

    constructor (sphereVertices: seq<real>, sphereIndices: seq<int>)
      ensures vbo == sphereVertices && ibo == sphereIndices && indexCount == |sphereIndices|
      ensures instanceBuf == None && instanceCount == 0 && vao == None
      ensures Valid()
    {
      vbo := sphereVertices;
      ibo := sphereIndices;
      indexCount := |sphereIndices|;
      instanceBuf := None;
      instanceCount := 0;
      vao := None;
    }

    /** No centres: the (0,) array of centres does not broadcast into the (0, 3)
        offset columns, so a ValueError is raised before any field changes. */
    method BuildInstances(centers: seq<Vec3>, colors: Option<seq<Vec3>>) returns (raised: Option<PyError>)
      requires colors.Some? ==> |colors.value| == |centers|
      modifies this
      ensures |centers| == 0 ==>
        raised == Some(ValueError) &&
        instanceBuf == old(instanceBuf) && instanceCount == old(instanceCount) && vao == old(vao)
      ensures |centers| > 0 ==>
        && raised == None
        && instanceCount == |centers|
        && instanceBuf == Some(InstanceData(centers, colors))
        && vao == Some(VertexArray(vbo, InstanceData(centers, colors), ibo))
      ensures old(Valid()) ==> Valid()
    {
      var n := |centers|;
      if n == 0 {
        return Some(ValueError);
      }
      // created on the first build, orphaned and rewritten on later ones
      instanceBuf := Some(InstanceData(centers, colors));
      instanceCount := n;
      vao := Some(VertexArray(vbo, instanceBuf.value, ibo));
      raised := None;
    }

    /** The draw call render issues, if any: on a valid chunk, one exactly when
        instances have been built. */
    method Render() returns (call: Option<DrawCall>)
      ensures call.None? <==> vao.None? || instanceCount == 0
      ensures call.Some? ==> call.value.vao == vao.value && call.value.instances == instanceCount
      ensures Valid() ==> (call.Some? <==> instanceBuf.Some?)
      ensures Valid() && call.Some? ==> call.value.instances > 0 && call.value.vao.instances == instanceBuf.value
    {
      if vao.None? || instanceCount == 0 {
        return None;
      }
      call := Some(DrawCall(vao.value, instanceCount));
    }
  }
}
