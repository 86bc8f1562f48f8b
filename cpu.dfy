/**
 * The CPU polygonizer (crates/marching_cubes/src/cpu/mod.rs): the voxel
 * record, its own copy of the cube classifier, linear interpolation along
 * an edge, the per-cube triangle loop that appends to a vertex buffer and
 * an index buffer, and the grid walker.
 *
 * Coordinates and samples are `real` rather than `f32`.
 */
module Cpu {
  import opened CubeIndex
  import opened LookupTables
  import opened Buffers

  /** A grid sample: where it is and the density there. */
  datatype Voxel = Voxel(position: Vec3, value: real)

  /** The samples of a cube, corner by corner. */
  function Values(cube: seq<Voxel>): (vs: seq<real>)
    ensures |vs| == |cube|
    ensures forall k :: 0 <= k < |cube| ==> vs[k] == cube[k].value
  {
    seq(|cube|, k requires 0 <= k < |cube| => cube[k].value)
  }

  // ---------------------------------------------------------------------
  // Classification
  // ---------------------------------------------------------------------

  /**
   * The cpu copy of `get_cube_index`: an accumulator OR-ed with 2^k for each
   * voxel whose value is below the density. It computes the same 8-bit case
   * as the lib.rs classifier applied to the eight voxels' values, and its
   * value is `Classify` of those values.
   */
  method GetCubeIndex(cube: seq<Voxel>, density: real) returns (cubeIndex: bv8)
    requires |cube| == 8
    ensures cubeIndex == CaseBits(density, Values(cube))
    ensures cubeIndex as int == Classify(density, Values(cube))
  {
    cubeIndex := 0;
    if cube[0].value < density {
      cubeIndex := cubeIndex | 1;
    }
    ghost var expected := CornerBit(cube[0].value < density, 1);
    assert cubeIndex == expected;
    if cube[1].value < density {
      cubeIndex := cubeIndex | 2;
    }
    expected := expected | CornerBit(cube[1].value < density, 2);
    assert cubeIndex == expected;
    if cube[2].value < density {
      cubeIndex := cubeIndex | 4;
    }
    expected := expected | CornerBit(cube[2].value < density, 4);
    assert cubeIndex == expected;
    if cube[3].value < density {
      cubeIndex := cubeIndex | 8;
    }
    expected := expected | CornerBit(cube[3].value < density, 8);
    assert cubeIndex == expected;
    if cube[4].value < density {
      cubeIndex := cubeIndex | 16;
    }
    expected := expected | CornerBit(cube[4].value < density, 16);
    assert cubeIndex == expected;
    if cube[5].value < density {
      cubeIndex := cubeIndex | 32;
    }
    expected := expected | CornerBit(cube[5].value < density, 32);
    assert cubeIndex == expected;
    if cube[6].value < density {
      cubeIndex := cubeIndex | 64;
    }
    expected := expected | CornerBit(cube[6].value < density, 64);
    assert cubeIndex == expected;
    if cube[7].value < density {
      cubeIndex := cubeIndex | 128;
    }
    expected := expected | CornerBit(cube[7].value < density, 128);
    assert cubeIndex == expected;
    CubeCaseBits(cube, density);
    CaseBitsValue(density, Values(cube));
  }

  /** The 8-bit case of a cube, corner by corner. */
  lemma CubeCaseBits(cube: seq<Voxel>, density: real)
    requires |cube| == 8
    ensures CaseBits(density, Values(cube)) ==
      CornerBit(cube[0].value < density, 1) | CornerBit(cube[1].value < density, 2) | CornerBit(cube[2].value < density, 4) | CornerBit(cube[3].value < density, 8)
      | CornerBit(cube[4].value < density, 16) | CornerBit(cube[5].value < density, 32) | CornerBit(cube[6].value < density, 64) | CornerBit(cube[7].value < density, 128)
  {
  }

  /**
   * The two copies of `get_cube_index` agree: the cpu one on the voxels and
   * the lib.rs one on their values give the same index.
   */
  method ClassifiersAgree(cube: seq<Voxel>, density: real) returns (cpuIndex: bv8, libIndex: bv8)
    requires |cube| == 8
    ensures cpuIndex == libIndex
  {
    cpuIndex := GetCubeIndex(cube, density);
    libIndex := CubeIndex.GetCubeIndex(density, Values(cube));
  }

  /** The topology case of a cube. */
  function CaseOf(cube: seq<Voxel>, density: real): (c: nat)
    requires |cube| == 8
    ensures c < CaseCount
  {
    ClassifyRange(density, Values(cube));
    Classify(density, Values(cube))
  }

  // ---------------------------------------------------------------------
  // Interpolation
  // ---------------------------------------------------------------------

  /** The point p + t (q - p). */
  function Lerp(p: Vec3, q: Vec3, t: real): (r: Vec3)
  {
    Vec3(p.x + t * (q.x - p.x), p.y + t * (q.y - p.y), p.z + t * (q.z - p.z))
  }

  /** The weighted average (wp p + wq q) / (wp + wq). */
  function Weighted(p: Vec3, wp: real, q: Vec3, wq: real): (r: Vec3)
    requires wp + wq != 0.0
  {
    Vec3((wp * p.x + wq * q.x) / (wp + wq),
         (wp * p.y + wq * q.y) / (wp + wq),
         (wp * p.z + wq * q.z) / (wp + wq))
  }

  /** r lies on the closed segment from p to q. */
  ghost predicate OnSegment(r: Vec3, p: Vec3, q: Vec3)
  {
    exists t: real :: 0.0 <= t <= 1.0 && r == Lerp(p, q, t)
  }

  /**
   * `interpolate`: the point where the density crosses `density` on the
   * segment a-b, taking the field to be linear along it. The code divides by
   * `b.value - a.value` without a guard, hence the requires.
   */
  function Interpolate(a: Voxel, b: Voxel, density: real): (r: Vec3)
    requires a.value != b.value
  {
    var mu := (density - a.value) / (b.value - a.value);
    var x := a.position.x + mu * (b.position.x - a.position.x);
    var y := a.position.y + mu * (b.position.y - a.position.y);
    var z := a.position.z + mu * (b.position.z - a.position.z);
    Vec3(x, y, z)
  }

  /**
   * Weighted form: the result is the average of the two positions, each
   * weighted by the distance of the OTHER corner's value from the density.
   */
  lemma InterpolateWeighted(a: Voxel, b: Voxel, density: real)
    requires a.value != b.value
    ensures Interpolate(a, b, density) == Weighted(a.position, b.value - density, b.position, density - a.value)
  {
    WeightedCoordinate(a.position.x, b.position.x, a.value, b.value, density);
    WeightedCoordinate(a.position.y, b.position.y, a.value, b.value, density);
    WeightedCoordinate(a.position.z, b.position.z, a.value, b.value, density);
  }

  /** One coordinate of the interpolation in weighted form. */
  lemma WeightedCoordinate(pa: real, pb: real, va: real, vb: real, d: real)
    requires va != vb
    ensures pa + (d - va) / (vb - va) * (pb - pa) == ((vb - d) * pa + (d - va) * pb) / ((vb - d) + (d - va))
  {
    var mu := (d - va) / (vb - va);
    assert mu * (vb - va) == d - va;
    assert (vb - d) + (d - va) == vb - va;
    calc {
      (pa + mu * (pb - pa)) * (vb - va);
      pa * (vb - va) + mu * (vb - va) * (pb - pa);
      pa * (vb - va) + (d - va) * (pb - pa);
      (vb - d) * pa + (d - va) * pb;
    }
  }

  /** Endpoints: at a's value the result is a's position, at b's value b's. */
  lemma InterpolateEndpoints(a: Voxel, b: Voxel)
    requires a.value != b.value
    ensures Interpolate(a, b, a.value) == a.position
    ensures Interpolate(a, b, b.value) == b.position
  {
  }

  /** Symmetry: interpolating along a-b and along b-a gives the same point. */
  lemma InterpolateSymmetric(a: Voxel, b: Voxel, density: real)
    requires a.value != b.value
    ensures Interpolate(a, b, density) == Interpolate(b, a, density)
  {
    var mu, nu := (density - a.value) / (b.value - a.value), (density - b.value) / (a.value - b.value);
    ParametersAddUp(a.value, b.value, density);
    InterpolateIsLerp(a, b, density);
    InterpolateIsLerp(b, a, density);
    LerpReverse(a.position, b.position, mu);
    assert nu == 1.0 - mu;
  }

  /** The parameters of the two directions along an edge add up to 1. */
  lemma ParametersAddUp(va: real, vb: real, d: real)
    requires va != vb
    ensures (d - va) / (vb - va) + (d - vb) / (va - vb) == 1.0
  {
    assert (d - vb) / (va - vb) == (vb - d) / (vb - va);
  }

  /** Walking from p towards q by t reaches the point that walking from q towards p by 1 - t does. */
  lemma LerpReverse(p: Vec3, q: Vec3, t: real)
    ensures Lerp(p, q, t) == Lerp(q, p, 1.0 - t)
  {
  }

  /** `interpolate` moves from a's position towards b's by the parameter mu. */
  lemma InterpolateIsLerp(a: Voxel, b: Voxel, density: real)
    requires a.value != b.value
    ensures Interpolate(a, b, density) == Lerp(a.position, b.position, (density - a.value) / (b.value - a.value))
  {
  }

  /**
   * Segment: when the density lies between the two values, the parameter
   * mu is in [0, 1] and the result lies on the segment a-b.
   */
  lemma InterpolateOnSegment(a: Voxel, b: Voxel, density: real)
    requires a.value != b.value
    requires a.value <= density <= b.value || b.value <= density <= a.value
    ensures OnSegment(Interpolate(a, b, density), a.position, b.position)
  {
    var mu := (density - a.value) / (b.value - a.value);
    InterpolateIsLerp(a, b, density);
    if a.value < b.value {
      MuInRange(density - a.value, b.value - a.value);
    } else {
      assert mu == (a.value - density) / (a.value - b.value);
      MuInRange(a.value - density, a.value - b.value);
    }
  }

  lemma MuInRange(num: real, den: real)
    requires 0.0 <= num <= den && den > 0.0
    ensures 0.0 <= num / den <= 1.0
  {
  }

  // ---------------------------------------------------------------------
  // Polygonizing one cube: the specification
  // ---------------------------------------------------------------------

  /** A cube of eight voxels and well-formed tables: what the polygonizer needs. */
  predicate Ready(cube: seq<Voxel>, t: Tables)
  {
    |cube| == 8 && WellFormed(t)
  }

  /** The row of the triangulation table for the cube's case. */
  function RowOf(cube: seq<Voxel>, density: real, t: Tables): (row: seq<int>)
    requires Ready(cube, t)
    ensures WellFormedRow(row)
  {
    t.triangles[CaseOf(cube, density)]
  }

  /** u's value is below the density and v's is not, or the other way round. */
  predicate Straddles(u: Voxel, v: Voxel, density: real)
  {
    (u.value < density <= v.value) || (v.value < density <= u.value)
  }

  /**
   * What the triangle loop needs of a row: it is well formed, and every
   * edge it names before the sentinel joins a corner below the density and
   * a corner that is not, so the two values differ and the density lies
   * between them.
   */
  predicate RowFits(cube: seq<Voxel>, density: real, edges: seq<seq<nat>>, row: seq<int>)
  {
    |cube| == 8 && WellFormedEdges(edges) && WellFormedRow(row) &&
    forall j :: 0 <= j < FirstSentinel(row) ==>
      Straddles(cube[edges[row[j]][0]], cube[edges[row[j]][1]], density)
  }

  /** The row of a cube's own case fits the cube. */
  lemma CaseRowFits(cube: seq<Voxel>, density: real, t: Tables)
    requires Ready(cube, t)
    ensures RowFits(cube, density, t.edgeConnections, RowOf(cube, density, t))
  {
    var c := CaseOf(cube, density);
    var row := RowOf(cube, density, t);
    assert RowCrosses(c, row, t.edgeConnections);
    forall j | 0 <= j < FirstSentinel(row)
      ensures Straddles(cube[t.edgeConnections[row[j]][0]], cube[t.edgeConnections[row[j]][1]], density)
    {
      var edge := t.edgeConnections[row[j]];
      assert Crosses(c, edge);
      ClassifyBit(density, Values(cube), edge[0]);
      ClassifyBit(density, Values(cube), edge[1]);
    }
  }

  /** The vertex produced for position j of the row: interpolation along the edge it names. */
  function EdgeVertex(cube: seq<Voxel>, density: real, edges: seq<seq<nat>>, row: seq<int>, j: nat): (v: Vec3)
    requires RowFits(cube, density, edges, row) && j < FirstSentinel(row)
  {
    Interpolate(cube[edges[row[j]][0]], cube[edges[row[j]][1]], density)
  }

  /**
   * The vertices of the first q triangles of the row, in push order:
   * triangle p contributes the vertices of row positions 3p, 3p + 1, 3p + 2.
   */
  function VerticesUpTo(cube: seq<Voxel>, density: real, edges: seq<seq<nat>>, row: seq<int>, q: nat): (vs: seq<Vec3>)
    requires RowFits(cube, density, edges, row) && q <= TriangleCount(row)
    ensures |vs| == 3 * q
  {
    if q == 0 then []
    else VerticesUpTo(cube, density, edges, row, q - 1)
         + [EdgeVertex(cube, density, edges, row, 3 * q - 3),
            EdgeVertex(cube, density, edges, row, 3 * q - 2),
            EdgeVertex(cube, density, edges, row, 3 * q - 1)]
  }

  /**
   * The indices pushed for the first q triangles when the index buffer
   * held n0 entries before them: each triangle pushes the current length
   * n, then n + 2, then n + 1.
   */
  function IndicesUpTo(n0: nat, q: nat): (ns: seq<int>)
    ensures |ns| == 3 * q
  {
    if q == 0 then []
    else IndicesUpTo(n0, q - 1) + [n0 + 3 * q - 3, n0 + 3 * q - 1, n0 + 3 * q - 2]
  }

  /** A case whose corners are all on one side: it emits nothing. */
  predicate Uniform(c: nat)
  {
    c == 0 || c == CaseCount - 1
  }

  /** The vertices `polygonize_cube` appends for this cube. */
  function EmittedVertices(cube: seq<Voxel>, density: real, t: Tables): (vs: seq<Vec3>)
    requires Ready(cube, t)
  {
    if Uniform(CaseOf(cube, density)) then []
    else
      CaseRowFits(cube, density, t);
      VerticesUpTo(cube, density, t.edgeConnections, RowOf(cube, density, t), TriangleCount(RowOf(cube, density, t)))
  }

  /** The indices `polygonize_cube` appends for this cube, after n0 existing ones. */
  function EmittedIndices(cube: seq<Voxel>, density: real, t: Tables, n0: nat): (ns: seq<int>)
    requires Ready(cube, t)
  {
    if Uniform(CaseOf(cube, density)) then []
    else IndicesUpTo(n0, TriangleCount(RowOf(cube, density, t)))
  }

  // ---------------------------------------------------------------------
  // Polygonizing one cube: properties of the specification
  // ---------------------------------------------------------------------

  /**
   * Append counts: 3 vertices and 3 indices per triangle of the row, at
   * most 15 of each, and none for a uniform case.
   */
  lemma EmittedCounts(cube: seq<Voxel>, density: real, t: Tables, n0: nat)
    requires Ready(cube, t)
    ensures Uniform(CaseOf(cube, density)) ==> EmittedVertices(cube, density, t) == [] && EmittedIndices(cube, density, t, n0) == []
    ensures !Uniform(CaseOf(cube, density)) ==>
      |EmittedVertices(cube, density, t)| == 3 * TriangleCount(RowOf(cube, density, t)) &&
      |EmittedIndices(cube, density, t, n0)| == 3 * TriangleCount(RowOf(cube, density, t))
    ensures |EmittedVertices(cube, density, t)| == |EmittedIndices(cube, density, t, n0)| <= 15
  {
  }

  /**
   * Uniform cubes emit nothing: if every corner is below the density, or no
   * corner is, the case is 255 or 0 and no vertex or index is appended.
   */
  lemma UniformCubeEmitsNothing(cube: seq<Voxel>, density: real, t: Tables, n0: nat)
    requires Ready(cube, t)
    requires (forall k :: 0 <= k < 8 ==> cube[k].value < density)
          || (forall k :: 0 <= k < 8 ==> density <= cube[k].value)
    ensures EmittedVertices(cube, density, t) == [] && EmittedIndices(cube, density, t, n0) == []
  {
    var vs := Values(cube);
    if forall k :: 0 <= k < 8 ==> cube[k].value < density {
      ClassifyAllBelow(density, vs);
      assert Pow2(8) == 256;
    } else {
      ClassifyNoneBelow(density, vs);
    }
  }

  /**
   * Index triples: triangle p of the appended indices is
   * (n, n + 2, n + 1) where n = n0 + 3p is the index-buffer length
   * before it was pushed.
   */
  lemma {:induction false} IndexTriples(n0: nat, q: nat, p: nat)
    requires p < q
    ensures IndicesUpTo(n0, q)[3 * p] == n0 + 3 * p
    ensures IndicesUpTo(n0, q)[3 * p + 1] == n0 + 3 * p + 2
    ensures IndicesUpTo(n0, q)[3 * p + 2] == n0 + 3 * p + 1
  {
    if p < q - 1 {
      IndexTriples(n0, q - 1, p);
    }
  }

  /** Every index appended after n0 existing ones lies in [n0, n0 + 3q). */
  lemma {:induction false} IndicesInRange(n0: nat, q: nat)
    ensures forall k :: 0 <= k < 3 * q ==> n0 <= IndicesUpTo(n0, q)[k] < n0 + 3 * q
  {
    if q > 0 {
      IndicesInRange(n0, q - 1);
      assert forall k :: 0 <= k < 3 * q - 3 ==> IndicesUpTo(n0, q)[k] == IndicesUpTo(n0, q - 1)[k];
    }
  }

  /**
   * Vertex k of the first q triangles is the vertex interpolated on the
   * edge named at position k of the row.
   */
  lemma {:induction false} VerticesUpToAt(cube: seq<Voxel>, density: real, edges: seq<seq<nat>>, row: seq<int>, q: nat, k: nat)
    requires RowFits(cube, density, edges, row) && q <= TriangleCount(row)
    requires k < 3 * q
    ensures VerticesUpTo(cube, density, edges, row, q)[k] == EdgeVertex(cube, density, edges, row, k)
  {
    var prev := VerticesUpTo(cube, density, edges, row, q - 1);
    var last := [EdgeVertex(cube, density, edges, row, 3 * q - 3),
                 EdgeVertex(cube, density, edges, row, 3 * q - 2),
                 EdgeVertex(cube, density, edges, row, 3 * q - 1)];
    assert VerticesUpTo(cube, density, edges, row, q) == prev + last;
    if k < 3 * q - 3 {
      VerticesUpToAt(cube, density, edges, row, q - 1, k);
      assert (prev + last)[k] == prev[k];
    } else {
      assert (prev + last)[k] == last[k - (3 * q - 3)];
    }
  }

  /**
   * Every appended vertex comes from the edge its row entry names; that
   * edge joins a corner below the density and one that is not, the vertex
   * is the interpolation along it, and it lies on the segment between the
   * edge's two corners.
   */
  lemma EmittedVerticesOnEdges(cube: seq<Voxel>, density: real, t: Tables, k: nat)
    requires Ready(cube, t) && k < |EmittedVertices(cube, density, t)|
    ensures k < FirstSentinel(RowOf(cube, density, t))
    ensures var edge := t.edgeConnections[RowOf(cube, density, t)[k]];
      Straddles(cube[edge[0]], cube[edge[1]], density) &&
      EmittedVertices(cube, density, t)[k] == Interpolate(cube[edge[0]], cube[edge[1]], density) &&
      OnSegment(EmittedVertices(cube, density, t)[k], cube[edge[0]].position, cube[edge[1]].position)
  {
    var row := RowOf(cube, density, t);
    CaseRowFits(cube, density, t);
    VerticesUpToAt(cube, density, t.edgeConnections, row, TriangleCount(row), k);
    var edge := t.edgeConnections[row[k]];
    InterpolateOnSegment(cube[edge[0]], cube[edge[1]], density);
  }

  /**
   * A mesh whose vertex and index buffers have the same length, and whose
   * every index names a vertex of the buffer.
   */
  predicate MeshConsistent(vertices: seq<Vec3>, indices: seq<int>)
  {
    |vertices| == |indices| && forall k :: 0 <= k < |indices| ==> 0 <= indices[k] < |vertices|
  }

  /**
   * Buffers that start with equal lengths stay equal, and every appended
   * index is below the new vertex-buffer length.
   */
  lemma PolygonizeKeepsMeshConsistent(cube: seq<Voxel>, density: real, t: Tables, vertices: seq<Vec3>, indices: seq<int>)
    requires Ready(cube, t)
    requires MeshConsistent(vertices, indices)
    ensures MeshConsistent(vertices + EmittedVertices(cube, density, t),
                           indices + EmittedIndices(cube, density, t, |indices|))
  {
    var ns := EmittedIndices(cube, density, t, |indices|);
    EmittedCounts(cube, density, t, |indices|);
    if !Uniform(CaseOf(cube, density)) {
      IndicesInRange(|indices|, TriangleCount(RowOf(cube, density, t)));
    }
    assert forall k :: 0 <= k < |ns| ==> |indices| <= ns[k] < |indices| + |ns|;
    var all := indices + ns;
    forall k | 0 <= k < |all|
      ensures 0 <= all[k] < |vertices| + |ns|
    {
      if k >= |indices| {
        assert all[k] == ns[k - |indices|];
      }
    }
  }

  // ---------------------------------------------------------------------
  // Polygonizing one cube: the loop
  // ---------------------------------------------------------------------

  /**
   * `polygonize_cube`: classify the cube; for a uniform case return;
   * otherwise run the triangle loop over the case's row. Existing buffer
   * contents are kept as prefixes.
   */
  method PolygonizeCube(cube: seq<Voxel>, density: real, t: Tables,
                        vertexBuffer: VertexBuffer, indexBuffer: IndexBuffer)
    requires Ready(cube, t)
    requires |indexBuffer.items| + 15 <= U32Limit
    modifies vertexBuffer, indexBuffer
    ensures vertexBuffer.items == old(vertexBuffer.items) + EmittedVertices(cube, density, t)
    ensures indexBuffer.items == old(indexBuffer.items) + EmittedIndices(cube, density, t, old(|indexBuffer.items|))
  {
    var cubeIndex := GetCubeIndex(cube, density);

    if cubeIndex == 0 || cubeIndex == 255 {
      return;
    }

    var row := t.triangles[cubeIndex];
    assert row == RowOf(cube, density, t);
    CaseRowFits(cube, density, t);
    EmitTriangles(cube, density, t.edgeConnections, row, vertexBuffer, indexBuffer);
  }

  /**
   * The triangle loop of `polygonize_cube`: walk the row in steps of 3
   * until the sentinel, pushing one triangle per triple.
   */
  method EmitTriangles(cube: seq<Voxel>, density: real, edges: seq<seq<nat>>, row: seq<int>,
                       vertexBuffer: VertexBuffer, indexBuffer: IndexBuffer)
    requires RowFits(cube, density, edges, row)
    requires |indexBuffer.items| + FirstSentinel(row) <= U32Limit
    modifies vertexBuffer, indexBuffer
    ensures vertexBuffer.items == old(vertexBuffer.items) + VerticesUpTo(cube, density, edges, row, TriangleCount(row))
    ensures indexBuffer.items == old(indexBuffer.items) + IndicesUpTo(old(|indexBuffer.items|), TriangleCount(row))
  {
    ghost var vertices0, indices0 := vertexBuffer.items, indexBuffer.items;
    var i := 0;
    ghost var q := 0;
    LoopStart(cube, density, edges, row, vertices0, indices0);
    while row[i] != Sentinel
      invariant LoopState(cube, density, edges, row, i, q, vertices0, indices0, vertexBuffer.items, indexBuffer.items)
      decreases RowLength - i
    {
      NextTriangle(row, i, q);
      StepTriangle(cube, density, edges, row, i, q, vertices0, indices0, vertexBuffer, indexBuffer);
      i, q := i + 3, q + 1;
    }
    LoopEnd(cube, density, edges, row, i, q, vertices0, indices0, vertexBuffer.items, indexBuffer.items);
  }

  /**
   * The state of the triangle loop at row position i = 3q: the buffers
   * hold their contents from before the loop followed by the first q
   * triangles of the row.
   */
  predicate LoopState(cube: seq<Voxel>, density: real, edges: seq<seq<nat>>, row: seq<int>, i: nat, q: nat,
                      vertices0: seq<Vec3>, indices0: seq<int>, vertices: seq<Vec3>, indices: seq<int>)
    requires RowFits(cube, density, edges, row)
  {
    i == 3 * q && q <= TriangleCount(row) && i < RowLength &&
    vertices == vertices0 + VerticesUpTo(cube, density, edges, row, q) &&
    indices == indices0 + IndicesUpTo(|indices0|, q)
  }

  /** Before the first pass the buffers hold only their old contents. */
  lemma LoopStart(cube: seq<Voxel>, density: real, edges: seq<seq<nat>>, row: seq<int>,
                  vertices0: seq<Vec3>, indices0: seq<int>)
    requires RowFits(cube, density, edges, row)
    ensures LoopState(cube, density, edges, row, 0, 0, vertices0, indices0, vertices0, indices0)
  {
    assert vertices0 + [] == vertices0;
    assert indices0 + [] == indices0;
  }

  /** The loop stops at the first sentinel, after all the row's triangles. */
  lemma LoopEnd(cube: seq<Voxel>, density: real, edges: seq<seq<nat>>, row: seq<int>, i: nat, q: nat,
                vertices0: seq<Vec3>, indices0: seq<int>, vertices: seq<Vec3>, indices: seq<int>)
    requires RowFits(cube, density, edges, row)
    requires LoopState(cube, density, edges, row, i, q, vertices0, indices0, vertices, indices)
    requires row[i] == Sentinel
    ensures vertices == vertices0 + VerticesUpTo(cube, density, edges, row, TriangleCount(row))
    ensures indices == indices0 + IndicesUpTo(|indices0|, TriangleCount(row))
  {
    assert i == FirstSentinel(row);
    assert q == TriangleCount(row);
  }

  /**
   * One pass of the triangle loop at row position i = 3q, as the loop sees
   * it: buffers holding the first q triangles of the row after `vertices0`
   * and `indices0` hold the first q + 1 once the next triangle is pushed.
   */
  method StepTriangle(cube: seq<Voxel>, density: real, edges: seq<seq<nat>>, row: seq<int>, i: nat,
                      ghost q: nat, ghost vertices0: seq<Vec3>, ghost indices0: seq<int>,
                      vertexBuffer: VertexBuffer, indexBuffer: IndexBuffer)
    requires RowFits(cube, density, edges, row) && q < TriangleCount(row) && i == 3 * q
    requires |indices0| + FirstSentinel(row) <= U32Limit
    requires vertexBuffer.items == vertices0 + VerticesUpTo(cube, density, edges, row, q)
    requires indexBuffer.items == indices0 + IndicesUpTo(|indices0|, q)
    modifies vertexBuffer, indexBuffer
    ensures vertexBuffer.items == vertices0 + VerticesUpTo(cube, density, edges, row, q + 1)
    ensures indexBuffer.items == indices0 + IndicesUpTo(|indices0|, q + 1)
  {
    ghost var verticesBefore, indicesBefore := vertexBuffer.items, indexBuffer.items;
    PushTriangle(cube, density, edges, row, i, vertexBuffer, indexBuffer);
    VerticesAppended(cube, density, edges, row, q, vertices0, verticesBefore, vertexBuffer.items);
    IndicesAppended(|indices0|, q, indices0, indicesBefore, indexBuffer.items);
  }

  /**
   * The body of the triangle loop at row position i: the three vertices
   * interpolated on the edges named at i, i + 1 and i + 2 are pushed, then
   * the indices n, n + 2, n + 1 where n is the index-buffer length before.
   */
  method PushTriangle(cube: seq<Voxel>, density: real, edges: seq<seq<nat>>, row: seq<int>, i: nat,
                      vertexBuffer: VertexBuffer, indexBuffer: IndexBuffer)
    requires RowFits(cube, density, edges, row) && i + 3 <= FirstSentinel(row)
    requires |indexBuffer.items| + 3 <= U32Limit
    modifies vertexBuffer, indexBuffer
    ensures vertexBuffer.items == old(vertexBuffer.items) + [EdgeVertex(cube, density, edges, row, i),
                                                             EdgeVertex(cube, density, edges, row, i + 1),
                                                             EdgeVertex(cube, density, edges, row, i + 2)]
    ensures indexBuffer.items == old(indexBuffer.items) + [old(|indexBuffer.items|),
                                                           old(|indexBuffer.items|) + 2,
                                                           old(|indexBuffer.items|) + 1]
  {
    var a0 := edges[row[i]][0];
    var b0 := edges[row[i]][1];

    var a1 := edges[row[i + 1]][0];
    var b1 := edges[row[i + 1]][1];

    var a2 := edges[row[i + 2]][0];
    var b2 := edges[row[i + 2]][1];

    var vertexA := Interpolate(cube[a0], cube[b0], density);
    var vertexB := Interpolate(cube[a1], cube[b1], density);
    var vertexC := Interpolate(cube[a2], cube[b2], density);

    var indexCount := |indexBuffer.items| as u32;
    vertexBuffer.Push(vertexA);
    vertexBuffer.Push(vertexB);
    vertexBuffer.Push(vertexC);

    indexBuffer.Push(indexCount);
    indexBuffer.Push(indexCount + 2);
    indexBuffer.Push(indexCount + 1);
  }

  /** A position 3q before the sentinel starts triangle q of the row, which then is not the last + 1. */
  lemma NextTriangle(row: seq<int>, i: nat, q: nat)
    requires WellFormedRow(row) && i == 3 * q && q <= TriangleCount(row) && i < |row| && row[i] != Sentinel
    ensures q < TriangleCount(row) && i + 3 <= FirstSentinel(row)
  {
  }

  /** The vertex buffer after pushing triangle q's three vertices. */
  lemma VerticesAppended(cube: seq<Voxel>, density: real, edges: seq<seq<nat>>, row: seq<int>, q: nat,
                         vertices0: seq<Vec3>, before: seq<Vec3>, after: seq<Vec3>)
    requires RowFits(cube, density, edges, row) && q < TriangleCount(row)
    requires before == vertices0 + VerticesUpTo(cube, density, edges, row, q)
    requires after == before + [EdgeVertex(cube, density, edges, row, 3 * q),
                                EdgeVertex(cube, density, edges, row, 3 * q + 1),
                                EdgeVertex(cube, density, edges, row, 3 * q + 2)]
    ensures after == vertices0 + VerticesUpTo(cube, density, edges, row, q + 1)
  {
  }

  /** The index buffer after pushing triangle q's three indices. */
  lemma IndicesAppended(n0: nat, q: nat, indices0: seq<int>, before: seq<int>, after: seq<int>)
    requires |indices0| == n0
    requires before == indices0 + IndicesUpTo(n0, q)
    requires after == before + [|before|, |before| + 2, |before| + 1]
    ensures after == indices0 + IndicesUpTo(n0, q + 1)
  {
  }

  // ---------------------------------------------------------------------
  // Walking the grid: the specification
  // ---------------------------------------------------------------------

  /** Grid coordinates of a sample. */
  datatype Cell = Cell(x: nat, y: nat, z: nat)

  /** The coordinates of flat index i: x varies fastest, then y, then z. */
  function Decode(i: nat, gridSize: nat): (c: Cell)
    requires gridSize > 0
    ensures c.x < gridSize && c.y < gridSize
  {
    Cell(i % gridSize, (i / gridSize) % gridSize, i / (gridSize * gridSize))
  }

  /** Index i is skipped when its cell would reach past the far face in some direction. */
  predicate Skipped(i: nat, gridSize: nat)
    requires gridSize > 0
  {
    var c := Decode(i, gridSize);
    c.x >= gridSize - 1 || c.y >= gridSize - 1 || c.z >= gridSize - 1
  }

  /**
   * The eight flat sample indices gathered for the cell at c, in corner
   * order. As written, slot 7 repeats slot 4.
   */
  function CornerIndices(c: Cell, gridSize: nat): (ks: seq<nat>)
    ensures |ks| == 8
  {
    [c.x + c.y * gridSize + (c.z + 1) * gridSize * gridSize,
     (c.x + 1) + c.y * gridSize + (c.z + 1) * gridSize * gridSize,
     (c.x + 1) + c.y * gridSize + c.z * gridSize * gridSize,
     c.x + c.y * gridSize + c.z * gridSize * gridSize,
     c.x + (c.y + 1) * gridSize + (c.z + 1) * gridSize * gridSize,
     (c.x + 1) + (c.y + 1) * gridSize + (c.z + 1) * gridSize * gridSize,
     (c.x + 1) + (c.y + 1) * gridSize + c.z * gridSize * gridSize,
     c.x + (c.y + 1) * gridSize + (c.z + 1) * gridSize * gridSize]
  }

  /**
   * What indexing the samples needs: a nonzero grid size when there is a
   * sample at all, and every corner of every cell that is not skipped
   * inside the sample vector.
   */
  predicate CoversCells(n: nat, gridSize: nat)
  {
    n > 0 ==>
      gridSize > 0 &&
      forall i :: 0 <= i < n && !Skipped(i, gridSize) ==>
        forall j :: 0 <= j < 8 ==> CornerIndices(Decode(i, gridSize), gridSize)[j] < n
  }

  /** The eight voxels of the cell of index i. */
  function CellCorners(noise: seq<Voxel>, gridSize: nat, i: nat): (cube: seq<Voxel>)
    requires CoversCells(|noise|, gridSize) && i < |noise| && !Skipped(i, gridSize)
    ensures |cube| == 8
  {
    var ks := CornerIndices(Decode(i, gridSize), gridSize);
    [noise[ks[0]], noise[ks[1]], noise[ks[2]], noise[ks[3]],
     noise[ks[4]], noise[ks[5]], noise[ks[6]], noise[ks[7]]]
  }

  /**
   * What the walker appends to the vertex buffer for the first k indices:
   * skipped indices add nothing, every other one adds the vertices
   * `polygonize_cube` emits for its cell.
   */
  function WalkVertices(noise: seq<Voxel>, gridSize: nat, density: real, t: Tables, k: nat): (vs: seq<Vec3>)
    requires WellFormed(t) && CoversCells(|noise|, gridSize) && k <= |noise|
  {
    if k == 0 then []
    else if Skipped(k - 1, gridSize) then WalkVertices(noise, gridSize, density, t, k - 1)
    else WalkVertices(noise, gridSize, density, t, k - 1) + EmittedVertices(CellCorners(noise, gridSize, k - 1), density, t)
  }

  /**
   * What the walker appends to the index buffer for the first k indices
   * when the buffer held n0 entries before it: skipped indices add nothing,
   * every other one adds the indices `polygonize_cube` emits for its cell,
   * numbered after the entries already in the buffer.
   */
  function WalkIndices(noise: seq<Voxel>, gridSize: nat, density: real, t: Tables, k: nat, n0: nat): (ns: seq<int>)
    requires WellFormed(t) && CoversCells(|noise|, gridSize) && k <= |noise|
  {
    if k == 0 then []
    else
      var prev := WalkIndices(noise, gridSize, density, t, k - 1, n0);
      if Skipped(k - 1, gridSize) then prev
      else prev + EmittedIndices(CellCorners(noise, gridSize, k - 1), density, t, n0 + |prev|)
  }

  // ---------------------------------------------------------------------
  // Walking the grid: properties of the specification
  // ---------------------------------------------------------------------

  /** Decoding round trip: the coordinates of i recombine to i. */
  lemma DecodeRoundTrip(i: nat, gridSize: nat)
    requires gridSize > 0
    ensures var c := Decode(i, gridSize);
      c.x + c.y * gridSize + c.z * (gridSize * gridSize) == i
  {
    var g := gridSize;
    var q := i / g;
    assert i == q * g + i % g;
    assert q == (q / g) * g + q % g;
    DivDiv(i, g);
    calc {
      i % g + (q % g) * g + (i / (g * g)) * (g * g);
      i % g + (q % g) * g + (q / g) * g * g;
      i % g + ((q % g) + (q / g) * g) * g;
      i % g + q * g;
      i;
    }
  }

  /** Dividing by g twice is dividing by g * g. */
  lemma DivDiv(i: nat, g: nat)
    requires g > 0
    ensures i / (g * g) == (i / g) / g
  {
    var q, r := i / g, i % g;
    var q2, r2 := q / g, q % g;
    assert i == q * g + r;
    assert q == q2 * g + r2;
    assert i == q2 * (g * g) + (r2 * g + r);
    MulMonotone(r2, g - 1, g);
    assert (g - 1) * g == g * g - g;
    DivUnique(i, g * g, q2, r2 * g + r);
  }

  /** Euclidean division is unique: n = q d + r with 0 <= r < d makes q the quotient. */
  lemma DivUnique(n: nat, d: nat, q: nat, r: nat)
    requires d > 0 && r < d && n == q * d + r
    ensures n / d == q
  {
    var q0, r0 := n / d, n % d;
    assert n == q0 * d + r0 && r0 < d;
    if q0 < q {
      MulLess(q0, q, d);
      assert false;
    } else if q < q0 {
      MulLess(q, q0, d);
      assert false;
    }
  }

  /** a < b makes b d exceed a d by at least d. */
  lemma MulLess(a: nat, b: nat, d: nat)
    requires a < b
    ensures a * d + d <= b * d
  {
    MulMonotone(a + 1, b, d);
    assert (a + 1) * d == a * d + d;
  }

  /**
   * A cell that is not skipped lies strictly inside the grid: each
   * coordinate is at most gridSize - 2, and its eight corners are below
   * gridSize^3.
   */
  lemma CellInGrid(i: nat, gridSize: nat)
    requires gridSize > 0 && !Skipped(i, gridSize)
    ensures var c := Decode(i, gridSize);
      c.x <= gridSize - 2 && c.y <= gridSize - 2 && c.z <= gridSize - 2
    ensures forall j :: 0 <= j < 8 ==>
      CornerIndices(Decode(i, gridSize), gridSize)[j] < gridSize * gridSize * gridSize
  {
    var c := Decode(i, gridSize);
    TopCornerInGrid(c, gridSize);
    CornersBelowTop(c, gridSize);
  }

  /** The far corner of a cell with coordinates at most g - 2 is below g^3. */
  lemma TopCornerInGrid(c: Cell, g: nat)
    requires g > 0 && c.x <= g - 2 && c.y <= g - 2 && c.z <= g - 2
    ensures (c.x + 1) + (c.y + 1) * g + (c.z + 1) * g * g < g * g * g
  {
    MulMonotone(c.y + 1, g - 1, g);
    MulMonotone(c.z + 1, g - 1, g);
    MulMonotone((c.z + 1) * g, (g - 1) * g, g);
    assert (g - 1) + (g - 1) * g + (g - 1) * g * g == g * g * g - 1;
  }

  /** No corner index of a cell exceeds that of its far corner. */
  lemma CornersBelowTop(c: Cell, g: nat)
    ensures forall j :: 0 <= j < 8 ==>
      CornerIndices(c, g)[j] <= (c.x + 1) + (c.y + 1) * g + (c.z + 1) * g * g
  {
    assert c.y * g <= (c.y + 1) * g && c.z * g * g <= (c.z + 1) * g * g;
  }

  lemma MulMonotone(a: nat, b: nat, c: nat)
    requires a <= b
    ensures a * c <= b * c
  {
  }

  /** A sample vector holding the whole grid covers every cell. */
  lemma GridCovers(n: nat, gridSize: nat)
    requires gridSize > 0 && gridSize * gridSize * gridSize <= n
    ensures CoversCells(n, gridSize)
  {
    forall i | 0 <= i < n && !Skipped(i, gridSize)
      ensures forall j :: 0 <= j < 8 ==> CornerIndices(Decode(i, gridSize), gridSize)[j] < n
    {
      CellInGrid(i, gridSize);
    }
  }

  /** As written, corner slots 4 and 7 read the same sample. */
  lemma CornerSlotsFourAndSevenCoincide(c: Cell, gridSize: nat)
    ensures CornerIndices(c, gridSize)[4] == CornerIndices(c, gridSize)[7]
  {
  }

  /** A cube appends as many indices as vertices, at most 15. */
  lemma EmittedSameCount(cube: seq<Voxel>, density: real, t: Tables, n0: nat)
    requires Ready(cube, t)
    ensures |EmittedVertices(cube, density, t)| == |EmittedIndices(cube, density, t, n0)| <= 15
  {
    EmittedCounts(cube, density, t, n0);
  }

  /** The walk appends as many indices as vertices, at most 15 per index walked. */
  lemma {:induction false} WalkCounts(noise: seq<Voxel>, gridSize: nat, density: real, t: Tables, k: nat, n0: nat)
    requires WellFormed(t) && CoversCells(|noise|, gridSize) && k <= |noise|
    ensures |WalkVertices(noise, gridSize, density, t, k)| == |WalkIndices(noise, gridSize, density, t, k, n0)| <= 15 * k
  {
    if k > 0 {
      WalkCounts(noise, gridSize, density, t, k - 1, n0);
      if !Skipped(k - 1, gridSize) {
        var cube := CellCorners(noise, gridSize, k - 1);
        var prev := WalkIndices(noise, gridSize, density, t, k - 1, n0);
        EmittedSameCount(cube, density, t, n0 + |prev|);
        assert |WalkVertices(noise, gridSize, density, t, k)|
            == |WalkVertices(noise, gridSize, density, t, k - 1)| + |EmittedVertices(cube, density, t)|;
        assert |WalkIndices(noise, gridSize, density, t, k, n0)| == |prev| + |EmittedIndices(cube, density, t, n0 + |prev|)|;
      }
    }
  }

  /** With no samples there is nothing to walk, and nothing is appended. */
  lemma EmptyWalk(gridSize: nat, density: real, t: Tables, n0: nat)
    requires WellFormed(t)
    ensures WalkVertices([], gridSize, density, t, 0) == [] && WalkIndices([], gridSize, density, t, 0, n0) == []
  {
  }

  // ---------------------------------------------------------------------
  // Walking the grid: the loop
  // ---------------------------------------------------------------------

  /**
   * `marching_cubes`: the sample vector it walks is a freshly created empty
   * `Vec`, so the walk does nothing and both buffers are left as they were.
   * Neither `points` nor `gridSize` affects the result, because the vector
   * walked is empty.
   */
  method MarchingCubes(points: seq<real>, gridSize: nat, density: real, t: Tables,
                       vertexBuffer: VertexBuffer, indexBuffer: IndexBuffer)
    requires WellFormed(t)
    modifies vertexBuffer, indexBuffer
    ensures vertexBuffer.items == old(vertexBuffer.items)
    ensures indexBuffer.items == old(indexBuffer.items)
  {
    var noise: seq<Voxel> := [];
    MarchCells(noise, gridSize, density, t, vertexBuffer, indexBuffer);
    EmptyWalk(gridSize, density, t, old(|indexBuffer.items|));
  }

  /**
   * The `for` loop of `marching_cubes` over a sample vector: decode each
   * index into cell coordinates, skip cells on the far faces, gather the
   * eight corner samples and polygonize the cell. The buffers end as they
   * began followed by the walk's mesh.
   */
  method MarchCells(noise: seq<Voxel>, gridSize: nat, density: real, t: Tables,
                    vertexBuffer: VertexBuffer, indexBuffer: IndexBuffer)
    requires WellFormed(t) && CoversCells(|noise|, gridSize)
    requires |noise| == 0 || |indexBuffer.items| + 15 * |noise| <= U32Limit
    modifies vertexBuffer, indexBuffer
    ensures vertexBuffer.items == old(vertexBuffer.items) + WalkVertices(noise, gridSize, density, t, |noise|)
    ensures indexBuffer.items == old(indexBuffer.items) + WalkIndices(noise, gridSize, density, t, |noise|, old(|indexBuffer.items|))
    ensures MeshConsistent(old(vertexBuffer.items), old(indexBuffer.items)) ==>
      MeshConsistent(vertexBuffer.items, indexBuffer.items)
  {
    ghost var vertices0, indices0 := vertexBuffer.items, indexBuffer.items;
    WalkStart(noise, gridSize, density, t, vertices0, indices0);
    for i := 0 to |noise|
      invariant WalkState(noise, gridSize, density, t, i, vertices0, indices0, vertexBuffer.items, indexBuffer.items)
      invariant MeshConsistent(vertices0, indices0) ==> MeshConsistent(vertexBuffer.items, indexBuffer.items)
    {
      var x := i % gridSize;
      var y := (i / gridSize) % gridSize;
      var z := i / (gridSize * gridSize);

      if x >= gridSize - 1 || y >= gridSize - 1 || z >= gridSize - 1 {
        WalkSkip(noise, gridSize, density, t, i, vertices0, indices0, vertexBuffer.items, indexBuffer.items);
        continue;
      }

      CellCornersInRange(|noise|, gridSize, i);
      CornersInRange(|noise|, gridSize, x, y, z);
      CellCornersAt(noise, gridSize, i, x, y, z);
      var cube := [
        noise[x + y * gridSize + (z + 1) * gridSize * gridSize],
        noise[(x + 1) + y * gridSize + (z + 1) * gridSize * gridSize],
        noise[(x + 1) + y * gridSize + z * gridSize * gridSize],
        noise[x + y * gridSize + z * gridSize * gridSize],
        noise[x + (y + 1) * gridSize + (z + 1) * gridSize * gridSize],
        noise[(x + 1) + (y + 1) * gridSize + (z + 1) * gridSize * gridSize],
        noise[(x + 1) + (y + 1) * gridSize + z * gridSize * gridSize],
        noise[x + (y + 1) * gridSize + (z + 1) * gridSize * gridSize]
      ];

      ghost var verticesBefore, indicesBefore := vertexBuffer.items, indexBuffer.items;
      WalkBound(noise, gridSize, density, t, i, vertices0, indices0, verticesBefore, indicesBefore);
      PolygonizeCube(cube, density, t, vertexBuffer, indexBuffer);
      if MeshConsistent(verticesBefore, indicesBefore) {
        PolygonizeKeepsMeshConsistent(cube, density, t, verticesBefore, indicesBefore);
      }
      WalkStep(noise, gridSize, density, t, i, vertices0, indices0, verticesBefore, indicesBefore,
               vertexBuffer.items, indexBuffer.items);
    }
  }

  /** The state of the walk after the first i indices. */
  predicate WalkState(noise: seq<Voxel>, gridSize: nat, density: real, t: Tables, i: nat,
                      vertices0: seq<Vec3>, indices0: seq<int>, vertices: seq<Vec3>, indices: seq<int>)
    requires WellFormed(t) && CoversCells(|noise|, gridSize)
  {
    i <= |noise| &&
    vertices == vertices0 + WalkVertices(noise, gridSize, density, t, i) &&
    indices == indices0 + WalkIndices(noise, gridSize, density, t, i, |indices0|)
  }

  lemma WalkStart(noise: seq<Voxel>, gridSize: nat, density: real, t: Tables, vertices0: seq<Vec3>, indices0: seq<int>)
    requires WellFormed(t) && CoversCells(|noise|, gridSize)
    ensures WalkState(noise, gridSize, density, t, 0, vertices0, indices0, vertices0, indices0)
  {
    assert vertices0 + [] == vertices0;
    assert indices0 + [] == indices0;
  }

  /** A skipped index leaves the buffers as they are. */
  lemma WalkSkip(noise: seq<Voxel>, gridSize: nat, density: real, t: Tables, i: nat,
                 vertices0: seq<Vec3>, indices0: seq<int>, vertices: seq<Vec3>, indices: seq<int>)
    requires WellFormed(t) && CoversCells(|noise|, gridSize) && i < |noise|
    requires WalkState(noise, gridSize, density, t, i, vertices0, indices0, vertices, indices)
    requires gridSize > 0 && Skipped(i, gridSize)
    ensures WalkState(noise, gridSize, density, t, i + 1, vertices0, indices0, vertices, indices)
  {
  }

  /** The corners of a cell that is not skipped are inside the sample vector. */
  lemma CellCornersInRange(n: nat, g: nat, i: nat)
    requires CoversCells(n, g) && i < n
    requires g > 0 && !Skipped(i, g)
    ensures forall j :: 0 <= j < 8 ==> CornerIndices(Decode(i, g), g)[j] < n
  {
  }

  /** The corner indices of the cell at (x, y, z), one by one. */
  lemma CornerIndicesAt(g: nat, x: nat, y: nat, z: nat)
    ensures var ks := CornerIndices(Cell(x, y, z), g);
      ks[0] == x + y * g + (z + 1) * g * g
      && ks[1] == (x + 1) + y * g + (z + 1) * g * g
      && ks[2] == (x + 1) + y * g + z * g * g
      && ks[3] == x + y * g + z * g * g
      && ks[4] == x + (y + 1) * g + (z + 1) * g * g
      && ks[5] == (x + 1) + (y + 1) * g + (z + 1) * g * g
      && ks[6] == (x + 1) + (y + 1) * g + z * g * g
      && ks[7] == x + (y + 1) * g + (z + 1) * g * g
  {
  }

  /** The corner bounds of the cell at (x, y, z), written out as the loop computes the indices. */
  lemma CornersInRange(n: nat, g: nat, x: nat, y: nat, z: nat)
    requires forall j :: 0 <= j < 8 ==> CornerIndices(Cell(x, y, z), g)[j] < n
    ensures 0 <= x + y * g + (z + 1) * g * g < n &&
      0 <= (x + 1) + y * g + (z + 1) * g * g < n &&
      0 <= (x + 1) + y * g + z * g * g < n &&
      0 <= x + y * g + z * g * g < n &&
      0 <= x + (y + 1) * g + (z + 1) * g * g < n &&
      0 <= (x + 1) + (y + 1) * g + (z + 1) * g * g < n &&
      0 <= (x + 1) + (y + 1) * g + z * g * g < n &&
      0 <= x + (y + 1) * g + (z + 1) * g * g < n
  {
    CornerIndicesAt(g, x, y, z);
  }

  /** The corners of the cell at (x, y, z), gathered as the loop does, form `CellCorners`. */
  lemma CellCornersAt(noise: seq<Voxel>, g: nat, i: nat, x: nat, y: nat, z: nat)
    requires CoversCells(|noise|, g) && i < |noise|
    requires g > 0 && !Skipped(i, g) && Decode(i, g) == Cell(x, y, z)
    requires 0 <= x + y * g + (z + 1) * g * g < |noise| &&
      0 <= (x + 1) + y * g + (z + 1) * g * g < |noise| &&
      0 <= (x + 1) + y * g + z * g * g < |noise| &&
      0 <= x + y * g + z * g * g < |noise| &&
      0 <= x + (y + 1) * g + (z + 1) * g * g < |noise| &&
      0 <= (x + 1) + (y + 1) * g + (z + 1) * g * g < |noise| &&
      0 <= (x + 1) + (y + 1) * g + z * g * g < |noise| &&
      0 <= x + (y + 1) * g + (z + 1) * g * g < |noise|
    ensures CellCorners(noise, g, i) ==
      [noise[x + y * g + (z + 1) * g * g],
       noise[(x + 1) + y * g + (z + 1) * g * g],
       noise[(x + 1) + y * g + z * g * g],
       noise[x + y * g + z * g * g],
       noise[x + (y + 1) * g + (z + 1) * g * g],
       noise[(x + 1) + (y + 1) * g + (z + 1) * g * g],
       noise[(x + 1) + (y + 1) * g + z * g * g],
       noise[x + (y + 1) * g + (z + 1) * g * g]]
  {
    assert CornerIndices(Decode(i, g), g) == CornerIndices(Cell(x, y, z), g);
    CornerIndicesAt(g, x, y, z);
  }

  /** Before a cell is polygonized the index buffer has room for 15 more entries. */
  lemma WalkBound(noise: seq<Voxel>, gridSize: nat, density: real, t: Tables, i: nat,
                  vertices0: seq<Vec3>, indices0: seq<int>, vertices: seq<Vec3>, indices: seq<int>)
    requires WellFormed(t) && CoversCells(|noise|, gridSize) && i < |noise|
    requires |indices0| + 15 * |noise| <= U32Limit
    requires WalkState(noise, gridSize, density, t, i, vertices0, indices0, vertices, indices)
    ensures |indices| + 15 <= U32Limit
  {
    WalkCounts(noise, gridSize, density, t, i, |indices0|);
  }

  /** A cell that is polygonized appends what `polygonize_cube` emits for it. */
  lemma WalkStep(noise: seq<Voxel>, gridSize: nat, density: real, t: Tables, i: nat,
                 vertices0: seq<Vec3>, indices0: seq<int>, verticesBefore: seq<Vec3>, indicesBefore: seq<int>,
                 vertices: seq<Vec3>, indices: seq<int>)
    requires WellFormed(t) && CoversCells(|noise|, gridSize) && i < |noise|
    requires WalkState(noise, gridSize, density, t, i, vertices0, indices0, verticesBefore, indicesBefore)
    requires gridSize > 0 && !Skipped(i, gridSize)
    requires vertices == verticesBefore + EmittedVertices(CellCorners(noise, gridSize, i), density, t)
    requires indices == indicesBefore + EmittedIndices(CellCorners(noise, gridSize, i), density, t, |indicesBefore|)
    ensures WalkState(noise, gridSize, density, t, i + 1, vertices0, indices0, vertices, indices)
  {
    WalkVerticesStep(noise, gridSize, density, t, i, vertices0, verticesBefore, vertices);
    WalkIndicesStep(noise, gridSize, density, t, i, indices0, indicesBefore, indices);
  }

  /** A cell that is polygonized appends its cube's vertices to the walk's. */
  lemma WalkVerticesStep(noise: seq<Voxel>, gridSize: nat, density: real, t: Tables, i: nat,
                         vertices0: seq<Vec3>, verticesBefore: seq<Vec3>, vertices: seq<Vec3>)
    requires WellFormed(t) && CoversCells(|noise|, gridSize) && i < |noise| && !Skipped(i, gridSize)
    requires verticesBefore == vertices0 + WalkVertices(noise, gridSize, density, t, i)
    requires vertices == verticesBefore + EmittedVertices(CellCorners(noise, gridSize, i), density, t)
    ensures vertices == vertices0 + WalkVertices(noise, gridSize, density, t, i + 1)
  {
    AppendAssoc(vertices0, WalkVertices(noise, gridSize, density, t, i), EmittedVertices(CellCorners(noise, gridSize, i), density, t));
  }

  /** A cell that is polygonized appends its cube's indices to the walk's. */
  lemma WalkIndicesStep(noise: seq<Voxel>, gridSize: nat, density: real, t: Tables, i: nat,
                        indices0: seq<int>, indicesBefore: seq<int>, indices: seq<int>)
    requires WellFormed(t) && CoversCells(|noise|, gridSize) && i < |noise| && !Skipped(i, gridSize)
    requires indicesBefore == indices0 + WalkIndices(noise, gridSize, density, t, i, |indices0|)
    requires indices == indicesBefore + EmittedIndices(CellCorners(noise, gridSize, i), density, t, |indicesBefore|)
    ensures indices == indices0 + WalkIndices(noise, gridSize, density, t, i + 1, |indices0|)
  {
    var prev := WalkIndices(noise, gridSize, density, t, i, |indices0|);
    AppendAssoc(indices0, prev, EmittedIndices(CellCorners(noise, gridSize, i), density, t, |indices0| + |prev|));
  }

  /** Appending is associative. */
  lemma AppendAssoc<T>(a: seq<T>, b: seq<T>, c: seq<T>)
    ensures (a + b) + c == a + (b + c)
  {
  }
}
