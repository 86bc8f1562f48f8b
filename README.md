# Marching Cubes core of rusty_polygons, in Dafny

This project models the `marching_cubes` crate of rusty_polygons and proves
properties of the model. The crate implements the classic Lorensen–Cline
Marching Cubes isosurface extractor:

- **Cube classifier** (`get_cube_index`, written twice, in
  `crates/marching_cubes/src/lib.rs` and `crates/marching_cubes/src/cpu/mod.rs`).
  It turns the eight corner samples of a cell into an 8-bit topology case.
  Bit k is set when corner k's sample is strictly below the iso level.
- **Edge interpolation** (`interpolate`). It is the point on an edge where
  a field that is linear along the edge reaches the level.
- **Polygonizer** (`polygonize_cube`). It looks up the row of the
  triangulation table for the case. It walks the row in steps of three
  until the `-1` sentinel and pushes three interpolated vertices and the
  indices `n, n + 2, n + 1` for each triple.
- **Grid walker** (`marching_cubes`). It decodes a flat sample index into
  `(x, y, z)`, skips cells on the far faces, gathers eight corner samples and
  polygonizes the cell.

Modules, one per concern:

- `CubeIndex` (cube_index.dfy) is the lib.rs classifier. Its specification
  is `Classify`, the sum of 2^k over the corners below the level. `CaseBits`
  is the same case as the OR of 8-bit masks, which is how the code builds it.
- `LookupTables` (lookup_tables.dfy) holds the triangulation table and the
  edge-to-corner table. They are a parameter `Tables`, constrained by
  `WellFormed`.
- `Buffers` (buffers.dfy) holds `Vec3`, Rust's `u32`, and the two growable
  buffers. Each buffer is a class whose `items` sequence `Push` extends.
- `Cpu` (cpu.dfy) holds the voxel, the cpu classifier, the interpolation,
  the polygonizer and the walker.
  - The loops are methods proved against specification functions.
  - `EmittedVertices` and `EmittedIndices` say what one cube appends.
  - `WalkVertices` and `WalkIndices` say what the walker appends over a sample vector.

Samples and coordinates are `real`. The code's `f32` arithmetic is not modelled.

Points of the code as written that a reader might not expect:

- Each vertex is interpolated directly, for every triple of the row. The
  code keeps no per-edge vertex cache, so a vertex shared by two triangles
  is computed and pushed twice.
- `marching_cubes` walks a locally created, empty sample vector, so a call
  leaves both buffers unchanged. The loop is modelled as `MarchCells`, which
  takes the sample vector as a parameter. `MarchingCubes` calls it with the
  empty vector, as the code does.
- Corner slot 7 reads the same sample as slot 4.

Functions the lemmas in the table are about:

- `Cpu.Interpolate` is `interpolate` (cpu/mod.rs:50-56).
- `Cpu.Decode` is the decoding of a flat index (cpu/mod.rs:112-114).
- `Cpu.Skipped` is the far-face test (cpu/mod.rs:116).
- `Cpu.CornerIndices` is the eight gathered flat indices (cpu/mod.rs:120-129).
- `Cpu.CellCorners` is the gathered cube.
- `Cpu.EmittedVertices` and `Cpu.EmittedIndices` are what `polygonize_cube` appends for one cube (cpu/mod.rs:58-100).
- `Cpu.WalkVertices` and `Cpu.WalkIndices` are what the loop of `marching_cubes` appends (cpu/mod.rs:111-132).

## Model

| member | source | states |
|---|---|---|
| CubeIndex.GetCubeIndex | crates/marching_cubes/src/lib.rs:3-30 | the accumulated index is the OR of 2^k over the corners strictly below the level, and its value is `Classify`, the sum of those powers |
| CubeIndex.ClassifyBit | crates/marching_cubes/src/lib.rs:4-29 | bit k of the case is set if and only if corner k's sample is strictly below the level |
| CubeIndex.CaseBitsValue | crates/marching_cubes/src/lib.rs:4-29 | the 8-bit OR of the corner masks, read as a number, equals the sum of 2^k over the corners below |
| CubeIndex.ClassifyRange | crates/marching_cubes/src/lib.rs:3-29 | the case of n corners is below 2^n, so a cube's case fits in 8 bits |
| CubeIndex.ClassifyAllBelow | crates/marching_cubes/src/lib.rs:5-28 | when every corner is below the level the case is 2^n - 1 (255 for a cube) |
| CubeIndex.ClassifyNoneBelow | crates/marching_cubes/src/lib.rs:5-28 | when no corner is strictly below the level, including when all equal it, the case is 0 |
| CubeIndex.ClassifyMonotone | crates/marching_cubes/src/lib.rs:5-28 | raising the level never clears a bit of the case |
| Cpu.GetCubeIndex | crates/marching_cubes/src/cpu/mod.rs:20-48 | the cpu classifier returns the lib.rs 8-bit case of the voxels' values, whose value is `Classify` of them |
| Cpu.ClassifiersAgree | crates/marching_cubes/src/cpu/mod.rs:20-48 | running both copies of `get_cube_index` on the same cube gives the same index |
| Cpu.CaseOf | crates/marching_cubes/src/cpu/mod.rs:64 | the case of a cube is a row number of the 256-row table |
| Cpu.InterpolateEndpoints | crates/marching_cubes/src/cpu/mod.rs:50-56 | interpolating at a's value gives a's position and at b's value gives b's position |
| Cpu.InterpolateSymmetric | crates/marching_cubes/src/cpu/mod.rs:50-56 | interpolating along a-b and along b-a gives the same point |
| Cpu.InterpolateOnSegment | crates/marching_cubes/src/cpu/mod.rs:51-55 | when the level lies between the two values, the result is on the closed segment between the positions |
| Cpu.InterpolateWeighted | crates/marching_cubes/src/cpu/mod.rs:51-55 | the result is the average of the two positions, each weighted by the other corner's distance from the level |
| Cpu.CaseRowFits | crates/marching_cubes/src/cpu/mod.rs:72-87 | every edge the case's row names before the sentinel joins a corner below the level and one that is not, so the interpolation never divides by zero |
| Cpu.PolygonizeCube | crates/marching_cubes/src/cpu/mod.rs:58-100 | both buffers keep their old contents as a prefix, followed by exactly what `EmittedVertices` and `EmittedIndices` say the cube emits |
| Cpu.EmitTriangles | crates/marching_cubes/src/cpu/mod.rs:70-99 | the loop appends the vertices and indices of every triangle of the row before the sentinel, in order |
| Cpu.StepTriangle | crates/marching_cubes/src/cpu/mod.rs:71-98 | one pass turns buffers holding the first q triangles of the row into buffers holding the first q + 1 |
| Cpu.PushTriangle | crates/marching_cubes/src/cpu/mod.rs:76-96 | one triple pushes the three vertices interpolated on the edges named at i, i + 1 and i + 2, then the indices n, n + 2, n + 1 where n is the old index-buffer length |
| Cpu.EmittedCounts | crates/marching_cubes/src/cpu/mod.rs:66-99 | a uniform case appends nothing; otherwise a cube appends 3 vertices and 3 indices per triangle of the row, at most 15 of each |
| Cpu.UniformCubeEmitsNothing | crates/marching_cubes/src/cpu/mod.rs:66-68 | if every corner is below the level, or none is, nothing is appended to either buffer |
| Cpu.IndexTriples | crates/marching_cubes/src/cpu/mod.rs:89-96 | appended triangle p is (n, n + 2, n + 1), where n is the index-buffer length before it |
| Cpu.IndicesInRange | crates/marching_cubes/src/cpu/mod.rs:89-96 | every index appended after n0 existing ones lies in [n0, n0 + 3q) |
| Cpu.VerticesUpToAt | crates/marching_cubes/src/cpu/mod.rs:76-92 | appended vertex k is the interpolation on the edge named at position k of the row |
| Cpu.EmittedVerticesOnEdges | crates/marching_cubes/src/cpu/mod.rs:76-92 | every appended vertex comes from an edge crossing the level, is the interpolation along it, and lies on that edge |
| Cpu.PolygonizeKeepsMeshConsistent | crates/marching_cubes/src/cpu/mod.rs:89-96 | buffers that start with equal lengths stay equal, and every index stays below the vertex-buffer length |
| Cpu.Decode | crates/marching_cubes/src/cpu/mod.rs:112-114 | the decoded x and y lie below the grid size |
| Cpu.DecodeRoundTrip | crates/marching_cubes/src/cpu/mod.rs:112-114 | the decoded coordinates recombine to the flat index: x + y g + z g^2 = i |
| Cpu.CellInGrid | crates/marching_cubes/src/cpu/mod.rs:111-129 | for an index that is not skipped, x, y and z are at most g - 2 and all eight gathered flat indices are below g^3 |
| Cpu.GridCovers | crates/marching_cubes/src/cpu/mod.rs:120-129 | a sample vector of at least g^3 samples contains every corner of every cell that is not skipped |
| Cpu.CornerSlotsFourAndSevenCoincide | crates/marching_cubes/src/cpu/mod.rs:125-128 | as written, corner slots 4 and 7 compute the same flat index |
| Cpu.WalkCounts | crates/marching_cubes/src/cpu/mod.rs:111-132 | after k indices the walk has appended as many indices as vertices, at most 15 per index |
| Cpu.EmptyWalk | crates/marching_cubes/src/cpu/mod.rs:109-111 | walking an empty sample vector appends nothing |
| Cpu.MarchCells | crates/marching_cubes/src/cpu/mod.rs:111-132 | the loop leaves the old buffer contents as prefixes, followed by `WalkVertices` and `WalkIndices` of the whole sample vector; buffers that start consistent end consistent |
| Cpu.MarchingCubes | crates/marching_cubes/src/cpu/mod.rs:102-133 | with the locally created empty sample vector, both buffers are left exactly as they were |
| LookupTables.FirstSentinel | crates/marching_cubes/src/cpu/mod.rs:71-74 | the loop stops at the first `-1` of the row, and no entry before it is `-1` |
| LookupTables.TriangleCount | crates/marching_cubes/src/cpu/mod.rs:70-99 | a row describes FirstSentinel / 3 triangles, at most 5 |
| Buffers.VertexBuffer.Push | crates/marching_cubes/src/cpu/mod.rs:90-92 | pushing a vertex appends it and keeps every earlier vertex |
| Buffers.IndexBuffer.Push | crates/marching_cubes/src/cpu/mod.rs:94-96 | pushing an index appends it and keeps every earlier index |

## Left out

- crates/marching_cubes/src/lookup_tables.rs is not part of this model. The tables are a parameter. `WellFormed` asks for:
  - 256 rows of 16 entries in -1..11, whose first `-1` falls at a multiple of 3;
  - 12 edges joining corners 0..7;
  - every edge named by row c joining a corner below the level and one that is not, for case c.
  The standard tables are built to satisfy these conditions; this model does not check the code's actual tables against them.
- Floating point: samples, positions and the interpolation are `real`. NaN, rounding and `f32` division by zero are not modelled. `Interpolate` requires the two values to differ, which `CaseRowFits` guarantees inside the polygonizer. No epsilon case is added, since the code has none.
- Cpu.GetCubeIndex: the code's accumulator is a `usize`. The model keeps it in 8 bits (`bv8`), since only bits 0–7 are ever set.
- PolygonizeCube: requires the index buffer to have room for 15 more `u32` entries. The wrap-around of `index_buffer.len() as u32` beyond 2^32 entries is not modelled.
- MarchCells: requires the index buffer to have room for 15 more `u32` entries per sample walked, for the same reason.
- MarchCells: requires a nonzero grid size whenever there are samples, and every gathered corner to lie inside the sample vector. It does not model the panics for `grid_size == 0` (division by zero, `usize` underflow) or for out-of-bounds sample indices.
- The triangle loop of `polygonize_cube` is split into `EmitTriangles` (the loop), `StepTriangle` (one pass) and `PushTriangle` (the pushes). An index past the row, and a `-1` inside a triple, cannot happen for well-formed rows and are not modelled.
- Bevy's `Vec3` is a datatype of three reals, and `Vec` is a class around a sequence. Capacity and reallocation are not modelled.
- Dead code is not modelled: the unused `points` parameter (kept as a parameter), `MarchingCubesTerrain`, the private `Triangle` struct, and the test's `println!` output.
- src/main.rs, crates/debug_ui and crates/custom_render_pipeline are not part of this model. They are application glue: app setup, noise sampling, normals, an inspector UI and render-pipeline registration.
