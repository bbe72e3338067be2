# Marching-cubes chunk mesher: a Dafny model

This project models the surface-extraction pipeline of one terrain chunk and proves properties of it:
- `OldChunk` samples a cubic grid of `numPointsPerAxis^3` points.
- `OldDensityGenerator` writes each point's density: minus its height plus a sum of noise layers.
- `OldChunk` then runs marching cubes over the `(n - 1)^3` voxels of the grid.
- Finally it lays the triangles out as a non-welded vertex and index buffer.

Modules, following the program's structure:

- `Vectors` (`vectors.dfy`): `float3`, `float4` and triangles, with `real` standing in for `float`.
- `ChunkGrid` (`grid.dfy`):
  - `indexFromCoord` and its inverse, shown to be a bijection between `[0, n)^3` and `[0, n^3)` that increases in z, then y, then x order;
  - the sample positions `GeneratePoints` computes.
- `MarchingCubes` (`marching.dfy`), for one voxel:
  - its 8 corners;
  - its configuration index `cubeIndex`;
  - edge interpolation (`interpolateVerts`);
  - the walk over the configuration's row of the triangulation table up to its `-1` sentinel.

  For a whole grid, it gives the triangle list `GenerateMesh` builds (`ChunkTriangles`).
- `VoxelLoops` (`loops.dfy`):
  - the lists the three nested voxel loops build, for any per-voxel emitter, which lets the methods be proved one loop at a time;
  - proof that these lists are the voxels taken one by one in flat index order;
  - proof that every voxel is visited once and in order.
- `MeshAssembly` (`mesh.dfy`): the vertex and index buffers, and the proof that reading them back gives the triangle list.
- `DensityGeneration` (`density.dfy`): the density pass, as a function on sequences and as the in-place loop of `OldDensityGenerator.GenerateDensity`.
- `ChunkMesh` (`chunk.dfy`): the `OldChunk` class. Its methods are `GeneratePoints`, `GenerateMesh`, `GenerateVoxelTriangles` and `UpdateChunkMesh`.

The loops of `GenerateMesh` and `GenerateVoxelTriangles` are kept as written. Each loop is its own method, so it can be proved on its own:
- `TriangulateVoxels`, `TriangulatePlane` and `TriangulateRow` are the z, y and x loops of the voxel loop.
- `ConfigurationIndex` is the cube-index loop.
- `AppendTriangulation` is the table walk.
- `AssembleMesh` is the buffer loop.

`ChunkTriangles` is written with `VoxelEmitter`. That is any function giving each voxel its triangles; the loops read no voxel outside the grid, so all such functions give the same list (`ChunkTrianglesOfEmitter`).

The lookup tables of `TriangulationTable` are not part of this model. They are a constant `Tables` value, and the model relies only on the shape `ValidTables` states.

## Model

| member | source | states |
|---|---|---|
| ChunkGrid.IndexFromCoord | Assets/PointsGenerator/OldChunk.cs:155-158 | definition, no contract: the expression of line 157, `z * n * n + y * n + x`; its properties are the `ChunkGrid.Index*` and `CoordRoundTrip` rows |
| ChunkGrid.Spacing | Assets/PointsGenerator/OldChunk.cs:54 | definition, no contract: the expression of line 54, `boundsSize / (n - 1)` |
| ChunkGrid.GridPosition | Assets/PointsGenerator/OldChunk.cs:61-62 | definition, no contract: the expression of line 62, `(x, y, z) * spacing - boundsSize / 2` |
| ChunkGrid.SampledPoint | Assets/PointsGenerator/OldChunk.cs:61-63 | definition, no contract: the sample lines 61-63 store at one flat index, `float4(position, 0)` at the position of the coordinate that index decodes to; `SampleGridAt` states it per coordinate |
| ChunkGrid.SampleGrid | Assets/PointsGenerator/OldChunk.cs:53-66 | definition, no contract: the array lines 53-66 fill, stated per flat index through `CoordFromIndex`; `SampleGridAt` links it back to the coordinates the loops visit |
| MarchingCubes.VoxelCorners | Assets/PointsGenerator/OldChunk.cs:107-117 | the `cubeCorners` array has 8 entries; what they are is `VoxelCornersAt` |
| MarchingCubes.Pow2 | Assets/PointsGenerator/OldChunk.cs:124 | `1 << i`, the bit `cubeIndex` is or-ed with; the contract states it is at least 1, and `SetBit` states the bit it sets |
| MarchingCubes.CubeIndexUpTo | Assets/PointsGenerator/OldChunk.cs:119-126 | `cubeIndex` after the first `m` iterations of its loop; the contract states it lies in `[0, 2^m)`, and `CubeIndexUpToBits` states its bits |
| MarchingCubes.WalkableFrom | Assets/PointsGenerator/OldChunk.cs:129 | definition, no contract: the walk of line 129 from `i` stays inside the row, reading triples of edge indices until it meets a `-1` |
| MarchingCubes.SentinelFrom | Assets/PointsGenerator/OldChunk.cs:129 | where the loop condition of line 129 stops: the first `-1` at or after `i`, inside the row, a multiple of 3 past `i`, with only edge indices before it |
| MarchingCubes.InterpolationParameter | Assets/PointsGenerator/OldChunk.cs:151 | definition, no contract: the expression of line 151, `(isoLevel - p1.w) / (p2.w - p1.w)` |
| MarchingCubes.InterpolateVerts | Assets/PointsGenerator/OldChunk.cs:149-153 | definition, no contract: the expression of line 152, `p1.xyz + t * (p2.xyz - p1.xyz)`; its properties are `InterpolateOnEdge`, `InterpolateSymmetric` and `InterpolateMidpoint` |
| MarchingCubes.EdgeVertex | Assets/PointsGenerator/OldChunk.cs:131-143 | definition, no contract: one `interpolateVerts` call of lines 141-143, between the corners `cornerIndexAFromEdge[e]` and `cornerIndexBFromEdge[e]`; its properties are `WalkVertexAt` and `InterpolateOnEdge` |
| MarchingCubes.VoxelTriangles | Assets/PointsGenerator/OldChunk.cs:105-147 | definition, no contract: the walk over `triTable[cubeIndex]` of the voxel's corners; its properties are `VoxelTrianglesShape` and `UniformVoxelEmitsNothing` |
| MarchingCubes.ChunkTriangles | Assets/PointsGenerator/OldChunk.cs:71-82 | definition, no contract: the list the three voxel loops build, with every voxel emitting `VoxelTriangles`; its properties are `ChunkTrianglesInIndexOrder` and `PlanarFieldMeshIsFlat` |
| MarchingCubes.VoxelsPerAxis | Assets/PointsGenerator/OldChunk.cs:72 | definition, no contract: `numVoxelsPerAxis`, with a negative count taken as 0; the voxel loops run the same number of times |
| VoxelLoops.RowOf | Assets/PointsGenerator/OldChunk.cs:77-80 | definition, no contract: the list the x loop builds for row `y` of plane `z` after `x` passes; its properties are `RowOfStep` and `RowInIndexOrder` |
| VoxelLoops.PlaneOf | Assets/PointsGenerator/OldChunk.cs:75-81 | definition, no contract: the list the y loop builds for plane `z` after `y` passes; its properties are `PlaneOfStep` and `PlaneInIndexOrder` |
| VoxelLoops.GridOf | Assets/PointsGenerator/OldChunk.cs:73-82 | definition, no contract: the list the z loop builds after `z` passes; its properties are `GridOfStep`, `GridInIndexOrder` and `LoopsInIndexOrder` |
| MeshAssembly.FlatVertices | Assets/PointsGenerator/OldChunk.cs:89-96 | definition, no contract: the vertices of the triangles, three per triangle in list and winding order; its properties are `FlatVerticesLength`, `FlatVerticesAt` and `FlatRoundTrip` |
| DensityGeneration.NoiseLayer | Assets/PointsGenerator/OldDensityGenerator.cs:10-16 | datatype, no contract: the `scale`, `offset` and `strength` of one layer |
| DensityGeneration.LayerTerm | Assets/PointsGenerator/OldDensityGenerator.cs:27-28 | definition, no contract: the expression of line 28, `noise(posWS * scale + offset) * strength` |
| DensityGeneration.NoiseSum | Assets/PointsGenerator/OldDensityGenerator.cs:24-29 | definition, no contract: `resultVal` after the `foreach` over the layers, in order; its properties are `NoiseSumAppend` and `NoiseSumSingle` |
| DensityGeneration.DensityAt | Assets/PointsGenerator/OldDensityGenerator.cs:24-31 | definition, no contract: the new sample of line 31, `w = -y + resultVal` |
| DensityGeneration.ApplyDensity | Assets/PointsGenerator/OldDensityGenerator.cs:22-32 | definition, no contract: every sample replaced by its `DensityAt`; its properties are `ApplyDensityAt`, `DensityIsLocal` and `ApplyDensityIdempotent` |
| DensityGeneration.OldDensityGenerator.constructor | Assets/PointsGenerator/OldDensityGenerator.cs:5-8 | the generator holds the given `layers` (`None` for `null`), noise primitive and transform |
| ChunkMesh.OldChunk.constructor | Assets/PointsGenerator/OldChunk.cs:9-21 | the chunk holds the given density generator, tables, `isoLevel`, `boundsSize` and `numPointsPerAxis` |
| Vectors.MakeFloat4 | Assets/PointsGenerator/OldChunk.cs:63 | `float4(position, w)` has position `position` and density `w` |
| Vectors.Float4.WithW | Assets/PointsGenerator/OldDensityGenerator.cs:31 | replacing `w` keeps the point's `xyz` and sets `w` to the new value |
| ChunkGrid.IndexInBounds | Assets/PointsGenerator/OldChunk.cs:155-158 | every coordinate in `[0, n)^3` has its index in `[0, n^3)` |
| ChunkGrid.CoordRoundTrip | Assets/PointsGenerator/OldChunk.cs:155-158 | decoding the index of an in-range coordinate gives the coordinate back |
| ChunkGrid.IndexRoundTrip | Assets/PointsGenerator/OldChunk.cs:155-158 | every index in `[0, n^3)` is the index of an in-range coordinate: the map is onto |
| ChunkGrid.IndexInjective | Assets/PointsGenerator/OldChunk.cs:155-158 | two in-range coordinates with the same index are equal: the map is one-to-one |
| ChunkGrid.IndexLexOrder | Assets/PointsGenerator/OldChunk.cs:155-158 | the index strictly increases in z-major, then y, then x order |
| ChunkGrid.IndexCarry | Assets/PointsGenerator/OldChunk.cs:155-158 | proof helper: one past the end of a row is the start of the next row, one past the last row of a plane is the start of the next plane, and one past the last plane is `n^3` |
| ChunkGrid.IndexAtMost | Assets/PointsGenerator/OldChunk.cs:155-158 | proof helper: a coordinate up to one past a row's end maps into `[0, n^3]` |
| ChunkGrid.PlaneStartAtMost | Assets/PointsGenerator/OldChunk.cs:155-158 | proof helper: the first index of plane `z`, for `z` up to `n`, lies in `[0, n^3]` |
| ChunkGrid.RowStartAtMost | Assets/PointsGenerator/OldChunk.cs:155-158 | proof helper: the first index of row `y` of plane `z` lies between the plane's first index and `n^3` |
| ChunkGrid.SampleGridAt | Assets/PointsGenerator/OldChunk.cs:53-66 | the sampled array has `n^3` points; the point of `(x, y, z)` sits at its index, at `(x, y, z) * spacing - boundsSize / 2`, with density 0 |
| ChunkGrid.GridExtent | Assets/PointsGenerator/OldChunk.cs:54-62 | the first and last grid points are at `-boundsSize/2` and `+boundsSize/2` on every axis |
| ChunkGrid.GridStep | Assets/PointsGenerator/OldChunk.cs:54-62 | neighbouring grid points are exactly `spacing` apart along each axis |
| MarchingCubes.CornerIndicesInBounds | Assets/PointsGenerator/OldChunk.cs:107-117 | for a voxel with every coordinate below `n - 1`, all 8 corner lookups are inside the point array |
| MarchingCubes.VoxelCornersAt | Assets/PointsGenerator/OldChunk.cs:107-117 | corner `k` is the point stored at `id + CornerOffsets[k]`, in the order `(0,0,0),(1,0,0),(1,0,1),(0,0,1),(0,1,0),(1,1,0),(1,1,1),(0,1,1)` |
| MarchingCubes.VoxelCornersDistinct | Assets/PointsGenerator/OldChunk.cs:107-117 | the 8 corners are 8 different slots of the point array |
| MarchingCubes.CubeIndexUpToBits | Assets/PointsGenerator/OldChunk.cs:119-126 | after `m` iterations, bit `j` of `cubeIndex` is set iff `j < m` and corner `j` has `w > isoLevel` |
| MarchingCubes.SetBit | Assets/PointsGenerator/OldChunk.cs:124 | for `c < 2^i`, `c | (1 << i)` is `c + 2^i`: the sum has exactly the bits of `c` plus bit `i` |
| MarchingCubes.NoBitOfZero | Assets/PointsGenerator/OldChunk.cs:119 | proof helper: the initial `cubeIndex` 0 has no bit set |
| MarchingCubes.CubeIndex | Assets/PointsGenerator/OldChunk.cs:119-126 | the configuration lies in `[0, 255]`, and bit `i` is set iff corner `i` is strictly above the iso level (a corner equal to it counts as unset) |
| ChunkMesh.OldChunk.ConfigurationIndex | Assets/PointsGenerator/OldChunk.cs:119-126 | the cube-index loop computes exactly `CubeIndex` of the corners |
| MarchingCubes.InterpolateOnEdge | Assets/PointsGenerator/OldChunk.cs:149-153 | on an edge with exactly one corner above the iso level: `p1.w != p2.w`, `t` is in `[0, 1]`, `p1.w + t * (p2.w - p1.w) == isoLevel`, and the vertex is the point at `t` of the segment between the corners |
| MarchingCubes.InterpolateSymmetric | Assets/PointsGenerator/OldChunk.cs:149-153 | interpolating from either end of the edge gives the same vertex |
| MarchingCubes.ParameterFlip | Assets/PointsGenerator/OldChunk.cs:151 | measured from the other end, the crossing parameter is `1 - t` |
| MarchingCubes.InterpolateMidpoint | Assets/PointsGenerator/OldChunk.cs:149-153 | an iso level halfway between the densities gives `t == 0.5` and the midpoint of the edge |
| MarchingCubes.ConfigurationEdgesCrossed | Assets/PointsGenerator/OldChunk.cs:128-143 | the configuration's row can be walked in triples to its `-1`, and every edge it lists has one corner above and one not above the iso level, so every division in `interpolateVerts` is defined |
| MarchingCubes.WalkTriangles | Assets/PointsGenerator/OldChunk.cs:129-146 | the walk emits one triangle per triple: three times the triangle count is the sentinel's position |
| MarchingCubes.WalkTriangleAt | Assets/PointsGenerator/OldChunk.cs:129-143 | triangle `k` is read from the triple at `3k`, three edges before the sentinel, each interpolated between the corners `cornerIndexAFromEdge` and `cornerIndexBFromEdge` name for it |
| MarchingCubes.WalkVertexAt | Assets/PointsGenerator/OldChunk.cs:131-143 | vertex `j` of triangle `k` is on edge `row[3k + j]`, interpolated between that edge's two corners, and lies on the segment between them |
| MarchingCubes.WalkTrianglesShape | Assets/PointsGenerator/OldChunk.cs:128-146 | for any walkable row: the count of triangles is the count of triples before the first `-1`, and every vertex is on its edge in table and winding order |
| MarchingCubes.VoxelTrianglesShape | Assets/PointsGenerator/OldChunk.cs:105-147 | per voxel: as many triangles as triples before the first `-1` of `triTable[cubeIndex]`, vertex `j` of triangle `k` on edge `row[3k + j]` between its two table corners, in table and winding order |
| MarchingCubes.UniformVoxelEmitsNothing | Assets/PointsGenerator/OldChunk.cs:105-147 | a voxel whose 8 corners are all above the iso level, or all at or below it, appends no triangle |
| MarchingCubes.ExtremeRowsEmpty | Assets/PointsGenerator/OldChunk.cs:128-129 | the rows of configurations 0 and 255 are walked as empty: their first entry is the `-1` |
| MarchingCubes.AllBitsOf255 | Assets/PointsGenerator/OldChunk.cs:119-126 | proof helper: bits 0 to 7 of 255 are all set |
| ChunkMesh.OldChunk.AppendTriangulation | Assets/PointsGenerator/OldChunk.cs:128-146 | the walk loop appends exactly the walk's triangles, in order, and changes nothing else |
| ChunkMesh.OldChunk.GenerateVoxelTriangles | Assets/PointsGenerator/OldChunk.cs:105-147 | appends exactly `VoxelTriangles` of the voxel's corners to `triangles` and changes nothing else |
| MarchingCubes.VoxelEmitter | Assets/PointsGenerator/OldChunk.cs:77-80 | the emitter gives each voxel of the grid the triangles `GenerateVoxelTriangles` appends for it |
| MarchingCubes.ChunkTrianglesOfEmitter | Assets/PointsGenerator/OldChunk.cs:71-82 | any emitter that gives each voxel its triangles makes the loops build the chunk's triangle list |
| MarchingCubes.ChunkTrianglesInIndexOrder | Assets/PointsGenerator/OldChunk.cs:71-82 | the chunk's triangle list is the `(n - 1)^3` voxels taken one by one in flat index order, and voxel `id`'s step appends exactly its own triangles, after all voxels of smaller index |
| VoxelLoops.RowOfStep | Assets/PointsGenerator/OldChunk.cs:77-80 | proof helper: one pass of the x loop extends the row's list by what voxel `(x, y, z)` emits |
| VoxelLoops.PlaneOfStep | Assets/PointsGenerator/OldChunk.cs:75-81 | proof helper: one pass of the y loop extends the plane's list by row `y` |
| VoxelLoops.GridOfStep | Assets/PointsGenerator/OldChunk.cs:73-82 | proof helper: one pass of the z loop extends the grid's list by plane `z` |
| VoxelLoops.GridOfAgree | Assets/PointsGenerator/OldChunk.cs:73-82 | the loops only read voxels of the grid: emitters that agree there build the same list |
| VoxelLoops.VoxelAt | Assets/PointsGenerator/OldChunk.cs:73-82 | step `v` of flat index order is a voxel of the grid whose index is `v` |
| VoxelLoops.VoxelOrder | Assets/PointsGenerator/OldChunk.cs:73-82 | flat index order visits voxels in strictly increasing z, then y, then x order |
| VoxelLoops.EveryVoxelVisited | Assets/PointsGenerator/OldChunk.cs:73-82 | every voxel of the grid is the one taken at step `IndexFromCoord(id)` |
| VoxelLoops.InIndexOrderStep | Assets/PointsGenerator/OldChunk.cs:73-82 | the step at a voxel's index appends exactly what that voxel emits |
| VoxelLoops.RowInIndexOrder | Assets/PointsGenerator/OldChunk.cs:77-80 | the x loop appends the voxels of a row in flat index order |
| VoxelLoops.PlaneInIndexOrder | Assets/PointsGenerator/OldChunk.cs:75-81 | the y loop appends the rows of a plane in flat index order |
| VoxelLoops.GridInIndexOrder | Assets/PointsGenerator/OldChunk.cs:73-82 | the z loop appends the planes in flat index order |
| VoxelLoops.LoopsInIndexOrder | Assets/PointsGenerator/OldChunk.cs:73-82 | the three nested loops build exactly what the `m^3` voxels emit taken one by one in flat index order |
| VoxelLoops.VoxelInIndexOrder | Assets/PointsGenerator/OldChunk.cs:73-82 | in the loops' list, a voxel's step appends exactly what it emits, after every voxel of smaller index |
| VoxelLoops.InIndexOrderPrefix | Assets/PointsGenerator/OldChunk.cs:71-82 | proof helper: the list only grows by appending: an earlier list is a prefix of a later one |
| VoxelLoops.AtHeightAppend | Assets/PointsGenerator/OldChunk.cs:73-82 | proof helper: appending lists of triangles at height `h` gives a list at height `h` |
| VoxelLoops.InIndexOrderAtHeight | Assets/PointsGenerator/OldChunk.cs:73-82 | if every voxel emits triangles at height `h`, so do the first `v` steps |
| VoxelLoops.GridOfAtHeight | Assets/PointsGenerator/OldChunk.cs:73-82 | if every voxel emits triangles at height `h`, so do the three loops |
| ChunkMesh.OldChunk.TriangulateRow | Assets/PointsGenerator/OldChunk.cs:77-80 | the x loop appends the triangles of the voxels of row `y` of plane `z`, by x |
| ChunkMesh.OldChunk.TriangulatePlane | Assets/PointsGenerator/OldChunk.cs:75-81 | the y loop appends the rows of plane `z`, by y |
| ChunkMesh.OldChunk.TriangulateVoxels | Assets/PointsGenerator/OldChunk.cs:71-82 | the list is cleared and then refilled with exactly `ChunkTriangles` of the current points: nothing of a previous run is kept |
| MeshAssembly.FlatVerticesLength | Assets/PointsGenerator/OldChunk.cs:86 | the flat vertex list has three entries per triangle |
| MeshAssembly.FlatVerticesAt | Assets/PointsGenerator/OldChunk.cs:89-96 | entry `3i + j` of the flat vertex list is vertex `j` of triangle `i` |
| MeshAssembly.DecodeMesh | Assets/PointsGenerator/OldChunk.cs:98-99 | a well-formed index buffer reads back as one triangle per three indices |
| MeshAssembly.AssembleMesh | Assets/PointsGenerator/OldChunk.cs:85-96 | `verts` and `tris` both have `3 * triangles.Count` entries, `tris[k] == k`, `verts[3i + j] == triangles[i][j]`, and the buffers decode back to the triangle list |
| MeshAssembly.FlatLayout | Assets/PointsGenerator/OldChunk.cs:89-96 | buffers filled as the loop fills them are the flat layout, and they decode back to the triangle list |
| MeshAssembly.FlatRoundTrip | Assets/PointsGenerator/OldChunk.cs:89-99 | decoding the flat layout recovers the triangle list: nothing is lost, reordered or welded |
| ChunkMesh.OldChunk.GeneratePoints | Assets/PointsGenerator/OldChunk.cs:51-67 | a fresh array whose every slot `IndexFromCoord(x, y, z)` holds the sample of `(x, y, z)`: its grid position and density 0 |
| ChunkMesh.OldChunk.GenerateMesh | Assets/PointsGenerator/OldChunk.cs:69-103 | the triangle list is `ChunkTriangles` of the points, and the mesh holds its non-welded flat buffers with identity indices, which decode back to it |
| ChunkMesh.OldChunk.UpdateChunkMesh | Assets/PointsGenerator/OldChunk.cs:36-49 | the points are a fresh grid sample with the generator's densities, the triangles are those of that grid, and the mesh is their flat layout |
| DensityGeneration.NoiseSumAppend | Assets/PointsGenerator/OldDensityGenerator.cs:25-29 | the noise of a concatenation of layer lists is the sum of their noises |
| DensityGeneration.NoiseSumSingle | Assets/PointsGenerator/OldDensityGenerator.cs:28 | a single layer contributes `noise(T(xyz) * scale + offset) * strength` |
| DensityGeneration.ApplyDensityAt | Assets/PointsGenerator/OldDensityGenerator.cs:22-32 | the pass keeps the length and every `xyz`, and sets `w` to `-y + NoiseSum` of the point's own position; with no layers, `w == -y` |
| DensityGeneration.DensityIsLocal | Assets/PointsGenerator/OldDensityGenerator.cs:22-33 | a point's new value depends only on its own prior `xyz`, not on its prior `w`, its index or any other point |
| DensityGeneration.ApplyDensityIdempotent | Assets/PointsGenerator/OldDensityGenerator.cs:22-33 | running the pass a second time changes nothing |
| DensityGeneration.OldDensityGenerator.Generated | Assets/PointsGenerator/OldDensityGenerator.cs:18-33 | what the pass leaves has the length of its input |
| DensityGeneration.OldDensityGenerator.GenerateDensity | Assets/PointsGenerator/OldDensityGenerator.cs:18-33 | with `layers == null` the array is untouched; otherwise it becomes `ApplyDensity` of its old contents. The loop keeps the indices below `i` final and the others untouched |
| MarchingCubes.PlanarEdgeVertex | Assets/PointsGenerator/OldChunk.cs:149-153 | on a crossed edge of a field with `w == -y`, the vertex lies at height `-isoLevel` |
| MarchingCubes.PlanarCorners | Assets/PointsGenerator/OldChunk.cs:107-117 | the corners of a voxel of a planar field are planar samples |
| MarchingCubes.PlanarWalk | Assets/PointsGenerator/OldChunk.cs:128-146 | the walk over planar corners emits only vertices at height `-isoLevel` |
| MarchingCubes.PlanarVoxel | Assets/PointsGenerator/OldChunk.cs:105-147 | a voxel with planar corners emits only vertices at height `-isoLevel` |
| MarchingCubes.PlanarFieldMeshIsFlat | Assets/PointsGenerator/OldChunk.cs:69-82 | a planar field meshes to a surface wholly in the plane `y == -isoLevel`, whatever the table's triangulations |
| ChunkMesh.NoLayersGiveFlatSurface | Assets/PointsGenerator/OldDensityGenerator.cs:22-32 | with an empty, non-null layer list, a regenerated chunk's surface lies wholly in the plane `y == -isoLevel` |

## Left out

- `TriangulationTable`'s contents are not part of this model. Its three tables are a constant `Tables` value. `ValidTables` states what the model relies on:
  - 256 rows, each walkable in triples of edge indices up to a `-1`;
  - 12-entry corner tables naming corners `0..7`;
  - every edge listed in row `c` joins a corner whose bit is set in `c` to one whose bit is clear.
  The last of these is not neutral: it forces the rows of configurations 0 and 255 to be empty (`ExtremeRowsEmpty`), as they are in a correct table, and makes every voxel that the surface does not cross emit nothing (`UniformVoxelEmitsNothing`). No other row's contents are assumed.
- The model uses `real` in place of 32-bit `float`: no rounding, no infinity, no NaN.
- Integers are unbounded: there is no 32-bit overflow of `numPointsPerAxis^3` or of the flat index.
- `MarchingCubes.InterpolateVerts` requires `p1.w != p2.w`. The source divides regardless, and a zero divisor yields an infinity or a NaN in `float`. Every call the walk makes meets this requirement (`ConfigurationEdgesCrossed`).
- `ChunkMesh.OldChunk.GeneratePoints` requires `numPointsPerAxis >= 2`:
  - with one point per axis the spacing divides by zero, and the positions are not representable in `real`;
  - with 0 points per axis the source allocates an empty array, runs no loop and ends with an empty mesh without error; the model does not cover that case;
  - with a negative count the allocation at `OldChunk.cs:53` fails on the negative length before any loop runs.
- `ChunkMesh.OldChunk.GenerateMesh` and `ChunkMesh.OldChunk.UpdateChunkMesh` leave Unity's `Mesh` object out:
  - `indexFormat`;
  - `RecalculateNormals` (floating-point normals);
  - the assignment to `meshFilter.sharedMesh`.

  The mesh is modelled as the two buffers `meshVertices` and `meshIndices`.
- `ChunkMesh.OldChunk`: an unset `oldDensity` (or `meshFilter`) inspector reference is not modelled; `oldDensity` is a non-null `const`, where the source throws a null-reference exception at `OldChunk.cs:43` (or `OldChunk.cs:102`).
- `Noise.Evaluate` and `transform.TransformPoint` are foreign calls. They are function-valued constants of the generator, taken to be pure.
- `ChunkMesh.OldChunk.UpdateChunkMesh` leaves out the `Profiler` samples.
- `Start`, the per-frame `Update` poll of the `update` flag and `OnDrawGizmos` are engine callbacks, and are left out.
- The inspector attributes (`[Range]`, `[Space]`) are editor hints and are left out.
- `Assets/Scripts/Density/Chunk.cs` and the character and camera controllers are not part of this model.
- `cubeIndex |= 1 << i` is modelled as adding `2^i`. The bit is still clear at that point, so the two agree (`SetBit`).
- `triangles` (a `List<float3[]>`) and `cubeCorners` are sequence values:
  - `Clear` and `Add` reassign the sequence;
  - the corner array, which is never written after creation, is a sequence too.
- `DensityGeneration.OldDensityGenerator.GenerateDensity` takes a non-null array. The source's `ref` parameter is never rebound, and every caller passes the array `GeneratePoints` has just created.
