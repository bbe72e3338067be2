/**
 * `OldChunk`: one chunk's point grid, its triangle list and the mesh built
 * from it. `UpdateChunkMesh` runs the whole pipeline: sample the grid, let the
 * density generator write the densities, triangulate every voxel and assemble
 * the mesh buffers.
 */
module ChunkMesh {
  import opened Vectors
  import opened ChunkGrid
  import opened MarchingCubes
  import opened VoxelLoops
  import opened MeshAssembly
  import opened DensityGeneration

  class OldChunk {
    /** The chunk's density generator (`oldDensity`). */
    const oldDensity: OldDensityGenerator
    /** `TriangulationTable`, fixed for the life of the program. */
    const tables: Tables

    var isoLevel: real
    var boundsSize: real
    var numPointsPerAxis: int

    /** `points`; `null` until the first `GeneratePoints`. */
    var points: array?<Float4>
    /** `triangles`, the list of `float3[3]` the voxels emit. */
    var triangles: seq<Triangle>
    /** The vertex and index buffers of `meshFilter.sharedMesh`. */
    var meshVertices: seq<Float3>
    var meshIndices: seq<int>

    constructor (oldDensity: OldDensityGenerator, tables: Tables, isoLevel: real, boundsSize: real, numPointsPerAxis: int)
      ensures this.oldDensity == oldDensity && this.tables == tables
      ensures this.isoLevel == isoLevel && this.boundsSize == boundsSize && this.numPointsPerAxis == numPointsPerAxis
      ensures points == null && triangles == [] && meshVertices == [] && meshIndices == []
    {
      this.oldDensity := oldDensity;
      this.tables := tables;
      this.isoLevel := isoLevel;
      this.boundsSize := boundsSize;
      this.numPointsPerAxis := numPointsPerAxis;
      points := null;
      triangles := [];
      meshVertices := [];
      meshIndices := [];
    }

    /**
     * `GeneratePoints`: a fresh array of `n^3` samples; the sample of each grid
     * coordinate sits at `IndexFromCoord` of it, at `(x, y, z) * spacing - boundsSize / 2`,
     * with density 0.
     */
    method GeneratePoints()
      requires numPointsPerAxis >= 2
      modifies this`points
      ensures points != null && fresh(points)
      ensures points[..] == SampleGrid(numPointsPerAxis, boundsSize)
    {
      var n := numPointsPerAxis;
      var pts := new Float4[n * n * n];
      points := pts;
      var spacing := boundsSize / (n - 1) as real;
      for z := 0 to n
        invariant points == pts && IndexFromCoord(n, 0, 0, z) <= n * n * n
        invariant forall k :: 0 <= k < IndexFromCoord(n, 0, 0, z) ==> pts[k] == SampledPoint(n, boundsSize, k)
      {
        for y := 0 to n
          invariant points == pts && IndexFromCoord(n, 0, y, z) <= n * n * n
          invariant forall k :: 0 <= k < IndexFromCoord(n, 0, y, z) ==> pts[k] == SampledPoint(n, boundsSize, k)
        {
          for x := 0 to n
            invariant points == pts && IndexFromCoord(n, x, y, z) <= n * n * n
            invariant forall k :: 0 <= k < IndexFromCoord(n, x, y, z) ==> pts[k] == SampledPoint(n, boundsSize, k)
          {
            var id := Coord(x, y, z);
            var position := SubScalar(Scale(spacing, Float3(id.x as real, id.y as real, id.z as real)), boundsSize / 2.0);
            IndexInBounds(n, x, y, z);
            CoordRoundTrip(n, x, y, z);
            pts[IndexFromCoord(n, x, y, z)] := MakeFloat4(position, 0.0);
          }
          IndexCarry(n, y, z);
        }
        IndexCarry(n, 0, z);
      }
      IndexCarry(n, 0, 0);
    }

    /**
     * `GenerateVoxelTriangles(id)`: appends the triangles of voxel `id`, read from the
     * row of its configuration in table order, and changes nothing else.
     */
    method GenerateVoxelTriangles(id: Coord)
      requires ValidTables(tables)
      requires points != null && points.Length == numPointsPerAxis * numPointsPerAxis * numPointsPerAxis
      requires IsVoxel(numPointsPerAxis, id)
      modifies this`triangles
      ensures triangles == old(triangles)
                         + VoxelTriangles(tables, VoxelCorners(points[..], numPointsPerAxis, id), isoLevel)
    {
      var n := numPointsPerAxis;
      var cubeCorners := VoxelCorners(points[..], n, id);
      var cubeIndex := ConfigurationIndex(cubeCorners);
      ConfigurationEdgesCrossed(tables, cubeCorners, isoLevel);
      var triangulation := tables.triTable[cubeIndex];
      AppendTriangulation(triangulation, cubeCorners);
    }

    /** The first loop of `GenerateVoxelTriangles`: bit `i` of `cubeIndex` is set iff corner `i` is above the iso level. */
    method ConfigurationIndex(cubeCorners: seq<Float4>) returns (cubeIndex: int)
      requires |cubeCorners| == 8
      ensures cubeIndex == CubeIndex(cubeCorners, isoLevel)
    {
      cubeIndex := 0;
      for i := 0 to 8
        invariant cubeIndex == CubeIndexUpTo(cubeCorners, isoLevel, i)
      {
        if cubeCorners[i].w > isoLevel {
          // `cubeIndex |= 1 << i`: bit `i` is still clear, so the or adds `2^i`
          cubeIndex := cubeIndex + Pow2(i);
        }
      }
    }

    /**
     * The second loop of `GenerateVoxelTriangles`: one triangle per triple of the row
     * before its -1, appended in table order.
     */
    method AppendTriangulation(triangulation: seq<int>, cubeCorners: seq<Float4>)
      requires ValidCornerTables(tables) && |cubeCorners| == 8 && WalkableFrom(triangulation, 0)
      requires EdgesCrossedFrom(tables, triangulation, 0, cubeCorners, isoLevel)
      modifies this`triangles
      ensures triangles == old(triangles) + WalkTriangles(tables, triangulation, cubeCorners, isoLevel)
    {
      ghost var tris := WalkTriangles(tables, triangulation, cubeCorners, isoLevel);
      var i := 0;
      ghost var k := 0;
      while triangulation[i] != -1
        invariant 0 <= k <= |tris| && i == 3 * k
        invariant triangles == old(triangles) + tris[..k]
        decreases |tris| - k
      {
        assert k < |tris|;
        WalkTriangleAt(tables, triangulation, cubeCorners, isoLevel, k);
        var a0 := tables.cornerIndexAFromEdge[triangulation[i]];
        var b0 := tables.cornerIndexBFromEdge[triangulation[i]];

        var a1 := tables.cornerIndexAFromEdge[triangulation[i + 1]];
        var b1 := tables.cornerIndexBFromEdge[triangulation[i + 1]];

        var a2 := tables.cornerIndexAFromEdge[triangulation[i + 2]];
        var b2 := tables.cornerIndexBFromEdge[triangulation[i + 2]];

        var triangle := Triangle(
          InterpolateVerts(cubeCorners[a0], cubeCorners[b0], isoLevel),
          InterpolateVerts(cubeCorners[a1], cubeCorners[b1], isoLevel),
          InterpolateVerts(cubeCorners[a2], cubeCorners[b2], isoLevel));

        assert triangle == tris[k];
        triangles := triangles + [triangle];
        assert tris[..k] + [tris[k]] == tris[..k + 1];
        i := i + 3;
        k := k + 1;
      }
      assert k == |tris|;
      assert tris[..k] == tris;
    }

    /**
     * One pass of `GenerateMesh`'s y loop: the triangles of the voxels of row `y` of
     * plane `z` are appended by x. `f` is any emitter of the voxels' triangles.
     */
    method TriangulateRow(y: int, z: int, ghost f: Coord -> seq<Triangle>)
      requires ValidTables(tables)
      requires points != null && points.Length == numPointsPerAxis * numPointsPerAxis * numPointsPerAxis
      requires EmitsVoxelTriangles(f, tables, points[..], numPointsPerAxis, isoLevel)
      requires 0 <= y < numPointsPerAxis - 1 && 0 <= z < numPointsPerAxis - 1
      modifies this`triangles
      ensures triangles == old(triangles) + RowOf(f, VoxelsPerAxis(numPointsPerAxis), y, z)
    {
      var n := numPointsPerAxis;
      ghost var pts := points[..];
      var numVoxelsPerAxis := n - 1;
      ghost var rowStart := triangles;
      var x := 0;
      while x < numVoxelsPerAxis
        invariant 0 <= x <= numVoxelsPerAxis && points[..] == pts
        invariant triangles == rowStart + RowOf(f, x, y, z)
      {
        ghost var before := triangles;
        GenerateVoxelTriangles(Coord(x, y, z));
        RowOfStep(f, x, y, z, rowStart, before, triangles);
        x := x + 1;
      }
    }

    /**
     * One pass of `GenerateMesh`'s z loop: the triangles of the voxels of plane `z` are
     * appended row by row.
     */
    method TriangulatePlane(z: int, ghost f: Coord -> seq<Triangle>)
      requires ValidTables(tables)
      requires points != null && points.Length == numPointsPerAxis * numPointsPerAxis * numPointsPerAxis
      requires EmitsVoxelTriangles(f, tables, points[..], numPointsPerAxis, isoLevel)
      requires 0 <= z < numPointsPerAxis - 1
      modifies this`triangles
      ensures triangles == old(triangles) + PlaneOf(f, VoxelsPerAxis(numPointsPerAxis), VoxelsPerAxis(numPointsPerAxis), z)
    {
      var n := numPointsPerAxis;
      ghost var pts := points[..];
      var numVoxelsPerAxis := n - 1;
      ghost var m := VoxelsPerAxis(n);
      ghost var planeStart := triangles;
      var y := 0;
      while y < numVoxelsPerAxis
        invariant 0 <= y <= m && points[..] == pts
        invariant triangles == planeStart + PlaneOf(f, m, y, z)
      {
        ghost var rowStart := triangles;
        TriangulateRow(y, z, f);
        PlaneOfStep(f, m, y, z, planeStart, rowStart, triangles);
        y := y + 1;
      }
    }

    /**
     * The voxel loop of `GenerateMesh`: the triangle list is emptied and refilled with
     * the triangles of every voxel, in z, then y, then x order.
     */
    method TriangulateVoxels()
      requires ValidTables(tables)
      requires points != null && points.Length == numPointsPerAxis * numPointsPerAxis * numPointsPerAxis
      modifies this`triangles
      ensures triangles == ChunkTriangles(tables, points[..], numPointsPerAxis, isoLevel)
    {
      var n := numPointsPerAxis;
      ghost var pts := points[..];
      ghost var f := VoxelEmitter(tables, pts, n, isoLevel);
      triangles := [];
      var numVoxelsPerAxis := n - 1;
      var m := numVoxelsPerAxis;
      ghost var voxels := VoxelsPerAxis(n);
      var z := 0;
      while z < m
        invariant 0 <= z && z <= voxels && points[..] == pts
        invariant triangles == GridOf(f, voxels, z)
      {
        ghost var before := triangles;
        TriangulatePlane(z, f);
        GridOfStep(f, voxels, z, before, triangles);
        z := z + 1;
      }
      assert z == voxels && triangles == GridOf(f, voxels, voxels);
    }

    /**
     * `GenerateMesh`: the triangles of every voxel, and the mesh gets the flat,
     * non-welded buffers of them.
     */
    method GenerateMesh()
      requires ValidTables(tables)
      requires points != null && points.Length == numPointsPerAxis * numPointsPerAxis * numPointsPerAxis
      modifies this`triangles, this`meshVertices, this`meshIndices
      ensures triangles == ChunkTriangles(tables, points[..], numPointsPerAxis, isoLevel)
      ensures meshVertices == FlatVertices(triangles)
      ensures |meshIndices| == 3 * |triangles| && forall k :: 0 <= k < |meshIndices| ==> meshIndices[k] == k
      ensures WellFormedMesh(meshVertices, meshIndices) && DecodeMesh(meshVertices, meshIndices) == triangles
    {
      TriangulateVoxels();

      // Construct mesh
      var verts, tris := AssembleMesh(triangles);
      meshVertices := verts[..];
      meshIndices := tris[..];
    }

    /**
     * `UpdateChunkMesh`: regenerates the chunk from scratch. The points are a fresh
     * sample of the grid with the generator's densities, the triangles are those of
     * that grid, and the mesh is their flat layout; nothing of a previous run remains.
     */
    method UpdateChunkMesh()
      requires ValidTables(tables) && numPointsPerAxis >= 2
      modifies this`points, this`triangles, this`meshVertices, this`meshIndices
      ensures points != null && fresh(points)
      ensures points[..] == oldDensity.Generated(SampleGrid(numPointsPerAxis, boundsSize))
      ensures triangles == ChunkTriangles(tables, points[..], numPointsPerAxis, isoLevel)
      ensures meshVertices == FlatVertices(triangles)
      ensures |meshIndices| == 3 * |triangles| && forall k :: 0 <= k < |meshIndices| ==> meshIndices[k] == k
    {
      GeneratePoints();
      oldDensity.GenerateDensity(points);
      GenerateMesh();
    }
  }

  /**
   * With an empty (non-null) layer list the density is `-y` everywhere, so the surface
   * of a regenerated chunk lies wholly in the plane `y == -isoLevel`.
   */
  lemma NoLayersGiveFlatSurface(noise: Float3 -> real, transform: Float3 -> Float3, t: Tables,
                                n: int, boundsSize: real, isoLevel: real)
    requires ValidTables(t) && n >= 2
    ensures var points := ApplyDensity(noise, transform, [], SampleGrid(n, boundsSize));
      |points| == n * n * n && AtHeight(ChunkTriangles(t, points, n, isoLevel), -isoLevel)
  {
    var points := ApplyDensity(noise, transform, [], SampleGrid(n, boundsSize));
    forall k | 0 <= k < |points|
      ensures points[k].w == -points[k].y
    {
      ApplyDensityAt(noise, transform, [], SampleGrid(n, boundsSize), k);
    }
    PlanarFieldMeshIsFlat(t, points, n, isoLevel);
  }
}
