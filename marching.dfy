/**
 * The marching-cubes triangulation of `OldChunk`: the 8 corners of a voxel,
 * its 8-bit configuration (`cubeIndex`), edge interpolation
 * (`interpolateVerts`), the sentinel-terminated walk over the configuration's
 * row of the triangulation table, and the triangles of a whole grid in voxel
 * order.
 *
 * The lookup tables of `TriangulationTable` are not part of this model: they
 * are a parameter of type `Tables`, constrained only by `ValidTables`.
 */
module MarchingCubes {
  import opened Vectors
  import opened ChunkGrid
  import opened VoxelLoops

  /** `TriangulationTable.triTable`, `cornerIndexAFromEdge` and `cornerIndexBFromEdge`. */
  datatype Tables = Tables(triTable: seq<seq<int>>, cornerIndexAFromEdge: seq<int>, cornerIndexBFromEdge: seq<int>)

  /** One of the 12 edges of a cube. */
  predicate IsEdge(e: int) {
    0 <= e < 12
  }

  /** One of the 8 corners of a cube. */
  predicate IsCorner(c: int) {
    0 <= c < 8
  }

  /**
   * The walk `for (i = start; row[i] != -1; i += 3)` stays inside `row`: it meets
   * a -1 at a multiple of 3 past `start`, and every triple it reads before that is
   * three edge indices.
   */
  predicate WalkableFrom(row: seq<int>, i: nat)
    decreases |row| - i
  {
    i < |row| &&
    (row[i] == -1 ||
     (i + 2 < |row| && IsEdge(row[i]) && IsEdge(row[i + 1]) && IsEdge(row[i + 2]) && WalkableFrom(row, i + 3)))
  }

  /** Where the walk started at `i` stops: the first -1 of the row at or after `i`, a multiple of 3 past `i`. */
  function SentinelFrom(row: seq<int>, i: nat): (k: nat)
    requires WalkableFrom(row, i)
    ensures i <= k < |row| && row[k] == -1 && (k - i) % 3 == 0
    ensures forall j :: i <= j < k ==> IsEdge(row[j])
    decreases |row| - i
  {
    if row[i] == -1 then i else SentinelFrom(row, i + 3)
  }

  /** `1 << i` */
  function Pow2(i: nat): (p: nat)
    ensures p >= 1
  {
    if i == 0 then 1 else 2 * Pow2(i - 1)
  }

  /** Bit `j` of a cube index: `(c >> j) & 1 == 1`. */
  predicate Bit(c: int, j: nat)
    decreases j
  {
    if j == 0 then c % 2 == 1 else Bit(c / 2, j - 1)
  }

  /** The shape of the corner tables: 12 edges, each naming two corners. */
  predicate ValidCornerTables(t: Tables) {
    |t.cornerIndexAFromEdge| == 12 && |t.cornerIndexBFromEdge| == 12 &&
    forall e :: 0 <= e < 12 ==> IsCorner(t.cornerIndexAFromEdge[e]) && IsCorner(t.cornerIndexBFromEdge[e])
  }

  /**
   * Every edge listed in row `c` before its sentinel joins a corner whose bit is set
   * in `c` to one whose bit is clear: the table only lists edges the surface crosses.
   */
  predicate RowEdgesCrossed(t: Tables, c: int)
    requires ValidCornerTables(t) && |t.triTable| == 256 && 0 <= c < 256
    requires WalkableFrom(t.triTable[c], 0)
  {
    var row := t.triTable[c];
    forall j :: 0 <= j < SentinelFrom(row, 0) ==>
      Bit(c, t.cornerIndexAFromEdge[row[j]]) != Bit(c, t.cornerIndexBFromEdge[row[j]])
  }

  /** What the model demands of the (unseen) lookup tables. */
  predicate ValidTables(t: Tables) {
    ValidCornerTables(t) &&
    |t.triTable| == 256 &&
    (forall c :: 0 <= c < 256 ==> WalkableFrom(t.triTable[c], 0)) &&
    (forall c :: 0 <= c < 256 ==> RowEdgesCrossed(t, c))
  }

  // ---------------------------------------------------------------------------
  // Voxel corners

  /** Corner `k` of a voxel is at the voxel's coordinate plus `CornerOffsets[k]`. */
  const CornerOffsets: seq<Coord> := [
    Coord(0, 0, 0), Coord(1, 0, 0), Coord(1, 0, 1), Coord(0, 0, 1),
    Coord(0, 1, 0), Coord(1, 1, 0), Coord(1, 1, 1), Coord(0, 1, 1)
  ]

  /** The grid coordinate of corner `k` of voxel `id`. */
  function CornerCoord(id: Coord, k: int): Coord
    requires 0 <= k < 8
  {
    Coord(id.x + CornerOffsets[k].x, id.y + CornerOffsets[k].y, id.z + CornerOffsets[k].z)
  }

  /** `id` is the minimum corner of a voxel of a grid with `n` points per axis. */
  predicate IsVoxel(n: int, id: Coord) {
    0 <= id.x < n - 1 && 0 <= id.y < n - 1 && 0 <= id.z < n - 1
  }

  /**
   * The `cubeCorners` array of `GenerateVoxelTriangles`: every lookup is inside the
   * point array, and corner `k` is the point at `id + CornerOffsets[k]`.
   */
  function VoxelCorners(points: seq<Float4>, n: int, id: Coord): (corners: seq<Float4>)
    requires |points| == n * n * n && IsVoxel(n, id)
    ensures |corners| == 8
  {
    CornerIndicesInBounds(n, id);
    [ points[IndexFromCoord(n, id.x, id.y, id.z)],
      points[IndexFromCoord(n, id.x + 1, id.y, id.z)],
      points[IndexFromCoord(n, id.x + 1, id.y, id.z + 1)],
      points[IndexFromCoord(n, id.x, id.y, id.z + 1)],
      points[IndexFromCoord(n, id.x, id.y + 1, id.z)],
      points[IndexFromCoord(n, id.x + 1, id.y + 1, id.z)],
      points[IndexFromCoord(n, id.x + 1, id.y + 1, id.z + 1)],
      points[IndexFromCoord(n, id.x, id.y + 1, id.z + 1)] ]
  }

  /** All 8 corner lookups of a voxel name grid points, so their indices lie in `[0, n^3)`. */
  lemma CornerIndicesInBounds(n: int, id: Coord)
    requires IsVoxel(n, id)
    ensures 0 <= IndexFromCoord(n, id.x, id.y, id.z) < n * n * n
    ensures 0 <= IndexFromCoord(n, id.x + 1, id.y, id.z) < n * n * n
    ensures 0 <= IndexFromCoord(n, id.x + 1, id.y, id.z + 1) < n * n * n
    ensures 0 <= IndexFromCoord(n, id.x, id.y, id.z + 1) < n * n * n
    ensures 0 <= IndexFromCoord(n, id.x, id.y + 1, id.z) < n * n * n
    ensures 0 <= IndexFromCoord(n, id.x + 1, id.y + 1, id.z) < n * n * n
    ensures 0 <= IndexFromCoord(n, id.x + 1, id.y + 1, id.z + 1) < n * n * n
    ensures 0 <= IndexFromCoord(n, id.x, id.y + 1, id.z + 1) < n * n * n
  {
    IndexInBounds(n, id.x, id.y, id.z);
    IndexInBounds(n, id.x + 1, id.y, id.z);
    IndexInBounds(n, id.x + 1, id.y, id.z + 1);
    IndexInBounds(n, id.x, id.y, id.z + 1);
    IndexInBounds(n, id.x, id.y + 1, id.z);
    IndexInBounds(n, id.x + 1, id.y + 1, id.z);
    IndexInBounds(n, id.x + 1, id.y + 1, id.z + 1);
    IndexInBounds(n, id.x, id.y + 1, id.z + 1);
  }

  /** Corner `k` of a voxel is a grid point, and `VoxelCorners` holds the sample stored at its index. */
  lemma VoxelCornersAt(points: seq<Float4>, n: int, id: Coord, k: int)
    requires |points| == n * n * n && IsVoxel(n, id) && 0 <= k < 8
    ensures var c := CornerCoord(id, k);
      InGrid(n, c.x, c.y, c.z) && 0 <= IndexFromCoord(n, c.x, c.y, c.z) < |points| &&
      VoxelCorners(points, n, id)[k] == points[IndexFromCoord(n, c.x, c.y, c.z)]
  {
    CornerIndicesInBounds(n, id);
  }

  /** The 8 corners of a voxel are 8 different slots of the point array. */
  lemma VoxelCornersDistinct(n: int, id: Coord, k: int, l: int)
    requires IsVoxel(n, id) && 0 <= k < 8 && 0 <= l < 8 && k != l
    ensures var a, b := CornerCoord(id, k), CornerCoord(id, l);
      IndexFromCoord(n, a.x, a.y, a.z) != IndexFromCoord(n, b.x, b.y, b.z)
  {
    var a, b := CornerCoord(id, k), CornerCoord(id, l);
    if IndexFromCoord(n, a.x, a.y, a.z) == IndexFromCoord(n, b.x, b.y, b.z) {
      IndexInjective(n, a.x, a.y, a.z, b.x, b.y, b.z);
    }
  }

  // ---------------------------------------------------------------------------
  // Cube configuration

  /**
   * `cubeIndex` after the first `m` iterations of its loop: `|= 1 << i` for each corner
   * above the iso level. Bit `i` is still clear when it is set, so the or adds `2^i`.
   */
  function CubeIndexUpTo(corners: seq<Float4>, isoLevel: real, m: nat): (c: int)
    requires m <= |corners|
    ensures 0 <= c < Pow2(m)
  {
    if m == 0 then 0
    else CubeIndexUpTo(corners, isoLevel, m - 1) + (if corners[m - 1].w > isoLevel then Pow2(m - 1) else 0)
  }

  /** Bit `j` of the partial index is set iff `j` was visited and corner `j` is strictly above the iso level. */
  lemma {:induction false} CubeIndexUpToBits(corners: seq<Float4>, isoLevel: real, m: nat, j: nat)
    requires m <= |corners|
    ensures Bit(CubeIndexUpTo(corners, isoLevel, m), j) <==> j < m && corners[j].w > isoLevel
  {
    if m == 0 {
      NoBitOfZero(j);
    } else {
      var c := CubeIndexUpTo(corners, isoLevel, m - 1);
      CubeIndexUpToBits(corners, isoLevel, m - 1, j);
      if corners[m - 1].w > isoLevel {
        SetBit(c, m - 1, j);
      }
    }
  }

  /** No bit of 0 is set. */
  lemma {:induction false} NoBitOfZero(j: nat)
    ensures !Bit(0, j)
  {
    if j > 0 {
      NoBitOfZero(j - 1);
    }
  }

  /** Below `2^i`, setting bit `i` adds `2^i`: bit `j` of `c + 2^i` is set iff it is set in `c` or `j == i`. */
  lemma {:induction false} SetBit(c: int, i: nat, j: nat)
    requires 0 <= c < Pow2(i)
    ensures Bit(c + Pow2(i), j) <==> Bit(c, j) || i == j
  {
    if i == 0 {
      if j > 0 {
        NoBitOfZero(j - 1);
        NoBitOfZero(j);
      }
    } else if j > 0 {
      assert (c + Pow2(i)) / 2 == c / 2 + Pow2(i - 1);
      SetBit(c / 2, i - 1, j - 1);
    }
  }

  /**
   * The configuration of a voxel: a value in `[0, 255]` whose bit `i` is set iff
   * corner `i` is strictly above the iso level (a corner equal to it counts as outside).
   */
  function CubeIndex(corners: seq<Float4>, isoLevel: real): (c: int)
    requires |corners| == 8
    ensures 0 <= c < 256
    ensures forall i :: 0 <= i < 8 ==> (Bit(c, i) <==> corners[i].w > isoLevel)
  {
    assert Pow2(8) == 256;
    forall i | 0 <= i < 8
      ensures Bit(CubeIndexUpTo(corners, isoLevel, |corners|), i) <==> corners[i].w > isoLevel
    {
      CubeIndexUpToBits(corners, isoLevel, |corners|, i);
    }
    CubeIndexUpTo(corners, isoLevel, |corners|)
  }

  // ---------------------------------------------------------------------------
  // Edge interpolation

  /** Exactly one of the two samples is strictly above the iso level. */
  predicate Straddles(p1: Float4, p2: Float4, isoLevel: real) {
    (p1.w > isoLevel) != (p2.w > isoLevel)
  }

  /** `t = (isoLevel - p1.w) / (p2.w - p1.w)` */
  function InterpolationParameter(p1: Float4, p2: Float4, isoLevel: real): real
    requires p1.w != p2.w
  {
    (isoLevel - p1.w) / (p2.w - p1.w)
  }

  /** `interpolateVerts`: the point `p1.xyz + t * (p2.xyz - p1.xyz)`. */
  function InterpolateVerts(p1: Float4, p2: Float4, isoLevel: real): Float3
    requires p1.w != p2.w
  {
    Lerp(p1.Xyz(), p2.Xyz(), InterpolationParameter(p1, p2, isoLevel))
  }

  /**
   * On an edge the surface crosses, the division is defined, `t` lies in `[0, 1]`,
   * the linear density reaches the iso level exactly at `t`, and the vertex is the
   * point of the segment `p1.xyz`..`p2.xyz` at `t`.
   */
  lemma InterpolateOnEdge(p1: Float4, p2: Float4, isoLevel: real)
    requires Straddles(p1, p2, isoLevel)
    ensures p1.w != p2.w
    ensures var t := InterpolationParameter(p1, p2, isoLevel);
      0.0 <= t <= 1.0 &&
      p1.w + t * (p2.w - p1.w) == isoLevel &&
      InterpolateVerts(p1, p2, isoLevel) == Lerp(p1.Xyz(), p2.Xyz(), t)
    ensures OnSegment(InterpolateVerts(p1, p2, isoLevel), p1.Xyz(), p2.Xyz())
  {
    QuotientInUnit(isoLevel - p1.w, p2.w - p1.w);
    var t := InterpolationParameter(p1, p2, isoLevel);
    assert InterpolateVerts(p1, p2, isoLevel) == Lerp(p1.Xyz(), p2.Xyz(), t);
  }

  /** The vertex does not depend on which end of the edge is named first. */
  lemma InterpolateSymmetric(p1: Float4, p2: Float4, isoLevel: real)
    requires p1.w != p2.w
    ensures InterpolateVerts(p1, p2, isoLevel) == InterpolateVerts(p2, p1, isoLevel)
  {
    var t := InterpolationParameter(p1, p2, isoLevel);
    ParameterFlip(p1.w, p2.w, isoLevel);
    LerpFlip(p1.Xyz(), p2.Xyz(), t);
  }

  /** Measured from the other end, the crossing parameter is `1 - t`. */
  lemma ParameterFlip(d1: real, d2: real, isoLevel: real)
    requires d1 != d2
    ensures (isoLevel - d2) / (d1 - d2) == 1.0 - (isoLevel - d1) / (d2 - d1)
  {
    var t := (isoLevel - d1) / (d2 - d1);
    assert t * (d2 - d1) == isoLevel - d1;
    assert (1.0 - t) * (d1 - d2) == isoLevel - d2;
    DivUnique(isoLevel - d2, d1 - d2, 1.0 - t);
  }

  /** The point at `t` from `a` towards `b` is the point at `1 - t` from `b` towards `a`. */
  lemma LerpFlip(a: Float3, b: Float3, t: real)
    ensures Lerp(b, a, 1.0 - t) == Lerp(a, b, t)
  {
  }

  /** An iso level halfway between the two densities puts the vertex at the midpoint of the edge. */
  lemma InterpolateMidpoint(p1: Float4, p2: Float4, isoLevel: real)
    requires p1.w != p2.w && isoLevel == (p1.w + p2.w) / 2.0
    ensures InterpolationParameter(p1, p2, isoLevel) == 0.5
    ensures InterpolateVerts(p1, p2, isoLevel)
         == Float3((p1.x + p2.x) / 2.0, (p1.y + p2.y) / 2.0, (p1.z + p2.z) / 2.0)
  {
    var d := p2.w - p1.w;
    assert isoLevel - p1.w == 0.5 * d;
    assert (0.5 * d) / d == 0.5;
  }

  // ---------------------------------------------------------------------------
  // Triangles of one voxel

  /** The surface crosses edge `e` of the voxel with these corners. */
  predicate EdgeCrossed(t: Tables, corners: seq<Float4>, isoLevel: real, e: int)
    requires ValidCornerTables(t) && |corners| == 8 && IsEdge(e)
  {
    Straddles(corners[t.cornerIndexAFromEdge[e]], corners[t.cornerIndexBFromEdge[e]], isoLevel)
  }

  /** Every edge the walk from `i` will read is crossed by the surface. */
  predicate EdgesCrossedFrom(t: Tables, row: seq<int>, i: nat, corners: seq<Float4>, isoLevel: real)
    requires ValidCornerTables(t) && |corners| == 8 && WalkableFrom(row, i)
  {
    forall j :: i <= j < SentinelFrom(row, i) ==> EdgeCrossed(t, corners, isoLevel, row[j])
  }

  /** `interpolateVerts(cubeCorners[cornerIndexAFromEdge[e]], cubeCorners[cornerIndexBFromEdge[e]])` */
  function EdgeVertex(t: Tables, corners: seq<Float4>, isoLevel: real, e: int): Float3
    requires ValidCornerTables(t) && |corners| == 8 && IsEdge(e)
    requires EdgeCrossed(t, corners, isoLevel, e)
  {
    InterpolateVerts(corners[t.cornerIndexAFromEdge[e]], corners[t.cornerIndexBFromEdge[e]], isoLevel)
  }

  /**
   * The triangles the walk `for (i = 0; row[i] != -1; i += 3)` emits, in table order:
   * one per triple before the sentinel, triangle `k` on the edges `row[3k]`,
   * `row[3k + 1]` and `row[3k + 2]`, in that winding order.
   */
  function WalkTriangles(t: Tables, row: seq<int>, corners: seq<Float4>, isoLevel: real): (tris: seq<Triangle>)
    requires ValidCornerTables(t) && |corners| == 8 && WalkableFrom(row, 0)
    requires EdgesCrossedFrom(t, row, 0, corners, isoLevel)
    ensures 3 * |tris| == SentinelFrom(row, 0)
  {
    var count := SentinelFrom(row, 0) / 3;
    seq(count, k requires 0 <= k < count =>
      Triangle(EdgeVertex(t, corners, isoLevel, row[3 * k]),
               EdgeVertex(t, corners, isoLevel, row[3 * k + 1]),
               EdgeVertex(t, corners, isoLevel, row[3 * k + 2])))
  }

  /**
   * Triangle `k` of the walk is read from the triple at `3k`: three edges before the
   * sentinel, each interpolated between the two corners the corner tables name for it.
   */
  lemma WalkTriangleAt(t: Tables, row: seq<int>, corners: seq<Float4>, isoLevel: real, k: int)
    requires ValidCornerTables(t) && |corners| == 8 && WalkableFrom(row, 0)
    requires EdgesCrossedFrom(t, row, 0, corners, isoLevel)
    requires 0 <= k < |WalkTriangles(t, row, corners, isoLevel)|
    ensures 3 * k + 2 < SentinelFrom(row, 0)
    ensures IsEdge(row[3 * k]) && IsEdge(row[3 * k + 1]) && IsEdge(row[3 * k + 2])
    ensures WalkTriangles(t, row, corners, isoLevel)[k] == Triangle(
      InterpolateVerts(corners[t.cornerIndexAFromEdge[row[3 * k]]], corners[t.cornerIndexBFromEdge[row[3 * k]]], isoLevel),
      InterpolateVerts(corners[t.cornerIndexAFromEdge[row[3 * k + 1]]], corners[t.cornerIndexBFromEdge[row[3 * k + 1]]], isoLevel),
      InterpolateVerts(corners[t.cornerIndexAFromEdge[row[3 * k + 2]]], corners[t.cornerIndexBFromEdge[row[3 * k + 2]]], isoLevel))
  {
  }

  /** The configuration of a voxel selects a row whose listed edges are all crossed. */
  lemma ConfigurationEdgesCrossed(t: Tables, corners: seq<Float4>, isoLevel: real)
    requires ValidTables(t) && |corners| == 8
    ensures var row := t.triTable[CubeIndex(corners, isoLevel)];
      WalkableFrom(row, 0) && EdgesCrossedFrom(t, row, 0, corners, isoLevel)
  {
    var c := CubeIndex(corners, isoLevel);
    assert RowEdgesCrossed(t, c);
  }

  /** The triangles `GenerateVoxelTriangles` appends for a voxel with these corners. */
  function VoxelTriangles(t: Tables, corners: seq<Float4>, isoLevel: real): seq<Triangle>
    requires ValidTables(t) && |corners| == 8
  {
    ConfigurationEdgesCrossed(t, corners, isoLevel);
    WalkTriangles(t, t.triTable[CubeIndex(corners, isoLevel)], corners, isoLevel)
  }

  /**
   * Per voxel: one triangle per triple before the first -1 of the configuration's row,
   * vertex `j` of triangle `k` on edge `row[3k + j]`, joining corners
   * `cornerIndexAFromEdge` and `cornerIndexBFromEdge` of that edge, and lying on the
   * segment between them.
   */
  lemma VoxelTrianglesShape(t: Tables, corners: seq<Float4>, isoLevel: real)
    requires ValidTables(t) && |corners| == 8
    ensures var row := t.triTable[CubeIndex(corners, isoLevel)];
      var tris := VoxelTriangles(t, corners, isoLevel);
      WalkableFrom(row, 0) &&
      3 * |tris| == SentinelFrom(row, 0) &&
      (forall j :: 0 <= j < 3 * |tris| ==> row[j] != -1) && row[3 * |tris|] == -1 &&
      forall k, j :: 0 <= k < |tris| && 0 <= j < 3 ==>
        IsEdge(row[3 * k + j]) &&
        var a := corners[t.cornerIndexAFromEdge[row[3 * k + j]]];
        var b := corners[t.cornerIndexBFromEdge[row[3 * k + j]]];
        Straddles(a, b, isoLevel) &&
        tris[k].Vertex(j) == InterpolateVerts(a, b, isoLevel) &&
        OnSegment(tris[k].Vertex(j), a.Xyz(), b.Xyz())
  {
    ConfigurationEdgesCrossed(t, corners, isoLevel);
    WalkTrianglesShape(t, t.triTable[CubeIndex(corners, isoLevel)], corners, isoLevel);
  }

  /**
   * A voxel whose corners are all above the iso level, or all at or below it, emits
   * no triangle: no edge of it is crossed, and the tables list only crossed edges.
   */
  lemma UniformVoxelEmitsNothing(t: Tables, corners: seq<Float4>, isoLevel: real)
    requires ValidTables(t) && |corners| == 8
    requires (forall i :: 0 <= i < 8 ==> corners[i].w > isoLevel) ||
             (forall i :: 0 <= i < 8 ==> corners[i].w <= isoLevel)
    ensures VoxelTriangles(t, corners, isoLevel) == []
  {
    var c := CubeIndex(corners, isoLevel);
    var row := t.triTable[c];
    assert RowEdgesCrossed(t, c);
    if SentinelFrom(row, 0) > 0 {
      assert false;
    }
  }

  /** Every bit below 8 of 255 is set. */
  lemma AllBitsOf255(j: nat)
    requires j < 8
    ensures Bit(255, j)
  {
    if j == 0 { assert Bit(255, 0); }
    else if j == 1 { assert Bit(255, 1); }
    else if j == 2 { assert Bit(255, 2); }
    else if j == 3 { assert Bit(255, 3); }
    else if j == 4 { assert Bit(255, 4); }
    else if j == 5 { assert Bit(255, 5); }
    else if j == 6 { assert Bit(255, 6); }
    else { assert Bit(255, 7); }
  }

  /**
   * The assumption that the tables list only crossed edges empties the rows of the
   * configurations 0 (every corner outside) and 255 (every corner inside).
   */
  lemma ExtremeRowsEmpty(t: Tables)
    requires ValidTables(t)
    ensures SentinelFrom(t.triTable[0], 0) == 0 && SentinelFrom(t.triTable[255], 0) == 0
  {
    assert RowEdgesCrossed(t, 0) && RowEdgesCrossed(t, 255);
    var r0, r255 := t.triTable[0], t.triTable[255];
    if SentinelFrom(r0, 0) > 0 {
      NoBitOfZero(t.cornerIndexAFromEdge[r0[0]]);
      NoBitOfZero(t.cornerIndexBFromEdge[r0[0]]);
      assert false;
    }
    if SentinelFrom(r255, 0) > 0 {
      AllBitsOf255(t.cornerIndexAFromEdge[r255[0]]);
      AllBitsOf255(t.cornerIndexBFromEdge[r255[0]]);
      assert false;
    }
  }

  /** The shape of the walk over any row whose listed edges are all crossed. */
  lemma WalkTrianglesShape(t: Tables, row: seq<int>, corners: seq<Float4>, isoLevel: real)
    requires ValidCornerTables(t) && |corners| == 8 && WalkableFrom(row, 0)
    requires EdgesCrossedFrom(t, row, 0, corners, isoLevel)
    ensures var tris := WalkTriangles(t, row, corners, isoLevel);
      3 * |tris| == SentinelFrom(row, 0) &&
      (forall j :: 0 <= j < 3 * |tris| ==> row[j] != -1) && row[3 * |tris|] == -1 &&
      forall k, j :: 0 <= k < |tris| && 0 <= j < 3 ==>
        IsEdge(row[3 * k + j]) &&
        var a := corners[t.cornerIndexAFromEdge[row[3 * k + j]]];
        var b := corners[t.cornerIndexBFromEdge[row[3 * k + j]]];
        Straddles(a, b, isoLevel) &&
        tris[k].Vertex(j) == InterpolateVerts(a, b, isoLevel) &&
        OnSegment(tris[k].Vertex(j), a.Xyz(), b.Xyz())
  {
    var tris := WalkTriangles(t, row, corners, isoLevel);
    forall k, j | 0 <= k < |tris| && 0 <= j < 3
      ensures IsEdge(row[3 * k + j]) &&
        var a := corners[t.cornerIndexAFromEdge[row[3 * k + j]]];
        var b := corners[t.cornerIndexBFromEdge[row[3 * k + j]]];
        Straddles(a, b, isoLevel) &&
        tris[k].Vertex(j) == InterpolateVerts(a, b, isoLevel) &&
        OnSegment(tris[k].Vertex(j), a.Xyz(), b.Xyz())
    {
      WalkVertexAt(t, row, corners, isoLevel, k, j);
    }
  }

  /** Vertex `j` of triangle `k` of the walk: on edge `row[3k + j]`, between that edge's two corners. */
  lemma WalkVertexAt(t: Tables, row: seq<int>, corners: seq<Float4>, isoLevel: real, k: int, j: int)
    requires ValidCornerTables(t) && |corners| == 8 && WalkableFrom(row, 0)
    requires EdgesCrossedFrom(t, row, 0, corners, isoLevel)
    requires 0 <= k < |WalkTriangles(t, row, corners, isoLevel)| && 0 <= j < 3
    ensures IsEdge(row[3 * k + j]) &&
      var a := corners[t.cornerIndexAFromEdge[row[3 * k + j]]];
      var b := corners[t.cornerIndexBFromEdge[row[3 * k + j]]];
      Straddles(a, b, isoLevel) &&
      WalkTriangles(t, row, corners, isoLevel)[k].Vertex(j) == InterpolateVerts(a, b, isoLevel) &&
      OnSegment(WalkTriangles(t, row, corners, isoLevel)[k].Vertex(j), a.Xyz(), b.Xyz())
  {
    WalkTriangleAt(t, row, corners, isoLevel, k);
    var e := row[3 * k + j];
    assert EdgeCrossed(t, corners, isoLevel, e);
    InterpolateOnEdge(corners[t.cornerIndexAFromEdge[e]], corners[t.cornerIndexBFromEdge[e]], isoLevel);
  }

  // ---------------------------------------------------------------------------
  // Triangles of the whole grid

  /**
   * `f` gives, for every voxel of the grid, the triangles `GenerateVoxelTriangles` appends
   * for it. (The trigger lets the fact about a voxel be used only where that voxel's
   * triangles are named.)
   */
  ghost predicate EmitsVoxelTriangles(f: Coord -> seq<Triangle>, t: Tables, points: seq<Float4>, n: int, isoLevel: real)
    requires ValidTables(t) && |points| == n * n * n
  {
    forall id {:trigger VoxelTriangles(t, VoxelCorners(points, n, id), isoLevel)} ::
      IsVoxel(n, id) ==> f(id) == VoxelTriangles(t, VoxelCorners(points, n, id), isoLevel)
  }

  /**
   * An emitter of the voxels' triangles. The loops never look outside the grid, so
   * which one is chosen does not matter (`ChunkTrianglesOfEmitter`).
   */
  ghost function VoxelEmitter(t: Tables, points: seq<Float4>, n: int, isoLevel: real): (f: Coord -> seq<Triangle>)
    requires ValidTables(t) && |points| == n * n * n
    ensures EmitsVoxelTriangles(f, t, points, n, isoLevel)
  {
    var g := id => if IsVoxel(n, id) then VoxelTriangles(t, VoxelCorners(points, n, id), isoLevel) else [];
    assert EmitsVoxelTriangles(g, t, points, n, isoLevel);
    var f :| EmitsVoxelTriangles(f, t, points, n, isoLevel); f
  }

  /** `numVoxelsPerAxis`: the loops run `n - 1` times per axis, and not at all when that is negative. */
  function VoxelsPerAxis(n: int): nat {
    if n >= 1 then n - 1 else 0
  }

  /** The triangle list `GenerateMesh` builds: every voxel of the grid, by z, then y, then x. */
  ghost function ChunkTriangles(t: Tables, points: seq<Float4>, n: int, isoLevel: real): seq<Triangle>
    requires ValidTables(t) && |points| == n * n * n
  {
    GridOf(VoxelEmitter(t, points, n, isoLevel), VoxelsPerAxis(n), VoxelsPerAxis(n))
  }

  /** Whichever emitter of the voxels' triangles the loops use, they build the chunk's triangle list. */
  lemma ChunkTrianglesOfEmitter(t: Tables, points: seq<Float4>, n: int, isoLevel: real, f: Coord -> seq<Triangle>)
    requires ValidTables(t) && |points| == n * n * n && EmitsVoxelTriangles(f, t, points, n, isoLevel)
    ensures ChunkTriangles(t, points, n, isoLevel) == GridOf(f, VoxelsPerAxis(n), VoxelsPerAxis(n))
  {
    var m := VoxelsPerAxis(n);
    var g := VoxelEmitter(t, points, n, isoLevel);
    forall id: Coord | InGrid(m, id.x, id.y, id.z)
      ensures g(id) == f(id)
    {
      assert IsVoxel(n, id);
      assert g(id) == VoxelTriangles(t, VoxelCorners(points, n, id), isoLevel);
    }
    GridOfAgree(g, f, m, m);
  }

  /**
   * The chunk's triangle list is what its `(n - 1)^3` voxels emit, one voxel after the
   * other in flat index order; voxel `id`'s step appends exactly what it emits (its
   * `VoxelTriangles`, by `VoxelEmitter`), after every voxel of smaller index.
   */
  lemma ChunkTrianglesInIndexOrder(t: Tables, points: seq<Float4>, n: int, isoLevel: real, id: Coord)
    requires ValidTables(t) && |points| == n * n * n && IsVoxel(n, id)
    ensures var f, m := VoxelEmitter(t, points, n, isoLevel), VoxelsPerAxis(n);
      ChunkTriangles(t, points, n, isoLevel) == InIndexOrder(f, m, m * m * m)
    ensures var f, m := VoxelEmitter(t, points, n, isoLevel), VoxelsPerAxis(n);
      var v := IndexFromCoord(m, id.x, id.y, id.z);
      0 <= v < m * m * m &&
      InIndexOrder(f, m, v + 1) == InIndexOrder(f, m, v) + f(id) &&
      InIndexOrder(f, m, v + 1) <= ChunkTriangles(t, points, n, isoLevel)
  {
    VoxelInIndexOrder(VoxelEmitter(t, points, n, isoLevel), VoxelsPerAxis(n), id);
  }

  // ---------------------------------------------------------------------------
  // A planar density field

  /** Every sample's density is minus its height: the field of a flat ground plane. */
  predicate PlanarField(points: seq<Float4>) {
    forall k :: 0 <= k < |points| ==> points[k].w == -points[k].y
  }

  /** On an edge of a planar field, the interpolated vertex lies at height `-isoLevel`. */
  lemma PlanarEdgeVertex(p1: Float4, p2: Float4, isoLevel: real)
    requires Straddles(p1, p2, isoLevel) && p1.w == -p1.y && p2.w == -p2.y
    ensures InterpolateVerts(p1, p2, isoLevel).y == -isoLevel
  {
    InterpolateOnEdge(p1, p2, isoLevel);
    var t := InterpolationParameter(p1, p2, isoLevel);
    assert InterpolateVerts(p1, p2, isoLevel).y == p1.y + t * (p2.y - p1.y);
    assert p1.w + t * (p2.w - p1.w) == -(p1.y + t * (p2.y - p1.y));
  }

  /** The corners of a voxel of a planar field are planar samples. */
  lemma PlanarCorners(points: seq<Float4>, n: int, id: Coord)
    requires |points| == n * n * n && IsVoxel(n, id) && PlanarField(points)
    ensures forall c :: 0 <= c < 8 ==> VoxelCorners(points, n, id)[c].w == -VoxelCorners(points, n, id)[c].y
  {
    forall c | 0 <= c < 8
      ensures VoxelCorners(points, n, id)[c].w == -VoxelCorners(points, n, id)[c].y
    {
      VoxelCornersAt(points, n, id, c);
    }
  }

  /** Every vertex of a voxel whose corners are planar samples lies at height `-isoLevel`. */
  lemma PlanarVoxel(t: Tables, corners: seq<Float4>, isoLevel: real)
    requires ValidTables(t) && |corners| == 8
    requires forall c :: 0 <= c < 8 ==> corners[c].w == -corners[c].y
    ensures AtHeight(VoxelTriangles(t, corners, isoLevel), -isoLevel)
  {
    ConfigurationEdgesCrossed(t, corners, isoLevel);
    PlanarWalk(t, t.triTable[CubeIndex(corners, isoLevel)], corners, isoLevel);
  }

  /** The walk over planar corners emits only vertices at height `-isoLevel`. */
  lemma PlanarWalk(t: Tables, row: seq<int>, corners: seq<Float4>, isoLevel: real)
    requires ValidCornerTables(t) && |corners| == 8 && WalkableFrom(row, 0)
    requires EdgesCrossedFrom(t, row, 0, corners, isoLevel)
    requires forall c :: 0 <= c < 8 ==> corners[c].w == -corners[c].y
    ensures AtHeight(WalkTriangles(t, row, corners, isoLevel), -isoLevel)
  {
    var tris := WalkTriangles(t, row, corners, isoLevel);
    forall k, j | 0 <= k < |tris| && 0 <= j < 3
      ensures tris[k].Vertex(j).y == -isoLevel
    {
      WalkVertexAt(t, row, corners, isoLevel, k, j);
      var e := row[3 * k + j];
      PlanarEdgeVertex(corners[t.cornerIndexAFromEdge[e]], corners[t.cornerIndexBFromEdge[e]], isoLevel);
    }
  }

  /**
   * A planar field (`w == -y` at every sample) meshes to a surface lying entirely in
   * the plane `y == -isoLevel`, whatever the table's triangulation of each configuration.
   */
  lemma PlanarFieldMeshIsFlat(t: Tables, points: seq<Float4>, n: int, isoLevel: real)
    requires ValidTables(t) && |points| == n * n * n && PlanarField(points)
    ensures AtHeight(ChunkTriangles(t, points, n, isoLevel), -isoLevel)
  {
    var m := VoxelsPerAxis(n);
    var f := VoxelEmitter(t, points, n, isoLevel);
    forall id: Coord | InGrid(m, id.x, id.y, id.z)
      ensures AtHeight(f(id), -isoLevel)
    {
      assert IsVoxel(n, id);
      PlanarCorners(points, n, id);
      PlanarVoxel(t, VoxelCorners(points, n, id), isoLevel);
    }
    GridOfAtHeight(f, m, -isoLevel);
  }
}
