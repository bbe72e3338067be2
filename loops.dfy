/**
 * The order in which `GenerateMesh`'s three nested loops visit the voxels of a
 * grid with `m` voxels per axis, for an arbitrary per-voxel emitter `f` (in the
 * model, `f` is the triangulation of one voxel). The loops' result is related to
 * the list of voxel steps in flat index order, and that order is shown to be
 * strictly increasing in z, then y, then x, and to reach every voxel.
 */
module VoxelLoops {
  import opened Vectors
  import opened ChunkGrid

  /** What voxels `(0, y, z)` .. `(x - 1, y, z)` emit: the first `x` passes of the x loop. */
  function RowOf(f: Coord -> seq<Triangle>, x: nat, y: int, z: int): seq<Triangle> {
    if x == 0 then [] else RowOf(f, x - 1, y, z) + f(Coord(x - 1, y, z))
  }

  /** What rows `0` .. `y - 1` of plane `z` emit: the first `y` passes of the y loop. */
  function PlaneOf(f: Coord -> seq<Triangle>, m: nat, y: nat, z: int): seq<Triangle> {
    if y == 0 then [] else PlaneOf(f, m, y - 1, z) + RowOf(f, m, y - 1, z)
  }

  /** What planes `0` .. `z - 1` emit: the first `z` passes of the z loop. */
  function GridOf(f: Coord -> seq<Triangle>, m: nat, z: nat): seq<Triangle> {
    if z == 0 then [] else GridOf(f, m, z - 1) + PlaneOf(f, m, m, z - 1)
  }

  /** One pass of the x loop: appending what voxel `(x, y, z)` emits extends the row by it. */
  lemma RowOfStep(f: Coord -> seq<Triangle>, x: nat, y: int, z: int,
                start: seq<Triangle>, before: seq<Triangle>, after: seq<Triangle>)
    requires before == start + RowOf(f, x, y, z) && after == before + f(Coord(x, y, z))
    ensures after == start + RowOf(f, x + 1, y, z)
  {
  }

  /** One pass of the y loop: appending row `y` extends the plane by it. */
  lemma PlaneOfStep(f: Coord -> seq<Triangle>, m: nat, y: nat, z: int,
                  start: seq<Triangle>, before: seq<Triangle>, after: seq<Triangle>)
    requires before == start + PlaneOf(f, m, y, z) && after == before + RowOf(f, m, y, z)
    ensures after == start + PlaneOf(f, m, y + 1, z)
  {
  }

  /** One pass of the z loop: appending plane `z` extends the grid by it. */
  lemma GridOfStep(f: Coord -> seq<Triangle>, m: nat, z: nat, before: seq<Triangle>, after: seq<Triangle>)
    requires before == GridOf(f, m, z) && after == before + PlaneOf(f, m, m, z)
    ensures after == GridOf(f, m, z + 1)
  {
  }

  /** `f` and `g` emit the same for every voxel of a grid of `m` voxels per axis. */
  ghost predicate AgreeOnGrid(f: Coord -> seq<Triangle>, g: Coord -> seq<Triangle>, m: nat) {
    forall id: Coord :: InGrid(m, id.x, id.y, id.z) ==> f(id) == g(id)
  }

  /** The x loop only looks at the voxels of its row. */
  lemma {:induction false} RowOfAgree(f: Coord -> seq<Triangle>, g: Coord -> seq<Triangle>, m: nat, x: nat, y: nat, z: nat)
    requires AgreeOnGrid(f, g, m) && x <= m && y < m && z < m
    ensures RowOf(f, x, y, z) == RowOf(g, x, y, z)
  {
    if x > 0 {
      RowOfAgree(f, g, m, x - 1, y, z);
      assert InGrid(m, x - 1, y, z);
    }
  }

  /** The y loop only looks at the voxels of its plane. */
  lemma {:induction false} PlaneOfAgree(f: Coord -> seq<Triangle>, g: Coord -> seq<Triangle>, m: nat, y: nat, z: nat)
    requires AgreeOnGrid(f, g, m) && y <= m && z < m
    ensures PlaneOf(f, m, y, z) == PlaneOf(g, m, y, z)
  {
    if y > 0 {
      PlaneOfAgree(f, g, m, y - 1, z);
      RowOfAgree(f, g, m, m, y - 1, z);
    }
  }

  /** The z loop only looks at the voxels of the grid: emitters agreeing there emit the same list. */
  lemma {:induction false} GridOfAgree(f: Coord -> seq<Triangle>, g: Coord -> seq<Triangle>, m: nat, z: nat)
    requires AgreeOnGrid(f, g, m) && z <= m
    ensures GridOf(f, m, z) == GridOf(g, m, z)
  {
    if z > 0 {
      GridOfAgree(f, g, m, z - 1);
      PlaneOfAgree(f, g, m, m, z - 1);
    }
  }

  /** The voxel of flat index `v` in a grid of `m` voxels per axis. */
  function VoxelAt(m: nat, v: int): (id: Coord)
    requires 0 <= v < m * m * m
    ensures InGrid(m, id.x, id.y, id.z) && IndexFromCoord(m, id.x, id.y, id.z) == v
  {
    IndexRoundTrip(m, v);
    CoordFromIndex(m, v)
  }

  /** What the first `v` voxels emit when taken in flat index order. */
  function InIndexOrder(f: Coord -> seq<Triangle>, m: nat, v: nat): seq<Triangle>
    requires v <= m * m * m
  {
    if v == 0 then [] else InIndexOrder(f, m, v - 1) + f(VoxelAt(m, v - 1))
  }

  /** Flat index order visits the voxels in strictly increasing z, then y, then x order. */
  lemma VoxelOrder(m: nat, v: int, w: int)
    requires 0 <= v < w < m * m * m
    ensures var a, b := VoxelAt(m, v), VoxelAt(m, w);
      LexLess(a.x, a.y, a.z, b.x, b.y, b.z)
  {
    var a, b := VoxelAt(m, v), VoxelAt(m, w);
    if !LexLess(a.x, a.y, a.z, b.x, b.y, b.z) {
      assert a != b;
      IndexLexOrder(m, b.x, b.y, b.z, a.x, a.y, a.z);
    }
  }

  /** Every voxel of the grid is the one taken at step `IndexFromCoord(m, id)`. */
  lemma EveryVoxelVisited(m: nat, id: Coord)
    requires InGrid(m, id.x, id.y, id.z)
    ensures 0 <= IndexFromCoord(m, id.x, id.y, id.z) < m * m * m
    ensures VoxelAt(m, IndexFromCoord(m, id.x, id.y, id.z)) == id
  {
    IndexInBounds(m, id.x, id.y, id.z);
    CoordRoundTrip(m, id.x, id.y, id.z);
  }

  /** The step at `IndexFromCoord(m, id)` appends exactly what voxel `id` emits. */
  lemma InIndexOrderStep(f: Coord -> seq<Triangle>, m: nat, id: Coord)
    requires InGrid(m, id.x, id.y, id.z)
    ensures 0 <= IndexFromCoord(m, id.x, id.y, id.z) < m * m * m
    ensures InIndexOrder(f, m, IndexFromCoord(m, id.x, id.y, id.z) + 1)
         == InIndexOrder(f, m, IndexFromCoord(m, id.x, id.y, id.z)) + f(id)
  {
    EveryVoxelVisited(m, id);
  }

  /** Along a row, the x loop appends the voxels in flat index order. */
  lemma {:induction false} RowInIndexOrder(f: Coord -> seq<Triangle>, m: nat, x: nat, y: nat, z: nat)
    requires x <= m && y < m && z < m
    ensures 0 <= IndexFromCoord(m, 0, y, z) <= IndexFromCoord(m, x, y, z) <= m * m * m
    ensures InIndexOrder(f, m, IndexFromCoord(m, x, y, z))
         == InIndexOrder(f, m, IndexFromCoord(m, 0, y, z)) + RowOf(f, x, y, z)
  {
    IndexAtMost(m, x, y, z);
    IndexAtMost(m, 0, y, z);
    if x > 0 {
      RowInIndexOrder(f, m, x - 1, y, z);
      InIndexOrderStep(f, m, Coord(x - 1, y, z));
    }
  }

  /** Across the rows of a plane, the y loop appends the voxels in flat index order. */
  lemma {:induction false} PlaneInIndexOrder(f: Coord -> seq<Triangle>, m: nat, y: nat, z: nat)
    requires y <= m && z < m
    ensures 0 <= IndexFromCoord(m, 0, 0, z) <= IndexFromCoord(m, 0, y, z) <= m * m * m
    ensures InIndexOrder(f, m, IndexFromCoord(m, 0, y, z))
         == InIndexOrder(f, m, IndexFromCoord(m, 0, 0, z)) + PlaneOf(f, m, y, z)
  {
    RowStartAtMost(m, y, z);
    if y > 0 {
      PlaneInIndexOrder(f, m, y - 1, z);
      RowInIndexOrder(f, m, m, y - 1, z);
      IndexCarry(m, y - 1, z);
    }
  }

  /** Across the planes, the z loop appends the voxels in flat index order. */
  lemma {:induction false} GridInIndexOrder(f: Coord -> seq<Triangle>, m: nat, z: nat)
    requires z <= m
    ensures 0 <= IndexFromCoord(m, 0, 0, z) <= m * m * m
    ensures InIndexOrder(f, m, IndexFromCoord(m, 0, 0, z)) == GridOf(f, m, z)
  {
    PlaneStartAtMost(m, z);
    if z > 0 {
      GridInIndexOrder(f, m, z - 1);
      PlaneInIndexOrder(f, m, m, z - 1);
      IndexCarry(m, 0, z - 1);
    }
  }

  /**
   * The three nested loops emit exactly what the `m^3` voxels emit taken one by one
   * in flat index order.
   */
  lemma LoopsInIndexOrder(f: Coord -> seq<Triangle>, m: nat)
    ensures GridOf(f, m, m) == InIndexOrder(f, m, m * m * m)
  {
    GridInIndexOrder(f, m, m);
    IndexCarry(m, 0, 0);
  }

  /**
   * In the loops' list, voxel `id`'s step appends exactly what it emits, after every
   * voxel of smaller flat index.
   */
  lemma VoxelInIndexOrder(f: Coord -> seq<Triangle>, m: nat, id: Coord)
    requires InGrid(m, id.x, id.y, id.z)
    ensures GridOf(f, m, m) == InIndexOrder(f, m, m * m * m)
    ensures var v := IndexFromCoord(m, id.x, id.y, id.z);
      0 <= v < m * m * m &&
      InIndexOrder(f, m, v + 1) == InIndexOrder(f, m, v) + f(id) &&
      InIndexOrder(f, m, v + 1) <= GridOf(f, m, m)
  {
    LoopsInIndexOrder(f, m);
    InIndexOrderStep(f, m, id);
    InIndexOrderPrefix(f, m, IndexFromCoord(m, id.x, id.y, id.z) + 1, m * m * m);
  }

  /** Taking voxels one by one only ever appends: an earlier list is a prefix of a later one. */
  lemma {:induction false} InIndexOrderPrefix(f: Coord -> seq<Triangle>, m: nat, v: nat, w: nat)
    requires v <= w <= m * m * m
    ensures InIndexOrder(f, m, v) <= InIndexOrder(f, m, w)
    decreases w
  {
    if v < w {
      InIndexOrderPrefix(f, m, v, w - 1);
    }
  }

  /** Every vertex of every triangle lies at height `h`. */
  predicate AtHeight(tris: seq<Triangle>, h: real) {
    forall k, j :: 0 <= k < |tris| && 0 <= j < 3 ==> tris[k].Vertex(j).y == h
  }

  /** Lists of triangles at height `h` concatenate to one. */
  lemma AtHeightAppend(a: seq<Triangle>, b: seq<Triangle>, h: real)
    requires AtHeight(a, h) && AtHeight(b, h)
    ensures AtHeight(a + b, h)
  {
    forall k, j | 0 <= k < |a + b| && 0 <= j < 3
      ensures (a + b)[k].Vertex(j).y == h
    {
      if k >= |a| {
        assert (a + b)[k] == b[k - |a|];
      }
    }
  }

  /** If every voxel emits triangles at height `h`, so do the first `v` steps. */
  lemma {:induction false} InIndexOrderAtHeight(f: Coord -> seq<Triangle>, m: nat, v: nat, h: real)
    requires v <= m * m * m
    requires forall id: Coord :: InGrid(m, id.x, id.y, id.z) ==> AtHeight(f(id), h)
    ensures AtHeight(InIndexOrder(f, m, v), h)
  {
    if v > 0 {
      InIndexOrderAtHeight(f, m, v - 1, h);
      AtHeightAppend(InIndexOrder(f, m, v - 1), f(VoxelAt(m, v - 1)), h);
    }
  }

  /** If every voxel emits triangles at height `h`, so do the three nested loops. */
  lemma GridOfAtHeight(f: Coord -> seq<Triangle>, m: nat, h: real)
    requires forall id: Coord :: InGrid(m, id.x, id.y, id.z) ==> AtHeight(f(id), h)
    ensures AtHeight(GridOf(f, m, m), h)
  {
    LoopsInIndexOrder(f, m);
    InIndexOrderAtHeight(f, m, m * m * m, h);
  }
}
