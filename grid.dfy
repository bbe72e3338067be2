/**
 * The regular lattice of sample points of one chunk: the flat index of a grid
 * coordinate (`indexFromCoord`), its inverse, and the world position that
 * `GeneratePoints` gives each coordinate.
 */
module ChunkGrid {
  import opened Vectors

  /** An integer grid (or voxel) coordinate, the source's `int3`. */
  datatype Coord = Coord(x: int, y: int, z: int)

  /** `indexFromCoord(x, y, z)` for a grid of `n` points per axis. */
  function IndexFromCoord(n: int, x: int, y: int, z: int): int {
    z * n * n + y * n + x
  }

  /** `(x, y, z)` lies in `[0, n)^3`. */
  predicate InGrid(n: int, x: int, y: int, z: int) {
    0 <= x < n && 0 <= y < n && 0 <= z < n
  }

  /** Decodes a flat index into the coordinate it stands for (inverse of `IndexFromCoord`). */
  function CoordFromIndex(n: int, k: int): Coord
    requires n > 0
  {
    var rest := k % (n * n);
    Coord(rest % n, rest / n, k / (n * n))
  }

  /** `(z, y, x)` comes strictly before `(z', y', x')` in z-major, then y, then x order. */
  predicate LexLess(x: int, y: int, z: int, x': int, y': int, z': int) {
    z < z' || (z == z' && (y < y' || (y == y' && x < x')))
  }

  /** Euclidean division is determined by quotient and in-range remainder. */
  lemma DivModOf(q: int, r: int, d: int)
    requires d > 0 && 0 <= r < d
    ensures (q * d + r) / d == q && (q * d + r) % d == r
  {
    var k := q * d + r;
    var e := q - k / d;
    assert k == (k / d) * d + k % d;
    assert e * d == k % d - r;
  }

  /** Multiplying by a non-negative factor preserves `<=`. */
  lemma MulLe(a: int, b: int, c: int)
    requires a <= b && 0 <= c
    ensures a * c <= b * c
  {
    assert b * c - a * c == (b - a) * c;
  }

  /** A row-major offset `y * n + x` of an in-range pair stays below `n * n`. */
  lemma RowOffsetBound(n: int, x: int, y: int)
    requires 0 <= x < n && 0 <= y < n
    ensures 0 <= y * n + x < n * n
  {
    MulLe(y, n - 1, n);
    assert (n - 1) * n == n * n - n;
  }

  /** Stepping past the end of a row (of a plane) lands on the start of the next row (plane). */
  lemma IndexCarry(n: int, y: int, z: int)
    ensures IndexFromCoord(n, n, y, z) == IndexFromCoord(n, 0, y + 1, z)
    ensures IndexFromCoord(n, 0, n, z) == IndexFromCoord(n, 0, 0, z + 1)
    ensures IndexFromCoord(n, 0, 0, n) == n * n * n
  {
    var nn := n * n;
    assert z * n * n == z * nn && (z + 1) * n * n == z * nn + nn;
    assert n * n * n == n * nn;
  }

  /** A coordinate with `x` up to `n` (one past a row's end) still maps into `[0, n^3]`. */
  lemma IndexAtMost(n: int, x: int, y: int, z: int)
    requires 0 <= x <= n && 0 <= y < n && 0 <= z < n
    ensures 0 <= IndexFromCoord(n, x, y, z) <= n * n * n
  {
    if x < n {
      IndexInBounds(n, x, y, z);
    } else if y + 1 < n {
      IndexCarry(n, y, z);
      IndexInBounds(n, 0, y + 1, z);
    } else if z + 1 < n {
      IndexCarry(n, y, z);
      IndexCarry(n, 0, z);
      IndexInBounds(n, 0, 0, z + 1);
    } else {
      IndexCarry(n, y, z);
      IndexCarry(n, 0, z);
      IndexCarry(n, 0, 0);
    }
  }

  /** The first index of plane `z`, for `z` up to `n` (one past the last plane), is in `[0, n^3]`. */
  lemma PlaneStartAtMost(n: int, z: int)
    requires 0 <= z <= n
    ensures 0 <= IndexFromCoord(n, 0, 0, z) <= n * n * n
  {
    if z < n {
      IndexAtMost(n, 0, 0, z);
    } else {
      IndexCarry(n, 0, 0);
    }
  }

  /** The first index of row `y` of plane `z`, for `y` up to `n`, lies between the plane's first index and `n^3`. */
  lemma RowStartAtMost(n: int, y: int, z: int)
    requires 0 <= y <= n && 0 <= z < n
    ensures 0 <= IndexFromCoord(n, 0, 0, z) <= IndexFromCoord(n, 0, y, z) <= n * n * n
  {
    PlaneStartAtMost(n, z);
    MulLe(0, y, n);
    if y < n {
      IndexAtMost(n, 0, y, z);
    } else {
      IndexCarry(n, y, z);
      PlaneStartAtMost(n, z + 1);
    }
  }

  /** Every in-range coordinate maps into `[0, n^3)`. */
  lemma IndexInBounds(n: int, x: int, y: int, z: int)
    requires InGrid(n, x, y, z)
    ensures 0 <= IndexFromCoord(n, x, y, z) < n * n * n
  {
    IndexDigits(n, x, y, z);
    MulLe(0, z, n * n);
    DigitOrder(z, y * n + x, n, 0, n * n);
    assert n * n * n == n * (n * n);
  }

  /** Decoding the index of a coordinate gives the coordinate back. */
  lemma CoordRoundTrip(n: int, x: int, y: int, z: int)
    requires InGrid(n, x, y, z)
    ensures CoordFromIndex(n, IndexFromCoord(n, x, y, z)) == Coord(x, y, z)
  {
    RowOffsetBound(n, x, y);
    assert IndexFromCoord(n, x, y, z) == z * (n * n) + (y * n + x);
    DivModOf(z, y * n + x, n * n);
    DivModOf(y, x, n);
  }

  /** Every flat index in `[0, n^3)` is the index of exactly the coordinate it decodes to. */
  lemma IndexRoundTrip(n: int, k: int)
    requires n > 0 && 0 <= k < n * n * n
    ensures var c := CoordFromIndex(n, k);
      InGrid(n, c.x, c.y, c.z) && IndexFromCoord(n, c.x, c.y, c.z) == k
  {
    var nn := n * n;
    var rest := k % nn;
    var x, y, z := rest % n, rest / n, k / nn;
    assert n * n * n == n * nn;
    QuotientRange(k, nn, n);
    QuotientRange(rest, n, n);
    assert k == z * nn + rest;
    assert rest == y * n + x;
    assert z * nn == z * n * n;
  }

  /** A number in `[0, n * d)` has a quotient by `d` in `[0, n)`. */
  lemma QuotientRange(k: int, d: int, n: int)
    requires d > 0 && 0 <= k < n * d
    ensures 0 <= k / d < n
  {
    var q, r := k / d, k % d;
    assert k == q * d + r && 0 <= r < d;
    if q < 0 {
      MulLe(q, -1, d);
    }
    if q >= n {
      MulLe(n, q, d);
    }
  }

  /** No two in-range coordinates share a flat index. */
  lemma IndexInjective(n: int, x: int, y: int, z: int, x': int, y': int, z': int)
    requires InGrid(n, x, y, z) && InGrid(n, x', y', z')
    requires IndexFromCoord(n, x, y, z) == IndexFromCoord(n, x', y', z')
    ensures x == x' && y == y' && z == z'
  {
    CoordRoundTrip(n, x, y, z);
    CoordRoundTrip(n, x', y', z');
  }

  /** The flat index increases strictly along z-major, then y, then x order. */
  lemma IndexLexOrder(n: int, x: int, y: int, z: int, x': int, y': int, z': int)
    requires InGrid(n, x, y, z) && InGrid(n, x', y', z')
    requires LexLess(x, y, z, x', y', z')
    ensures IndexFromCoord(n, x, y, z) < IndexFromCoord(n, x', y', z')
  {
    IndexDigits(n, x, y, z);
    IndexDigits(n, x', y', z');
    if z < z' {
      DigitOrder(z, y * n + x, z', y' * n + x', n * n);
    } else if y < y' {
      DigitOrder(y, x, y', x', n);
    }
  }

  /** The flat index read as a number with digits `z`, `y * n + x` in base `n * n`. */
  lemma IndexDigits(n: int, x: int, y: int, z: int)
    requires InGrid(n, x, y, z)
    ensures IndexFromCoord(n, x, y, z) == z * (n * n) + (y * n + x)
    ensures 0 <= y * n + x < n * n
  {
    RowOffsetBound(n, x, y);
    assert z * n * n == z * (n * n);
  }

  /** In base `d`, a smaller leading digit gives a smaller number whatever the rest is. */
  lemma DigitOrder(a: int, r: int, b: int, s: int, d: int)
    requires a < b && 0 <= r < d && 0 <= s
    ensures a * d + r < b * d + s
  {
    MulLe(a + 1, b, d);
    assert (a + 1) * d == a * d + d;
  }

  /** `spacing = boundsSize / (numPointsPerAxis - 1)` */
  function Spacing(n: int, boundsSize: real): real
    requires n >= 2
  {
    boundsSize / (n - 1) as real
  }

  /** `(float3) id * spacing - boundsSize / 2`: the position of grid coordinate `(x, y, z)`. */
  function GridPosition(n: int, boundsSize: real, x: int, y: int, z: int): Float3
    requires n >= 2
  {
    SubScalar(Scale(Spacing(n, boundsSize), Float3(x as real, y as real, z as real)), boundsSize / 2.0)
  }

  /** The sample `GeneratePoints` stores at flat index `k`: the position of its coordinate, density 0. */
  function SampledPoint(n: int, boundsSize: real, k: int): Float4
    requires n >= 2
  {
    var c := CoordFromIndex(n, k);
    MakeFloat4(GridPosition(n, boundsSize, c.x, c.y, c.z), 0.0)
  }

  /** The whole point array `GeneratePoints` produces. */
  function SampleGrid(n: int, boundsSize: real): seq<Float4>
    requires n >= 2
  {
    seq(n * n * n, k => SampledPoint(n, boundsSize, k))
  }

  /** The sampled array has `n^3` points and the point of `(x, y, z)` sits at its index with density 0. */
  lemma SampleGridAt(n: int, boundsSize: real, x: int, y: int, z: int)
    requires n >= 2 && InGrid(n, x, y, z)
    ensures |SampleGrid(n, boundsSize)| == n * n * n
    ensures 0 <= IndexFromCoord(n, x, y, z) < n * n * n
    ensures SampleGrid(n, boundsSize)[IndexFromCoord(n, x, y, z)]
         == MakeFloat4(GridPosition(n, boundsSize, x, y, z), 0.0)
  {
    IndexInBounds(n, x, y, z);
    CoordRoundTrip(n, x, y, z);
  }

  /** The grid is centred on the origin: its extreme corners are at `-boundsSize/2` and `+boundsSize/2`. */
  lemma GridExtent(n: int, boundsSize: real)
    requires n >= 2
    ensures GridPosition(n, boundsSize, 0, 0, 0)
         == Float3(-boundsSize / 2.0, -boundsSize / 2.0, -boundsSize / 2.0)
    ensures GridPosition(n, boundsSize, n - 1, n - 1, n - 1)
         == Float3(boundsSize / 2.0, boundsSize / 2.0, boundsSize / 2.0)
  {
    var m := (n - 1) as real;
    assert m * (boundsSize / m) == boundsSize;
  }

  /** Neighbouring points along each axis are exactly one spacing apart. */
  lemma GridStep(n: int, boundsSize: real, x: int, y: int, z: int)
    requires n >= 2
    ensures GridPosition(n, boundsSize, x + 1, y, z).x - GridPosition(n, boundsSize, x, y, z).x == Spacing(n, boundsSize)
    ensures GridPosition(n, boundsSize, x, y + 1, z).y - GridPosition(n, boundsSize, x, y, z).y == Spacing(n, boundsSize)
    ensures GridPosition(n, boundsSize, x, y, z + 1).z - GridPosition(n, boundsSize, x, y, z).z == Spacing(n, boundsSize)
  {
  }
}
