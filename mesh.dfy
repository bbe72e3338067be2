/**
 * The vertex and index buffers `GenerateMesh` builds from the triangle list:
 * a flat, non-welded layout where every triangle owns three fresh vertices
 * and the index buffer is the identity.
 */
module MeshAssembly {
  import opened Vectors

  /** The vertices of the triangles, three per triangle, in list and winding order. */
  function FlatVertices(triangles: seq<Triangle>): seq<Float3> {
    if triangles == [] then []
    else [triangles[0].v0, triangles[0].v1, triangles[0].v2] + FlatVertices(triangles[1..])
  }

  /** `FlatVertices` has three entries per triangle; entry `3i + j` is vertex `j` of triangle `i`. */
  lemma {:induction false} FlatVerticesAt(triangles: seq<Triangle>, i: int, j: int)
    requires 0 <= i < |triangles| && 0 <= j < 3
    ensures |FlatVertices(triangles)| == 3 * |triangles|
    ensures FlatVertices(triangles)[3 * i + j] == triangles[i].Vertex(j)
  {
    FlatVerticesLength(triangles);
    if i > 0 {
      FlatVerticesAt(triangles[1..], i - 1, j);
    }
  }

  /** `FlatVertices` has three entries per triangle. */
  lemma {:induction false} FlatVerticesLength(triangles: seq<Triangle>)
    ensures |FlatVertices(triangles)| == 3 * |triangles|
  {
    if triangles != [] {
      FlatVerticesLength(triangles[1..]);
    }
  }

  /** The index buffer is a list of whole triangles, each naming a vertex of the vertex buffer. */
  predicate WellFormedMesh(verts: seq<Float3>, tris: seq<int>) {
    |tris| % 3 == 0 && forall k :: 0 <= k < |tris| ==> 0 <= tris[k] < |verts|
  }

  /** The triangles a renderer reads back from a vertex buffer and an index buffer. */
  function DecodeMesh(verts: seq<Float3>, tris: seq<int>): (triangles: seq<Triangle>)
    requires WellFormedMesh(verts, tris)
    ensures 3 * |triangles| == |tris|
  {
    seq(|tris| / 3, i requires 0 <= i < |tris| / 3 =>
      Triangle(verts[tris[3 * i]], verts[tris[3 * i + 1]], verts[tris[3 * i + 2]]))
  }

  /**
   * The buffer-building loop of `GenerateMesh`: `verts` and `tris` both have
   * `3 * |triangles|` entries, `tris[k] == k` (no welding), `verts` is the flat
   * vertex list, and reading the buffers back gives exactly the triangle list.
   */
  method AssembleMesh(triangles: seq<Triangle>) returns (verts: array<Float3>, tris: array<int>)
    ensures verts.Length == 3 * |triangles| && tris.Length == 3 * |triangles|
    ensures forall k :: 0 <= k < tris.Length ==> tris[k] == k
    ensures forall i, j :: 0 <= i < |triangles| && 0 <= j < 3 ==> verts[3 * i + j] == triangles[i].Vertex(j)
    ensures verts[..] == FlatVertices(triangles)
    ensures WellFormedMesh(verts[..], tris[..]) && DecodeMesh(verts[..], tris[..]) == triangles
  {
    verts := new Float3[|triangles| * 3](_ => Float3(0.0, 0.0, 0.0));
    tris := new int[|triangles| * 3];
    for i := 0 to |triangles|
      invariant forall k :: 0 <= k < 3 * i ==> tris[k] == k
      invariant forall p, q :: 0 <= p < i && 0 <= q < 3 ==> verts[3 * p + q] == triangles[p].Vertex(q)
    {
      for j := 0 to 3
        invariant forall k :: 0 <= k < 3 * i + j ==> tris[k] == k
        invariant forall p, q :: 0 <= p < i && 0 <= q < 3 ==> verts[3 * p + q] == triangles[p].Vertex(q)
        invariant forall q :: 0 <= q < j ==> verts[3 * i + q] == triangles[i].Vertex(q)
      {
        tris[i * 3 + j] := i * 3 + j;
        verts[i * 3 + j] := triangles[i].Vertex(j);
      }
    }
    FlatLayout(triangles, verts[..], tris[..]);
  }

  /**
   * Buffers with entry `3i + j` holding vertex `j` of triangle `i` and an identity index
   * buffer are the flat layout, and decode back to the triangle list.
   */
  lemma FlatLayout(triangles: seq<Triangle>, verts: seq<Float3>, tris: seq<int>)
    requires |verts| == 3 * |triangles| && |tris| == 3 * |triangles|
    requires forall k :: 0 <= k < |tris| ==> tris[k] == k
    requires forall i, j :: 0 <= i < |triangles| && 0 <= j < 3 ==> verts[3 * i + j] == triangles[i].Vertex(j)
    ensures verts == FlatVertices(triangles)
    ensures WellFormedMesh(verts, tris) && DecodeMesh(verts, tris) == triangles
  {
    FlatVerticesLength(triangles);
    forall k | 0 <= k < |verts|
      ensures verts[k] == FlatVertices(triangles)[k]
    {
      var i, j := k / 3, k % 3;
      assert 3 * i + j == k;
      FlatVerticesAt(triangles, i, j);
    }
    assert tris == seq(3 * |triangles|, k => k);
    FlatRoundTrip(triangles);
  }

  /** Decoding the flat layout recovers the triangle list: assembling loses and reorders nothing. */
  lemma {:induction false} FlatRoundTrip(triangles: seq<Triangle>)
    ensures WellFormedMesh(FlatVertices(triangles), seq(3 * |triangles|, k => k))
    ensures DecodeMesh(FlatVertices(triangles), seq(3 * |triangles|, k => k)) == triangles
  {
    FlatVerticesLength(triangles);
    var tris := seq(3 * |triangles|, k => k);
    assert WellFormedMesh(FlatVertices(triangles), tris) by {
      assert |tris| == 3 * |triangles| && |tris| % 3 == 0;
      assert forall k :: 0 <= k < |tris| ==> tris[k] == k;
    }
    var decoded := DecodeMesh(FlatVertices(triangles), tris);
    forall i | 0 <= i < |triangles|
      ensures decoded[i] == triangles[i]
    {
      FlatVerticesAt(triangles, i, 0);
      FlatVerticesAt(triangles, i, 1);
      FlatVerticesAt(triangles, i, 2);
    }
  }
}
