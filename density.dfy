/**
 * `OldDensityGenerator`: writes the density of every grid sample in place,
 * `w = -y + sum over the noise layers of noise(T(xyz) * scale + offset) * strength`.
 * The noise primitive (`Noise.Evaluate`) and the object transform
 * (`transform.TransformPoint`) are pure functions given to the generator.
 */
module DensityGeneration {
  import opened Vectors

  /** A possibly missing value; `None` stands for a `null` array reference. */
  datatype Option<+T> = None | Some(value: T)

  /** `OldDensityGenerator.NoiseLayer` */
  datatype NoiseLayer = NoiseLayer(scale: real, offset: Float3, strength: real)

  /** One layer's contribution at world position `posWS`: `noise(posWS * scale + offset) * strength`. */
  function LayerTerm(noise: Float3 -> real, layer: NoiseLayer, posWS: Float3): real {
    noise(Add(Scale(layer.scale, posWS), layer.offset)) * layer.strength
  }

  /** `resultVal` after the layers in `layers`, summed in order, for the point at local position `p`. */
  function NoiseSum(noise: Float3 -> real, transform: Float3 -> Float3, layers: seq<NoiseLayer>, p: Float3): real {
    if layers == [] then 0.0
    else NoiseSum(noise, transform, layers[..|layers| - 1], p) + LayerTerm(noise, layers[|layers| - 1], transform(p))
  }

  /** The sample with its density recomputed from its position: `w = -y + NoiseSum`. */
  function DensityAt(noise: Float3 -> real, transform: Float3 -> Float3, layers: seq<NoiseLayer>, p: Float4): Float4 {
    p.WithW(-p.y + NoiseSum(noise, transform, layers, p.Xyz()))
  }

  /** The point array after the density pass over every sample. */
  function ApplyDensity(noise: Float3 -> real, transform: Float3 -> Float3, layers: seq<NoiseLayer>,
                        points: seq<Float4>): seq<Float4> {
    seq(|points|, i requires 0 <= i < |points| => DensityAt(noise, transform, layers, points[i]))
  }

  /** The noise of a concatenation of layer lists is the sum of their noises. */
  lemma {:induction false} NoiseSumAppend(noise: Float3 -> real, transform: Float3 -> Float3,
                                           a: seq<NoiseLayer>, b: seq<NoiseLayer>, p: Float3)
    ensures NoiseSum(noise, transform, a + b, p) == NoiseSum(noise, transform, a, p) + NoiseSum(noise, transform, b, p)
    decreases |b|
  {
    if b != [] {
      var b' := b[..|b| - 1];
      assert (a + b)[..|a + b| - 1] == a + b';
      NoiseSumAppend(noise, transform, a, b', p);
    } else {
      assert a + b == a;
    }
  }

  /** A single layer contributes exactly its own term. */
  lemma NoiseSumSingle(noise: Float3 -> real, transform: Float3 -> Float3, layer: NoiseLayer, p: Float3)
    ensures NoiseSum(noise, transform, [layer], p) == LayerTerm(noise, layer, transform(p))
  {
    assert [layer][..0] == [];
  }

  /**
   * The density pass keeps the length and every position and sets `w` to
   * `-y + NoiseSum` of the sample's own position; with no layers `w == -y`.
   */
  lemma ApplyDensityAt(noise: Float3 -> real, transform: Float3 -> Float3, layers: seq<NoiseLayer>,
                       points: seq<Float4>, i: int)
    requires 0 <= i < |points|
    ensures |ApplyDensity(noise, transform, layers, points)| == |points|
    ensures ApplyDensity(noise, transform, layers, points)[i].Xyz() == points[i].Xyz()
    ensures ApplyDensity(noise, transform, layers, points)[i].w
         == -points[i].y + NoiseSum(noise, transform, layers, points[i].Xyz())
    ensures layers == [] ==> ApplyDensity(noise, transform, layers, points)[i].w == -points[i].y
  {
  }

  /**
   * A sample's new density depends only on its own prior position (not on its prior
   * density, its index, or any other sample).
   */
  lemma DensityIsLocal(noise: Float3 -> real, transform: Float3 -> Float3, layers: seq<NoiseLayer>,
                       s: seq<Float4>, i: int, u: seq<Float4>, j: int)
    requires 0 <= i < |s| && 0 <= j < |u| && s[i].Xyz() == u[j].Xyz()
    ensures ApplyDensity(noise, transform, layers, s)[i] == ApplyDensity(noise, transform, layers, u)[j]
  {
    assert s[i].y == s[i].Xyz().y && u[j].y == u[j].Xyz().y;
  }

  /** Running the density pass a second time changes nothing. */
  lemma ApplyDensityIdempotent(noise: Float3 -> real, transform: Float3 -> Float3, layers: seq<NoiseLayer>,
                               points: seq<Float4>)
    ensures ApplyDensity(noise, transform, layers, ApplyDensity(noise, transform, layers, points))
         == ApplyDensity(noise, transform, layers, points)
  {
    var once := ApplyDensity(noise, transform, layers, points);
    forall i | 0 <= i < |points|
      ensures ApplyDensity(noise, transform, layers, once)[i] == once[i]
    {
      DensityIsLocal(noise, transform, layers, once, i, points, i);
    }
  }

  /** `OldDensityGenerator`: the noise layers, the noise primitive and the object's transform. */
  class OldDensityGenerator {
    var layers: Option<seq<NoiseLayer>>
    const noise: Float3 -> real
    const transform: Float3 -> Float3

    constructor (layers: Option<seq<NoiseLayer>>, noise: Float3 -> real, transform: Float3 -> Float3)
      ensures this.layers == layers && this.noise == noise && this.transform == transform
    {
      this.layers := layers;
      this.noise := noise;
      this.transform := transform;
    }

    /** What `GenerateDensity` leaves in an array that held `points`. */
    function Generated(points: seq<Float4>): (r: seq<Float4>)
      reads this
      ensures |r| == |points|
    {
      match layers
      case None => points
      case Some(ls) => ApplyDensity(noise, transform, ls, points)
    }

    /**
     * `GenerateDensity(ref points)`: with `layers == null` the array is untouched;
     * otherwise every sample's `w` is overwritten with its density and nothing else changes.
     */
    method GenerateDensity(points: array<Float4>)
      modifies points
      ensures layers.None? ==> points[..] == old(points[..])
      ensures layers.Some? ==> points[..] == ApplyDensity(noise, transform, layers.value, old(points[..]))
      ensures points[..] == Generated(old(points[..]))
    {
      if layers.None? {
        return;
      }
      var ls := layers.value;
      for i := 0 to points.Length
        invariant forall k :: 0 <= k < i ==> points[k] == DensityAt(noise, transform, ls, old(points[k]))
        invariant forall k :: i <= k < points.Length ==> points[k] == old(points[k])
      {
        var resultVal := 0.0;
        for l := 0 to |ls|
          invariant resultVal == NoiseSum(noise, transform, ls[..l], points[i].Xyz())
        {
          var posWS := transform(points[i].Xyz());
          resultVal := resultVal + noise(Add(Scale(ls[l].scale, posWS), ls[l].offset)) * ls[l].strength;
          assert ls[..l + 1][..l] == ls[..l];
        }
        assert ls[..|ls|] == ls;
        points[i] := points[i].(w := -points[i].y + resultVal);
      }
    }
  }
}
