/** Unity.Mathematics `float3` / `float4` values, with `real` standing in for `float`. */
module Vectors {

  /** A point or direction in space (`float3`). */
  datatype Float3 = Float3(x: real, y: real, z: real)

  /** A grid sample (`float4`): a position in `x`, `y`, `z` and a density in `w`. */
  datatype Float4 = Float4(x: real, y: real, z: real, w: real)
  {
    /** The `.xyz` swizzle: the position part of the sample. */
    function Xyz(): Float3 {
      Float3(x, y, z)
    }

    /** The sample with its density replaced and its position kept. */
    function WithW(d: real): (p: Float4)
      ensures p.Xyz() == Xyz() && p.w == d
    {
      this.(w := d)
    }
  }

  /** `float4(position, w)` */
  function MakeFloat4(p: Float3, w: real): (q: Float4)
    ensures q.Xyz() == p && q.w == w
  {
    Float4(p.x, p.y, p.z, w)
  }

  function Add(a: Float3, b: Float3): Float3 {
    Float3(a.x + b.x, a.y + b.y, a.z + b.z)
  }

  function Sub(a: Float3, b: Float3): Float3 {
    Float3(a.x - b.x, a.y - b.y, a.z - b.z)
  }

  /** Scalar times vector. */
  function Scale(s: real, a: Float3): Float3 {
    Float3(s * a.x, s * a.y, s * a.z)
  }

  /** Vector minus a scalar in every component (`float3 - float`). */
  function SubScalar(a: Float3, s: real): Float3 {
    Float3(a.x - s, a.y - s, a.z - s)
  }

  /** The point `a + t * (b - a)` of the line through `a` and `b`. */
  function Lerp(a: Float3, b: Float3, t: real): Float3 {
    Add(a, Scale(t, Sub(b, a)))
  }

  /** `p` lies on the closed segment between `a` and `b`. */
  ghost predicate OnSegment(p: Float3, a: Float3, b: Float3) {
    exists t: real :: 0.0 <= t <= 1.0 && p == Lerp(a, b, t)
  }

  /** A quotient is the number that multiplies the divisor back to the dividend. */
  lemma DivUnique(x: real, d: real, q: real)
    requires d != 0.0 && q * d == x
    ensures x / d == q
  {
  }

  /** The quotient of a number by one of the same sign and no smaller size lies in `[0, 1]`. */
  lemma QuotientInUnit(a: real, d: real)
    requires (0.0 < d && 0.0 <= a <= d) || (d < 0.0 && d <= a <= 0.0)
    ensures 0.0 <= a / d <= 1.0 && (a / d) * d == a
  {
  }

  /** A triangle as emitted by the triangulation: three vertices in winding order. */
  datatype Triangle = Triangle(v0: Float3, v1: Float3, v2: Float3)
  {
    /** `triangle[j]` of the source's `float3[3]`. */
    function Vertex(j: int): Float3
      requires 0 <= j < 3
    {
      if j == 0 then v0 else if j == 1 then v1 else v2
    }
  }
}
