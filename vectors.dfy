/** Three-component real vectors, the geometry every selector and the binning step work on. */
module Vectors {

  datatype Vec3 = Vec3(x: real, y: real, z: real)

  const Origin: Vec3 := Vec3(0.0, 0.0, 0.0)

  function Sub(a: Vec3, b: Vec3): Vec3 {
    Vec3(a.x - b.x, a.y - b.y, a.z - b.z)
  }

  function Dot(a: Vec3, b: Vec3): real {
    a.x * b.x + a.y * b.y + a.z * b.z
  }

  function NormSq(v: Vec3): real {
    Dot(v, v)
  }

  function Abs(r: real): real {
    if r < 0.0 then -r else r
  }

  /** Componentwise `lo <= p <= hi`, both ends inclusive, on all three axes. */
  predicate WithinBounds(lo: Vec3, hi: Vec3, p: Vec3) {
    lo.x <= p.x <= hi.x && lo.y <= p.y <= hi.y && lo.z <= p.z <= hi.z
  }

  /** `norm(p - c) <= r`, written without the square root. */
  predicate WithinRadius(c: Vec3, r: real, p: Vec3) {
    r >= 0.0 && NormSq(Sub(p, c)) <= r * r
  }

  /** The square-root-free form agrees with comparing the Euclidean distance `d` to the radius. */
  lemma WithinRadiusIsDistance(c: Vec3, r: real, p: Vec3, d: real)
    requires d >= 0.0 && d * d == NormSq(Sub(p, c))
    ensures WithinRadius(c, r, p) <==> d <= r
  {
    if r >= 0.0 {
      if d <= r {
        MulNonNeg(r - d, r);
        assert (r - d) * r == r * r - d * r;
        MulNonNeg(r - d, d);
        assert (r - d) * d == r * d - d * d;
      } else {
        MulPos(d - r, d);
        assert (d - r) * d == d * d - r * d;
        MulNonNeg(d - r, r);
        assert (d - r) * r == d * r - r * r;
      }
    }
  }

  lemma MulPos(a: real, b: real)
    requires a > 0.0 && b > 0.0
    ensures a * b > 0.0
  {
  }

  lemma MulNonNeg(a: real, b: real)
    requires a >= 0.0 && b >= 0.0
    ensures a * b >= 0.0
  {
  }
}
