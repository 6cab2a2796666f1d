/// Points and directions in 3D (three.js `Vector3`, taken as a value), and the
/// linear interpolation both source files define.
module Geometry {

  datatype Vec3 = Vec3(x: real, y: real, z: real)

  /// The fixed world up axis (0, 1, 0).
  const Up: Vec3 := Vec3(0.0, 1.0, 0.0)

  function Dot(a: Vec3, b: Vec3): (d: real) {
    a.x * b.x + a.y * b.y + a.z * b.z
  }

  /// `Vector3.crossVectors(a, b)`: the right-handed cross product a x b.
  function Cross(a: Vec3, b: Vec3): (c: Vec3) {
    Vec3(a.y * b.z - a.z * b.y, a.z * b.x - a.x * b.z, a.x * b.y - a.y * b.x)
  }

  /// `lerp(a, b, x) = a + x*(b - a)`: at 0 it is `a`, at 1 it is `b`, and for
  /// a parameter in [0, 1] it stays between the two.
  function Lerp(a: real, b: real, u: real): (r: real)
    ensures u == 0.0 ==> r == a
    ensures u == 1.0 ==> r == b
    ensures 0.0 <= u <= 1.0 && a <= b ==> a <= r <= b
    ensures 0.0 <= u <= 1.0 && b <= a ==> b <= r <= a
  {
    ScaledStep(u, b - a);
    a + u * (b - a)
  }

  /// A fraction u in [0, 1] of a step d lies between 0 and d.
  lemma ScaledStep(u: real, d: real)
    ensures 0.0 <= u <= 1.0 && 0.0 <= d ==> 0.0 <= u * d <= d
    ensures 0.0 <= u <= 1.0 && d <= 0.0 ==> d <= u * d <= 0.0
  {
    if 0.0 <= u <= 1.0 {
      if 0.0 <= d {
        NonNegativeProduct(u, d);
        NonNegativeProduct(1.0 - u, d);
      } else {
        NonNegativeProduct(u, -d);
        NonNegativeProduct(1.0 - u, -d);
      }
    }
  }

  lemma NonNegativeProduct(p: real, q: real)
    requires 0.0 <= p && 0.0 <= q
    ensures 0.0 <= p * q
  {
  }

  /// Interpolation is strictly monotone in the parameter when the ends differ.
  lemma LerpMonotone(a: real, b: real, u: real, v: real)
    ensures u < v && a < b ==> Lerp(a, b, u) < Lerp(a, b, v)
    ensures u < v && b < a ==> Lerp(a, b, v) < Lerp(a, b, u)
  {
    if v <= u { return; }
    var d, e := b - a, v - u;
    assert Lerp(a, b, v) - Lerp(a, b, u) == e * d;
    if a < b {
      PositiveProduct(e, d);
    } else if b < a {
      PositiveProduct(e, -d);
      assert e * -d == -(e * d);
    }
  }

  lemma PositiveProduct(p: real, q: real)
    requires 0.0 < p && 0.0 < q
    ensures 0.0 < p * q
  {
  }
}
