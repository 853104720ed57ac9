/** Three-component vectors over the reals and the horizontal projection of Utility/Vector3Ext.cs.
    Floating-point rounding is not modelled: components are exact reals. */
module Vectors {

  datatype Vec3 = Vec3(x: real, y: real, z: real)

  const Zero := Vec3(0.0, 0.0, 0.0)

  function Add(a: Vec3, b: Vec3): Vec3 {
    Vec3(a.x + b.x, a.y + b.y, a.z + b.z)
  }

  function Sub(a: Vec3, b: Vec3): Vec3 {
    Vec3(a.x - b.x, a.y - b.y, a.z - b.z)
  }

  function Scale(a: Vec3, k: real): Vec3 {
    Vec3(a.x * k, a.y * k, a.z * k)
  }

  /** The interpolation `a + (b - a) * t`. Unity's `Vector3.Lerp` clamps `t` to [0, 1]; the
      probe fractions lie in [0, 1], where that clamp is the identity. */
  function Lerp(a: Vec3, b: Vec3, t: real): (r: Vec3)
    ensures t == 0.0 ==> r == a
    ensures t == 1.0 ==> r == b
  {
    Add(a, Scale(Sub(b, a), t))
  }

  /** Projection onto the horizontal plane: the vertical component is dropped, x and z are kept. */
  function Flatten(v: Vec3): (r: Vec3)
    ensures r.y == 0.0
    ensures r.x == v.x && r.z == v.z
  {
    Vec3(v.x, 0.0, v.z)
  }

  /** Flattening an already flat vector changes nothing. */
  lemma FlattenIdempotent(v: Vec3)
    ensures Flatten(Flatten(v)) == Flatten(v)
  {
  }

  /** A vector is its own projection exactly when it is horizontal. */
  lemma FlattenFixedPoints(v: Vec3)
    ensures Flatten(v) == v <==> v.y == 0.0
  {
  }

  /** Projection commutes with subtraction: the horizontal displacement between two positions
      is the difference of their projections. */
  lemma FlattenSub(a: Vec3, b: Vec3)
    ensures Flatten(Sub(a, b)) == Sub(Flatten(a), Flatten(b))
  {
  }

  /** Projection is linear: it commutes with addition and scaling. */
  lemma FlattenLinear(a: Vec3, b: Vec3, k: real)
    ensures Flatten(Add(a, b)) == Add(Flatten(a), Flatten(b))
    ensures Flatten(Scale(a, k)) == Scale(Flatten(a), k)
  {
  }

  /** A product of reals vanishes only when one factor does. */
  lemma ZeroProduct(d: real, e: real)
    requires d != 0.0 && d * e == 0.0
    ensures e == 0.0
  {
    assert e == (d * e) / d;
  }

  /** When the end points differ, interpolation reaches the end point only at t = 1. */
  lemma LerpReachesEndOnlyAtOne(a: Vec3, b: Vec3, t: real)
    requires a != b
    ensures Lerp(a, b, t) == b <==> t == 1.0
  {
    if Lerp(a, b, t) == b {
      if a.x != b.x {
        ZeroProduct(b.x - a.x, t - 1.0);
      } else if a.y != b.y {
        ZeroProduct(b.y - a.y, t - 1.0);
      } else {
        ZeroProduct(b.z - a.z, t - 1.0);
      }
    }
  }
}
