/** Points in the scene: three.js `Vector3` values as plain triples of reals. */
module Geometry {
  import opened Interp

  datatype Vec3 = Vec3(x: real, y: real, z: real)

  /** Squared distance from the origin. */
  function Norm2(v: Vec3): real {
    v.x * v.x + v.y * v.y + v.z * v.z
  }

  /** Every coordinate of `v` lies between the matching coordinates of `a` and `b`. */
  predicate Within(a: Vec3, b: Vec3, v: Vec3) {
    Between(a.x, b.x, v.x) && Between(a.y, b.y, v.y) && Between(a.z, b.z, v.z)
  }

  /** Coordinate-wise interpolation, as three `MathUtils.lerp` calls or one GLSL `mix` on a `vec3`. */
  function Mix3(a: Vec3, b: Vec3, t: real): (r: Vec3)
    ensures t == 0.0 ==> r == a
    ensures t == 1.0 ==> r == b
    ensures 0.0 <= t <= 1.0 ==> Within(a, b, r)
  {
    Vec3(Lerp(a.x, b.x, t), Lerp(a.y, b.y, t), Lerp(a.z, b.z, t))
  }

  /** A point at distance `h` along a unit direction (c, s) lies at squared distance h^2. */
  lemma OnCircle(h: real, c: real, s: real)
    requires c * c + s * s == 1.0
    ensures (h * c) * (h * c) + (h * s) * (h * s) == h * h
  {
    calc {
      (h * c) * (h * c) + (h * s) * (h * s);
      (h * h) * (c * c + s * s);
      h * h;
    }
  }
}
