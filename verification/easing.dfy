/** The easing curves of the morph animation: the `smoothstep` helper of
    Ornaments.tsx (the same Hermite curve as GLSL's built-in `smoothstep`,
    which the foliage shader uses) and the cubic in/out `ease` of the
    foliage vertex shader. */
module Easing {
  import opened Interp

  function Min(a: real, b: real): real { if a <= b then a else b }
  function Max(a: real, b: real): real { if a >= b then a else b }

  /** `Math.max(0, Math.min(1, v))`; GLSL `clamp(v, 0.0, 1.0)` is the same function. */
  function Clamp01(v: real): (r: real)
    ensures 0.0 <= r <= 1.0
    ensures 0.0 <= v <= 1.0 ==> r == v
    ensures v <= 0.0 ==> r == 0.0
    ensures v >= 1.0 ==> r == 1.0
  {
    Max(0.0, Min(1.0, v))
  }

  /** The cubic Hermite curve 3x^2 - 2x^3 that smoothstep applies to its clamped argument. */
  function Hermite(x: real): real {
    x * x * (3.0 - 2.0 * x)
  }

  lemma HermiteUnit(x: real)
    requires 0.0 <= x <= 1.0
    ensures 0.0 <= Hermite(x) <= 1.0
    ensures Hermite(x) == 0.0 <==> x == 0.0
    ensures Hermite(x) == 1.0 <==> x == 1.0
  {
    HermiteLow(x);
    HermiteHigh(x);
  }

  lemma HermiteLow(x: real)
    requires 0.0 <= x <= 1.0
    ensures 0.0 <= Hermite(x)
    ensures Hermite(x) == 0.0 <==> x == 0.0
  {
    MulNonneg3(x, x, 3.0 - 2.0 * x);
    if 0.0 < x {
      MulPos3(x, x, 3.0 - 2.0 * x);
    }
  }

  lemma HermiteHigh(x: real)
    requires 0.0 <= x <= 1.0
    ensures Hermite(x) <= 1.0
    ensures Hermite(x) == 1.0 <==> x == 1.0
  {
    // 1 - Hermite(x) = Hermite(1 - x), which HermiteLow bounds
    HermiteSymmetric(x);
    HermiteLow(1.0 - x);
  }

  /** Hermite is non-decreasing on [0,1]:
      H(b) - H(a) = (b - a) (3(a + b) - 2(a^2 + ab + b^2)) and the second factor is non-negative. */
  lemma HermiteMonotone(a: real, b: real)
    requires 0.0 <= a <= b <= 1.0
    ensures Hermite(a) <= Hermite(b)
  {
    var k := 3.0 * (a + b) - 2.0 * (a * a + a * b + b * b);
    assert k >= 0.0 by {
      MulAtMost(a, a);
      MulAtMost(b, b);
      MulAtMost(a, b);
      SecondFactor(a, b, a * a, a * b, b * b);
    }
    calc {
      Hermite(b) - Hermite(a);
      (b - a) * k;
    >= { MulNonneg(b - a, k); }
      0.0;
    }
  }

  lemma SecondFactor(a: real, b: real, aa: real, ab: real, bb: real)
    requires aa <= a && bb <= b && ab <= a && a <= b
    ensures 3.0 * (a + b) - 2.0 * (aa + ab + bb) >= 0.0
  {
  }

  /** The curve is point-symmetric about (1/2, 1/2). */
  lemma HermiteSymmetric(x: real)
    ensures Hermite(1.0 - x) == 1.0 - Hermite(x)
  {
  }

  /** `smoothstep(min, max, value)`: 0 at or below `min`, 1 at or above `max`,
      and the Hermite curve of the normalised position in between. */
  function Smoothstep(lo: real, hi: real, v: real): (r: real)
    requires lo < hi
    ensures 0.0 <= r <= 1.0
    ensures r == 0.0 <==> v <= lo
    ensures r == 1.0 <==> v >= hi
  {
    var q := (v - lo) / (hi - lo);
    Normalized(lo, hi, v);
    HermiteUnit(Clamp01(q));
    Hermite(Clamp01(q))
  }

  /** Where the normalised position (v - lo) / (hi - lo) falls relative to 0 and 1. */
  lemma Normalized(lo: real, hi: real, v: real)
    requires lo < hi
    ensures (v - lo) / (hi - lo) <= 0.0 <==> v <= lo
    ensures (v - lo) / (hi - lo) >= 1.0 <==> v >= hi
  {
    var w := hi - lo;
    var q := (v - lo) / w;
    assert q * w == v - lo;
    if q > 0.0 {
      MulPos(q, w);
    } else {
      MulNonneg(-q, w);
    }
    if q >= 1.0 {
      MulLeq(1.0, q, w);
    } else {
      MulPos(1.0 - q, w);
    }
  }

  lemma DivMonotone(a: real, b: real, w: real)
    requires a <= b && w > 0.0
    ensures a / w <= b / w
  {
    var qa := a / w;
    var qb := b / w;
    assert qa * w == a && qb * w == b;
    if qa > qb {
      MulPos(qa - qb, w);
      assert false;
    }
  }

  lemma ClampMonotone(a: real, b: real)
    requires a <= b
    ensures Clamp01(a) <= Clamp01(b)
  {
  }

  /** smoothstep is non-decreasing in its value argument. */
  lemma SmoothstepMonotone(lo: real, hi: real, a: real, b: real)
    requires lo < hi
    requires a <= b
    ensures Smoothstep(lo, hi, a) <= Smoothstep(lo, hi, b)
  {
    DivMonotone(a - lo, b - lo, hi - lo);
    ClampMonotone((a - lo) / (hi - lo), (b - lo) / (hi - lo));
    HermiteMonotone(Clamp01((a - lo) / (hi - lo)), Clamp01((b - lo) / (hi - lo)));
  }

  function Cube(z: real): real {
    z * z * z
  }

  lemma CubeMonotone(a: real, b: real)
    requires 0.0 <= a <= b
    ensures Cube(a) <= Cube(b)
  {
    calc {
      Cube(a);
      (a * a) * a;
    <= { MulLeq(a, b, a); MulLeq(a * a, b * a, a); }
      (b * a) * a;
      (a * a) * b;
    <= { MulLeq(a, b, a); MulLeq(a * a, b * a, b); }
      (b * a) * b;
      (b * b) * a;
    <= { MulNonneg(b, b); MulLeq(a, b, b * b); }
      (b * b) * b;
    }
  }

  /** The foliage shader's cubic in/out curve: `4t^3` below 1/2, `1 - (2 - 2t)^3 / 2` from 1/2 on.
      GLSL's `pow(-2.0 * t + 2.0, 3.0)` is the cube of its base. */
  function Ease(t: real): (r: real)
    ensures 0.0 <= t <= 1.0 ==> 0.0 <= r <= 1.0
    ensures t == 0.0 ==> r == 0.0
    ensures t == 1.0 ==> r == 1.0
  {
    if t < 0.5 then
      EaseLowerHalf(t);
      4.0 * Cube(t)
    else
      EaseUpperHalf(t);
      1.0 - Cube(-2.0 * t + 2.0) / 2.0
  }

  lemma EaseLowerHalf(t: real)
    requires t < 0.5
    ensures 0.0 <= t ==> 0.0 <= 4.0 * Cube(t) < 0.5
  {
    if 0.0 <= t {
      MulNonneg3(t, t, t);
      // t^2 <= t/2 and so t^3 <= t/4 < 1/8
      MulLeq(t, 0.5, t);
      MulLeq(t * t, 0.5 * t, t);
      assert Cube(t) <= 0.5 * t * t;
      MulLeq(t, 0.5, 0.5 * t);
    }
  }

  lemma EaseUpperHalf(t: real)
    requires t >= 0.5
    ensures t <= 1.0 ==> 0.5 <= 1.0 - Cube(-2.0 * t + 2.0) / 2.0 <= 1.0
  {
    if t <= 1.0 {
      var c := -2.0 * t + 2.0;
      CubeMonotone(c, 1.0);
      MulNonneg(c, c);
      MulNonneg(c * c, c);
    }
  }

  /** Both branches of `ease` meet at t = 1/2 with the value 1/2, so the curve has no jump. */
  lemma EaseBranchesMeet()
    ensures 4.0 * Cube(0.5) == 0.5
    ensures 1.0 - Cube(-2.0 * 0.5 + 2.0) / 2.0 == 0.5
    ensures Ease(0.5) == 0.5
  {
  }

  /** `ease` is point-symmetric: ease(1 - t) = 1 - ease(t). */
  lemma EaseSymmetric(t: real)
    ensures Ease(1.0 - t) == 1.0 - Ease(t)
  {
    if t < 0.5 {
      assert -2.0 * (1.0 - t) + 2.0 == 2.0 * t;
      assert Cube(2.0 * t) == 8.0 * Cube(t);
    } else if t > 0.5 {
      var c := -2.0 * t + 2.0;
      assert 1.0 - t < 0.5;
      assert c == 2.0 * (1.0 - t);
      assert Cube(c) == 8.0 * Cube(1.0 - t);
    }
  }

  /** `ease` is non-decreasing on [0,1]. */
  lemma EaseMonotone(a: real, b: real)
    requires 0.0 <= a <= b <= 1.0
    ensures Ease(a) <= Ease(b)
  {
    if b < 0.5 {
      CubeMonotone(a, b);
    } else if a >= 0.5 {
      CubeMonotone(-2.0 * b + 2.0, -2.0 * a + 2.0);
    } else {
      EaseLowerHalf(a);
      EaseUpperHalf(b);
    }
  }
}
