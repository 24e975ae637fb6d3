/** Linear interpolation as the installation uses it everywhere: three.js
    `MathUtils.lerp(x, y, t)` and GLSL `mix(x, y, t)` both compute
    `(1 - t) * x + t * y`, with no clamping of `t`. */
module Interp {

  // Small facts about products of reals, called where the solver needs them.

  lemma MulNonneg(a: real, b: real)
    requires a >= 0.0 && b >= 0.0
    ensures a * b >= 0.0
  {
  }

  lemma MulPos(a: real, b: real)
    requires a > 0.0 && b > 0.0
    ensures a * b > 0.0
  {
  }

  lemma MulAtMost(a: real, b: real)
    requires 0.0 <= a && 0.0 <= b <= 1.0
    ensures a * b <= a
  {
    MulNonneg(a, 1.0 - b);
  }

  lemma MulPos3(a: real, b: real, c: real)
    requires a > 0.0 && b > 0.0 && c > 0.0
    ensures a * b * c > 0.0
  {
    MulPos(a, b);
    MulPos(a * b, c);
  }

  lemma MulNonneg3(a: real, b: real, c: real)
    requires a >= 0.0 && b >= 0.0 && c >= 0.0
    ensures a * b * c >= 0.0
  {
    MulNonneg(a, b);
    MulNonneg(a * b, c);
  }

  lemma MulLeq(a: real, b: real, c: real)
    requires a <= b && c >= 0.0
    ensures a * c <= b * c
  {
    MulNonneg(b - a, c);
  }

  lemma SquareNonneg(x: real)
    ensures x * x >= 0.0
  {
    if x >= 0.0 {
      MulNonneg(x, x);
    } else {
      MulNonneg(-x, -x);
    }
  }

  /** `v` lies on the closed segment joining `a` and `b` (in either order). */
  predicate Between(a: real, b: real, v: real) {
    (a <= v <= b) || (b <= v <= a)
  }

  function Abs(x: real): (r: real)
    ensures r >= 0.0
    ensures r == x || r == -x
  {
    if x < 0.0 then -x else x
  }

  /** One interpolation step from `x` toward `y` by the (unclamped) factor `t`. */
  function Lerp(x: real, y: real, t: real): (r: real)
    // the remaining distance to the target shrinks by exactly the factor 1 - t
    ensures y - r == (1.0 - t) * (y - x)
    // the distance covered is exactly the fraction t of the way
    ensures r - x == t * (y - x)
    // a factor in [0,1] is a convex blend: no overshoot
    ensures 0.0 <= t <= 1.0 ==> Between(x, y, r)
    ensures t == 0.0 ==> r == x
    ensures t == 1.0 ==> r == y
  {
    BlendBetween(x, y, t);
    Blend(x, y, t)
  }

  /** The interpolation formula itself. */
  function Blend(x: real, y: real, t: real): real {
    (1.0 - t) * x + t * y
  }

  lemma BlendGap(x: real, y: real, t: real)
    ensures y - Blend(x, y, t) == (1.0 - t) * (y - x)
  {
  }

  lemma BlendBetween(x: real, y: real, t: real)
    ensures 0.0 <= t <= 1.0 ==> Between(x, y, (1.0 - t) * x + t * y)
  {
    if 0.0 <= t <= 1.0 {
      var r := (1.0 - t) * x + t * y;
      if x <= y {
        calc {
          r - x;
          t * (y - x);
        >= { MulNonneg(t, y - x); }
          0.0;
        }
        calc {
          y - r;
          (1.0 - t) * (y - x);
        >= { MulNonneg(1.0 - t, y - x); }
          0.0;
        }
      } else {
        calc {
          x - r;
          t * (x - y);
        >= { MulNonneg(t, x - y); }
          0.0;
        }
        calc {
          r - y;
          (1.0 - t) * (x - y);
        >= { MulNonneg(1.0 - t, x - y); }
          0.0;
        }
      }
    }
  }

  /** The target is a fixed point of every step, whatever the factor. */
  lemma LerpFixesTarget(y: real, t: real)
    ensures Lerp(y, y, t) == y
  {
  }

  /** A factor above 1 leaves the segment: the step overshoots the target. */
  lemma LerpOvershoots(x: real, y: real, t: real)
    requires x != y
    requires t > 1.0
    ensures !Between(x, y, Lerp(x, y, t))
  {
    if x < y {
      OvershootAbove(x, y, t);
    } else {
      OvershootBelow(x, y, t);
    }
  }

  lemma OvershootAbove(x: real, y: real, t: real)
    requires x < y && t > 1.0
    ensures (1.0 - t) * x + t * y > y
  {
    calc {
      (1.0 - t) * x + t * y - y;
      (t - 1.0) * (y - x);
    > { MulPos(t - 1.0, y - x); }
      0.0;
    }
  }

  lemma OvershootBelow(x: real, y: real, t: real)
    requires x > y && t > 1.0
    ensures (1.0 - t) * x + t * y < y
  {
    calc {
      y - ((1.0 - t) * x + t * y);
      (t - 1.0) * (x - y);
    > { MulPos(t - 1.0, x - y); }
      0.0;
    }
  }

  /** `b` raised to the natural power `n`. */
  function Power(b: real, n: nat): real
    decreases n
  {
    if n == 0 then 1.0 else b * Power(b, n - 1)
  }

  /** `n` repeated steps from `x` toward the fixed target `y` with the same factor. */
  function Iterate(x: real, y: real, t: real, n: nat): real
    decreases n
  {
    if n == 0 then x else Iterate(Blend(x, y, t), y, t, n - 1)
  }

  /** After `n` steps the remaining distance is exactly (1 - t)^n of the initial one. */
  lemma {:induction false} IterateGap(x: real, y: real, t: real, n: nat)
    ensures y - Iterate(x, y, t, n) == Power(1.0 - t, n) * (y - x)
    decreases n
  {
    if n > 0 {
      var x' := Blend(x, y, t);
      BlendGap(x, y, t);
      IterateGap(x', y, t, n - 1);
      assert Iterate(x, y, t, n) == Iterate(x', y, t, n - 1);
      assert Power(1.0 - t, n) == (1.0 - t) * Power(1.0 - t, n - 1);
      GapStep(Power(1.0 - t, n - 1), 1.0 - t, y - x', y - x, y - Iterate(x, y, t, n));
    }
  }

  /** The algebra of one IterateGap step, on plain reals. */
  lemma GapStep(P: real, k: real, g': real, g: real, r: real)
    requires g' == k * g
    requires r == P * g'
    ensures r == (k * P) * g
  {
  }

  lemma {:induction false} PowerUnit(b: real, n: nat)
    requires 0.0 <= b <= 1.0
    ensures 0.0 <= Power(b, n) <= 1.0
    decreases n
  {
    if n > 0 {
      PowerUnit(b, n - 1);
      var p := Power(b, n - 1);
      assert Power(b, n) == b * p;
      MulLeq(b, 1.0, p);
      assert 1.0 * p == p;
      MulNonneg(b, p);
    }
  }

  /** Bernoulli-style bound: (1 - t)^n * (1 + n t) <= 1 for t in [0,1]. */
  lemma {:induction false} PowerBernoulli(t: real, n: nat)
    requires 0.0 <= t <= 1.0
    ensures Power(1.0 - t, n) * (1.0 + (n as real) * t) <= 1.0
    decreases n
  {
    if n > 0 {
      var m := n - 1;
      var P := Power(1.0 - t, m);
      PowerBernoulli(t, m);
      PowerUnit(1.0 - t, m);
      // (1 - t) (1 + n t) = 1 + m t - n t^2 <= 1 + m t
      assert (1.0 - t) * (1.0 + (n as real) * t) == 1.0 + (m as real) * t - (n as real) * t * t;
      assert (n as real) * t * t >= 0.0;
      assert (1.0 - t) * (1.0 + (n as real) * t) <= 1.0 + (m as real) * t;
      calc {
        Power(1.0 - t, n) * (1.0 + (n as real) * t);
        P * ((1.0 - t) * (1.0 + (n as real) * t));
      <= { assert P >= 0.0; }
        P * (1.0 + (m as real) * t);
      <= 1.0;
      }
    }
  }

  /** Repeated steps with a factor in [0,1] never leave the segment from the
      start to the target, and every step is no farther from the target than
      the one before. */
  lemma {:induction false} IterateMonotone(x: real, y: real, t: real, n: nat)
    requires 0.0 <= t <= 1.0
    ensures Between(x, y, Iterate(x, y, t, n))
    ensures Abs(y - Iterate(x, y, t, n + 1)) <= Abs(y - Iterate(x, y, t, n))
  {
    IterateGap(x, y, t, n);
    IterateGap(x, y, t, n + 1);
    PowerUnit(1.0 - t, n);
    GapShrinks(x, y, t, Power(1.0 - t, n), Power(1.0 - t, n + 1),
               Iterate(x, y, t, n), Iterate(x, y, t, n + 1));
  }

  /** The algebra behind IterateMonotone, on plain reals. */
  lemma GapShrinks(x: real, y: real, t: real, P: real, P': real, a: real, b: real)
    requires 0.0 <= P <= 1.0 && 0.0 <= t <= 1.0
    requires P' == (1.0 - t) * P
    requires y - a == P * (y - x)
    requires y - b == P' * (y - x)
    ensures Between(x, y, a)
    ensures Abs(y - b) <= Abs(y - a)
  {
    var d := y - x;
    var g := P * d;
    ScaleWithin(P, d);
    assert y - b == (1.0 - t) * g;
    ScaleWithin(1.0 - t, g);
  }

  /** Scaling by a factor in [0,1] stays between 0 and the scaled value. */
  lemma ScaleWithin(k: real, d: real)
    requires 0.0 <= k <= 1.0
    ensures Between(0.0, d, k * d)
  {
    if d >= 0.0 {
      MulNonneg(k, d);
      MulAtMost(d, k);
    } else {
      var e := -d;
      MulNonneg(k, e);
      MulAtMost(e, k);
      assert k * d == -(e * k);
    }
  }

  /** Convergence: with a positive factor t <= 1, after n steps with
      n t eps >= |y - x| the iterate is within eps of the target. */
  lemma {:induction false} IterateConverges(x: real, y: real, t: real, eps: real, n: nat)
    requires 0.0 < t <= 1.0
    requires eps > 0.0
    requires (n as real) * t * eps >= Abs(y - x)
    ensures Abs(y - Iterate(x, y, t, n)) <= eps
  {
    IterateGap(x, y, t, n);
    PowerBernoulli(t, n);
    PowerUnit(1.0 - t, n);
    GapWithinBound(x, y, eps, Power(1.0 - t, n), 1.0 + (n as real) * t, Iterate(x, y, t, n));
  }

  /** The algebra behind IterateConverges, on plain reals. */
  lemma GapWithinBound(x: real, y: real, eps: real, P: real, k: real, a: real)
    requires 0.0 <= P && eps > 0.0
    requires P * k <= 1.0
    requires Abs(y - x) <= (k - 1.0) * eps
    requires y - a == P * (y - x)
    ensures Abs(y - a) <= eps
  {
    var d := Abs(y - x);
    assert Abs(y - a) == P * d by {
      if y - x < 0.0 {
        assert P * (y - x) == -(P * (x - y));
        MulNonneg(P, x - y);
      } else {
        MulNonneg(P, y - x);
      }
    }
    calc {
      P * d;
    <= { MulLeq(d, (k - 1.0) * eps, P); }
      P * ((k - 1.0) * eps);
    <= { MulLeq((k - 1.0) * eps, k * eps, P); }
      P * (k * eps);
      (P * k) * eps;
    <= { MulLeq(P * k, 1.0, eps); }
      eps;
    }
  }
}
