/** The foliage point cloud (Foliage.tsx): 20000 points whose vertex shader
    mixes each point from its chaos position toward its tree position by an
    eased, staggered factor, sways the formed points in the wind, and
    shrinks every point to nothing as the uniform progress falls to 0. The
    host's `sin` stands for GLSL's. */
module Foliage {
  import opened Interp
  import opened Easing
  import opened Geometry
  import opened Host
  import opened TreeStore
  import opened Progress
  import opened TreeUtils

  const FoliageCount: nat := 20000
  const FoliageSpeed: real := 2.0
  /** Above this morph factor a point is considered formed and sways. */
  const WindGate: real := 0.8

  /** The vertex shader's factor: `ease(clamp(smoothstep(0, 1, 1.5 progress - 0.5 rnd), 0, 1))`. */
  function FoliageFactor(progress: real, rnd: real): (p: real)
    ensures 0.0 <= p <= 1.0
    ensures progress >= 1.0 && Unit(rnd) ==> p == 1.0
    ensures progress <= 0.0 && rnd >= 0.0 ==> p == 0.0
  {
    Ease(Clamp01(Smoothstep(0.0, 1.0, progress * 1.5 - rnd * 0.5)))
  }

  /** The factor never decreases as progress grows. */
  lemma FoliageFactorMonotone(a: real, b: real, rnd: real)
    requires a <= b
    ensures FoliageFactor(a, rnd) <= FoliageFactor(b, rnd)
  {
    SmoothstepMonotone(0.0, 1.0, a * 1.5 - rnd * 0.5, b * 1.5 - rnd * 0.5);
    EaseMonotone(Smoothstep(0.0, 1.0, a * 1.5 - rnd * 0.5), Smoothstep(0.0, 1.0, b * 1.5 - rnd * 0.5));
  }

  /** A point with a larger seed is never further along than one with a smaller seed. */
  lemma FoliageStagger(progress: real, r1: real, r2: real)
    requires r1 <= r2
    ensures FoliageFactor(progress, r2) <= FoliageFactor(progress, r1)
  {
    SmoothstepMonotone(0.0, 1.0, progress * 1.5 - r2 * 0.5, progress * 1.5 - r1 * 0.5);
    EaseMonotone(Smoothstep(0.0, 1.0, progress * 1.5 - r2 * 0.5), Smoothstep(0.0, 1.0, progress * 1.5 - r1 * 0.5));
  }

  /** The wind offset at height `y` and time `time`: `sin(1.5 time + 0.5 y) * 0.1 * (y + 10) * 0.05`.
      Its size is at most 0.005 |y + 10|, so it vanishes at the tree's foot (y = -10). */
  function Wind(rt: Runtime, time: real, y: real): (w: real)
    requires Lawful(rt)
    ensures Abs(w) <= 0.005 * Abs(y + 10.0)
  {
    var s := rt.sin(time * 1.5 + y * 0.5);
    SwayBound(s, y + 10.0);
    s * 0.1 * (y + 10.0) * 0.05
  }

  lemma SwayBound(s: real, h: real)
    requires -1.0 <= s <= 1.0
    ensures Abs(s * 0.1 * h * 0.05) <= 0.005 * Abs(h)
  {
    var x := s * h;
    assert s * 0.1 * h * 0.05 == 0.005 * x;
    if h >= 0.0 {
      UnitScale(s, h);
    } else {
      UnitScale(s, -h);
      assert s * (-h) == -x;
    }
  }

  lemma UnitScale(s: real, a: real)
    requires -1.0 <= s <= 1.0 && a >= 0.0
    ensures -a <= s * a <= a
  {
    MulLeq(s, 1.0, a);
    MulLeq(-1.0, s, a);
  }

  /** The vertex shader's position: the mix, plus the wind on x once the factor passes 0.8. */
  function FoliageVertex(rt: Runtime, chaos: Vec3, target: Vec3, rnd: real, progress: real, time: real): (v: Vec3)
    requires Lawful(rt)
    // the wind moves only x, and only for formed points
    ensures v.y == Mix3(chaos, target, FoliageFactor(progress, rnd)).y
    ensures v.z == Mix3(chaos, target, FoliageFactor(progress, rnd)).z
    ensures FoliageFactor(progress, rnd) <= WindGate ==> v == Mix3(chaos, target, FoliageFactor(progress, rnd))
    ensures Abs(v.x - Mix3(chaos, target, FoliageFactor(progress, rnd)).x) <= 0.005 * Abs(v.y + 10.0)
  {
    var p := FoliageFactor(progress, rnd);
    var pos := Mix3(chaos, target, p);
    if p > WindGate then pos.(x := pos.x + Wind(rt, time, pos.y)) else pos
  }

  /** With progress at 0 every point sits still at its chaos position. */
  lemma ScatteredAtChaos(rt: Runtime, chaos: Vec3, target: Vec3, rnd: real, time: real)
    requires Lawful(rt)
    requires rnd >= 0.0
    ensures FoliageVertex(rt, chaos, target, rnd, 0.0, time) == chaos
  {
  }

  /** With progress at 1 every point is at its tree position, up to the wind on x. */
  lemma FormedAtTarget(rt: Runtime, chaos: Vec3, target: Vec3, rnd: real, time: real)
    requires Lawful(rt)
    requires Unit(rnd)
    ensures FoliageVertex(rt, chaos, target, rnd, 1.0, time)
         == target.(x := target.x + Wind(rt, time, target.y))
  {
  }

  /** `smoothstep(0, 0.3, progress)`: the points' size factor. */
  function Visibility(progress: real): (vis: real)
    ensures 0.0 <= vis <= 1.0
    ensures vis == 0.0 <==> progress <= 0.0
    ensures vis == 1.0 <==> progress >= 0.3
  {
    Smoothstep(0.0, 0.3, progress)
  }

  /** Visibility grows with progress. */
  lemma VisibilityMonotone(a: real, b: real)
    requires a <= b
    ensures Visibility(a) <= Visibility(b)
  {
    SmoothstepMonotone(0.0, 0.3, a, b);
  }

  /** `gl_PointSize = (60 rnd + 20) * (1 / -z) * visibility` for view-space depth `z`. */
  function PointSize(rnd: real, viewZ: real, progress: real): (size: real)
    requires viewZ != 0.0
    ensures progress <= 0.0 ==> size == 0.0
    ensures Unit(rnd) && viewZ < 0.0 ==> size >= 0.0
    ensures Unit(rnd) && viewZ < 0.0 && progress > 0.0 ==> size > 0.0
  {
    var base := 60.0 * rnd + 20.0;
    SizePositive(base, 1.0 / -viewZ, Visibility(progress));
    base * (1.0 / -viewZ) * Visibility(progress)
  }

  lemma SizePositive(a: real, b: real, c: real)
    ensures a > 0.0 && b > 0.0 && c >= 0.0 ==> a * b * c >= 0.0
    ensures a > 0.0 && b > 0.0 && c > 0.0 ==> a * b * c > 0.0
    ensures c == 0.0 ==> a * b * c == 0.0
  {
    if a > 0.0 && b > 0.0 && c >= 0.0 {
      MulNonneg3(a, b, c);
      if c > 0.0 {
        MulPos3(a, b, c);
      }
    }
  }

  /** Closer to the formed tree, a point in front of the camera is never smaller. */
  lemma PointSizeMonotone(rnd: real, viewZ: real, a: real, b: real)
    requires Unit(rnd) && viewZ < 0.0
    requires a <= b
    ensures PointSize(rnd, viewZ, a) <= PointSize(rnd, viewZ, b)
  {
    var k := (60.0 * rnd + 20.0) * (1.0 / -viewZ);
    MulPos(60.0 * rnd + 20.0, 1.0 / -viewZ);
    VisibilityMonotone(a, b);
    ScaledMonotone(k, Visibility(a), Visibility(b), PointSize(rnd, viewZ, a), PointSize(rnd, viewZ, b));
  }

  lemma ScaledMonotone(k: real, va: real, vb: real, sa: real, sb: real)
    requires k > 0.0 && va <= vb
    requires sa == k * va && sb == k * vb
    ensures sa <= sb
  {
    MulLeq(va, vb, k);
  }

  /** The point cloud's buffers: one generator run of 20000 foliage particles,
      each sitting strictly inside the chaos ball and below the tree's top. */
  method FoliageData(rt: Runtime, draws: seq<seq<real>>) returns (data: TreeData)
    requires Lawful(rt)
    requires |draws| == FoliageCount
    requires forall i :: 0 <= i < FoliageCount ==> WellDrawn(Foliage, draws[i])
    ensures Shaped(data, FoliageCount)
    ensures forall i :: 0 <= i < FoliageCount ==> Holds(rt, data, i, SampleParticle(rt, Foliage, i, draws[i]))
    ensures forall i :: 0 <= i < FoliageCount ==> Unit(data.randoms[i])
    ensures forall i :: 0 <= i < FoliageCount ==> Norm2(At(data.chaosData, i)) < ChaosRadius * ChaosRadius
  {
    data := GenerateTreeData(rt, FoliageCount, Foliage, draws);
  }

  /** The foliage's frame step at rate 2: convex, and kept in [0,1], for frames up to half a second. */
  lemma FoliageFrameConvex(progress: real, m: Mode, delta: real)
    requires 0.0 <= delta <= 0.5
    requires 0.0 <= progress <= 1.0
    ensures Between(progress, Target(m), Step(progress, m, delta, FoliageSpeed))
    ensures 0.0 <= Step(progress, m, delta, FoliageSpeed) <= 1.0
  {
  }
}
