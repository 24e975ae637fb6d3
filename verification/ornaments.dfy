/** The instanced gifts and baubles (Ornaments.tsx): each frame the group's
    progress takes one step toward the mode's target, and every instance is
    placed between its chaos point and its tree point by a staggered
    factor `smoothstep(0, 1, 1.2 progress - 0.2 rnd)`. */
module Ornaments {
  import opened Interp
  import opened Easing
  import opened Geometry
  import opened TreeStore
  import opened Progress
  import opened TreeUtils

  const GiftSpeed: real := 1.2
  const BaubleSpeed: real := 2.5

  /** Instances drawn per group, and the particle counts their colour arrays are generated for. */
  const GiftInstances: nat := 180
  const BaubleInstances: nat := 200
  const GiftColorCount: nat := 400
  const BaubleColorCount: nat := 2000

  /** The progress rate of an ornament group (gifts or baubles; the foliage has its own): gifts 1.2, baubles 2.5. */
  function Speed(g: Group): (s: real)
    requires g != Foliage
    ensures s > 0.0
    ensures g == Gift <==> s == GiftSpeed
    ensures g == Bauble ==> s == BaubleSpeed
  {
    if g == Gift then GiftSpeed else BaubleSpeed
  }

  /** A frame converges without overshoot exactly when `delta * speed <= 1`:
      for gifts up to 1/1.2 s, for baubles up to 0.4 s. */
  lemma OrnamentFrameConvex(g: Group, progress: real, m: Mode, delta: real)
    requires g != Foliage
    requires 0.0 <= delta
    requires g == Gift ==> delta * 1.2 <= 1.0
    requires g == Bauble ==> delta <= 0.4
    requires 0.0 <= progress <= 1.0
    ensures Between(progress, Target(m), Step(progress, m, delta, Speed(g)))
    ensures 0.0 <= Step(progress, m, delta, Speed(g)) <= 1.0
  {
    MulNonneg(delta, Speed(g));
  }

  /** The staggered morph factor of an instance with seed `rnd`. */
  function OrnamentFactor(progress: real, rnd: real): (p: real)
    ensures 0.0 <= p <= 1.0
    // fully formed: every instance has arrived once progress reaches 1
    ensures progress >= 1.0 && Unit(rnd) ==> p == 1.0
    // fully scattered: no instance has left its chaos point while progress is 0
    ensures progress <= 0.0 && rnd >= 0.0 ==> p == 0.0
  {
    Smoothstep(0.0, 1.0, progress * 1.2 - rnd * 0.2)
  }

  /** The factor never decreases as progress grows. */
  lemma OrnamentFactorMonotone(a: real, b: real, rnd: real)
    requires a <= b
    ensures OrnamentFactor(a, rnd) <= OrnamentFactor(b, rnd)
  {
    SmoothstepMonotone(0.0, 1.0, a * 1.2 - rnd * 0.2, b * 1.2 - rnd * 0.2);
  }

  /** The stagger: an instance with a larger seed is never ahead of one with a smaller seed. */
  lemma OrnamentStagger(progress: real, r1: real, r2: real)
    requires r1 <= r2
    ensures OrnamentFactor(progress, r2) <= OrnamentFactor(progress, r1)
  {
    SmoothstepMonotone(0.0, 1.0, progress * 1.2 - r2 * 0.2, progress * 1.2 - r1 * 0.2);
  }

  /** Where an instance is drawn and how large. Rotation is not modelled. */
  datatype Pose = Pose(position: Vec3, scale: real)

  /** The pose of instance `i` at the given progress. */
  function InstancePose(data: TreeData, n: nat, i: nat, progress: real): (pose: Pose)
    requires Shaped(data, n) && i < n
    ensures Within(At(data.chaosData, i), At(data.targetData, i), pose.position)
    ensures progress >= 1.0 && Unit(data.randoms[i]) ==> pose.position == At(data.targetData, i)
    ensures progress <= 0.0 && data.randoms[i] >= 0.0 ==> pose.position == At(data.chaosData, i)
  {
    var p := OrnamentFactor(progress, data.randoms[i]);
    Pose(Mix3(At(data.chaosData, i), At(data.targetData, i), p), data.scales[i])
  }

  /** The instance keeps its generated size through the whole morph. */
  lemma ScaleIndependentOfProgress(data: TreeData, n: nat, i: nat, p1: real, p2: real)
    requires Shaped(data, n) && i < n
    ensures InstancePose(data, n, i, p1).scale == data.scales[i]
    ensures InstancePose(data, n, i, p1).scale == InstancePose(data, n, i, p2).scale
  {
  }

  /** One `useFrame` of an ornament group: step the progress, then pose all `n` instances. */
  method DecorFrame(g: Group, data: TreeData, n: nat, progress: real, m: Mode, delta: real)
    returns (progress': real, poses: seq<Pose>)
    requires g != Foliage
    requires Shaped(data, n)
    ensures progress' == Step(progress, m, delta, Speed(g))
    ensures |poses| == n
    ensures forall i :: 0 <= i < n ==> poses[i] == InstancePose(data, n, i, progress')
    ensures forall i :: 0 <= i < n ==> poses[i].scale == data.scales[i]
    ensures forall i :: 0 <= i < n ==>
      Within(At(data.chaosData, i), At(data.targetData, i), poses[i].position)
  {
    progress' := Step(progress, m, delta, Speed(g));
    poses := [];
    var i := 0;
    while i < n
      invariant 0 <= i <= n
      invariant |poses| == i
      invariant forall j :: 0 <= j < i ==> poses[j] == InstancePose(data, n, j, progress')
    {
      poses := poses + [InstancePose(data, n, i, progress')];
      i := i + 1;
    }
  }

  /** The colours of the first `count` instances, read three floats at a time. */
  method InstanceColors(colors: seq<real>, count: nat) returns (rgb: seq<Vec3>)
    requires 3 * count <= |colors|
    ensures |rgb| == count
    ensures forall i :: 0 <= i < count ==> rgb[i] == At(colors, i)
  {
    rgb := [];
    var i := 0;
    while i < count
      invariant 0 <= i <= count
      invariant |rgb| == i
      invariant forall j :: 0 <= j < i ==> rgb[j] == At(colors, j)
    {
      rgb := rgb + [At(colors, i)];
      i := i + 1;
    }
  }

  /** A colour array generated for `generated` particles covers `used` instances
      whenever used <= generated, which is what InstanceColors requires. */
  lemma ColorReadsInBounds(data: TreeData, generated: nat, used: nat)
    requires Shaped(data, generated)
    requires used <= generated
    ensures 3 * used <= |data.colors|
  {
  }

  /** Both groups draw fewer instances than they have colours for. */
  lemma ColorBudgets()
    ensures GiftInstances <= GiftColorCount
    ensures BaubleInstances <= BaubleColorCount
    ensures 3 * GiftInstances <= 3 * GiftColorCount
    ensures 3 * BaubleInstances <= 3 * BaubleColorCount
  {
  }
}
