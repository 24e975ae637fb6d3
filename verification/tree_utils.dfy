/** The distribution generator of treeUtils.ts: for a particle count and a
    group (foliage, gift or bauble) it fills five parallel flat arrays with
    chaos positions, tree positions, colours, per-particle random seeds and
    scales. The random source is explicit: one block of variates per
    particle, in the order the loop body draws them from `Math.random()`. */
module TreeUtils {
  import opened Interp
  import opened Easing
  import opened Geometry
  import opened Host

  datatype Group = Foliage | Gift | Bauble

  const TreeHeight: real := 22.0
  const BaseRadius: real := 8.0
  /** The radius every caller passes to `getChaosPos` (its default of 30 is never used). */
  const ChaosRadius: real := 35.0
  /** The golden-angle step between consecutive particles, in radians. */
  const GoldenAngle: real := 2.39996

  const GiftPalette: seq<string> := ["#D00000", "#FFD700", "#F0EAD6"]
  const BaublePalette: seq<string> := ["#32CD32", "#7CFC00", "#00FF00", "#00FA9A"]
  /** The accent that overrides a bauble's palette colour. */
  const Gold: string := "#FFD700"

  /** A value `Math.random()` can return. */
  predicate Unit(u: real) {
    0.0 <= u < 1.0
  }

  /** How many `Math.random()` values one loop iteration draws, in this order:
      three for `getChaosPos` (azimuth, polar, radius), height, radial offset,
      seed, colour, then for a bauble the gold accent, and for a gift or a
      bauble the scale. */
  function Draws(g: Group): nat {
    match g
    case Foliage => 7
    case Gift => 8
    case Bauble => 9
  }

  /** A well-formed block of variates for one particle of group `g`. */
  predicate WellDrawn(g: Group, d: seq<real>) {
    |d| == Draws(g) && forall k :: 0 <= k < |d| ==> Unit(d[k])
  }

  // ---------------------------------------------------------------------
  // Chaos position (getChaosPos)
  // ---------------------------------------------------------------------

  /** The distance from the centre: `cbrt(w) * radius`. */
  function SampleRadius(rt: Runtime, w: real, radius: real): (r: real)
    requires Lawful(rt)
    ensures Unit(w) && radius > 0.0 ==> 0.0 <= r < radius
  {
    ScaledBelow(rt.cbrt(w), radius);
    rt.cbrt(w) * radius
  }

  /** A fraction in [0,1) of a positive bound stays below the bound. */
  lemma ScaledBelow(c: real, m: real)
    ensures 0.0 <= c < 1.0 && m > 0.0 ==> 0.0 <= c * m < m
  {
    if 0.0 <= c < 1.0 && m > 0.0 {
      MulNonneg(c, m);
      MulPos(1.0 - c, m);
    }
  }

  /** `getChaosPos(radius)` on the variates (u, v, w): azimuth 2 pi u, polar
      angle acos(2v - 1), distance cbrt(w) * radius. */
  function ChaosPos(rt: Runtime, u: real, v: real, w: real, radius: real): (p: Vec3)
    requires Lawful(rt)
    // the point lies on the sphere of the sampled radius
    ensures Norm2(p) == SampleRadius(rt, w, radius) * SampleRadius(rt, w, radius)
  {
    var theta := 2.0 * Pi * u;
    var phi := rt.acos(2.0 * v - 1.0);
    var r := SampleRadius(rt, w, radius);
    SphereNorm(r, rt.sin(phi), rt.cos(phi), rt.cos(theta), rt.sin(theta));
    Vec3(r * rt.sin(phi) * rt.cos(theta), r * rt.sin(phi) * rt.sin(theta), r * rt.cos(phi))
  }

  /** Spherical coordinates with unit direction factors land at squared distance r^2. */
  lemma SphereNorm(r: real, s: real, k: real, c: real, n: real)
    requires s * s + k * k == 1.0
    requires c * c + n * n == 1.0
    ensures (r * s * c) * (r * s * c) + (r * s * n) * (r * s * n) + (r * k) * (r * k) == r * r
  {
    var h := r * s;
    OnCircle(h, c, n);
    OnCircle(r, s, k);
    assert (r * s * c) * (r * s * c) + (r * s * n) * (r * s * n) == h * h;
  }

  /** Every chaos point lies strictly inside the ball of radius `radius`. */
  lemma ChaosInsideBall(rt: Runtime, u: real, v: real, w: real, radius: real)
    requires Lawful(rt)
    requires Unit(w) && radius > 0.0
    ensures Norm2(ChaosPos(rt, u, v, w, radius)) < radius * radius
  {
    var r := SampleRadius(rt, w, radius);
    assert 0.0 <= r < radius;
    SquareLess(r, radius);
  }

  lemma SquareLess(a: real, b: real)
    requires 0.0 <= a < b
    ensures a * a < b * b
  {
    calc {
      a * a;
    <= { MulLeq(a, b, a); }
      b * a;
      b * b - (b - a) * b;
    < { MulPos(b - a, b); }
      b * b;
    }
  }

  // ---------------------------------------------------------------------
  // Tree position
  // ---------------------------------------------------------------------

  /** The normalised height after the group's power curve:
      foliage `u^0.9`, gift `u^2 * 0.85`, bauble `u^2`. */
  function HeightNorm(rt: Runtime, g: Group, u: real): (y: real)
    requires Lawful(rt)
    ensures Unit(u) ==> 0.0 <= y < 1.0
    ensures Unit(u) && g == Gift ==> y < 0.85
  {
    UnitSquare(u);
    match g
    case Foliage => rt.pow(u, 0.9)
    case Gift => u * u * 0.85
    case Bauble => u * u
  }

  lemma UnitSquare(u: real)
    ensures Unit(u) ==> 0.0 <= u * u < 1.0
  {
    if Unit(u) {
      MulNonneg(u, u);
      MulAtMost(u, u);
    }
  }

  /** The height on the tree before droop: [0,1) maps onto [-11, 11). */
  function Height(yNorm: real): (y: real)
    ensures 0.0 <= yNorm < 1.0 ==> -TreeHeight / 2.0 <= y < TreeHeight / 2.0
    ensures 0.0 <= yNorm < 0.85 ==> y < 7.7
  {
    yNorm * TreeHeight - TreeHeight / 2.0
  }

  /** The radius of the cone at that height, shrinking from 8 at the base. */
  function ConeRadius(yNorm: real): (r: real)
    ensures 0.0 <= yNorm < 1.0 ==> 0.0 < r <= BaseRadius
  {
    BaseRadius * (1.0 - yNorm)
  }

  /** The radial jitter: outward by up to 2 for a gift, up to 0.5 either way otherwise. */
  function RadialOffset(g: Group, u: real): (o: real)
    ensures Unit(u) && g == Gift ==> 0.0 <= o < 2.0
    ensures Unit(u) && g != Gift ==> -0.5 <= o < 0.5
  {
    if g == Gift then u * 2.0 else u - 0.5
  }

  /** The final distance from the trunk, never below 0.1. */
  function RingRadius(coneR: real, offset: real): (r: real)
    ensures r >= 0.1 && r >= coneR + offset
    ensures r == 0.1 || r == coneR + offset
  {
    Max(0.1, coneR + offset)
  }

  /** Branch sag `(r / 8)^2 * 3`, growing toward the edge of the canopy. */
  function Droop(r: real): (d: real)
    ensures d >= 0.0
  {
    SquareNonneg(r / BaseRadius);
    (r / BaseRadius) * (r / BaseRadius) * 3.0
  }


  /** The distance from the trunk for the given height and offset variates. */
  function TargetRadius(rt: Runtime, g: Group, uHeight: real, uOffset: real): (r: real)
    requires Lawful(rt)
    ensures r >= 0.1
  {
    RingRadius(ConeRadius(HeightNorm(rt, g, uHeight)), RadialOffset(g, uOffset))
  }

  /** The tree position of particle `i`: on the circle of radius TargetRadius
      at the golden angle `i * 2.39996`, lowered by the droop. */
  function TargetPos(rt: Runtime, g: Group, i: nat, uHeight: real, uOffset: real): (p: Vec3)
    requires Lawful(rt)
    // the droop only ever lowers a particle
    ensures p.y <= Height(HeightNorm(rt, g, uHeight))
    // horizontally the particle sits on the circle of its radius
    ensures p.x * p.x + p.z * p.z == TargetRadius(rt, g, uHeight, uOffset) * TargetRadius(rt, g, uHeight, uOffset)
  {
    var yNorm := HeightNorm(rt, g, uHeight);
    var r := TargetRadius(rt, g, uHeight, uOffset);
    var angle := (i as real) * GoldenAngle;
    OnCircle(r, rt.cos(angle), rt.sin(angle));
    Vec3(rt.cos(angle) * r, Height(yNorm) - Droop(r), rt.sin(angle) * r)
  }

  // ---------------------------------------------------------------------
  // Colour and scale
  // ---------------------------------------------------------------------

  /** `Math.floor(u * n)`: a uniform pick among `n` entries. */
  function PaletteIndex(u: real, n: nat): (k: int)
    ensures Unit(u) && n > 0 ==> 0 <= k < n
  {
    ScaledBelow(u, n as real);
    (u * (n as real)).Floor
  }

  /** The colour choice: foliage a dark green of random lightness, a gift one
      of three hex colours, a bauble one of four greens unless its accent
      variate exceeds 0.6, which makes it gold. */
  function PickSwatch(g: Group, u: real, accent: real): (c: Swatch)
    requires Unit(u)
    ensures g == Foliage ==> c.Hsl? && c.h == 0.4 && c.s == 0.9 && 0.1 <= c.l < 0.3
    ensures g == Gift ==> c.Hex? && c.code in GiftPalette
    ensures g == Bauble ==> c.Hex? && (c.code in BaublePalette || c.code == Gold)
    ensures g == Bauble ==> (c == Hex(Gold) <==> accent > 0.6)
  {
    match g
    case Foliage => Hsl(0.4, 0.9, 0.1 + u * 0.2)
    case Gift => Hex(GiftPalette[PaletteIndex(u, |GiftPalette|)])
    case Bauble =>
      var pick := Hex(BaublePalette[PaletteIndex(u, |BaublePalette|)]);
      if accent > 0.6 then Hex(Gold) else pick
  }

  /** The scale range of each group. */
  predicate ScaleInRange(g: Group, s: real) {
    match g
    case Foliage => s == 1.0
    case Gift => 0.6 <= s < 1.0
    case Bauble => 0.4 <= s < 0.8
  }

  /** Foliage is always 1; a gift `0.6 + u * 0.4`; a bauble `0.4 + u * 0.4`. */
  function PickScale(g: Group, u: real): (s: real)
    ensures g == Foliage ==> s == 1.0
    ensures Unit(u) ==> ScaleInRange(g, s)
  {
    match g
    case Foliage => 1.0
    case Gift => 0.6 + u * 0.4
    case Bauble => 0.4 + u * 0.4
  }

  // ---------------------------------------------------------------------
  // One particle and the whole group
  // ---------------------------------------------------------------------

  datatype Particle = Particle(chaos: Vec3, target: Vec3, seed: real, swatch: Swatch, scale: real)

  /** Loop iteration `i` of generateTreeData on its block `d` of variates. */
  function SampleParticle(rt: Runtime, g: Group, i: nat, d: seq<real>): (p: Particle)
    requires Lawful(rt)
    requires WellDrawn(g, d)
    ensures Unit(p.seed)
    ensures ScaleInRange(g, p.scale)
    ensures Norm2(p.chaos) < ChaosRadius * ChaosRadius
    ensures p.target.y < TreeHeight / 2.0
    ensures g == Gift ==> p.target.y < 7.7
    ensures g == Bauble ==> (p.swatch == Hex(Gold) <==> d[7] > 0.6)
  {
    ChaosInsideBall(rt, d[0], d[1], d[2], ChaosRadius);
    var scaleDraw := if g == Bauble then d[8] else if g == Gift then d[7] else 0.0;
    Particle(
      ChaosPos(rt, d[0], d[1], d[2], ChaosRadius),
      TargetPos(rt, g, i, d[3], d[4]),
      d[5],
      PickSwatch(g, d[6], if g == Bauble then d[7] else 0.0),
      PickScale(g, scaleDraw))
  }

  /** The five flat arrays generateTreeData returns. */
  datatype TreeData = TreeData(
    chaosData: seq<real>,
    targetData: seq<real>,
    colors: seq<real>,
    randoms: seq<real>,
    scales: seq<real>)

  /** Array lengths for `n` particles: 3n, 3n, 3n, n, n. */
  predicate Shaped(data: TreeData, n: nat) {
    && |data.chaosData| == 3 * n
    && |data.targetData| == 3 * n
    && |data.colors| == 3 * n
    && |data.randoms| == n
    && |data.scales| == n
  }

  /** The triple at slot `i` of a flat array of triples. */
  function At(flat: seq<real>, i: nat): Vec3
    requires 3 * i + 3 <= |flat|
  {
    Vec3(flat[3 * i], flat[3 * i + 1], flat[3 * i + 2])
  }

  /** Slot `i` of the arrays holds particle `p`, its colour converted by the host. */
  predicate Holds(rt: Runtime, data: TreeData, i: nat, p: Particle) {
    && 3 * i + 3 <= |data.chaosData| && At(data.chaosData, i) == p.chaos
    && 3 * i + 3 <= |data.targetData| && At(data.targetData, i) == p.target
    && 3 * i + 3 <= |data.colors| && At(data.colors, i) == rt.rgb(p.swatch)
    && i < |data.randoms| && data.randoms[i] == p.seed
    && i < |data.scales| && data.scales[i] == p.scale
  }

  function Flat(v: Vec3): seq<real> {
    [v.x, v.y, v.z]
  }

  /** The arrays after one more iteration has written particle `p`. */
  function Push(rt: Runtime, data: TreeData, p: Particle): TreeData {
    TreeData(
      data.chaosData + Flat(p.chaos),
      data.targetData + Flat(p.target),
      data.colors + Flat(rt.rgb(p.swatch)),
      data.randoms + [p.seed],
      data.scales + [p.scale])
  }

  /** Writing slot `i` leaves the earlier slots as they were. */
  lemma PushKeeps(rt: Runtime, data: TreeData, p: Particle, j: nat, q: Particle)
    requires Holds(rt, data, j, q)
    ensures Holds(rt, Push(rt, data, p), j, q)
  {
    AtAppend(data.chaosData, Flat(p.chaos), j);
    AtAppend(data.targetData, Flat(p.target), j);
    AtAppend(data.colors, Flat(rt.rgb(p.swatch)), j);
  }

  /** Writing slot `i` of arrays shaped for `i` particles stores `p` there. */
  lemma PushStores(rt: Runtime, data: TreeData, i: nat, p: Particle)
    requires Shaped(data, i)
    ensures Shaped(Push(rt, data, p), i + 1)
    ensures Holds(rt, Push(rt, data, p), i, p)
  {
    AtLast(data.chaosData, p.chaos, i);
    AtLast(data.targetData, p.target, i);
    AtLast(data.colors, rt.rgb(p.swatch), i);
  }

  lemma AtAppend(flat: seq<real>, t: seq<real>, i: nat)
    requires 3 * i + 3 <= |flat|
    ensures At(flat + t, i) == At(flat, i)
  {
  }

  lemma AtLast(flat: seq<real>, v: Vec3, i: nat)
    requires |flat| == 3 * i
    ensures At(flat + Flat(v), i) == v
  {
  }

  /** `generateTreeData(count, type)`, with `draws[i]` the variates of iteration `i`. */
  method GenerateTreeData(rt: Runtime, count: nat, g: Group, draws: seq<seq<real>>) returns (data: TreeData)
    requires Lawful(rt)
    requires |draws| == count
    requires forall i :: 0 <= i < count ==> WellDrawn(g, draws[i])
    ensures Shaped(data, count)
    ensures count == 0 ==> data == TreeData([], [], [], [], [])
    ensures forall i :: 0 <= i < count ==> Holds(rt, data, i, SampleParticle(rt, g, i, draws[i]))
    ensures forall i :: 0 <= i < count ==> Unit(data.randoms[i]) && ScaleInRange(g, data.scales[i])
    ensures forall i :: 0 <= i < count ==> Norm2(At(data.chaosData, i)) < ChaosRadius * ChaosRadius
    ensures forall i :: 0 <= i < count ==> data.targetData[3 * i + 1] < TreeHeight / 2.0
  {
    data := TreeData([], [], [], [], []);
    var i := 0;
    while i < count
      invariant 0 <= i <= count
      invariant Shaped(data, i)
      invariant forall j :: 0 <= j < i ==> Holds(rt, data, j, SampleParticle(rt, g, j, draws[j]))
    {
      var p := SampleParticle(rt, g, i, draws[i]);
      forall j | 0 <= j < i
        ensures Holds(rt, Push(rt, data, p), j, SampleParticle(rt, g, j, draws[j]))
      {
        PushKeeps(rt, data, p, j, SampleParticle(rt, g, j, draws[j]));
      }
      PushStores(rt, data, i, p);
      data := Push(rt, data, p);
      i := i + 1;
    }
    forall j | 0 <= j < count
      ensures Unit(data.randoms[j]) && ScaleInRange(g, data.scales[j])
      ensures Norm2(At(data.chaosData, j)) < ChaosRadius * ChaosRadius
      ensures data.targetData[3 * j + 1] < TreeHeight / 2.0
    {
      var p := SampleParticle(rt, g, j, draws[j]);
      assert Holds(rt, data, j, p);
    }
  }
}
