/** The outline of the tree-top star (Star.tsx, `createStarShape`): a path
    that starts at the top point, visits 2 * points vertices alternating
    between the outer and the inner radius at equal angular steps of
    pi / points, and closes. Angles are measured from the upward axis, so a
    vertex is (sin a * r, cos a * r). */
module Star {
  import opened Interp
  import opened Host
  import opened Geometry

  /** The path commands `THREE.Shape` records. */
  datatype PathCommand = MoveTo(x: real, y: real) | LineTo(x: real, y: real) | ClosePath

  /** Even vertices lie on the outer circle, odd ones on the inner. */
  function VertexRadius(outer: real, inner: real, i: nat): real {
    if i % 2 == 0 then outer else inner
  }

  /** The angle of vertex `i`: `i * (pi / points)`. */
  function VertexAngle(points: nat, i: nat): real
    requires points > 0
  {
    (i as real) * (Pi / (points as real))
  }

  /** The `lineTo` of vertex `i`. */
  function Vertex(rt: Runtime, outer: real, inner: real, points: nat, i: nat): (c: PathCommand)
    requires points > 0
    ensures c.LineTo?
  {
    var a := VertexAngle(points, i);
    var r := VertexRadius(outer, inner, i);
    LineTo(rt.sin(a) * r, rt.cos(a) * r)
  }

  /** `createStarShape(outerRadius, innerRadius, points)`. */
  method CreateStarShape(rt: Runtime, outer: real, inner: real, points: nat) returns (path: seq<PathCommand>)
    ensures |path| == 2 * points + 2
    ensures path[0] == MoveTo(0.0, outer)
    ensures path[|path| - 1] == ClosePath
    ensures forall i :: 0 <= i < 2 * points ==> path[i + 1] == Vertex(rt, outer, inner, points, i)
    ensures forall i :: 1 <= i <= 2 * points ==> path[i].LineTo?
  {
    path := [MoveTo(0.0, outer)];
    var i := 0;
    while i < 2 * points
      invariant 0 <= i <= 2 * points
      invariant |path| == i + 1
      invariant path[0] == MoveTo(0.0, outer)
      invariant forall j :: 0 <= j < i ==> path[j + 1] == Vertex(rt, outer, inner, points, j)
    {
      path := path + [Vertex(rt, outer, inner, points, i)];
      i := i + 1;
    }
    path := path + [ClosePath];
    forall i | 1 <= i <= 2 * points
      ensures path[i].LineTo?
    {
      assert path[(i - 1) + 1] == Vertex(rt, outer, inner, points, i - 1);
    }
  }

  /** Every vertex lies on the circle of its radius. */
  lemma VertexOnCircle(rt: Runtime, outer: real, inner: real, points: nat, i: nat)
    requires Lawful(rt)
    requires points > 0
    ensures Vertex(rt, outer, inner, points, i).x * Vertex(rt, outer, inner, points, i).x
          + Vertex(rt, outer, inner, points, i).y * Vertex(rt, outer, inner, points, i).y
         == VertexRadius(outer, inner, i) * VertexRadius(outer, inner, i)
  {
    var a := VertexAngle(points, i);
    var r := VertexRadius(outer, inner, i);
    OnCircle(r, rt.sin(a), rt.cos(a));
  }

  /** Consecutive vertices switch between the two circles. */
  lemma RadiiAlternate(outer: real, inner: real, i: nat)
    ensures VertexRadius(outer, inner, i) == outer ==> VertexRadius(outer, inner, i + 1) == inner
    ensures VertexRadius(outer, inner, i) == inner ==> VertexRadius(outer, inner, i + 1) == outer
    ensures VertexRadius(outer, inner, i + 2) == VertexRadius(outer, inner, i)
  {
  }

  /** Vertex 0 is the start point: sin 0 = 0 and cos 0 = 1 put it at (0, outer). */
  lemma FirstVertexIsStart(rt: Runtime, outer: real, inner: real, points: nat)
    requires Lawful(rt)
    requires points > 0
    ensures Vertex(rt, outer, inner, points, 0) == LineTo(0.0, outer)
  {
    assert VertexAngle(points, 0) == 0.0;
  }

  /** The angles step evenly through one turn: each is pi / points past the
      previous one, all lie in [0, 2 pi), and the step after the last comes back to 2 pi. */
  lemma AnglesCoverOneTurn(points: nat, i: nat)
    requires points > 0
    ensures VertexAngle(points, i + 1) - VertexAngle(points, i) == Pi / (points as real)
    ensures VertexAngle(points, 2 * points) == 2.0 * Pi
    ensures i < 2 * points ==> 0.0 <= VertexAngle(points, i) < 2.0 * Pi
  {
    var p := points as real;
    var step := Pi / p;
    assert step * p == Pi;
    assert step > 0.0;
    assert VertexAngle(points, 2 * points) == (2.0 * p) * step;
    MulNonneg(i as real, step);
    if i < 2 * points {
      calc {
        VertexAngle(points, i);
        (i as real) * step;
        (2.0 * p) * step - (2.0 * p - i as real) * step;
      < { MulPos(2.0 * p - i as real, step); }
        (2.0 * p) * step;
      }
    }
  }

  /** The tree-top star: five points, outer radius 1.2, inner 0.6, so twelve commands. */
  method TreeTopStar(rt: Runtime) returns (path: seq<PathCommand>)
    ensures |path| == 12
    ensures path[0] == MoveTo(0.0, 1.2)
    ensures forall i :: 0 <= i < 10 ==> path[i + 1] == Vertex(rt, 1.2, 0.6, 5, i)
  {
    path := CreateStarShape(rt, 1.2, 0.6, 5);
  }
}
