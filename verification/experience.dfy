/** The camera zoom of the scene (Experience.tsx): every frame the camera's
    z moves toward 15 in CHAOS (close up among the scattered particles) or 45
    in FORMED (the whole tree), at rate 1.5 per second of frame time. */
module Experience {
  import opened Interp
  import opened Geometry
  import opened TreeStore
  import opened Gesture

  const ZoomSpeed: real := 1.5

  /** The camera distance the mode asks for. */
  function TargetZ(m: Mode): (z: real)
    ensures z == 15.0 <==> m == Chaos
    ensures z == 45.0 <==> m == Formed
  {
    match m
    case Chaos => 15.0
    case Formed => 45.0
  }

  /** One frame of the zoom: only z changes. */
  function ZoomStep(cam: Vec3, m: Mode, delta: real): (c: Vec3)
    ensures c.x == cam.x && c.y == cam.y
    ensures delta == 0.0 ==> c == cam
    ensures 0.0 <= delta * ZoomSpeed <= 1.0 ==> Between(cam.z, TargetZ(m), c.z)
    ensures TargetZ(m) - c.z == (1.0 - delta * ZoomSpeed) * (TargetZ(m) - cam.z)
  {
    cam.(z := Lerp(cam.z, TargetZ(m), delta * ZoomSpeed))
  }

  /** A camera already at the mode's distance stays there, whatever the frame time. */
  lemma ZoomFixedPoint(cam: Vec3, m: Mode, delta: real)
    requires cam.z == TargetZ(m)
    ensures ZoomStep(cam, m, delta) == cam
  {
  }

  /** With frames of equal length and the mode held, the zoom is the repeated
      interpolation toward the mode's distance. */
  function Zoom(cam: Vec3, m: Mode, delta: real, n: nat): Vec3
    decreases n
  {
    if n == 0 then cam else Zoom(ZoomStep(cam, m, delta), m, delta, n - 1)
  }

  lemma {:induction false} ZoomIsIterate(cam: Vec3, m: Mode, delta: real, n: nat)
    ensures Zoom(cam, m, delta, n).z == Iterate(cam.z, TargetZ(m), delta * ZoomSpeed, n)
    ensures Zoom(cam, m, delta, n).x == cam.x && Zoom(cam, m, delta, n).y == cam.y
    decreases n
  {
    if n > 0 {
      ZoomIsIterate(ZoomStep(cam, m, delta), m, delta, n - 1);
    }
  }

  /** Held in one mode with short frames, the camera never passes the mode's
      distance and every frame ends no farther from it. */
  lemma ZoomApproaches(cam: Vec3, m: Mode, delta: real, n: nat)
    requires 0.0 <= delta * ZoomSpeed <= 1.0
    ensures Between(cam.z, TargetZ(m), Zoom(cam, m, delta, n).z)
    ensures Abs(TargetZ(m) - Zoom(cam, m, delta, n + 1).z) <= Abs(TargetZ(m) - Zoom(cam, m, delta, n).z)
  {
    ZoomIsIterate(cam, m, delta, n);
    ZoomIsIterate(cam, m, delta, n + 1);
    IterateMonotone(cam.z, TargetZ(m), delta * ZoomSpeed, n);
  }

  /** The zoom writes only z and the hand pan only x and y, so the render
      loop and the detection loop may run in either order. */
  lemma ZoomAndPanCommute(cam: Vec3, m: Mode, delta: real, wrist: Landmark)
    ensures PanCamera(ZoomStep(cam, m, delta), wrist) == ZoomStep(PanCamera(cam, wrist), m, delta)
  {
  }
}
