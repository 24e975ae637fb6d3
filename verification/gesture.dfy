/** One call of `predictWebcam` (useGesture.ts): skip a frame whose video
    timestamp was already processed, otherwise run hand detection, set the
    mode from how far the middle finger reaches relative to the palm, and
    pan the camera 5% of the way toward a target given by the wrist. The
    detector's output and the video's state are inputs of the step. */
module Gesture {
  import opened Interp
  import opened Geometry
  import opened TreeStore

  /** A hand landmark in normalised image coordinates (depth is unused). */
  datatype Landmark = Landmark(x: real, y: real)

  /** MediaPipe's landmark numbering: wrist, index-finger knuckle, middle-finger tip. */
  const Wrist: nat := 0
  const IndexMcp: nat := 5
  const MiddleTip: nat := 12

  /** A hand as the detector reports it: its landmarks in MediaPipe order. */
  predicate IsHand(hand: seq<Landmark>) {
    |hand| > MiddleTip
  }

  /** Squared image-plane distance; `Math.hypot` is its non-negative square root. */
  function Dist2(a: Landmark, b: Landmark): (d: real)
    ensures d >= 0.0
  {
    var dx := a.x - b.x;
    var dy := a.y - b.y;
    SquareNonneg(dx);
    SquareNonneg(dy);
    dx * dx + dy * dy
  }

  /** The open-hand rule on the two distances: CHAOS when the finger reaches
      strictly further than 1.8 palm sizes, FORMED otherwise. */
  function ClassifyDistances(extension: real, palm: real): (m: Mode)
    ensures m == Chaos <==> extension > palm * 1.8
    ensures m == Formed <==> extension <= palm * 1.8
  {
    if extension > palm * 1.8 then Chaos else Formed
  }

  /** The same rule on squared distances, which needs no square root: 1.8^2 = 3.24. */
  function Classify(hand: seq<Landmark>): (m: Mode)
    requires IsHand(hand)
  {
    var palm2 := Dist2(hand[Wrist], hand[IndexMcp]);
    var ext2 := Dist2(hand[Wrist], hand[MiddleTip]);
    if ext2 > 3.24 * palm2 then Chaos else Formed
  }

  /** For non-negative distances, comparing squares decides the same as comparing the distances. */
  lemma SquaredCompare(extension: real, palm: real)
    requires extension >= 0.0 && palm >= 0.0
    ensures extension * extension > 3.24 * (palm * palm) <==> extension > palm * 1.8
  {
    var k := palm * 1.8;
    assert 3.24 * (palm * palm) == k * k;
    if extension > k {
      calc {
        k * k;
      <= { MulLeq(k, extension, k); }
        extension * k;
        extension * extension - (extension - k) * extension;
      < { MulPos(extension - k, extension); }
        extension * extension;
      }
    } else {
      MulLeq(extension, k, extension);
      MulLeq(extension, k, k);
    }
  }

  /** Classify agrees with the rule the source states with `Math.hypot`:
      given the two distances as the non-negative roots of the squared ones. */
  lemma ClassifyMatchesHypot(hand: seq<Landmark>, extension: real, palm: real)
    requires IsHand(hand)
    requires extension >= 0.0 && palm >= 0.0
    requires extension * extension == Dist2(hand[Wrist], hand[MiddleTip])
    requires palm * palm == Dist2(hand[Wrist], hand[IndexMcp])
    ensures Classify(hand) == ClassifyDistances(extension, palm)
  {
    SquaredCompare(extension, palm);
  }

  /** For any real palm size: a finger reaching twice the palm is an open hand,
      one palm length is closed, and exactly 1.8 palm lengths is still closed. */
  lemma ThresholdIsStrict(palm: real)
    requires palm > 0.0
    ensures ClassifyDistances(2.0 * palm, palm) == Chaos
    ensures ClassifyDistances(palm, palm) == Formed
    ensures ClassifyDistances(1.8 * palm, palm) == Formed
  {
  }

  /** The camera's pan target in x, mirrored: `(1 - wrist.x - 0.5) * 50`. */
  function TargetX(wx: real): (tx: real)
    ensures 0.0 <= wx <= 1.0 ==> -25.0 <= tx <= 25.0
    ensures wx == 0.0 ==> tx == 25.0
    ensures wx == 1.0 ==> tx == -25.0
  {
    var handX := 1.0 - wx;
    (handX - 0.5) * 50.0
  }

  /** Mirroring: moving the wrist right in the image moves the target left,
      and symmetric wrist positions give opposite targets. */
  lemma TargetXMirrored(a: real, b: real)
    ensures a <= b ==> TargetX(b) <= TargetX(a)
    ensures TargetX(1.0 - a) == -TargetX(a)
  {
  }

  /** The camera's pan target in y: `4 + (wrist.y - 0.5) * 20`. */
  function TargetY(wy: real): (ty: real)
    ensures 0.0 <= wy <= 1.0 ==> -6.0 <= ty <= 14.0
    ensures wy == 0.5 ==> ty == 4.0
  {
    4.0 + (wy - 0.5) * 20.0
  }

  lemma TargetYMonotone(a: real, b: real)
    requires a <= b
    ensures TargetY(a) <= TargetY(b)
  {
  }

  /** The fixed fraction of the way the camera moves per detection. */
  const PanBlend: real := 0.05

  /** One pan of the camera toward the wrist's target; z is left alone. */
  function PanCamera(cam: Vec3, wrist: Landmark): (c: Vec3)
    ensures c.z == cam.z
    ensures Between(cam.x, TargetX(wrist.x), c.x)
    ensures Between(cam.y, TargetY(wrist.y), c.y)
    ensures TargetX(wrist.x) - c.x == 0.95 * (TargetX(wrist.x) - cam.x)
    ensures TargetY(wrist.y) - c.y == 0.95 * (TargetY(wrist.y) - cam.y)
  {
    Vec3(Lerp(cam.x, TargetX(wrist.x), PanBlend), Lerp(cam.y, TargetY(wrist.y), PanBlend), cam.z)
  }

  /** A camera already at the target stays there. */
  lemma PanFixedPoint(cam: Vec3, wrist: Landmark)
    requires cam.x == TargetX(wrist.x) && cam.y == TargetY(wrist.y)
    ensures PanCamera(cam, wrist) == cam
  {
  }

  /** What the step may read: whether the detector is loaded, the video's
      state, and the hands the detector would report for this frame. */
  datatype Frame = Frame(
    ready: bool,
    paused: bool,
    ended: bool,
    currentTime: real,
    hands: seq<seq<Landmark>>)

  /** The first reported hand, the only one read, carries the landmarks used. */
  predicate WellFormed(f: Frame) {
    |f.hands| > 0 ==> IsHand(f.hands[0])
  }

  /** The video is live and the detector loaded: the guard of the step. */
  predicate Live(f: Frame) {
    f.ready && !f.paused && !f.ended
  }

  /** The state the step reads and writes: the de-duplication timestamp, the
      shared mode store and the camera position. */
  datatype GestureState = GestureState(lastVideoTime: real, store: Store, camera: Vec3)

  /** The camera position the canvas is created with. */
  const StartCamera: Vec3 := Vec3(0.0, 8.0, 30.0)

  function InitialGesture(): (s: GestureState)
    ensures s.lastVideoTime == -1.0
    ensures s.store.mode == Formed
  {
    GestureState(-1.0, Initial(), StartCamera)
  }

  /** The outcome of one step: the new state, whether detection ran, the
      `setMode` calls made in order, and whether the step asked for another frame. */
  datatype StepResult = StepResult(state: GestureState, detected: bool, writes: seq<Mode>, rescheduled: bool)

  /** One call of `predictWebcam`. */
  function PredictWebcam(s: GestureState, f: Frame): (r: StepResult)
    requires WellFormed(f)
    // not live: nothing happens and the loop stops
    ensures !Live(f) ==> r == StepResult(s, false, [], false)
    ensures Live(f) ==> r.rescheduled
    // a frame already seen does nothing
    ensures f.currentTime == s.lastVideoTime ==> r.state == s && !r.detected && r.writes == []
    // a new frame runs detection and records its time
    ensures Live(f) && f.currentTime != s.lastVideoTime ==> r.detected && r.state.lastVideoTime == f.currentTime
    // no hand: neither the mode nor the camera changes
    ensures |f.hands| == 0 ==> r.state.store == s.store && r.state.camera == s.camera && r.writes == []
    // a hand in a processed frame: exactly one write, which decides the mode, and one pan
    ensures r.detected && |f.hands| > 0 ==>
      && |r.writes| == 1
      && r.state.store.mode == r.writes[0]
      && (r.writes[0] == Chaos <==> Dist2(f.hands[0][Wrist], f.hands[0][MiddleTip])
                                     > 3.24 * Dist2(f.hands[0][Wrist], f.hands[0][IndexMcp]))
      && r.state.camera == PanCamera(s.camera, f.hands[0][Wrist])
    ensures !r.detected ==> r.state == s && r.writes == []
  {
    if !Live(f) then
      StepResult(s, false, [], false)
    else if f.currentTime == s.lastVideoTime then
      StepResult(s, false, [], true)
    else
      var stamped := s.(lastVideoTime := f.currentTime);
      if |f.hands| > 0 then
        var hand := f.hands[0];
        var m := Classify(hand);
        StepResult(
          stamped.(store := SetMode(s.store, m), camera := PanCamera(s.camera, hand[Wrist])),
          true, [m], true)
      else
        StepResult(stamped, true, [], true)
  }

  /** Delivering the same frame twice: the second call detects nothing and changes nothing. */
  lemma DuplicateFrameIsNoOp(s: GestureState, f: Frame)
    requires WellFormed(f)
    ensures !PredictWebcam(PredictWebcam(s, f).state, f).detected
    ensures PredictWebcam(PredictWebcam(s, f).state, f).state == PredictWebcam(s, f).state
  {
  }

  /** The first live frame is always processed, since video time is never negative. */
  lemma FirstFrameProcessed(f: Frame)
    requires WellFormed(f)
    requires Live(f) && f.currentTime >= 0.0
    ensures PredictWebcam(InitialGesture(), f).detected
  {
  }
}
