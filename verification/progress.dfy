/** The per-frame progress update that the foliage and both ornament groups
    run in `useFrame`: the target is 1 while the mode is FORMED and 0
    otherwise, and `progress = lerp(progress, target, delta * speed)` with no
    clamping of `delta * speed`. */
module Progress {
  import opened Interp
  import opened TreeStore

  /** The value the group's progress is pulled toward. */
  function Target(m: Mode): (r: real)
    ensures r == 1.0 <==> m == Formed
    ensures r == 0.0 <==> m == Chaos
  {
    match m
    case Formed => 1.0
    case Chaos => 0.0
  }

  /** One frame of `delta` seconds at the group's `speed`. The blend is convex
      only while `0 <= delta * speed <= 1`; the source does not enforce that. */
  function Step(progress: real, m: Mode, delta: real, speed: real): (r: real)
    ensures delta == 0.0 ==> r == progress
    ensures Target(m) - r == (1.0 - delta * speed) * (Target(m) - progress)
    ensures 0.0 <= delta * speed <= 1.0 ==> Between(progress, Target(m), r)
    ensures 0.0 <= delta * speed <= 1.0 && 0.0 <= progress <= 1.0 ==> 0.0 <= r <= 1.0
  {
    Lerp(progress, Target(m), delta * speed)
  }

  /** A frame with a positive factor of at most 1 moves strictly closer to the target. */
  lemma StepApproaches(progress: real, m: Mode, delta: real, speed: real)
    requires 0.0 < delta * speed <= 1.0
    requires progress != Target(m)
    ensures Abs(Target(m) - Step(progress, m, delta, speed)) < Abs(Target(m) - progress)
  {
    Shrinks(1.0 - delta * speed, Target(m) - progress, Target(m) - Step(progress, m, delta, speed));
  }

  lemma Shrinks(k: real, g: real, g': real)
    requires 0.0 <= k < 1.0 && g != 0.0
    requires g' == k * g
    ensures Abs(g') < Abs(g)
  {
    if g > 0.0 {
      MulNonneg(k, g);
      MulPos(1.0 - k, g);
    } else {
      MulNonneg(k, -g);
      MulPos(1.0 - k, -g);
    }
  }

  /** Without the bound the update overshoots: a 0.5 s frame at the bauble
      speed 2.5 after a switch to CHAOS takes progress from 1 to -0.25. */
  lemma LongFrameOvershoots()
    ensures Step(1.0, Chaos, 0.5, 2.5) == -0.25
  {
  }

  /** Once `delta * speed` exceeds 2 the update diverges: held one-second
      frames at the bauble speed swing progress ever farther from 0. */
  lemma VeryLongFramesDiverge()
    ensures Step(1.0, Chaos, 1.0, 2.5) == -1.5
    ensures Run(1.0, Chaos, 1.0, 2.5, 2) == 2.25
    ensures Abs(Target(Chaos) - Run(1.0, Chaos, 1.0, 2.5, 2)) > Abs(Target(Chaos) - Step(1.0, Chaos, 1.0, 2.5)) > Abs(Target(Chaos) - 1.0)
  {
  }

  /** `n` frames of the same length with the mode held: the step repeated `n` times. */
  function Run(progress: real, m: Mode, delta: real, speed: real, n: nat): real {
    Iterate(progress, Target(m), delta * speed, n)
  }

  /** Run is the step repeated: one more frame is one step followed by the rest. */
  lemma RunUnfolds(progress: real, m: Mode, delta: real, speed: real, n: nat)
    ensures Run(progress, m, delta, speed, 0) == progress
    ensures Run(progress, m, delta, speed, n + 1) == Run(Step(progress, m, delta, speed), m, delta, speed, n)
  {
  }

  /** Held in one mode, progress moves monotonically toward the target and
      never passes it, as long as each frame's factor is in [0,1]. */
  lemma RunMonotone(progress: real, m: Mode, delta: real, speed: real, n: nat)
    requires 0.0 <= delta * speed <= 1.0
    ensures Between(progress, Target(m), Run(progress, m, delta, speed, n))
    ensures Abs(Target(m) - Run(progress, m, delta, speed, n + 1))
         <= Abs(Target(m) - Run(progress, m, delta, speed, n))
  {
    IterateMonotone(progress, Target(m), delta * speed, n);
  }

  /** Held in one mode with a positive factor, progress gets within any
      `eps` of the target: `n` frames suffice once n * delta * speed * eps
      reaches the initial distance. */
  lemma RunConverges(progress: real, m: Mode, delta: real, speed: real, eps: real, n: nat)
    requires 0.0 < delta * speed <= 1.0
    requires eps > 0.0
    requires (n as real) * (delta * speed) * eps >= Abs(Target(m) - progress)
    ensures Abs(Target(m) - Run(progress, m, delta, speed, n)) <= eps
  {
    IterateConverges(progress, Target(m), delta * speed, eps, n);
  }
}
