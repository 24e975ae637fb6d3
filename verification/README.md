# Christmas-tree particle installation: the morph core in Dafny

The installation draws a Christmas tree from about twenty thousand particles
that either hang scattered in a ball (mode CHAOS) or assemble into a cone
(mode FORMED). A hand in front of the webcam picks the mode. An open hand
scatters the tree, and a closed hand assembles it. The wrist's position pans
the camera.

This project models the logic beneath the rendering, over Dafny `real`:

- **`TreeStore`** (`tree_store.dfy`): the shared mode cell, with its initial
  value, `setMode` and `toggleMode`.
- **`TreeUtils`** (`tree_utils.dfy`):
  - `generateTreeData`, which fills the five parallel arrays of chaos
    positions, tree positions, colours, seeds and scales;
  - `getChaosPos`.
- **`Interp`** (`interp.dfy`): `MathUtils.lerp` / GLSL `mix`. Repeated
  steps toward a fixed target are worked out in closed form.
- **`Easing`** (`easing.dfy`): `smoothstep` and the shader's cubic `ease`.
- **`Progress`** (`progress.dfy`): the per-frame progress update that every
  particle group runs.
- **`Ornaments`** (`ornaments.dfy`): the staggered placement of gift and
  bauble instances, and how their colours are read.
- **`Foliage`** (`foliage.dfy`): the foliage vertex shader:
  - the eased stagger;
  - the wind that only moves formed points;
  - the visibility fade and the point size.
- **`Gesture`** (`gesture.dfy`): one call of `predictWebcam`:
  - timestamp de-duplication;
  - the open-hand rule;
  - the mirrored pan target and the 5% camera blend.
- **`Experience`** (`experience.dfy`): the camera zoom toward 15 or 45.
- **`Star`** (`star.dfy`): the star outline `createStarShape`.
- **`Geometry`** and **`Host`** (`geometry.dfy`, `host.dfy`): points as
  triples of reals, and the host functions the core calls.

Randomness is an explicit input. Each particle has a block of variates in
[0,1), in the order the loop body calls `Math.random()`:

- three for the chaos point;
- then height, radial offset, seed and colour;
- then, for a bauble, the draw that decides gold;
- then, for a gift or a bauble, the scale.

The transcendental functions (`sin`, `cos`, `acos`, `cbrt`, `pow(u, 0.9)`) and
three.js's colour conversion are fields of a `Host.Runtime` value. The
predicate `Host.Lawful` states the only facts the proofs use about them:

- sine and cosine lie in [-1,1] and their squares sum to 1;
- sin 0 = 0 and cos 0 = 1;
- `cbrt` and `pow(., 0.9)` map [0,1) into [0,1).

`Math.pow(u, 2)` is modelled as `u * u`. GLSL `pow(x, 3.0)` in `ease` is
modelled as the cube.

Behaviour of the program worth knowing:

- The ornaments' factor has no `ease`. Only the foliage shader applies it.
- The progress update can overshoot. A frame with `delta * speed > 1`
  passes the target (`Progress.LongFrameOvershoots`), so every convexity
  fact carries `0 <= delta * speed <= 1` as a precondition. Once
  `delta * speed > 2`, for example one-second bauble frames, repeated frames
  swing ever farther from the target (`Progress.VeryLongFramesDiverge`).
- At progress 1 a foliage point is not exactly at its tree position. Its
  factor is 1 > 0.8, so the wind still moves its x coordinate
  (`Foliage.FormedAtTarget`).
- No file of the application (App.tsx and UI.tsx included) calls
  `toggleMode`, and no pointer-hold handler exists, although UI.tsx:21,25
  advertises "Hold Left Click". The toggle is modelled as the store defines it.
- A count of 0 is not an error. It yields five empty arrays.

## Model

| member | source | states |
|---|---|---|
| TreeStore.Initial | src/features/Tree/Tree.store.ts:10 | the store starts in FORMED |
| TreeStore.SetMode | src/features/Tree/Tree.store.ts:11 | after `setMode(m)` the mode is `m`, whatever it was |
| TreeStore.SetModeIdempotent | src/features/Tree/Tree.store.ts:11 | setting the same mode twice equals setting it once |
| TreeStore.SetModeLastWins | src/features/Tree/Tree.store.ts:11 | of two writes only the last one is observable |
| TreeStore.ToggleMode | src/features/Tree/Tree.store.ts:12 | the toggle always changes the mode: FORMED to CHAOS and CHAOS to FORMED |
| TreeStore.ToggleTwice | src/features/Tree/Tree.store.ts:12 | toggling twice restores the original store |
| TreeStore.ToggleIsSetOpposite | src/features/Tree/Tree.store.ts:11-12 | the toggle is the same as setting the opposite mode |
| Interp.Lerp | src/features/Tree/Ornaments.tsx:39 | the remaining distance shrinks by exactly the factor 1 - t; for t in [0,1] the result lies between start and target; t = 0 and t = 1 give the endpoints |
| Interp.LerpFixesTarget | src/features/Tree/Ornaments.tsx:39 | the target is a fixed point of every step |
| Interp.LerpOvershoots | src/features/Tree/Ornaments.tsx:39 | an unclamped factor above 1 leaves the segment, i.e. overshoots |
| Interp.IterateGap | src/features/Tree/Foliage.tsx:65 | after n equal steps the remaining distance is (1 - t)^n of the initial one |
| Interp.PowerUnit | src/features/Tree/Foliage.tsx:65 | (1 - t)^n stays in [0,1] for t in [0,1] |
| Interp.PowerBernoulli | src/features/Tree/Foliage.tsx:65 | (1 - t)^n (1 + n t) <= 1, the bound behind convergence |
| Interp.IterateMonotone | src/features/Tree/Foliage.tsx:65 | repeated convex steps never leave the segment, and no step ends farther from the target |
| Interp.IterateConverges | src/features/Tree/Foliage.tsx:65 | with n t eps >= the initial distance, n steps end within eps of the target |
| Easing.Clamp01 | src/features/Tree/Ornaments.tsx:112 | the clamp lands in [0,1], keeps values already there, and sends values outside to the nearer end |
| Easing.HermiteUnit | src/features/Tree/Ornaments.tsx:113 | 3x^2 - 2x^3 maps [0,1] into [0,1] and is 0 only at 0 and 1 only at 1 |
| Easing.HermiteMonotone | src/features/Tree/Ornaments.tsx:113 | 3x^2 - 2x^3 is non-decreasing on [0,1] |
| Easing.HermiteSymmetric | src/features/Tree/Ornaments.tsx:113 | the curve is point-symmetric about (1/2, 1/2) |
| Easing.Smoothstep | src/features/Tree/Ornaments.tsx:111-114 | the result is in [0,1]; it is 0 exactly at or below min, and 1 exactly at or above max |
| Easing.SmoothstepMonotone | src/features/Tree/Ornaments.tsx:111-114 | smoothstep is non-decreasing in its value |
| Easing.Ease | src/features/Tree/Foliage.tsx:15-17 | ease maps [0,1] into [0,1] with ease(0) = 0 and ease(1) = 1 |
| Easing.EaseBranchesMeet | src/features/Tree/Foliage.tsx:16 | both branches give 1/2 at t = 1/2, so the curve has no jump |
| Easing.EaseSymmetric | src/features/Tree/Foliage.tsx:15-17 | ease(1 - t) = 1 - ease(t) |
| Easing.EaseMonotone | src/features/Tree/Foliage.tsx:15-17 | ease is non-decreasing on [0,1] |
| Geometry.Mix3 | src/features/Tree/Foliage.tsx:25 | the coordinate-wise blend gives the endpoints at 0 and 1 and stays in the box they span for t in [0,1] |
| Progress.Target | src/features/Tree/Ornaments.tsx:37 | the target is 1 exactly in FORMED and 0 exactly in CHAOS |
| Progress.Step | src/features/Tree/Ornaments.tsx:37-39 | delta = 0 leaves progress unchanged; the gap to the target shrinks by 1 - delta*speed; with 0 <= delta*speed <= 1 the result lies between old progress and target and stays in [0,1] |
| Progress.StepApproaches | src/features/Tree/Ornaments.tsx:39 | a frame with 0 < delta*speed <= 1 ends strictly closer to the target |
| Progress.VeryLongFramesDiverge | src/features/Tree/Ornaments.tsx:38-39 | one-second bauble frames after a switch to CHAOS take progress from 1 to -1.5 and then to 2.25, each farther from 0 |
| Progress.LongFrameOvershoots | src/features/Tree/Ornaments.tsx:38-39 | a 0.5 s bauble frame after a switch to CHAOS takes progress from 1 to -0.25 |
| Progress.RunUnfolds | src/features/Tree/Ornaments.tsx:39 | zero frames leave progress alone, and n + 1 frames are one step followed by n more |
| Progress.RunMonotone | src/features/Tree/Ornaments.tsx:39 | in a held mode with 0 <= delta*speed <= 1, progress moves monotonically toward the target and never passes it |
| Progress.RunConverges | src/features/Tree/Foliage.tsx:65 | in a held mode with 0 < delta*speed <= 1, progress comes within any eps of the target after enough frames |
| TreeUtils.SampleRadius | src/features/Tree/treeUtils.ts:8 | the chaos distance cbrt(w) * radius lies in [0, radius) |
| TreeUtils.ChaosPos | src/features/Tree/treeUtils.ts:3-14 | the chaos point lies on the sphere of the sampled distance |
| TreeUtils.ChaosInsideBall | src/features/Tree/treeUtils.ts:3-14 | every chaos point lies strictly inside the ball of the given radius |
| TreeUtils.HeightNorm | src/features/Tree/treeUtils.ts:32-43 | for every group the reshaped height is in [0,1); for a gift it is below 0.85 |
| TreeUtils.Height | src/features/Tree/treeUtils.ts:45 | heights lie in [-11, 11); a gift's pre-droop height is below 7.7 |
| TreeUtils.ConeRadius | src/features/Tree/treeUtils.ts:46 | the cone radius is in (0, 8] |
| TreeUtils.RadialOffset | src/features/Tree/treeUtils.ts:48 | a gift's offset is in [0,2); any other group's is in [-0.5, 0.5) |
| TreeUtils.RingRadius | src/features/Tree/treeUtils.ts:49 | the final radius is at least 0.1 and at least cone radius plus offset, and equals one of them |
| TreeUtils.Droop | src/features/Tree/treeUtils.ts:54 | the droop is never negative |
| TreeUtils.TargetRadius | src/features/Tree/treeUtils.ts:46-49 | the particle's distance from the trunk is at least 0.1 |
| TreeUtils.TargetPos | src/features/Tree/treeUtils.ts:47-59 | the final height is at most the pre-droop height, and the particle sits on the horizontal circle of its radius |
| TreeUtils.PaletteIndex | src/features/Tree/treeUtils.ts:69 | floor(u * n) is a valid index in [0, n) for u in [0,1) |
| TreeUtils.PickSwatch | src/features/Tree/treeUtils.ts:64-75 | foliage gets HSL (0.4, 0.9, l) with l in [0.1, 0.3); a gift one of its three colours; a bauble one of its four greens or gold, gold exactly when its extra variate exceeds 0.6 |
| TreeUtils.PickScale | src/features/Tree/treeUtils.ts:79-86 | foliage scale is exactly 1, a gift's in [0.6, 1), a bauble's in [0.4, 0.8) |
| TreeUtils.SampleParticle | src/features/Tree/treeUtils.ts:26-86 | one iteration yields a seed in [0,1), a scale in its group's range, a chaos point inside the ball of radius 35, a tree height below 11 (below 7.7 for gifts), and gold baubles exactly when the accent variate exceeds 0.6 |
| TreeUtils.GenerateTreeData | src/features/Tree/treeUtils.ts:16-90 | the arrays have lengths 3n, 3n, 3n, n, n (all empty for n = 0); slot i holds exactly iteration i's particle; every seed is in [0,1) and every scale in range |
| Ornaments.Speed | src/features/Tree/Ornaments.tsx:38 | gifts move at exactly 1.2 and baubles at exactly 2.5 |
| Ornaments.OrnamentFrameConvex | src/features/Tree/Ornaments.tsx:37-39 | frames up to 1/1.2 s for gifts and 0.4 s for baubles never overshoot and keep progress in [0,1] |
| Ornaments.OrnamentFactor | src/features/Tree/Ornaments.tsx:53 | the factor is in [0,1]; it is 1 for every seed once progress reaches 1, and 0 for every seed at progress 0 |
| Ornaments.OrnamentFactorMonotone | src/features/Tree/Ornaments.tsx:53 | the factor never decreases as progress grows |
| Ornaments.OrnamentStagger | src/features/Tree/Ornaments.tsx:53 | an instance with a larger seed is never ahead of one with a smaller seed |
| Ornaments.InstancePose | src/features/Tree/Ornaments.tsx:43-65 | an instance lies in the box between its chaos and tree points; at progress 1 it is at its tree point and at 0 at its chaos point |
| Ornaments.ScaleIndependentOfProgress | src/features/Tree/Ornaments.tsx:65 | an instance's scale is its generated scale, the same at every progress |
| Ornaments.DecorFrame | src/features/Tree/Ornaments.tsx:36-71 | a frame steps progress once and poses every one of the n instances at the new progress |
| Ornaments.InstanceColors | src/features/Tree/Ornaments.tsx:29-31 | instance i reads colour triple i, and all reads are in bounds when 3 * count fits the array |
| Ornaments.ColorReadsInBounds | src/features/Tree/Ornaments.tsx:29-30 | a colour array generated for at least as many particles as instances covers every read |
| Ornaments.ColorBudgets | src/features/Tree/Ornaments.tsx:100-106 | 180 gifts read from 400 generated colours, 200 baubles from 2000 |
| Foliage.FoliageFactor | src/features/Tree/Foliage.tsx:22-23 | the eased factor is in [0,1]; it is 1 for every seed at progress 1 and 0 at progress 0 |
| Foliage.FoliageFactorMonotone | src/features/Tree/Foliage.tsx:22-23 | the eased factor never decreases as progress grows |
| Foliage.FoliageStagger | src/features/Tree/Foliage.tsx:22-23 | a point with a larger seed is never further along |
| Foliage.Wind | src/features/Tree/Foliage.tsx:29 | the sway is at most 0.005 times the height above y = -10 |
| Foliage.FoliageVertex | src/features/Tree/Foliage.tsx:25-31 | the wind changes only x, only when the factor exceeds 0.8, and by at most the sway bound |
| Foliage.ScatteredAtChaos | src/features/Tree/Foliage.tsx:22-31 | at progress 0 every point is at its chaos position |
| Foliage.FormedAtTarget | src/features/Tree/Foliage.tsx:22-31 | at progress 1 every point is at its tree position, shifted on x by the wind |
| Foliage.Visibility | src/features/Tree/Foliage.tsx:38 | visibility is in [0,1], 0 exactly for progress <= 0 and 1 exactly for progress >= 0.3 |
| Foliage.VisibilityMonotone | src/features/Tree/Foliage.tsx:38 | visibility grows with progress |
| Foliage.PointSize | src/features/Tree/Foliage.tsx:40 | points have size 0 at progress <= 0, and positive size in front of the camera otherwise |
| Foliage.PointSizeMonotone | src/features/Tree/Foliage.tsx:38-40 | for a point in front of the camera, the size never shrinks as progress grows |
| Foliage.FoliageData | src/features/Tree/Foliage.tsx:57-58 | the buffers hold 20000 particles, slot i holding particle i's sample, every seed in [0,1) and every chaos point inside the ball |
| Foliage.FoliageFrameConvex | src/features/Tree/Foliage.tsx:63-65 | at rate 2, frames up to 0.5 s are convex and keep progress in [0,1] |
| Gesture.Dist2 | src/features/Gesture/useGesture.ts:77 | the squared landmark distance is never negative |
| Gesture.ClassifyDistances | src/features/Gesture/useGesture.ts:82-86 | CHAOS exactly when the extension exceeds 1.8 palm sizes, FORMED otherwise |
| Gesture.SquaredCompare | src/features/Gesture/useGesture.ts:77-82 | for non-negative distances, ext^2 > 3.24 palm^2 exactly when ext > 1.8 palm |
| Gesture.ClassifyMatchesHypot | src/features/Gesture/useGesture.ts:77-86 | the squared-distance rule decides the same mode as the rule on hypot distances |
| Gesture.ThresholdIsStrict | src/features/Gesture/useGesture.ts:82 | 2x the palm is CHAOS, 1x is FORMED, and exactly 1.8x is FORMED |
| Gesture.TargetX | src/features/Gesture/useGesture.ts:89-95 | for wrist x in [0,1] the target is in [-25, 25], +25 at wrist x = 0 and -25 at 1 |
| Gesture.TargetXMirrored | src/features/Gesture/useGesture.ts:89-95 | the x target decreases as the wrist moves right, and mirrored wrists give opposite targets |
| Gesture.TargetY | src/features/Gesture/useGesture.ts:90-98 | for wrist y in [0,1] the target is in [-6, 14], and the middle of the image maps to 4 |
| Gesture.TargetYMonotone | src/features/Gesture/useGesture.ts:90-98 | the y target increases with wrist y |
| Gesture.PanCamera | src/features/Gesture/useGesture.ts:101-102 | x and y move 5% of the way to their targets and stay between old value and target; z is untouched |
| Gesture.PanFixedPoint | src/features/Gesture/useGesture.ts:101-102 | a camera already at the target stays there |
| Gesture.InitialGesture | src/features/Gesture/useGesture.ts:11 | the de-duplication time starts at -1 and the mode at FORMED |
| Gesture.PredictWebcam | src/features/Gesture/useGesture.ts:62-110 | the step does nothing when the video is not live. It skips a frame already seen. A new frame is detected and time-stamped. No hand changes neither mode nor camera. A hand gives exactly one mode write, CHAOS iff ext^2 > 3.24 palm^2, plus one pan |
| Gesture.DuplicateFrameIsNoOp | src/features/Gesture/useGesture.ts:68-69 | delivering the same frame again detects nothing and changes nothing |
| Gesture.FirstFrameProcessed | src/features/Gesture/useGesture.ts:11 | the first live frame is always processed because video time is never negative |
| Experience.TargetZ | src/scene/Experience.tsx:21 | the target distance is 15 exactly in CHAOS and 45 exactly in FORMED |
| Experience.ZoomStep | src/scene/Experience.tsx:24 | only z changes. delta = 0 leaves the camera unchanged. With 0 <= 1.5 delta <= 1, z lands between old z and target. The gap shrinks by exactly 1 - 1.5 delta |
| Experience.ZoomFixedPoint | src/scene/Experience.tsx:24 | a camera at the target distance stays there |
| Experience.ZoomIsIterate | src/scene/Experience.tsx:24 | equal frames in a held mode are repeated interpolation of z toward the target, with x and y fixed |
| Experience.ZoomApproaches | src/scene/Experience.tsx:24 | in a held mode with short frames z never passes the target, and each frame ends no farther from it |
| Experience.ZoomAndPanCommute | src/scene/Experience.tsx:24 | zoom and hand pan write disjoint coordinates, so their order does not matter |
| Star.CreateStarShape | src/features/Tree/Star.tsx:7-22 | the path is one moveTo(0, outer), then exactly 2·points vertices with vertex i at angle i·pi/points, then a close |
| Star.VertexOnCircle | src/features/Tree/Star.tsx:15-18 | each vertex lies on the circle of its radius |
| Star.RadiiAlternate | src/features/Tree/Star.tsx:15 | consecutive vertices alternate between outer and inner radius |
| Star.FirstVertexIsStart | src/features/Tree/Star.tsx:12-18 | vertex 0 coincides with the start point (0, outer) |
| Star.AnglesCoverOneTurn | src/features/Tree/Star.tsx:9-16 | angles advance by pi/points, stay in [0, 2 pi), and the step after the last one reaches 2 pi |
| Star.TreeTopStar | src/features/Tree/Star.tsx:30 | the tree-top star (5 points, radii 1.2 and 0.6) has 12 path commands |

## Left out

- Float32 storage: the arrays are `Float32Array`, and rounding to single precision is not modelled. In particular, a `Math.random()` value just below 1 can round up to 1.0.
- Exact transcendental values (`sin`, `cos`, `acos`, `cbrt`, `pow(u, 0.9)`, `hypot`): they are host functions constrained only by `Host.Lawful`.
- Statistical properties: the uniformity of chaos points in the ball, the golden-angle spread, and palette frequencies.
- Rendering:
  - rotations and instance matrices (`Object3D`, `setColorAt`, `instanceMatrix`);
  - materials, lights and post-processing;
  - `ExtrudeGeometry`;
  - the fragment shader;
  - `camera.lookAt`;
  - `OrbitControls`, which also moves the camera.
- Colour conversion: three.js's HSL/hex to RGB conversion is the host function `rgb`.
- MediaPipe: model loading and `detectForVideo`. The detector's hands are an input of the step.
- Browser plumbing: `getUserMedia`, the video element, teardown, and the `requestAnimationFrame` scheduling (only the request is recorded, as `rescheduled`).
- Loop interleaving: the interleaving of the render loop with the detection loop is not modelled. Each step is modelled alone against a shared store.
- The UI overlay and the application shell: they hold no logic.
- Progress.Step: the convexity and range facts hold only under 0 <= delta * speed <= 1, which the source never enforces; without it the step overshoots (`Progress.LongFrameOvershoots`).
- Easing.Smoothstep: requires min < max. With min = max the source divides by zero.
- Easing.Ease: GLSL `pow` is undefined for a negative base, i.e. for t > 1. The model uses the cube, and the shader only ever passes a clamped factor.
- Foliage.PointSize: requires a view depth other than 0, where the shader divides by zero.
- Star.CreateStarShape: `points` is a natural number. A fractional `points` in the source would run the loop ceil(2·points) times.
- Gesture.PredictWebcam: requires the first reported hand to have the 13 landmarks it reads. MediaPipe always reports 21.
- Gesture.PredictWebcam: timestamps are compared as reals; `NaN` times are not modelled.
- TreeUtils.SampleParticle: requires `Host.Lawful` and a well-formed block of variates, which the model takes as the host's and `Math.random()`'s guarantees.
