# sword-visual in Dafny

A model of the two pieces of sword-visual that hold real logic:

- **Gesture classification** (`services/gestureLogic.ts`). A MediaPipe hand has 21 landmarks. `analyzeGesture` measures the x/y distance from the wrist to the four fingertips. It returns POINTING when the index finger is isolated, then FIST when the average is below 0.12, then OPEN_PALM when the average is above 0.25, and IDLE otherwise. `getPalmCenter` averages the wrist and the index and pinky knuckles. `getPointingDirection` is the wrist-to-index-tip vector with y negated.
- **The sword swarm** (`components/Experience.tsx`). Three parallel arrays hold every sword's position, velocity and target. They are filled at start-up with random positions. Each animation frame then does the following for each sword:
  - picks a target from the detected hands: idle orbit, two-fist convergence, beam, defensive circle, pointing ray or relaxed orbit;
  - takes one spring-damper step toward that target (spring 0.06, damping 0.85);
  - chooses the direction the sword faces.

  The frame also moves the point light to follow the primary hand.

  As written, the frame closure only ever sees the hand list of the render that started the animation, which is empty. So every frame takes the idle orbit and the light stays put. See "## Findings". The model keeps both: `Swarm.Animate` is the frame as written, and `Swarm.Step` is the frame with the current hands.

The proofs verify with `dafny verify *.dfy` under Dafny's default options. They also stay within a resource limit of 2000000 per proof (`--resource-limit 2000000 --verification-time-limit 0`).

Modules:

- `Platform` (platform.dfy) carries the parts of the JavaScript `Math` object that are used.
  - `sin`, `cos` and `sqrt` are function-valued fields of `MathLib`. `sin` and `cos` return values in [-1, 1].
  - `Math.random` becomes a `Draws` parameter: `draws(i, k)` is the k-th value in [0, 1) drawn for sword `i`.
  - Results that need sin² + cos² = 1 or a true square root take it as a `requires` (`Pythagorean`, `IsSqrt`).
- `Vectors` (vectors.dfy) holds the `THREE.Vector3` operations that are used, over `real`.
- `Types` (types.dfy) holds `GestureType` and `HandData`.
- `GestureLogic` (gesture_logic.dfy) holds the classifier and the landmark geometry, as pure functions.
- `SwordTargets` (sword_targets.dfy) holds the hand and light projections, each behaviour's target formula, and the branch choice.
- `SwordMotion` (sword_motion.dfy) holds the spring step, its energy, and the look vector.
- `Experience` (experience.dfy) holds the class `Swarm`.
  - Its three `array<Vec3>` fields are filled by the constructor's loop.
  - `Step` updates them in place, sword by sword.

### The spring step

On each axis, the spring step maps (error, velocity) to (0.949 e − 0.85 v, 0.051 e + 0.85 v). This map has complex eigenvalues, so a sword overshoots and its distance to a fixed target does not shrink monotonically. Instead, the model proves the following:

- The quadratic form Q(e, v) = 0.051 e² − 0.099 e v + 0.85 v², summed over the axes, is multiplied by exactly 0.85 each frame.
- The squared distance to the target never exceeds 25 Q.
- So after k frames toward a fixed target, the squared distance is at most 25 · 0.85^k times the starting energy, and never more than 25 times that energy.
- `DistanceCanGrow` shows the overshoot concretely. Take a sword one unit from its target and at rest, at the start or at any later frame. 8 frames later it is about 0.0223 short of the target, and 9 frames later about 0.0885 beyond it.

## Model

| member | source | states |
|---|---|---|
| GestureLogic.Classify | services/gestureLogic.ts:26-45 | An isolated index finger (distance > 0.25 and the other three averaging < 0.15) gives POINTING whatever the average. FIST holds iff the average is < 0.12 and the index distance is ≤ 0.25. OPEN_PALM holds iff the finger is not isolated and the average is > 0.25. IDLE holds iff it is not isolated and 0.12 ≤ average ≤ 0.25, so both boundaries give IDLE. Only these four gestures are returned. |
| GestureLogic.AnalyzeGesture | services/gestureLogic.ts:5-46 | A null or empty landmark list gives IDLE. A non-empty list must reach index 20. The result is never VORTEX or MERGE. A FIST result implies a wrist-to-index distance ≤ 0.25. |
| GestureLogic.Distance2D | services/gestureLogic.ts:16-17 | `getDistance` is symmetric in its two points. With a true square root, it is the non-negative number whose square is the sum of the squared x and y differences. DistanceIgnoresDepth adds that z plays no part. |
| GestureLogic.DistanceIgnoresDepth | services/gestureLogic.ts:16-17 | The landmark distance does not depend on the points' z. |
| GestureLogic.ThumbTipIsIgnored | services/gestureLogic.ts:10 | The thumb tip is read but never used: replacing landmark 4 with any point leaves the gesture unchanged. |
| GestureLogic.ClassificationSeesOnlyPlanarTips | services/gestureLogic.ts:9-24 | Two landmark lists with the same x/y at landmarks 0, 8, 12, 16 and 20 get the same gesture. Their z values and every other landmark, the thumb tip included, are irrelevant. |
| GestureLogic.PalmCenter | services/gestureLogic.ts:48-59 | A null or empty list gives (0,0,0). Otherwise the result is the centroid of landmarks 0, 5 and 17: the three offsets from it sum to zero. |
| GestureLogic.PalmCenterOfCoincidentPoints | services/gestureLogic.ts:54-58 | Three coincident points give that point back. |
| GestureLogic.PointingDirection | services/gestureLogic.ts:61-69 | The list must reach index 8 (there is no empty guard). Adding the result, with y negated back, to the wrist gives the index tip. The result is zero iff the tip coincides with the wrist. |
| GestureLogic.PointingDirectionFlipsOnlyY | services/gestureLogic.ts:64-68 | A tip offset of (0.1, 0.2, 0) gives the direction (0.1, −0.2, 0): only y is negated. |
| Vectors.Normalize | components/Experience.tsx:161 | `normalize` keeps the zero vector at zero, and its result is always parallel to its input (zero cross product). NormalizeIsUnit gives the length and the orientation. |
| Vectors.NormalizeIsUnit | components/Experience.tsx:161 | With a true square root, `normalize` maps the zero vector to itself and any other vector to one of squared length 1 pointing the same way (a positive dot product with the input). |
| SwordTargets.HandPosition | components/Experience.tsx:138 | z is 0. The palm is recovered as x = 0.5 + w.x/40 and y = 0.5 − w.y/30. The result is the origin iff the palm is at (0.5, 0.5). |
| SwordTargets.LightPosition | components/Experience.tsx:112-119 | z is 8. The palm is recovered as x = 0.5 + l.x/35 and y = 0.5 − l.y/25. |
| SwordTargets.IdleRadius | components/Experience.tsx:130 | The idle orbit radius lies in [9, 15]. |
| SwordTargets.IdleOrbitTarget | components/Experience.tsx:128-135 | The idle target lies in [−15,15] × [−10.5,10.5] × [−8,8]. |
| SwordTargets.ConvergenceTarget | components/Experience.tsx:144 | The target is within [−1, 1) of the hand in x and y, with the hand's z. |
| SwordTargets.BeamTarget | components/Experience.tsx:146-148 | The x and y offsets from the hand are the same noise value, with \|noise\| ≤ 0.8. z lies in [hand.z − 29, hand.z − 10]. |
| SwordTargets.BeamDepthRepeatsEveryTwenty | components/Experience.tsx:148 | Swords i and i + 20 get the same beam depth. |
| SwordTargets.CircleTarget | components/Experience.tsx:150-158 | The x/y offsets from the hand are within ±10 and the z offset is within ±2. |
| SwordTargets.CircleTargetOnRing | components/Experience.tsx:152-157 | Given sin² + cos² = 1, the target's x/y distance from the hand is exactly 10. |
| SwordTargets.RayDistance | components/Experience.tsx:163 | The distance along the pointing ray, 5 + (i/n)·25, lies in [5, 30). |
| SwordTargets.RayDistanceIncreases | components/Experience.tsx:163 | Sword j sits strictly further along the ray than sword i whenever i < j. |
| SwordTargets.Spread | components/Experience.tsx:162 | The spread (i mod 10)·0.1 lies in [0, 0.9]. |
| SwordTargets.Jitter | components/Experience.tsx:164-165 | The jitter is within ±spread/2, and so within ±0.45. |
| SwordTargets.RayPoint | components/Experience.tsx:161-163 | The ray point lies on the line through the projected hand along the pointing direction (zero cross product), and on the hand itself when the direction is zero. RayPointAtDistance gives its distance from the hand and its side. |
| SwordTargets.PointingTarget | components/Experience.tsx:159-165 | The target differs from the ray point only by jitter in x and y, each within ±spread/2. z is unchanged. |
| SwordTargets.RayPointAtDistance | components/Experience.tsx:161-163 | With a true square root, the ray point lies exactly RayDistance(i, n) from the hand, forward along the pointed direction (a positive dot product with it), when the direction is non-zero. It lies on the hand when the direction is zero. |
| SwordTargets.RelaxedRadius | components/Experience.tsx:169 | The relaxed orbit radius lies in [4, 8]. |
| SwordTargets.RelaxedOrbitTarget | components/Experience.tsx:166-175 | The x/y offsets from the hand are within ±8 and the z offset is within ±3. |
| SwordTargets.RelaxedOrbitInAnnulus | components/Experience.tsx:168-173 | Given sin² + cos² = 1, the squared x/y distance from the hand lies in [16, 64]. |
| SwordTargets.BehaviourOf | components/Experience.tsx:127-176 | Each behaviour is chosen exactly when its condition holds: <br>- no hands: idle orbit; <br>- two fists: convergence; <br>- a fist without a second fist: beam; <br>- OPEN_PALM: circle; <br>- POINTING: ray; <br>- IDLE, VORTEX or MERGE: relaxed orbit. |
| SwordTargets.TargetFor | components/Experience.tsx:127-176 | Each branch's target range holds: idle z in [−8,8], convergence within ±1 of the projected hand with z = 0, beam z in [−29,−10], circle z in [−2,2], pointing within ±0.45 of the ray point in x and y with the ray point's z, relaxed z in [−3,3]. |
| SwordTargets.TargetIgnoresLaterHands | components/Experience.tsx:137-142 | No hand beyond the second one affects any target. |
| SwordMotion.SpringStep | components/Experience.tsx:179-181 | The velocity becomes (velocity + 0.06 · (target − position)) · 0.85, then the position moves by the new velocity. Its properties are the lemmas below: SpringStepInErrorCoordinates, SpringStepFixedPoint and SpringStepContracts. |
| SwordMotion.SpringStepInErrorCoordinates | components/Experience.tsx:179-181 | In (error, velocity) coordinates, one step is the linear map (e, v) ↦ (0.949 e − 0.85 v, 0.051 e + 0.85 v) on every axis. |
| SwordMotion.SpringStepFixedPoint | components/Experience.tsx:179-181 | The step leaves a sword unchanged iff it rests on its target with zero velocity. |
| SwordMotion.SpringStepContracts | components/Experience.tsx:179-181 | One step multiplies the energy Q by exactly 0.85. |
| SwordMotion.EnergyBoundsError | components/Experience.tsx:179-181 | Q is non-negative, and the squared distance to the target is between 0 and 25 Q. |
| SwordMotion.SettleEnergy | components/Experience.tsx:179-181 | After k steps toward a fixed target, the energy is 0.85^k times the initial energy. |
| SwordMotion.SettleApproachesTarget | components/Experience.tsx:179-181 | After k steps toward a fixed target, the squared distance is at most 25 · 0.85^k times the initial energy. |
| SwordMotion.SettleNeverDiverges | components/Experience.tsx:179-181 | For every k, the squared distance after k frames toward a fixed target is at most 25 times the initial energy. |
| SwordMotion.DistanceCanGrow | components/Experience.tsx:179-181 | Take a sword at (−1, 0, 0), at rest, aiming at the origin, at any frame k. Its squared distance at frame k + 9 is larger than at frame k + 8, so the distance to the target is not monotone. |
| SwordMotion.SettleAtRest | components/Experience.tsx:179-181 | A sword at rest on a fixed target stays there for any number of frames. |
| SwordMotion.LookVector | components/Experience.tsx:185 | The sword faces along its velocity or along (0, 1, 0). |
| SwordMotion.LookVectorChoice | components/Experience.tsx:185 | With a true square root, the velocity is used exactly when its squared length exceeds 0.05² = 0.0025. |
| Experience.InitialPosition | components/Experience.tsx:79-83 | A start-up position lies in [−25,25) × [−25,25) × [−15,15), and each draw is recovered from its coordinate. |
| Experience.Swarm.constructor | components/Experience.tsx:78-87 | Each of the three fresh arrays has exactly `count` entries. Sword i starts at InitialPosition of its three draws, with target equal to position and zero velocity. The light starts at (0, 5, 5). The swarm keeps the hand list of the render that built it. |
| Experience.Swarm.Step | components/Experience.tsx:112-189 | The light moves to LightPosition of the first hand iff there is a hand. Every target is TargetFor its sword. Every (position, velocity) is one SpringStep from its old value toward the new target. Each look target is position + LookVector. Array lengths are unchanged. |
| Experience.Swarm.Animate | components/Experience.tsx:107-189 | The frame as the closure runs it: light, targets, motion and look targets are those of Step applied to the hands captured at start-up, not to the current hands. |
| Experience.FrozenHandsMissFist | components/Experience.tsx:211 | Suppose the captured hand list is empty and the current primary hand is a fist with no second fist. Then every sword's as-written target is its idle-orbit target, and it differs from the beam target the current hands call for. |
| Experience.Swarm.MoveSword | components/Experience.tsx:179-181 | Sword i gets its new target and one spring step. No other index of the three arrays changes. |

## Left out

- The three.js scene is left out because it consists of calls into a rendering library. This covers the scene, fog, camera, renderer, lights, sword geometry, materials, star field and resize handling (components/Experience.tsx:34-101, 192-210).
- `lookAt`, `rotateX`, `updateMatrix` and `setMatrixAt` (components/Experience.tsx:186-189) are left out as foreign matrix code. `Step` returns the point each sword looks at instead.
- The `requestAnimationFrame` loop and the `time += 0.016` clock (components/Experience.tsx:107-109) are left out. `Step` takes the frame's time as a parameter.
- React's rendering itself is left out. The closure's capture of `hands` is modelled by `Swarm.captured` and `Swarm.Animate`; see "## Findings".
- Experience.Swarm.constructor makes fresh arrays. The source pushes onto the arrays held in a ref that is never cleared, so a re-run of the effect after a change of `swordCount` appends a second population. The model does not capture this.
- Randomness is left out: `Math.random` is an arbitrary `Draws` function into [0, 1).
- `Math.sin`, `Math.cos` and `Math.sqrt` are arbitrary functions, so no concrete trigonometric or root values are proved. Their ranges and identities are stated where a lemma needs them.
- IEEE-754 rounding, NaN and infinities are not modelled: all arithmetic is on `real`. In particular, the accumulated clock and the exact factor 0.85 hold only over the reals.
- The `landmarks` field of `HandData` is omitted, because nothing in the core reads it.
- GestureLogic.AnalyzeGesture and GestureLogic.PalmCenter require a non-empty list to reach the highest index they read, and GestureLogic.PointingDirection always requires it. The source reads `undefined.x` on shorter lists and throws a TypeError; the model does not describe that failure.
- App.tsx is left out: MediaPipe and camera setup, and the `onResults` mapping that calls the three gesture functions for each detected hand.
- HUD.tsx and LoadingScreen.tsx are left out as presentational UI.
- Some constants are left out. These are the colours, `MAX_HANDS`, and `POINTING_ISOLATION`, which the classifier does not use (it writes 0.25 and 0.15 literally). `SWORD_COUNT` is left out as well, because the swarm takes its count as a parameter.

## Findings

| source | as written | input that shows it | evidently intended | confidence | as-written member | corrected member |
|---|---|---|---|---|---|---|
| components/Experience.tsx:211 | The start-up effect depends only on `swordCount`, so its `animate` closure keeps the `hands` prop of the first render. App.tsx:13-14 fixes `swordCount` at 300 and starts `detectedHands` empty, so the effect runs once and `animate` only ever sees `[]`. Every frame then takes the idle orbit (components/Experience.tsx:128), and the light never moves (components/Experience.tsx:112). | A single detected fist: the current hands call for the beam (z in [−29, −10]), but every sword keeps its idle-orbit target (z in [−8, 8]). | Each frame reads the latest detected hands, for example through a ref, and picks its targets from them. | high; not executed | Experience.Swarm.Animate, Experience.FrozenHandsMissFist | Experience.Swarm.Step |
