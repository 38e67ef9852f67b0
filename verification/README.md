# Animated eyes: a Dafny model of the eye-animation state machine

This project models the `Eyes` class of `eyes.py`. That class drives a pair of
cartoon eyes on a 128×64 display. Callers set targets: open or closed, a named
gaze position, a mood, and whether the eyes wander when idle. A draw loop then
runs frame after frame, sleeping 20 ms between frames. Each frame does three
things in order:

1. It eases the current geometry halfway towards its targets.
2. It fires the autonomous behaviours: reopening after a blink, blinking at a
   random deadline, and wandering to a random gaze when idle.
3. It derives the eyelid cut-offs from the mood.

Finally the frame is drawn as six primitives.

Modules:

- `Easing` (easing.dfy): the easing law `interpolate`. Its properties over
  many frames are proved here: the exact remaining distance after n frames,
  no overshoot, and convergence.
- `EyesGeometry` (eyes_geometry.dfy): the constants, the `Eye` record, the
  `EyesPosition` and `EyesMood` enumerations, and the pure rules. These rules
  are the legal range (`get_max_x_limit`, `get_max_y_limit`), the position
  table of `set_position`, the mood table of `update_eyelids`, the happy-lid
  target, and `random.uniform`.
- `EyesSpec` (eyes_spec.dfy): the whole animation state as a value. Every
  setter and every per-frame update is a function of it. The state invariant
  says both eyes stay at full width, height stays between 1 and full height,
  the happy-lid divisor stays in [1, 3], and the gaze target stays in the
  legal range. Each setter and frame is proved to keep it, and so is any run
  of calls and frames. The rigid pair, the blink rule and convergence to
  full height are proved here too.
- `EyesFrame` (eyes_frame.dfy): the coordinates of the draw primitives. It
  proves that a frame never divides by zero and that every rectangle is well
  formed.
- `EyesEngine` (eyes.dfy): the class `Eyes`. Its methods update fields in
  place, line by line as the Python does. Each method is proved to produce
  exactly the state that the `EyesSpec` function describes, and to keep the
  invariant.

## Notes on the code

- Under ANGRY, the left eye at y = 10 with h = 36 gets left/right cut-off
  targets (19, 28), because its left end is y + h/4 and its right end y + h/2.
  The right eye is mirrored and gets (28, 19) (eyes.py:209-214,
  `CutoffExamples`).
- The right eye's target uses the left eye's current width (eyes.py:178).
  `max_x` also uses current widths (eyes.py:119). Under the invariant both
  are the default width.
- The pair is rigid (`Rigid`) right after `update_eye_position` only. Idle
  wander rewrites the left target later in the same frame (eyes.py:196-198),
  so the pair is not rigid at the end of every frame.
- Re-centring shifts y by `(36 - h)/2` on every frame where h is below full
  height. This can push the current position past its legal range, and the
  model does not bound current positions. Only targets are bounded.

## Model

| member | source | states |
|---|---|---|
| Easing.Interpolate | eyes.py:114-116 | the result lies between current and target, its distance to the target is half the old distance, and it equals current when current is the target |
| Easing.EaseNGap | eyes.py:114-116 | after n frames of easing the remaining gap times 2^n is the initial gap |
| Easing.EaseNMonotone | eyes.py:114-116 | repeated easing moves monotonically towards the target, never overshoots, and halves the distance every frame |
| Easing.EaseNConverges | eyes.py:114-116 | for every tolerance eps > 0 some number of frames brings the eased value within eps of its target |
| Easing.EaseNWithin | eyes.py:114-116 | a start at most `bound` from the target is within eps of it after n frames once 2^n · eps exceeds the bound, since the gap halves every frame |
| EyesGeometry.MaxXLimit | eyes.py:118-119 | the left eye at max_x plus both current widths and the gap spans exactly the screen width; 46 at default widths |
| EyesGeometry.MaxYLimit | eyes.py:121-122 | a full-height eye at max_y reaches the bottom of the screen; max_y is 28 |
| EyesGeometry.Uniform | eyes.py:193-199 | `uniform(a, b)` from a `random()` draw in [0, 1) lies between a and b and never reaches b when a < b |
| EyesGeometry.PositionTarget | eyes.py:135-145 | each named position is its column and row placed at 0, half or all of max_x and max_y, and lies in [0, max_x] × [0, max_y] |
| EyesGeometry.PositionTargetInjective | eyes.py:135-145 | with positive max_x and max_y the nine positions give nine different targets |
| EyesGeometry.CutoffTargets | eyes.py:202-228 | every cut-off target lies between the eye's top y and its bottom y + h, and both targets equal y exactly when the mood is NEUTRAL or HAPPY |
| EyesGeometry.CutoffsMirrored | eyes.py:209-228 | the right eye's cut-off targets are the left eye's swapped, and SAD is ANGRY swapped |
| EyesGeometry.CutoffExamples | eyes.py:209-228 | for y = 10 and h = 36: ANGRY gives (19, 28) on the left eye and (28, 19) on the right, SAD (28, 19), TIRED's left end 40 |
| EyesGeometry.HappyLidTarget | eyes.py:230-231 | the happy-lid target is 3 exactly when the mood is HAPPY and 1 exactly otherwise |
| EyesSpec.Initial | eyes.py:59-108 | new eyes satisfy the invariant, are closed (h = 1) and rigid, and sit at the CENTER target (23, 14) |
| EyesSpec.SetPosition | eyes.py:131-147 | the left eye's target becomes the table entry for the position, in the legal range; nothing else changes |
| EyesSpec.SetIdle | eyes.py:124-126 | the idle flag takes the value; turning it off also sets the left target to CENTER; nothing else changes |
| EyesSpec.SetMood | eyes.py:128-129 | only the mood changes |
| EyesSpec.Open | eyes.py:149-152 | both height targets become full height and the flag open; position targets and everything else stay |
| EyesSpec.Close | eyes.py:154-158 | both height targets become 1, the flag closed, the left target CENTER; nothing else changes |
| EyesSpec.SettersKeepInv | eyes.py:124-158 | every setter keeps the invariant |
| EyesSpec.Recenter | eyes.py:167-171 | re-centring leaves x alone at default width, y alone at default height, never moves y up, and touches only x and y |
| EyesSpec.UpdateEyePosition | eyes.py:160-181 | sizes ease towards their targets; each eye's x and y are first shifted by half of what its new width and height lack from the default, then eased halfway towards the position target, the right eye towards its new target; afterwards the right target is the left target plus the left eye's current width and the gap, at the same y; no other target or eyelid changes |
| EyesSpec.FullSizeEyesOnlyEase | eyes.py:167-181 | for full-size eyes each position just eases halfway: the left eye to its target, the right eye to the left target plus 36 + 10 at the same y |
| EyesSpec.RigidSpacing | eyes.py:177-179 | under the invariant the rigid pair is spaced by exactly the default width plus the gap |
| EyesSpec.UpdateEyeState | eyes.py:183-199 | nothing changes while closed; when the blink deadline passes, both height targets become 1 (overriding the reopen rule) and the deadline moves 3 to 6 s ahead; otherwise shut eyes (h ≤ 1.1) get a full-height target; idle wander picks a target in the legal range and a new deadline only when idle, open and due; nothing else changes |
| EyesSpec.UpdateEyelids | eyes.py:201-237 | the cut-off targets follow the mood table from each eye's current y and h, the happy-lid target follows the mood, and every current eyelid value moves halfway to its new target; nothing else changes |
| EyesSpec.HappyLidMonotone | eyes.py:230-232 | the happy-lid divisor stays in [1, 3]; under HAPPY it rises towards 3 halving the distance, otherwise it falls towards 1 |
| EyesSpec.UpdateEyePositionKeepsInv | eyes.py:160-181 | easing the geometry keeps the invariant and leaves max_x unchanged |
| EyesSpec.UpdateEyeStateKeepsInv | eyes.py:183-199 | the blink, reopen and wander rules keep the invariant |
| EyesSpec.UpdateEyelidsKeepsInv | eyes.py:201-237 | the eyelid update keeps the invariant |
| EyesSpec.Step | eyes.py:239-243 | one loop iteration runs the three updates in order; it never changes the mood, the open flag or the idle flag, and never moves the blink or idle deadline earlier (the invariant it keeps is `StepKeepsInv`, its effect on open eyes `OpenTickEasesHeight`) |
| EyesSpec.StepKeepsInv | eyes.py:239-243 | a whole frame keeps the invariant |
| EyesSpec.Run | eyes.py:239-243 | any sequence of setter calls and frames, one at a time; a run of frames alone keeps mood, open and idle flags and never moves the blink deadline earlier (the invariant it keeps is `RunKeepsInv`) |
| EyesSpec.RunKeepsInv | eyes.py:239-243 | the invariant holds after any interleaving of setter calls and frames |
| EyesSpec.HeightsStayInRange | eyes.py:69-101 | from construction, whatever the caller does, 1 ≤ h ≤ 36, w = 36 and the happy-lid divisor stays in [1, 3] |
| EyesSpec.OpenTickEasesHeight | eyes.py:160-199 | a frame before the blink deadline keeps open eyes open, aiming at full height and with the same deadline, and eases each height one step towards 36 |
| EyesSpec.OpenEyesApproachFullHeight | eyes.py:160-199 | open eyes aiming at full height that reach no blink deadline are, after n frames, exactly n easing steps closer to full height |
| EyesSpec.OpenEyesReachFullHeight | eyes.py:160-199 | open eyes aiming at full height, starting between 1 and 36, that run only frames before the blink deadline are within any eps > 0 of full height after n frames, once 2^n · eps exceeds 35 |
| EyesSpec.TwelveFramesReachHundredth | eyes.py:114-116 | to come within 0.01 of full height from any height in [1, 36], 12 frames meet the bound and 11 do not |
| EyesSpec.HeightsWithin | eyes.py:114-116 | heights starting in [1, 36] and eased n frames towards 36 are within eps of 36 once 2^n · eps exceeds 35 |
| EyesFrame.FramePrimitives | eyes.py:245-256 | a frame is two white eye bodies, two black upper lids and two black happy lids, in that order; each upper lid is a four-cornered polygon whose top edge runs 2 above its body from 2 left of it to 2 right of it, and whose lower corners sit on those two sides 1 above the eye's right and left cut-offs; each body is a rounded rectangle of radius 8 at its eye's (x, y) with size w × h; each happy lid is a radius-8 rounded rectangle spanning its body's columns, whose bottom edge is 2 below the body's and whose top edge lies 2 + h / divisor below the body's top |
| EyesFrame.FrameWellFormed | eyes.py:254-256 | under the invariant the divisor is non-zero, every rectangle has ordered corners, the happy lid's top edge lies between a third of the eye and its bottom, and at divisor 1 the happy lid has no height |
| EyesEngine.Eyes.constructor | eyes.py:52-108 | the fields form the initial state, which satisfies the invariant |
| EyesEngine.Eyes.SetIdle | eyes.py:124-126 | the fields change as `SetIdle` says and the invariant is kept |
| EyesEngine.Eyes.SetMood | eyes.py:128-129 | the fields change as `SetMood` says and the invariant is kept |
| EyesEngine.Eyes.SetPosition | eyes.py:131-147 | the fields change as `SetPosition` says and the invariant is kept |
| EyesEngine.Eyes.Open | eyes.py:149-152 | the fields change as `Open` says and the invariant is kept |
| EyesEngine.Eyes.Close | eyes.py:154-158 | the fields change as `Close` says and the invariant is kept |
| EyesEngine.Eyes.UpdateEyePosition | eyes.py:160-181 | the fields change as `UpdateEyePosition` says, the pair is rigid afterwards, and the invariant is kept |
| EyesEngine.Eyes.UpdateEyeState | eyes.py:183-199 | the fields change as `UpdateEyeState` says and the invariant is kept |
| EyesEngine.Eyes.UpdateEyelids | eyes.py:201-237 | the fields change as `UpdateEyelids` says and the invariant is kept |
| EyesEngine.Eyes.Step | eyes.py:239-256 | one loop iteration runs the three updates in order, keeps the invariant, and returns the frame's primitives, all well formed |

## Left out

- The display is not modelled: the `sh1106` device on `i2c`, the `canvas` and
  the pixels (eyes.py:9-11, 57, 245). Only the coordinates of the primitives
  handed to it are modelled.
- The drawing thread, the endless `while True` loop, `sleep` and
  `frame_rate` are not modelled (eyes.py:12, 56, 111-112, 239-240, 258). One
  loop iteration is `Eyes.Step`. `Run` applies any sequence of setter calls
  and frames one at a time. Truly concurrent access is not modelled.
- Clock: `time()` is a parameter `now`, one value per frame. The source reads
  the clock up to four times per frame (eyes.py:190-199).
- Randomness: each `random()` result is a parameter u in [0, 1). `uniform(a, b)`
  is Python's `a + (b - a) * u`.
- Floating point: all coordinates are `real`. Rounding is not modelled, so the
  divisors 1.2 and 1.4 are exact here but not in Python floats.
- The two `Eye` records are values held in two fields, and each update
  reassigns a whole record. The source never aliases the two records, so
  in-place update of a shared record is not modelled.
- `positions.get(value)` returns `None` for a value that is not an
  `EyesPosition`. That case cannot arise with the `Position` datatype.
- `set_mood` (eyes.py:128-129) stores any value. With a value that is not an
  `EyesMood`, `update_eyelids` takes none of the branches at eyes.py:202-228,
  so the cut-off targets keep their old values and the happy-lid target
  becomes 1. That case cannot arise with the `Mood` datatype.
- main.py is not part of this model. It is a demo driver that calls the
  setters between `sleep`s.
