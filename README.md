# PosturePro repetition counter, modelled in Dafny

PosturePro watches a webcam through a pose estimator and, for the selected
exercise, judges the posture and counts repetitions. Every pose-estimator
callback goes through one frame-driven state machine over six page-level
variables: the exercise selector, `repCount`, `isSquatting`, `isPushUp`,
`repCountedThisCycle` and `lastRepTime`. This project models that state
machine and proves what it guarantees:

- **Squat** counts a rep on the frame that leaves the squat position. The
  position is knee angle 80-120 degrees with a back angle of at least 150.
  A lock (`repCountedThisCycle`) then blocks further counts until the knee
  straightens past 150 degrees. This is angle hysteresis.
- **Push-up** counts a rep on the first frame that is not "down" after a
  down phase and arrives more than 1000 ms after the last counted rep. Until
  then the rep stays pending; it is not lost. Down means elbow below 90
  degrees and the shoulder more than 0.1 below the hip. This is a time
  debounce.
- **Plank** gives a good/bad verdict per frame and keeps no state.
- **Reset** zeroes the counter. **Changing exercise** stores the new
  selector and then resets.
- **The callback** skips results without a pose and ignores selectors that
  have no handler.

Files:

- `classify.dfy` (module `Classify`) holds the pure threshold predicates
  and the plank verdict.
- `counter.dfy` (module `Counter`) holds the state as a value. It defines
  each transition as a function, plus `Run`, which folds a sequence of
  callbacks.
- `properties.dfy` (module `Properties`) proves properties of whole
  sessions.
- `app.dfy` (module `App`) holds the class `Session` with the six fields.
  Its methods update the fields in place, in the same order as script.js,
  and each is proved equal to its `Counter` transition.

Angles and y coordinates are `real` inputs. The clock reading `now` (ms) is
an `int` input that travels with each callback.

The model follows the code where a tidier design would differ:

- Reset clears only `repCount`. `isSquatting`, `isPushUp`,
  `repCountedThisCycle` and `lastRepTime` keep their values.
  `ChangeKeepsPendingPushUp` shows one consequence: a push-up dip left
  pending before an exercise switch is counted after the switch.
- Changing exercise resets even when the same exercise is chosen again.
- An unknown selector is stored. Frames are then ignored until a known
  selector is chosen.

## Model

| member | source | states |
|---|---|---|
| `Classify.PlankOk` | script.js:141-145 | The plank is good exactly when the body angle is strictly between 160 and 190, the shoulder is less than 0.1 below the hip and never above it, and the ankle is less than 0.1 from the hip. An upright posture (shoulder above hip) is never good, whatever the angle. |
| `Classify.ProperKnee` | script.js:71 | The source's knee-band test, 80 to 120 degrees inclusive, used by `InSquatPosition`. |
| `Classify.BackStraight` | script.js:72 | The source's back test, a torso angle of at least 150 degrees, used by `InSquatPosition`. |
| `Classify.InSquatPosition` | script.js:80 | A squat frame is in position when both the knee band and the back test hold. Because the band lies below 150 degrees, a frame in position never releases the squat lock. |
| `Classify.Standing` | script.js:96 | The source's lock-release test, a knee angle strictly above 150, used by `Counter.SquatNext`. |
| `Classify.IsDown` | script.js:110 | The source's push-up down test: elbow strictly below 90 and shoulder y minus hip y strictly above 0.1. `Counter.PushUpNext` uses it. |
| `Classify.GoodBodyAngle` | script.js:141 | The source's plank angle test, strictly between 160 and 190, used by `PlankOk`. |
| `Classify.YDiffsOkay` | script.js:142 | The source's levelness test, both absolute height differences strictly below 0.1, used by `PlankOk`. |
| `Classify.NotStanding` | script.js:143 | The source's not-upright test, shoulder y at least hip y, used by `PlankOk`. |
| `Counter.Handler` | script.js:182-188 | The handler table lookup finds no handler exactly when the selector is none of `squat`, `pushup` and `plank`. |
| `Counter.Name` | script.js:182-186 | Looking up the name under which an exercise is registered finds that exercise's handler. |
| `Counter.HandlerInvertsName` | script.js:182-188 | A selector finds a handler exactly when it is the registered name of that exercise. |
| `Counter.SquatNext` | script.js:71-96 | After a squat frame, `isSquatting` holds exactly when the frame is in position. The count rises by exactly one when the previous frame was in position, the lock was open and this frame is not in position; otherwise it is unchanged. The lock is set afterwards exactly when the knee is at most 150 and the lock was already set or a rep was just counted. The selector, `isPushUp` and `lastRepTime` are untouched. |
| `Counter.PushUpNext` | script.js:110-124 | A down frame only sets `isPushUp`. A rep is counted exactly when the frame is not down, a down phase is pending and more than 1000 ms have passed since `lastRepTime`. A count sets the counter to its old value plus one, clears `isPushUp` and stores `now`. A non-down frame that does not count changes nothing. |
| `Counter.ResetNext` | script.js:36-39 | Reset sets the counter to 0 and keeps the selector, both phase flags, the lock and the timestamp. |
| `Counter.ChangeNext` | script.js:211-214 | Changing exercise stores the new selector, sets the counter to 0, and keeps the phase flags, the lock and the timestamp. |
| `Counter.Dispatch` | script.js:171-188 | A callback without a pose changes nothing. A selector with no handler, or the plank handler, changes nothing. The selector never changes, and the counter rises by at most one per callback. |
| `Counter.Run` | script.js:167-189 | Over a session of callbacks, the selector stays the same and the counter never decreases. It rises by at most the number of callbacks. |
| `Properties.NoPoseFramesChangeNothing` | script.js:171 | Any sequence of callbacks without a pose leaves the whole state unchanged. |
| `Properties.StatelessSelectorChangesNothing` | script.js:182-188 | With an unregistered selector, or with the plank selected, no sequence of callbacks changes the state. |
| `Properties.SquatBudgetNeverGrows` | script.js:88-96 | While no frame has a knee above 150, the counter plus one-if-unlocked never grows. A lock that is set stays set. |
| `Properties.SquatHysteresis` | script.js:88-96 | Squat frames whose knee never passes 150 count at most one rep, for example 100, 105, 100, 105, 100. If the lock was already set, they count none and the lock stays set. |
| `Properties.SquatCycleCountsOnce` | script.js:80-96 | From an open lock, a descent with knee at most 150 that is in position at least once, followed by a standing frame (knee above 150), counts exactly one rep, however long the body hovers in the band. The cycle ends unlocked and out of position, ready for the next rep. |
| `Properties.PushUpCooldownWindow` | script.js:119-122 | All push-up callbacks that arrive inside one 1000 ms window count at most one rep. A second dip inside the window is not dropped: its rep stays pending and the first non-down frame after the cooldown counts it (see `Properties.PendingPushUpDeferred`). |
| `Properties.PushUpSpacing` | script.js:117-122 | Over any push-up session, each counted rep moves the stored timestamp more than 1000 ms forward: after n counted reps, `lastRepTime` is at least n times 1001 ms past its starting value. |
| `Properties.PendingPushUpDeferred` | script.js:117-124 | When a down phase is pending, non-down frames inside the cooldown leave the whole state unchanged. The first non-down frame after the cooldown then counts the rep, so the rep is deferred, not lost. |
| `Properties.TwoSpacedDipsCountTwice` | script.js:117-124 | Two dips are counted twice when their up frames are more than 1000 ms apart and the first comes more than 1000 ms after the last rep. The timestamp ends at the second up frame. |
| `Properties.ChangeKeepsPendingPushUp` | script.js:211-214 | Switching to push-ups while a down phase is pending gives a count of 1 on the first non-down frame past the cooldown, with no new dip. |
| `App.Session.constructor` | script.js:7-12 | At page load, squats are selected, the counter is 0, both phase flags and the lock are false, and the timestamp is 0. |
| `App.Session.ResetReps` | script.js:36-39 | Updates the fields in place exactly as `Counter.ResetNext` describes. |
| `App.Session.ChangeExercise` | script.js:211-214 | Updates the fields in place exactly as `Counter.ChangeNext` describes. |
| `App.Session.CheckSquat` | script.js:62-100 | Updates the fields in place exactly as `Counter.SquatNext` describes. It reports a count exactly when the counter rose by one. |
| `App.Session.CheckPushUp` | script.js:102-128 | Updates the fields in place exactly as `Counter.PushUpNext` describes. It reports a count exactly when the counter rose by one. A count stores `now`, which is more than 1000 ms after the previous rep's time. |
| `App.Session.OnResults` | script.js:167-189 | Updates the fields in place exactly as `Counter.Dispatch` describes. It reports a skip exactly when there is no pose or no handler. It reports a rep outcome exactly for a pose with the squat or push-up handler selected, and that outcome tells whether a rep was counted. It reports a plank verdict exactly for a pose with the plank handler selected, and the verdict is `PlankOk` of the frame. |

## Left out

- Joint angles from landmarks (`getAngle` and `getTorsoAngle`, script.js:21-34) are not modelled. They rely on floating-point `Math.acos`, `Math.atan2` and `Math.hypot`. The knee, back, elbow and body angles are inputs instead.
- NaN angles are not modelled as such; the angles here are real numbers. For the knee, elbow and body angles, a landmark that coincides with the angle's vertex (the knee, the elbow or the hip) makes the code divide 0 by 0 (script.js:22-27), which gives NaN. Every comparison with NaN is false, so a NaN angle fails each threshold test exactly as a real stand-in does: 0 for the knee and body angles, 90 for the elbow angle. Those frames are therefore covered by the model. The back angle is never NaN this way: a shoulder on top of the hip gives `Math.atan2(0, 0)`, which is 0 (script.js:33), and that is an ordinary input here.
- Floating-point rounding is not modelled. Comparisons are on exact reals.
- Canvas drawing is left out: the text and colours in the handlers, and the skeleton overlay (script.js:168-180). It is presentation only.
- Speech is left out: `speak`, `loadVoices`, `selectedVoice` (script.js:13, 41-59). The spoken count in the handlers is the `counted` result of `CheckSquat` and `CheckPushUp`. The "reps reset" announcement is not modelled.
- The pose-estimator set-up and camera start-up (script.js:155-165, 192-208) are left out. They are external library and device I/O.
- `Date.now()` is not called. Its reading arrives as the `now` field of each callback (`Counter.Results`).
- The drop-down in `changeExercise` is not read. Its value is the `kind` parameter.
- Handler lookup on JavaScript's object prototype is not modelled. A selector such as `toString` finds an inherited member, and calling it either does nothing to the six variables or throws. The model treats every selector other than `squat`, `pushup` and `plank` as having no handler, which gives the same state.
