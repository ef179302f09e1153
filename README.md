# Handy: a verified model of the per-frame gesture-to-mouse pipeline

Handy turns a webcam view of one hand into mouse control. Each frame, the
hand tracker names 21 hand landmarks and converts them to pixel points; the
gesture detector classifies those points into `left_click`, `right_click`
and `move`, each with a confidence in (0, 1]; the pointer tracker keeps a
short, smoothed history per fingertip and maps frame positions to the
screen; and the mouse controller, a small state machine, turns the primary
pointer and the detected gestures into relative cursor moves and
press/hold/release of the two buttons under a click cooldown. A settings
store keeps named values seeded from defaults.

This project models that pipeline in Dafny and proves what it promises.

- `real_math.dfy` (`RealMath`): absolute value, min/max, Python's `int()` on a
  float as truncation toward zero, and the two numeric-library functions the
  code calls (`sqrt`, `arctan2`) passed in as a parameter `Numerics` whose
  soundness (`Sound`) states only what the proofs rely on.
- `geometry.dfy` (`Geometry`): pixel points, distance, the shared
  "closer than a limit" confidence `1 - d / limit`, weighted sums.
- `gestures.dfy` (`Gestures`): the three classifiers as pure functions, their
  merge, and the `GestureDetector` class with its `lastGestures` cache.
- `pointer.dfy` (`Pointers`): the `Pointer` class (bounded history,
  velocity), exponentially weighted smoothing, the `PointerTracker` class
  (name-filtered updates, primary pointer, frame-to-screen mapping, pinch).
- `mouse_controller.dfy` (`MouseControl`): the controller's step function
  `Step` over a value of its state, and the `MouseController` class whose
  `UpdateMouse` is proved to perform exactly that step; operating-system
  pointer calls become an emitted list of `Action`s and the clock becomes a
  `now` parameter.
- `settings.dfy` (`SettingsStore`): defaults, `get` with fallback, `set`,
  `reset`, and load as a dictionary merge.
- `hand_tracker.dfy` (`HandTracking`): the landmark name table with its
  aliases, pixel conversion, and the padded, clamped bounding box of a hand.

Behaviours of the code that the model keeps:
- `detect_gestures` returns early on an empty point map without touching
  the `last_gestures` cache, so the cache holds the returned map only after
  a non-empty call (`Gestures.GestureDetector.DetectGestures`).
- `update_position` appends the *previous* position to the history, so the
  first update pushes the initial (0, 0) and the smoothed position lags
  (`Pointers.FirstUpdateBiased`).
- Button releases are also gated by the click cooldown, and only presses
  record the click time (`MouseControl.ReleaseWaitsForCooldown`).
- Reactivation does not reset the controller's position history, although
  the code's comment at src/control/mouse_controller.py:67 says it prevents
  teleportation after inactivity: the reactivation frame is quiet, but on
  the next `move` frame four stale positions still weigh in the blend, so a
  hand that held still moves the cursor
  (`MouseControl.ReactivationJumpsNextFrame`; with sensitivity 4, a history
  at (500, 500) and the hand back at (100, 100), the move is
  0.7 x (0.8 - 1120) = -783.44 on each axis).
- With a zero-sized region or frame the mapping divides by zero; the model
  reports this as the `DivisionByZero` result instead of an exception.
- The settings defaults (`mouse_sensitivity` 6.0, `mouse_smoothing` 0.4) are
  not the controller's own defaults (4.0 and 0.2) and nothing connects them.

## Model

| member | source | states |
|---|---|---|
| RealMath.Trunc | src/tracking/hand_tracker.py:155 | Python `int()` of a float: the integer toward zero within less than 1 of the argument, on either side of 0 |
| RealMath.TruncBetween | src/tracking/pointer.py:177 | truncating a value between two integers stays between them |
| Geometry.SquaredDistance | src/tracking/gestures.py:103-104 | the squared pixel distance is nonnegative and zero exactly for equal points |
| Geometry.Distance | src/tracking/gestures.py:103-104 | the distance is nonnegative, squares to the squared distance, and is zero exactly for equal points |
| Geometry.DistanceBelowIff | src/tracking/gestures.py:108 | a distance-under-limit test is the same as comparing the squared distance with the squared limit |
| Geometry.DistanceScale | src/tracking/gestures.py:103-106 | scaling both points by k scales their distance by k |
| Geometry.ProximityConfidence | src/tracking/gestures.py:108-110 | a confidence exists iff the distance is under the limit; it is 1 - d/limit, lies in (0, 1], and is 1 exactly at distance 0 |
| Geometry.ConfidenceScaleInvariant | src/tracking/gestures.py:106-109 | multiplying distance and limit by the same k > 0 leaves the confidence unchanged |
| Geometry.ConfidenceDecreasing | src/tracking/gestures.py:109 | within the limit, a larger distance gives a strictly smaller confidence |
| Geometry.DotBounds | src/tracking/pointer.py:59-60 | a nonnegatively weighted sum of coordinates lies between the bounds times the weight sum |
| Geometry.MinCoord | src/tracking/pointer.py:58-62 | the smallest coordinate on an axis: a lower bound attained by some point |
| Geometry.MaxCoord | src/tracking/pointer.py:58-62 | the largest coordinate on an axis: an upper bound attained by some point |
| Geometry.DotLower | src/tracking/pointer.py:59-60 | a weighted sum with nonnegative weights of coordinates at least lo is at least lo times the weight sum |
| Geometry.DotUpper | src/tracking/pointer.py:59-60 | a weighted sum with nonnegative weights of coordinates at most hi is at most hi times the weight sum |
| Geometry.StepLower | src/tracking/pointer.py:59-60 | adding one sample at least lo with a nonnegative weight keeps the weighted sum at least lo times the weight sum |
| Geometry.StepUpper | src/tracking/pointer.py:59-60 | adding one sample at most hi with a nonnegative weight keeps the weighted sum at most hi times the weight sum |
| Geometry.ScaleFraction | src/tracking/pointer.py:174-177 | `int(t * size)`: a fraction in [0, 1] of a nonnegative extent lands on a pixel in [0, extent] |
| Gestures.Entry | src/tracking/gestures.py:108-112 | a classifier result holds its gesture name exactly when there is a confidence, with that confidence |
| Gestures.TipProximity | src/tracking/gestures.py:97-112 | with both fingertips present and closer than threshold x palm size, one entry with confidence 1 - d/(threshold x palm) in (0, 1]; otherwise no entry |
| Gestures.LeftClick | src/tracking/gestures.py:81-112 | no entry when `thumb` or `index` is missing; an entry iff their distance is under 0.2244444444 x palm size; confidence 1 - d/t, in (0, 1], equal to 1 exactly when the tips coincide |
| Gestures.RightClick | src/tracking/gestures.py:114-145 | the same presence, threshold and confidence rules for `thumb` and `middle` |
| Gestures.ScaleMap | src/tracking/gestures.py:98-104 | a scaled point map keeps every name and multiplies every point by k |
| Gestures.TipProximityScaleInvariant | src/tracking/gestures.py:103-111 | scaling every point and the palm size by the same k >= 1 leaves a fingertip-proximity result unchanged |
| Gestures.PairConfidenceScaleInvariant | src/tracking/gestures.py:103-111 | for one pair of points, scaling points and palm size together leaves the confidence unchanged |
| Gestures.LeftClickScaleInvariant | src/tracking/gestures.py:81-112 | a left click seen k times larger with a k times larger palm has the same result |
| Gestures.RightClickScaleInvariant | src/tracking/gestures.py:114-145 | a right click seen k times larger with a k times larger palm has the same result |
| Gestures.LeftClickBySquares | src/tracking/gestures.py:98-110 | a left click fires iff both tips exist and the squared gap is under (threshold x palm)^2 |
| Gestures.RightClickBySquares | src/tracking/gestures.py:131-143 | a right click fires iff both tips exist and the squared gap is under (threshold x palm)^2 |
| Gestures.LeftClickDecreasing | src/tracking/gestures.py:108-110 | of two left clicks with the same palm, the closer pinch has strictly higher confidence |
| Gestures.LeftClickExample | src/tracking/gestures.py:103-110 | thumb (100, 100), index (105, 102), palm 100 gives a left click with confidence about 0.76 |
| Gestures.Slope | src/tracking/gestures.py:176-193 | a segment's slope angle lies between 0 and just above pi/2 (the bound any arctangent meets) and is exactly numpy's pi/2 when the horizontal gap is at most 0.001 |
| Gestures.MidPoint | src/tracking/gestures.py:201-202 | the truncated midpoint lies between the two points on each axis |
| Gestures.MoveDistance | src/tracking/gestures.py:204-205 | the distance from the index tip to the middle finger's midpoint is nonnegative |
| Gestures.FingersParallel | src/tracking/gestures.py:176-198 | both the top (tip to PIP) and bottom (MCP to PIP) slope gaps of index and middle are at most 0.25 |
| Gestures.MoveGesture | src/tracking/gestures.py:147-213 | no entry when one of the six points is missing or either slope gap exceeds 0.25; otherwise an entry iff the index-to-midpoint distance is under 0.2877777778 x palm, with confidence 1 - d/t in (0, 1] |
| Gestures.MoveConfidence | src/tracking/gestures.py:207-211 | the move confidence exists iff the distance is under threshold x palm and is then 1 - d/t in (0, 1] |
| Gestures.ClassifierResults | src/tracking/gestures.py:57-59 | the three classifier results, one per classifier |
| Gestures.Detect | src/tracking/gestures.py:40-79 | an empty point map gives an empty result; otherwise the union of the three classifiers' entries, every key a gesture name and every confidence in (0, 1] |
| Gestures.CompletionOrderIrrelevant | src/tracking/gestures.py:62-72 | merging the three results in any completion order gives the same map |
| Gestures.SwapFirstTwo | src/tracking/gestures.py:67 | merges of maps with disjoint keys commute (first pair) |
| Gestures.SwapLastTwo | src/tracking/gestures.py:67 | merges of maps with disjoint keys commute (last pair) |
| Gestures.MergeAll | src/tracking/gestures.py:62-67 | the results merged one after another, each later one overriding (its meaning is stated by `MergeAllLastWins`) |
| Gestures.MergeAllLastWins | src/tracking/gestures.py:62-67 | the merged map holds exactly the names of all results, each with the value of the last result that holds it |
| Gestures.MergeThree | src/tracking/gestures.py:62-67 | the merge loop over three results is their left-to-right union |
| Gestures.GestureDetector.constructor | src/tracking/gestures.py:11-38 | a new detector has an empty cache |
| Gestures.GestureDetector.DetectGestures | src/tracking/gestures.py:40-79 | the merge loop returns `Detect`'s map; the cache becomes that map, except that an empty point map leaves it as it was |
| Pointers.NewVelocity | src/tracking/pointer.py:27-34 | displacement over elapsed time when a prior update time exists and time advanced, else the old velocity (its meaning is stated by `AdvanceVelocity`) |
| Pointers.Advance | src/tracking/pointer.py:21-43 | an update sets position and time, appends the previous (not the new) position to the history, drops the oldest entry beyond five, and never lets the history exceed five |
| Pointers.AdvanceVelocity | src/tracking/pointer.py:27-34 | the velocity times the elapsed time is the displacement when a prior update time exists and time advanced; otherwise the velocity is unchanged |
| Pointers.Positions | src/tracking/pointer.py:21-43 | the positions of a series of updates, in order |
| Pointers.FeedWindow | src/tracking/pointer.py:39-43 | after any series of updates the history holds min(old length + updates, 5) entries and history + position is the most recent suffix of all positions seen |
| Pointers.WindowStep | src/tracking/pointer.py:39-43 | one update moves the window of latest positions along by one, growing it up to five entries |
| Pointers.SuffixAppend | src/tracking/pointer.py:39-41 | appending a position extends the most recent window by that position |
| Pointers.SuffixDropFirst | src/tracking/pointer.py:40-41 | dropping the oldest entry of a window leaves the next smaller window |
| Pointers.PowPositive | src/tracking/pointer.py:56 | every power of 0.7 is positive |
| Pointers.PowStrictlyDecreasing | src/tracking/pointer.py:56 | higher powers of 0.7 are strictly smaller |
| Pointers.DecayWeights | src/tracking/pointer.py:56 | one weight per sample |
| Pointers.DecayWeightsPositive | src/tracking/pointer.py:56 | every smoothing weight is positive and the newest sample weighs exactly 0.7 |
| Pointers.DecayWeightsIncreasing | src/tracking/pointer.py:56 | the smoothing weights strictly increase toward the most recent sample |
| Pointers.SumPositive | src/tracking/pointer.py:57 | the sum of positive weights is positive, so the average never divides by zero |
| Pointers.TruncQuotientAtLeast | src/tracking/pointer.py:62 | a weighted sum at least lo times a positive weight sum truncates, after division, to at least lo |
| Pointers.TruncQuotientAtMost | src/tracking/pointer.py:62 | a weighted sum at most hi times a positive weight sum truncates, after division, to at most hi |
| Pointers.MeanAtLeast | src/tracking/pointer.py:55-62 | with positive weights, a lower bound of every sample's coordinate bounds the truncated weighted mean from below |
| Pointers.MeanAtMost | src/tracking/pointer.py:55-62 | with positive weights, an upper bound of every sample's coordinate bounds the truncated weighted mean from above |
| Pointers.MeanBetween | src/tracking/pointer.py:55-62 | with positive weights the weight sum is positive and the truncated weighted mean lies between the smallest and largest sample coordinate |
| Pointers.WeightedMean | src/tracking/pointer.py:55-62 | the truncated weighted mean on an axis lies between the samples' minimum and maximum on that axis |
| Pointers.Smoothed | src/tracking/pointer.py:45-62 | with no history the position is returned unchanged; otherwise each coordinate lies between the minimum and maximum of history + position on that axis |
| Pointers.SmoothedConstant | src/tracking/pointer.py:55-62 | if every sample equals p, the smoothed position is p |
| Pointers.FirstUpdateBiased | src/tracking/pointer.py:14-62 | the first update to (100, 100) stores the initial (0, 0) in the history and smooths to (58, 58) |
| Pointers.ConstantInputSettles | src/tracking/pointer.py:39-62 | after more than five updates to the same point p, the smoothed position is p |
| Pointers.VelocityMagnitude | src/tracking/pointer.py:64-70 | the speed is nonnegative and squares to the sum of the squared velocity components |
| Pointers.IsMoving | src/tracking/pointer.py:72-81 | the speed strictly exceeds the threshold (characterised without square roots by `IsMovingIff`) |
| Pointers.IsMovingIff | src/tracking/pointer.py:72-81 | for a nonnegative threshold, moving iff the squared speed exceeds the squared threshold; a negative threshold is always exceeded |
| Pointers.MovingAtDefaultThreshold | src/tracking/pointer.py:72-81 | at the default threshold of 100, moving iff the squared speed exceeds 10000 |
| Pointers.AtRestNotMoving | src/tracking/pointer.py:7-81 | a pointer never updated is not moving at any nonnegative threshold |
| Pointers.Pointer.constructor | src/tracking/pointer.py:7-19 | a new pointer carries its name, is at (0, 0) with no history, no update time, zero velocity, inactive |
| Pointers.Pointer.UpdatePosition | src/tracking/pointer.py:21-43 | the pointer's state becomes `Advance` of its old state; the history bound of five is kept |
| Pointers.PointerTracker.constructor | src/tracking/pointer.py:87-106 | five fresh pointers named after their fingers, primary `index`, inactive, screen 1920x1080, frame 640x480 |
| Pointers.PointerTracker.UpdateFromFingertips | src/tracking/pointer.py:108-117 | each of the five fingers present in the input is advanced to its new position; other fingers and unknown names change nothing |
| Pointers.PointerTracker.SetPrimaryPointer | src/tracking/pointer.py:119-126 | the primary pointer becomes the given name only if it is one of the five fingers |
| Pointers.PointerTracker.PrimaryPointerPosition | src/tracking/pointer.py:128-134 | the primary pointer's smoothed position: its position when it has no history, otherwise within its samples' range |
| Pointers.PointerTracker.IsPointerActive | src/tracking/pointer.py:136-142 | reports the active flag |
| Pointers.PointerTracker.SetPointerActive | src/tracking/pointer.py:144-150 | sets the active flag and nothing else |
| Pointers.PointerTracker.MapToScreenCoordinates | src/tracking/pointer.py:152-187 | with a region, nothing for points outside it and a screen pixel in [0, width] x [0, height] inside; without one, never "outside"; a zero divisor exactly when the region (for points inside it) or the frame has zero width or height |
| Pointers.PointerTracker.SetDimensions | src/tracking/pointer.py:189-199 | the frame size is always replaced and the screen size only when one is given |
| Pointers.PointerTracker.DetectPinch | src/tracking/pointer.py:201-220 | a pinch iff thumb and index positions are under 50 pixels apart, with confidence 1 - d/50 in (0, 1] |
| Pointers.ScaleTo | src/tracking/pointer.py:174-187 | `int(offset / extent * size)`: an offset within the extent lands on a screen pixel in [0, size] |
| Pointers.InRegion | src/tracking/pointer.py:170-171 | the point lies in the region, borders included |
| Pointers.FractionInRegion | src/tracking/pointer.py:170-175 | an offset inside a region is a fraction in [0, 1] of its extent |
| Pointers.FullFrameRegion | src/tracking/pointer.py:166-180 | a region covering the whole frame maps every in-frame point onto the screen |
| Pointers.PinchBySquares | src/tracking/pointer.py:210-213 | a pinch fires iff the squared thumb-index gap is under 2500 |
| MouseControl.Repeat | src/control/mouse_controller.py:74 | n copies of a point |
| MouseControl.Push | src/control/mouse_controller.py:91-93 | the history gains the newest position, drops the oldest beyond five, and keeps length five |
| MouseControl.BlendWeights | src/control/mouse_controller.py:96 | one weight per history slot |
| MouseControl.BlendWeightsShape | src/control/mouse_controller.py:96 | the history weights are positive, ascend toward the newest position and sum to 1 |
| MouseControl.Blended | src/control/mouse_controller.py:96-98 | the weighted history position on one axis (written out by `BlendedExplicit`, bounded by `BlendedWithinRange`) |
| MouseControl.BlendedExplicit | src/control/mouse_controller.py:96-98 | the blended position is 0.1, 0.15, 0.2, 0.25, 0.3 times the five history entries, oldest first |
| MouseControl.BlendedWithinRange | src/control/mouse_controller.py:96-98 | the blended position lies within the history's range on each axis |
| MouseControl.BlendedConstant | src/control/mouse_controller.py:96-98 | a history of one repeated point blends to that point |
| MouseControl.DeadZone | src/control/mouse_controller.py:108-119 | components under 0.8 in magnitude become 0; others lose exactly 0.8 of magnitude and keep their sign; the output never exceeds the input in magnitude |
| MouseControl.DeadZoneContinuousAtEdge | src/control/mouse_controller.py:110-119 | at magnitude exactly 0.8 the reduced value is 0, so the response has no jump |
| MouseControl.MovementDelta | src/control/mouse_controller.py:100-119 | on each axis the delta opposes the scaled shift of the blend from the last raw position (mirrored), never exceeds it in magnitude, and is zero exactly when the shift is at most 0.8 in magnitude |
| MouseControl.Smoothen | src/control/mouse_controller.py:124-129 | with no previous delta the move is the delta itself, and a delta equal to the previous one is emitted unchanged |
| MouseControl.MoveStep | src/control/mouse_controller.py:86-144 | without `move`, no action and not moving; with it, the history is pushed, the dead-zoned mirrored delta is computed, a move of 0.7 delta + 0.3 previous delta is emitted iff the delta is nonzero, and the unblended delta is stored |
| MouseControl.ButtonStep | src/control/mouse_controller.py:154-175 | press iff the gesture is present and the button is up, release iff it is absent and the button is down, at most one transition |
| MouseControl.ButtonsStep | src/control/mouse_controller.py:150-175 | buttons change only when more than the cooldown has passed since the last press; then each button follows its gesture independently and only a press records the time |
| MouseControl.Step | src/control/mouse_controller.py:40-175 | inactive: forget the raw position, stop moving, emit nothing; first active frame: record the raw position, zero delta, seed the history only if none exists, emit nothing; later frames: record the raw position, move only under `move`, change buttons only past the cooldown |
| MouseControl.SecondFrameMirrored | src/control/mouse_controller.py:101-106 | right after initialisation, a hand moving right by dx never moves the cursor right, and once 0.3 x dx x sensitivity clears the dead zone a leftward move of 0.7 x (0.8 - 0.3 x dx x sensitivity) is emitted: the controls are mirrored |
| MouseControl.SecondFrameNeverRight | src/control/mouse_controller.py:96-106 | right after initialisation, a hand moving right produces no rightward cursor move |
| MouseControl.BlendAfterOnePush | src/control/mouse_controller.py:90-98 | a history of five copies of q after one push of p blends to 0.7 q + 0.3 p |
| MouseControl.ShiftEmitsMove | src/control/mouse_controller.py:86-144 | after a zero previous delta, a blend shifted right of the last raw position by more than the dead zone (scaled) emits a leftward move of 0.7 times the dead-zoned shift |
| MouseControl.HeldGesturePressesOnce | src/control/mouse_controller.py:154-159 | holding the left-click gesture over two frames never presses the button twice |
| MouseControl.ReleaseWaitsForCooldown | src/control/mouse_controller.py:152-163 | a left press followed by letting go within the cooldown keeps the button held |
| MouseControl.ReactivationDoesNotJump | src/control/mouse_controller.py:48-83 | after a deactivation the reactivation frame itself emits nothing and keeps the old history |
| MouseControl.ReactivationJumpsNextFrame | src/control/mouse_controller.py:67-106 | with a kept history of q and the hand back and still at p, the frame after reactivation emits a leftward move of 0.7 x (0.8 - 0.7 x (q.x - p.x) x sensitivity) once that clears the dead zone: the jump is deferred, not prevented |
| MouseControl.MouseController.constructor | src/control/mouse_controller.py:8-36 | a new controller holds the given smoothing and sensitivity, cooldown 0.3, and the initial state |
| MouseControl.MouseController.WithDefaults | src/control/mouse_controller.py:8-36 | a controller built without arguments has smoothing 0.2, sensitivity 4.0, cooldown 0.3 and the initial state |
| MouseControl.MouseController.UpdateMouse | src/control/mouse_controller.py:40-175 | the new state and the emitted actions are exactly `Step` of the old state, with the tracker's active flag and primary pointer position |
| MouseControl.MouseController.ApplyMovement | src/control/mouse_controller.py:86-144 | the movement block changes the state and emits actions exactly as `MoveStep` |
| MouseControl.MouseController.ApplyButtons | src/control/mouse_controller.py:150-175 | the button block changes the state and emits actions exactly as `ButtonsStep` |
| SettingsStore.Defaults | src/settings/settings.py:13-40 | the defaults include both click thresholds 0.2244444444, move threshold 0.2877777778, dead zone 0.8, mouse sensitivity 6.0 |
| SettingsStore.Merge | src/settings/settings.py:55 | loaded keys override, all other current keys keep their values, and the keys are the union |
| SettingsStore.MergeIdempotent | src/settings/settings.py:48-60 | loading the same entries twice has the effect of loading them once |
| SettingsStore.ReloadSaved | src/settings/settings.py:55-69 | loading back the saved settings changes nothing, and after a reset restores them when they cover every default |
| SettingsStore.Settings.constructor | src/settings/settings.py:8-46 | the defaults are the fixed defaults, and the current settings are a copy of them merged with the settings file if it could be read |
| SettingsStore.Settings.Load | src/settings/settings.py:48-60 | a readable file's entries are merged in; a missing or malformed file changes nothing |
| SettingsStore.Settings.Get | src/settings/settings.py:71-73 | the stored value, or the caller's default when the key is absent |
| SettingsStore.Settings.Set | src/settings/settings.py:75-77 | afterwards the key reads back the value, every other key reads as before, and the key set gains the key |
| SettingsStore.Settings.Reset | src/settings/settings.py:79-81 | the current settings equal the (never modified) defaults |
| HandTracking.LandmarkIds | src/tracking/hand_tracker.py:106-149 | every name maps to one of the 21 landmarks, and the five tips and all `avg_`/`bottom_` names are present |
| HandTracking.PipAliases | src/tracking/hand_tracker.py:121-148 | each `avg_` name is the same landmark as the finger's `pip_` name |
| HandTracking.McpAliases | src/tracking/hand_tracker.py:121-148 | each `bottom_` name is the same landmark as the finger's `mcp_` name, and `palm_center` that of `mcp_middle` |
| HandTracking.NamedPixels | src/tracking/hand_tracker.py:151-156 | one entry per table name, each inside the frame when its landmark's coordinates lie in [0, 1] |
| HandTracking.Fingertips | src/tracking/hand_tracker.py:151-156 | exactly the table's names, the five fingertips among them |
| HandTracking.ToPixel | src/tracking/hand_tracker.py:155 | a landmark whose normalised coordinate lies in [0, 1] lands on a pixel inside the frame on that axis |
| HandTracking.AliasesAgree | src/tracking/hand_tracker.py:121-156 | alias names always carry the same pixel as the names they alias |
| HandTracking.GetFingertips | src/tracking/hand_tracker.py:93-158 | the result has exactly the table's names, each at the truncated pixel (int(x w), int(y h)) of its landmark |
| HandTracking.FillPositions | src/tracking/hand_tracker.py:151-156 | the fill loop produces one entry per table name at its landmark's pixel |
| HandTracking.HandExtent | src/tracking/hand_tracker.py:66-75 | every landmark pixel lies inside the box, and each side is its starting value or some landmark's coordinate |
| HandTracking.Padded | src/tracking/hand_tracker.py:78-82 | the padded box lies within the frame, never shrinks a box inside the frame, and each side is padded by 20 or clamped |
| HandTracking.HighlightBox | src/tracking/hand_tracker.py:61-82 | the highlight box lies within the frame and contains every landmark pixel that lies within the frame |

## Left out

- The thread pool, the 50 ms completion timeout, exception handling and the lock of `detect_gestures`: the merge is modelled sequentially, and `Gestures.CompletionOrderIrrelevant` shows the completion order cannot matter; timeouts and faults are not modelled.
- Drawing (`draw_gesture_feedback`, `draw_fingertips`, the rectangles of `_highlight_hand`) and the hand-landmark model's `process` calls in `find_hands`: image I/O, not logic.
- `get_palm_size`: floating-point geometry over the landmark model's objects; the palm size is a parameter of the classifiers.
- The numeric library's `sqrt` and `arctan2` are parameters; `sqrt` is assumed to return the nonnegative square root of a nonnegative argument (`sqrt(0) = 0`, `sqrt(k*k*x) = k*sqrt(x)` and `sqrt(x) < t` iff `x < t*t` are proved from that), and `arctan2` an angle in [0, `HalfPiAbove`] for a nonnegative `y` and a positive `x`.
- IEEE floating-point rounding: all arithmetic is over reals.
- RealMath.IsArcTan2: bounds `arctan2` by a decimal just above pi/2 rather than by `Pi / 2.0`, because the decimal `numpy.pi` lies below the true pi and a faithful `arctan2` exceeds half of it for very steep segments; the vertical case still yields `Pi / 2.0`.
- Operating-system pointer calls become emitted `Action`s; reading the cursor position (`last_cursor_position`), querying the screen size and the fail-safe/pause setup are left out.
- The clock: `now` is a parameter of every time-dependent operation.
- `inactivity_time` and `inactivity_threshold` are set in the controller's constructor and never read.
- MouseControl.MouseController.UpdateMouse: the early return when the primary pointer position is missing is not modelled, because the smoothed position always exists.
- MouseControl.MouseController.constructor: keeps `smoothing` only as a field, because `update_mouse` never reads it.
- Pointers.Pointer.constructor: `is_active` is kept as a field that nothing sets, as in the source.
- Reading and writing the settings file as JSON and `save`: only the merge performed by `load` is modelled, with the file's outcome as a parameter.
- Gestures.MoveGesture: scale invariance is not claimed for `move`, because the truncated midpoint does not scale exactly.
- The application window, its processing thread and frame queues, the settings dialog and camera I/O are not part of this model.
