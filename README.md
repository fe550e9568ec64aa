# Jarvis hand-gesture pipeline, modelled in Dafny

This project models the gesture-control core of Jarvis, a desktop assistant
that watches one hand through a webcam and drives the mouse, the scroll wheel
and the volume keys. The core has four stages, one Dafny module each:

- `Detector` (`detector.dfy`) covers `HandLandmarks`. It models the 21 landmarks
  and the palm centre. It models which fingers are extended: the thumb by an
  x-axis test that flips with the handedness label, the other four by
  tip-versus-PIP distances from the wrist. It also models the bounding box
  that `HandDetector.detect` derives from the landmarks.
- `Recognizer` (`recognizer.dfy`) covers `GestureRecognizer`. It models the
  first-match classifier over the extended-finger list and the normalised
  thumb-index distance. It also models the hold timer and the normalised palm
  position. The recognizer is a class whose `Recognize` and `Reset` methods
  update its fields.
- `Mappings` (`mappings.dfy`) covers the gesture enum, the table
  `GESTURE_ACTIONS`, `get_gesture_action` and `get_all_gestures`.
- `Controller` (`controller.dfy`) covers the dispatcher of `JarvisController`,
  i.e. `_handle_gesture` and `_move_cursor`. What one call does is specified by
  `HandleGestureSpec`, a function from the previous state to the new state
  plus the device commands issued. The methods of the class
  `JarvisController` are proved to do exactly that. The dispatcher's
  properties are lemmas about the function:
  - the cooldown;
  - the drag life cycle;
  - volume mode and text selection;
  - keeping the cursor on screen;
  - convergence of the cursor smoothing.

`Numeric` (`numeric.dfy`) holds Python's `int()` truncation,
`max(lo, min(hi, v))`, `np.clip` and `min`/`max` over a list. `Wrappers`
(`wrappers.dfy`) holds `Option`.

The model works on inputs instead of calling out to the outside world:

- Device commands (`pyautogui.moveTo`, `click`, `rightClick`, `middleClick`,
  `mouseDown`, `mouseUp`, `scroll`, `press`) and spoken replies (`_say`) are
  `Action` values, appended to the controller's `actions` log.
- The clock (`time.time()`), the hold time (`GESTURE_HOLD_TIME`, 0.05 s in
  `jarvis/config.py`), the mouse position (`pyautogui.position()`), the
  screen size, `SCREEN_MARGIN`, the frame size and the detected hand are
  parameters.

Euclidean norms are compared squared throughout. Lemmas
(`Detector.FingerIsExtendedMatchesNorms`,
`Recognizer.NormalizedDistanceMatchesNorms`) show that the squared tests give
the same answers as the source's tests on the norms.

Facts about the code that the model keeps as they are:

- The code does not keep dragging, volume mode and selection mode
  exclusive. `Controller.ModesCanOverlap` shows a held pinch followed by a
  held OK sign, which leaves volume mode and selection mode both on.
- The code hard-codes the cooldowns (0.5 s, 0.2 s, 2.0 s), the scroll amount
  (3), the volume sensitivity (3 pixels per percent), the active-zone inset
  (20%) and the smoothing factor (0.3); the model uses the same constants.
- Scrolling down is `scroll(-3)`, written `Scroll(-3)` in the model.

## Model

| member | source | states |
|---|---|---|
| Numeric.Trunc | jarvis/main.py:391-392 | `int()` of a float truncates toward zero: floor for non-negative values, ceiling for negative ones |
| Numeric.TruncMonotone | jarvis/gestures/detector.py:242-243 | truncation preserves order, so the truncated minimum never exceeds the truncated maximum |
| Numeric.TruncBetween | jarvis/main.py:406-407 | a value between two integers truncates to an integer between them |
| Numeric.ClampInt | jarvis/main.py:395-396 | `max(lo, min(hi, v))` lies in [lo, hi] whenever lo <= hi; it is `v` itself when `v` is in range, lo when `v` is below lo, and hi when `v` is above hi (with lo <= hi) |
| Numeric.ClipReal | jarvis/main.py:387-388 | clipping lands in [lo, hi]; below the range gives lo, above it gives hi, inside it the value is unchanged |
| Numeric.MinOf | jarvis/gestures/detector.py:242-243 | `min` of a non-empty list is one of its elements and bounds every element from below |
| Numeric.MaxOf | jarvis/gestures/detector.py:242-243 | `max` of a non-empty list is one of its elements and bounds every element from above |
| Numeric.SquareMonotone | jarvis/gestures/detector.py:94-97 | for non-negative reals, a < b exactly when a*a < b*b (this is why comparing squared norms is faithful) |
| Detector.PlanarDistSq | jarvis/gestures/detector.py:94-95 | the squared planar (x, y) distance is never negative |
| Detector.DistSq3 | jarvis/gestures/recognizer.py:174 | the squared 3-D distance is never negative |
| Detector.PalmPoints | jarvis/gestures/detector.py:72-76 | the palm centre averages exactly five landmarks |
| Detector.PalmCenterWithinPalm | jarvis/gestures/detector.py:72-76 | each coordinate of the palm centre lies between the smallest and largest value of that coordinate among landmarks 0, 5, 9, 13, 17 |
| Detector.FingerIsExtendedMatchesNorms | jarvis/gestures/detector.py:78-97 | for the true norms, the squared test says "extended" exactly when `tip_dist > pip_dist` |
| Detector.FingerIgnoresMcpAndDip | jarvis/gestures/detector.py:89-97 | moving a finger's MCP or DIP landmark never changes whether that finger counts as extended |
| Detector.Rank | jarvis/gestures/detector.py:106-112 | each finger has one of five positions in the finger table |
| Detector.SelectMembership | jarvis/gestures/detector.py:126-129 | a finger is in the filtered list exactly when it was a candidate and is extended |
| Detector.SelectCanonical | jarvis/gestures/detector.py:126-129 | filtering a list in table order keeps it in table order with no duplicates, and never lengthens it |
| Detector.NamesOfCanonical | jarvis/gestures/detector.py:99-131 | the extended-finger list is in thumb-to-pinky order, has no duplicates, has at most five entries and holds exactly the extended digits |
| Detector.NamesOfExplicit | jarvis/gestures/detector.py:114-131 | the extended-finger list, written out digit by digit |
| Detector.GetExtendedFingers | jarvis/gestures/detector.py:99-131 | the loop returns the canonical extended-finger list. The thumb is in it exactly when its tip lies on the extended side of landmark 2 for the hand's label. Each other finger is in it exactly when its tip is farther from the wrist than its PIP joint |
| Detector.Wrist | jarvis/gestures/detector.py:42-45 | defines the wrist as landmark 0 |
| Detector.ThumbTip | jarvis/gestures/detector.py:47-50 | defines the thumb tip as landmark 4 |
| Detector.IndexTip | jarvis/gestures/detector.py:52-55 | defines the index tip as landmark 8 |
| Detector.MiddleTip | jarvis/gestures/detector.py:57-60 | defines the middle-finger tip as landmark 12 |
| Detector.RingTip | jarvis/gestures/detector.py:62-65 | defines the ring-finger tip as landmark 16 |
| Detector.PinkyTip | jarvis/gestures/detector.py:67-70 | defines the pinky tip as landmark 20 |
| Detector.PalmCenter | jarvis/gestures/detector.py:72-76 | defines the palm centre as the coordinate-wise mean of landmarks 0, 5, 9, 13 and 17; its bounds are `PalmCenterWithinPalm` |
| Detector.FingerIsExtended | jarvis/gestures/detector.py:78-97 | defines extension as the tip being farther from the wrist than the PIP joint in the image plane; `FingerIsExtendedMatchesNorms` ties it to the norms |
| Detector.ThumbExtended | jarvis/gestures/detector.py:116-124 | defines the thumb test: tip x left of landmark 2 for a "Right" hand, right of it otherwise |
| Detector.BoundingBox | jarvis/gestures/detector.py:240-244 | the box starts at the truncated minimum x and y, ends at the truncated maximum, and has non-negative width and height |
| Detector.BoundingBoxContainsLandmarks | jarvis/gestures/detector.py:240-244 | every landmark, truncated to whole pixels, lies inside the box |
| Recognizer.NormalizedDistanceSq | jarvis/gestures/recognizer.py:164-180 | the value is non-negative. It is the sentinel 1.0 for a hand smaller than one pixel. Otherwise, times the squared hand size, it gives the squared planar distance |
| Recognizer.NormalizedDistanceMatchesNorms | jarvis/gestures/recognizer.py:164-180 | for the true norms, the sentinel branch is taken exactly when `hand_size < 1`. In the other branch the model is the square of `distance / hand_size`. The model is below the squared threshold exactly when the source's value is below `PINCH_THRESHOLD` |
| Recognizer.HandSizeSq | jarvis/gestures/recognizer.py:173-174 | defines the squared hand size as the 3-D distance from the wrist to landmark 9, squared |
| Recognizer.RecognizedGesture | jarvis/gestures/recognizer.py:64-74 | defines the reported gesture: the classifier applied to the extended-finger list and the normalised thumb-index distance |
| Recognizer.ClassifyGesture | jarvis/gestures/recognizer.py:104-162 | never HOOK. A pinch distance gives PINCH or OK_SIGN, and OK_SIGN exactly when middle, ring and pinky are out. Otherwise the gesture is FIST exactly for an empty list. A thumb-only list gives THUMBS_UP or THUMBS_DOWN exactly beyond the 15-pixel margin and NONE within it |
| Recognizer.ClassifyReadsOnlyThumbAndWristY | jarvis/gestures/recognizer.py:127-136 | the classifier reads the hand only through the y coordinates of the thumb tip and the wrist |
| Recognizer.AllFiveNeedFive | jarvis/gestures/recognizer.py:112 | a list naming all five digits has at least five entries |
| Recognizer.AllFiveIsOpenPalm | jarvis/gestures/recognizer.py:158-160 | without a pinch, five extended digits are an open palm |
| Recognizer.ClassifyMatchesReference | jarvis/gestures/recognizer.py:104-162 | on every list the finger extractor can produce, the list-based chain agrees with an independent rule set over which digits are extended |
| Recognizer.NamesOfLength | jarvis/gestures/recognizer.py:112 | `len(extended)` is the number of extended digits |
| Recognizer.PeaceScenario | jarvis/gestures/recognizer.py:143-145 | index and middle out at thumb-index distance 0.5 is a peace sign |
| Recognizer.SmallHandNeverPinches | jarvis/gestures/recognizer.py:176-177 | the sentinel distance of a hand smaller than a pixel is never classified as PINCH or OK_SIGN |
| Recognizer.CountExtended | jarvis/gestures/recognizer.py:112 | at most five digits are extended |
| Recognizer.ClipRatio | jarvis/gestures/recognizer.py:93-94 | `np.clip(a / b, 0, 1)` lies in [0, 1] |
| Recognizer.NormalizedPosition | jarvis/gestures/recognizer.py:86-94 | both coordinates of the reported position lie in [0, 1] |
| Recognizer.GestureRecognizer.constructor | jarvis/gestures/recognizer.py:48-52 | no previous gesture, start time 0, position (0.5, 0.5) |
| Recognizer.GestureRecognizer.Recognize | jarvis/gestures/recognizer.py:54-102 | reports the classified gesture of the hand. The hold timer restarts exactly when the gesture differs from the previous one, and the gesture counts as held exactly when `now - start >= hold time`, so a new gesture is not held for a positive hold time. Also reports the hand's confidence and the clipped palm position |
| Recognizer.GestureRecognizer.Reset | jarvis/gestures/recognizer.py:182-185 | forgets the previous gesture and zeroes the start time |
| Recognizer.ResetRestartsTiming | jarvis/gestures/recognizer.py:182-185 | after a reset, the next recognition starts its hold at `now` and is not held |
| Mappings.Name | jarvis/gestures/mappings.py:13-27 | defines each gesture's enum name, from NONE to HOOK |
| Mappings.Lookup | jarvis/gestures/mappings.py:127-129 | `.get` finds nothing exactly when the gesture is not a key; what it finds is paired with that gesture in the table |
| Mappings.GetGestureAction | jarvis/gestures/mappings.py:127-129 | defines `get_gesture_action` as the lookup in the table; `GetGestureActionDefinedness` states its results |
| Mappings.EntriesNameTheirKey | jarvis/gestures/mappings.py:43-124 | each entry's `gesture` field names its own key |
| Mappings.KeysDistinct | jarvis/gestures/mappings.py:43-124 | no gesture has two entries |
| Mappings.KeysOfTable | jarvis/gestures/mappings.py:43-124 | the table has exactly the ten gestures from OPEN_PALM to OK_SIGN, in that order |
| Mappings.GetGestureActionDefinedness | jarvis/gestures/mappings.py:127-129 | `get_gesture_action` returns None exactly for NONE and HOOK, and otherwise the action of that very gesture |
| Mappings.ContinuousGestures | jarvis/gestures/mappings.py:43-124 | the continuous actions are exactly those of OPEN_PALM, FIST, THUMBS_UP, THUMBS_DOWN and PINCH |
| Mappings.ContinuousAt | jarvis/gestures/mappings.py:43-124 | the continuous flag of each entry, by position |
| Mappings.InfoList | jarvis/gestures/mappings.py:132-142 | one record per entry, in order, built from that entry |
| Mappings.GetAllGestures | jarvis/gestures/mappings.py:132-142 | defines `get_all_gestures` as the records of the table's entries; `AllGesturesListing` states them |
| Mappings.AllGesturesListing | jarvis/gestures/mappings.py:132-142 | ten records in table order, each naming the gesture and copying the action's name, description and continuous flag |
| Controller.AxisTarget | jarvis/main.py:379-396 | the mapped screen coordinate lies within the screen margins |
| Controller.ActiveZonePosition | jarvis/main.py:379-388 | the palm's position within the central 60% of the frame is a fraction in [0, 1] |
| Controller.CursorTarget | jarvis/main.py:379-396 | the unsmoothed target is on screen whenever the margins leave room |
| Controller.SmoothAxis | jarvis/main.py:398-407 | a smoothed coordinate never leaves the range between the previous and the target coordinate |
| Controller.Smoothed | jarvis/main.py:398-407 | from the (0, 0) sentinel the cursor jumps straight to the target; otherwise each coordinate lies between the previous and the target one |
| Controller.MoveCursorStaysOnScreen | jarvis/main.py:371-411 | from an on-screen or never-moved cursor, `_move_cursor` lands inside the margins |
| Controller.SmoothStep | jarvis/main.py:406-407 | one step towards a fixed target: from above it comes strictly closer without passing the target. From below it comes strictly closer while two or more pixels short, and one pixel short it stays put |
| Controller.SmoothConverges | jarvis/main.py:398-407 | with a constant target for at least as many frames as the distance, the cursor ends within one pixel below the target, and exactly on it when it started at or above it (no overshoot) |
| Controller.RepeatCount | jarvis/main.py:328-332 | n copies of one press hold n of that action and none of any other |
| Controller.NewVolume | jarvis/main.py:320-323 | defines the target volume: the current one plus `int(delta_y / 3)`, clamped to [0, 100] |
| Controller.VolumeStep | jarvis/main.py:319-335 | defines a volume step: at most five presses of the matching key and the new volume and reference height, or nothing when the volume is unchanged; `VolumeStreak` states its properties |
| Controller.PinchBranch | jarvis/main.py:310-340 | defines the pinch branch: enter volume mode, take a volume step, or leave volume mode |
| Controller.OkSignBranch | jarvis/main.py:347-364 | defines the OK-sign branch: start a selection with a press, move the cursor, or end it with a release |
| Controller.FistBranch | jarvis/main.py:288-293 | defines the fist branch: press unless dragging, then move the cursor |
| Controller.LaterGestureBranch | jarvis/main.py:295-364 | defines the chain from THUMBS_UP to OK_SIGN, in the source's order |
| Controller.GestureBranch | jarvis/main.py:273-364 | defines the whole `if/elif` chain, in the source's order |
| Controller.ReleaseDrag | jarvis/main.py:366-369 | defines the final drag release: a MouseUp, and no drag, for any gesture but FIST while dragging |
| Controller.Dispatch | jarvis/main.py:264-369 | defines one call on its inputs: nothing during the cooldown, otherwise the chain followed by the drag release |
| Controller.HandleGestureSpec | jarvis/main.py:259-369 | defines one call of `_handle_gesture` on a frame; the lemmas below state its properties and `JarvisController.HandleGesture` is proved to do it |
| Controller.HandleGesturePreservesInvariant | jarvis/main.py:259-369 | every call keeps the volume in [0, 100] and the cursor on screen or unmoved |
| Controller.DispatchKeepsVolumeInRange | jarvis/main.py:319-335 | the volume stays in [0, 100] |
| Controller.DispatchMovesCursorTo | jarvis/main.py:273-358 | the cursor afterwards is where it was or where `_move_cursor` puts it |
| Controller.CooldownSuppressesEverything | jarvis/main.py:264-267 | during the cooldown a call changes nothing and issues nothing, not even a drag release |
| Controller.HeldFistDrags | jarvis/main.py:288-293 | a held fist presses the button only when no drag is under way, then moves the cursor; a drag is then under way |
| Controller.SomeFrameFromCons | jarvis/main.py:264-267 | some frame of a non-empty list has passed the cooldown exactly when its first frame has or some later frame has |
| Controller.HeldFistStreakPressesOnce | jarvis/main.py:288-369 | a streak of held fists presses the button at most once (once exactly when no drag was under way and some frame passed the cooldown). It never releases the button and never changes the cooldown |
| Controller.BranchButtonEvents | jarvis/main.py:288-364 | the branch chain presses the button only to start a drag or a selection, and releases it only to end a selection |
| Controller.OtherGestureReleasesDrag | jarvis/main.py:366-369 | past the cooldown, any gesture but FIST ends with no drag under way. It issues the branch's actions followed by one MouseUp exactly when a drag was under way |
| Controller.DiscreteGestureFires | jarvis/main.py:278-345 | held POINT / PEACE / THREE_FINGERS click left / right / middle with a 0.5 s cooldown. THUMBS_UP / THUMBS_DOWN scroll +3 / -3 with 0.2 s. ROCK announces voice mode with 2.0 s. Nothing else changes except the drag release |
| Controller.DiscreteGestureDebounced | jarvis/main.py:264-308 | two held calls of the same discrete gesture closer together than its cooldown fire its action at most once |
| Controller.VolumeStreak | jarvis/main.py:319-335 | a volume step moves the volume to the clamped new value. It presses the matching key at most five times and never more often than the change, presses nothing exactly when the volume does not change, and resets the reference height exactly when it does |
| Controller.VolumeScenario | jarvis/main.py:319-335 | raising a pinched hand 30 pixels takes the volume from 50 to 60 with five presses of volumeup |
| Controller.PinchModeTransitions | jarvis/main.py:310-340 | the first held pinch only enters volume mode and records the palm height. Later held pinches take a volume step. A pinch that is not held leaves volume mode |
| Controller.SelectionTransitions | jarvis/main.py:347-364 | the first held OK sign presses the button and records the mouse position. Later held OK signs move the cursor. Releasing ends the selection with a MouseUp |
| Controller.ModesPersistAcrossOtherGestures | jarvis/main.py:310-364 | volume state changes only on pinch frames and selection state only on OK-sign frames |
| Controller.ModesCanOverlap | jarvis/main.py:310-364 | from the initial state, a held pinch then a held OK sign leaves both modes on at once |
| Controller.IdleFrame | jarvis/main.py:273-369 | frames with no gesture, HOOK, or a non-held gesture other than pinch and OK sign issue only the drag release and change nothing else |
| Controller.JarvisController.constructor | jarvis/main.py:84-96 | the initial state: cursor (0, 0), cooldown 0, no drag, volume mode off at 50%, no selection |
| Controller.JarvisController.MoveCursor | jarvis/main.py:371-411 | moves the pointer to the smoothed target and records it, changing nothing else |
| Controller.JarvisController.PressRepeatedly | jarvis/main.py:328-332 | the press loop issues exactly n presses of the key |
| Controller.JarvisController.AdjustVolume | jarvis/main.py:319-335 | the volume step, as `VolumeStep` specifies it |
| Controller.JarvisController.HandlePinch | jarvis/main.py:310-340 | the pinch branch, as `PinchBranch` specifies it |
| Controller.JarvisController.HandleOkSign | jarvis/main.py:347-364 | the OK-sign branch, as `OkSignBranch` specifies it |
| Controller.JarvisController.HandleLaterGestures | jarvis/main.py:295-364 | the chain from THUMBS_UP on, as `LaterGestureBranch` specifies it |
| Controller.JarvisController.HandleGestureBranches | jarvis/main.py:273-364 | the whole branch chain, as `GestureBranch` specifies it |
| Controller.JarvisController.HandleGesture | jarvis/main.py:259-369 | one call does what `HandleGestureSpec` says, so every lemma above holds of it. It keeps the volume in range and the cursor on screen |

## Left out

- The camera loop, `start`/`stop`, preview windows, the on-screen HUD, landmark drawing, voice listening, speech output, the AI agent and the tool modules are not modelled. They are I/O around the core.
- MediaPipe itself is not modelled: `HandDetector.detect` is represented only by the bounding-box arithmetic it applies to the landmarks. The model takes the landmarks as given, scaled to pixels.
- Floating point is modelled by exact reals. The smoothing factor `1 - 0.3` and the 20% inset are exact, so results a float rounding error away from an integer can truncate differently. NaN and infinite coordinates are not modelled.
- Recognizer.ClipRatio: `0 / 0` gives NaN in numpy and NaN survives `np.clip`; the model returns 0 for it. A zero divisor with a non-zero numerator gives the infinity's clip, 1 or 0, as numpy does.
- Controller.AxisTarget: requires a positive frame size, because a captured camera frame is never empty. For a zero-size frame the source divides a numpy float by zero, giving an infinity or NaN, which the clip turns into 1 or 0 (NaN aside); the model does not cover that case.
- Controller.JarvisController.HandleGesture: also requires `Valid()`. The constructor establishes it and every call keeps it.
- Controller.JarvisController.HandleGesture: `time.time()` is a parameter, and so is the palm centre of the hand. The recognizer and the dispatcher read the clock separately, so their two `now` values are independent parameters.
- `running` is kept as a field that the dispatcher never changes. `MAX_MOUSE_SPEED` and `CURSOR_SMOOTHING_FACTOR` are imported by the controller but never used in `_handle_gesture` or `_move_cursor`, so they are not modelled. `FINGER_CLOSE_THRESHOLD` is declared as `Recognizer.FingerCloseThreshold`, mirroring the source, and like there it is never read.
- `print` logging is left out. The strings passed to `_say` are kept as `Say` actions.
- Which hand is chosen (`hands[0]`) and the order of recognize-then-dispatch per frame belong to the camera loop. `Controller.Run` composes dispatcher calls over a list of frames that is given.
