/**
 * The gesture dispatcher of `JarvisController` (jarvis/main.py): the state
 * fields it keeps across frames, `_handle_gesture` and `_move_cursor`.
 *
 * Every call into the operating system (`pyautogui.*`) and every spoken reply
 * (`_say`) is an `Action` appended to the controller's `actions` log. The
 * clock (`time.time()`), the mouse position (`pyautogui.position()`), the
 * screen size, the frame size and the hand are parameters.
 *
 * `HandleGestureSpec` states, as a function of the previous state, what one
 * call does; the `JarvisController` methods are proved to do exactly that, and
 * the lemmas below state the dispatcher's properties about the function.
 */
module Controller {
  import opened Wrappers
  import opened Numeric
  import opened Detector
  import opened Mappings
  import opened Recognizer

  datatype Button = LeftButton | RightButton | MiddleButton

  /** The device commands the dispatcher issues. */
  datatype Action =
    | MoveTo(x: int, y: int)      // pyautogui.moveTo
    | MouseDown                   // pyautogui.mouseDown
    | MouseUp                     // pyautogui.mouseUp
    | Click(button: Button)       // pyautogui.click / rightClick / middleClick
    | Scroll(clicks: int)         // pyautogui.scroll
    | Press(key: string)          // pyautogui.press
    | Say(text: string)           // JarvisController._say

  type Pos = (int, int)

  /** Screen size in pixels and `SCREEN_MARGIN`. */
  datatype ScreenConfig = ScreenConfig(width: int, height: int, margin: int)

  /** The margins leave a non-empty range on both axes. */
  predicate ScreenFits(scr: ScreenConfig) {
    scr.width >= 2 * scr.margin && scr.height >= 2 * scr.margin
  }

  predicate OnScreen(p: Pos, scr: ScreenConfig) {
    scr.margin <= p.0 <= scr.width - scr.margin && scr.margin <= p.1 <= scr.height - scr.margin
  }


  const ClickCooldown: real := 0.5
  const ScrollCooldown: real := 0.2
  const VoiceCooldown: real := 2.0
  const ScrollClicks: int := 3
  /** At most this many volume key presses per frame. */
  const MaxVolumePresses: int := 5
  const VoiceActivatedText: string := "Voice command mode activated"

  // ---------------------------------------------------------------------------
  // Cursor mapping (_move_cursor)
  // ---------------------------------------------------------------------------

  /**
   * One axis of the palm-to-screen mapping: normalise within the central 60%
   * of the frame, clip to [0, 1], scale to the screen and truncate, then clamp
   * to the screen margins.
   */
  function AxisTarget(p: real, frameSize: int, screenSize: int, margin: int): (s: int)
    requires frameSize > 0
    ensures margin <= screenSize - margin ==> margin <= s <= screenSize - margin
  {
    ClampInt(margin, screenSize - margin, Trunc(ActiveZonePosition(p, frameSize) * screenSize as real))
  }

  /**
   * Where `p` lies within the central 60% of the frame (20% is cut off on
   * each side), as a fraction clipped to [0, 1].
   */
  function ActiveZonePosition(p: real, frameSize: int): (n: real)
    requires frameSize > 0
    ensures 0.0 <= n <= 1.0
  {
    var inset := frameSize as real * 0.2;
    ClipReal((p - inset) / (frameSize as real - 2.0 * inset), 0.0, 1.0)
  }

  /** The clamped screen position the palm maps to, before smoothing. */
  function CursorTarget(palm: Point3, frameW: int, frameH: int, scr: ScreenConfig): (t: Pos)
    requires frameW > 0 && frameH > 0
    ensures ScreenFits(scr) ==> OnScreen(t, scr)
  {
    (AxisTarget(palm.x, frameW, scr.width, scr.margin), AxisTarget(palm.y, frameH, scr.height, scr.margin))
  }

  function MinInt(a: int, b: int): int { if a <= b then a else b }
  function MaxInt(a: int, b: int): int { if a >= b then a else b }

  /**
   * One axis of the exponential smoothing with factor 0.3 (the literal in
   * `_move_cursor`; `CURSOR_SMOOTHING_FACTOR` is not used), truncated; it
   * never leaves the range between `last` and `target`.
   */
  function SmoothAxis(last: int, target: int): (r: int)
    ensures MinInt(last, target) <= r <= MaxInt(last, target)
  {
    var v := last as real + (target - last) as real * (1.0 - 0.3);
    TruncBetween(v, MinInt(last, target), MaxInt(last, target));
    Trunc(v)
  }

  /**
   * The smoothed cursor position. A previous position of (0, 0) means "no
   * move yet": the cursor then jumps straight to the target. Otherwise each
   * coordinate lies between the previous and the target coordinate.
   */
  function Smoothed(last: Pos, target: Pos): (r: Pos)
    ensures last == (0, 0) ==> r == target
    ensures last != (0, 0) ==>
              MinInt(last.0, target.0) <= r.0 <= MaxInt(last.0, target.0) &&
              MinInt(last.1, target.1) <= r.1 <= MaxInt(last.1, target.1)
  {
    var start := if last.0 == 0 && last.1 == 0 then target else last;
    (SmoothAxis(start.0, target.0), SmoothAxis(start.1, target.1))
  }

  /**
   * `_move_cursor` keeps the cursor on screen: from a previous position that
   * is on screen, or is the (0, 0) "no move yet" sentinel, the new position is
   * inside the margins (when the margins leave room).
   */
  lemma MoveCursorStaysOnScreen(last: Pos, palm: Point3, frameW: int, frameH: int, scr: ScreenConfig)
    requires frameW > 0 && frameH > 0
    requires ScreenFits(scr)
    requires last == (0, 0) || OnScreen(last, scr)
    ensures OnScreen(Smoothed(last, CursorTarget(palm, frameW, frameH, scr)), scr)
  {
    var t := CursorTarget(palm, frameW, frameH, scr);
    var r := Smoothed(last, t);
    if last != (0, 0) {
      assert MinInt(last.0, t.0) >= scr.margin && MaxInt(last.0, t.0) <= scr.width - scr.margin;
      assert MinInt(last.1, t.1) >= scr.margin && MaxInt(last.1, t.1) <= scr.height - scr.margin;
    }
  }

  /**
   * One smoothing step towards a fixed target on non-negative coordinates:
   * from above it comes strictly closer without passing the target; from
   * below it comes strictly closer while more than one pixel short, and a
   * cursor one pixel short stays there (0.7 of one pixel truncates to 0).
   */
  lemma SmoothStep(last: int, target: int)
    requires last >= 0 && target >= 0
    ensures last == target ==> SmoothAxis(last, target) == target
    ensures last > target ==> target <= SmoothAxis(last, target) < last
    ensures last < target ==> last <= SmoothAxis(last, target) < target
    ensures last + 2 <= target ==> last < SmoothAxis(last, target)
  {
    var v := last as real + (target - last) as real * (1.0 - 0.3);
    assert SmoothAxis(last, target) == Trunc(v);
    if last > target {
      assert v < last as real;
    } else if last + 2 <= target {
      assert v >= last as real + 1.0;
    } else if last < target {
      assert v < target as real;
    }
  }

  /** The cursor coordinate after `n` smoothing steps towards a constant target. */
  function SmoothIterate(last: int, target: int, n: nat): int
    decreases n
  {
    if n == 0 then last else SmoothIterate(SmoothAxis(last, target), target, n - 1)
  }

  /**
   * Smoothing converges and never overshoots: fed a constant target for at
   * least as many frames as the pixel distance, the cursor coordinate ends
   * within one pixel below the target, and exactly on it when it started at
   * or above the target.
   */
  lemma {:induction false} SmoothConverges(last: int, target: int, n: nat)
    requires last >= 0 && target >= 0
    requires n >= Distance(last, target)
    ensures target - 1 <= SmoothIterate(last, target, n) <= target
    ensures last >= target ==> SmoothIterate(last, target, n) == target
    decreases n
  {
    if n > 0 {
      SmoothStep(last, target);
      var next := SmoothAxis(last, target);
      if n - 1 >= Distance(next, target) {
        SmoothConverges(next, target, n - 1);
      } else {
        assert last + 1 == target && n == 1;
      }
    }
  }

  function Distance(a: int, b: int): nat {
    if a <= b then b - a else a - b
  }

  // ---------------------------------------------------------------------------
  // The dispatcher's state and one call of _handle_gesture
  // ---------------------------------------------------------------------------

  /** The controller fields `_handle_gesture` and `_move_cursor` read and write. */
  datatype ControllerState = ControllerState(
    lastCursorPos: Pos,
    gestureCooldown: real,
    dragging: bool,
    volumeMode: bool,
    volumeStartY: real,
    currentVolume: int,
    selectionMode: bool,
    selectionStart: Option<Pos>)

  /** The values `JarvisController.__init__` gives them. */
  const InitialState: ControllerState :=
    ControllerState((0, 0), 0.0, false, false, 0.0, 50, false, None)

  /** The new state and the actions issued, in order. */
  datatype Outcome = Outcome(state: ControllerState, emitted: seq<Action>)

  /**
   * One call's inputs: recognizer output, the hand's palm centre
   * (`hand.palm_center`), frame size, clock and mouse position.
   */
  datatype Frame = Frame(
    gs: GestureState,
    palm: Point3,
    frameW: int,
    frameH: int,
    now: real,
    mousePos: Pos)

  /** A camera frame is never empty. */
  predicate FrameOk(f: Frame) {
    f.frameW > 0 && f.frameH > 0
  }

  /** The volume stays a percentage, and the cursor is on screen or was never moved. */
  predicate StateInvariant(s: ControllerState, scr: ScreenConfig) {
    && 0 <= s.currentVolume <= 100
    && (ScreenFits(scr) ==> s.lastCursorPos == (0, 0) || OnScreen(s.lastCursorPos, scr))
  }

  /** Where `_move_cursor` puts the pointer this frame. */
  function CursorAfterMove(s: ControllerState, f: Frame, scr: ScreenConfig): Pos
    requires FrameOk(f)
  {
    Smoothed(s.lastCursorPos, CursorTarget(f.palm, f.frameW, f.frameH, scr))
  }

  /**
   * What the branch chain of `_handle_gesture` consults: the recognizer output,
   * the clock, the palm height, the position a call of `_move_cursor` would
   * move the pointer to (`CursorAfterMove`; it depends only on the previous
   * cursor position and the palm, not on the branch) and the mouse position.
   */
  datatype Input = Input(gs: GestureState, now: real, palmY: real, moved: Pos, mousePos: Pos)

  function InputOf(s: ControllerState, f: Frame, scr: ScreenConfig): Input
    requires FrameOk(f)
  {
    Input(f.gs, f.now, f.palm.y, CursorAfterMove(s, f, scr), f.mousePos)
  }

  /** A call of `_move_cursor` that moves the pointer to `p`. */
  function MoveStep(s: ControllerState, p: Pos): Outcome {
    Outcome(s.(lastCursorPos := p), [MoveTo(p.0, p.1)])
  }

  /** `n` copies of one action. */
  function Repeat(a: Action, n: nat): seq<Action> {
    seq(n, _ => a)
  }

  lemma {:induction false} RepeatCount(a: Action, n: nat, b: Action)
    ensures multiset(Repeat(a, n))[b] == if a == b then n else 0
  {
    if n > 0 {
      assert Repeat(a, n) == Repeat(a, n - 1) + [a];
      RepeatCount(a, n - 1, b);
    }
  }

  /** The volume the pinch streak moves to: one percent per 3 pixels of upward movement (`int(delta_y / 3)`), clamped to [0, 100]. */
  function NewVolume(s: ControllerState, palmY: real): int {
    ClampInt(0, 100, s.currentVolume + Trunc((s.volumeStartY - palmY) / 3.0))
  }

  /** A held pinch frame while volume mode is already on. */
  function VolumeStep(s: ControllerState, palmY: real): Outcome {
    var newVolume := NewVolume(s, palmY);
    if newVolume == s.currentVolume then Outcome(s, [])
    else
      var presses :=
        if newVolume > s.currentVolume
        then Repeat(Press("volumeup"), MinInt(MaxVolumePresses, newVolume - s.currentVolume))
        else Repeat(Press("volumedown"), MinInt(MaxVolumePresses, s.currentVolume - newVolume));
      Outcome(s.(currentVolume := newVolume, volumeStartY := palmY), presses)
  }

  /**
   * The `if/elif` chain of `_handle_gesture`, before the drag release at its
   * end. The chain is written in two parts, in the source's order; the second
   * part begins at THUMBS_UP.
   */
  function GestureBranch(s: ControllerState, i: Input): Outcome {
    var g := i.gs.gesture;
    var held := i.gs.isHeld;
    if g == OpenPalm && held then MoveStep(s, i.moved)
    else if g == Point && held then Outcome(s.(gestureCooldown := i.now + ClickCooldown), [Click(LeftButton)])
    else if g == Peace && held then Outcome(s.(gestureCooldown := i.now + ClickCooldown), [Click(RightButton)])
    else if g == Fist && held then FistBranch(s, i.moved)
    else LaterGestureBranch(s, i)
  }

  /** A held fist: press the button unless a drag is under way, then move the cursor. */
  function FistBranch(s: ControllerState, moved: Pos): Outcome {
    var pressed := if s.dragging then Outcome(s, []) else Outcome(s.(dragging := true), [MouseDown]);
    var m := MoveStep(pressed.state, moved);
    Outcome(m.state, pressed.emitted + m.emitted)
  }

  /** The chain from THUMBS_UP on. */
  function LaterGestureBranch(s: ControllerState, i: Input): Outcome {
    var g := i.gs.gesture;
    var held := i.gs.isHeld;
    if g == ThumbsUp && held then Outcome(s.(gestureCooldown := i.now + ScrollCooldown), [Scroll(ScrollClicks)])
    else if g == ThumbsDown && held then Outcome(s.(gestureCooldown := i.now + ScrollCooldown), [Scroll(-ScrollClicks)])
    else if g == ThreeFingers && held then Outcome(s.(gestureCooldown := i.now + ClickCooldown), [Click(MiddleButton)])
    else if g == Pinch then PinchBranch(s, held, i.palmY)
    else if g == Rock && held then Outcome(s.(gestureCooldown := i.now + VoiceCooldown), [Say(VoiceActivatedText)])
    else if g == OkSign then OkSignBranch(s, held, i.moved, i.mousePos)
    else Outcome(s, [])
  }

  /** PINCH: enter volume mode, take a volume step, or leave volume mode. */
  function PinchBranch(s: ControllerState, held: bool, palmY: real): Outcome {
    if held then
      if !s.volumeMode then Outcome(s.(volumeMode := true, volumeStartY := palmY), [])
      else VolumeStep(s, palmY)
    else Outcome(s.(volumeMode := false), [])
  }

  /** OK_SIGN: start a selection, extend it, or finish it. */
  function OkSignBranch(s: ControllerState, held: bool, moved: Pos, mousePos: Pos): Outcome {
    if held then
      if !s.selectionMode then Outcome(s.(selectionMode := true, selectionStart := Some(mousePos)), [MouseDown])
      else MoveStep(s, moved)
    else if s.selectionMode then Outcome(s.(selectionMode := false), [MouseUp])
    else Outcome(s, [])
  }

  /** Letting go of a drag: any gesture other than FIST releases the mouse button. */
  function ReleaseDrag(o: Outcome, g: GestureType): Outcome {
    if g != Fist && o.state.dragging then Outcome(o.state.(dragging := false), o.emitted + [MouseUp])
    else o
  }

  /** The branch chain and the drag release; nothing at all happens while the cooldown lasts. */
  function Dispatch(s: ControllerState, i: Input): Outcome {
    if i.now < s.gestureCooldown then Outcome(s, [])
    else ReleaseDrag(GestureBranch(s, i), i.gs.gesture)
  }

  /** One call of `_handle_gesture`. */
  function HandleGestureSpec(s: ControllerState, f: Frame, scr: ScreenConfig): Outcome
    requires FrameOk(f)
  {
    Dispatch(s, InputOf(s, f, scr))
  }

  /** Consecutive calls, one per frame, collecting every action issued. */
  function Run(s: ControllerState, frames: seq<Frame>, scr: ScreenConfig): Outcome
    requires forall i :: 0 <= i < |frames| ==> FrameOk(frames[i])
    decreases |frames|
  {
    if frames == [] then Outcome(s, [])
    else
      var first := HandleGestureSpec(s, frames[0], scr);
      var rest := Run(first.state, frames[1..], scr);
      Outcome(rest.state, first.emitted + rest.emitted)
  }

  // ---------------------------------------------------------------------------
  // Properties of one call
  // ---------------------------------------------------------------------------

  /** Each call keeps the volume in [0, 100] and the cursor on screen (or unmoved). */
  lemma HandleGesturePreservesInvariant(s: ControllerState, f: Frame, scr: ScreenConfig)
    requires FrameOk(f) && StateInvariant(s, scr)
    ensures StateInvariant(HandleGestureSpec(s, f, scr).state, scr)
  {
    var i := InputOf(s, f, scr);
    if ScreenFits(scr) {
      MoveCursorStaysOnScreen(s.lastCursorPos, f.palm, f.frameW, f.frameH, scr);
    }
    DispatchKeepsVolumeInRange(s, i);
    DispatchMovesCursorTo(s, i);
  }

  /** The volume stays in [0, 100]. */
  lemma DispatchKeepsVolumeInRange(s: ControllerState, i: Input)
    requires 0 <= s.currentVolume <= 100
    ensures 0 <= Dispatch(s, i).state.currentVolume <= 100
  {
  }

  /** The cursor position after a call is the previous one or the `_move_cursor` result. */
  lemma DispatchMovesCursorTo(s: ControllerState, i: Input)
    ensures var p := Dispatch(s, i).state.lastCursorPos;
            p == s.lastCursorPos || p == i.moved
  {
  }

  /** While `now < _gesture_cooldown` a call changes no state and issues nothing, not even a drag release. */
  lemma CooldownSuppressesEverything(s: ControllerState, i: Input)
    requires i.now < s.gestureCooldown
    ensures Dispatch(s, i) == Outcome(s, [])
  {
  }

  /** The extra MouseUp a call ends with when it releases a drag. */
  function Release(s: ControllerState, g: GestureType): seq<Action> {
    if g != Fist && s.dragging then [MouseUp] else []
  }

  /**
   * A held fist presses the button only if no drag is under way, then moves
   * the cursor once; afterwards a drag is under way.
   */
  lemma HeldFistDrags(s: ControllerState, i: Input)
    requires i.now >= s.gestureCooldown && i.gs.gesture == Fist && i.gs.isHeld
    ensures var o := Dispatch(s, i);
            && o.state == s.(dragging := true, lastCursorPos := i.moved)
            && o.emitted == (if s.dragging then [] else [MouseDown]) + [MoveTo(i.moved.0, i.moved.1)]
  {
  }

  predicate HeldFist(f: Frame) {
    f.gs.gesture == Fist && f.gs.isHeld
  }

  /** Some frame comes at or after time `t`. */
  predicate SomeFrameFrom(frames: seq<Frame>, t: real) {
    exists i :: 0 <= i < |frames| && frames[i].now >= t
  }

  lemma SomeFrameFromCons(frames: seq<Frame>, t: real)
    requires frames != []
    ensures SomeFrameFrom(frames, t) <==> frames[0].now >= t || SomeFrameFrom(frames[1..], t)
  {
    if SomeFrameFrom(frames, t) {
      var i :| 0 <= i < |frames| && frames[i].now >= t;
      if i > 0 { assert frames[1..][i - 1] == frames[i]; }
    }
    if SomeFrameFrom(frames[1..], t) {
      var i :| 0 <= i < |frames[1..]| && frames[1..][i].now >= t;
      assert frames[i + 1] == frames[1..][i];
    }
  }

  /**
   * A streak of held-fist frames presses the mouse button at most once: once
   * if no drag was under way and some frame got past the cooldown, never
   * otherwise; it never releases the button, and the drag is under way at
   * the end exactly when it was at the start or some frame got past the
   * cooldown.
   */
  lemma {:induction false} HeldFistStreakPressesOnce(s: ControllerState, frames: seq<Frame>, scr: ScreenConfig)
    requires forall i :: 0 <= i < |frames| ==> FrameOk(frames[i]) && HeldFist(frames[i])
    ensures var o := Run(s, frames, scr);
            && multiset(o.emitted)[MouseDown] == (if !s.dragging && SomeFrameFrom(frames, s.gestureCooldown) then 1 else 0)
            && multiset(o.emitted)[MouseUp] == 0
            && o.state.gestureCooldown == s.gestureCooldown
            && (o.state.dragging <==> s.dragging || SomeFrameFrom(frames, s.gestureCooldown))
    decreases |frames|
  {
    if frames != [] {
      var f := frames[0];
      var i := InputOf(s, f, scr);
      var first := Dispatch(s, i);
      var tail := frames[1..];
      assert first == HandleGestureSpec(s, f, scr);
      HeldFistStreakPressesOnce(first.state, tail, scr);
      var rest := Run(first.state, tail, scr);
      assert Run(s, frames, scr) == Outcome(rest.state, first.emitted + rest.emitted);
      assert multiset(first.emitted + rest.emitted) == multiset(first.emitted) + multiset(rest.emitted);
      SomeFrameFromCons(frames, s.gestureCooldown);
      if f.now >= s.gestureCooldown {
        HeldFistDrags(s, i);
      } else {
        CooldownSuppressesEverything(s, i);
      }
    }
  }

  /**
   * The branch chain presses the mouse button only to start a drag (held fist,
   * no drag yet) or a selection (held OK sign, no selection yet), and releases
   * it only to end a selection.
   */
  lemma BranchButtonEvents(s: ControllerState, i: Input)
    ensures var b := GestureBranch(s, i);
            var g := i.gs.gesture;
            && multiset(b.emitted)[MouseUp] == (if g == OkSign && !i.gs.isHeld && s.selectionMode then 1 else 0)
            && multiset(b.emitted)[MouseDown] ==
                 (if (g == Fist && i.gs.isHeld && !s.dragging) || (g == OkSign && i.gs.isHeld && !s.selectionMode) then 1 else 0)
  {
    if i.gs.gesture == Pinch && i.gs.isHeld && s.volumeMode {
      var v := NewVolume(s, i.palmY);
      if v > s.currentVolume {
        var n := MinInt(MaxVolumePresses, v - s.currentVolume);
        RepeatCount(Press("volumeup"), n, MouseUp);
        RepeatCount(Press("volumeup"), n, MouseDown);
      } else if v < s.currentVolume {
        var n := MinInt(MaxVolumePresses, s.currentVolume - v);
        RepeatCount(Press("volumedown"), n, MouseUp);
        RepeatCount(Press("volumedown"), n, MouseDown);
      }
    }
  }

  /**
   * Outside the cooldown, every gesture other than FIST ends the call with no
   * drag under way, and the release (MouseUp) is issued last, exactly when a
   * drag was under way on entry. The only other MouseUp is the one that ends a
   * selection (OK sign released in selection mode).
   */
  lemma OtherGestureReleasesDrag(s: ControllerState, i: Input)
    requires i.now >= s.gestureCooldown && i.gs.gesture != Fist
    ensures var o := Dispatch(s, i);
            && !o.state.dragging
            && o.emitted == GestureBranch(s, i).emitted + Release(s, i.gs.gesture)
            && multiset(o.emitted)[MouseUp] ==
                 (if s.dragging then 1 else 0) +
                 (if i.gs.gesture == OkSign && !i.gs.isHeld && s.selectionMode then 1 else 0)
  {
    var b := GestureBranch(s, i);
    BranchButtonEvents(s, i);
    assert b.state.dragging == s.dragging;
    assert multiset(b.emitted + Release(s, i.gs.gesture)) == multiset(b.emitted) + multiset(Release(s, i.gs.gesture));
  }

  /** The action a held discrete gesture fires. */
  function DiscreteAction(g: GestureType): Action {
    match g
    case Point => Click(LeftButton)
    case Peace => Click(RightButton)
    case ThreeFingers => Click(MiddleButton)
    case ThumbsUp => Scroll(3)
    case ThumbsDown => Scroll(-3)
    case _ => Say(VoiceActivatedText)
  }

  /** The cooldown a held discrete gesture starts. */
  function CooldownOf(g: GestureType): real {
    if g in {Point, Peace, ThreeFingers} then 0.5
    else if g in {ThumbsUp, ThumbsDown} then 0.2
    else 2.0
  }

  predicate Discrete(g: GestureType) {
    g in {Point, Peace, ThreeFingers, ThumbsUp, ThumbsDown, Rock}
  }

  /**
   * Held discrete gestures fire once and start a cooldown:
   * POINT, PEACE and THREE_FINGERS click (left, right, middle) with 0.5 s,
   * THUMBS_UP / THUMBS_DOWN scroll by +3 / -3 with 0.2 s, ROCK announces
   * voice mode with 2.0 s. Nothing else in the state changes but the drag flag.
   */
  lemma DiscreteGestureFires(s: ControllerState, i: Input)
    requires i.now >= s.gestureCooldown && i.gs.isHeld && Discrete(i.gs.gesture)
    ensures var o := Dispatch(s, i);
            && o.emitted == [DiscreteAction(i.gs.gesture)] + Release(s, i.gs.gesture)
            && o.state == s.(gestureCooldown := i.now + CooldownOf(i.gs.gesture), dragging := false)
  {
  }

  /**
   * Two consecutive held calls with the same discrete gesture, closer together
   * than its cooldown, fire its action at most once: e.g. two held POINT
   * frames less than 0.5 s apart click at most once.
   */
  lemma DiscreteGestureDebounced(s: ControllerState, i1: Input, i2: Input)
    requires i1.gs.gesture == i2.gs.gesture && i1.gs.isHeld && i2.gs.isHeld && Discrete(i1.gs.gesture)
    requires i2.now < i1.now + CooldownOf(i1.gs.gesture)
    ensures var first := Dispatch(s, i1);
            var second := Dispatch(first.state, i2);
            multiset(first.emitted + second.emitted)[DiscreteAction(i1.gs.gesture)] <= 1
  {
    var g := i1.gs.gesture;
    var a := DiscreteAction(g);
    var first := Dispatch(s, i1);
    var second := Dispatch(first.state, i2);
    var fired := [a] + Release(s, g);
    assert multiset(fired)[a] == 1 by {
      assert multiset(fired) == multiset([a]) + multiset(Release(s, g));
    }
    if i1.now >= s.gestureCooldown {
      DiscreteGestureFires(s, i1);
      CooldownSuppressesEverything(first.state, i2);
      assert first.emitted + second.emitted == fired;
    } else {
      CooldownSuppressesEverything(s, i1);
      if i2.now >= s.gestureCooldown {
        DiscreteGestureFires(s, i2);
        assert first.emitted + second.emitted == fired;
      } else {
        CooldownSuppressesEverything(s, i2);
        assert first.emitted + second.emitted == [];
      }
    }
  }

  /**
   * A held pinch while volume mode is on moves the volume to the clamped new
   * value, presses the matching volume key at most five times and never more
   * often than the volume changed, and moves the reference height to the
   * current palm exactly when the volume changed.
   */
  lemma VolumeStreak(s: ControllerState, palmY: real)
    requires 0 <= s.currentVolume <= 100
    ensures var o := VolumeStep(s, palmY);
            var v := NewVolume(s, palmY);
            && 0 <= o.state.currentVolume <= 100
            && o.state == s.(currentVolume := v, volumeStartY := o.state.volumeStartY)
            && |o.emitted| <= MaxVolumePresses
            && (v >= s.currentVolume ==> |o.emitted| <= v - s.currentVolume)
            && (v <= s.currentVolume ==> |o.emitted| <= s.currentVolume - v)
            && (v == s.currentVolume <==> o.emitted == [])
            && (forall k :: 0 <= k < |o.emitted| ==>
                  o.emitted[k] == if v > s.currentVolume then Press("volumeup") else Press("volumedown"))
            && (o.state.volumeStartY == if v != s.currentVolume then palmY else s.volumeStartY)
  {
  }

  /** Moving the pinched hand 30 pixels up raises the volume from 50 to 60 with five key presses. */
  lemma VolumeScenario(s: ControllerState)
    requires s.currentVolume == 50
    ensures var o := VolumeStep(s, s.volumeStartY - 30.0);
            o.state.currentVolume == 60 && o.emitted == Repeat(Press("volumeup"), 5)
  {
    assert Trunc((s.volumeStartY - (s.volumeStartY - 30.0)) / 3.0) == 10;
  }

  /**
   * The pinch streak and its modes: the first held pinch frame only enters
   * volume mode and records the palm height; later held frames take a volume
   * step; a pinch frame that is not held leaves volume mode. Nothing but the
   * volume keys and a drag release is issued.
   */
  lemma PinchModeTransitions(s: ControllerState, i: Input)
    requires i.now >= s.gestureCooldown && i.gs.gesture == Pinch
    ensures var o := Dispatch(s, i);
            && (i.gs.isHeld && !s.volumeMode ==>
                  o.state == s.(volumeMode := true, volumeStartY := i.palmY, dragging := false)
                  && o.emitted == Release(s, Pinch))
            && (i.gs.isHeld && s.volumeMode ==>
                  o.state == VolumeStep(s, i.palmY).state.(dragging := false)
                  && o.emitted == VolumeStep(s, i.palmY).emitted + Release(s, Pinch))
            && (!i.gs.isHeld ==>
                  o.state == s.(volumeMode := false, dragging := false) && o.emitted == Release(s, Pinch))
  {
  }

  /**
   * Text selection: the first held OK-sign frame presses the button at the
   * current mouse position without moving the cursor; later held frames only
   * move it; an OK sign that is not held ends the selection with a release.
   */
  lemma SelectionTransitions(s: ControllerState, i: Input)
    requires i.now >= s.gestureCooldown && i.gs.gesture == OkSign
    ensures var o := Dispatch(s, i);
            && (i.gs.isHeld && !s.selectionMode ==>
                  o.state == s.(selectionMode := true, selectionStart := Some(i.mousePos), dragging := false)
                  && o.emitted == [MouseDown] + Release(s, OkSign))
            && (i.gs.isHeld && s.selectionMode ==>
                  o.state == s.(lastCursorPos := i.moved, dragging := false)
                  && o.emitted == [MoveTo(i.moved.0, i.moved.1)] + Release(s, OkSign))
            && (!i.gs.isHeld && s.selectionMode ==>
                  o.state == s.(selectionMode := false, dragging := false)
                  && o.emitted == [MouseUp] + Release(s, OkSign))
            && (!i.gs.isHeld && !s.selectionMode ==>
                  o.state == s.(dragging := false) && o.emitted == Release(s, OkSign))
  {
  }

  /**
   * Volume mode changes only on pinch frames and selection mode only on
   * OK-sign frames: switching to another gesture leaves either mode on.
   */
  lemma ModesPersistAcrossOtherGestures(s: ControllerState, i: Input)
    ensures var o := Dispatch(s, i);
            && (i.gs.gesture != Pinch ==>
                  o.state.volumeMode == s.volumeMode && o.state.currentVolume == s.currentVolume
                  && o.state.volumeStartY == s.volumeStartY)
            && (i.gs.gesture != OkSign ==>
                  o.state.selectionMode == s.selectionMode && o.state.selectionStart == s.selectionStart)
  {
  }

  /**
   * Volume mode and selection mode are not exclusive: from the initial state,
   * a held pinch followed by a held OK sign leaves both modes on.
   */
  lemma ModesCanOverlap(i1: Input, i2: Input)
    requires i1.gs.gesture == Pinch && i1.gs.isHeld && i1.now >= 0.0
    requires i2.gs.gesture == OkSign && i2.gs.isHeld && i2.now >= 0.0
    ensures var first := Dispatch(InitialState, i1);
            var second := Dispatch(first.state, i2);
            second.state.volumeMode && second.state.selectionMode
  {
    PinchModeTransitions(InitialState, i1);
    var first := Dispatch(InitialState, i1);
    SelectionTransitions(first.state, i2);
  }

  /**
   * A frame with no gesture, HOOK, or any gesture that is not held (other than
   * pinch and OK sign) issues nothing but a drag release and changes nothing else.
   */
  lemma IdleFrame(s: ControllerState, i: Input)
    requires i.now >= s.gestureCooldown
    requires i.gs.gesture == NoGesture || i.gs.gesture == Hook ||
             (!i.gs.isHeld && i.gs.gesture != Pinch && i.gs.gesture != OkSign)
    ensures var o := Dispatch(s, i);
            o.state == s.(dragging := s.dragging && i.gs.gesture == Fist)
            && o.emitted == Release(s, i.gs.gesture)
  {
  }

  // ---------------------------------------------------------------------------
  // The controller object
  // ---------------------------------------------------------------------------

  /** The gesture-control part of `JarvisController`. */
  class JarvisController {
    const screenWidth: int
    const screenHeight: int
    const screenMargin: int

    var running: bool
    var lastCursorPos: Pos
    var gestureCooldown: real
    var dragging: bool
    var volumeMode: bool
    var volumeStartY: real
    var currentVolume: int
    var selectionMode: bool
    var selectionStart: Option<Pos>

    /** Every device command issued so far, in order. */
    var actions: seq<Action>

    function Config(): ScreenConfig {
      ScreenConfig(screenWidth, screenHeight, screenMargin)
    }

    function State(): ControllerState
      reads this
    {
      ControllerState(lastCursorPos, gestureCooldown, dragging, volumeMode, volumeStartY,
                      currentVolume, selectionMode, selectionStart)
    }

    predicate Valid()
      reads this
    {
      StateInvariant(State(), Config())
    }

    /** `__init__` with the screen size from `pyautogui.size()` and `SCREEN_MARGIN`. */
    constructor (screenWidth: int, screenHeight: int, screenMargin: int)
      ensures Valid()
      ensures Config() == ScreenConfig(screenWidth, screenHeight, screenMargin)
      ensures State() == InitialState && actions == [] && !running
    {
      this.screenWidth := screenWidth;
      this.screenHeight := screenHeight;
      this.screenMargin := screenMargin;
      running := false;
      lastCursorPos := (0, 0);
      gestureCooldown := 0.0;
      dragging := false;
      volumeMode := false;
      volumeStartY := 0.0;
      currentVolume := 50;
      selectionMode := false;
      selectionStart := None;
      actions := [];
    }

    /** `_move_cursor`: map the palm to the screen, smooth, move the pointer. */
    method MoveCursor(palm: Point3, frameW: int, frameH: int)
      requires frameW > 0 && frameH > 0
      modifies this
      ensures lastCursorPos == Smoothed(old(lastCursorPos), CursorTarget(palm, frameW, frameH, Config()))
      ensures State() == old(State()).(lastCursorPos := lastCursorPos)
      ensures actions == old(actions) + [MoveTo(lastCursorPos.0, lastCursorPos.1)]
      ensures running == old(running)
    {
      var screenX := AxisTarget(palm.x, frameW, screenWidth, screenMargin);
      var screenY := AxisTarget(palm.y, frameH, screenHeight, screenMargin);

      var lastX, lastY := lastCursorPos.0, lastCursorPos.1;
      if lastX == 0 && lastY == 0 {
        lastX, lastY := screenX, screenY;
      }

      var smoothX := Trunc(lastX as real + (screenX - lastX) as real * (1.0 - 0.3));
      var smoothY := Trunc(lastY as real + (screenY - lastY) as real * (1.0 - 0.3));

      actions := actions + [MoveTo(smoothX, smoothY)];
      lastCursorPos := (smoothX, smoothY);
    }

    /** The `for _ in range(n): pyautogui.press(key)` loop. */
    method PressRepeatedly(key: string, n: nat)
      modifies this
      ensures actions == old(actions) + Repeat(Press(key), n)
      ensures State() == old(State()) && running == old(running)
    {
      for k := 0 to n
        invariant actions == old(actions) + Repeat(Press(key), k)
        invariant State() == old(State()) && running == old(running)
      {
        actions := actions + [Press(key)];
        assert Repeat(Press(key), k + 1) == Repeat(Press(key), k) + [Press(key)];
      }
    }

    /** The volume step of a held pinch while volume mode is on. */
    method AdjustVolume(palmY: real)
      modifies this
      ensures var o := VolumeStep(old(State()), palmY);
              State() == o.state && actions == old(actions) + o.emitted
      ensures running == old(running)
    {
      var deltaY := volumeStartY - palmY;
      var volumeChange := Trunc(deltaY / 3.0);
      var newVolume := ClampInt(0, 100, currentVolume + volumeChange);
      if newVolume != currentVolume {
        if newVolume > currentVolume {
          PressRepeatedly("volumeup", MinInt(MaxVolumePresses, newVolume - currentVolume));
        } else {
          PressRepeatedly("volumedown", MinInt(MaxVolumePresses, currentVolume - newVolume));
        }
        currentVolume := newVolume;
        volumeStartY := palmY;
      }
    }

    /** The pinch branch of `_handle_gesture`. */
    method HandlePinch(isHeld: bool, palmY: real)
      modifies this
      ensures var o := PinchBranch(old(State()), isHeld, palmY);
              State() == o.state && actions == old(actions) + o.emitted
      ensures running == old(running)
    {
      if isHeld {
        if !volumeMode {
          volumeMode := true;
          volumeStartY := palmY;
        } else {
          AdjustVolume(palmY);
        }
      } else {
        if volumeMode {
          volumeMode := false;
        }
      }
    }

    /** The OK-sign branch of `_handle_gesture`; `moved` is where `_move_cursor` would put the pointer. */
    method HandleOkSign(isHeld: bool, palm: Point3, frameW: int, frameH: int, mousePos: Pos, ghost moved: Pos)
      requires frameW > 0 && frameH > 0
      requires moved == Smoothed(lastCursorPos, CursorTarget(palm, frameW, frameH, Config()))
      modifies this
      ensures var o := OkSignBranch(old(State()), isHeld, moved, mousePos);
              State() == o.state && actions == old(actions) + o.emitted
      ensures running == old(running)
    {
      if isHeld {
        if !selectionMode {
          selectionMode := true;
          selectionStart := Some(mousePos);
          actions := actions + [MouseDown];
        } else {
          MoveCursor(palm, frameW, frameH);
        }
      } else {
        if selectionMode {
          actions := actions + [MouseUp];
          selectionMode := false;
        }
      }
    }

    /** The `elif` chain of `_handle_gesture` from THUMBS_UP on. */
    method HandleLaterGestures(gs: GestureState, palm: Point3, frameW: int, frameH: int, now: real,
                               mousePos: Pos, ghost moved: Pos)
      requires frameW > 0 && frameH > 0
      requires moved == Smoothed(lastCursorPos, CursorTarget(palm, frameW, frameH, Config()))
      modifies this
      ensures var o := LaterGestureBranch(old(State()), Input(gs, now, palm.y, moved, mousePos));
              State() == o.state && actions == old(actions) + o.emitted
      ensures running == old(running)
    {
      var gesture := gs.gesture;
      var isHeld := gs.isHeld;
      if gesture == ThumbsUp && isHeld {
        actions := actions + [Scroll(ScrollClicks)];
        gestureCooldown := now + ScrollCooldown;
      } else if gesture == ThumbsDown && isHeld {
        actions := actions + [Scroll(-ScrollClicks)];
        gestureCooldown := now + ScrollCooldown;
      } else if gesture == ThreeFingers && isHeld {
        actions := actions + [Click(MiddleButton)];
        gestureCooldown := now + ClickCooldown;
      } else if gesture == Pinch {
        HandlePinch(isHeld, palm.y);
      } else if gesture == Rock && isHeld {
        actions := actions + [Say(VoiceActivatedText)];
        gestureCooldown := now + VoiceCooldown;
      } else if gesture == OkSign {
        HandleOkSign(isHeld, palm, frameW, frameH, mousePos, moved);
      }
    }

    /** The `elif` chain of `_handle_gesture`, for a call past the cooldown. */
    method HandleGestureBranches(gs: GestureState, palm: Point3, frameW: int, frameH: int, now: real,
                                 mousePos: Pos, ghost moved: Pos)
      requires frameW > 0 && frameH > 0
      requires moved == Smoothed(lastCursorPos, CursorTarget(palm, frameW, frameH, Config()))
      modifies this
      ensures var o := GestureBranch(old(State()), Input(gs, now, palm.y, moved, mousePos));
              State() == o.state && actions == old(actions) + o.emitted
      ensures running == old(running)
    {
      var gesture := gs.gesture;
      var isHeld := gs.isHeld;
      if gesture == OpenPalm && isHeld {
        MoveCursor(palm, frameW, frameH);
      } else if gesture == Point && isHeld {
        actions := actions + [Click(LeftButton)];
        gestureCooldown := now + ClickCooldown;
      } else if gesture == Peace && isHeld {
        actions := actions + [Click(RightButton)];
        gestureCooldown := now + ClickCooldown;
      } else if gesture == Fist && isHeld {
        ghost var a0 := actions;
        ghost var pressed: seq<Action> := [];
        if !dragging {
          actions := actions + [MouseDown];
          dragging := true;
          pressed := [MouseDown];
        }
        MoveCursor(palm, frameW, frameH);
        assert actions == a0 + (pressed + [MoveTo(moved.0, moved.1)]);
      } else {
        HandleLaterGestures(gs, palm, frameW, frameH, now, mousePos, moved);
      }
    }

    /** `_handle_gesture` for one frame. */
    method HandleGesture(gs: GestureState, hand: HandLandmarks, frameW: int, frameH: int, now: real, mousePos: Pos)
      requires WellFormed(hand) && frameW > 0 && frameH > 0
      requires Valid()
      modifies this
      ensures Valid()
      ensures var o := HandleGestureSpec(old(State()), Frame(gs, PalmCenter(hand), frameW, frameH, now, mousePos), Config());
              State() == o.state && actions == old(actions) + o.emitted
      ensures running == old(running)
    {
      var currentTime := now;
      if currentTime < gestureCooldown {
        return;
      }

      var palm := PalmCenter(hand);
      ghost var s0 := State();
      ghost var a0 := actions;
      ghost var f := Frame(gs, palm, frameW, frameH, now, mousePos);
      HandleGesturePreservesInvariant(s0, f, Config());
      ghost var input := InputOf(s0, f, Config());

      HandleGestureBranches(gs, palm, frameW, frameH, currentTime, mousePos, input.moved);
      ghost var branch := GestureBranch(s0, input);

      if gs.gesture != Fist && dragging {
        actions := actions + [MouseUp];
        dragging := false;
        assert actions == a0 + (branch.emitted + [MouseUp]);
      }
    }
  }
}
