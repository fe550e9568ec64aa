/**
 * Gesture classification and hold tracking (jarvis/gestures/recognizer.py).
 *
 * The thumb-index distance is handled squared: `NormalizedDistanceSq` is the
 * square of the source's `_normalized_distance`, and the classifier compares
 * it with the square of `PINCH_THRESHOLD`. `NormalizedDistanceMatchesNorms`
 * shows that this decides every pinch test the same way as the source.
 */
module Recognizer {
  import opened Wrappers
  import opened Numeric
  import opened Detector
  import opened Mappings

  /** `GestureRecognizer.PINCH_THRESHOLD`. */
  const PinchThreshold: real := 0.22
  /** `GestureRecognizer.FINGER_CLOSE_THRESHOLD`: declared by the source, never read. */
  const FingerCloseThreshold: real := 0.18
  /** The literal pixel margin of the thumbs-up / thumbs-down test. */
  const ThumbMargin: real := 15.0

  const PinchThresholdSq: real := PinchThreshold * PinchThreshold

  /** `GestureState`: one frame's classification and its timing. */
  datatype GestureState = GestureState(
    gesture: GestureType,
    confidence: real,
    startTime: real,
    position: (real, real),
    isHeld: bool)

  // ---------------------------------------------------------------------------
  // Normalised distance
  // ---------------------------------------------------------------------------

  /** Squared hand size: the full 3-D distance from the wrist to the middle-finger MCP (landmark 9). */
  function HandSizeSq(hand: HandLandmarks): real
    requires WellFormed(hand)
  {
    DistSq3(hand.landmarks[MiddleMcpIndex], Wrist(hand))
  }

  /**
   * The square of `_normalized_distance(p1, p2, hand)`: the planar distance of
   * the two points divided by the hand size, or the sentinel 1.0 when the hand
   * size is below 1 pixel.
   */
  function NormalizedDistanceSq(p1: Point3, p2: Point3, hand: HandLandmarks): (r: real)
    requires WellFormed(hand)
    ensures r >= 0.0
    ensures HandSizeSq(hand) < 1.0 ==> r == 1.0
    ensures HandSizeSq(hand) >= 1.0 ==> r * HandSizeSq(hand) == PlanarDistSq(p1, p2)
  {
    var size := HandSizeSq(hand);
    if size < 1.0 then 1.0 else PlanarDistSq(p1, p2) / size
  }

  /**
   * Faithfulness of the squared model. Take the true norms `dist` (planar,
   * between the two points) and `handSize` (3-D, wrist to landmark 9). Then
   * the sentinel branch is taken exactly when `handSize < 1`, the model is the
   * square of `dist / handSize` otherwise, and the model is below the squared
   * threshold exactly when the source's value is below `PINCH_THRESHOLD`.
   */
  lemma NormalizedDistanceMatchesNorms(p1: Point3, p2: Point3, hand: HandLandmarks, dist: real, handSize: real)
    requires WellFormed(hand)
    requires dist >= 0.0 && handSize >= 0.0
    requires dist * dist == PlanarDistSq(p1, p2)
    requires handSize * handSize == HandSizeSq(hand)
    ensures handSize < 1.0 <==> HandSizeSq(hand) < 1.0
    ensures handSize >= 1.0 ==> NormalizedDistanceSq(p1, p2, hand) == (dist / handSize) * (dist / handSize)
    ensures var source := if handSize < 1.0 then 1.0 else dist / handSize;
            source < PinchThreshold <==> NormalizedDistanceSq(p1, p2, hand) < PinchThresholdSq
  {
    SquareMonotone(handSize, 1.0);
    var r := NormalizedDistanceSq(p1, p2, hand);
    if handSize >= 1.0 {
      var q := dist / handSize;
      assert q * handSize == dist;
      assert (q * q) * (handSize * handSize) == dist * dist by {
        assert (q * q) * (handSize * handSize) == (q * handSize) * (q * handSize);
      }
      assert r * (handSize * handSize) == dist * dist;
      assert q * q == r by {
        assert (q * q - r) * (handSize * handSize) == 0.0;
        assert handSize * handSize >= 1.0 by { MulStrictOrEqual(handSize); }
      }
      assert q >= 0.0;
      SquareMonotone(q, PinchThreshold);
    } else {
      SquareMonotone(1.0, PinchThreshold);
    }
  }

  lemma MulStrictOrEqual(h: real)
    requires h >= 1.0
    ensures h * h >= 1.0
  {
    if h > 1.0 {
      MulStrict(1.0, h, 1.0, h);
    }
  }

  // ---------------------------------------------------------------------------
  // Classification
  // ---------------------------------------------------------------------------

  /**
   * `_classify_gesture`: a first-match-wins chain over the extended-finger list,
   * the (squared) thumb-index distance and the y coordinates of the thumb tip
   * and the wrist.
   *
   * Pinch takes priority (OK sign when middle, ring and pinky are all out);
   * without a pinch an empty list is a fist, and a thumb-only list is thumbs up
   * or down beyond the 15-pixel margin and no gesture within it. HOOK never
   * results.
   */
  function ClassifyGesture(extended: seq<Finger>, distSq: real, hand: HandLandmarks): (g: GestureType)
    requires WellFormed(hand)
    ensures g != Hook
    ensures distSq < PinchThresholdSq ==> (g == Pinch || g == OkSign)
    ensures distSq < PinchThresholdSq ==> (g == OkSign <==> Middle in extended && Ring in extended && Pinky in extended)
    ensures distSq >= PinchThresholdSq ==> g != Pinch && g != OkSign
    ensures distSq >= PinchThresholdSq ==> (g == Fist <==> extended == [])
    ensures distSq >= PinchThresholdSq && |extended| == 1 && Thumb in extended ==>
              (g == ThumbsUp <==> ThumbTip(hand).y < Wrist(hand).y - ThumbMargin) &&
              (g == ThumbsDown <==> ThumbTip(hand).y > Wrist(hand).y + ThumbMargin) &&
              (g == NoGesture <==> Wrist(hand).y - ThumbMargin <= ThumbTip(hand).y <= Wrist(hand).y + ThumbMargin)
  {
    var numExtended := |extended|;
    if distSq < PinchThresholdSq then
      if Middle in extended && Ring in extended && Pinky in extended then OkSign else Pinch
    else if numExtended == 0 then Fist
    else if numExtended == 1 && Thumb in extended
         && ThumbTip(hand).y < Wrist(hand).y - ThumbMargin then ThumbsUp
    else if numExtended == 1 && Thumb in extended
         && ThumbTip(hand).y > Wrist(hand).y + ThumbMargin then ThumbsDown
    else if Index in extended && numExtended <= 2
         && (numExtended == 1 || (numExtended == 2 && Thumb in extended)) then Point
    else if numExtended == 2 && Index in extended && Middle in extended then Peace
    else if numExtended == 2 && Index in extended && Pinky in extended then Rock
    else if numExtended == 3 && Index in extended && Middle in extended && Ring in extended then ThreeFingers
    else if numExtended >= 3 then OpenPalm
    else NoGesture
  }

  /** The classifier reads the hand only through the thumb-tip and wrist y coordinates. */
  lemma ClassifyReadsOnlyThumbAndWristY(extended: seq<Finger>, distSq: real, h1: HandLandmarks, h2: HandLandmarks)
    requires WellFormed(h1) && WellFormed(h2)
    requires ThumbTip(h1).y == ThumbTip(h2).y && Wrist(h1).y == Wrist(h2).y
    ensures ClassifyGesture(extended, distSq, h1) == ClassifyGesture(extended, distSq, h2)
  {
  }

  /** A list holding every one of the five digits has at least five entries. */
  lemma AllFiveNeedFive(extended: seq<Finger>)
    requires forall f: Finger :: f in extended
    ensures |extended| >= 5
  {
    var names := set f | f in extended;
    assert {Thumb, Index, Middle, Ring, Pinky} <= names;
    assert |{Thumb, Index, Middle, Ring, Pinky}| == 5;
    SubsetCard({Thumb, Index, Middle, Ring, Pinky}, names);
    SetOfSeqCard(extended);
  }

  lemma SubsetCard(a: set<Finger>, b: set<Finger>)
    requires a <= b
    ensures |a| <= |b|
  {
    assert b == a + (b - a);
  }

  lemma {:induction false} SetOfSeqCard(s: seq<Finger>)
    ensures |set f | f in s| <= |s|
  {
    if s != [] {
      SetOfSeqCard(s[1..]);
      assert (set f | f in s) == {s[0]} + (set f | f in s[1..]);
    }
  }

  /** Without a pinch, a hand showing all five digits is an open palm, never "no gesture". */
  lemma AllFiveIsOpenPalm(extended: seq<Finger>, distSq: real, hand: HandLandmarks)
    requires WellFormed(hand)
    requires distSq >= PinchThresholdSq
    requires forall f: Finger :: f in extended
    ensures ClassifyGesture(extended, distSq, hand) == OpenPalm
  {
    AllFiveNeedFive(extended);
  }

  /** Number of extended digits of a finger state. */
  function CountExtended(fs: FingerState): (n: nat)
    ensures n <= 5
  {
    (if fs.thumb then 1 else 0) + (if fs.index then 1 else 0) + (if fs.middle then 1 else 0)
    + (if fs.ring then 1 else 0) + (if fs.pinky then 1 else 0)
  }

  /**
   * The classification rules stated over which digits are extended, rather
   * than over a list and its length: pinch family, fist, thumbs, point (index
   * with no other non-thumb digit), peace, rock, three fingers, any other
   * configuration of three or more digits, otherwise none.
   */
  function ReferenceGesture(fs: FingerState, pinching: bool, thumbY: real, wristY: real): GestureType {
    if pinching then (if fs.middle && fs.ring && fs.pinky then OkSign else Pinch)
    else if fs == FingerState(false, false, false, false, false) then Fist
    else if fs == FingerState(true, false, false, false, false) then
      if thumbY < wristY - ThumbMargin then ThumbsUp
      else if thumbY > wristY + ThumbMargin then ThumbsDown
      else NoGesture
    else if fs.index && !fs.middle && !fs.ring && !fs.pinky then Point
    else if fs == FingerState(false, true, true, false, false) then Peace
    else if fs == FingerState(false, true, false, false, true) then Rock
    else if fs == FingerState(false, true, true, true, false) then ThreeFingers
    else if CountExtended(fs) >= 3 then OpenPalm
    else NoGesture
  }

  /**
   * On the list `get_extended_fingers` produces, the source's list-based chain
   * and the digit-based rules agree for every finger state, distance and hand.
   */
  lemma ClassifyMatchesReference(fs: FingerState, distSq: real, hand: HandLandmarks)
    requires WellFormed(hand)
    ensures ClassifyGesture(NamesOf(fs), distSq, hand) ==
            ReferenceGesture(fs, distSq < PinchThresholdSq, ThumbTip(hand).y, Wrist(hand).y)
  {
    var e := NamesOf(fs);
    NamesOfCanonical(fs);
    NamesOfLength(fs);
    assert Thumb in e <==> fs.thumb;
    assert Index in e <==> fs.index;
    assert Middle in e <==> fs.middle;
    assert Ring in e <==> fs.ring;
    assert Pinky in e <==> fs.pinky;
  }

  /** The extended-finger list has one entry per extended digit. */
  lemma NamesOfLength(fs: FingerState)
    ensures |NamesOf(fs)| == CountExtended(fs)
  {
    NamesOfExplicit(fs);
  }

  /** Index and middle finger out, thumb-index distance 0.5 (no pinch): a peace sign. */
  lemma PeaceScenario(hand: HandLandmarks)
    requires WellFormed(hand)
    ensures ClassifyGesture([Index, Middle], 0.5 * 0.5, hand) == Peace
  {
  }

  /** The sentinel distance of a too-small hand never classifies as a pinch. */
  lemma SmallHandNeverPinches(extended: seq<Finger>, hand: HandLandmarks)
    requires WellFormed(hand)
    requires HandSizeSq(hand) < 1.0
    ensures var g := ClassifyGesture(extended, NormalizedDistanceSq(ThumbTip(hand), IndexTip(hand), hand), hand);
            g != Pinch && g != OkSign
  {
  }

  /** The gesture `recognize` reports for a hand. */
  function RecognizedGesture(hand: HandLandmarks): GestureType
    requires WellFormed(hand)
  {
    ClassifyGesture(ExtendedFingers(hand), NormalizedDistanceSq(ThumbTip(hand), IndexTip(hand), hand), hand)
  }

  // ---------------------------------------------------------------------------
  // Position
  // ---------------------------------------------------------------------------

  /**
   * numpy's `np.clip(a / b, 0, 1)` for float scalars: a zero divisor gives
   * +inf or -inf, clipped to 1 or 0 (0 / 0 is NaN; see README).
   */
  function ClipRatio(a: real, b: real): (r: real)
    ensures 0.0 <= r <= 1.0
  {
    if b != 0.0 then ClipReal(a / b, 0.0, 1.0)
    else if a > 0.0 then 1.0
    else 0.0
  }

  /**
   * The position `recognize` reports: the palm centre divided by a frame size
   * estimated from the bounding box (`bbox.x + bbox.w / 2 + 200`, likewise for
   * y), clipped to the unit square.
   */
  function NormalizedPosition(hand: HandLandmarks): (pos: (real, real))
    requires WellFormed(hand)
    ensures 0.0 <= pos.0 <= 1.0 && 0.0 <= pos.1 <= 1.0
  {
    var palm := PalmCenter(hand);
    var frameW := hand.bbox.x as real + hand.bbox.w as real / 2.0 + 200.0;
    var frameH := hand.bbox.y as real + hand.bbox.h as real / 2.0 + 200.0;
    (ClipRatio(palm.x, frameW), ClipRatio(palm.y, frameH))
  }

  // ---------------------------------------------------------------------------
  // The recognizer object
  // ---------------------------------------------------------------------------

  /**
   * `GestureRecognizer`: remembers the previous gesture and when it began.
   * `time.time()` and `GESTURE_HOLD_TIME` are the parameters `now` and `holdTime`.
   */
  class GestureRecognizer {
    var lastGesture: Option<GestureType>
    var gestureStartTime: real
    /** Set by the constructor, never read or updated afterwards. */
    var gesturePosition: (real, real)

    constructor ()
      ensures lastGesture == None && gestureStartTime == 0.0 && gesturePosition == (0.5, 0.5)
    {
      lastGesture := None;
      gestureStartTime := 0.0;
      gesturePosition := (0.5, 0.5);
    }

    /**
     * `recognize`: classify the hand; restart the hold timer exactly when the
     * gesture differs from the previous one; report whether the gesture has
     * been held for `holdTime`, and the clipped palm position.
     */
    method Recognize(hand: HandLandmarks, now: real, holdTime: real) returns (st: GestureState)
      requires WellFormed(hand)
      modifies this
      ensures st.gesture == RecognizedGesture(hand)
      ensures lastGesture == Some(st.gesture)
      ensures gestureStartTime == if old(lastGesture) == Some(st.gesture) then old(gestureStartTime) else now
      ensures st.startTime == gestureStartTime
      ensures st.isHeld <==> now - gestureStartTime >= holdTime
      ensures old(lastGesture) != Some(st.gesture) && holdTime > 0.0 ==> !st.isHeld
      ensures st.position == NormalizedPosition(hand)
      ensures 0.0 <= st.position.0 <= 1.0 && 0.0 <= st.position.1 <= 1.0
      ensures st.confidence == hand.confidence
      ensures gesturePosition == old(gesturePosition)
    {
      var extended := GetExtendedFingers(hand);
      var thumbIndexDist := NormalizedDistanceSq(ThumbTip(hand), IndexTip(hand), hand);
      var gesture := ClassifyGesture(extended, thumbIndexDist, hand);

      var currentTime := now;
      if Some(gesture) != lastGesture {
        lastGesture := Some(gesture);
        gestureStartTime := currentTime;
      }

      var holdDuration := currentTime - gestureStartTime;
      var isHeld := holdDuration >= holdTime;

      st := GestureState(gesture, hand.confidence, gestureStartTime, NormalizedPosition(hand), isHeld);
    }

    /** `reset`: forget the previous gesture, so the next frame starts a new hold. */
    method Reset()
      modifies this
      ensures lastGesture == None && gestureStartTime == 0.0
      ensures gesturePosition == old(gesturePosition)
    {
      lastGesture := None;
      gestureStartTime := 0.0;
    }
  }

  /**
   * After `reset`, the next `recognize` restarts timing at `now`, so with a
   * positive hold time its gesture is not held yet.
   */
  method ResetRestartsTiming(r: GestureRecognizer, hand: HandLandmarks, now: real, holdTime: real)
    returns (st: GestureState)
    requires WellFormed(hand) && holdTime > 0.0
    modifies r
    ensures r.gestureStartTime == now && st.startTime == now
    ensures !st.isHeld
  {
    r.Reset();
    st := r.Recognize(hand, now, holdTime);
  }
}
