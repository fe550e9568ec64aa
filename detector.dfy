/**
 * Finger-state extraction from 21 hand landmarks (jarvis/gestures/detector.py):
 * the `HandLandmarks` record, its landmark accessors, the palm centre, the
 * per-finger extension test, the list of extended fingers, and the bounding
 * box that `HandDetector.detect` computes from the landmark coordinates.
 *
 * Coordinates are `real`s. Every comparison of Euclidean norms in the source is
 * modelled as the same comparison of squared norms (see Numeric.SquareMonotone).
 */
module Detector {
  import opened Numeric

  /** One landmark: image-space x and y in pixels, and relative depth z. */
  datatype Point3 = Point3(x: real, y: real, z: real)

  /** `(x, y, w, h)` in whole pixels. */
  datatype BBox = BBox(x: int, y: int, w: int, h: int)

  /** One detected hand: landmarks, handedness label ("Left"/"Right"), score, box. */
  datatype HandLandmarks = HandLandmarks(
    landmarks: seq<Point3>,
    handedness: string,
    confidence: real,
    bbox: BBox)

  /** The hand tracker always delivers exactly 21 landmarks. */
  const LandmarkCount: nat := 21

  predicate WellFormed(hand: HandLandmarks) {
    |hand.landmarks| == LandmarkCount
  }

  // Landmark indices of the MediaPipe hand model.
  const WristIndex: nat := 0
  const ThumbMcpIndex: nat := 2
  const ThumbTipIndex: nat := 4
  const IndexTipIndex: nat := 8
  const MiddleMcpIndex: nat := 9
  const MiddleTipIndex: nat := 12
  const RingTipIndex: nat := 16
  const PinkyTipIndex: nat := 20

  function Wrist(hand: HandLandmarks): Point3
    requires WellFormed(hand)
  {
    hand.landmarks[WristIndex]
  }

  function ThumbTip(hand: HandLandmarks): Point3
    requires WellFormed(hand)
  {
    hand.landmarks[ThumbTipIndex]
  }

  function IndexTip(hand: HandLandmarks): Point3
    requires WellFormed(hand)
  {
    hand.landmarks[IndexTipIndex]
  }

  function MiddleTip(hand: HandLandmarks): Point3
    requires WellFormed(hand)
  {
    hand.landmarks[MiddleTipIndex]
  }

  function RingTip(hand: HandLandmarks): Point3
    requires WellFormed(hand)
  {
    hand.landmarks[RingTipIndex]
  }

  function PinkyTip(hand: HandLandmarks): Point3
    requires WellFormed(hand)
  {
    hand.landmarks[PinkyTipIndex]
  }

  /** Squared distance in the image plane (the `[:2]` slices of the source). */
  function PlanarDistSq(p: Point3, q: Point3): (d: real)
    ensures d >= 0.0
  {
    (p.x - q.x) * (p.x - q.x) + (p.y - q.y) * (p.y - q.y)
  }

  /** Squared distance in all three coordinates (a plain `np.linalg.norm(p - q)`). */
  function DistSq3(p: Point3, q: Point3): (d: real)
    ensures d >= 0.0
  {
    (p.x - q.x) * (p.x - q.x) + (p.y - q.y) * (p.y - q.y) + (p.z - q.z) * (p.z - q.z)
  }

  // ---------------------------------------------------------------------------
  // Palm centre
  // ---------------------------------------------------------------------------

  /** Wrist and the four finger knuckles (landmarks 0, 5, 9, 13, 17): the points averaged for the palm centre. */
  function PalmPoints(hand: HandLandmarks): (ps: seq<Point3>)
    requires WellFormed(hand)
    ensures |ps| == 5
  {
    [hand.landmarks[0], hand.landmarks[5], hand.landmarks[9], hand.landmarks[13], hand.landmarks[17]]
  }

  function Xs(ps: seq<Point3>): seq<real> {
    seq(|ps|, i requires 0 <= i < |ps| => ps[i].x)
  }

  function Ys(ps: seq<Point3>): seq<real> {
    seq(|ps|, i requires 0 <= i < |ps| => ps[i].y)
  }

  function Zs(ps: seq<Point3>): seq<real> {
    seq(|ps|, i requires 0 <= i < |ps| => ps[i].z)
  }

  /** `palm_center`: the coordinate-wise mean of landmarks 0, 5, 9, 13 and 17. */
  function PalmCenter(hand: HandLandmarks): Point3
    requires WellFormed(hand)
  {
    var p := PalmPoints(hand);
    Point3((p[0].x + p[1].x + p[2].x + p[3].x + p[4].x) / 5.0,
           (p[0].y + p[1].y + p[2].y + p[3].y + p[4].y) / 5.0,
           (p[0].z + p[1].z + p[2].z + p[3].z + p[4].z) / 5.0)
  }

  /**
   * Each coordinate of the palm centre lies between the smallest and the
   * largest value of that coordinate among the five averaged points.
   */
  lemma PalmCenterWithinPalm(hand: HandLandmarks)
    requires WellFormed(hand)
    ensures var c := PalmCenter(hand);
            && MinOf(Xs(PalmPoints(hand))) <= c.x <= MaxOf(Xs(PalmPoints(hand)))
            && MinOf(Ys(PalmPoints(hand))) <= c.y <= MaxOf(Ys(PalmPoints(hand)))
            && MinOf(Zs(PalmPoints(hand))) <= c.z <= MaxOf(Zs(PalmPoints(hand)))
  {
    var p := PalmPoints(hand);
    assert |Xs(p)| == 5 && Xs(p)[0] == p[0].x && Xs(p)[1] == p[1].x && Xs(p)[2] == p[2].x
           && Xs(p)[3] == p[3].x && Xs(p)[4] == p[4].x;
    assert |Ys(p)| == 5 && Ys(p)[0] == p[0].y && Ys(p)[1] == p[1].y && Ys(p)[2] == p[2].y
           && Ys(p)[3] == p[3].y && Ys(p)[4] == p[4].y;
    assert |Zs(p)| == 5 && Zs(p)[0] == p[0].z && Zs(p)[1] == p[1].z && Zs(p)[2] == p[2].z
           && Zs(p)[3] == p[3].z && Zs(p)[4] == p[4].z;
  }

  // ---------------------------------------------------------------------------
  // Extension tests
  // ---------------------------------------------------------------------------

  /** A finger's four landmark indices `[mcp, pip, dip, tip]`. */
  predicate ValidJoints(joints: seq<int>) {
    |joints| == 4 && forall k :: 0 <= k < 4 ==> 0 <= joints[k] < LandmarkCount
  }

  /**
   * `finger_is_extended`: the tip is farther from the wrist than the PIP joint,
   * measured in the image plane. The MCP and DIP indices are not consulted.
   */
  predicate FingerIsExtended(hand: HandLandmarks, joints: seq<int>)
    requires WellFormed(hand) && ValidJoints(joints)
  {
    var pip := hand.landmarks[joints[1]];
    var tip := hand.landmarks[joints[3]];
    PlanarDistSq(tip, Wrist(hand)) > PlanarDistSq(pip, Wrist(hand))
  }

  /**
   * The squared test agrees with the source's test on the norms themselves:
   * for the true distances `tipDist` and `pipDist` (non-negative numbers whose
   * squares are the squared distances), `tip_dist > pip_dist` holds exactly
   * when the finger counts as extended.
   */
  lemma FingerIsExtendedMatchesNorms(hand: HandLandmarks, joints: seq<int>, tipDist: real, pipDist: real)
    requires WellFormed(hand) && ValidJoints(joints)
    requires tipDist >= 0.0 && pipDist >= 0.0
    requires tipDist * tipDist == PlanarDistSq(hand.landmarks[joints[3]], Wrist(hand))
    requires pipDist * pipDist == PlanarDistSq(hand.landmarks[joints[1]], Wrist(hand))
    ensures FingerIsExtended(hand, joints) <==> tipDist > pipDist
  {
    SquareMonotone(pipDist, tipDist);
  }

  /**
   * Moving the MCP or DIP landmark of a finger (anywhere) never changes whether
   * that finger is extended.
   */
  lemma FingerIgnoresMcpAndDip(hand: HandLandmarks, joints: seq<int>, k: nat, p: Point3)
    requires WellFormed(hand) && ValidJoints(joints)
    requires k == joints[0] || k == joints[2]
    requires k != WristIndex && k != joints[1] && k != joints[3]
    ensures var moved := hand.(landmarks := hand.landmarks[k := p]);
            WellFormed(moved) && (FingerIsExtended(moved, joints) <==> FingerIsExtended(hand, joints))
  {
  }

  /**
   * The thumb test of `get_extended_fingers`: an x-axis comparison of the thumb
   * tip (4) against landmark 2, flipped for a hand labelled "Right".
   */
  predicate ThumbExtended(hand: HandLandmarks)
    requires WellFormed(hand)
  {
    var tip := hand.landmarks[ThumbTipIndex];
    var mcp := hand.landmarks[ThumbMcpIndex];
    if hand.handedness == "Right" then tip.x < mcp.x else tip.x > mcp.x
  }

  // ---------------------------------------------------------------------------
  // Extended-finger list
  // ---------------------------------------------------------------------------

  datatype Finger = Thumb | Index | Middle | Ring | Pinky

  /** Position of a finger in the source's finger table. */
  function Rank(f: Finger): (n: nat)
    ensures n < 5
  {
    match f
    case Thumb => 0
    case Index => 1
    case Middle => 2
    case Ring => 3
    case Pinky => 4
  }

  /** The source's finger table, in its (insertion) order: name and `[mcp, pip, dip, tip]`. */
  const FingerTable: seq<(Finger, seq<int>)> := [
    (Thumb, [1, 2, 3, 4]),
    (Index, [5, 6, 7, 8]),
    (Middle, [9, 10, 11, 12]),
    (Ring, [13, 14, 15, 16]),
    (Pinky, [17, 18, 19, 20])
  ]

  const AllFingers: seq<Finger> := [Thumb, Index, Middle, Ring, Pinky]

  /** Which digits are extended: the abstract content of the extended-finger list. */
  datatype FingerState = FingerState(thumb: bool, index: bool, middle: bool, ring: bool, pinky: bool)

  predicate Extends(fs: FingerState, f: Finger) {
    match f
    case Thumb => fs.thumb
    case Index => fs.index
    case Middle => fs.middle
    case Ring => fs.ring
    case Pinky => fs.pinky
  }

  /** The extension of every digit of a hand, each decided by its own test. */
  function FingerStateOf(hand: HandLandmarks): FingerState
    requires WellFormed(hand)
  {
    FingerState(
      ThumbExtended(hand),
      FingerIsExtended(hand, FingerTable[1].1),
      FingerIsExtended(hand, FingerTable[2].1),
      FingerIsExtended(hand, FingerTable[3].1),
      FingerIsExtended(hand, FingerTable[4].1))
  }

  /** The fingers of `fingers` that `fs` extends, in the order of `fingers`. */
  function Select(fs: FingerState, fingers: seq<Finger>): seq<Finger>
  {
    if fingers == [] then []
    else
      var last := fingers[|fingers| - 1];
      Select(fs, fingers[..|fingers| - 1]) + (if Extends(fs, last) then [last] else [])
  }

  /** The list of extended finger names for a finger state, in table order. */
  function NamesOf(fs: FingerState): seq<Finger> {
    Select(fs, AllFingers)
  }

  /** What `get_extended_fingers` returns for a hand. */
  function ExtendedFingers(hand: HandLandmarks): seq<Finger>
    requires WellFormed(hand)
  {
    NamesOf(FingerStateOf(hand))
  }

  /** Strictly increasing table positions: canonical order and no duplicates. */
  predicate Canonical(fingers: seq<Finger>) {
    forall i, j :: 0 <= i < j < |fingers| ==> Rank(fingers[i]) < Rank(fingers[j])
  }

  lemma {:induction false} SelectMembership(fs: FingerState, fingers: seq<Finger>, f: Finger)
    ensures f in Select(fs, fingers) <==> f in fingers && Extends(fs, f)
    decreases |fingers|
  {
    if fingers != [] {
      var init := fingers[..|fingers| - 1];
      SelectMembership(fs, init, f);
      assert fingers == init + [fingers[|fingers| - 1]];
    }
  }

  lemma {:induction false} SelectCanonical(fs: FingerState, fingers: seq<Finger>)
    requires Canonical(fingers)
    ensures Canonical(Select(fs, fingers))
    ensures |Select(fs, fingers)| <= |fingers|
    decreases |fingers|
  {
    if fingers != [] {
      var init := fingers[..|fingers| - 1];
      var last := fingers[|fingers| - 1];
      SelectCanonical(fs, init);
      var s := Select(fs, init);
      forall g | g in s ensures Rank(g) < Rank(last) {
        SelectMembership(fs, init, g);
        var k :| 0 <= k < |init| && init[k] == g;
      }
    }
  }

  /**
   * The list of extended fingers is a duplicate-free subsequence of
   * `[thumb, index, middle, ring, pinky]` in that order, holding exactly the
   * digits the finger state extends; so it has at most five entries.
   */
  lemma NamesOfCanonical(fs: FingerState)
    ensures Canonical(NamesOf(fs))
    ensures |NamesOf(fs)| <= 5
    ensures forall f :: f in NamesOf(fs) <==> Extends(fs, f)
  {
    SelectCanonical(fs, AllFingers);
    forall f ensures f in NamesOf(fs) <==> Extends(fs, f) {
      SelectMembership(fs, AllFingers, f);
      assert f == AllFingers[Rank(f)];
    }
  }

  /** The extended-finger list written out digit by digit. */
  lemma NamesOfExplicit(fs: FingerState)
    ensures NamesOf(fs) ==
      (if fs.thumb then [Thumb] else []) + (if fs.index then [Index] else []) +
      (if fs.middle then [Middle] else []) + (if fs.ring then [Ring] else []) +
      (if fs.pinky then [Pinky] else [])
  {
    var t := if fs.thumb then [Thumb] else [];
    var i := if fs.index then [Index] else [];
    var m := if fs.middle then [Middle] else [];
    var r := if fs.ring then [Ring] else [];
    assert [Thumb][..0] == [];
    assert Select(fs, [Thumb]) == t;
    assert [Thumb, Index][..1] == [Thumb];
    assert Select(fs, [Thumb, Index]) == t + i;
    assert [Thumb, Index, Middle][..2] == [Thumb, Index];
    assert Select(fs, [Thumb, Index, Middle]) == t + i + m;
    assert [Thumb, Index, Middle, Ring][..3] == [Thumb, Index, Middle];
    assert Select(fs, [Thumb, Index, Middle, Ring]) == t + i + m + r;
    assert AllFingers[..4] == [Thumb, Index, Middle, Ring];
  }

  /**
   * `get_extended_fingers`: the thumb by its x-axis test, then the other four
   * fingers of the table in order by the tip-versus-PIP test, appending the
   * name of each extended one.
   */
  method GetExtendedFingers(hand: HandLandmarks) returns (extended: seq<Finger>)
    requires WellFormed(hand)
    ensures extended == ExtendedFingers(hand)
    ensures Canonical(extended) && |extended| <= 5
    ensures Thumb in extended <==>
              if hand.handedness == "Right" then hand.landmarks[4].x < hand.landmarks[2].x
              else hand.landmarks[4].x > hand.landmarks[2].x
    ensures forall i :: 1 <= i < |FingerTable| ==>
              (FingerTable[i].0 in extended <==>
                 PlanarDistSq(hand.landmarks[FingerTable[i].1[3]], Wrist(hand)) >
                 PlanarDistSq(hand.landmarks[FingerTable[i].1[1]], Wrist(hand)))
  {
    ghost var fs := FingerStateOf(hand);
    extended := [];
    var thumbTip := hand.landmarks[ThumbTipIndex];
    var thumbMcp := hand.landmarks[ThumbMcpIndex];
    if hand.handedness == "Right" {
      if thumbTip.x < thumbMcp.x {
        extended := extended + [Thumb];
      }
    } else {
      if thumbTip.x > thumbMcp.x {
        extended := extended + [Thumb];
      }
    }
    assert AllFingers[..1] == [Thumb];
    assert extended == Select(fs, AllFingers[..1]);
    for i := 1 to |FingerTable|
      invariant extended == Select(fs, AllFingers[..i])
    {
      var finger := FingerTable[i].0;
      var joints := FingerTable[i].1;
      assert AllFingers[..i + 1][..i] == AllFingers[..i];
      assert finger == AllFingers[i];
      if FingerIsExtended(hand, joints) {
        extended := extended + [finger];
      }
    }
    assert AllFingers[..5] == AllFingers;
    NamesOfCanonical(fs);
  }

  // ---------------------------------------------------------------------------
  // Bounding box (the arithmetic inside HandDetector.detect)
  // ---------------------------------------------------------------------------

  /**
   * The bounding box of a hand's pixel landmarks: the truncated minimum x and
   * y, and the differences of the truncated maxima and minima. Its width and
   * height are never negative.
   */
  function BoundingBox(lms: seq<Point3>): (b: BBox)
    requires |lms| > 0
    ensures b.w >= 0 && b.h >= 0
    ensures b.x == Trunc(MinOf(Xs(lms))) && b.y == Trunc(MinOf(Ys(lms)))
    ensures b.x + b.w == Trunc(MaxOf(Xs(lms))) && b.y + b.h == Trunc(MaxOf(Ys(lms)))
  {
    assert |Xs(lms)| == |lms| && |Ys(lms)| == |lms|;
    var xMin := Trunc(MinOf(Xs(lms)));
    var xMax := Trunc(MaxOf(Xs(lms)));
    var yMin := Trunc(MinOf(Ys(lms)));
    var yMax := Trunc(MaxOf(Ys(lms)));
    TruncMonotone(MinOf(Xs(lms)), MaxOf(Xs(lms)));
    TruncMonotone(MinOf(Ys(lms)), MaxOf(Ys(lms)));
    BBox(xMin, yMin, xMax - xMin, yMax - yMin)
  }

  /** Every landmark, truncated to whole pixels, lies inside the bounding box. */
  lemma BoundingBoxContainsLandmarks(lms: seq<Point3>, i: nat)
    requires i < |lms|
    ensures var b := BoundingBox(lms);
            b.x <= Trunc(lms[i].x) <= b.x + b.w && b.y <= Trunc(lms[i].y) <= b.y + b.h
  {
    assert Xs(lms)[i] == lms[i].x && Ys(lms)[i] == lms[i].y;
    TruncMonotone(MinOf(Xs(lms)), lms[i].x);
    TruncMonotone(lms[i].x, MaxOf(Xs(lms)));
    TruncMonotone(MinOf(Ys(lms)), lms[i].y);
    TruncMonotone(lms[i].y, MaxOf(Ys(lms)));
  }
}
