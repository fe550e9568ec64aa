/**
 * Gesture types and the gesture-to-action table (jarvis/gestures/mappings.py).
 * The table is a Python dict, so it is modelled as an ordered list of
 * key/value entries (a dict keeps insertion order) and `.get` as a search.
 */
module Mappings {
  import opened Wrappers

  /** `GestureType`, in declaration order. `NONE` is written `NoGesture`. */
  datatype GestureType =
    | NoGesture
    | OpenPalm
    | Fist
    | Point
    | Peace
    | ThumbsUp
    | ThumbsDown
    | Pinch
    | ThreeFingers
    | Rock
    | OkSign
    | Hook

  /** The enum member's `.name`. */
  function Name(g: GestureType): string {
    match g
    case NoGesture => "NONE"
    case OpenPalm => "OPEN_PALM"
    case Fist => "FIST"
    case Point => "POINT"
    case Peace => "PEACE"
    case ThumbsUp => "THUMBS_UP"
    case ThumbsDown => "THUMBS_DOWN"
    case Pinch => "PINCH"
    case ThreeFingers => "THREE_FINGERS"
    case Rock => "ROCK"
    case OkSign => "OK_SIGN"
    case Hook => "HOOK"
  }

  /** `GestureAction`: what a gesture stands for, and whether it streams while held. */
  datatype GestureAction = GestureAction(
    gesture: GestureType,
    name: string,
    description: string,
    actionType: string,
    command: Option<string>,
    continuous: bool)

  type Entry = (GestureType, GestureAction)

  /** `GESTURE_ACTIONS`, in insertion order. */
  const GestureActions: seq<Entry> := [
    (OpenPalm, GestureAction(OpenPalm, "Cursor Mode", "Move cursor following palm position",
                             "mouse", Some("move"), true)),
    (Fist, GestureAction(Fist, "Drag Mode", "Click and drag while fist is held",
                         "mouse", Some("drag"), true)),
    (Point, GestureAction(Point, "Left Click", "Single left click when gesture detected",
                          "mouse", Some("left_click"), false)),
    (Peace, GestureAction(Peace, "Right Click", "Right click when peace sign shown",
                          "mouse", Some("right_click"), false)),
    (ThumbsUp, GestureAction(ThumbsUp, "Scroll Up", "Scroll up while thumb up is held",
                             "mouse", Some("scroll_up"), true)),
    (ThumbsDown, GestureAction(ThumbsDown, "Scroll Down", "Scroll down while thumb down is held",
                               "mouse", Some("scroll_down"), true)),
    (Pinch, GestureAction(Pinch, "Precision Mode", "Fine cursor control when pinching",
                          "mouse", Some("precision"), true)),
    (ThreeFingers, GestureAction(ThreeFingers, "Middle Click", "Middle click for opening links in new tab",
                                 "mouse", Some("middle_click"), false)),
    (Rock, GestureAction(Rock, "Voice Activate", "Activate voice command mode",
                         "system", Some("voice_activate"), false)),
    (OkSign, GestureAction(OkSign, "Confirm", "Confirm current action or selection",
                           "keyboard", Some("enter"), false))
  ]

  /** The gestures that have an entry, in table order. */
  function Keys(table: seq<Entry>): seq<GestureType> {
    seq(|table|, i requires 0 <= i < |table| => table[i].0)
  }

  /** Dict `.get`: the value of the first entry whose key is `g`, if any. */
  function Lookup(table: seq<Entry>, g: GestureType): (r: Option<GestureAction>)
    ensures r.None? <==> g !in Keys(table)
    ensures r.Some? ==> exists i :: 0 <= i < |table| && table[i] == (g, r.value)
  {
    if table == [] then
      assert Keys(table) == [];
      None
    else if table[0].0 == g then
      assert Keys(table)[0] == g;
      Some(table[0].1)
    else
      var r := Lookup(table[1..], g);
      assert Keys(table) == [table[0].0] + Keys(table[1..]);
      assert r.Some? ==> exists i :: 0 <= i < |table[1..]| && table[1..][i] == (g, r.value);
      r
  }

  /** `get_gesture_action`. */
  function GetGestureAction(g: GestureType): Option<GestureAction> {
    Lookup(GestureActions, g)
  }

  /** The table was built so that each entry's `gesture` field names its own key. */
  lemma EntriesNameTheirKey()
    ensures forall i :: 0 <= i < |GestureActions| ==> GestureActions[i].1.gesture == GestureActions[i].0
  {
  }

  /** No gesture has two entries. */
  lemma KeysDistinct()
    ensures forall i, j :: 0 <= i < j < |GestureActions| ==> GestureActions[i].0 != GestureActions[j].0
  {
  }

  /** The keys of the table, in order. */
  lemma KeysOfTable()
    ensures Keys(GestureActions) ==
            [OpenPalm, Fist, Point, Peace, ThumbsUp, ThumbsDown, Pinch, ThreeFingers, Rock, OkSign]
  {
  }

  /**
   * `get_gesture_action` finds nothing for exactly NONE and HOOK; whatever it
   * finds is the action recorded for that very gesture.
   */
  lemma GetGestureActionDefinedness(g: GestureType)
    ensures GetGestureAction(g).None? <==> g == NoGesture || g == Hook
    ensures GetGestureAction(g).Some? ==> GetGestureAction(g).value.gesture == g
  {
    KeysOfTable();
    if GetGestureAction(g).Some? {
      var a := GetGestureAction(g).value;
      var i :| 0 <= i < |GestureActions| && GestureActions[i] == (g, a);
      EntriesNameTheirKey();
      assert GestureActions[i].1.gesture == GestureActions[i].0;
    }
  }

  /** The streaming ("continuous") gestures are exactly OPEN_PALM, FIST, THUMBS_UP, THUMBS_DOWN and PINCH. */
  lemma ContinuousGestures(g: GestureType)
    ensures (GetGestureAction(g).Some? && GetGestureAction(g).value.continuous) <==>
            g in {OpenPalm, Fist, ThumbsUp, ThumbsDown, Pinch}
  {
    GetGestureActionDefinedness(g);
    if GetGestureAction(g).Some? {
      var a := GetGestureAction(g).value;
      var i :| 0 <= i < |GestureActions| && GestureActions[i] == (g, a);
      KeysDistinct();
      ContinuousAt(i);
    }
  }

  /** The continuous flag of each entry, by position. */
  lemma ContinuousAt(i: nat)
    requires i < |GestureActions|
    ensures GestureActions[i].1.continuous <==> GestureActions[i].0 in {OpenPalm, Fist, ThumbsUp, ThumbsDown, Pinch}
  {
  }

  /** One row of `get_all_gestures()`. */
  datatype GestureInfo = GestureInfo(gesture: string, action: string, description: string, continuous: bool)

  function InfoOf(e: Entry): GestureInfo {
    GestureInfo(Name(e.0), e.1.name, e.1.description, e.1.continuous)
  }

  /** The list comprehension over the table's items. */
  function InfoList(table: seq<Entry>): (r: seq<GestureInfo>)
    ensures |r| == |table|
    ensures forall i :: 0 <= i < |table| ==> r[i] == InfoOf(table[i])
  {
    if table == [] then [] else [InfoOf(table[0])] + InfoList(table[1..])
  }

  /** `get_all_gestures`. */
  function GetAllGestures(): seq<GestureInfo> {
    InfoList(GestureActions)
  }

  /**
   * `get_all_gestures` lists ten records, one per table entry and in table
   * order, each naming the gesture and copying the action's name, description
   * and continuous flag.
   */
  lemma AllGesturesListing()
    ensures |GetAllGestures()| == 10
    ensures forall i :: 0 <= i < 10 ==>
              GetAllGestures()[i] == GestureInfo(Name(GestureActions[i].0), GestureActions[i].1.name,
                                                 GestureActions[i].1.description, GestureActions[i].1.continuous)
    ensures GetAllGestures()[0].gesture == "OPEN_PALM" && GetAllGestures()[9].gesture == "OK_SIGN"
  {
  }
}
