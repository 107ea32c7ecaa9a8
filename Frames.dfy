/**
 * Per-frame glue of each script: which detected hand feeds the cursor, the
 * pinch counter and the gesture buffer, and what each of them receives when
 * no hand, or a cut-off hand, is reported.
 */
module Frames {
  import opened Wrappers
  import opened Geometry
  import opened Fingers
  import opened Gestures
  import opened Click
  import opened Hands
  import Stabilizer
  import Photo

  /**
   * What one frame's detection passes on: the raw cursor target (None keeps
   * the cursor where it is), the pinch signal for the click counter, and the
   * label appended to the gesture buffer (None appends nothing).
   */
  datatype Reading = Reading(tip: Option<Point>, pinch: PinchSignal, gesture: Option<string>)

  /** The handedness labels, in report order. */
  function Sides(hands: seq<DetectedHand>): (s: seq<string>)
    ensures |s| == |hands|
    ensures forall i :: 0 <= i < |hands| ==> s[i] == hands[i].side
  {
    if hands == [] then [] else [hands[0].side] + Sides(hands[1..])
  }

  /** Every reported hand carries the detector's 21 landmarks. */
  predicate FullHands(hands: seq<DetectedHand>) {
    forall i :: 0 <= i < |hands| ==> |hands[i].landmarks| == 21
  }

  /** Pinch distances in pixels. */
  const SuiteClickDistance: nat := 50
  const CounterClickDistance: nat := 45
  const AppClickDistance: nat := 50
  const FollowPinchDistance: nat := 60

  /** The navigation hand's landmarks: the first "Right" hand, else hand 0. */
  function NavHand(hands: seq<DetectedHand>): (lm: Option<seq<Point>>)
    ensures lm.None? <==> hands == []
    ensures FullHands(hands) && lm.Some? ==> |lm.value| == 21
  {
    if hands == [] then None else Some(hands[NavIndex(Sides(hands))].landmarks)
  }

  /** The first hand labelled "Right" is the navigation hand. */
  lemma NavHandIsFirstRight(hands: seq<DetectedHand>, i: nat)
    requires i < |hands| && hands[i].side == "Right"
    requires forall j :: 0 <= j < i ==> hands[j].side != "Right"
    ensures NavHand(hands) == Some(hands[i].landmarks)
  {
    var sides := Sides(hands);
    var k := NavIndex(sides);
    assert sides[i] == "Right";
    if sides[k] != "Right" {
      assert false;
    }
    if k != i {
      assert false;
    }
  }

  /** With no "Right" hand, the first reported hand navigates. */
  lemma NavHandFallsBackToFirst(hands: seq<DetectedHand>)
    requires hands != [] && forall j :: 0 <= j < |hands| ==> hands[j].side != "Right"
    ensures NavHand(hands) == Some(hands[0].landmarks)
  {
    var sides := Sides(hands);
    var k := NavIndex(sides);
    assert sides[k] == hands[k].side;
  }

  /**
   * Once a "Right" hand is reported, hands reported after it, and
   * non-right hands reported before it, do not change the navigation hand.
   */
  lemma NavHandIgnoresOtherHands(before: seq<DetectedHand>, hands: seq<DetectedHand>, after: seq<DetectedHand>, i: nat)
    requires i < |hands| && hands[i].side == "Right"
    requires forall j :: 0 <= j < i ==> hands[j].side != "Right"
    requires forall j :: 0 <= j < |before| ==> before[j].side != "Right"
    ensures NavHand(before + hands + after) == NavHand(hands)
  {
    var all := before + hands + after;
    var n := |before| + i;
    assert all[n] == hands[i];
    forall j | 0 <= j < n ensures all[j].side != "Right" {
      if j < |before| {
        assert all[j] == before[j];
      } else {
        assert all[j] == hands[j - |before|];
      }
    }
    NavHandIsFirstRight(all, n);
    NavHandIsFirstRight(hands, i);
  }

  /**
   * The game scripts' navigation reading. `armed` is the photo gate: the pinch
   * counter runs only while the photo booth is idle (always, in the script
   * without a booth), and is otherwise paused.
   */
  function SuiteReading(hands: seq<DetectedHand>, armed: bool): (r: Reading)
    requires FullHands(hands)
    ensures hands == [] ==> r == Reading(None, NoHand, Some("Punho Fechado"))
    ensures hands != [] ==> r.tip.Some? && r.pinch != NoHand && (r.pinch == Paused <==> !armed)
    ensures r.gesture.Some?
  {
    match NavHand(hands)
    case None => Reading(None, NoHand, Some(SuiteGestureName([0, 0, 0, 0, 0])))
    case Some(lm) =>
      Reading(Some(lm[8]),
              if armed then Hand(Pinching(lm[4], lm[8], SuiteClickDistance)) else Paused,
              Some(SuiteGestureName(Fingers30(lm))))
  }

  /** Cursor, pinch and label all come from the first "Right" hand. */
  lemma SuiteReadingFollowsRightHand(hands: seq<DetectedHand>, armed: bool, i: nat)
    requires FullHands(hands) && i < |hands| && hands[i].side == "Right"
    requires forall j :: 0 <= j < i ==> hands[j].side != "Right"
    ensures var lm := hands[i].landmarks;
            var r := SuiteReading(hands, armed);
            r.tip == Some(lm[8]) &&
            r.gesture == Some(SuiteGestureName(Fingers30(lm))) &&
            (armed ==> (r.pinch == Hand(true) <==> DistSq(lm[4], lm[8]) < 2500))
  {
    NavHandIsFirstRight(hands, i);
  }

  /** When a hand is gone the counter sees `NoHand` and is reset without a click. */
  lemma SuiteNoHandResetsClick(policy: FirePolicy, frames: nat)
    ensures Click.Step(policy, frames, SuiteReading([], true).pinch) == ClickOut(0, false)
    ensures Click.Step(policy, frames, SuiteReading([], false).pinch) == ClickOut(0, false)
  {
  }

  /** While the photo booth is busy, any reported hand leaves the counter untouched. */
  lemma SuiteBusyBoothPausesClick(hands: seq<DetectedHand>, policy: FirePolicy, frames: nat)
    requires FullHands(hands) && hands != []
    ensures Click.Step(policy, frames, SuiteReading(hands, false).pinch) == ClickOut(frames, false)
  {
  }

  /** `total_fingers` of the gesture screen: raised fingers over every reported hand. */
  function HandsTotal(hands: seq<DetectedHand>): int {
    if hands == [] then 0
    else HandsTotal(hands[..|hands| - 1]) + Sum(Fingers30OrFist(hands[|hands| - 1].landmarks))
  }

  /** The total lies between 0 and five per hand. */
  lemma {:induction false} HandsTotalBounds(hands: seq<DetectedHand>)
    ensures 0 <= HandsTotal(hands) <= 5 * |hands|
  {
    if hands != [] {
      HandsTotalBounds(hands[..|hands| - 1]);
      ReadingTotal(Fingers30OrFist(hands[|hands| - 1].landmarks));
    }
  }

  /** Every hand's own count, the navigation hand's included, is part of the total. */
  lemma {:induction false} EveryHandIsCounted(hands: seq<DetectedHand>, i: nat)
    requires i < |hands|
    ensures Sum(Fingers30OrFist(hands[i].landmarks)) <= HandsTotal(hands)
  {
    var pre := hands[..|hands| - 1];
    HandsTotalBounds(pre);
    ReadingTotal(Fingers30OrFist(hands[|hands| - 1].landmarks));
    if i < |hands| - 1 {
      EveryHandIsCounted(pre, i);
      assert pre[i] == hands[i];
    }
  }

  /** The gesture screen's `for` loop over the detected hands. */
  method TotalFingers(hands: seq<DetectedHand>) returns (total: int)
    ensures total == HandsTotal(hands)
    ensures 0 <= total <= 5 * |hands|
  {
    total := 0;
    for k := 0 to |hands|
      invariant total == HandsTotal(hands[..k])
    {
      assert hands[..k + 1][..k] == hands[..k];
      total := total + Sum(Fingers30OrFist(hands[k].landmarks));
    }
    assert hands[..|hands|] == hands;
    HandsTotalBounds(hands);
  }

  /**
   * The finger counter with the calculator's frame: cursor and pinch from the
   * navigation hand, guarded by its `try` (a hand too short to index gives no
   * cursor target and resets the counter), and the label from hand 0.
   */
  function CounterReading(hands: seq<DetectedHand>): (r: Reading)
    ensures hands == [] <==> r.gesture.None?
    ensures hands == [] ==> r.tip.None? && r.pinch == NoHand
    ensures r.tip.None? <==> r.pinch == NoHand
  {
    if hands == [] then Reading(None, NoHand, None)
    else
      var lm := NavHand(hands).value;
      var name := Some(CounterGestureName(Fingers30OrFist(hands[0].landmarks)));
      if |lm| > 8 then Reading(Some(lm[8]), Hand(Pinching(lm[4], lm[8], CounterClickDistance)), name)
      else Reading(None, NoHand, name)
  }

  /**
   * The counter's label follows the first reported hand, not the navigation
   * hand: with a left hand reported before a right one, the cursor follows
   * the right hand and the label describes the left one.
   */
  lemma CounterLabelComesFromFirstHand(left: seq<Point>, right: seq<Point>)
    requires |left| == 21 && |right| == 21
    ensures var r := CounterReading([DetectedHand(left, "Left"), DetectedHand(right, "Right")]);
            r.tip == Some(right[8]) && r.gesture == Some(CounterGestureName(Fingers30(left)))
  {
    NavHandIsFirstRight([DetectedHand(left, "Left"), DetectedHand(right, "Right")], 1);
  }

  /** A navigation hand too short to read resets the counter and keeps the cursor. */
  lemma CounterShortHandResetsClick(hands: seq<DetectedHand>, frames: nat)
    requires hands != [] && |NavHand(hands).value| <= 8
    ensures CounterReading(hands).tip.None?
    ensures Click.Step(AboveThenReset(4), frames, CounterReading(hands).pinch) == ClickOut(0, false)
  {
  }

  /**
   * The application's frame: everything from hand 0, classified with
   * `detectar_dedos_vetorial` as it is written. An empty landmark list is
   * falsy there, so it gives no cursor target and resets the counter; a
   * non-empty one is indexed up to landmark 8 without a guard.
   */
  function AppReading(hands: seq<DetectedHand>): (r: Reading)
    requires hands != [] && hands[0].landmarks != [] ==> |hands[0].landmarks| > 8
    ensures hands == [] ==> r == Reading(None, NoHand, None)
    ensures hands != [] ==> r.gesture.Some? && (r.gesture.value == "" <==> |hands[0].landmarks| != 21)
  {
    if hands == [] then Reading(None, NoHand, None)
    else
      var lm := hands[0].landmarks;
      var name := AppGestureName(AppFingersAsWritten(lm));
      if lm == [] then Reading(None, NoHand, Some(name))
      else Reading(Some(lm[8]), Hand(Pinching(lm[4], lm[8], AppClickDistance)), Some(name))
  }

  /**
   * The application pushes "Mão Aberta" only for a hand of 21 landmarks whose
   * thumb passes the "> 160°" test and whose four fingers pass the 40° test.
   */
  lemma AppOpenLabelMeansAllPass(hands: seq<DetectedHand>)
    requires hands != [] && hands[0].landmarks != [] ==> |hands[0].landmarks| > 8
    requires AppReading(hands).gesture == Some("Mão Aberta")
    ensures hands != [] && |hands[0].landmarks| == 21
    ensures var lm := hands[0].landmarks;
      Passes(Beyond160, lm[1], lm[2], lm[4]) &&
      Passes(Within40, lm[5], lm[6], lm[8]) && Passes(Within40, lm[9], lm[10], lm[12]) &&
      Passes(Within40, lm[13], lm[14], lm[16]) && Passes(Within40, lm[17], lm[18], lm[20])
  {
    var v := AppFingersAsWritten(hands[0].landmarks);
    OpenHandNameMeansAllRaised(v);
    assert v == [1, 1, 1, 1, 1];
  }

  /**
   * As written, a fully straight hand is pushed as "4 Dedo(s)", so the
   * application's buffer never holds the "Mão Aberta" its photo screen waits for.
   */
  lemma AppStraightHandPushesFour(hands: seq<DetectedHand>)
    requires hands != [] && |hands[0].landmarks| == 21
    requires var lm := hands[0].landmarks;
             Passes(Within20, lm[1], lm[2], lm[4]) &&
             Passes(Within40, lm[5], lm[6], lm[8]) && Passes(Within40, lm[9], lm[10], lm[12]) &&
             Passes(Within40, lm[13], lm[14], lm[16]) && Passes(Within40, lm[17], lm[18], lm[20])
    ensures AppReading(hands).gesture == Some("4 Dedo(s)")
  {
    StraightHandNames(hands[0].landmarks);
  }

  /** With a left hand reported before a right one, the application and the games follow different hands. */
  lemma AppAndGamesFollowDifferentHands(left: seq<Point>, right: seq<Point>)
    requires |left| == 21 && |right| == 21
    ensures var hands := [DetectedHand(left, "Left"), DetectedHand(right, "Right")];
            AppReading(hands).tip == Some(left[8]) && SuiteReading(hands, true).tip == Some(right[8])
  {
    var hands := [DetectedHand(left, "Left"), DetectedHand(right, "Right")];
    SuiteReadingFollowsRightHand(hands, true, 1);
  }

  /** The first reported hand's landmarks, if any. */
  function FirstHand(hands: seq<DetectedHand>): (lm: Option<seq<Point>>)
    ensures lm.None? <==> hands == []
    ensures lm.Some? ==> lm.value == hands[0].landmarks
  {
    if hands == [] then None else Some(hands[0].landmarks)
  }

  /** The list-buffer counter's frame label: "" with no hand, else the counters' name of hand 0. */
  function ListCounterLabel(hands: seq<DetectedHand>): (l: string)
    requires hands != [] ==> |hands[0].landmarks| >= 21
  {
    match FirstHand(hands)
    case None => ""
    case Some(lm) => CounterGestureName(Fingers30(lm))
  }

  /** Every name of the counters' chain is non-empty. */
  lemma CounterNamesAreNonEmpty(v: seq<int>)
    ensures CounterGestureName(v) != ""
  {
    var r := Lookup(CounterTable, v);
    if r.Some? {
      var k :| 0 <= k < |CounterTable| && CounterTable[k].pattern == v && CounterTable[k].name == r.value;
      CounterTableIsWellFormed();
    } else {
      assert CounterGestureName(v) == DedosPrefix + NatToString(CountOnes(v));
    }
  }

  /** The frame label is empty exactly on frames with no hand. */
  lemma ListCounterLabelEmptyIffNoHand(hands: seq<DetectedHand>)
    requires hands != [] ==> |hands[0].landmarks| >= 21
    ensures ListCounterLabel(hands) == "" <==> hands == []
  {
    if hands != [] {
      CounterNamesAreNonEmpty(Fingers30(hands[0].landmarks));
    }
  }

  /** Five frames without a hand make "" the stable label, so the display goes blank. */
  lemma ListCounterBlanksAfterHandLeaves(st: Stabilizer.State, frames: seq<seq<DetectedHand>>)
    requires |frames| >= 5 && forall i :: 0 <= i < |frames| ==> frames[i] == []
    ensures var labels := seq(|frames|, i requires 0 <= i < |frames| => ListCounterLabel(frames[i]));
            Stabilizer.Run(st, 5, Stabilizer.MoreThanHalf, labels).stable == ""
  {
    var labels := seq(|frames|, i requires 0 <= i < |frames| => ListCounterLabel(frames[i]));
    Stabilizer.HeldGestureIsAdopted(st, 5, Stabilizer.MoreThanHalf, labels, "");
  }

  /** The photo booth opens on the first reported hand only. */
  function PhotoHandOpen(hands: seq<DetectedHand>): (open: bool)
    ensures open ==> hands != [] && |hands[0].landmarks| >= 21
  {
    Photo.HandOpen(FirstHand(hands))
  }

  /** The first-version counter's vector: zeros with no hand, else hand 0's 30° flags. */
  function BasicCounterFingers(hands: seq<DetectedHand>): (v: seq<int>)
    requires hands != [] ==> |hands[0].landmarks| >= 21
    ensures IsFlagVector(v)
    ensures hands == [] ==> v == [0, 0, 0, 0, 0]
  {
    match FirstHand(hands)
    case None => [0, 0, 0, 0, 0]
    case Some(lm) => Fingers30(lm)
  }

  /** A fingertip number is drawn exactly for each straight finger of hand 0, and none without a hand. */
  lemma BasicCounterLabelsShowStraightFingers(lm: seq<Point>, i: nat)
    requires |lm| >= 21 && i < 5
    ensures var v := BasicCounterFingers([DetectedHand(lm, "Right")]);
            (exists l :: l in LabelsUpTo(v, lm, 5) && l.name == FingerName(i)) <==>
              FingerPasses(Within30, FingerJoints[i], lm)
  {
    LabelsUpToIff(Fingers30(lm), lm, 5, i);
  }

  /** The follow game's frame: pinch, fingertip height and finger count, all from hand 0. */
  datatype FollowInput = FollowInput(pinch: bool, tipY: Option<int>, fingers: int)

  function FollowReading(hands: seq<DetectedHand>): (r: FollowInput)
    requires hands != [] ==> |hands[0].landmarks| >= 21
    ensures hands == [] ==> r == FollowInput(false, None, 0)
    ensures 0 <= r.fingers <= 5
    ensures hands != [] ==>
              r.tipY.Some? && (r.pinch <==> DistSq(hands[0].landmarks[4], hands[0].landmarks[8]) < 3600)
  {
    match FirstHand(hands)
    case None => FollowInput(false, None, 0)
    case Some(lm) =>
      FollowInput(Pinching(lm[4], lm[8], FollowPinchDistance), Some(lm[8].y), RaisedFingerCount(lm))
  }
}
