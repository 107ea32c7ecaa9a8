/**
 * Hand selection and the per-hand readings: which detected hand drives the
 * cursor and the click, the finger vector of every hand, and the two-hand
 * finger-sum calculator.
 */
module Hands {
  import opened Wrappers
  import opened Geometry
  import opened Fingers
  import opened Gestures

  /** One detector result: the hand's landmarks in pixels and its handedness label. */
  datatype DetectedHand = DetectedHand(landmarks: seq<Point>, side: string)

  /** The first position labelled "Right", if any. */
  function FirstRight(sides: seq<string>): (r: Option<nat>)
    ensures r.Some? ==> r.value < |sides| && sides[r.value] == "Right"
    ensures r.Some? ==> forall j :: 0 <= j < r.value ==> sides[j] != "Right"
    ensures r.None? ==> forall j :: 0 <= j < |sides| ==> sides[j] != "Right"
  {
    if sides == [] then None
    else if sides[0] == "Right" then Some(0)
    else match FirstRight(sides[1..])
      case None => None
      case Some(i) => Some(i + 1)
  }

  /**
   * The navigation hand: -1 with no hand; otherwise the first hand labelled
   * "Right" in report order, or hand 0 when there is none.
   */
  function NavIndex(sides: seq<string>): (i: int)
    ensures sides == [] <==> i == -1
    ensures sides != [] ==> 0 <= i < |sides|
    ensures 0 <= i && sides[i] == "Right" ==> forall j :: 0 <= j < i ==> sides[j] != "Right"
    ensures sides != [] && sides[i] != "Right" ==> i == 0 && forall j :: 0 <= j < |sides| ==> sides[j] != "Right"
  {
    if sides == [] then -1
    else match FirstRight(sides)
      case Some(r) => r
      case None => 0
  }

  /** The selection loop of the game scripts (`for i, hand_info in enumerate(...)`, then the fallback). */
  method SelectNavHand(sides: seq<string>) returns (index: int)
    ensures index == NavIndex(sides)
  {
    index := -1;
    if |sides| > 0 {
      var i := 0;
      while i < |sides|
        invariant 0 <= i <= |sides|
        invariant index == -1
        invariant forall j :: 0 <= j < i ==> sides[j] != "Right"
      {
        if sides[i] == "Right" {
          index := i;
          break;
        }
        i := i + 1;
      }
      if index == -1 {
        index := 0;
      }
    }
  }

  /** The application always takes the first reported hand. */
  function AppPrimary(hands: seq<DetectedHand>): (r: Option<nat>)
    ensures r.Some? <==> hands != []
    ensures r.Some? ==> r.value == 0
  {
    if hands == [] then None else Some(0)
  }

  /** So the two choices part when a left hand is reported before a right one. */
  lemma PrimaryChoicesDiffer(left: seq<Point>, right: seq<Point>)
    ensures var hands := [DetectedHand(left, "Left"), DetectedHand(right, "Right")];
            NavIndex(["Left", "Right"]) == 1 && AppPrimary(hands) == Some(0)
  {
    assert FirstRight(["Left", "Right"][1..]) == Some(0) by {
      assert ["Left", "Right"][1..] == ["Right"];
    }
  }

  /**
   * The counter's per-hand loop: one 30° finger vector and one side label
   * per detected hand, in report order.
   */
  method ClassifyHands(hands: seq<DetectedHand>) returns (vectors: seq<seq<int>>, sides: seq<string>)
    ensures |vectors| == |hands| && |sides| == |hands|
    ensures forall i :: 0 <= i < |hands| ==> vectors[i] == Fingers30OrFist(hands[i].landmarks)
    ensures forall i :: 0 <= i < |hands| ==> sides[i] == hands[i].side
  {
    vectors := [];
    sides := [];
    for k := 0 to |hands|
      invariant |vectors| == k && |sides| == k
      invariant forall i :: 0 <= i < k ==> vectors[i] == Fingers30OrFist(hands[i].landmarks)
      invariant forall i :: 0 <= i < k ==> sides[i] == hands[i].side
    {
      var v := Fingers30OrFist(hands[k].landmarks);
      assert forall i :: 0 <= i < k ==> (vectors + [v])[i] == vectors[i];
      vectors := vectors + [v];
      assert forall i :: 0 <= i < k ==> (sides + [hands[k].side])[i] == sides[i];
      sides := sides + [hands[k].side];
    }
  }

  /** The application's per-hand loop, with its own classifier as written. */
  method AppClassifyHands(hands: seq<DetectedHand>) returns (vectors: seq<seq<int>>)
    ensures |vectors| == |hands|
    ensures forall i :: 0 <= i < |hands| ==> vectors[i] == AppFingersAsWritten(hands[i].landmarks)
  {
    vectors := [];
    for k := 0 to |hands|
      invariant |vectors| == k
      invariant forall i :: 0 <= i < k ==> vectors[i] == AppFingersAsWritten(hands[i].landmarks)
    {
      vectors := vectors + [AppFingersAsWritten(hands[k].landmarks)];
    }
  }

  /** A vector the classifiers produce: five flags, or the application's empty result. */
  predicate IsReading(v: seq<int>) {
    v == [] || IsFlagVector(v)
  }

  /** A hand's finger total is between 0 and 5. */
  lemma ReadingTotal(v: seq<int>)
    requires IsReading(v)
    ensures 0 <= Sum(v) <= 5
  {
    if v != [] {
      SumOfFlagsIsACount(v);
    }
  }

  /** The counter's calculator state: `calc_display` and `calc_result`. */
  datatype CalcOut = CalcOut(display: string, result: Option<int>)

  /** The counter's calculator: two hands add their totals, one hand shows its own. */
  function CounterCalc(vectors: seq<seq<int>>): (r: CalcOut)
    ensures r.display == "" <==> r.result.None?
    ensures r.result.None? <==> |vectors| != 1 && |vectors| != 2
  {
    if |vectors| == 2 then
      CalcOut(IntToString(Sum(vectors[0])) + " + " + IntToString(Sum(vectors[1])), Some(Sum(vectors[0]) + Sum(vectors[1])))
    else if |vectors| == 1 then
      CalcOut(IntToString(Sum(vectors[0])), Some(Sum(vectors[0])))
    else CalcOut("", None)
  }

  /** What the counter writes on the display: the expression and ` = result`. */
  function CounterDisplayText(c: CalcOut): string {
    if c.result.Some? && c.display != "" then c.display + " = " + IntToString(c.result.value) else c.display
  }

  /** The application's display text. */
  function AppDisplayText(vectors: seq<seq<int>>): string {
    if |vectors| == 2 then
      var a := Sum(vectors[0]);
      var b := Sum(vectors[1]);
      IntToString(a) + " + " + IntToString(b) + " = " + IntToString(a + b)
    else if |vectors| == 1 then IntToString(Sum(vectors[0]))
    else ""
  }

  /** One hand's total, as a single digit. */
  lemma TotalIsOneDigit(v: seq<int>)
    requires IsReading(v)
    ensures 0 <= Sum(v) <= 5 && IntToString(Sum(v)) == [Digit(Sum(v))]
  {
    ReadingTotal(v);
  }

  /**
   * With two hands both calculators show `a + b = a+b`, where `a` and `b`
   * are the hands' finger totals, each a single digit from 0 to 5, and the
   * result is their sum.
   */
  lemma TwoHandCalculation(v: seq<int>, w: seq<int>)
    requires IsReading(v) && IsReading(w)
    ensures var a := Sum(v);
            var b := Sum(w);
            0 <= a <= 5 && 0 <= b <= 5 &&
            CounterCalc([v, w]).result == Some(a + b) &&
            CounterDisplayText(CounterCalc([v, w])) == [Digit(a)] + " + " + [Digit(b)] + " = " + NatToString(a + b) &&
            AppDisplayText([v, w]) == CounterDisplayText(CounterCalc([v, w]))
  {
    TotalIsOneDigit(v);
    TotalIsOneDigit(w);
    ReadingTotal(v);
    ReadingTotal(w);
  }

  /**
   * With one hand the counter repeats the total as `a = a`, while the
   * application shows only `a`; with no hand (or more than two) both show
   * nothing.
   */
  lemma OneHandCalculation(v: seq<int>)
    requires IsReading(v)
    ensures var a := Sum(v);
            0 <= a <= 5 &&
            CounterCalc([v]).result == Some(a) &&
            CounterDisplayText(CounterCalc([v])) == [Digit(a)] + " = " + [Digit(a)] &&
            AppDisplayText([v]) == [Digit(a)]
  {
    TotalIsOneDigit(v);
  }

  lemma NoHandCalculation(vectors: seq<seq<int>>)
    requires |vectors| != 1 && |vectors| != 2
    ensures CounterCalc(vectors) == CalcOut("", None)
    ensures CounterDisplayText(CounterCalc(vectors)) == "" && AppDisplayText(vectors) == ""
  {
  }
}
