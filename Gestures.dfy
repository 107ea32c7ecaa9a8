/**
 * Gesture names: each script maps a finger vector to a label through an
 * if/elif chain over fixed patterns and falls back to "" or to a text built
 * from the finger count.  A chain is a table of (pattern, label) entries read
 * top to bottom.
 */
module Gestures {
  import opened Wrappers
  import opened Geometry
  import opened Fingers

  datatype Entry = Entry(pattern: seq<int>, name: string)

  /** What a chain answers when no pattern matches. */
  datatype Fallback =
    | NoLabel      // `else: current_gesture_text = ""`
    | DedosColon   // `f"Dedos: {dedos.count(1)}"`
    | DedoCount    // `f"{sum(dedos)} Dedo(s)"`

  /** The first entry whose pattern equals `v`, as the chain of `elif`s picks it. */
  function Lookup(table: seq<Entry>, v: seq<int>): (r: Option<string>)
    ensures r.None? <==> forall k :: 0 <= k < |table| ==> table[k].pattern != v
    ensures r.Some? ==> exists k :: 0 <= k < |table| && table[k].pattern == v && table[k].name == r.value &&
                                   forall j :: 0 <= j < k ==> table[j].pattern != v
  {
    if table == [] then None
    else if table[0].pattern == v then Some(table[0].name)
    else
      var r := Lookup(table[1..], v);
      assert forall k :: 1 <= k < |table| ==> table[k] == table[1..][k - 1];
      r
  }

  /** `dedos.count(1)`. */
  function CountOnes(v: seq<int>): nat {
    if v == [] then 0 else (if v[0] == 1 then 1 else 0) + CountOnes(v[1..])
  }

  predicate AllFlags(v: seq<int>) {
    forall i :: 0 <= i < |v| ==> v[i] == 0 || v[i] == 1
  }

  /** On 0/1 entries, counting the ones is summing. */
  lemma {:induction false} CountOnesIsSum(v: seq<int>)
    requires AllFlags(v)
    ensures CountOnes(v) == Sum(v)
  {
    if v != [] {
      assert AllFlags(v[1..]) by {
        forall i | 0 <= i < |v[1..]| ensures v[1..][i] == 0 || v[1..][i] == 1 {
          assert v[1..][i] == v[i + 1];
        }
      }
      CountOnesIsSum(v[1..]);
    }
  }

  function Digit(d: nat): (c: char)
    requires d < 10
    ensures '0' <= c <= '9'
  {
    (('0' as int) + d) as char
  }

  predicate IsDigits(s: string) {
    forall i :: 0 <= i < |s| ==> '0' <= s[i] <= '9'
  }

  /** Python's `str(n)` for a non-negative integer. */
  function NatToString(n: nat): (s: string)
    ensures |s| >= 1 && IsDigits(s)
  {
    if n < 10 then [Digit(n)] else NatToString(n / 10) + [Digit(n % 10)]
  }

  /** Python's `str(n)` for any integer. */
  function IntToString(n: int): (s: string)
    ensures |s| >= 1
    ensures n >= 0 ==> s == NatToString(n)
    ensures n < 0 ==> s == "-" + NatToString(-n)
  {
    if n >= 0 then NatToString(n) else "-" + NatToString(-n)
  }

  /** Reading a decimal numeral back. */
  function ParseNat(s: string): nat
    requires IsDigits(s)
  {
    if s == [] then 0 else ParseNat(s[..|s| - 1]) * 10 + (s[|s| - 1] as int - '0' as int)
  }

  /** `str` is undone by parsing: the text shows the number itself. */
  lemma {:induction false} ParseNatToString(n: nat)
    ensures ParseNat(NatToString(n)) == n
  {
    var s := NatToString(n);
    if n >= 10 {
      ParseNatToString(n / 10);
      assert s[..|s| - 1] == NatToString(n / 10);
    } else {
      assert s[..0] == [];
    }
  }

  /** The label a chain gives a finger vector. */
  function Name(table: seq<Entry>, fallback: Fallback, v: seq<int>): string {
    match Lookup(table, v)
    case Some(l) => l
    case None =>
      match fallback
      case NoLabel => ""
      case DedosColon => "Dedos: " + NatToString(CountOnes(v))
      case DedoCount => IntToString(Sum(v)) + " Dedo(s)"
  }

  /** Patterns are distinct, labels are distinct and non-empty. */
  predicate WellFormed(table: seq<Entry>) {
    (forall i, j :: 0 <= i < j < |table| ==> table[i].pattern != table[j].pattern && table[i].name != table[j].name) &&
    (forall i :: 0 <= i < |table| ==> table[i].name != "")
  }

  predicate Recognised(table: seq<Entry>, v: seq<int>) {
    exists k :: 0 <= k < |table| && table[k].pattern == v
  }

  /** Every pattern of a well-formed table is named by its own label. */
  lemma NameOfPattern(table: seq<Entry>, k: nat, fallback: Fallback)
    requires WellFormed(table) && k < |table|
    ensures Name(table, fallback, table[k].pattern) == table[k].name
  {
    var r := Lookup(table, table[k].pattern);
  }

  /**
   * With the empty fallback the label is non-empty exactly when the vector is
   * one of the table's patterns.
   */
  lemma NonEmptyNameIffRecognised(table: seq<Entry>, v: seq<int>)
    requires WellFormed(table)
    ensures Name(table, NoLabel, v) != "" <==> Recognised(table, v)
  {
  }

  /** A recognised label names one vector only: the label can be read back as the pattern. */
  lemma LabelDeterminesVector(table: seq<Entry>, fallback: Fallback, v: seq<int>, w: seq<int>)
    requires WellFormed(table) && Recognised(table, v) && Recognised(table, w)
    requires Name(table, fallback, v) == Name(table, fallback, w)
    ensures v == w
  {
    var i :| 0 <= i < |table| && table[i].pattern == v && table[i].name == Name(table, fallback, v);
    var j :| 0 <= j < |table| && table[j].pattern == w && table[j].name == Name(table, fallback, w);
    assert i == j;
  }

  /** The chain of the game scripts' GESTOS screen. */
  const SuiteTable: seq<Entry> := [
    Entry([0, 0, 0, 0, 0], "Punho Fechado"),
    Entry([0, 1, 0, 0, 0], "Apontando (1)"),
    Entry([0, 1, 1, 0, 0], "Paz (2)"),
    Entry([1, 0, 0, 0, 0], "Joia"),
    Entry([1, 1, 1, 1, 1], "Mao Aberta (5)")]

  /** The chain of the finger counters. */
  const CounterTable: seq<Entry> := [
    Entry([0, 0, 0, 0, 0], "Punho Fechado"),
    Entry([0, 1, 0, 0, 0], "1"),
    Entry([0, 1, 1, 0, 0], "Paz / 2"),
    Entry([0, 1, 1, 1, 0], "3"),
    Entry([0, 1, 1, 1, 1], "4"),
    Entry([1, 1, 1, 1, 1], "Mao Aberta / 5"),
    Entry([1, 0, 0, 0, 0], "Joia"),
    Entry([1, 0, 0, 0, 1], "Telefone")]

  /** `get_gesture_name`'s chain. */
  const AppTable: seq<Entry> := [
    Entry([0, 0, 0, 0, 0], "Punho Fechado"),
    Entry([0, 1, 0, 0, 0], "Apontando"),
    Entry([0, 1, 1, 0, 0], "Paz e Amor"),
    Entry([1, 1, 1, 1, 1], "Mão Aberta"),
    Entry([1, 0, 0, 0, 1], "Hang Loose")]

  lemma SuiteTableIsWellFormed()
    ensures WellFormed(SuiteTable)
  {
    SuitePatternsDiffer();
    SuiteNamesDiffer();
  }

  /** No two entries of the chain test the same vector. */
  lemma SuitePatternsDiffer()
    ensures forall i, j :: 0 <= i < j < |SuiteTable| ==> SuiteTable[i].pattern != SuiteTable[j].pattern
  {
  }

  /** The chain's labels are distinct and non-empty. */
  lemma SuiteNamesDiffer()
    ensures forall i, j :: 0 <= i < j < |SuiteTable| ==> SuiteTable[i].name != SuiteTable[j].name
    ensures forall i :: 0 <= i < |SuiteTable| ==> SuiteTable[i].name != ""
  {
  }

  lemma CounterTableIsWellFormed()
    ensures WellFormed(CounterTable)
  {
    CounterPatternsDiffer();
    CounterNamesDiffer();
  }

  /** No two entries of the chain test the same vector. */
  lemma CounterPatternsDiffer()
    ensures forall i, j :: 0 <= i < j < |CounterTable| ==> CounterTable[i].pattern != CounterTable[j].pattern
  {
  }

  /** The chain's labels are distinct and non-empty. */
  lemma CounterNamesDiffer()
    ensures forall i, j :: 0 <= i < j < |CounterTable| ==> CounterTable[i].name != CounterTable[j].name
    ensures forall i :: 0 <= i < |CounterTable| ==> CounterTable[i].name != ""
  {
  }

  lemma AppTableIsWellFormed()
    ensures WellFormed(AppTable)
  {
    AppPatternsDiffer();
    AppNamesDiffer();
  }

  /** No two entries of the chain test the same vector. */
  lemma AppPatternsDiffer()
    ensures forall i, j :: 0 <= i < j < |AppTable| ==> AppTable[i].pattern != AppTable[j].pattern
  {
  }

  /** The chain's labels are distinct and non-empty. */
  lemma AppNamesDiffer()
    ensures forall i, j :: 0 <= i < j < |AppTable| ==> AppTable[i].name != AppTable[j].name
    ensures forall i :: 0 <= i < |AppTable| ==> AppTable[i].name != ""
  {
  }

  /** The game scripts' label: one of five names, or "" for any other vector. */
  function SuiteGestureName(v: seq<int>): (s: string)
    ensures s == "" <==> !Recognised(SuiteTable, v)
  {
    SuiteTableIsWellFormed();
    NonEmptyNameIffRecognised(SuiteTable, v);
    Name(SuiteTable, NoLabel, v)
  }

  /** The finger counters' label. */
  function CounterGestureName(v: seq<int>): string {
    Name(CounterTable, DedosColon, v)
  }

  const DedosPrefix: string := "Dedos: "

  predicate StartsWithDedos(s: string) {
    |s| >= 7 && s[..7] == DedosPrefix
  }

  /** No label of the counters' chain looks like the fallback. */
  lemma CounterLabelsAreNotCounts()
    ensures forall k :: 0 <= k < |CounterTable| ==> !StartsWithDedos(CounterTable[k].name)
  {
    forall k | 0 <= k < |CounterTable| ensures !StartsWithDedos(CounterTable[k].name) {
      var l := CounterTable[k].name;
      if |l| >= 7 {
        assert l[0] != 'D';
        assert l[..7][0] == l[0];
      }
    }
  }

  /**
   * The counters' fallback is recognisable: a label starts with "Dedos: "
   * exactly when the vector is none of the eight patterns, and then the rest of
   * the label reads back as the number of raised fingers.
   */
  lemma CounterFallbackShowsCount(v: seq<int>)
    requires IsFlagVector(v)
    ensures StartsWithDedos(CounterGestureName(v)) <==> !Recognised(CounterTable, v)
    ensures var s := CounterGestureName(v);
            !Recognised(CounterTable, v) ==> IsDigits(s[7..]) && ParseNat(s[7..]) == Sum(v)
  {
    var s := CounterGestureName(v);
    if !Recognised(CounterTable, v) {
      var num := NatToString(CountOnes(v));
      assert s == DedosPrefix + num;
      assert s[..7] == DedosPrefix;
      assert s[7..] == num;
      ParseNatToString(CountOnes(v));
      assert AllFlags(v);
      CountOnesIsSum(v);
    } else {
      var k :| 0 <= k < |CounterTable| && CounterTable[k].pattern == v && CounterTable[k].name == s;
      CounterLabelsAreNotCounts();
    }
  }

  /** `get_gesture_name`: "" for the empty list, then the chain, then "<n> Dedo(s)". */
  function AppGestureName(v: seq<int>): (s: string)
    ensures v == [] ==> s == ""
    ensures v != [] ==> s != ""
  {
    if v == [] then "" else Name(AppTable, DedoCount, v)
  }

  /**
   * For a five-finger vector the application's fallback only ever shows one to
   * four fingers: zero and five raised fingers are named patterns.
   */
  lemma AppFallbackCountsOneToFour(v: seq<int>)
    requires IsFlagVector(v) && !Recognised(AppTable, v)
    ensures AppGestureName(v) == IntToString(Sum(v)) + " Dedo(s)"
    ensures 1 <= Sum(v) <= 4
  {
    SumOfFlagsIsACount(v);
    assert AppTable[0].pattern == [0, 0, 0, 0, 0];
    assert AppTable[3].pattern == [1, 1, 1, 1, 1];
  }

  /** A hand held flat with every landmark on one line, 10 px apart. */
  const FlatHand: seq<Point> := [
    Point(0, 0), Point(10, 0), Point(20, 0), Point(30, 0), Point(40, 0), Point(50, 0), Point(60, 0),
    Point(70, 0), Point(80, 0), Point(90, 0), Point(100, 0), Point(110, 0), Point(120, 0), Point(130, 0),
    Point(140, 0), Point(150, 0), Point(160, 0), Point(170, 0), Point(180, 0), Point(190, 0), Point(200, 0)]

  /** Landmarks (10,0), (20,0), (40,0): a straight thumb, within 20° and not beyond 160°. */
  lemma FlatThumb(lm: seq<Point>)
    requires |lm| == 21 && lm[1] == Point(10, 0) && lm[2] == Point(20, 0) && lm[4] == Point(40, 0)
    ensures Passes(Within20, lm[1], lm[2], lm[4]) && !Passes(Beyond160, lm[1], lm[2], lm[4])
  {
    StraightFingerPasses(Point(10, 0), Point(10, 0), 1, 2, 883022, 1000000);
  }

  /** As written, the flat hand's straight thumb reads flexed. */
  lemma FlatHandThumbFlexedAsWritten()
    ensures AppFingersAsWritten(FlatHand)[0] == 0
  {
    assert FlatHand[1] == Point(10, 0) && FlatHand[2] == Point(20, 0) && FlatHand[4] == Point(40, 0);
    FlatThumb(FlatHand);
  }

  /** Corrected, the flat hand's straight thumb reads extended. */
  lemma FlatHandThumbExtended()
    ensures AppFingers(FlatHand)[0] == 1
  {
    assert FlatHand[1] == Point(10, 0) && FlatHand[2] == Point(20, 0) && FlatHand[4] == Point(40, 0);
    FlatThumb(FlatHand);
  }

  /** A "<n> Dedo(s)" text ends in ')' and is never a table name such as "Mão Aberta". */
  lemma CountNameIsNotOpenHand(n: int)
    ensures IntToString(n) + " Dedo(s)" != "Mão Aberta"
  {
    var t := IntToString(n) + " Dedo(s)";
    assert t[|t| - 1] == ')';
    assert "Mão Aberta"[9] == 'a';
  }

  /** The only vector `get_gesture_name` calls "Mão Aberta" is the all-raised one. */
  lemma OpenHandNameMeansAllRaised(v: seq<int>)
    ensures AppGestureName(v) == "Mão Aberta" ==> v == [1, 1, 1, 1, 1]
  {
    var s := AppGestureName(v);
    if s != "Mão Aberta" {
    } else if Recognised(AppTable, v) {
      AppTableIsWellFormed();
      NameOfPattern(AppTable, 3, DedoCount);
      LabelDeterminesVector(AppTable, DedoCount, v, AppTable[3].pattern);
    } else {
      CountNameIsNotOpenHand(Sum(v));
      assert false;
    }
  }

  /**
   * As written, a hand whose thumb is straight (its segments bend by less
   * than 20°) is never named "Mão Aberta", whatever the other fingers do.
   */
  lemma StraightThumbNeverOpenAsWritten(lm: seq<Point>)
    requires |lm| == 21 && Passes(Within20, lm[1], lm[2], lm[4])
    ensures AppGestureName(AppFingersAsWritten(lm)) != "Mão Aberta"
    ensures AppGestureName(AppFingers(lm)) == "Mão Aberta" <==> AppFingers(lm) == [1, 1, 1, 1, 1]
  {
    var v := AppFingersAsWritten(lm);
    assert v[0] == 0;
    if AppGestureName(v) == "Mão Aberta" {
      OpenHandNameMeansAllRaised(v);
    }
    var w := AppFingers(lm);
    if AppGestureName(w) == "Mão Aberta" {
      OpenHandNameMeansAllRaised(w);
    }
    if w == [1, 1, 1, 1, 1] {
      AppTableIsWellFormed();
      NameOfPattern(AppTable, 3, DedoCount);
    }
  }

  /**
   * A hand with a straight thumb and four fingers within 40° reads
   * [0,1,1,1,1] as written and [1,1,1,1,1] when corrected.
   */
  lemma StraightHandVectors(lm: seq<Point>)
    requires |lm| == 21
    requires Passes(Within20, lm[1], lm[2], lm[4])
    requires Passes(Within40, lm[5], lm[6], lm[8]) && Passes(Within40, lm[9], lm[10], lm[12])
    requires Passes(Within40, lm[13], lm[14], lm[16]) && Passes(Within40, lm[17], lm[18], lm[20])
    ensures AppFingersAsWritten(lm) == [0, 1, 1, 1, 1]
    ensures AppFingers(lm) == [1, 1, 1, 1, 1]
  {
    var v := AppFingersAsWritten(lm);
    assert v == [v[0], v[1], v[2], v[3], v[4]];
    var w := AppFingers(lm);
    assert w == [w[0], w[1], w[2], w[3], w[4]];
  }

  /** No pattern of the application's chain is [0,1,1,1,1]. */
  lemma FourFingersAreNotAPattern()
    ensures Lookup(AppTable, [0, 1, 1, 1, 1]).None?
  {
    var v: seq<int> := [0, 1, 1, 1, 1];
    forall k | 0 <= k < |AppTable|
      ensures AppTable[k].pattern != v
    {
      var i := [1, 2, 3, 0, 0][k];
      assert AppTable[k].pattern[i] != v[i];
    }
  }

  /** The application names [0,1,1,1,1] "4 Dedo(s)". */
  lemma FourFingersName()
    ensures AppGestureName([0, 1, 1, 1, 1]) == "4 Dedo(s)"
  {
    var v: seq<int> := [0, 1, 1, 1, 1];
    FourFingersAreNotAPattern();
    assert Sum(v) == 4 by {
      assert v[1..][1..][1..][1..][1..] == [];
    }
    FourDedoText();
  }

  /** The label text of four counted fingers. */
  lemma FourDedoText()
    ensures IntToString(4) + " Dedo(s)" == "4 Dedo(s)"
  {
    assert IntToString(4) == [Digit(4)];
  }

  /**
   * A hand with a straight thumb and four fingers within 40° is named
   * "4 Dedo(s)" as written and "Mão Aberta" when corrected.
   */
  lemma StraightHandNames(lm: seq<Point>)
    requires |lm| == 21
    requires Passes(Within20, lm[1], lm[2], lm[4])
    requires Passes(Within40, lm[5], lm[6], lm[8]) && Passes(Within40, lm[9], lm[10], lm[12])
    requires Passes(Within40, lm[13], lm[14], lm[16]) && Passes(Within40, lm[17], lm[18], lm[20])
    ensures AppGestureName(AppFingersAsWritten(lm)) == "4 Dedo(s)"
    ensures AppGestureName(AppFingers(lm)) == "Mão Aberta"
  {
    StraightHandVectors(lm);
    FourFingersName();
    StraightThumbNeverOpenAsWritten(lm);
  }

  /**
   * In general: whenever the thumb's landmarks 1, 2, 4 lie on a line in that
   * order, the as-written thumb reads flexed and the corrected one extended.
   */
  lemma StraightThumbAsWritten(lm: seq<Point>, u: Point, a: int, b: int)
    requires |lm| == 21 && a > 0 && b > 0 && u != Point(0, 0)
    requires lm[2] == Point(lm[1].x + a * u.x, lm[1].y + a * u.y)
    requires lm[4] == Point(lm[1].x + (a + b) * u.x, lm[1].y + (a + b) * u.y)
    ensures AppFingersAsWritten(lm)[0] == 0
    ensures AppFingers(lm)[0] == 1
  {
    StraightFingerPasses(lm[1], u, a, b, 883022, 1000000);
  }
}
