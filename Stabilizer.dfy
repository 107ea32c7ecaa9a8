/**
 * The temporal gesture stabilizer: the last K frame labels are kept in a
 * bounded FIFO (a `deque(maxlen=K)` or a list trimmed with `pop(0)`), and once
 * the FIFO is full the most common label replaces the stable label when its
 * count meets the script's threshold.  The stable label is sticky: it keeps
 * its value until a later vote replaces it.
 */
module Stabilizer {

  /** `Counter(buffer)[l]`: how often `l` occurs in `buf`. */
  function Count(buf: seq<string>, l: string): (n: nat)
    ensures n <= |buf|
  {
    if buf == [] then 0 else (if buf[0] == l then 1 else 0) + Count(buf[1..], l)
  }

  lemma {:induction false} CountOfConcat(a: seq<string>, b: seq<string>, l: string)
    ensures Count(a + b, l) == Count(a, l) + Count(b, l)
  {
    if a != [] {
      assert (a + b)[1..] == a[1..] + b;
      CountOfConcat(a[1..], b, l);
    } else {
      assert a + b == b;
    }
  }

  /** A label that is counted occurs at some position. */
  lemma {:induction false} CountedLabelOccurs(buf: seq<string>, l: string)
    requires Count(buf, l) > 0
    ensures exists k :: 0 <= k < |buf| && buf[k] == l
  {
    if buf[0] != l {
      CountedLabelOccurs(buf[1..], l);
      var k :| 0 <= k < |buf[1..]| && buf[1..][k] == l;
      assert buf[k + 1] == l;
    }
  }

  /** Two different labels share the buffer's slots. */
  lemma {:induction false} TwoLabelsShareSlots(buf: seq<string>, a: string, b: string)
    requires a != b
    ensures Count(buf, a) + Count(buf, b) <= |buf|
  {
    if buf != [] {
      TwoLabelsShareSlots(buf[1..], a, b);
    }
  }

  /** Three different labels share the buffer's slots. */
  lemma {:induction false} ThreeLabelsShareSlots(buf: seq<string>, a: string, b: string, c: string)
    requires a != b && b != c && a != c
    ensures Count(buf, a) + Count(buf, b) + Count(buf, c) <= |buf|
  {
    if buf != [] {
      ThreeLabelsShareSlots(buf[1..], a, b, c);
    }
  }

  /**
   * The scan behind `Counter.most_common(1)`: the counter lists labels in
   * order of first occurrence and `max` keeps the first item of greatest
   * count, so the winner is the label at the first position whose count is
   * greatest.  `best` is that position among the first `j`.
   */
  function FirstMostCommonFrom(buf: seq<string>, j: nat, best: nat): (r: nat)
    requires best < j <= |buf|
    requires forall k :: 0 <= k < j ==> Count(buf, buf[k]) <= Count(buf, buf[best])
    requires forall k :: 0 <= k < best ==> Count(buf, buf[k]) < Count(buf, buf[best])
    ensures r < |buf|
    ensures forall k :: 0 <= k < |buf| ==> Count(buf, buf[k]) <= Count(buf, buf[r])
    ensures forall k :: 0 <= k < r ==> Count(buf, buf[k]) < Count(buf, buf[r])
    decreases |buf| - j
  {
    if j == |buf| then best
    else if Count(buf, buf[j]) > Count(buf, buf[best]) then FirstMostCommonFrom(buf, j + 1, j)
    else FirstMostCommonFrom(buf, j + 1, best)
  }

  /** `Counter(buf).most_common(1)[0]`: a label and its count. */
  datatype Top = Top(name: string, freq: nat)

  function MostCommon(buf: seq<string>): (t: Top)
    requires |buf| > 0
    ensures t.freq == Count(buf, t.name) && t.name in buf
    ensures forall k :: 0 <= k < |buf| ==> Count(buf, buf[k]) <= t.freq
    ensures forall k :: 0 <= k < |buf| && Count(buf, buf[k]) == t.freq ==>
              exists j :: 0 <= j <= k && buf[j] == t.name
  {
    var r := FirstMostCommonFrom(buf, 1, 0);
    Top(buf[r], Count(buf, buf[r]))
  }

  /** The most common label's count bounds the count of every label, present or not. */
  lemma MostCommonBeatsEveryLabel(buf: seq<string>, l: string)
    requires |buf| > 0
    ensures Count(buf, l) <= MostCommon(buf).freq
  {
    if Count(buf, l) > 0 {
      CountedLabelOccurs(buf, l);
    }
  }

  /** How a script decides that the top label is frequent enough. */
  datatype Threshold =
    | MoreThanHalf    // `freq > BUFFER_SIZE // 2`
    | AtLeast(n: nat) // `common[0][1] >= n`

  predicate Adopts(th: Threshold, k: nat, freq: nat) {
    match th
    case MoreThanHalf => freq > k / 2
    case AtLeast(n) => freq >= n
  }

  /** The vote that follows each append: only a full buffer can change the stable label. */
  function Vote(buf: seq<string>, k: nat, th: Threshold, stable: string): string {
    if |buf| == k && k > 0 then
      var t := MostCommon(buf);
      if Adopts(th, k, t.freq) then t.name else stable
    else stable
  }

  /**
   * The stable label changes only on a full buffer, and only to a label that
   * meets the threshold and that no other label outnumbers.
   */
  lemma VoteChangesOnlyToFrequentLabel(buf: seq<string>, k: nat, th: Threshold, stable: string)
    requires Vote(buf, k, th, stable) != stable
    ensures |buf| == k && k > 0
    ensures var l := Vote(buf, k, th, stable);
            Adopts(th, k, Count(buf, l)) && forall m :: Count(buf, m) <= Count(buf, l)
  {
    forall m ensures Count(buf, m) <= Count(buf, Vote(buf, k, th, stable)) {
      MostCommonBeatsEveryLabel(buf, m);
    }
  }

  /** A label that fills more than half of a full buffer and meets the threshold is adopted. */
  lemma MajorityIsAdopted(buf: seq<string>, k: nat, th: Threshold, stable: string, l: string)
    requires |buf| == k && Count(buf, l) > k / 2 && Adopts(th, k, Count(buf, l))
    ensures Vote(buf, k, th, stable) == l
  {
    var t := MostCommon(buf);
    MostCommonBeatsEveryLabel(buf, l);
    if t.name != l {
      TwoLabelsShareSlots(buf, t.name, l);
      assert false;
    }
  }

  /** With a strict-majority threshold, a label that is not adopted never meets it. */
  lemma StrictMajorityIffAdopted(buf: seq<string>, k: nat, stable: string, l: string)
    requires |buf| == k && k > 0 && l != stable
    ensures Vote(buf, k, MoreThanHalf, stable) == l <==> Count(buf, l) > k / 2
  {
    if Count(buf, l) > k / 2 {
      MajorityIsAdopted(buf, k, MoreThanHalf, stable, l);
    }
  }

  /**
   * With 8 slots and the `>= 4` threshold, a 4–4 tie between two labels goes
   * to the one that occurs first in the buffer.
   */
  lemma TieGoesToFirstSeen(buf: seq<string>, stable: string, a: string, b: string, i: nat)
    requires |buf| == 8 && a != b && Count(buf, a) == 4 && Count(buf, b) == 4
    requires i < 8 && buf[i] == a && forall j :: 0 <= j <= i ==> buf[j] != b
    ensures Vote(buf, 8, AtLeast(4), stable) == a
  {
    var t := MostCommon(buf);
    MostCommonBeatsEveryLabel(buf, a);
    if t.name != a && t.name != b {
      ThreeLabelsShareSlots(buf, a, b, t.name);
      assert false;
    }
    if t.name == b {
      TwoLabelsShareSlots(buf, a, b);
      assert false;
    }
  }

  /** `deque(maxlen=k)` contents after appends: the last `k` items. */
  function Window(s: seq<string>, k: nat): (w: seq<string>)
    ensures |w| <= k && |w| <= |s|
    ensures |s| <= k ==> w == s
    ensures |s| > k ==> |w| == k
  {
    if |s| <= k then s else s[|s| - k..]
  }

  /** Trimming before or after an append gives the same window. */
  lemma WindowOfAppend(s: seq<string>, x: string, k: nat)
    ensures Window(Window(s, k) + [x], k) == Window(s + [x], k)
  {
    if |s| > k {
      assert Window(s, k) + [x] == (s + [x])[|s| - k..];
    }
  }

  /** The buffer and stable label after a run of frames. */
  datatype State = State(buffer: seq<string>, stable: string)

  /** Appending one label to a FIFO bounded by `k`. */
  function Push(buf: seq<string>, gesture: string, k: nat): seq<string> {
    Window(buf + [gesture], k)
  }

  /** One frame: append the frame's label, trim to `k`, vote. */
  function Step(st: State, k: nat, th: Threshold, gesture: string): State {
    var b := Push(st.buffer, gesture, k);
    State(b, Vote(b, k, th, st.stable))
  }

  /** The stabilizer after the frames `labels`, oldest first. */
  function Run(st: State, k: nat, th: Threshold, labels: seq<string>): State
  {
    if labels == [] then st
    else Step(Run(st, k, th, labels[..|labels| - 1]), k, th, labels[|labels| - 1])
  }

  /** The buffer alone after the frames `labels`: one `Push` per frame. */
  function Fill(buf: seq<string>, k: nat, labels: seq<string>): seq<string> {
    if labels == [] then buf else Push(Fill(buf, k, labels[..|labels| - 1]), labels[|labels| - 1], k)
  }

  /** A run's buffer evolves by the pushes alone; the votes do not touch it. */
  lemma {:induction false} RunBufferIsFill(st: State, k: nat, th: Threshold, labels: seq<string>)
    ensures Run(st, k, th, labels).buffer == Fill(st.buffer, k, labels)
  {
    if labels != [] {
      RunBufferIsFill(st, k, th, labels[..|labels| - 1]);
    }
  }

  /** After pushing a non-empty run of labels the buffer holds exactly the last `k` of everything seen. */
  lemma {:induction false} FillKeepsLastLabels(buf: seq<string>, k: nat, labels: seq<string>)
    requires labels != []
    ensures Fill(buf, k, labels) == Window(buf + labels, k)
  {
    var pre := labels[..|labels| - 1];
    var x := labels[|labels| - 1];
    assert buf + pre + [x] == buf + labels;
    if pre == [] {
      assert Fill(buf, k, pre) == buf;
    } else {
      FillKeepsLastLabels(buf, k, pre);
      WindowOfAppend(buf + pre, x, k);
    }
  }

  /** After any non-empty run the buffer holds exactly the last `k` labels seen. */
  lemma RunKeepsLastLabels(st: State, k: nat, th: Threshold, labels: seq<string>)
    requires labels != []
    ensures Run(st, k, th, labels).buffer == Window(st.buffer + labels, k)
  {
    RunBufferIsFill(st, k, th, labels);
    FillKeepsLastLabels(st.buffer, k, labels);
  }

  lemma {:induction false} CountOfConstant(s: seq<string>, l: string)
    requires forall i :: 0 <= i < |s| ==> s[i] == l
    ensures Count(s, l) == |s|
  {
    if s != [] {
      CountOfConstant(s[1..], l);
    }
  }

  /** The last `k` items of `pre + rest` lie in `rest` when `rest` has at least `k` items. */
  lemma WindowOfLongSuffix(pre: seq<string>, rest: seq<string>, k: nat, l: string)
    requires |rest| >= k && forall i :: 0 <= i < |rest| ==> rest[i] == l
    ensures forall i :: 0 <= i < |Window(pre + rest, k)| ==> Window(pre + rest, k)[i] == l
  {
    var all := pre + rest;
    var w := Window(all, k);
    forall i | 0 <= i < |w| ensures w[i] == l {
      if |all| > k {
        assert w[i] == all[|all| - k + i];
      }
      assert w[i] == all[|all| - |w| + i];
      assert |all| - |w| + i >= |pre|;
      assert all[|all| - |w| + i] == rest[|all| - |w| + i - |pre|];
    }
  }

  /**
   * A gesture held for at least `k` frames is the stable label afterwards,
   * whatever came before, whenever `k` agreeing labels meet the threshold.
   */
  lemma HeldGestureIsAdopted(st: State, k: nat, th: Threshold, labels: seq<string>, l: string)
    requires k > 0 && |labels| >= k && Adopts(th, k, k)
    requires forall i :: 0 <= i < |labels| ==> labels[i] == l
    ensures Run(st, k, th, labels).stable == l
  {
    var pre := labels[..|labels| - 1];
    var before := Run(st, k, th, pre);
    RunKeepsLastLabels(st, k, th, labels);
    var b := Run(st, k, th, labels).buffer;
    assert b == Window(st.buffer + labels, k);
    assert |st.buffer + labels| >= k;
    WindowOfLongSuffix(st.buffer, labels, k, l);
    CountOfConstant(b, l);
    assert Run(st, k, th, labels).stable == Vote(b, k, th, before.stable);
    MajorityIsAdopted(b, k, th, before.stable, l);
  }

  /** Three frames of "Paz (2)" among five carry the vote. */
  lemma ThreeOfFiveIsAdopted()
    ensures Vote(["Paz (2)", "Joia", "Paz (2)", "Joia", "Paz (2)"], 5, MoreThanHalf, "") == "Paz (2)"
  {
    var b := ["Paz (2)", "Joia", "Paz (2)", "Joia", "Paz (2)"];
    assert Count(b, "Paz (2)") == 3;
    MajorityIsAdopted(b, 5, MoreThanHalf, "", "Paz (2)");
  }

  /** Two frames each of two gestures and one of "" carry no vote: the old label stays. */
  lemma TwoTwoOneKeepsStable()
    ensures Vote(["Paz (2)", "Joia", "Joia", "", "Paz (2)"], 5, MoreThanHalf, "Mao Aberta (5)") == "Mao Aberta (5)"
  {
    var c := ["Paz (2)", "Joia", "Joia", "", "Paz (2)"];
    var t := MostCommon(c);
    TwoTwoOneCounts();
    assert t.name in c;
    assert t.freq <= 2;
  }

  /** The tallies of the two-two-one buffer. */
  lemma TwoTwoOneCounts()
    ensures var c := ["Paz (2)", "Joia", "Joia", "", "Paz (2)"];
            Count(c, "Paz (2)") == 2 && Count(c, "Joia") == 2 && Count(c, "") == 1
  {
    var c := ["Paz (2)", "Joia", "Joia", "", "Paz (2)"];
    assert Count(c, "Paz (2)") == 2;
    assert Count(c, "Joia") == 2;
  }

  /** Before the buffer is full nothing is adopted. */
  lemma PartialBufferKeepsStable()
    ensures Vote(["Paz (2)", "Paz (2)", "Paz (2)", "Paz (2)"], 5, MoreThanHalf, "") == ""
  {
  }

  /**
   * The application's window of 8: a label seen in the first and in three
   * later slots ties 4–4 with a label seen four times after it, and wins.
   */
  lemma EightFrameTieExample()
    ensures Vote(["Apontando", "Paz e Amor", "Paz e Amor", "Apontando", "Paz e Amor", "Apontando", "Paz e Amor", "Apontando"],
                 8, AtLeast(4), "") == "Apontando"
  {
    var b := ["Apontando", "Paz e Amor", "Paz e Amor", "Apontando", "Paz e Amor", "Apontando", "Paz e Amor", "Apontando"];
    assert Count(b, "Apontando") == 4 && Count(b, "Paz e Amor") == 4;
    TieGoesToFirstSeen(b, "", "Apontando", "Paz e Amor", 0);
  }

  /** A full deque drops its oldest label on append; otherwise it just grows. */
  lemma DequeAppendIsWindow(buf: seq<string>, x: string, k: nat)
    requires 0 < k && |buf| <= k
    ensures (if |buf| == k then buf[1..] + [x] else buf + [x]) == Window(buf + [x], k)
  {
    if |buf| == k {
      assert buf[1..] + [x] == (buf + [x])[1..];
    }
  }

  /** Appending to the list and popping its head when too long gives the same window. */
  lemma ListAppendIsWindow(buf: seq<string>, x: string, k: nat)
    requires 0 < k && |buf| <= k
    ensures (if |buf + [x]| > k then (buf + [x])[1..] else buf + [x]) == Window(buf + [x], k)
  {
  }

  /**
   * The stabilizer object: `gesture_buffer` and `stable_gesture_text`.  The
   * window size and the threshold are the script's constants.
   */
  class GestureStabilizer {
    const capacity: nat
    const threshold: Threshold
    var buffer: seq<string>
    var stable: string

    ghost predicate Valid()
      reads this
    {
      capacity > 0 && |buffer| <= capacity
    }

    /** The stabilizer's abstract state. */
    function Current(): State
      reads this
    {
      State(buffer, stable)
    }

    /** `deque(maxlen=capacity)` and `stable_gesture_text = ""`. */
    constructor (capacity: nat, threshold: Threshold)
      requires capacity > 0
      ensures Valid()
      ensures this.capacity == capacity && this.threshold == threshold
      ensures buffer == [] && stable == ""
    {
      this.capacity := capacity;
      this.threshold := threshold;
      buffer := [];
      stable := "";
    }

    /** `gesture_buffer.append(label)` on a deque (the oldest label drops out), then the vote. */
    method Observe(gesture: string)
      requires Valid()
      modifies this
      ensures Valid()
      ensures Current() == Step(old(Current()), capacity, threshold, gesture)
      ensures buffer == Window(old(buffer) + [gesture], capacity)
      ensures stable == Vote(buffer, capacity, threshold, old(stable))
    {
      DequeAppendIsWindow(buffer, gesture, capacity);
      if |buffer| == capacity {
        buffer := buffer[1..] + [gesture];
      } else {
        buffer := buffer + [gesture];
      }
      Decide();
    }

    /** `gesture_buffer.append(label)` then `pop(0)` when the list is too long, then the vote. */
    method ObserveList(gesture: string)
      requires Valid()
      modifies this
      ensures Valid()
      ensures Current() == Step(old(Current()), capacity, threshold, gesture)
      ensures buffer == Window(old(buffer) + [gesture], capacity)
      ensures stable == Vote(buffer, capacity, threshold, old(stable))
    {
      ListAppendIsWindow(buffer, gesture, capacity);
      var grown := buffer + [gesture];
      buffer := grown;
      if |buffer| > capacity {
        buffer := grown[1..];
      }
      assert buffer == Window(grown, capacity);
      Decide();
    }

    /** The vote after an append: a full buffer whose top label is frequent enough sets the stable label. */
    method Decide()
      requires Valid()
      modifies this
      ensures Valid() && buffer == old(buffer)
      ensures stable == Vote(buffer, capacity, threshold, old(stable))
    {
      if |buffer| == capacity {
        var top := MostCommon(buffer);
        if Adopts(threshold, capacity, top.freq) {
          stable := top.name;
        }
      }
    }

    /** `gesture_buffer.clear()` alone: the stable label stays. */
    method ClearBuffer()
      requires Valid()
      modifies this
      ensures Valid() && buffer == [] && stable == old(stable)
    {
      buffer := [];
    }

    /** Leaving the gestures screen: `gesture_buffer.clear()` and `stable_gesture_text = ""`. */
    method Reset()
      requires Valid()
      modifies this
      ensures Valid() && buffer == [] && stable == ""
    {
      buffer := [];
      stable := "";
    }
  }
}
