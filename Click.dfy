/**
 * The pinch click: a counter `click_frames` of consecutive frames in which the
 * thumb tip (landmark 4) and the index tip (landmark 8) are closer than the
 * click distance.  The game scripts fire on the frame the counter reaches the
 * threshold (`== CLICK_THRESHOLD`); the counter and the application fire once
 * it exceeds the threshold and then restart it from zero.
 */
module Click {
  import opened Geometry
  import opened Arith

  /** What one frame tells the debouncer. */
  datatype PinchSignal =
    | NoHand                  // no hand detected (or its landmarks could not be read)
    | Paused                  // a hand, but clicking is suspended (a photo countdown runs)
    | Hand(pinching: bool)    // a hand, and whether its thumb and index tips pinch

  /** The pinch test `distancia(lm[4], lm[8]) < CLICK_DISTANCE`, with no square root. */
  predicate Pinching(thumb: Point, index: Point, distance: nat) {
    Closer(thumb, index, distance)
  }

  /** When a held pinch fires. */
  datatype FirePolicy =
    | AtCount(t: nat)          // `if click_frames == T: click`
    | AboveThenReset(t: nat)   // `if click_frames > T: click; click_frames = 0`

  datatype ClickOut = ClickOut(frames: nat, click: bool)

  /** One frame of the debouncer: the new counter and whether this frame clicks. */
  function Step(policy: FirePolicy, frames: nat, s: PinchSignal): (r: ClickOut)
    ensures r.click ==> s.Hand? && (s.pinching || policy == AtCount(0))
    ensures s == NoHand || (s == Hand(false) && policy != AtCount(0)) ==> r == ClickOut(0, false)
    ensures s == Paused ==> r == ClickOut(frames, false)
    ensures policy.AboveThenReset? && frames <= policy.t ==> r.frames <= policy.t
  {
    match s
    case NoHand => ClickOut(0, false)
    case Paused => ClickOut(frames, false)
    case Hand(pinching) =>
      var n := if pinching then frames + 1 else 0;
      match policy
      case AtCount(t) => ClickOut(n, n == t)
      case AboveThenReset(t) => if n > t then ClickOut(0, true) else ClickOut(n, false)
  }

  datatype RunOut = RunOut(clicks: seq<bool>, frames: nat)

  /**
   * The clicks of a sequence of frames, one per frame, and the final counter;
   * a frame clicks only when a hand is seen on it and pinches (or the policy
   * fires at count zero).
   */
  function Run(policy: FirePolicy, frames: nat, signals: seq<PinchSignal>): (r: RunOut)
    ensures |r.clicks| == |signals|
    ensures forall i :: 0 <= i < |signals| && r.clicks[i] ==>
              signals[i].Hand? && (signals[i].pinching || policy == AtCount(0))
  {
    if signals == [] then RunOut([], frames)
    else
      var prev := Run(policy, frames, signals[..|signals| - 1]);
      var out := Step(policy, prev.frames, signals[|signals| - 1]);
      RunOut(prev.clicks + [out.click], out.frames)
  }

  /**
   * The debouncer is online: the clicks of the first `k` frames do not
   * depend on the frames that come after them.
   */
  lemma {:induction false} RunIsCausal(policy: FirePolicy, frames: nat, signals: seq<PinchSignal>, k: nat)
    requires k <= |signals|
    ensures Run(policy, frames, signals[..k]).clicks == Run(policy, frames, signals).clicks[..k]
    decreases |signals|
  {
    if k < |signals| {
      var init := signals[..|signals| - 1];
      RunIsCausal(policy, frames, init, k);
      assert init[..k] == signals[..k];
    } else {
      assert signals[..k] == signals;
    }
  }

  /** A pinch held for `n` frames. */
  function Held(n: nat): (r: seq<PinchSignal>)
    ensures |r| == n && forall i :: 0 <= i < n ==> r[i] == Hand(true)
  {
    seq(n, i => Hand(true))
  }

  lemma HeldSplit(n: nat)
    requires n > 0
    ensures Held(n)[..n - 1] == Held(n - 1) && Held(n)[n - 1] == Hand(true)
  {
  }

  /**
   * Fire-at-count: with the counter at `f` and the pinch held `n` more frames,
   * frame `i` clicks exactly when the counter reaches `t` there, and the
   * counter ends at `f + n`.
   */
  lemma {:induction false} HeldAtCount(t: nat, f: nat, n: nat)
    ensures Run(AtCount(t), f, Held(n)).frames == f + n
    ensures forall i :: 0 <= i < n ==> (Run(AtCount(t), f, Held(n)).clicks[i] <==> f + i + 1 == t)
  {
    if n > 0 {
      HeldAtCount(t, f, n - 1);
      HeldSplit(n);
      var prev := Run(AtCount(t), f, Held(n - 1));
      assert Run(AtCount(t), f, Held(n)) == RunOut(prev.clicks + [f + n == t], f + n);
    }
  }

  /**
   * So a pinch held from rest clicks once: on its `t`-th frame and on no
   * other, however long it is held; a shorter pinch never clicks.
   */
  lemma OnePinchOneClick(t: nat, n: nat)
    requires t > 0
    ensures forall i :: 0 <= i < n ==> (Run(AtCount(t), 0, Held(n)).clicks[i] <==> i == t - 1)
    ensures n < t ==> true !in Run(AtCount(t), 0, Held(n)).clicks
  {
    HeldAtCount(t, 0, n);
  }

  /**
   * Fire-above-and-reset: with the counter at `f ≤ t` and the pinch held `n`
   * more frames, the counter runs modulo `t + 1`, and frame `i` clicks exactly
   * when it wraps there; a held pinch repeats its click every `t + 1` frames.
   */
  lemma {:induction false} HeldAboveThenReset(t: nat, f: nat, n: nat)
    requires f <= t
    ensures Run(AboveThenReset(t), f, Held(n)).frames == (f + n) % (t + 1)
    ensures forall i :: 0 <= i < n ==>
              (Run(AboveThenReset(t), f, Held(n)).clicks[i] <==> (f + i + 1) % (t + 1) == 0)
  {
    if n == 0 {
      ModUnique(f, t + 1, 0, f);
    } else {
      HeldAboveThenReset(t, f, n - 1);
      HeldSplit(n);
      var prev := Run(AboveThenReset(t), f, Held(n - 1));
      var fire := (f + n) % (t + 1) == 0;
      assert Step(AboveThenReset(t), prev.frames, Hand(true)) == ClickOut((f + n) % (t + 1), fire) by {
        SuccessorMod(f + n - 1, t + 1);
      }
      assert Run(AboveThenReset(t), f, Held(n)) == RunOut(prev.clicks + [fire], (f + n) % (t + 1));
    }
  }

  /**
   * A lost hand or a release forgets any pinch in progress: whatever the
   * counter was, the frames that follow behave identically, and the release
   * frame itself does not click.
   */
  lemma {:induction false} ReleaseForgets(policy: FirePolicy, f: nat, g: nat, s: PinchSignal, rest: seq<PinchSignal>)
    requires s == NoHand || (s == Hand(false) && policy != AtCount(0))
    ensures Run(policy, f, [s] + rest) == Run(policy, g, [s] + rest)
    ensures !Run(policy, f, [s] + rest).clicks[0]
    decreases |rest|
  {
    var all := [s] + rest;
    if rest == [] {
      assert all[..0] == [];
    } else {
      assert all[..|all| - 1] == [s] + rest[..|rest| - 1];
      ReleaseForgets(policy, f, g, s, rest[..|rest| - 1]);
    }
  }

  /**
   * The debouncer's state: `click_frames`, with the firing rule of the script
   * that owns it.
   */
  class ClickDetector {
    const policy: FirePolicy
    var frames: nat

    constructor (policy: FirePolicy)
      ensures this.policy == policy && frames == 0
    {
      this.policy := policy;
      frames := 0;
    }

    /** One frame: update the counter and report whether this frame clicks. */
    method Observe(s: PinchSignal) returns (click: bool)
      modifies this
      ensures ClickOut(frames, click) == Step(policy, old(frames), s)
    {
      match s {
        case NoHand =>
          frames := 0;
          click := false;
        case Paused =>
          click := false;
        case Hand(pinching) =>
          if pinching {
            frames := frames + 1;
          } else {
            frames := 0;
          }
          click := false;
          match policy {
            case AtCount(t) =>
              click := frames == t;
            case AboveThenReset(t) =>
              if frames > t {
                click := true;
                frames := 0;
              }
          }
      }
    }
  }
}
