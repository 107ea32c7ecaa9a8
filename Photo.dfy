/**
 * The hands-free photo booth: an open hand arms a two-second countdown, then
 * a five-second pose countdown takes the picture, then a half-second flash
 * returns to waiting.  The clock is an argument: every `time.time()` of one
 * frame reads the same instant `now`.
 */
module Photo {
  import opened Geometry
  import opened Wrappers
  import opened Fingers

  datatype PhotoState = Idle | Arming | Posing | Captured

  const ArmingSeconds := 2
  const PosingSeconds := 5
  /** The flash lasts half a second. */
  const FlashSeconds := 0.5

  /** Python's `int(x)` on a float: truncation toward zero. */
  function Trunc(x: real): int {
    if x >= 0.0 then x.Floor else -((-x).Floor)
  }

  /** A countdown `T - int(elapsed)` is still running exactly while less than `T` seconds have passed. */
  lemma CountdownRunning(t: nat, elapsed: real)
    requires t > 0
    ensures t - Trunc(elapsed) > 0 <==> elapsed < t as real
  {
    if elapsed >= 0.0 {
      assert elapsed.Floor as real <= elapsed < elapsed.Floor as real + 1.0;
    } else {
      assert (-elapsed).Floor >= 0;
    }
  }

  /** A running countdown on a clock that does not go back shows a value from 1 to `T`. */
  lemma CountdownShown(t: nat, elapsed: real)
    requires elapsed >= 0.0 && t - Trunc(elapsed) > 0
    ensures 1 <= t - Trunc(elapsed) <= t
  {
  }

  /** `is_hand_open`: the first hand is seen and the fallback-guarded 30° classifier reads all five fingers. */
  predicate HandOpen(hand: Option<seq<Point>>) {
    hand.Some? && Fingers30OrFist(hand.value) == [1, 1, 1, 1, 1]
  }

  /** An open hand is a full hand whose five fingers all pass the 30° test; a cut-off hand never is. */
  lemma HandOpenMeansAllFingersPass(lm: seq<Point>)
    ensures HandOpen(Some(lm)) <==>
              |lm| >= 21 && forall i :: 0 <= i < 5 ==> FingerPasses(Within30, FingerJoints[i], lm)
    ensures !HandOpen(None)
  {
    if |lm| >= 21 {
      var v := Fingers30(lm);
      if forall i :: 0 <= i < 5 ==> FingerPasses(Within30, FingerJoints[i], lm) {
        assert v == [v[0], v[1], v[2], v[3], v[4]];
        assert v[0] == 1 && v[1] == 1 && v[2] == 1 && v[3] == 1 && v[4] == 1;
      }
    }
  }

  /** The booth's state: `app_state`, `timer_start_time`, `flash_start_time`. */
  datatype Booth = Booth(state: PhotoState, timerStart: real, flashStart: real)

  /** What a frame shows: the countdown digit, when one runs. */
  datatype Frame = Frame(booth: Booth, countdown: Option<int>)

  /**
   * The first chain of one frame: IDLE waits for an open hand; ARMING and
   * POSING count down whether or not a hand is seen; POSING's end takes the
   * picture and starts the flash.
   */
  function Advance(b: Booth, handOpen: bool, now: real): Frame {
    match b.state
    case Idle =>
      if handOpen then Frame(b.(state := Arming, timerStart := now), None) else Frame(b, None)
    case Arming =>
      var c := ArmingSeconds - Trunc(now - b.timerStart);
      if c > 0 then Frame(b, Some(c)) else Frame(b.(state := Posing, timerStart := now), None)
    case Posing =>
      var c := PosingSeconds - Trunc(now - b.timerStart);
      if c > 0 then Frame(b, Some(c)) else Frame(b.(state := Captured, flashStart := now), None)
    case Captured => Frame(b, None)
  }

  /** The separate CAPTURED test that follows: the flash ends half a second after it began. */
  function EndFlash(f: Frame, now: real): Frame {
    if f.booth.state == Captured && !(now - f.booth.flashStart < FlashSeconds)
    then f.(booth := f.booth.(state := Idle))
    else f
  }

  function NextPhoto(b: Booth, handOpen: bool, now: real): Frame {
    EndFlash(Advance(b, handOpen, now), now)
  }

  /** The successor of each state in the cycle. */
  function Successor(s: PhotoState): PhotoState {
    match s
    case Idle => Arming
    case Arming => Posing
    case Posing => Captured
    case Captured => Idle
  }

  /** A frame either stays or moves one step round the cycle; nothing else happens. */
  lemma OnlyCycleSteps(b: Booth, handOpen: bool, now: real)
    ensures var n := NextPhoto(b, handOpen, now).booth.state;
            n == b.state || n == Successor(b.state)
  {
  }

  /** IDLE moves to ARMING exactly when the hand is open, and the arming timer starts now. */
  lemma IdleArmsOnOpenHand(b: Booth, handOpen: bool, now: real)
    requires b.state == Idle
    ensures var n := NextPhoto(b, handOpen, now).booth;
            (n.state == Arming <==> handOpen) &&
            (handOpen ==> n.timerStart == now) &&
            (!handOpen ==> n == b)
  {
  }

  /** ARMING moves to POSING once two seconds have passed, whatever the hand does; the pose timer restarts. */
  lemma ArmingLastsTwoSeconds(b: Booth, handOpen: bool, now: real)
    requires b.state == Arming
    ensures var n := NextPhoto(b, handOpen, now);
            (n.booth.state == Posing <==> now - b.timerStart >= 2.0) &&
            (n.booth.state == Posing ==> n.booth.timerStart == now) &&
            (n.booth.state == Arming ==> n.booth == b && n.countdown.Some?) &&
            n == NextPhoto(b, !handOpen, now)
  {
    CountdownRunning(ArmingSeconds, now - b.timerStart);
  }

  /**
   * POSING takes the picture once five seconds have passed; the flash starts
   * now, so the booth stays CAPTURED for the rest of that frame.
   */
  lemma PosingLastsFiveSeconds(b: Booth, handOpen: bool, now: real)
    requires b.state == Posing
    ensures var n := NextPhoto(b, handOpen, now);
            (n.booth.state == Captured <==> now - b.timerStart >= 5.0) &&
            (n.booth.state == Captured ==> n.booth.flashStart == now) &&
            (n.booth.state == Posing ==> n.booth == b) &&
            n == NextPhoto(b, !handOpen, now)
  {
    CountdownRunning(PosingSeconds, now - b.timerStart);
  }

  /** CAPTURED returns to IDLE once half a second has passed since the flash. */
  lemma FlashLastsHalfSecond(b: Booth, handOpen: bool, now: real)
    requires b.state == Captured
    ensures var n := NextPhoto(b, handOpen, now).booth;
            (n.state == Idle <==> now - b.flashStart >= 0.5) &&
            n.timerStart == b.timerStart && n.flashStart == b.flashStart
  {
  }

  /** The digit shown during a countdown is 1 or 2 while arming and 1 to 5 while posing. */
  lemma CountdownDigits(b: Booth, handOpen: bool, now: real)
    requires now >= b.timerStart
    ensures var c := NextPhoto(b, handOpen, now).countdown;
            c.Some? ==> (b.state == Arming && 1 <= c.value <= 2) || (b.state == Posing && 1 <= c.value <= 5)
  {
    if b.state == Arming && ArmingSeconds - Trunc(now - b.timerStart) > 0 {
      CountdownShown(ArmingSeconds, now - b.timerStart);
    } else if b.state == Posing && PosingSeconds - Trunc(now - b.timerStart) > 0 {
      CountdownShown(PosingSeconds, now - b.timerStart);
    }
  }

  /** The booth of testes/testefoto.py, with its three globals. */
  class PhotoBooth {
    var state: PhotoState
    var timerStart: real
    var flashStart: real

    function Current(): Booth
      reads this
    {
      Booth(state, timerStart, flashStart)
    }

    constructor ()
      ensures Current() == Booth(Idle, 0.0, 0.0)
    {
      state := Idle;
      timerStart := 0.0;
      flashStart := 0.0;
    }

    /** One frame of the state logic, at clock reading `now`. */
    method Step(handOpen: bool, now: real) returns (countdown: Option<int>)
      modifies this
      ensures Frame(Current(), countdown) == NextPhoto(old(Current()), handOpen, now)
    {
      countdown := None;
      if state == Idle {
        if handOpen {
          state := Arming;
          timerStart := now;
        }
      } else if state == Arming {
        var c := ArmingSeconds - Trunc(now - timerStart);
        if c > 0 {
          countdown := Some(c);
        } else {
          state := Posing;
          timerStart := now;
        }
      } else if state == Posing {
        var c := PosingSeconds - Trunc(now - timerStart);
        if c > 0 {
          countdown := Some(c);
        } else {
          state := Captured;
          flashStart := now;
        }
      }
      if state == Captured {
        if !(now - flashStart < FlashSeconds) {
          state := Idle;
        }
      }
    }
  }
}
