/**
 * The pointer smoother: an exponential moving average of the index-finger
 * tip (landmark 8), `cursor := α·raw + (1-α)·prev`, after which `prev` is set
 * to the new cursor.  The game scripts keep integer pixels and truncate with
 * `int(...)` (α = 0.3); the counter and the application keep float arrays
 * (α = 0.45 and α = 0.4), modelled here over exact reals.
 */
module Cursor {
  import opened Wrappers
  import opened Geometry
  import opened Arith

  /** Python's `int(x)` for `x = n / 10`: truncation toward zero. */
  function TruncTenth(n: int): int {
    if n >= 0 then n / 10 else -((-n) / 10)
  }

  /** One coordinate of `int(0.3 * raw + 0.7 * last)`, with α = 3/10 exact. */
  function SmoothCoord(raw: int, last: int): int {
    TruncTenth(3 * raw + 7 * last)
  }

  lemma TruncTenthBetween(n: int, lo: int, hi: int)
    requires 10 * lo <= n <= 10 * hi
    ensures lo <= TruncTenth(n) <= hi
  {
    if n >= 0 {
      var q := n / 10;
      assert 10 * q <= n < 10 * q + 10;
    } else {
      var q := (-n) / 10;
      assert 10 * q <= -n < 10 * q + 10;
    }
  }

  /** The truncated average lies between the previous cursor and the raw tip. */
  lemma SmoothCoordBetween(raw: int, last: int)
    ensures var lo := if raw < last then raw else last;
            var hi := if raw < last then last else raw;
            lo <= SmoothCoord(raw, last) <= hi
  {
    var lo := if raw < last then raw else last;
    var hi := if raw < last then last else raw;
    TruncTenthBetween(3 * raw + 7 * last, lo, hi);
  }

  /** A cursor at the tip stays there. */
  lemma SmoothCoordFixedPoint(p: int)
    ensures SmoothCoord(p, p) == p
  {
    SmoothCoordBetween(p, p);
  }

  /**
   * Truncation makes the integer cursor stall below a fixed tip: on
   * non-negative pixels, a cursor 1 to 3 pixels short of the tip never moves.
   */
  lemma SmoothCoordStallsBelow(p: int, c: int)
    requires 0 <= c < p <= c + 3
    ensures SmoothCoord(p, c) == c
  {
    var n := 3 * p + 7 * c;
    assert 10 * c <= n < 10 * c + 10;
    assert n / 10 == c;
  }

  /** From above, the integer cursor moves at least one pixel toward a fixed tip without passing it. */
  lemma SmoothCoordApproachesFromAbove(p: int, c: int)
    requires 0 <= p < c
    ensures p <= SmoothCoord(p, c) < c
  {
    var n := 3 * p + 7 * c;
    assert n <= 10 * c - 3;
    SmoothCoordBetween(p, c);
    assert n / 10 * 10 <= n;
  }

  /** The integer cursor after `n` frames with the tip held at `p`. */
  function SmoothIterate(p: int, c: int, n: nat): int {
    if n == 0 then c else SmoothCoord(p, SmoothIterate(p, c, n - 1))
  }

  /** From above it reaches the tip exactly, within `c - p` frames, and stays. */
  lemma {:induction false} SmoothIterateReachesFromAbove(p: int, c: int, n: nat)
    requires 0 <= p <= c
    ensures p <= SmoothIterate(p, c, n)
    ensures n >= c - p ==> SmoothIterate(p, c, n) == p
    ensures SmoothIterate(p, c, n) <= if n >= c - p then p else c - n
  {
    if n > 0 {
      SmoothIterateReachesFromAbove(p, c, n - 1);
      var prev := SmoothIterate(p, c, n - 1);
      if prev > p {
        SmoothCoordApproachesFromAbove(p, prev);
      } else {
        SmoothCoordFixedPoint(p);
      }
    }
  }

  /** From 1 to 3 pixels below, it never reaches the tip. */
  lemma {:induction false} SmoothIterateStallsBelow(p: int, c: int, n: nat)
    requires 0 <= c < p <= c + 3
    ensures SmoothIterate(p, c, n) == c
  {
    if n > 0 {
      SmoothIterateStallsBelow(p, c, n - 1);
      SmoothCoordStallsBelow(p, c);
    }
  }

  /**
   * The game scripts' cursor: `cursor_pos` and `last_cursor_pos`, integer
   * tuples starting at the screen centre.
   */
  class PixelCursor {
    var pos: Point
    var last: Point

    ghost predicate Valid()
      reads this
    {
      last == pos
    }

    constructor (center: Point)
      ensures Valid() && pos == center
    {
      pos := center;
      last := center;
    }

    /**
     * One frame: with a navigation hand, smooth toward its landmark 8 and set
     * `last_cursor_pos`; with none, nothing changes.
     */
    method Update(tip: Option<Point>)
      requires Valid()
      modifies this
      ensures Valid()
      ensures tip.None? ==> pos == old(pos)
      ensures tip.Some? ==> pos == Point(SmoothCoord(tip.value.x, old(last).x), SmoothCoord(tip.value.y, old(last).y))
    {
      if tip.Some? {
        pos := Point(SmoothCoord(tip.value.x, last.x), SmoothCoord(tip.value.y, last.y));
        last := pos;
      }
    }
  }

  /** A float cursor position. */
  datatype RealPoint = RealPoint(x: real, y: real)

  function ToReal(p: Point): RealPoint {
    RealPoint(p.x as real, p.y as real)
  }

  /** `α·raw + (1-α)·prev` on one coordinate. */
  function Ema(alpha: real, raw: real, prev: real): real {
    alpha * raw + (1.0 - alpha) * prev
  }

  function EmaPoint(alpha: real, raw: RealPoint, prev: RealPoint): RealPoint {
    RealPoint(Ema(alpha, raw.x, prev.x), Ema(alpha, raw.y, prev.y))
  }

  /** The remaining gap to the tip shrinks by the factor 1 - α. */
  lemma EmaGap(alpha: real, raw: real, prev: real)
    ensures Ema(alpha, raw, prev) - raw == (1.0 - alpha) * (prev - raw)
  {
  }

  /** For 0 ≤ α ≤ 1 the average lies between the previous cursor and the tip. */
  lemma EmaBetween(alpha: real, raw: real, prev: real)
    requires 0.0 <= alpha <= 1.0
    ensures var e := Ema(alpha, raw, prev);
            (raw <= e <= prev) || (prev <= e <= raw)
  {
    EmaGap(alpha, raw, prev);
    var d := prev - raw;
    ProductSign(1.0 - alpha, d);
    ProductSign(alpha, d);
    assert (1.0 - alpha) * d == d - alpha * d;
  }

  function Pow(b: real, n: nat): real {
    if n == 0 then 1.0 else b * Pow(b, n - 1)
  }

  /** The float cursor after `n` frames with the tip held at `p`. */
  function EmaIterate(alpha: real, p: real, c: real, n: nat): real {
    if n == 0 then c else Ema(alpha, p, EmaIterate(alpha, p, c, n - 1))
  }

  /** After `n` frames the gap is (1 - α)ⁿ times the initial gap. */
  lemma {:induction false} EmaIterateGap(alpha: real, p: real, c: real, n: nat)
    ensures EmaIterate(alpha, p, c, n) - p == Pow(1.0 - alpha, n) * (c - p)
  {
    if n > 0 {
      EmaIterateGap(alpha, p, c, n - 1);
      EmaGap(alpha, p, EmaIterate(alpha, p, c, n - 1));
    }
  }

  /** (1 - α)ⁿ · (1 + n·α) ≤ 1 for 0 ≤ α ≤ 1, and (1 - α)ⁿ ≥ 0. */
  lemma {:induction false} PowBernoulli(alpha: real, n: nat)
    requires 0.0 <= alpha <= 1.0
    ensures Pow(1.0 - alpha, n) >= 0.0
    ensures Pow(1.0 - alpha, n) * (1.0 + n as real * alpha) <= 1.0
  {
    if n > 0 {
      PowBernoulli(alpha, n - 1);
      var b := 1.0 - alpha;
      var q := Pow(b, n - 1);
      var e := 1.0 + n as real * alpha;
      var f := 1.0 + (n - 1) as real * alpha;
      assert Pow(b, n) == b * q;
      ProductSign(q, b);
      ProductSign(n as real, alpha);
      ProductSign(n as real * alpha, alpha);
      assert b * e == f - (n as real * alpha) * alpha;
      ProductSign(q, f - b * e);
      assert q * (f - b * e) == q * f - q * (b * e);
      assert Pow(b, n) * e == q * (b * e);
    }
  }

  function Abs(x: real): real {
    if x < 0.0 then -x else x
  }

  /** |q·g|·k = (q·k)·|g| for q ≥ 0. */
  lemma AbsOfScaled(q: real, g: real, k: real)
    requires q >= 0.0
    ensures Abs(q * g) * k == (q * k) * Abs(g)
  {
    ProductSign(q, g);
    if g >= 0.0 {
      assert (q * g) * k == (q * k) * g;
    } else if q * g < 0.0 {
      assert -(q * g) * k == (q * k) * (-g);
    } else {
      assert q * g == 0.0;
      assert q == 0.0;
    }
  }

  /** A gap scaled by q, with q·k ≤ 1, is at most the original gap once multiplied by k. */
  lemma ScaledGapBound(q: real, g: real, g0: real, k: real)
    requires q >= 0.0 && q * k <= 1.0 && g == q * g0
    ensures Abs(g) * k <= Abs(g0)
  {
    var a0 := Abs(g0);
    AbsOfScaled(q, g0, k);
    ProductSign(a0, 1.0 - q * k);
    assert a0 * (1.0 - q * k) == a0 - (q * k) * a0;
  }

  /** The factor (1 - α)ⁿ by which the gap has shrunk after `n` frames, with its Bernoulli bound. */
  lemma ShrinkFactor(alpha: real, p: real, c: real, n: nat) returns (q: real)
    requires 0.0 <= alpha <= 1.0
    ensures q >= 0.0 && q * (1.0 + n as real * alpha) <= 1.0
    ensures EmaIterate(alpha, p, c, n) - p == q * (c - p)
  {
    q := Pow(1.0 - alpha, n);
    PowBernoulli(alpha, n);
    EmaIterateGap(alpha, p, c, n);
  }

  /**
   * The float cursor converges on a held tip: after `n` frames the gap times
   * (1 + n·α) is at most the initial gap.
   */
  lemma EmaConverges(alpha: real, p: real, c: real, n: nat)
    requires 0.0 <= alpha <= 1.0
    ensures Abs(EmaIterate(alpha, p, c, n) - p) * (1.0 + n as real * alpha) <= Abs(c - p)
  {
    var q := ShrinkFactor(alpha, p, c, n);
    ScaledGapBound(q, EmaIterate(alpha, p, c, n) - p, c - p, 1.0 + n as real * alpha);
  }

  /**
   * The float cursor of the counter and the application: `cursor_pos` and
   * `prev_cursor_pos`, both starting at the screen centre.
   */
  class FloatCursor {
    const alpha: real
    var pos: RealPoint
    var prev: RealPoint

    ghost predicate Valid()
      reads this
    {
      0.0 < alpha <= 1.0 && prev == pos
    }

    constructor (alpha: real, center: RealPoint)
      requires 0.0 < alpha <= 1.0
      ensures Valid() && this.alpha == alpha && pos == center
    {
      this.alpha := alpha;
      pos := center;
      prev := center;
    }

    /**
     * One frame: the raw point is landmark 8 of the chosen hand, or the
     * cursor itself when there is none (`raw_cursor = cursor_pos.copy()`);
     * then `prev_cursor_pos = cursor_pos.copy()`.
     */
    method Update(tip: Option<Point>)
      requires Valid()
      modifies this
      ensures Valid()
      ensures pos == EmaPoint(alpha, if tip.Some? then ToReal(tip.value) else old(pos), old(prev))
      ensures tip.None? ==> pos == old(pos)
    {
      var raw := if tip.Some? then ToReal(tip.value) else pos;
      pos := EmaPoint(alpha, raw, prev);
      prev := pos;
    }
  }
}
