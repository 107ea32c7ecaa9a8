/**
 * Pixel geometry shared by every script: landmarks are integer points
 * `(int(lm.x * WIDTH), int(lm.y * HEIGHT))`, and every distance test the
 * scripts make (`math.hypot(dx, dy) < D`) is stated exactly on squares.
 */
module Geometry {
  import opened Arith

  /** A landmark or cursor position in pixels. */
  datatype Point = Point(x: int, y: int)

  /** The vector from `p` to `q`, `(q[0] - p[0], q[1] - p[1])`. */
  function Vec(p: Point, q: Point): Point {
    Point(q.x - p.x, q.y - p.y)
  }

  function Dot(u: Point, v: Point): int {
    u.x * v.x + u.y * v.y
  }

  function Square(n: int): (r: nat) {
    assert n * n == (if n < 0 then -n else n) * (if n < 0 then -n else n);
    n * n
  }

  /** The squared Euclidean length of `v`. */
  function NormSq(v: Point): nat {
    Square(v.x) + Square(v.y)
  }

  /** The squared distance `dx² + dy²` between two landmarks. */
  function DistSq(p: Point, q: Point): nat {
    NormSq(Vec(p, q))
  }

  /** `distancia(p, q) < d`: with integer coordinates this is exactly `dx² + dy² < d²`. */
  predicate Closer(p: Point, q: Point, d: nat) {
    DistSq(p, q) < d * d
  }

  /**
   * `Closer` is the distance test the scripts write with `math.hypot`: for the
   * true Euclidean distance `r` (the non-negative root of `dx² + dy²`),
   * `Closer(p, q, d)` holds exactly when `r < d`.
   */
  lemma CloserIsDistanceBelow(p: Point, q: Point, d: nat, r: real)
    requires r >= 0.0 && r * r == DistSq(p, q) as real
    ensures Closer(p, q, d) <==> r < d as real
  {
    var dr := d as real;
    assert (d * d) as real == dr * dr;
    SquaresKeepOrder(r, dr);
  }

  /** A distance test is symmetric in its two landmarks. */
  lemma CloserSymmetric(p: Point, q: Point, d: nat)
    ensures Closer(p, q, d) == Closer(q, p, d)
  {
    assert Square(q.x - p.x) == Square(p.x - q.x);
    assert Square(q.y - p.y) == Square(p.y - q.y);
  }

  /** A button rectangle `(x1, y1, x2, y2)`. */
  datatype Rect = Rect(x1: int, y1: int, x2: int, y2: int)

  /**
   * `is_cursor_in_rect`: strict inequalities on both axes, so a point on the
   * border is outside the button.
   */
  predicate InRect(c: Point, r: Rect) {
    r.x1 < c.x < r.x2 && r.y1 < c.y < r.y2
  }

  /** No point of a button's border counts as a hit. */
  lemma BorderIsOutside(c: Point, r: Rect)
    requires c.x == r.x1 || c.x == r.x2 || c.y == r.y1 || c.y == r.y2
    ensures !InRect(c, r)
  {
  }

  /** A point inside a box, borders included. */
  predicate InClosedBox(c: Point, r: Rect) {
    r.x1 <= c.x <= r.x2 && r.y1 <= c.y <= r.y2
  }

  /** `check_collision`: the axis-aligned bounding-box test, written as the source's two early exits. */
  predicate BoxesCollide(b: Rect, p: Rect) {
    if b.x1 > p.x2 || b.x2 < p.x1 then false
    else if b.y1 > p.y2 || b.y2 < p.y1 then false
    else true
  }

  /**
   * For boxes whose corners are ordered, `check_collision` holds exactly when
   * the two closed boxes share a point.
   */
  lemma BoxesCollideIffShareAPoint(b: Rect, p: Rect)
    requires b.x1 <= b.x2 && b.y1 <= b.y2 && p.x1 <= p.x2 && p.y1 <= p.y2
    ensures BoxesCollide(b, p) <==> exists c: Point :: InClosedBox(c, b) && InClosedBox(c, p)
  {
    if BoxesCollide(b, p) {
      var c := Point(if b.x1 < p.x1 then p.x1 else b.x1, if b.y1 < p.y1 then p.y1 else b.y1);
      assert InClosedBox(c, b) && InClosedBox(c, p);
    }
  }
}
