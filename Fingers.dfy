/**
 * The vector finger classifier (`detectar_dedos_vetorial` and its copies).
 * A finger is read through three landmarks p1, p2, p3: v1 = p2 - p1,
 * v2 = p3 - p2, and the test compares the angle between v1 and v2 with a
 * threshold through `acos(dot / (|v1| |v2| + 1e-6))`.  The model states each
 * threshold exactly on integers: "angle < θ" (θ < 90°) is `dot > 0` and
 * `dot² > cos²θ · |v1|² |v2|²`; "angle > θ" (θ > 90°) is `dot < 0` and the
 * same squared inequality.
 */
module Fingers {
  import opened Geometry
  import opened Arith

  /** An angle threshold θ given by cos²θ = num / den. */
  datatype AngleTest =
    | Within(num: nat, den: nat)   // angle < θ, with θ below 90°
    | Beyond(num: nat, den: nat)   // angle > θ, with θ above 90°

  predicate Passes(t: AngleTest, p1: Point, p2: Point, p3: Point) {
    var v1 := Vec(p1, p2);
    var v2 := Vec(p2, p3);
    var d := Dot(v1, v2);
    match t
    case Within(n, m) => d > 0 && m * (d * d) > n * (NormSq(v1) * NormSq(v2))
    case Beyond(n, m) => d < 0 && m * (d * d) > n * (NormSq(v1) * NormSq(v2))
  }

  /** `angle < math.radians(30)`: cos² 30° = 3/4 exactly. */
  const Within30: AngleTest := Within(3, 4)
  /** `angle < math.radians(40)`: cos² 40° to six digits. */
  const Within40: AngleTest := Within(586824, 1000000)
  /** `angle > math.radians(160)`: cos² 160° to six digits. */
  const Beyond160: AngleTest := Beyond(883022, 1000000)
  /** `angle < math.radians(20)`: cos² 20° = cos² 160°. */
  const Within20: AngleTest := Within(883022, 1000000)

  /** Python's `int(bool)`. */
  function Flag(b: bool): int {
    if b then 1 else 0
  }

  /** A finger vector: five 0/1 entries, thumb first. */
  predicate IsFlagVector(v: seq<int>) {
    |v| == 5 && forall i :: 0 <= i < 5 ==> v[i] == 0 || v[i] == 1
  }

  /** The three landmark indices a finger is read through. */
  datatype Joints = Joints(base: nat, mid: nat, tip: nat)

  /** Thumb (2,3,4), index (5,6,8), middle (9,10,12), ring (13,14,16), little (17,18,20). */
  const FingerJoints: seq<Joints> :=
    [Joints(2, 3, 4), Joints(5, 6, 8), Joints(9, 10, 12), Joints(13, 14, 16), Joints(17, 18, 20)]

  /** The application's variant reads the thumb through (1,2,4). */
  const AppFingerJoints: seq<Joints> :=
    [Joints(1, 2, 4), Joints(5, 6, 8), Joints(9, 10, 12), Joints(13, 14, 16), Joints(17, 18, 20)]

  predicate FingerPasses(t: AngleTest, j: Joints, lm: seq<Point>)
    requires j.base < |lm| && j.mid < |lm| && j.tip < |lm|
  {
    Passes(t, lm[j.base], lm[j.mid], lm[j.tip])
  }

  /**
   * The 30° classifier without error handling: every finger i is extended
   * exactly when its joints in `FingerJoints` pass the 30° test.
   */
  function Fingers30(lm: seq<Point>): (v: seq<int>)
    requires |lm| >= 21
    ensures IsFlagVector(v)
    ensures forall i :: 0 <= i < 5 ==> (v[i] == 1 <==> FingerPasses(Within30, FingerJoints[i], lm))
  {
    [Flag(Passes(Within30, lm[2], lm[3], lm[4])),
     Flag(Passes(Within30, lm[5], lm[6], lm[8])),
     Flag(Passes(Within30, lm[9], lm[10], lm[12])),
     Flag(Passes(Within30, lm[13], lm[14], lm[16])),
     Flag(Passes(Within30, lm[17], lm[18], lm[20]))]
  }

  /**
   * The 30° classifier inside `try`/`except`: a landmark list too short to
   * index landmark 20 raises, and the handler answers a closed fist.
   */
  function Fingers30OrFist(lm: seq<Point>): (v: seq<int>)
    ensures IsFlagVector(v)
    ensures |lm| < 21 ==> v == [0, 0, 0, 0, 0]
    ensures |lm| >= 21 ==> v == Fingers30(lm)
  {
    if |lm| < 21 then [0, 0, 0, 0, 0] else Fingers30(lm)
  }

  /**
   * The application's classifier as written: anything but 21 landmarks gives
   * the empty list; otherwise the thumb is extended when the angle through
   * (1,2,4) exceeds 160° and the other fingers when theirs is below 40°.
   */
  function AppFingersAsWritten(lm: seq<Point>): (v: seq<int>)
    ensures |lm| != 21 ==> v == []
    ensures |lm| == 21 ==> IsFlagVector(v)
    ensures |lm| == 21 ==> (v[0] == 1 <==> FingerPasses(Beyond160, AppFingerJoints[0], lm))
    ensures |lm| == 21 ==> forall i :: 1 <= i < 5 ==> (v[i] == 1 <==> FingerPasses(Within40, AppFingerJoints[i], lm))
  {
    if |lm| != 21 then []
    else
      [Flag(Passes(Beyond160, lm[1], lm[2], lm[4])),
       Flag(Passes(Within40, lm[5], lm[6], lm[8])),
       Flag(Passes(Within40, lm[9], lm[10], lm[12])),
       Flag(Passes(Within40, lm[13], lm[14], lm[16])),
       Flag(Passes(Within40, lm[17], lm[18], lm[20]))]
  }

  /**
   * The application's classifier with the thumb test it evidently intends (see README, "## Findings"):
   * a thumb whose segments bend by less than 20° (an interior joint angle
   * above 160°) is extended.
   */
  function AppFingers(lm: seq<Point>): (v: seq<int>)
    ensures |lm| != 21 ==> v == []
    ensures |lm| == 21 ==> IsFlagVector(v)
    ensures |lm| == 21 ==> (v[0] == 1 <==> FingerPasses(Within20, AppFingerJoints[0], lm))
    ensures |lm| == 21 ==> forall i :: 1 <= i < 5 ==> (v[i] == 1 <==> FingerPasses(Within40, AppFingerJoints[i], lm))
  {
    if |lm| != 21 then []
    else
      [Flag(Passes(Within20, lm[1], lm[2], lm[4])),
       Flag(Passes(Within40, lm[5], lm[6], lm[8])),
       Flag(Passes(Within40, lm[9], lm[10], lm[12])),
       Flag(Passes(Within40, lm[13], lm[14], lm[16])),
       Flag(Passes(Within40, lm[17], lm[18], lm[20]))]
  }

  /** `sum(dedos)`. */
  function Sum(v: seq<int>): int {
    if v == [] then 0 else v[0] + Sum(v[1..])
  }

  /** The number of raised fingers of a finger vector is between 0 and 5. */
  lemma {:induction false} SumOfFlagsIsACount(v: seq<int>)
    requires IsFlagVector(v)
    ensures 0 <= Sum(v) <= 5
    ensures Sum(v) == 0 <==> v == [0, 0, 0, 0, 0]
    ensures Sum(v) == 5 <==> v == [1, 1, 1, 1, 1]
  {
    assert v == [v[0], v[1], v[2], v[3], v[4]];
    assert Sum(v[5..]) == 0;
    assert Sum(v[4..]) == v[4] + Sum(v[5..]) by { assert v[4..][1..] == v[5..]; }
    assert Sum(v[3..]) == v[3] + Sum(v[4..]) by { assert v[3..][1..] == v[4..]; }
    assert Sum(v[2..]) == v[2] + Sum(v[3..]) by { assert v[2..][1..] == v[3..]; }
    assert Sum(v[1..]) == v[1] + Sum(v[2..]) by { assert v[1..][1..] == v[2..]; }
    assert Sum(v) == v[0] + v[1] + v[2] + v[3] + v[4];
  }

  /** `detectar_dedos(lm_list)` of the pinch game: the count of extended fingers. */
  function RaisedFingerCount(lm: seq<Point>): (n: int)
    requires |lm| >= 21
    ensures 0 <= n <= 5
    ensures n == Sum(Fingers30(lm))
  {
    SumOfFlagsIsACount(Fingers30(lm));
    Sum(Fingers30(lm))
  }

  /**
   * The two sides of the squared integer inequality, written over the cosine
   * `c = d / (l1 l2)` and the positive square `q = (l1 l2)²`.
   */
  lemma CosineSides(d: int, n1: int, n2: int, l1: real, l2: real, num: nat, den: nat) returns (c: real, q: real)
    requires l1 > 0.0 && l2 > 0.0
    requires l1 * l1 == n1 as real && l2 * l2 == n2 as real
    ensures c == d as real / (l1 * l2) && q > 0.0
    ensures (den * (d * d)) as real == den as real * ((c * c) * q)
    ensures (num * (n1 * n2)) as real == num as real * q
  {
    var len := PositiveProduct(l1, l2);
    c := d as real / len;
    q := PositiveProduct(len, len);
    RealSquareOfProduct(l1, l2);
    assert len * len == (n1 * n2) as real;
    SquaredQuotient(d as real, len);
  }

  /**
   * The squared inequality on integers is the squared-cosine inequality on
   * reals, for `n1 = l1²`, `n2 = l2²` and a positive `den`.
   */
  lemma SquaredCosineThreshold(d: int, n1: int, n2: int, l1: real, l2: real, num: nat, den: nat)
    requires den > 0 && l1 > 0.0 && l2 > 0.0
    requires l1 * l1 == n1 as real && l2 * l2 == n2 as real
    ensures var c := d as real / (l1 * l2);
            den * (d * d) > num * (n1 * n2) <==> c * c > num as real / den as real
  {
    var c, q := CosineSides(d, n1, n2, l1, l2, num, den);
    ScaledThreshold(c * c, q, num as real, den as real);
  }

  /**
   * The angle test is the cosine threshold it stands for: for the true lengths
   * `l1`, `l2` of two non-degenerate segments and `c = dot / (l1 l2)`,
   * `Within(n, m)` holds exactly when `c > 0` and `c² > n/m`, and `Beyond(n, m)`
   * exactly when `c < 0` and `c² > n/m`.
   */
  lemma PassesIsCosineThreshold(t: AngleTest, p1: Point, p2: Point, p3: Point, l1: real, l2: real)
    requires t.den > 0
    requires l1 > 0.0 && l1 * l1 == NormSq(Vec(p1, p2)) as real
    requires l2 > 0.0 && l2 * l2 == NormSq(Vec(p2, p3)) as real
    ensures var c := Dot(Vec(p1, p2), Vec(p2, p3)) as real / (l1 * l2);
            Passes(t, p1, p2, p3) <==>
              (if t.Within? then c > 0.0 else c < 0.0) && c * c > t.num as real / t.den as real
  {
    var d := Dot(Vec(p1, p2), Vec(p2, p3));
    SquaredCosineThreshold(d, NormSq(Vec(p1, p2)), NormSq(Vec(p2, p3)), l1, l2, t.num, t.den);
    QuotientSign(d as real, l1 * l2);
  }

  /** The dot product of two multiples of one vector. */
  lemma DotOfMultiples(u: Point, a: int, b: int)
    ensures Dot(Point(a * u.x, a * u.y), Point(b * u.x, b * u.y)) == (a * b) * NormSq(u)
  {
    assert (a * u.x) * (b * u.x) == (a * b) * (u.x * u.x);
    assert (a * u.y) * (b * u.y) == (a * b) * (u.y * u.y);
  }

  /** ((ab)w)² = (a²w)(b²w). */
  lemma SquareOfScaledProduct(a: int, b: int, w: int)
    ensures ((a * b) * w) * ((a * b) * w) == ((a * a) * w) * ((b * b) * w)
  {
    assert (a * b) * (a * b) == (a * a) * (b * b);
  }

  /**
   * Two segments that are non-zero multiples `a·u` and `b·u` of one non-zero
   * vector: their squared dot product equals the product of their squared
   * lengths (the cosine is ±1), and the dot product has the sign of `a·b`.
   */
  lemma ParallelSegments(u: Point, a: int, b: int)
    requires a != 0 && b != 0 && u != Point(0, 0)
    ensures var v1 := Point(a * u.x, a * u.y);
            var v2 := Point(b * u.x, b * u.y);
            var d := Dot(v1, v2);
            (d > 0 <==> a * b > 0) && d * d == NormSq(v1) * NormSq(v2) && d * d > 0
  {
    var v1 := Point(a * u.x, a * u.y);
    var v2 := Point(b * u.x, b * u.y);
    var w := NormSq(u);
    assert w > 0;
    DotOfMultiples(u, a, b);
    DotOfMultiples(u, a, a);
    DotOfMultiples(u, b, b);
    assert NormSq(v1) == Dot(v1, v1);
    assert NormSq(v2) == Dot(v2, v2);
    SquareOfScaledProduct(a, b, w);
    var d := Dot(v1, v2);
    assert d == (a * b) * w;
    assert a * b != 0;
    ScaleIntInequality(a * b, 0, w);
    assert d != 0;
  }

  /** A finger whose two segments point the same way is extended for any threshold below 90°. */
  lemma StraightFingerPasses(p: Point, u: Point, a: int, b: int, n: nat, m: nat)
    requires a > 0 && b > 0 && u != Point(0, 0) && n < m
    ensures Passes(Within(n, m), p, Point(p.x + a * u.x, p.y + a * u.y),
                   Point(p.x + (a + b) * u.x, p.y + (a + b) * u.y))
  {
    var p2 := Point(p.x + a * u.x, p.y + a * u.y);
    var p3 := Point(p.x + (a + b) * u.x, p.y + (a + b) * u.y);
    assert Vec(p, p2) == Point(a * u.x, a * u.y);
    assert Vec(p2, p3) == Point(b * u.x, b * u.y);
    ParallelSegments(u, a, b);
    var dd := Dot(Vec(p, p2), Vec(p2, p3)) * Dot(Vec(p, p2), Vec(p2, p3));
    ScaleIntInequality(m, n, dd);
  }

  /** A finger folded straight back fails every "angle below" test and passes every "angle above" test. */
  lemma FoldedFingerIsBeyond(p: Point, u: Point, a: int, b: int, n: nat, m: nat)
    requires a > 0 && b > 0 && u != Point(0, 0) && n < m
    ensures var p2 := Point(p.x + a * u.x, p.y + a * u.y);
            var p3 := Point(p2.x - b * u.x, p2.y - b * u.y);
            Passes(Beyond(n, m), p, p2, p3) && !Passes(Within(n, m), p, p2, p3)
  {
    var p2 := Point(p.x + a * u.x, p.y + a * u.y);
    var p3 := Point(p2.x - b * u.x, p2.y - b * u.y);
    assert Vec(p, p2) == Point(a * u.x, a * u.y);
    assert Vec(p2, p3) == Point((-b) * u.x, (-b) * u.y);
    ParallelSegments(u, a, -b);
    var dd := Dot(Vec(p, p2), Vec(p2, p3)) * Dot(Vec(p, p2), Vec(p2, p3));
    ScaleIntInequality(m, n, dd);
  }

  /**
   * When two landmarks of a finger coincide the source divides 0 by 1e-6, the
   * angle is 90° and the finger reads as flexed for every threshold.
   */
  lemma DegenerateFingerFails(t: AngleTest, p1: Point, p2: Point, p3: Point)
    requires p1 == p2 || p2 == p3
    ensures !Passes(t, p1, p2, p3)
  {
  }

  /** A tighter "below" threshold implies a looser one: n/m ≥ n'/m' with m' > 0. */
  lemma WithinIsMonotone(n: nat, m: nat, n': nat, m': nat, p1: Point, p2: Point, p3: Point)
    requires m > 0 && m' > 0 && n * m' >= n' * m
    requires Passes(Within(n, m), p1, p2, p3)
    ensures Passes(Within(n', m'), p1, p2, p3)
  {
    var d := Dot(Vec(p1, p2), Vec(p2, p3));
    ScaledOrder(m, m', n, n', d * d, NormSq(Vec(p1, p2)) * NormSq(Vec(p2, p3)));
  }

  /** Every finger the 30° classifier calls extended also passes the application's 40° test. */
  lemma Within30ImpliesWithin40(p1: Point, p2: Point, p3: Point)
    requires Passes(Within30, p1, p2, p3)
    ensures Passes(Within40, p1, p2, p3)
  {
    WithinIsMonotone(3, 4, 586824, 1000000, p1, p2, p3);
  }

  /** A finger-number label drawn next to a raised fingertip. */
  datatype TipLabel = TipLabel(name: string, at: Point)

  /** Fingertip landmarks, thumb first. */
  const TipLandmarks: seq<nat> := [4, 8, 12, 16, 20]

  /** `dedo_nomes[i]`: the digit naming finger i. */
  function FingerName(i: nat): (s: string)
    requires i < 5
    ensures |s| == 1 && '1' <= s[0] <= '5'
  {
    [(('1' as int) + i) as char]
  }

  /** The labels of fingers 0 .. k-1, in finger order, drawn 10 px left and 5 px above each raised tip. */
  function LabelsUpTo(v: seq<int>, lm: seq<Point>, k: nat): seq<TipLabel>
    requires |v| == 5 && |lm| >= 21 && k <= 5
  {
    if k == 0 then []
    else
      var tip := lm[TipLandmarks[k - 1]];
      LabelsUpTo(v, lm, k - 1) +
        (if v[k - 1] != 0 then [TipLabel(FingerName(k - 1), Point(tip.x - 10, tip.y - 5))] else [])
  }

  /** The loop over `enumerate(pontas_dedos)` that labels raised fingertips. */
  method DrawTipLabels(v: seq<int>, lm: seq<Point>) returns (labels: seq<TipLabel>)
    requires |v| == 5 && |lm| >= 21
    ensures labels == LabelsUpTo(v, lm, 5)
  {
    labels := [];
    var i := 0;
    while i < 5
      invariant 0 <= i <= 5
      invariant labels == LabelsUpTo(v, lm, i)
    {
      if v[i] != 0 {
        var tip := lm[TipLandmarks[i]];
        labels := labels + [TipLabel(FingerName(i), Point(tip.x - 10, tip.y - 5))];
      }
      i := i + 1;
    }
  }

  /** The label of finger i is drawn exactly when finger i is raised, at its tip. */
  lemma {:induction false} LabelsUpToIff(v: seq<int>, lm: seq<Point>, k: nat, i: nat)
    requires |v| == 5 && |lm| >= 21 && k <= 5 && i < 5
    ensures (exists l :: l in LabelsUpTo(v, lm, k) && l.name == FingerName(i)) <==> (i < k && v[i] != 0)
    ensures forall l :: l in LabelsUpTo(v, lm, k) && l.name == FingerName(i) ==>
              l.at == Point(lm[TipLandmarks[i]].x - 10, lm[TipLandmarks[i]].y - 5)
  {
    if k > 0 {
      LabelsUpToIff(v, lm, k - 1, i);
      var pre := LabelsUpTo(v, lm, k - 1);
      var tip := lm[TipLandmarks[k - 1]];
      var last := if v[k - 1] != 0 then [TipLabel(FingerName(k - 1), Point(tip.x - 10, tip.y - 5))] else [];
      assert LabelsUpTo(v, lm, k) == pre + last;
      FingerNamesDiffer(k - 1, i);
      if i == k - 1 && v[i] != 0 {
        assert last[0] in pre + last;
      }
    }
  }

  /** Each finger has its own digit. */
  lemma FingerNamesDiffer(i: nat, j: nat)
    requires i < 5 && j < 5
    ensures FingerName(i) == FingerName(j) <==> i == j
  {
    if FingerName(i) == FingerName(j) {
      assert FingerName(i)[0] == FingerName(j)[0];
    }
  }
}
