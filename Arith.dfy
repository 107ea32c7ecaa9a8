/**
 * Arithmetic facts the component proofs lean on: division and remainder on
 * naturals, and the sign and order rules for products and quotients of reals
 * and integers that the squared distance and angle tests need.
 */
module Arith {

  /** A positive multiple of `m` is at least `m`. */
  lemma MultipleAtLeast(k: int, m: int)
    requires k >= 1 && m > 0
    ensures k * m >= m
  {
  }

  /** `y % m` is the `b` of any decomposition `y == a·m + b` with `0 ≤ b < m`. */
  lemma ModUnique(y: int, m: int, a: int, b: int)
    requires m > 0 && 0 <= b < m && y == a * m + b
    ensures y % m == b
  {
    var c := y / m;
    var d := y % m;
    assert y == c * m + d;
    if a > c {
      MultipleAtLeast(a - c, m);
      assert false;
    } else if c > a {
      MultipleAtLeast(c - a, m);
      assert false;
    }
  }

  /** Counting modulo `m`: the successor wraps to 0 after `m - 1`. */
  lemma SuccessorMod(x: nat, m: nat)
    requires m > 0
    ensures (x + 1) % m == if x % m + 1 == m then 0 else x % m + 1
  {
    var q := x / m;
    var r := x % m;
    assert x == q * m + r;
    if r + 1 == m {
      assert x + 1 == (q + 1) * m + 0;
      ModUnique(x + 1, m, q + 1, 0);
    } else {
      ModUnique(x + 1, m, q, r + 1);
    }
  }

  /** Multiplying by a natural keeps `<=`. */
  lemma MultiplicationIsMonotone(x: int, y: int, k: nat)
    requires x <= y
    ensures x * k <= y * k
  {
  }

  /** Integer division by a positive natural keeps `<=`. */
  lemma DivisionIsMonotone(a: nat, b: nat, k: nat)
    requires a <= b && k > 0
    ensures a / k <= b / k
  {
    if a / k > b / k {
      MultiplicationIsMonotone(b / k + 1, a / k, k);
      assert false;
    }
  }

  /** A product of a non-negative factor keeps the other factor's sign. */
  lemma ProductSign(k: real, d: real)
    requires k >= 0.0
    ensures d >= 0.0 ==> k * d >= 0.0
    ensures d <= 0.0 ==> k * d <= 0.0
  {
  }

  /** Squaring keeps the order of non-negative reals. */
  lemma SquaresKeepOrder(r: real, s: real)
    requires r >= 0.0 && s >= 0.0
    ensures r < s <==> r * r < s * s
  {
    if r < s {
      calc {
        r * r;
      <= { ProductSign(r, s - r); }
        r * s;
      < { ProductSign(s - r, s); assert (s - r) * s != 0.0; }
        s * s;
      }
    } else {
      calc {
        s * s;
      <= { ProductSign(s, r - s); }
        s * r;
      <= { ProductSign(r - s, r); }
        r * r;
      }
    }
  }

  /** Multiplying both sides by a positive real keeps a strict inequality. */
  lemma ScaleRealInequality(x: real, y: real, k: real)
    requires k > 0.0
    ensures x > y <==> x * k > y * k
  {
    if x > y {
      assert (x - y) * k > 0.0;
    } else {
      assert (y - x) * k >= 0.0;
    }
  }

  /** Multiplying both sides by a positive integer keeps a strict inequality. */
  lemma ScaleIntInequality(x: int, y: int, k: int)
    requires k > 0
    ensures x > y <==> x * k > y * k
  {
    if x > y {
      assert (x - y) * k > 0;
    } else {
      assert (y - x) * k >= 0;
    }
  }

  /** A product of two positive reals is positive. */
  lemma PositiveProduct(a: real, b: real) returns (p: real)
    requires a > 0.0 && b > 0.0
    ensures p == a * b && p > 0.0
  {
    p := a * b;
    ScaleRealInequality(a, 0.0, b);
    assert 0.0 * b == 0.0;
  }

  /** (xy)² = x²y² over the reals. */
  lemma RealSquareOfProduct(x: real, y: real)
    ensures (x * y) * (x * y) == (x * x) * (y * y)
  {
  }

  /** For `c = d / len` with `len > 0`: `c² · len² = d²`. */
  lemma SquaredQuotient(d: real, len: real)
    requires len > 0.0
    ensures (d / len) * (d / len) * (len * len) == d * d
  {
    var c := d / len;
    assert c * len == d;
    RealSquareOfProduct(c, len);
  }

  /** `m·(x·q) > n·q  <==>  x > n / m` for positive `m` and `q`. */
  lemma ScaledThreshold(x: real, q: real, n: real, m: real)
    requires q > 0.0 && m > 0.0
    ensures m * (x * q) > n * q <==> x > n / m
  {
    assert m * (x * q) == (m * x) * q;
    ScaleRealInequality(m * x, n, q);
    assert (n / m) * m == n;
    assert m * x == x * m;
    ScaleRealInequality(x, n / m, m);
  }

  /** The sign of a quotient by a positive real is the sign of the dividend. */
  lemma QuotientSign(d: real, len: real)
    requires len > 0.0
    ensures d > 0.0 <==> d / len > 0.0
    ensures d < 0.0 <==> d / len < 0.0
  {
    assert (d / len) * len == d;
    if d / len > 0.0 {
      assert (d / len) * len > 0.0;
    } else if d / len < 0.0 {
      assert (-(d / len)) * len > 0.0;
    }
  }

  /** `m·dd > n·pr` carries over to a smaller ratio `n'/m' <= n/m`, for `pr >= 0`. */
  lemma ScaledOrder(m: int, m': int, n: int, n': int, dd: int, pr: int)
    requires m > 0 && m' > 0 && n * m' >= n' * m && pr >= 0
    requires m * dd > n * pr
    ensures m' * dd > n' * pr
  {
    ScaleIntInequality(m * dd, n * pr, m');
    assert (m * dd) * m' == m * (m' * dd);
    assert (n * pr) * m' == (n * m') * pr;
    assert (n * m') * pr >= (n' * m) * pr;
    assert (n' * m) * pr == m * (n' * pr);
    ScaleIntInequality(m' * dd, n' * pr, m);
  }
}
