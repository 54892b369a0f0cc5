/** Small facts of real arithmetic, each kept in a lemma of its own so that the
    solver's nonlinear reasoning stays local. */
module RealFacts {

  /** The square s of r is never negative, and positive unless r is zero.
      The square is passed by name so that callers can relate it to sums. */
  lemma Square(r: real, s: real)
    requires s == r * r
    ensures s >= 0.0
    ensures r != 0.0 ==> s > 0.0
  {
    if r > 0.0 {
      assert s / r == r;
    } else if r < 0.0 {
      assert s / r == r;
    }
  }

  lemma GreaterSquare(s: real, a: real)
    requires s > a >= 0.0
    ensures s * s > a * a
  {
    assert s * (s - a) > 0.0;
    assert a * (s - a) >= 0.0;
  }

  /** Two non-negative reals with equal squares are equal. */
  lemma SquareRootUnique(s: real, a: real)
    requires s >= 0.0 && a >= 0.0 && s * s == a * a
    ensures s == a
  {
    if s > a {
      GreaterSquare(s, a);
    } else if s < a {
      GreaterSquare(a, s);
    }
  }

  lemma NegativeSquareAbove(d: real)
    requires d < -1.0
    ensures d * d > 1.0
  {
    var t := -d;
    GreaterSquare(t, 1.0);
    assert t * t == d * d;
  }

  /** A real whose square is at most one lies in [-1, 1]. */
  lemma SquareAtMostOne(d: real)
    requires d * d <= 1.0
    ensures -1.0 <= d <= 1.0
  {
    if d > 1.0 {
      GreaterSquare(d, 1.0);
    } else if d < -1.0 {
      NegativeSquareAbove(d);
    }
  }

  /** The square of a quotient d = a / n, multiplied back by n * n. */
  lemma QuotientSquare(a: real, n: real, d: real)
    requires n != 0.0 && d == a / n
    ensures d * d * (n * n) == a * a
  {
    assert d * n == a;
  }

  /** t * s == s with s positive forces t == 1. */
  lemma CancelPositive(t: real, s: real)
    requires s > 0.0 && t * s == s
    ensures t == 1.0
  {
    assert t == (t * s) / s;
  }

  lemma PositiveProduct(a: real, b: real, p: real)
    requires a > 0.0 && b > 0.0 && p == a * b
    ensures p > 0.0
  {
    assert p / a == b;
  }

  /** A factor of one leaves the other factor. */
  lemma UnitProduct(a: real, b: real, p: real)
    requires p == a * b
    ensures a == 1.0 ==> p == b
    ensures b == 1.0 ==> p == a
  {
  }

  /** Multiplying by a positive factor keeps the sign. */
  lemma PositiveFactor(c: real, k: real, p: real)
    requires k > 0.0 && p == c * k
    ensures p > 0.0 <==> c > 0.0
  {
    assert p / k == c;
  }

  /** A product of two nonzero reals is nonzero. */
  lemma NonzeroProduct(a: real, b: real, p: real)
    requires a != 0.0 && b != 0.0 && p == a * b
    ensures p != 0.0
  {
    assert p / a == b;
  }
}
