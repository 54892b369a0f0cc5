/** The few functions of kotlin.math that the tag cloud calls.
    Their implementation is not part of this model: a MathLib value carries them,
    and Lawful() states the only facts about them that the proofs rely on. */
module KotlinMath {
  import opened RealFacts

  /** sqrt, sin, cos and acos as used by the core (all on Float in the source). */
  datatype MathLib = MathLib(sqrt: real -> real, sin: real -> real, cos: real -> real, acos: real -> real)
  {
    /** The laws of the real functions that the proofs need, and no more. */
    ghost predicate Lawful() {
      && (forall t :: t >= 0.0 ==> sqrt(t) >= 0.0 && sqrt(t) * sqrt(t) == t)
      && (forall t :: sin(t) * sin(t) + cos(t) * cos(t) == 1.0)
      && sin(0.0) == 0.0
      && cos(0.0) == 1.0
      && (forall t :: -1.0 <= t <= 1.0 ==> cos(acos(t)) == t)
      // cos is positive on [-1, 1], since 1 < PI / 2
      && (forall t :: -1.0 <= t <= 1.0 ==> cos(t) > 0.0)
    }
  }

  /** kotlin.math.PI, the Double constant the lattice converts to Float. */
  const PI: real := 3.141592653589793

  function Abs(r: real): real {
    if r < 0.0 then -r else r
  }

  lemma SqrtOfOne(m: MathLib)
    requires m.Lawful()
    ensures m.sqrt(1.0) == 1.0
  {
    SquareRootUnique(m.sqrt(1.0), 1.0);
  }

  lemma SqrtOfPositive(m: MathLib, t: real)
    requires m.Lawful() && t > 0.0
    ensures m.sqrt(t) > 0.0
  {
    var s := m.sqrt(t);
    assert s >= 0.0 && s * s == t;
  }

  /** sqrt(c * c) is |c|: the only non-negative root. */
  lemma SqrtOfSquare(m: MathLib, c: real)
    requires m.Lawful()
    ensures m.sqrt(c * c) == Abs(c)
  {
    assert c * c == Abs(c) * Abs(c);
    SquareRootUnique(m.sqrt(c * c), Abs(c));
  }

  /** Float.toInt(): rounds toward zero (NaN and saturation at the Int bounds are not
      modelled). */
  function Trunc(r: real): (i: int)
    ensures r >= 0.0 ==> i as real <= r < i as real + 1.0
    ensures r < 0.0 ==> i as real - 1.0 < r <= i as real
  {
    if r >= 0.0 then r.Floor else -((-r).Floor)
  }

  /** Float.roundToInt(): the nearest integer, ties rounded toward positive infinity. */
  function RoundToInt(r: real): (i: int)
    ensures i as real - 0.5 <= r < i as real + 0.5
  {
    (r + 0.5).Floor
  }

  /** Trunc never decreases when its argument grows. */
  lemma TruncMonotone(a: real, b: real)
    requires a <= b
    ensures Trunc(a) <= Trunc(b)
  {
  }

  /** An integer-valued Float truncates to itself. */
  lemma TruncInt(i: int)
    ensures Trunc(i as real) == i
  {
  }
}
