/** The immutable 3D vector of the tag cloud (tagcloud/.../math/Vector3.kt). */
module Vectors {
  import opened KotlinMath
  import opened RealFacts

  datatype Vector3 = Vector3(x: real, y: real, z: real)

  /** Vector3.Zero */
  const Zero: Vector3 := Vector3(0.0, 0.0, 0.0)

  /** `v * value`: every component scaled. */
  function Times(v: Vector3, value: real): Vector3 {
    Vector3(v.x * value, v.y * value, v.z * value)
  }

  /** Vector3.crossProduct */
  function CrossProduct(l: Vector3, r: Vector3): Vector3 {
    Vector3(
      l.y * r.z - l.z * r.y,
      l.z * r.x - l.x * r.z,
      l.x * r.y - l.y * r.x)
  }

  /** Vector3.dotProduct */
  function DotProduct(l: Vector3, r: Vector3): real {
    l.x * r.x + l.y * r.y + l.z * r.z
  }

  /** Vector3.normalized: the exact zero vector is returned as it is (no division);
      any other vector is scaled by 1 / sqrt(v . v) and so has unit length. */
  function Normalized(m: MathLib, v: Vector3): (n: Vector3)
    requires m.Lawful()
    ensures v == Zero ==> n == v
    ensures DotProduct(n, n) == if v == Zero then 0.0 else 1.0
  {
    if v == Zero then v
    else
      DotSelfZero(v);
      var d := DotProduct(v, v);
      SqrtOfPositive(m, d);
      var s := m.sqrt(d);
      var n := Times(v, 1.0 / s);
      TimesLength(v, 1.0 / s);
      assert (1.0 / s) * (1.0 / s) * d == 1.0 by {
        assert (1.0 / s) * (1.0 / s) * (s * s) == 1.0;
      }
      n
  }

  /** A helper for the linearity of rotation. */
  function Add(l: Vector3, r: Vector3): Vector3 {
    Vector3(l.x + r.x, l.y + r.y, l.z + r.z)
  }

  /** v . v is never negative, and is zero only for the zero vector. */
  lemma DotSelfZero(v: Vector3)
    ensures DotProduct(v, v) >= 0.0
    ensures v != Zero ==> DotProduct(v, v) > 0.0
  {
    Square(v.x, v.x * v.x);
    Square(v.y, v.y * v.y);
    Square(v.z, v.z * v.z);
  }

  lemma DotSymmetric(l: Vector3, r: Vector3)
    ensures DotProduct(l, r) == DotProduct(r, l)
  {
  }

  /** Scaling by value scales the squared length by value squared. */
  lemma TimesLength(v: Vector3, value: real)
    ensures DotProduct(Times(v, value), Times(v, value)) == value * value * DotProduct(v, v)
  {
    var r := Times(v, value);
    assert DotProduct(r, r) == (v.x * value) * (v.x * value) + (v.y * value) * (v.y * value) + (v.z * value) * (v.z * value);
  }

  /** The cross product is orthogonal to both of its operands. */
  lemma CrossOrthogonal(l: Vector3, r: Vector3)
    ensures DotProduct(CrossProduct(l, r), l) == 0.0 && DotProduct(CrossProduct(l, r), r) == 0.0
  {
  }

  /** Scaling one side scales the dot product. */
  lemma DotTimes(v: Vector3, k: real, u: Vector3)
    ensures DotProduct(Times(v, k), u) == k * DotProduct(v, u)
  {
  }

  lemma TimesOne(v: Vector3)
    ensures Times(v, 1.0) == v
  {
  }

  lemma TimesTimes(v: Vector3, a: real, b: real)
    ensures Times(Times(v, a), b) == Times(v, a * b)
  {
  }

  lemma CrossAntiCommutative(l: Vector3, r: Vector3)
    ensures CrossProduct(l, r) == Times(CrossProduct(r, l), -1.0)
  {
  }

  lemma CrossSelf(v: Vector3)
    ensures CrossProduct(v, v) == Zero
  {
  }

  /** Lagrange's identity: |l|^2 |r|^2 = (l . r)^2 + |l x r|^2. */
  lemma Lagrange(l: Vector3, r: Vector3)
    ensures DotProduct(l, r) * DotProduct(l, r) + DotProduct(CrossProduct(l, r), CrossProduct(l, r))
         == DotProduct(l, l) * DotProduct(r, r)
  {
  }

  /** The dot product of two unit vectors lies in [-1, 1] (Cauchy-Schwarz). */
  lemma UnitDotBounded(l: Vector3, r: Vector3)
    requires DotProduct(l, l) == 1.0 && DotProduct(r, r) == 1.0
    ensures -1.0 <= DotProduct(l, r) <= 1.0
  {
    var d := DotProduct(l, r);
    Lagrange(l, r);
    DotSelfZero(CrossProduct(l, r));
    SquareAtMostOne(d);
  }

  /** For a nonzero v, Normalized(v) is v scaled by a positive factor. */
  lemma NormalizedPositiveMultiple(m: MathLib, v: Vector3)
    requires m.Lawful() && v != Zero
    ensures exists k :: k > 0.0 && Normalized(m, v) == Times(v, k)
  {
    DotSelfZero(v);
    SqrtOfPositive(m, DotProduct(v, v));
    var k := 1.0 / m.sqrt(DotProduct(v, v));
    assert k > 0.0 && Normalized(m, v) == Times(v, k);
  }

  /** Normalising an already unit vector returns it unchanged. */
  lemma NormalizedIdempotent(m: MathLib, v: Vector3)
    requires m.Lawful() && DotProduct(v, v) == 1.0
    ensures Normalized(m, v) == v
  {
    DotSelfZero(v);
    SqrtOfOne(m);
    TimesOne(v);
  }
}
