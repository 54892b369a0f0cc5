/** The rotation quaternion of the tag cloud (tagcloud/.../math/Quaternion.kt) and the
    rotation of a vector by it. */
module Quaternions {
  import opened RealFacts
  import opened KotlinMath
  import opened Vectors

  /** The tolerance 1e-10 under which normalize() leaves the components alone. */
  const Tolerance: real := 0.0000000001

  /** The four components w, x, y, z, as passed to the internal constructor. */
  datatype Components = Components(w: real, x: real, y: real, z: real)

  /** The 4-tuple of zeros, the one input the constructor cannot normalise. */
  const Origin: Components := Components(0.0, 0.0, 0.0, 0.0)

  /** `x * x + y * y + z * z + w * w`, the squared norm tested by normalize(). */
  function SquaredNorm(c: Components): real {
    c.x * c.x + c.y * c.y + c.z * c.z + c.w * c.w
  }

  /** The negation of normalize()'s test `abs(squared - 1) > 1e-10`. */
  predicate WithinTolerance(c: Components) {
    Abs(SquaredNorm(c) - 1.0) <= Tolerance
  }

  predicate IsUnit(c: Components) {
    SquaredNorm(c) == 1.0
  }

  /** A Quaternion object: the init block has run normalize() on its components,
      which leaves them within the tolerance of unit length. */
  type Quaternion = c: Components | WithinTolerance(c) witness Components(1.0, 0.0, 0.0, 0.0)

  /** Every component divided by norm, as the four `/=` of normalize() do. */
  function Divided(c: Components, norm: real): Components
    requires norm != 0.0
  {
    Components(c.w / norm, c.x / norm, c.y / norm, c.z / norm)
  }

  function Scaled(c: Components, k: real): Components {
    Components(c.w * k, c.x * k, c.y * k, c.z * k)
  }

  /** The components a Quaternion holds once its init block has run normalize().
      The zero 4-tuple is excluded: the source would divide 0 by 0 there. */
  function Normalize(m: MathLib, c: Components): (q: Quaternion)
    requires m.Lawful() && c != Origin
    ensures WithinTolerance(c) ==> q == c
    ensures !WithinTolerance(c) ==> IsUnit(q)
  {
    if WithinTolerance(c) then c
    else
      NormPositive(c);
      var squared := SquaredNorm(c);
      SqrtOfPositive(m, squared);
      var norm := m.sqrt(squared);
      DividedNorm(c, norm);
      CancelPositive(SquaredNorm(Divided(c, norm)), squared);
      Divided(c, norm)
  }

  /** The constructor `Quaternion(w, x, y, z)`: the init block rescales the four
      fields in place unless their squared norm is within the tolerance of 1. */
  method Construct(m: MathLib, w: real, x: real, y: real, z: real) returns (q: Quaternion)
    requires m.Lawful() && Components(w, x, y, z) != Origin
    ensures q == Normalize(m, Components(w, x, y, z))
  {
    var qw, qx, qy, qz := w, x, y, z;
    var squared := qx * qx + qy * qy + qz * qz + qw * qw;
    assert squared == SquaredNorm(Components(w, x, y, z));
    if Abs(squared - 1.0) > Tolerance {
      NormPositive(Components(w, x, y, z));
      SqrtOfPositive(m, squared);
      var norm := m.sqrt(squared);
      qx := qx / norm;
      qy := qy / norm;
      qz := qz / norm;
      qw := qw / norm;
    }
    assert Components(qw, qx, qy, qz) == Normalize(m, Components(w, x, y, z));
    q := Components(qw, qx, qy, qz);
  }

  /** `equals`: two quaternions are equal exactly when their four components are. */
  function Equals(a: Quaternion, b: Quaternion): (r: bool)
    ensures r <==> a == b
  {
    a.w == b.w && a.x == b.x && a.y == b.y && a.z == b.z
  }

  /** The Hamilton product of `times`, before the result is normalised. */
  function Hamilton(a: Components, o: Components): Components {
    Components(
      a.w * o.w - a.x * o.x - a.y * o.y - a.z * o.z,
      a.w * o.x + a.x * o.w + a.y * o.z - a.z * o.y,
      a.w * o.y - a.x * o.z + a.y * o.w + a.z * o.x,
      a.w * o.z + a.x * o.y - a.y * o.x + a.z * o.w)
  }

  /** `this * other`: the Hamilton product, passed through the constructor. Two unit
      quaternions multiply to a unit one, which the constructor keeps as it is. */
  function Times(m: MathLib, a: Quaternion, b: Quaternion): (q: Quaternion)
    requires m.Lawful()
    ensures IsUnit(a) && IsUnit(b) ==> q == Hamilton(a, b) && IsUnit(q)
  {
    HamiltonNonzero(a, b);
    var h := Hamilton(a, b);
    FourSquare(a, b);
    UnitProduct(SquaredNorm(a), SquaredNorm(b), SquaredNorm(h));
    Normalize(m, h)
  }

  /** Quaternion.Identity, the value of `create(0f, Vector3(0f, 0f, 0f))`
      (see IdentityIsCreateZero). */
  const Identity: Quaternion := Components(1.0, 0.0, 0.0, 0.0)

  /** The 4-tuple `create(angle, vector)` passes to the constructor: cos(angle / 2) in
      w and the axis scaled by sin(angle / 2) in x, y, z. */
  function AxisAngle(m: MathLib, angle: real, vector: Vector3): Components {
    var sin := m.sin(angle / 2.0);
    Components(m.cos(angle / 2.0), vector.x * sin, vector.y * sin, vector.z * sin)
  }

  /** `create(angle, vector)`: the axis-angle 4-tuple, normalised by the constructor,
      so a positive multiple of it. A zero axis with cos(angle / 2) == 0 would be the
      zero 4-tuple and is excluded. */
  function Create(m: MathLib, angle: real, vector: Vector3): (q: Quaternion)
    requires m.Lawful()
    requires m.cos(angle / 2.0) != 0.0 || vector != Zero
    ensures exists k :: k > 0.0 && q == Scaled(AxisAngle(m, angle, vector), k)
    ensures WithinTolerance(AxisAngle(m, angle, vector)) ==> q == AxisAngle(m, angle, vector)
    ensures exists k :: Imag(q) == Vectors.Times(vector, k)
    ensures q.w > 0.0 <==> m.cos(angle / 2.0) > 0.0
  {
    CreateFacts(m, angle, vector);
    Normalize(m, AxisAngle(m, angle, vector))
  }

  /** The facts Create states, about the normalised axis-angle 4-tuple. */
  lemma CreateFacts(m: MathLib, angle: real, vector: Vector3)
    requires m.Lawful()
    requires m.cos(angle / 2.0) != 0.0 || vector != Zero
    ensures AxisAngle(m, angle, vector) != Origin
    ensures var q := Normalize(m, AxisAngle(m, angle, vector));
            && (exists k :: k > 0.0 && q == Scaled(AxisAngle(m, angle, vector), k))
            && (exists k :: Imag(q) == Vectors.Times(vector, k))
            && (q.w > 0.0 <==> m.cos(angle / 2.0) > 0.0)
  {
    var sin := m.sin(angle / 2.0);
    var cos := m.cos(angle / 2.0);
    var c := Components(cos, vector.x * sin, vector.y * sin, vector.z * sin);
    assert c == AxisAngle(m, angle, vector);
    CreateNonzero(m, angle, vector);
    var q := Normalize(m, c);
    NormalizeScales(m, c);
    var k :| k > 0.0 && q == Scaled(c, k);
    ScaledAxis(cos, vector, sin, k);
    PositiveFactor(cos, k, q.w);
  }

  /** For a unit axis the axis-angle 4-tuple is already a unit quaternion, so
      `create(angle, vector)` is exactly (cos(angle / 2), vector sin(angle / 2)). */
  lemma CreateUnitAxis(m: MathLib, angle: real, vector: Vector3)
    requires m.Lawful() && DotProduct(vector, vector) == 1.0
    ensures Create(m, angle, vector) == AxisAngle(m, angle, vector)
  {
    var sin := m.sin(angle / 2.0);
    var cos := m.cos(angle / 2.0);
    var c := AxisAngle(m, angle, vector);
    AxisAngleNorm(vector, sin, cos, c);
    assert sin * sin + cos * cos == 1.0;
    assert WithinTolerance(c);
  }

  lemma AxisAngleNorm(vector: Vector3, sin: real, cos: real, c: Components)
    requires c == Components(cos, vector.x * sin, vector.y * sin, vector.z * sin)
    ensures SquaredNorm(c) == sin * sin * DotProduct(vector, vector) + cos * cos
  {
  }

  /** `create(from, to)`: the cross product as the axis and the dot product as the
      angle. */
  function CreateFromTo(m: MathLib, from: Vector3, to: Vector3): (q: Quaternion)
    requires m.Lawful()
    requires m.cos(DotProduct(from, to) / 2.0) != 0.0 || CrossProduct(from, to) != Zero
    ensures exists k :: k > 0.0 && q == Scaled(AxisAngle(m, DotProduct(from, to), CrossProduct(from, to)), k)
    ensures exists k :: Imag(q) == Vectors.Times(CrossProduct(from, to), k)
    ensures q.w > 0.0 <==> m.cos(DotProduct(from, to) / 2.0) > 0.0
    ensures DotProduct(Imag(q), from) == 0.0 && DotProduct(Imag(q), to) == 0.0
  {
    var normal := CrossProduct(from, to);
    var q := Create(m, DotProduct(from, to), normal);
    CrossOrthogonal(from, to);
    OrthogonalAlongNormal(Imag(q), normal, from, to);
    q
  }

  /** `Vector3.rotate(quaternion)`: the vector multiplied by the rotation matrix
      whose entries m00 .. m22 are quadratic in the quaternion's components. */
  function Rotate(v: Vector3, q: Components): Vector3 {
    var w2 := q.w * q.w;
    var x2 := q.x * q.x;
    var y2 := q.y * q.y;
    var z2 := q.z * q.z;
    var zw := q.z * q.w;
    var xy := q.x * q.y;
    var xz := q.x * q.z;
    var yw := q.y * q.w;
    var yz := q.y * q.z;
    var xw := q.x * q.w;
    var m00 := w2 + x2 - z2 - y2;
    var m01 := xy + zw + zw + xy;
    var m02 := xz - yw + xz - yw;
    var m10 := -zw + xy - zw + xy;
    var m11 := y2 - z2 + w2 - x2;
    var m12 := yz + yz + xw + xw;
    var m20 := yw + xz + xz + yw;
    var m21 := yz + yz - xw - xw;
    var m22 := z2 - y2 - x2 + w2;
    Vector3(
      m00 * v.x + m10 * v.y + m20 * v.z,
      m01 * v.x + m11 * v.y + m21 * v.z,
      m02 * v.x + m12 * v.y + m22 * v.z)
  }

  /* Helpers of the proofs: the vector as a pure quaternion, the conjugate, the
     imaginary part, and the sandwich product q (0, v) q* that Rotate computes. */

  function Pure(v: Vector3): Components {
    Components(0.0, v.x, v.y, v.z)
  }

  function Conj(q: Components): Components {
    Components(q.w, -q.x, -q.y, -q.z)
  }

  function Imag(q: Components): Vector3 {
    Vector3(q.x, q.y, q.z)
  }

  function Sandwich(q: Components, v: Vector3): Components {
    Hamilton(Hamilton(q, Pure(v)), Conj(q))
  }

  // ---------------------------------------------------------------------------
  // Normalisation

  /** Only the zero 4-tuple has squared norm 0. */
  lemma NormPositive(c: Components)
    requires c != Origin
    ensures SquaredNorm(c) > 0.0
  {
    Square(c.w, c.w * c.w);
    Square(c.x, c.x * c.x);
    Square(c.y, c.y * c.y);
    Square(c.z, c.z * c.z);
  }

  lemma DividedNorm(c: Components, norm: real)
    requires norm != 0.0
    ensures SquaredNorm(Divided(c, norm)) * (norm * norm) == SquaredNorm(c)
  {
    var d := Divided(c, norm);
    QuotientSquare(c.w, norm, d.w);
    QuotientSquare(c.x, norm, d.x);
    QuotientSquare(c.y, norm, d.y);
    QuotientSquare(c.z, norm, d.z);
  }

  /** Outside the tolerance, normalisation divides by a positive norm, that is it
      multiplies by a positive factor: the quaternion keeps its direction. */
  lemma NormalizeScales(m: MathLib, c: Components)
    requires m.Lawful() && c != Origin
    ensures exists k :: k > 0.0 && Normalize(m, c) == Scaled(c, k)
    ensures WithinTolerance(c) ==> Normalize(m, c) == c
  {
    if WithinTolerance(c) {
      assert Normalize(m, c) == Scaled(c, 1.0);
    } else {
      NormPositive(c);
      SqrtOfPositive(m, SquaredNorm(c));
      var norm := m.sqrt(SquaredNorm(c));
      assert Normalize(m, c) == Scaled(c, 1.0 / norm);
    }
  }

  /** A Quaternion is never the zero 4-tuple. */
  lemma QuaternionNonzero(q: Quaternion)
    ensures q != Origin
  {
    var n := SquaredNorm(Origin);
    assert n == 0.0;
    assert !WithinTolerance(Origin);
  }

  /** Normalising an existing Quaternion changes nothing. */
  lemma NormalizeIdempotent(m: MathLib, q: Quaternion)
    requires m.Lawful()
    ensures q != Origin && Normalize(m, q) == q
  {
    QuaternionNonzero(q);
  }

  // ---------------------------------------------------------------------------
  // create

  /** cos(angle / 2) and the axis scaled by sin(angle / 2) are never all zero when
      cos(angle / 2) != 0 or the axis is nonzero, since sin and cos do not vanish together. */
  lemma CreateNonzero(m: MathLib, angle: real, vector: Vector3)
    requires m.Lawful()
    requires m.cos(angle / 2.0) != 0.0 || vector != Zero
    ensures var sin, cos := m.sin(angle / 2.0), m.cos(angle / 2.0);
            Components(cos, vector.x * sin, vector.y * sin, vector.z * sin) != Origin
  {
    var sin, cos := m.sin(angle / 2.0), m.cos(angle / 2.0);
    if cos == 0.0 {
      SineWhereCosineVanishes(sin, cos);
      if vector.x != 0.0 {
        NonzeroProduct(vector.x, sin, vector.x * sin);
      } else if vector.y != 0.0 {
        NonzeroProduct(vector.y, sin, vector.y * sin);
      } else {
        NonzeroProduct(vector.z, sin, vector.z * sin);
      }
    }
  }

  lemma SineWhereCosineVanishes(sin: real, cos: real)
    requires sin * sin + cos * cos == 1.0 && cos == 0.0
    ensures sin != 0.0
  {
  }

  /** A multiple of a vector orthogonal to from and to is orthogonal to them too. */
  lemma OrthogonalAlongNormal(u: Vector3, normal: Vector3, from: Vector3, to: Vector3)
    requires exists k :: u == Vectors.Times(normal, k)
    requires DotProduct(normal, from) == 0.0 && DotProduct(normal, to) == 0.0
    ensures DotProduct(u, from) == 0.0 && DotProduct(u, to) == 0.0
  {
    var k :| u == Vectors.Times(normal, k);
    DotTimes(normal, k, from);
    DotTimes(normal, k, to);
  }

  /** Scaling the 4-tuple of create by k scales the axis by sin * k. */
  lemma ScaledAxis(cos: real, vector: Vector3, sin: real, k: real)
    ensures Imag(Scaled(Components(cos, vector.x * sin, vector.y * sin, vector.z * sin), k))
         == Vectors.Times(vector, sin * k)
  {
  }

  // ---------------------------------------------------------------------------
  // The Hamilton product

  /** The four coordinates of the Hamilton product, written out. */
  lemma HamiltonParts(a: Components, o: Components)
    ensures Hamilton(a, o).w == a.w * o.w - a.x * o.x - a.y * o.y - a.z * o.z
    ensures Hamilton(a, o).x == a.w * o.x + a.x * o.w + a.y * o.z - a.z * o.y
    ensures Hamilton(a, o).y == a.w * o.y - a.x * o.z + a.y * o.w + a.z * o.x
    ensures Hamilton(a, o).z == a.w * o.z + a.x * o.y - a.y * o.x + a.z * o.w
  {
  }

  /** Euler's four-square identity, on the coordinates written out. */
  lemma FourSquareParts(a: Components, b: Components, h: Components, an: real, bn: real, hn: real)
    requires h.w == a.w * b.w - a.x * b.x - a.y * b.y - a.z * b.z
    requires h.x == a.w * b.x + a.x * b.w + a.y * b.z - a.z * b.y
    requires h.y == a.w * b.y - a.x * b.z + a.y * b.w + a.z * b.x
    requires h.z == a.w * b.z + a.x * b.y - a.y * b.x + a.z * b.w
    requires an == a.x * a.x + a.y * a.y + a.z * a.z + a.w * a.w
    requires bn == b.x * b.x + b.y * b.y + b.z * b.z + b.w * b.w
    requires hn == h.x * h.x + h.y * h.y + h.z * h.z + h.w * h.w
    ensures hn == an * bn
  {
  }

  /** The squared norm is multiplicative. */
  lemma FourSquare(a: Components, b: Components)
    ensures SquaredNorm(Hamilton(a, b)) == SquaredNorm(a) * SquaredNorm(b)
  {
    var h := Hamilton(a, b);
    HamiltonParts(a, b);
    FourSquareParts(a, b, h, SquaredNorm(a), SquaredNorm(b), SquaredNorm(h));
  }

  /** The product of two Quaternions is never the zero 4-tuple. */
  lemma HamiltonNonzero(a: Quaternion, b: Quaternion)
    ensures Hamilton(a, b) != Origin
  {
    FourSquare(a, b);
    PositiveProduct(SquaredNorm(a), SquaredNorm(b), SquaredNorm(Hamilton(a, b)));
    assert SquaredNorm(Origin) == 0.0;
  }

  /** AssociativeW..Z: one coordinate each of (a b) c == a (b c), with the inner
      products named; they serve HamiltonAssociative. */
  lemma AssociativeW(a: Components, b: Components, c: Components, ab: Components, bc: Components, l: real, r: real)
    requires ab.w == a.w * b.w - a.x * b.x - a.y * b.y - a.z * b.z
    requires ab.x == a.w * b.x + a.x * b.w + a.y * b.z - a.z * b.y
    requires ab.y == a.w * b.y - a.x * b.z + a.y * b.w + a.z * b.x
    requires ab.z == a.w * b.z + a.x * b.y - a.y * b.x + a.z * b.w
    requires bc.w == b.w * c.w - b.x * c.x - b.y * c.y - b.z * c.z
    requires bc.x == b.w * c.x + b.x * c.w + b.y * c.z - b.z * c.y
    requires bc.y == b.w * c.y - b.x * c.z + b.y * c.w + b.z * c.x
    requires bc.z == b.w * c.z + b.x * c.y - b.y * c.x + b.z * c.w
    requires l == ab.w * c.w - ab.x * c.x - ab.y * c.y - ab.z * c.z
    requires r == a.w * bc.w - a.x * bc.x - a.y * bc.y - a.z * bc.z
    ensures l == r
  {
  }

  lemma AssociativeX(a: Components, b: Components, c: Components, ab: Components, bc: Components, l: real, r: real)
    requires ab.w == a.w * b.w - a.x * b.x - a.y * b.y - a.z * b.z
    requires ab.x == a.w * b.x + a.x * b.w + a.y * b.z - a.z * b.y
    requires ab.y == a.w * b.y - a.x * b.z + a.y * b.w + a.z * b.x
    requires ab.z == a.w * b.z + a.x * b.y - a.y * b.x + a.z * b.w
    requires bc.w == b.w * c.w - b.x * c.x - b.y * c.y - b.z * c.z
    requires bc.x == b.w * c.x + b.x * c.w + b.y * c.z - b.z * c.y
    requires bc.y == b.w * c.y - b.x * c.z + b.y * c.w + b.z * c.x
    requires bc.z == b.w * c.z + b.x * c.y - b.y * c.x + b.z * c.w
    requires l == ab.w * c.x + ab.x * c.w + ab.y * c.z - ab.z * c.y
    requires r == a.w * bc.x + a.x * bc.w + a.y * bc.z - a.z * bc.y
    ensures l == r
  {
  }

  lemma AssociativeY(a: Components, b: Components, c: Components, ab: Components, bc: Components, l: real, r: real)
    requires ab.w == a.w * b.w - a.x * b.x - a.y * b.y - a.z * b.z
    requires ab.x == a.w * b.x + a.x * b.w + a.y * b.z - a.z * b.y
    requires ab.y == a.w * b.y - a.x * b.z + a.y * b.w + a.z * b.x
    requires ab.z == a.w * b.z + a.x * b.y - a.y * b.x + a.z * b.w
    requires bc.w == b.w * c.w - b.x * c.x - b.y * c.y - b.z * c.z
    requires bc.x == b.w * c.x + b.x * c.w + b.y * c.z - b.z * c.y
    requires bc.y == b.w * c.y - b.x * c.z + b.y * c.w + b.z * c.x
    requires bc.z == b.w * c.z + b.x * c.y - b.y * c.x + b.z * c.w
    requires l == ab.w * c.y - ab.x * c.z + ab.y * c.w + ab.z * c.x
    requires r == a.w * bc.y - a.x * bc.z + a.y * bc.w + a.z * bc.x
    ensures l == r
  {
  }

  lemma AssociativeZ(a: Components, b: Components, c: Components, ab: Components, bc: Components, l: real, r: real)
    requires ab.w == a.w * b.w - a.x * b.x - a.y * b.y - a.z * b.z
    requires ab.x == a.w * b.x + a.x * b.w + a.y * b.z - a.z * b.y
    requires ab.y == a.w * b.y - a.x * b.z + a.y * b.w + a.z * b.x
    requires ab.z == a.w * b.z + a.x * b.y - a.y * b.x + a.z * b.w
    requires bc.w == b.w * c.w - b.x * c.x - b.y * c.y - b.z * c.z
    requires bc.x == b.w * c.x + b.x * c.w + b.y * c.z - b.z * c.y
    requires bc.y == b.w * c.y - b.x * c.z + b.y * c.w + b.z * c.x
    requires bc.z == b.w * c.z + b.x * c.y - b.y * c.x + b.z * c.w
    requires l == ab.w * c.z + ab.x * c.y - ab.y * c.x + ab.z * c.w
    requires r == a.w * bc.z + a.x * bc.y - a.y * bc.x + a.z * bc.w
    ensures l == r
  {
  }
  /** The Hamilton product is associative. */
  lemma HamiltonAssociative(a: Components, b: Components, c: Components)
    ensures Hamilton(Hamilton(a, b), c) == Hamilton(a, Hamilton(b, c))
  {
    var ab, bc := Hamilton(a, b), Hamilton(b, c);
    var l, r := Hamilton(ab, c), Hamilton(a, bc);
    HamiltonParts(a, b);
    HamiltonParts(b, c);
    HamiltonParts(ab, c);
    HamiltonParts(a, bc);
    AssociativeW(a, b, c, ab, bc, l.w, r.w);
    AssociativeX(a, b, c, ab, bc, l.x, r.x);
    AssociativeY(a, b, c, ab, bc, l.y, r.y);
    AssociativeZ(a, b, c, ab, bc, l.z, r.z);
  }

  // ---------------------------------------------------------------------------
  // times

  /** Identity is a two-sided unit of `times` on every Quaternion. */
  lemma TimesIdentity(m: MathLib, q: Quaternion)
    requires m.Lawful()
    ensures Times(m, Identity, q) == q
    ensures Times(m, q, Identity) == q
  {
    HamiltonParts(Identity, q);
    HamiltonParts(q, Identity);
    assert Hamilton(Identity, q) == q;
    assert Hamilton(q, Identity) == q;
    NormalizeIdempotent(m, q);
  }

  /** On unit quaternions `times` is associative. */
  lemma TimesAssociative(m: MathLib, a: Quaternion, b: Quaternion, c: Quaternion)
    requires m.Lawful() && IsUnit(a) && IsUnit(b) && IsUnit(c)
    ensures Times(m, Times(m, a, b), c) == Times(m, a, Times(m, b, c))
  {
    var ab, bc := Times(m, a, b), Times(m, b, c);
    assert ab == Hamilton(a, b) && IsUnit(ab);
    assert bc == Hamilton(b, c) && IsUnit(bc);
    HamiltonAssociative(a, b, c);
  }

  // ---------------------------------------------------------------------------
  // Identity and create

  /** Quaternion.Identity is create(0f, Vector3(0f, 0f, 0f)). */
  lemma IdentityIsCreateZero(m: MathLib)
    requires m.Lawful()
    ensures Create(m, 0.0, Zero) == Identity
  {
    CreateZeroAngle(m, Zero);
  }

  /** A zero angle gives Identity whatever the axis. */
  lemma CreateZeroAngle(m: MathLib, vector: Vector3)
    requires m.Lawful()
    ensures Create(m, 0.0, vector) == Identity
  {
    assert 0.0 / 2.0 == 0.0;
    var c := Components(m.cos(0.0), vector.x * m.sin(0.0), vector.y * m.sin(0.0), vector.z * m.sin(0.0));
    assert c == Identity;
    NormalizeIdempotent(m, Identity);
  }

  /** A zero axis gives a quaternion without imaginary part. */
  lemma CreateZeroAxis(m: MathLib, angle: real)
    requires m.Lawful() && m.cos(angle / 2.0) != 0.0
    ensures Imag(Create(m, angle, Zero)) == Zero
  {
    var q := Create(m, angle, Zero);
    var k :| Imag(q) == Vectors.Times(Zero, k);
  }

  /** create(v, v): the cross product vanishes, so the result has no imaginary part
      and its w has the sign of cos(v . v / 2). It is Identity when that cosine is
      positive and the 4-tuple (cos, 0, 0, 0) is rescaled, or the cosine is exactly 1;
      inside the tolerance band (cos, 0, 0, 0) is kept as it is. */
  lemma CreateFromToSame(m: MathLib, v: Vector3)
    requires m.Lawful()
    requires m.cos(DotProduct(v, v) / 2.0) != 0.0
    ensures var cos := m.cos(DotProduct(v, v) / 2.0);
            var q := CreateFromTo(m, v, v);
            && Imag(q) == Zero
            && (q.w > 0.0 <==> cos > 0.0)
            && (cos > 0.0 && (cos == 1.0 || !WithinTolerance(Components(cos, 0.0, 0.0, 0.0))) ==> q == Identity)
  {
    var angle := DotProduct(v, v);
    var cos := m.cos(angle / 2.0);
    CrossSelf(v);
    CreateZeroAxis(m, angle);
    var c := Components(cos, Zero.x * m.sin(angle / 2.0), Zero.y * m.sin(angle / 2.0), Zero.z * m.sin(angle / 2.0));
    assert c == Components(cos, 0.0, 0.0, 0.0);
    if cos > 0.0 && !WithinTolerance(c) {
      var squared := SquaredNorm(c);
      assert squared == cos * cos;
      SqrtOfSquare(m, cos);
      assert m.sqrt(squared) == cos;
      RealAxisDivided(c, cos);
    }
  }

  lemma RealAxisDivided(c: Components, cos: real)
    requires cos > 0.0 && c == Components(cos, 0.0, 0.0, 0.0)
    ensures Divided(c, cos) == Identity
  {
  }

  // ---------------------------------------------------------------------------
  // rotate

  /** The three coordinates of Rotate, written out. */
  lemma RotateParts(v: Vector3, q: Components)
    ensures Rotate(v, q).x == (q.w * q.w + q.x * q.x - q.z * q.z - q.y * q.y) * v.x + (-(q.z * q.w) + q.x * q.y - q.z * q.w + q.x * q.y) * v.y + (q.y * q.w + q.x * q.z + q.x * q.z + q.y * q.w) * v.z
    ensures Rotate(v, q).y == (q.x * q.y + q.z * q.w + q.z * q.w + q.x * q.y) * v.x + (q.y * q.y - q.z * q.z + q.w * q.w - q.x * q.x) * v.y + (q.y * q.z + q.y * q.z - q.x * q.w - q.x * q.w) * v.z
    ensures Rotate(v, q).z == (q.x * q.z - q.y * q.w + q.x * q.z - q.y * q.w) * v.x + (q.y * q.z + q.y * q.z + q.x * q.w + q.x * q.w) * v.y + (q.z * q.z - q.y * q.y - q.x * q.x + q.w * q.w) * v.z
  {
  }

  /** SandwichW..Z: one coordinate each of q (0, v) q*, set against the rotation
      matrix; they serve SandwichIsRotation. */
  lemma SandwichW(q: Components, v: Vector3, u: Components, cq: Components, p: Components, s: Components)
    requires u.w == 0.0 && u.x == v.x && u.y == v.y && u.z == v.z
    requires cq.w == q.w && cq.x == -q.x && cq.y == -q.y && cq.z == -q.z
    requires p.w == q.w * u.w - q.x * u.x - q.y * u.y - q.z * u.z
    requires p.x == q.w * u.x + q.x * u.w + q.y * u.z - q.z * u.y
    requires p.y == q.w * u.y - q.x * u.z + q.y * u.w + q.z * u.x
    requires p.z == q.w * u.z + q.x * u.y - q.y * u.x + q.z * u.w
    requires s.w == p.w * cq.w - p.x * cq.x - p.y * cq.y - p.z * cq.z
    ensures s.w == 0.0
  {
  }

  lemma SandwichX(q: Components, v: Vector3, u: Components, cq: Components, p: Components, s: Components, r: real)
    requires u.w == 0.0 && u.x == v.x && u.y == v.y && u.z == v.z
    requires cq.w == q.w && cq.x == -q.x && cq.y == -q.y && cq.z == -q.z
    requires p.w == q.w * u.w - q.x * u.x - q.y * u.y - q.z * u.z
    requires p.x == q.w * u.x + q.x * u.w + q.y * u.z - q.z * u.y
    requires p.y == q.w * u.y - q.x * u.z + q.y * u.w + q.z * u.x
    requires p.z == q.w * u.z + q.x * u.y - q.y * u.x + q.z * u.w
    requires s.x == p.w * cq.x + p.x * cq.w + p.y * cq.z - p.z * cq.y
    requires r == (q.w * q.w + q.x * q.x - q.z * q.z - q.y * q.y) * v.x + (-(q.z * q.w) + q.x * q.y - q.z * q.w + q.x * q.y) * v.y + (q.y * q.w + q.x * q.z + q.x * q.z + q.y * q.w) * v.z
    ensures s.x == r
  {
  }

  lemma SandwichY(q: Components, v: Vector3, u: Components, cq: Components, p: Components, s: Components, r: real)
    requires u.w == 0.0 && u.x == v.x && u.y == v.y && u.z == v.z
    requires cq.w == q.w && cq.x == -q.x && cq.y == -q.y && cq.z == -q.z
    requires p.w == q.w * u.w - q.x * u.x - q.y * u.y - q.z * u.z
    requires p.x == q.w * u.x + q.x * u.w + q.y * u.z - q.z * u.y
    requires p.y == q.w * u.y - q.x * u.z + q.y * u.w + q.z * u.x
    requires p.z == q.w * u.z + q.x * u.y - q.y * u.x + q.z * u.w
    requires s.y == p.w * cq.y - p.x * cq.z + p.y * cq.w + p.z * cq.x
    requires r == (q.x * q.y + q.z * q.w + q.z * q.w + q.x * q.y) * v.x + (q.y * q.y - q.z * q.z + q.w * q.w - q.x * q.x) * v.y + (q.y * q.z + q.y * q.z - q.x * q.w - q.x * q.w) * v.z
    ensures s.y == r
  {
  }

  lemma SandwichZ(q: Components, v: Vector3, u: Components, cq: Components, p: Components, s: Components, r: real)
    requires u.w == 0.0 && u.x == v.x && u.y == v.y && u.z == v.z
    requires cq.w == q.w && cq.x == -q.x && cq.y == -q.y && cq.z == -q.z
    requires p.w == q.w * u.w - q.x * u.x - q.y * u.y - q.z * u.z
    requires p.x == q.w * u.x + q.x * u.w + q.y * u.z - q.z * u.y
    requires p.y == q.w * u.y - q.x * u.z + q.y * u.w + q.z * u.x
    requires p.z == q.w * u.z + q.x * u.y - q.y * u.x + q.z * u.w
    requires s.z == p.w * cq.z + p.x * cq.y - p.y * cq.x + p.z * cq.w
    requires r == (q.x * q.z - q.y * q.w + q.x * q.z - q.y * q.w) * v.x + (q.y * q.z + q.y * q.z + q.x * q.w + q.x * q.w) * v.y + (q.z * q.z - q.y * q.y - q.x * q.x + q.w * q.w) * v.z
    ensures s.z == r
  {
  }
  /** Rotate(v, q) is the imaginary part of q (0, v) q*, whose real part is 0. */
  lemma SandwichIsRotation(v: Vector3, q: Components)
    ensures Sandwich(q, v).w == 0.0
    ensures Rotate(v, q) == Imag(Sandwich(q, v))
  {
    var u, cq := Pure(v), Conj(q);
    var p := Hamilton(q, u);
    var s := Hamilton(p, cq);
    var r := Rotate(v, q);
    HamiltonParts(q, u);
    HamiltonParts(p, cq);
    RotateParts(v, q);
    SandwichW(q, v, u, cq, p, s);
    SandwichX(q, v, u, cq, p, s, r.x);
    SandwichY(q, v, u, cq, p, s, r.y);
    SandwichZ(q, v, u, cq, p, s, r.z);
  }

  /** The conjugate of a product is the product of the conjugates, reversed. */
  lemma ConjHamilton(a: Components, b: Components)
    ensures Conj(Hamilton(a, b)) == Hamilton(Conj(b), Conj(a))
  {
    HamiltonParts(a, b);
    HamiltonParts(Conj(b), Conj(a));
  }

  /** Rotating by b and then by a is rotating by the product a b. */
  lemma RotateComposes(v: Vector3, a: Components, b: Components)
    ensures Rotate(Rotate(v, b), a) == Rotate(v, Hamilton(a, b))
  {
    var ab := Hamilton(a, b);
    var sb := Sandwich(b, v);
    SandwichIsRotation(v, b);
    SandwichIsRotation(Rotate(v, b), a);
    SandwichIsRotation(v, ab);
    assert Pure(Imag(sb)) == sb;
    // a (b v b*) a* == (a b) v (b* a*)
    HamiltonAssociative(a, Hamilton(b, Pure(v)), Conj(b));
    HamiltonAssociative(a, b, Pure(v));
    HamiltonAssociative(Hamilton(ab, Pure(v)), Conj(b), Conj(a));
    ConjHamilton(a, b);
  }

  /** For unit a and b, `v.rotate(b).rotate(a) == v.rotate(a * b)`. */
  lemma RotateCompose(m: MathLib, v: Vector3, a: Quaternion, b: Quaternion)
    requires m.Lawful() && IsUnit(a) && IsUnit(b)
    ensures Rotate(Rotate(v, b), a) == Rotate(v, Times(m, a, b))
  {
    RotateComposes(v, a, b);
  }

  /** A unit quaternion rotates without changing the length of the vector. */
  lemma RotatePreservesLength(v: Vector3, q: Components)
    requires IsUnit(q)
    ensures DotProduct(Rotate(v, q), Rotate(v, q)) == DotProduct(v, v)
  {
    var p := Hamilton(q, Pure(v));
    var s := Hamilton(p, Conj(q));
    SandwichIsRotation(v, q);
    FourSquare(q, Pure(v));
    FourSquare(p, Conj(q));
    assert SquaredNorm(Conj(q)) == 1.0;
    assert SquaredNorm(Pure(v)) == DotProduct(v, v);
    UnitProduct(SquaredNorm(q), SquaredNorm(Pure(v)), SquaredNorm(p));
    UnitProduct(SquaredNorm(p), SquaredNorm(Conj(q)), SquaredNorm(s));
  }

  /** Rotating by Identity changes nothing. */
  lemma RotateIdentity(v: Vector3)
    ensures Rotate(v, Identity) == v
  {
  }

  /** Rotate is additive in the vector. */
  lemma RotateAdditive(u: Vector3, v: Vector3, q: Components)
    ensures Rotate(Add(u, v), q) == Add(Rotate(u, q), Rotate(v, q))
  {
    RotateParts(Add(u, v), q);
    RotateParts(u, q);
    RotateParts(v, q);
  }

  /** Rotate commutes with scaling the vector. */
  lemma RotateHomogeneous(v: Vector3, k: real, q: Components)
    ensures Rotate(Vectors.Times(v, k), q) == Vectors.Times(Rotate(v, q), k)
  {
    RotateParts(Vectors.Times(v, k), q);
    RotateParts(v, q);
  }

  // ---------------------------------------------------------------------------
  // create(from, to) and the rotation it is documented to return

  /** create(from, to) is documented as the rotation that takes `from` to `to`, but it
      passes the dot product itself as the angle. For perpendicular vectors the angle
      is 0, the result is Identity, and `from` is not moved at all, so it does not
      reach `to` unless the two are equal. */
  lemma CreateFromToPerpendicular(m: MathLib, from: Vector3, to: Vector3)
    requires m.Lawful() && DotProduct(from, to) == 0.0
    ensures CreateFromTo(m, from, to) == Identity
    ensures Rotate(from, CreateFromTo(m, from, to)) == from
    ensures from != to ==> Rotate(from, CreateFromTo(m, from, to)) != to
  {
    assert DotProduct(from, to) / 2.0 == 0.0;
    CreateZeroAngle(m, CrossProduct(from, to));
    RotateIdentity(from);
  }

  /** The half-way quaternion (1 + from . to, from x to) of two unit vectors; it is the
      zero 4-tuple exactly when they are opposite. */
  function Halfway(from: Vector3, to: Vector3): Components {
    var normal := CrossProduct(from, to);
    Components(1.0 + DotProduct(from, to), normal.x, normal.y, normal.z)
  }

  /** The rotation from `from` to `to` as create(from, to) is documented: the half-way
      quaternion, normalised by the constructor. */
  function CreateFromToCorrected(m: MathLib, from: Vector3, to: Vector3): (q: Quaternion)
    requires m.Lawful()
    requires DotProduct(from, from) == 1.0 && DotProduct(to, to) == 1.0
    requires DotProduct(from, to) != -1.0
  {
    HalfwayNorm(from, to);
    UnitDotBounded(from, to);
    assert SquaredNorm(Origin) == 0.0;
    Normalize(m, Halfway(from, to))
  }

  /** The corrected quaternion rotates `from` onto `to`: exactly when the half-way
      quaternion was rescaled to unit length, and up to the factor |q|^2, which is
      within 1e-10 of 1, when the constructor kept it as it was. */
  lemma CreateFromToCorrectedRotates(m: MathLib, from: Vector3, to: Vector3)
    requires m.Lawful()
    requires DotProduct(from, from) == 1.0 && DotProduct(to, to) == 1.0
    requires DotProduct(from, to) != -1.0
    ensures var q := CreateFromToCorrected(m, from, to);
            Rotate(from, q) == Vectors.Times(to, SquaredNorm(q))
    ensures !WithinTolerance(Halfway(from, to)) ==> Rotate(from, CreateFromToCorrected(m, from, to)) == to
  {
    var p := Halfway(from, to);
    var q := CreateFromToCorrected(m, from, to);
    assert p != Origin by {
      HalfwayNorm(from, to);
      UnitDotBounded(from, to);
      assert SquaredNorm(Origin) == 0.0;
    }
    NormalizeScales(m, p);
    var k :| k > 0.0 && q == Scaled(p, k);
    ScaledHalfwayRotates(from, to, k);
    if !WithinTolerance(p) {
      TimesOne(to);
    }
  }

  /** Any multiple k of the half-way quaternion takes `from` to |k p|^2 `to`. */
  lemma ScaledHalfwayRotates(from: Vector3, to: Vector3, k: real)
    requires DotProduct(from, from) == 1.0 && DotProduct(to, to) == 1.0
    ensures var q := Scaled(Halfway(from, to), k);
            Rotate(from, q) == Vectors.Times(to, SquaredNorm(q))
  {
    var p := Halfway(from, to);
    var n := SquaredNorm(p);
    HalfwayNorm(from, to);
    HalfwayRotates(from, to);
    var r := Rotate(from, p);
    assert r == Vectors.Times(to, n);
    RotateScaled(from, p, k);
    TimesTimes(to, n, k * k);
    assert Vectors.Times(r, k * k) == Vectors.Times(to, n * (k * k));
    NormScaled(p, k);
  }

  /** |(1 + d, from x to)|^2 == 2 (1 + d) for unit vectors, by Lagrange's identity. */
  lemma HalfwayNorm(from: Vector3, to: Vector3)
    requires DotProduct(from, from) == 1.0 && DotProduct(to, to) == 1.0
    ensures SquaredNorm(Halfway(from, to)) == 2.0 * (1.0 + DotProduct(from, to))
  {
    var d := DotProduct(from, to);
    var normal := CrossProduct(from, to);
    Lagrange(from, to);
    assert DotProduct(normal, normal) == 1.0 - d * d;
    assert SquaredNorm(Halfway(from, to)) == DotProduct(normal, normal) + (1.0 + d) * (1.0 + d);
  }

  /** The half-way quaternion takes `from` to 2 (1 + d) `to`. */
  lemma HalfwayRotates(from: Vector3, to: Vector3)
    requires DotProduct(from, from) == 1.0 && DotProduct(to, to) == 1.0
    ensures Rotate(from, Halfway(from, to)) == Vectors.Times(to, 2.0 * (1.0 + DotProduct(from, to)))
  {
    var p := Halfway(from, to);
    var d := DotProduct(from, to);
    var u := CrossProduct(from, to);
    var c := CrossProduct(u, from);
    var nu, uf := DotProduct(u, u), DotProduct(u, from);
    RotateVectorForm(from, p, nu, uf, c);
    CrossOrthogonal(from, to);
    DotSymmetric(u, from);
    TripleProduct(from, to, d);
    Lagrange(from, to);
    HalfwayRotatesParts(from, to, p, Rotate(from, p), d, nu, uf, c);
  }

  /** Rotate as (w^2 - |u|^2) v + 2 (u . v) u + 2 w (u x v), u the imaginary part. */
  lemma RotateVectorForm(v: Vector3, q: Components, nu: real, uv: real, c: Vector3)
    requires nu == DotProduct(Imag(q), Imag(q)) && uv == DotProduct(Imag(q), v)
    requires c == CrossProduct(Imag(q), v)
    ensures Rotate(v, q) == Vector3((q.w * q.w - nu) * v.x + 2.0 * uv * q.x + 2.0 * q.w * c.x,
                                    (q.w * q.w - nu) * v.y + 2.0 * uv * q.y + 2.0 * q.w * c.y,
                                    (q.w * q.w - nu) * v.z + 2.0 * uv * q.z + 2.0 * q.w * c.z)
  {
    RotateParts(v, q);
    RotateVectorFormParts(v, q, Rotate(v, q), nu, uv, c);
  }

  /** The coordinates of the half-way rotation, on named values. */
  lemma HalfwayRotatesParts(from: Vector3, to: Vector3, p: Components, r: Vector3,
                            d: real, nu: real, uf: real, c: Vector3)
    requires p.w == 1.0 + d && nu == 1.0 - d * d && uf == 0.0
    requires c.x == to.x - d * from.x && c.y == to.y - d * from.y && c.z == to.z - d * from.z
    requires r == Vector3((p.w * p.w - nu) * from.x + 2.0 * uf * p.x + 2.0 * p.w * c.x,
                          (p.w * p.w - nu) * from.y + 2.0 * uf * p.y + 2.0 * p.w * c.y,
                          (p.w * p.w - nu) * from.z + 2.0 * uf * p.z + 2.0 * p.w * c.z)
    ensures r == Vectors.Times(to, 2.0 * (1.0 + d))
  {
    HalfwayComponent(d, p.w, nu, uf, p.x, c.x, from.x, to.x, r.x);
    HalfwayComponent(d, p.w, nu, uf, p.y, c.y, from.y, to.y, r.y);
    HalfwayComponent(d, p.w, nu, uf, p.z, c.z, from.z, to.z, r.z);
  }

  /** One coordinate of the half-way rotation, on named reals. */
  lemma HalfwayComponent(d: real, w: real, nu: real, uf: real, u: real, c: real, f: real, t: real, r: real)
    requires w == 1.0 + d && nu == 1.0 - d * d && uf == 0.0 && c == t - d * f
    requires r == (w * w - nu) * f + 2.0 * uf * u + 2.0 * w * c
    ensures r == t * (2.0 * (1.0 + d))
  {
  }

  /** For a unit `from`: (from x to) x from == to - (to . from) from. */
  lemma TripleProduct(from: Vector3, to: Vector3, d: real)
    requires DotProduct(from, from) == 1.0 && d == DotProduct(from, to)
    ensures var c := CrossProduct(CrossProduct(from, to), from);
            c.x == to.x - d * from.x && c.y == to.y - d * from.y && c.z == to.z - d * from.z
  {
    var u := CrossProduct(from, to);
    var c := CrossProduct(u, from);
    TripleParts(from, to, u, c, DotProduct(from, from), d);
  }

  /** TripleProduct on named coordinates: (from x to) x from, expanded for unit
      vectors; it serves HalfwayRotates. */
  lemma TripleParts(f: Vector3, t: Vector3, u: Vector3, c: Vector3, ff: real, d: real)
    requires u.x == f.y * t.z - f.z * t.y && u.y == f.z * t.x - f.x * t.z && u.z == f.x * t.y - f.y * t.x
    requires c.x == u.y * f.z - u.z * f.y && c.y == u.z * f.x - u.x * f.z && c.z == u.x * f.y - u.y * f.x
    requires ff == f.x * f.x + f.y * f.y + f.z * f.z && d == f.x * t.x + f.y * t.y + f.z * t.z
    ensures c.x == t.x * ff - d * f.x && c.y == t.y * ff - d * f.y && c.z == t.z * ff - d * f.z
  {
  }

  /** Rotate is quadratic in the quaternion: the sandwich product is bilinear. */
  lemma RotateScaled(v: Vector3, q: Components, k: real)
    ensures Rotate(v, Scaled(q, k)) == Vectors.Times(Rotate(v, q), k * k)
  {
    var sandwich := Sandwich(q, v);
    SandwichIsRotation(v, q);
    SandwichIsRotation(v, Scaled(q, k));
    SandwichScaled(v, q, k);
    ImagScaledTwice(sandwich, k);
    TimesTimes(Imag(sandwich), k, k);
  }

  /** Scaling the quaternion by k scales its sandwich product by k twice. */
  lemma SandwichScaled(v: Vector3, q: Components, k: real)
    ensures Sandwich(Scaled(q, k), v) == Scaled(Scaled(Sandwich(q, v), k), k)
  {
    var left := Hamilton(q, Pure(v));
    HamiltonScaledLeft(q, Pure(v), k);
    assert Conj(Scaled(q, k)) == Scaled(Conj(q), k);
    HamiltonScaledLeft(left, Scaled(Conj(q), k), k);
    HamiltonScaledRight(left, Conj(q), k);
  }

  lemma ImagScaledTwice(c: Components, k: real)
    ensures Imag(Scaled(Scaled(c, k), k)) == Vectors.Times(Vectors.Times(Imag(c), k), k)
  {
  }

  /** The Hamilton product is linear in each argument. */
  lemma HamiltonScaledLeft(a: Components, b: Components, k: real)
    ensures Hamilton(Scaled(a, k), b) == Scaled(Hamilton(a, b), k)
  {
    var s := Scaled(a, k);
    var h, l := Hamilton(a, b), Hamilton(s, b);
    HamiltonParts(a, b);
    HamiltonParts(s, b);
    ScaledLeftW(a, b, s, k, h.w, l.w);
    ScaledLeftX(a, b, s, k, h.x, l.x);
    ScaledLeftY(a, b, s, k, h.y, l.y);
    ScaledLeftZ(a, b, s, k, h.z, l.z);
  }

  /** ScaledLeftW..Z: one coordinate each of (k a) b == k (a b); they serve
      HamiltonScaledLeft. */
  lemma ScaledLeftW(a: Components, b: Components, s: Components, k: real, h: real, l: real)
    requires s.w == a.w * k && s.x == a.x * k && s.y == a.y * k && s.z == a.z * k
    requires h == a.w * b.w - a.x * b.x - a.y * b.y - a.z * b.z
    requires l == s.w * b.w - s.x * b.x - s.y * b.y - s.z * b.z
    ensures l == h * k
  {
  }

  lemma ScaledLeftX(a: Components, b: Components, s: Components, k: real, h: real, l: real)
    requires s.w == a.w * k && s.x == a.x * k && s.y == a.y * k && s.z == a.z * k
    requires h == a.w * b.x + a.x * b.w + a.y * b.z - a.z * b.y
    requires l == s.w * b.x + s.x * b.w + s.y * b.z - s.z * b.y
    ensures l == h * k
  {
  }

  lemma ScaledLeftY(a: Components, b: Components, s: Components, k: real, h: real, l: real)
    requires s.w == a.w * k && s.x == a.x * k && s.y == a.y * k && s.z == a.z * k
    requires h == a.w * b.y - a.x * b.z + a.y * b.w + a.z * b.x
    requires l == s.w * b.y - s.x * b.z + s.y * b.w + s.z * b.x
    ensures l == h * k
  {
  }

  lemma ScaledLeftZ(a: Components, b: Components, s: Components, k: real, h: real, l: real)
    requires s.w == a.w * k && s.x == a.x * k && s.y == a.y * k && s.z == a.z * k
    requires h == a.w * b.z + a.x * b.y - a.y * b.x + a.z * b.w
    requires l == s.w * b.z + s.x * b.y - s.y * b.x + s.z * b.w
    ensures l == h * k
  {
  }

  /** The Hamilton product is linear in its right argument; it serves SandwichScaled. */
  lemma HamiltonScaledRight(a: Components, b: Components, k: real)
    ensures Hamilton(a, Scaled(b, k)) == Scaled(Hamilton(a, b), k)
  {
    var s := Scaled(b, k);
    var h, l := Hamilton(a, b), Hamilton(a, s);
    HamiltonParts(a, b);
    HamiltonParts(a, s);
    ScaledRightW(a, b, s, k, h.w, l.w);
    ScaledRightX(a, b, s, k, h.x, l.x);
    ScaledRightY(a, b, s, k, h.y, l.y);
    ScaledRightZ(a, b, s, k, h.z, l.z);
  }

  /** ScaledRightW..Z: one coordinate each of a (k b) == k (a b); they serve
      HamiltonScaledRight. */
  lemma ScaledRightW(a: Components, b: Components, s: Components, k: real, h: real, l: real)
    requires s.w == b.w * k && s.x == b.x * k && s.y == b.y * k && s.z == b.z * k
    requires h == a.w * b.w - a.x * b.x - a.y * b.y - a.z * b.z
    requires l == a.w * s.w - a.x * s.x - a.y * s.y - a.z * s.z
    ensures l == h * k
  {
  }

  lemma ScaledRightX(a: Components, b: Components, s: Components, k: real, h: real, l: real)
    requires s.w == b.w * k && s.x == b.x * k && s.y == b.y * k && s.z == b.z * k
    requires h == a.w * b.x + a.x * b.w + a.y * b.z - a.z * b.y
    requires l == a.w * s.x + a.x * s.w + a.y * s.z - a.z * s.y
    ensures l == h * k
  {
  }

  lemma ScaledRightY(a: Components, b: Components, s: Components, k: real, h: real, l: real)
    requires s.w == b.w * k && s.x == b.x * k && s.y == b.y * k && s.z == b.z * k
    requires h == a.w * b.y - a.x * b.z + a.y * b.w + a.z * b.x
    requires l == a.w * s.y - a.x * s.z + a.y * s.w + a.z * s.x
    ensures l == h * k
  {
  }

  lemma ScaledRightZ(a: Components, b: Components, s: Components, k: real, h: real, l: real)
    requires s.w == b.w * k && s.x == b.x * k && s.y == b.y * k && s.z == b.z * k
    requires h == a.w * b.z + a.x * b.y - a.y * b.x + a.z * b.w
    requires l == a.w * s.z + a.x * s.y - a.y * s.x + a.z * s.w
    ensures l == h * k
  {
  }

  /** The squared norm is quadratic in the scale. */
  lemma NormScaled(q: Components, k: real)
    ensures SquaredNorm(Scaled(q, k)) == SquaredNorm(q) * (k * k)
  {
    var s := Scaled(q, k);
    assert SquaredNorm(s) == (q.x * k) * (q.x * k) + (q.y * k) * (q.y * k) + (q.z * k) * (q.z * k) + (q.w * k) * (q.w * k);
  }

  /** The rotation matrix applied to v, written as (w^2 - |u|^2) v + 2 (u . v) u + 2 w (u x v)
      with u the imaginary part, coordinate by coordinate. */
  lemma RotateVectorFormParts(v: Vector3, q: Components, r: Vector3, nu: real, uv: real, c: Vector3)
    requires nu == q.x * q.x + q.y * q.y + q.z * q.z && uv == q.x * v.x + q.y * v.y + q.z * v.z
    requires c.x == q.y * v.z - q.z * v.y
    requires c.y == q.z * v.x - q.x * v.z
    requires c.z == q.x * v.y - q.y * v.x
    requires r.x == (q.w * q.w + q.x * q.x - q.z * q.z - q.y * q.y) * v.x + (-(q.z * q.w) + q.x * q.y - q.z * q.w + q.x * q.y) * v.y + (q.y * q.w + q.x * q.z + q.x * q.z + q.y * q.w) * v.z
    requires r.y == (q.x * q.y + q.z * q.w + q.z * q.w + q.x * q.y) * v.x + (q.y * q.y - q.z * q.z + q.w * q.w - q.x * q.x) * v.y + (q.y * q.z + q.y * q.z - q.x * q.w - q.x * q.w) * v.z
    requires r.z == (q.x * q.z - q.y * q.w + q.x * q.z - q.y * q.w) * v.x + (q.y * q.z + q.y * q.z + q.x * q.w + q.x * q.w) * v.y + (q.z * q.z - q.y * q.y - q.x * q.x + q.w * q.w) * v.z
    ensures r.x == (q.w * q.w - nu) * v.x + 2.0 * uv * q.x + 2.0 * q.w * c.x
    ensures r.y == (q.w * q.w - nu) * v.y + 2.0 * uv * q.y + 2.0 * q.w * c.y
    ensures r.z == (q.w * q.w - nu) * v.z + 2.0 * uv * q.z + 2.0 * q.w * c.z
  {
  }
}
