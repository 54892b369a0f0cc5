/** FibonacciLattice: points spread evenly over the unit sphere, one per index. */
module Distribution {
  import opened KotlinMath
  import opened RealFacts
  import opened Vectors

  /** A lattice of `size` points; `item(index)` is the index-th point. */
  datatype FibonacciLattice = FibonacciLattice(size: int)
  {
    /** thetaPart = PI * (1 + sqrt(5)), the golden-angle step. */
    function ThetaPart(m: MathLib): real {
      PI * (1.0 + m.sqrt(5.0))
    }

    /** The argument given to acos: 1 - 2 k / size with k = index + 0.5. */
    function Height(index: int): real
      requires size != 0
    {
      1.0 - 2.0 * (index as real + 0.5) / size as real
    }

    /** item(index): phi = acos(1 - 2k / size), theta = thetaPart * k, and the point
        (cos theta sin phi, sin theta sin phi, cos phi). */
    function Item(m: MathLib, index: int): Vector3
      requires size != 0
    {
      var k := index as real + 0.5;
      var phi := m.acos(Height(index));
      var theta := ThetaPart(m) * k;
      Vector3(m.cos(theta) * m.sin(phi), m.sin(theta) * m.sin(phi), m.cos(phi))
    }

    /** For an index inside the lattice the acos argument is strictly inside (-1, 1). */
    lemma HeightInside(index: int)
      requires 0 <= index < size
      ensures -1.0 < Height(index) < 1.0
    {
      var t := (2.0 * (index as real + 0.5)) / size as real;
      assert 0.0 < t by {
        PositiveQuotient(2.0 * (index as real + 0.5), size as real);
      }
      assert t < 2.0 by {
        QuotientBelow(2.0 * (index as real + 0.5), size as real, 2.0);
      }
    }

    /** The z coordinate of item(index) is 1 - 2 (index + 0.5) / size. */
    lemma ItemHeight(m: MathLib, index: int)
      requires m.Lawful() && 0 <= index < size
      ensures Item(m, index).z == 1.0 - 2.0 * (index as real + 0.5) / size as real
    {
      HeightInside(index);
    }

    /** z strictly decreases as the index grows. */
    lemma HeightDecreasing(m: MathLib, i: int, j: int)
      requires m.Lawful() && 0 <= i < j < size
      ensures Item(m, i).z > Item(m, j).z
    {
      ItemHeight(m, i);
      ItemHeight(m, j);
      QuotientMonotone(2.0 * (i as real + 0.5), 2.0 * (j as real + 0.5), size as real);
    }

    /** The lattice is symmetric in z: item(i) and item(size - 1 - i) are mirror images. */
    lemma HeightSymmetric(m: MathLib, i: int)
      requires m.Lawful() && 0 <= i < size
      ensures Item(m, i).z == -Item(m, size - 1 - i).z
    {
      ItemHeight(m, i);
      ItemHeight(m, size - 1 - i);
      var n := size as real;
      var a := 2.0 * (i as real + 0.5);
      var b := 2.0 * ((size - 1 - i) as real + 0.5);
      assert a + b == 2.0 * n;
      SumOfQuotients(a, b, n);
    }

    /** Every item of the lattice lies on the unit sphere. */
    lemma ItemOnUnitSphere(m: MathLib, index: int)
      requires m.Lawful() && 0 <= index < size
      ensures DotProduct(Item(m, index), Item(m, index)) == 1.0
    {
      var k := index as real + 0.5;
      var phi := m.acos(Height(index));
      var theta := ThetaPart(m) * k;
      SphericalPoint(m.cos(theta), m.sin(theta), m.sin(phi), m.cos(phi));
    }
  }

  /** (a s, b s, c) is a unit vector when a^2 + b^2 == 1 and s^2 + c^2 == 1. */
  lemma SphericalPoint(a: real, b: real, s: real, c: real)
    requires b * b + a * a == 1.0 && s * s + c * c == 1.0
    ensures DotProduct(Vector3(a * s, b * s, c), Vector3(a * s, b * s, c)) == 1.0
  {
    assert (a * s) * (a * s) + (b * s) * (b * s) == (a * a + b * b) * (s * s);
  }

  lemma PositiveQuotient(a: real, n: real)
    requires a > 0.0 && n > 0.0
    ensures a / n > 0.0
  {
    PositiveProduct(a / n, n, a);
  }

  lemma QuotientBelow(a: real, n: real, k: real)
    requires n > 0.0 && a < k * n
    ensures a / n < k
  {
    assert (a / n) * n == a;
  }

  lemma QuotientMonotone(a: real, b: real, n: real)
    requires n > 0.0 && a < b
    ensures a / n < b / n
  {
    PositiveQuotient(b - a, n);
    assert (b - a) / n == b / n - a / n;
  }

  lemma SumOfQuotients(a: real, b: real, n: real)
    requires n > 0.0 && a + b == 2.0 * n
    ensures 1.0 - a / n == -(1.0 - b / n)
  {
    assert a / n + b / n == (a + b) / n;
  }
}
