/** The concrete checks of the library's test suite, restated against the
    model: the integer vector checks are stated through calls of the
    `NumVector` methods, the quaternion checks are lemmas about the quaternion
    functions. */
module Scenarios {
  import opened Vectors
  import opened Quaternions

  /** Brace initialisation, `fill` and `==` on integer vectors. */
  method FillScenario() {
    var c := new NumVector(7, [5, 5, 5, 5, 5, 5, 5]);
    assert forall i :: 0 <= i < 7 ==> c.elems[i] == 5;

    var x := new NumVector(3, [0]);
    assert x.Elems() == [0, 0, 0];
    x.Fill(10);
    var y := new NumVector(3, [10, 10, 10]);
    var same := x.Equals(y);
    assert same;
    var differ := x.NotEquals(y);
    assert !differ;

    var inRange := x.At(2);
    assert inRange == Ok(10);
    var outOfRange := x.At(3);
    assert outOfRange == OutOfRange;
    var negative := x.At(-1);
    assert negative == OutOfRange;
  }

  /** The sum of squares of `norm` is 9 for (1, 2, 2) and unchanged by sign flips. */
  method NormScenario() {
    var v1 := new NumVector(3, [1, 2, 2]);
    var v2 := new NumVector(3, [1, -2, 2]);
    var v3 := new NumVector(3, [-1, -2, -2]);
    var s1 := v1.SumOfSquares();
    var s2 := v2.SumOfSquares();
    var s3 := v3.SumOfSquares();
    SquaredSumSignFlips(v1.Elems(), v2.Elems());
    SquaredSumSignFlips(v1.Elems(), v3.Elems());
    DotOfThree(v1.Elems(), v1.Elems());
    assert s1 == 9 && s2 == s1 && s3 == s1;
  }

  /** `dot` on three pairs, one of them brace-initialised with missing zeros. */
  method DotScenario() {
    var a := new NumVector(3, [1, 2, 3]);
    var b := new NumVector(3, [4, -5, 6]);
    var ab := Vectors.Dot(a, b);
    assert ab == 12 by { DotOfThree(a.Elems(), b.Elems()); }
    var c := new NumVector(3, [-4, -9]);
    var d := new NumVector(3, [-1, 2]);
    var cd := Vectors.Dot(c, d);
    assert cd == -14 by { DotOfThree(c.Elems(), d.Elems()); }
    var e := new NumVector(3, [6, -1, 3]);
    var f := new NumVector(3, [4, 18, -2]);
    var ef := Vectors.Dot(e, f);
    assert ef == 0 by { DotOfThree(e.Elems(), f.Elems()); }
  }

  /** `cross` on two pairs, in both orders. */
  method CrossScenario() {
    var x := new NumVector(3, [-1, 2, 5]);
    var y := new NumVector(3, [4, 0, -3]);
    var xy := Cross(x, y);
    var yx := Cross(y, x);
    assert xy.Elems() == [-6, 17, -8];
    var commute := xy.Equals(yx);
    assert !commute by { assert yx.Elems() == [6, -17, 8]; }

    var u := new NumVector(3, [0, 2, 1]);
    var v := new NumVector(3, [3, -1, 0]);
    var uv := Cross(u, v);
    var vu := Cross(v, u);
    assert uv.Elems() == [1, 3, -6] && vu.Elems() == [-1, -3, 6];
  }

  /** The three vector constructors agree with the coefficient constructor. */
  lemma ConstructorScenario()
    ensures FromRealImag(10, [2, 3, 4]) == Quaternion(10, 2, 3, 4)
    ensures FromVector([10, 2, 3, 4]) == Quaternion(10, 2, 3, 4)
    ensures FromImag([2, 3, 4]) == Quaternion(0, 2, 3, 4)
    ensures Quaternion(5) == Quaternion(5, 0, 0, 0) && Quaternion() == Quaternion(0, 0, 0, 0)
  {
  }

  /** The basis quaternions r = 1, i, j and k. */
  const R := Quaternion(1, 0, 0, 0)
  const I := Quaternion(0, 1, 0, 0)
  const J := Quaternion(0, 0, 1, 0)
  const K := Quaternion(0, 0, 0, 1)

  /** The Hamilton basis squares: r·r = r and i·i = j·j = k·k = −r. */
  lemma HamiltonSquares()
    ensures Mul(R, R) == R
    ensures Mul(I, I) == R.Negate() && Mul(J, J) == Mul(I, I) && Mul(J, J) == Mul(K, K)
  {
    UnitSquare(I);
    UnitSquare(J);
    UnitSquare(K);
    MulComponents(R, R);
  }

  /** A unit imaginary basis element squares to −1. */
  lemma UnitSquare(q: Quaternion)
    requires q == I || q == J || q == K
    ensures Mul(q, q) == R.Negate()
  {
    MulComponents(q, q);
  }

  /** The Hamilton basis products: i·j = k, j·i = −k and (i·j)·k = −r. */
  lemma HamiltonProducts()
    ensures Mul(I, J) == K && Mul(J, I) == K.Negate()
    ensures Mul(Mul(I, J), K) == R.Negate()
  {
    assert K.Negate() == Quaternion(0, 0, 0, -1);
    assert R.Negate() == Quaternion(-1, 0, 0, 0);
    assert Mul(I, J) == K by { MulComponents(I, J); }
    assert Mul(J, I) == Quaternion(0, 0, 0, -1) by { MulComponents(J, I); }
    assert Mul(K, K) == Quaternion(-1, 0, 0, 0) by { MulComponents(K, K); }
  }

  /** The product is not commutative. */
  lemma HamiltonExamples()
    ensures Mul(Quaternion(1, 1, 1, 1), J) == Quaternion(-1, -1, 1, 1)
    ensures Mul(Quaternion(1, 2, 8, -2), Quaternion(0, 3, 2, 11)) == Quaternion(0, 95, -26, -9)
    ensures Mul(Quaternion(0, 3, 2, 11), Quaternion(1, 2, 8, -2)) == Quaternion(0, -89, 30, 31)
  {
    MulComponents(Quaternion(1, 1, 1, 1), J);
    MulComponents(Quaternion(1, 2, 8, -2), Quaternion(0, 3, 2, 11));
    MulComponents(Quaternion(0, 3, 2, 11), Quaternion(1, 2, 8, -2));
  }

  /** The conjugate of i is its negation. */
  lemma ConjugateOfUnit()
    ensures I.Conjugate() == I.Negate()
  {
    assert I.Negate() == Quaternion(0, -1, 0, 0);
  }

  /** The conjugate of (1, 1, 1, 1) negates the three imaginary coefficients. */
  lemma ConjugateOfOnes()
    ensures Quaternion(1, 1, 1, 1).Conjugate() == Quaternion(1, -1, -1, -1)
  {
  }

  /** `s == t` fails for (5, 10, 15, 55) and (5, 10, 15.2, 55) whenever the band is narrower than 0.2. */
  lemma ComparisonExample(epsilon: real)
    requires epsilon < 0.2
    ensures !ApproxEqual(RealQuaternion(5.0, 10.0, 15.0, 55.0), RealQuaternion(5.0, 10.0, 15.2, 55.0), epsilon)
  {
  }

  /** `q * inverse(q) == 1` for q = (20, −4, 2, 5), under any band that is not negative. */
  lemma InverseExample(epsilon: real)
    requires epsilon >= 0.0
    ensures ToReal(Quaternion(20, -4, 2, 5)).SquaredSum() == 445.0
    ensures ApproxEqual(RealMul(ToReal(Quaternion(20, -4, 2, 5)), ToReal(Quaternion(20, -4, 2, 5)).Inverse()), One(), epsilon)
  {
    ApproxEqualProperties(One(), One(), epsilon);
  }
}
