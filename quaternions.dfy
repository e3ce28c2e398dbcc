/** The quaternion `quaternion<T>`: four coefficients (a, i, j, k) standing
    for a + i·i + j·j + k·k, built on the vector algebra of `Vectors`.

    `Quaternion` is the integer instantiation: vector-delegating arithmetic,
    equality, the Hamilton product and the quaternion `dot`.  `RealQuaternion`
    is the instantiation over a field, where `inverse` makes sense; its
    Hamilton product is the same expression with `dot` and `cross` written out
    for three components, and `MulEmbeds` proves the two instantiations agree. */
module Quaternions {
  import opened Operators
  import opened Vectors

  /** The imaginary part (i, j, k) returned by `imag()`. */
  datatype ImagPart = ImagPart(i: int, j: int, k: int) {
    function AsVector(): (v: seq<int>)
      ensures |v| == 3
    {
      [i, j, k]
    }
  }

  /** The first constructor: four coefficients, each defaulting to zero. */
  datatype Quaternion = Quaternion(a: int := 0, i: int := 0, j: int := 0, k: int := 0) {

    /** The coefficients in the order (real, i, j, k). */
    function AsVector(): (v: seq<int>)
      ensures |v| == 4
    {
      [a, i, j, k]
    }

    function Real(): int { a }

    function Imag(): ImagPart { ImagPart(Qi(), Qj(), Qk()) }

    function Q0(): int { a }
    function Qi(): int { i }
    function Qj(): int { j }
    function Qk(): int { k }

    /** Binary `+`: vector addition of the two coefficient vectors. */
    function Plus(other: Quaternion): (r: Quaternion)
      ensures r.AsVector() == Sum(AsVector(), other.AsVector())
      ensures r == Quaternion(a + other.a, i + other.i, j + other.j, k + other.k)
    {
      FromVector(Sum(AsVector(), other.AsVector()))
    }

    /** Binary `-`: vector subtraction of the two coefficient vectors. */
    function Minus(other: Quaternion): (r: Quaternion)
      ensures r.AsVector() == Difference(AsVector(), other.AsVector())
      ensures r == Quaternion(a - other.a, i - other.i, j - other.j, k - other.k)
    {
      FromVector(Difference(AsVector(), other.AsVector()))
    }

    /** Unary `-`: agrees with the vector negation of the coefficients. */
    function Negate(): (r: Quaternion)
      ensures r.AsVector() == Negation(AsVector())
    {
      Quaternion(-a, -i, -j, -k)
    }

    /** `conjugate`: same real part, negated imaginary part. */
    function Conjugate(): (r: Quaternion)
      ensures r.Real() == Real()
      ensures r.Imag().AsVector() == Negation(Imag().AsVector())
    {
      Quaternion(Q0(), -Qi(), -Qj(), -Qk())
    }
  }

  /** The second constructor: a real part and a three-element imaginary vector. */
  function FromRealImag(a: int, imag: seq<int>): (q: Quaternion)
    requires |imag| == 3
    ensures q.Real() == a && q.Imag().AsVector() == imag
  {
    Quaternion(a, imag[0], imag[1], imag[2])
  }

  /** The third constructor: an imaginary vector alone; the real part is zero. */
  function FromImag(imag: seq<int>): (q: Quaternion)
    requires |imag| == 3
    ensures q.Real() == 0 && q.Imag().AsVector() == imag
  {
    Quaternion(0, imag[0], imag[1], imag[2])
  }

  /** The fourth constructor: a four-element vector (real, i, j, k). */
  function FromVector(v: seq<int>): (q: Quaternion)
    requires |v| == 4
    ensures q.AsVector() == v
  {
    Quaternion(v[0], v[1], v[2], v[3])
  }

  /** `as_vector` loses nothing: the fourth constructor rebuilds the quaternion. */
  lemma AsVectorRoundTrip(q: Quaternion)
    ensures FromVector(q.AsVector()) == q
  {
  }

  /** The accessors read the coefficients in the order of `as_vector`. */
  lemma AccessorsAgree(q: Quaternion)
    ensures q.AsVector() == [q.Q0(), q.Qi(), q.Qj(), q.Qk()]
    ensures q.Real() == q.Q0()
    ensures q.Imag().AsVector() == q.AsVector()[1..]
    ensures FromRealImag(q.Real(), q.Imag().AsVector()) == q
  {
  }

  /** The constructors from vectors are the coefficient constructor. */
  lemma ConstructorsAgree(a: int, imag: seq<int>)
    requires |imag| == 3
    ensures FromRealImag(a, imag) == Quaternion(a, imag[0], imag[1], imag[2])
    ensures FromImag(imag) == FromRealImag(0, imag)
    ensures FromVector([a] + imag) == FromRealImag(a, imag)
  {
  }

  /** `==`: every coefficient compared with the scalar comparison. */
  predicate Equal(lhs: Quaternion, rhs: Quaternion) {
    IsEqualExact(lhs.Q0(), rhs.Q0()) && IsEqualExact(lhs.Qi(), rhs.Qi()) &&
    IsEqualExact(lhs.Qj(), rhs.Qj()) && IsEqualExact(lhs.Qk(), rhs.Qk())
  }

  /** For integer coefficients `==` is equality, and it agrees with the
      vector comparison of the coefficient vectors. */
  lemma EqualIsEquality(lhs: Quaternion, rhs: Quaternion)
    ensures Equal(lhs, rhs) <==> lhs == rhs
    ensures Equal(lhs, rhs) <==> AllEqual(lhs.AsVector(), rhs.AsVector())
  {
    AllEqualIsEquality(lhs.AsVector(), rhs.AsVector());
    if lhs.AsVector() == rhs.AsVector() {
      AsVectorRoundTrip(lhs);
      AsVectorRoundTrip(rhs);
    }
  }

  /** `quaternion * scalar`: vector scaling of the coefficient vector. */
  function Times(q: Quaternion, scalar: int): (r: Quaternion)
    ensures r.AsVector() == Scaled(q.AsVector(), scalar)
    ensures r == Quaternion(q.a * scalar, q.i * scalar, q.j * scalar, q.k * scalar)
  {
    FromVector(Scaled(q.AsVector(), scalar))
  }

  /** `scalar * quaternion`: defined as `quaternion * scalar`. */
  function TimesLeft(scalar: int, q: Quaternion): (r: Quaternion)
    ensures r == Quaternion(scalar * q.a, scalar * q.i, scalar * q.j, scalar * q.k)
  {
    Times(q, scalar)
  }

  /** `dot` on quaternions: the vector dot product of the coefficient vectors,
      returned as the real part of a quaternion whose imaginary part is zero. */
  function Dot(lhs: Quaternion, rhs: Quaternion): (d: Quaternion)
    ensures d.Imag() == ImagPart(0, 0, 0)
    ensures d.Real() == DotProduct(rhs.AsVector(), lhs.AsVector())
  {
    DotSymmetric(lhs.AsVector(), rhs.AsVector());
    Quaternion(DotProduct(lhs.AsVector(), rhs.AsVector()))
  }

  /** The quaternion dot product is the sum of the coefficient products. */
  lemma DotComponents(lhs: Quaternion, rhs: Quaternion)
    ensures Dot(lhs, rhs) == Quaternion(lhs.a * rhs.a + lhs.i * rhs.i + lhs.j * rhs.j + lhs.k * rhs.k, 0, 0, 0)
    ensures Dot(lhs, rhs) == Dot(rhs, lhs)
  {
    var l, r := lhs.AsVector(), rhs.AsVector();
    DotOfThree(l[..3], r[..3]);
    DotSymmetric(l, r);
  }

  /** The Hamilton product: real part `la·ra − dot(limag, rimag)`, imaginary
      part `la·rimag + ra·limag + cross(limag, rimag)`. */
  function Mul(lhs: Quaternion, rhs: Quaternion): Quaternion {
    var li := lhs.Imag().AsVector();
    var ri := rhs.Imag().AsVector();
    var realPart := lhs.Real() * rhs.Real() - DotProduct(li, ri);
    // `lhs.real() * rimag` and `rhs.real() * limag` are `scalar * vector`,
    // which the source defines as `vector * scalar`.
    var imagPart := Sum(Sum(Scaled(ri, lhs.Real()), Scaled(li, rhs.Real())), CrossProduct(li, ri));
    FromRealImag(realPart, imagPart)
  }

  /** The Hamilton product written out coefficient by coefficient. */
  lemma MulComponents(lhs: Quaternion, rhs: Quaternion)
    ensures Mul(lhs, rhs) == Quaternion(
      lhs.a * rhs.a - (lhs.i * rhs.i + lhs.j * rhs.j + lhs.k * rhs.k),
      lhs.a * rhs.i + rhs.a * lhs.i + (lhs.j * rhs.k - lhs.k * rhs.j),
      lhs.a * rhs.j + rhs.a * lhs.j + (lhs.k * rhs.i - lhs.i * rhs.k),
      lhs.a * rhs.k + rhs.a * lhs.k + (lhs.i * rhs.j - lhs.j * rhs.i))
  {
    DotOfThree(lhs.Imag().AsVector(), rhs.Imag().AsVector());
  }

  /** `q * conjugate(q)` is the real quaternion of the sum of squares. */
  lemma MulConjugate(q: Quaternion)
    ensures Mul(q, q.Conjugate()) == Quaternion(SquaredSum(q.AsVector()), 0, 0, 0)
    ensures Mul(q.Conjugate(), q) == Quaternion(SquaredSum(q.AsVector()), 0, 0, 0)
  {
    MulComponents(q, q.Conjugate());
    MulComponents(q.Conjugate(), q);
    SquaredSumIsSelfDot(q.AsVector());
    DotOfFour(q.AsVector(), q.AsVector());
  }

  lemma DotOfFour(a: seq<int>, b: seq<int>)
    requires |a| == 4 && |b| == 4
    ensures DotProduct(a, b) == a[0] * b[0] + a[1] * b[1] + a[2] * b[2] + a[3] * b[3]
  {
    DotOfThree(a[..3], b[..3]);
  }

  /** `conjugate` is an involution. */
  lemma ConjugateInvolution(q: Quaternion)
    ensures q.Conjugate().Conjugate() == q
  {
  }

  lemma PlusCommutes(p: Quaternion, q: Quaternion)
    ensures p.Plus(q) == q.Plus(p)
  {
  }

  lemma MinusUndoesPlus(p: Quaternion, q: Quaternion)
    ensures p.Plus(q).Minus(q) == p
    ensures q.Minus(p) == p.Minus(q).Negate()
  {
  }

  lemma ScalarCommutes(q: Quaternion, s: int)
    ensures TimesLeft(s, q) == Times(q, s)
    ensures Times(q, -1) == q.Negate()
  {
  }

  // ---------------------------------------------------------------------
  // The instantiation over a field
  // ---------------------------------------------------------------------

  datatype RealQuaternion = RealQuaternion(a: real := 0.0, i: real := 0.0, j: real := 0.0, k: real := 0.0) {

    /** `q0² + qi² + qj² + qk²`, as computed by `inverse`. */
    function SquaredSum(): real {
      a * a + i * i + j * j + k * k
    }

    function Conjugate(): RealQuaternion {
      RealQuaternion(a, -i, -j, -k)
    }

    /** `quaternion * scalar`. */
    function Times(scalar: real): RealQuaternion {
      RealQuaternion(a * scalar, i * scalar, j * scalar, k * scalar)
    }

    /** `inverse`: the conjugate scaled by `1 / squared_sum`.  The source does
        not guard a zero squared sum; over the reals it has no inverse. */
    function Inverse(): (r: RealQuaternion)
      requires SquaredSum() != 0.0
      ensures RealMul(this, r) == One()
      ensures RealMul(r, this) == One()
    {
      InverseIsInverse(this);
      Conjugate().Times(1.0 / SquaredSum())
    }
  }

  function One(): RealQuaternion {
    RealQuaternion(1.0)
  }

  /** The embedding of an integer quaternion into the reals. */
  function ToReal(q: Quaternion): RealQuaternion {
    RealQuaternion(q.a as real, q.i as real, q.j as real, q.k as real)
  }

  /** The Hamilton product over the reals, with `dot` and `cross` of the
      imaginary parts written out for three components. */
  function RealMul(lhs: RealQuaternion, rhs: RealQuaternion): RealQuaternion {
    RealQuaternion(
      lhs.a * rhs.a - (lhs.i * rhs.i + lhs.j * rhs.j + lhs.k * rhs.k),
      lhs.a * rhs.i + rhs.a * lhs.i + (lhs.j * rhs.k - lhs.k * rhs.j),
      lhs.a * rhs.j + rhs.a * lhs.j + (lhs.k * rhs.i - lhs.i * rhs.k),
      lhs.a * rhs.k + rhs.a * lhs.k + (lhs.i * rhs.j - lhs.j * rhs.i))
  }

  /** The two instantiations of the Hamilton product agree on integer quaternions. */
  lemma MulEmbeds(p: Quaternion, q: Quaternion)
    ensures ToReal(Mul(p, q)) == RealMul(ToReal(p), ToReal(q))
  {
    MulComponents(p, q);
  }

  /** Over the reals too, `q * conjugate(q)` is the real quaternion of the squared sum. */
  lemma RealMulConjugate(q: RealQuaternion)
    ensures RealMul(q, q.Conjugate()) == RealQuaternion(q.SquaredSum())
    ensures RealMul(q.Conjugate(), q) == RealQuaternion(q.SquaredSum())
  {
  }

  /** The squared sum of an integer quaternion, taken over the reals, is the
      vector sum of squares of its coefficients; it is positive for every
      quaternion other than zero, so `inverse` is defined for all of those. */
  lemma InverseDefinedForNonzero(q: Quaternion)
    ensures ToReal(q).SquaredSum() == SquaredSum(q.AsVector()) as real
    ensures q != Quaternion() ==> ToReal(q).SquaredSum() > 0.0
  {
    SquaredSumIsSelfDot(q.AsVector());
    DotOfFour(q.AsVector(), q.AsVector());
    var a, i, j, k := q.a, q.i, q.j, q.k;
    assert (a * a + i * i + j * j + k * k) as real ==
      (a as real) * (a as real) + (i as real) * (i as real) + (j as real) * (j as real) + (k as real) * (k as real);
    if q != Quaternion() {
      assert a * a >= 0 && i * i >= 0 && j * j >= 0 && k * k >= 0;
      if a != 0 {
        assert a * a > 0;
      } else if i != 0 {
        assert i * i > 0;
      } else if j != 0 {
        assert j * j > 0;
      } else {
        assert k * k > 0;
      }
    }
  }

  /** The squared sum computed by `inverse` is never negative, and it is zero
      only for the zero quaternion. */
  lemma RealSquaredSumPositive(q: RealQuaternion)
    ensures q.SquaredSum() >= 0.0
    ensures q.SquaredSum() == 0.0 <==> q == RealQuaternion()
  {
    SquareSign(q.a);
    SquareSign(q.i);
    SquareSign(q.j);
    SquareSign(q.k);
    assert q.SquaredSum() == Square(q.a) + Square(q.i) + Square(q.j) + Square(q.k);
  }

  /** `x * x`, named so that the sign facts below are stated about one term. */
  function Square(x: real): real {
    x * x
  }

  /** A square is never negative, and it is positive for every nonzero value. */
  lemma SquareSign(x: real)
    ensures Square(x) >= 0.0
    ensures x != 0.0 ==> Square(x) > 0.0
  {
    if x > 0.0 {
      PositiveSquare(x);
    } else if x < 0.0 {
      PositiveSquare(-x);
      assert Square(x) == Square(-x);
    }
  }

  lemma PositiveSquare(y: real)
    requires y > 0.0
    ensures Square(y) > 0.0
  {
    calc {
      Square(y);
      y * y;
    > { assert y * y > 0.0 * y; }
      0.0;
    }
  }

  /** Every quaternion other than zero has `inverse` as a two-sided inverse. */
  lemma InverseOfNonzero(q: RealQuaternion)
    requires q != RealQuaternion()
    ensures q.SquaredSum() > 0.0
    ensures RealMul(q, q.Inverse()) == One() && RealMul(q.Inverse(), q) == One()
  {
    RealSquaredSumPositive(q);
  }

  /** `q * inverse(q) == 1` and `inverse(q) * q == 1`. */
  lemma InverseIsInverse(q: RealQuaternion)
    requires q.SquaredSum() != 0.0
    ensures RealMul(q, q.Conjugate().Times(1.0 / q.SquaredSum())) == One()
    ensures RealMul(q.Conjugate().Times(1.0 / q.SquaredSum()), q) == One()
  {
    var s := q.SquaredSum();
    var c := 1.0 / s;
    assert s * c == 1.0;
    InverseIdentity(q.a, q.i, q.j, q.k, s, c);
  }

  /** The coefficients of `q * (conjugate(q) * c)` and `(conjugate(q) * c) * q`
      on plain variables, for a `c` that inverts the squared sum `s`. */
  lemma InverseIdentity(a: real, i: real, j: real, k: real, s: real, c: real)
    requires s == a * a + i * i + j * j + k * k && s * c == 1.0
    ensures a * (a * c) - (i * ((-i) * c) + j * ((-j) * c) + k * ((-k) * c)) == 1.0
    ensures a * ((-i) * c) + (a * c) * i + (j * ((-k) * c) - k * ((-j) * c)) == 0.0
    ensures a * ((-j) * c) + (a * c) * j + (k * ((-i) * c) - i * ((-k) * c)) == 0.0
    ensures a * ((-k) * c) + (a * c) * k + (i * ((-j) * c) - j * ((-i) * c)) == 0.0
    ensures (a * c) * a - (((-i) * c) * i + ((-j) * c) * j + ((-k) * c) * k) == 1.0
    ensures (a * c) * i + a * ((-i) * c) + (((-j) * c) * k - ((-k) * c) * j) == 0.0
    ensures (a * c) * j + a * ((-j) * c) + (((-k) * c) * i - ((-i) * c) * k) == 0.0
    ensures (a * c) * k + a * ((-k) * c) + (((-i) * c) * j - ((-j) * c) * i) == 0.0
  {
  }

  /** `==` over the reals: every coefficient within the tolerance band. */
  predicate ApproxEqual(lhs: RealQuaternion, rhs: RealQuaternion, epsilon: real) {
    IsEqualApprox(lhs.a, rhs.a, epsilon) && IsEqualApprox(lhs.i, rhs.i, epsilon) &&
    IsEqualApprox(lhs.j, rhs.j, epsilon) && IsEqualApprox(lhs.k, rhs.k, epsilon)
  }

  lemma ApproxEqualProperties(p: RealQuaternion, q: RealQuaternion, epsilon: real)
    ensures ApproxEqual(p, q, epsilon) == ApproxEqual(q, p, epsilon)
    ensures ApproxEqual(p, p, epsilon) <==> epsilon >= 0.0
  {
  }
}
