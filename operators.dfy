/** Scalar comparison used by every equality operator of the library.

    `is_equal` has two branches chosen at compile time: exact scalar types
    (the integers) compare with `==`; approximate types compare within a
    symmetric tolerance band of width `epsilon`.  The integer branch is modelled
    over `int`, the tolerance band over mathematical `real`. */
module Operators {

  /** The exact branch: used for integer scalars. */
  predicate IsEqualExact(lhs: int, rhs: int) {
    lhs == rhs
  }

  /** The tolerance-band branch: used for floating-point scalars. */
  predicate IsEqualApprox(lhs: real, rhs: real, epsilon: real) {
    lhs <= rhs + epsilon && rhs <= lhs + epsilon
  }

  function Abs(x: real): (r: real)
    ensures r >= 0.0 && (r == x || r == -x)
  {
    if x < 0.0 then -x else x
  }

  /** The exact branch is equality, and it is the tolerance band of width zero. */
  lemma ExactIsZeroBand(lhs: int, rhs: int)
    ensures IsEqualExact(lhs, rhs) <==> lhs == rhs
    ensures IsEqualExact(lhs, rhs) <==> IsEqualApprox(lhs as real, rhs as real, 0.0)
  {
  }

  /** The exact branch is reflexive and commutative. */
  lemma ExactReflexiveSymmetric(x: int, y: int)
    ensures IsEqualExact(x, x)
    ensures IsEqualExact(x, y) == IsEqualExact(y, x)
  {
  }

  /** The band is exactly "the distance is at most epsilon". */
  lemma ApproxIsDistance(lhs: real, rhs: real, epsilon: real)
    ensures IsEqualApprox(lhs, rhs, epsilon) <==> Abs(lhs - rhs) <= epsilon
  {
  }

  lemma ApproxSymmetric(lhs: real, rhs: real, epsilon: real)
    ensures IsEqualApprox(lhs, rhs, epsilon) == IsEqualApprox(rhs, lhs, epsilon)
  {
  }

  /** A value is within the band of itself exactly when the band is not negative. */
  lemma ApproxReflexive(x: real, epsilon: real)
    ensures IsEqualApprox(x, x, epsilon) <==> epsilon >= 0.0
  {
  }

  /** The band includes its edges and nothing beyond them. */
  lemma ApproxEdges(x: real, epsilon: real, delta: real)
    requires epsilon >= 0.0
    ensures IsEqualApprox(x, x + epsilon, epsilon)
    ensures IsEqualApprox(x, x - epsilon, epsilon)
    ensures delta > 0.0 ==> !IsEqualApprox(x, x + epsilon + delta, epsilon)
  {
  }
}
