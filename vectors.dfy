/** The fixed-size numeric vector `num_vector<T, N>` with integer scalars.

    The value of a vector is a `seq<int>` of length N; the functions of this
    module define the algebra on those values.  The class `NumVector` is the
    struct itself: its `elems` array plays the part of the `std::array` member,
    and its methods are the struct's loops, each proved against the function
    that defines its result.  The size N, a template argument in the source,
    becomes a length precondition wherever two vectors meet. */
module Vectors {
  import opened Operators

  /** The outcome of a bounds-checked access: `std::array::at` throws
      `std::out_of_range` for an index outside [0, N). */
  datatype Result<T> = Ok(value: T) | OutOfRange

  // ---------------------------------------------------------------------
  // The vector algebra on values
  // ---------------------------------------------------------------------

  function Zeros(n: nat): seq<int> {
    seq(n, _ => 0)
  }

  /** The value of a brace-initialised vector: missing trailing elements are zero. */
  function Padded(init: seq<int>, n: nat): seq<int>
    requires |init| <= n
  {
    init + Zeros(n - |init|)
  }

  /** Element-wise equality under the scalar comparison. */
  predicate AllEqual(a: seq<int>, b: seq<int>)
    requires |a| == |b|
  {
    forall i :: 0 <= i < |a| ==> IsEqualExact(a[i], b[i])
  }

  function Sum(a: seq<int>, b: seq<int>): seq<int>
    requires |a| == |b|
  {
    seq(|a|, i requires 0 <= i < |a| => a[i] + b[i])
  }

  function Difference(a: seq<int>, b: seq<int>): seq<int>
    requires |a| == |b|
  {
    seq(|a|, i requires 0 <= i < |a| => a[i] - b[i])
  }

  function Negation(a: seq<int>): seq<int> {
    seq(|a|, i requires 0 <= i < |a| => -a[i])
  }

  function Scaled(a: seq<int>, scalar: int): seq<int> {
    seq(|a|, i requires 0 <= i < |a| => a[i] * scalar)
  }

  /** The sum of `a[i] * b[i]`, accumulated from index 0 upwards. */
  function DotProduct(a: seq<int>, b: seq<int>): int
    requires |a| == |b|
    decreases |a|
  {
    if |a| == 0 then 0
    else DotProduct(a[..|a| - 1], b[..|b| - 1]) + a[|a| - 1] * b[|b| - 1]
  }

  function CrossProduct(a: seq<int>, b: seq<int>): seq<int>
    requires |a| == 3 && |b| == 3
  {
    [a[1] * b[2] - a[2] * b[1],
     a[2] * b[0] - a[0] * b[2],
     a[0] * b[1] - a[1] * b[0]]
  }

  /** The sum of `e * e` over the elements: the square of the Euclidean norm. */
  function SquaredSum(a: seq<int>): int
    decreases |a|
  {
    if |a| == 0 then 0 else SquaredSum(a[..|a| - 1]) + a[|a| - 1] * a[|a| - 1]
  }

  // ---------------------------------------------------------------------
  // Properties of the algebra
  // ---------------------------------------------------------------------

  /** Element-wise comparison under `is_equal` is equality of the values. */
  lemma AllEqualIsEquality(a: seq<int>, b: seq<int>)
    requires |a| == |b|
    ensures AllEqual(a, b) <==> a == b
  {
    if AllEqual(a, b) {
      assert forall i :: 0 <= i < |a| ==> a[i] == b[i];
    }
  }

  lemma SumCommutes(a: seq<int>, b: seq<int>)
    requires |a| == |b|
    ensures Sum(a, b) == Sum(b, a)
  {
  }

  /** Subtracting what was added gives back the original vector. */
  lemma DifferenceUndoesSum(a: seq<int>, b: seq<int>)
    requires |a| == |b|
    ensures Difference(Sum(a, b), b) == a
  {
  }

  lemma DifferenceAntisymmetric(a: seq<int>, b: seq<int>)
    requires |a| == |b|
    ensures Difference(b, a) == Negation(Difference(a, b))
  {
  }

  lemma NegationInvolution(a: seq<int>)
    ensures Negation(Negation(a)) == a
  {
  }

  lemma {:induction false} DotSymmetric(a: seq<int>, b: seq<int>)
    requires |a| == |b|
    ensures DotProduct(a, b) == DotProduct(b, a)
  {
    if |a| > 0 {
      DotSymmetric(a[..|a| - 1], b[..|b| - 1]);
    }
  }

  /** The dot product is the sum of the element-wise products over every index:
      appending one pair of elements adds their product. */
  lemma {:induction false} DotAppend(a: seq<int>, b: seq<int>, x: int, y: int)
    requires |a| == |b|
    ensures DotProduct(a + [x], b + [y]) == DotProduct(a, b) + x * y
  {
    assert (a + [x])[..|a|] == a;
    assert (b + [y])[..|b|] == b;
  }

  lemma DotOfThree(a: seq<int>, b: seq<int>)
    requires |a| == 3 && |b| == 3
    ensures DotProduct(a, b) == a[0] * b[0] + a[1] * b[1] + a[2] * b[2]
  {
    assert a[..2][..1] == [a[0]];
    assert b[..2][..1] == [b[0]];
    assert DotProduct([a[0]], [b[0]]) == a[0] * b[0];
  }

  /** The sum of squares is the dot product of a vector with itself. */
  lemma {:induction false} SquaredSumIsSelfDot(a: seq<int>)
    ensures SquaredSum(a) == DotProduct(a, a)
  {
    if |a| > 0 {
      SquaredSumIsSelfDot(a[..|a| - 1]);
    }
  }

  /** The sum of squares is never negative, and is zero only for the zero vector. */
  lemma {:induction false} SquaredSumZero(a: seq<int>)
    ensures SquaredSum(a) >= 0
    ensures SquaredSum(a) == 0 <==> a == Zeros(|a|)
  {
    if |a| > 0 {
      var n := |a| - 1;
      SquaredSumZero(a[..n]);
      assert a == a[..n] + [a[n]];
      assert Zeros(|a|) == Zeros(n) + [0];
      if SquaredSum(a) == 0 {
        assert a[n] * a[n] == 0;
      }
    }
  }

  /** Flipping the sign of any elements leaves the sum of squares unchanged. */
  lemma {:induction false} SquaredSumSignFlips(a: seq<int>, b: seq<int>)
    requires |a| == |b|
    requires forall i :: 0 <= i < |a| ==> b[i] == a[i] || b[i] == -a[i]
    ensures SquaredSum(a) == SquaredSum(b)
  {
    if |a| > 0 {
      var n := |a| - 1;
      SquaredSumSignFlips(a[..n], b[..n]);
      assert b[n] * b[n] == a[n] * a[n];
    }
  }

  lemma CrossAnticommutative(a: seq<int>, b: seq<int>)
    requires |a| == 3 && |b| == 3
    ensures CrossProduct(a, b) == Negation(CrossProduct(b, a))
  {
  }

  // ---------------------------------------------------------------------
  // The struct and its loops
  // ---------------------------------------------------------------------

  class NumVector {
    /** The `std::array<T, N>` member; its length is N. */
    const elems: array<int>

    function Elems(): (s: seq<int>)
      reads elems
      ensures |s| == elems.Length
    {
      elems[..]
    }

    /** Brace initialisation `num_vector<int, N> v = {init...}`: the listed
        elements first, every remaining element zero. */
    constructor (n: nat, init: seq<int>)
      requires |init| <= n
      ensures fresh(elems)
      ensures Elems() == Padded(init, n)
    {
      elems := new int[n](i => if 0 <= i < |init| then init[i] else 0);
    }

    /** `operator==`: compares index by index and stops at the first mismatch. */
    method Equals(rhs: NumVector) returns (eq: bool)
      requires rhs.elems.Length == elems.Length
      ensures eq <==> forall i :: 0 <= i < elems.Length ==> IsEqualExact(elems[i], rhs.elems[i])
      ensures eq <==> Elems() == rhs.Elems()
    {
      for i := 0 to elems.Length
        invariant forall k :: 0 <= k < i ==> IsEqualExact(elems[k], rhs.elems[k])
      {
        if !IsEqualExact(elems[i], rhs.elems[i]) {
          return false;
        }
      }
      assert Elems() == rhs.Elems();
      return true;
    }

    /** `operator!=`: the negation of `operator==`. */
    method NotEquals(rhs: NumVector) returns (ne: bool)
      requires rhs.elems.Length == elems.Length
      ensures ne <==> exists i :: 0 <= i < elems.Length && !IsEqualExact(elems[i], rhs.elems[i])
      ensures ne <==> Elems() != rhs.Elems()
    {
      var eq := Equals(rhs);
      ne := !eq;
    }

    /** `operator[]` and `at` (read form): both go through the bounds check of
        `std::array::at`; the `int` index is out of range when negative too. */
    method At(index: int) returns (r: Result<int>)
      ensures 0 <= index < elems.Length ==> r == Ok(elems[index])
      ensures (index < 0 || elems.Length <= index) ==> r == OutOfRange
    {
      if 0 <= index < elems.Length {
        r := Ok(elems[index]);
      } else {
        r := OutOfRange;
      }
    }

    /** `operator[]` and `at` (write form, through the returned reference):
        the element at `index` becomes `x`, or nothing changes and the access
        reports out of range. */
    method AssignAt(index: int, x: int) returns (ok: bool)
      modifies elems
      ensures ok <==> 0 <= index < elems.Length
      ensures ok ==> Elems() == old(Elems())[index := x]
      ensures !ok ==> Elems() == old(Elems())
    {
      ok := 0 <= index < elems.Length;
      if ok {
        elems[index] := x;
      }
    }

    /** `fill`: every element becomes `value`; the size is that of the array. */
    method Fill(value: int)
      modifies elems
      ensures forall i :: 0 <= i < elems.Length ==> elems[i] == value
      ensures Elems() == seq(elems.Length, _ => value)
    {
      for i := 0 to elems.Length
        invariant forall k :: 0 <= k < i ==> elems[k] == value
      {
        elems[i] := value;
      }
    }

    /** Binary `operator+`: a new vector whose every element is the sum of
        the two elements at that index. */
    method Plus(other: NumVector) returns (sum: NumVector)
      requires other.elems.Length == elems.Length
      ensures fresh(sum.elems)
      ensures sum.Elems() == Sum(Elems(), other.Elems())
    {
      sum := new NumVector(elems.Length, []);
      for i := 0 to elems.Length
        invariant forall k :: 0 <= k < i ==> sum.elems[k] == elems[k] + other.elems[k]
      {
        sum.elems[i] := elems[i] + other.elems[i];
      }
    }

    /** Binary `operator-`. */
    method Minus(other: NumVector) returns (diff: NumVector)
      requires other.elems.Length == elems.Length
      ensures fresh(diff.elems)
      ensures diff.Elems() == Difference(Elems(), other.Elems())
    {
      diff := new NumVector(elems.Length, []);
      for i := 0 to elems.Length
        invariant forall k :: 0 <= k < i ==> diff.elems[k] == elems[k] - other.elems[k]
      {
        diff.elems[i] := elems[i] - other.elems[i];
      }
    }

    /** Unary `operator-`: the additive inverse. */
    method Negate() returns (inverse: NumVector)
      ensures fresh(inverse.elems)
      ensures inverse.Elems() == Negation(Elems())
    {
      inverse := new NumVector(elems.Length, []);
      for i := 0 to elems.Length
        invariant forall k :: 0 <= k < i ==> inverse.elems[k] == -elems[k]
      {
        inverse.elems[i] := -elems[i];
      }
    }

    /** The sum-of-squares loop of `norm`; the square root that follows it is
        not part of this model. */
    method SumOfSquares() returns (sum: int)
      ensures sum == SquaredSum(Elems())
      ensures sum == DotProduct(Elems(), Elems())
      ensures sum >= 0
    {
      sum := 0;
      for i := 0 to elems.Length
        invariant sum == SquaredSum(elems[..i])
      {
        assert elems[..i + 1][..i] == elems[..i];
        sum := sum + elems[i] * elems[i];
      }
      assert elems[..elems.Length] == Elems();
      SquaredSumIsSelfDot(Elems());
      SquaredSumZero(Elems());
    }
  }

  /** `vector * scalar`: `std::transform` writes `elem * scalar` into a new vector. */
  method Times(lhs: NumVector, scalar: int) returns (res: NumVector)
    ensures fresh(res.elems)
    ensures res.Elems() == Scaled(lhs.Elems(), scalar)
  {
    res := new NumVector(lhs.elems.Length, []);
    for i := 0 to lhs.elems.Length
      invariant forall k :: 0 <= k < i ==> res.elems[k] == lhs.elems[k] * scalar
    {
      res.elems[i] := lhs.elems[i] * scalar;
    }
  }

  /** `scalar * vector`: defined as `vector * scalar`, so each element is
      multiplied from the left as well. */
  method TimesLeft(scalar: int, rhs: NumVector) returns (res: NumVector)
    ensures fresh(res.elems)
    ensures res.Elems() == Scaled(rhs.Elems(), scalar)
    ensures forall i :: 0 <= i < rhs.elems.Length ==> res.elems[i] == scalar * rhs.elems[i]
  {
    res := Times(rhs, scalar);
  }

  /** `dot`: accumulates `lhs[i] * rhs[i]` from index 0 upwards. */
  method Dot(lhs: NumVector, rhs: NumVector) returns (ret: int)
    requires lhs.elems.Length == rhs.elems.Length
    ensures ret == DotProduct(lhs.Elems(), rhs.Elems())
    ensures ret == DotProduct(rhs.Elems(), lhs.Elems())
  {
    ret := 0;
    for i := 0 to lhs.elems.Length
      invariant ret == DotProduct(lhs.elems[..i], rhs.elems[..i])
    {
      DotAppend(lhs.elems[..i], rhs.elems[..i], lhs.elems[i], rhs.elems[i]);
      assert lhs.elems[..i + 1] == lhs.elems[..i] + [lhs.elems[i]];
      assert rhs.elems[..i + 1] == rhs.elems[..i] + [rhs.elems[i]];
      ret := ret + lhs.elems[i] * rhs.elems[i];
    }
    assert lhs.elems[..lhs.elems.Length] == lhs.Elems();
    assert rhs.elems[..rhs.elems.Length] == rhs.Elems();
    DotSymmetric(lhs.Elems(), rhs.Elems());
  }

  /** `cross`, defined for three-element vectors only: the three components
      are assigned one at a time. */
  method Cross(lhs: NumVector, rhs: NumVector) returns (ret: NumVector)
    requires lhs.elems.Length == 3 && rhs.elems.Length == 3
    ensures fresh(ret.elems)
    ensures ret.Elems() == CrossProduct(lhs.Elems(), rhs.Elems())
    ensures ret.Elems() == Negation(CrossProduct(rhs.Elems(), lhs.Elems()))
  {
    ret := new NumVector(3, []);
    ret.elems[0] := lhs.elems[1] * rhs.elems[2] - lhs.elems[2] * rhs.elems[1];
    ret.elems[1] := lhs.elems[2] * rhs.elems[0] - lhs.elems[0] * rhs.elems[2];
    ret.elems[2] := lhs.elems[0] * rhs.elems[1] - lhs.elems[1] * rhs.elems[0];
    CrossAnticommutative(lhs.Elems(), rhs.Elems());
  }
}
