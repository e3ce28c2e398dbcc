# Quaternions and fixed-size numeric vectors, in Dafny

This project models a small C++ header library with three parts:

- **`is_equal`** (`operators.hpp`), the scalar comparison used by every
  equality operator. Exact scalar types (the integers) compare with `==`.
  Approximate types compare within a symmetric tolerance band of width
  `epsilon`.
- **`num_vector<T, N>`** (`num_vector.hpp`), a struct around a fixed-size
  `std::array`. It has bounds-checked element access, `fill`, `==`/`!=`, `+`,
  `-`, unary `-`, scalar `*` on both sides, the sum of squares behind `norm`,
  and the free functions `dot` and `cross`.
- **`quaternion<T>`** (`quaternion.hpp`), four coefficients (a, i, j, k).
  It has four constructors and the accessors `as_vector`, `real`, `imag`,
  `q0`…`qk`. Its `+`, `-`, scalar `*` and `dot` go through the vector type.
  It also has unary `-`, `conjugate`, `inverse`, coefficient-wise `==` and the
  Hamilton product.

The Dafny modules follow the headers:

- `Operators` (`operators.dfy`) has the two branches of `is_equal`. The exact
  branch is over `int`; the tolerance band is over `real`.
- `Vectors` (`vectors.dfy`) has two layers:
  - Value functions on `seq<int>`: `Sum`, `Difference`, `Negation`, `Scaled`,
    `DotProduct`, `CrossProduct`, `SquaredSum`, with the algebra proved about
    them.
  - The class `NumVector`, whose elements live in an `array<int>` as in the
    struct's `std::array`. The struct's loops are methods with loop
    invariants, and each is proved against the value function it computes.
- `Quaternions` (`quaternions.dfy`) has two datatypes:
  - `Quaternion`, the integer instantiation. Its operations are written the
    way the source writes them, through the coefficient vectors and the
    vector functions.
  - `RealQuaternion`, the instantiation over a field, which is what `inverse`
    needs. `MulEmbeds` proves that its Hamilton product agrees with the
    integer one.
- `Scenarios` (`scenarios.dfy`) restates the concrete checks of `tests.cpp`:
  - Methods state the vector checks as calls of the `NumVector` methods: brace
    initialisation, `fill`, `==`, element access in and out of range, the sum
    of squares, `dot` and `cross`.
  - Lemmas cover the basis identities of the Hamilton product, conjugates, the
    failing comparison and `q * inverse(q) == 1`.

Modelling choices:

- The source throws `std::out_of_range` for an access outside `[0, N)`,
  negative indices included. `NumVector.At` returns `OutOfRange` in that case,
  and `NumVector.AssignAt` returns `false` and leaves the vector unchanged.
- Brace initialisation with fewer than N values (`{0}`, `{-4, -9}`) fills the
  remaining elements with zeros. The constructor of `NumVector` takes the
  given prefix and pads it that way.
- A value-initialised `num_vector<int, N>` (`= {}`, `{0}`) is zero-filled.
  The arithmetic operators instead start from the default-initialised
  `num_vector<T, N> sum;`, whose integer elements are indeterminate. Every
  element is written before it is read, so the result is the same. The model
  creates each result array zero-filled.
- The default `epsilon` of `is_equal` is `precision_boundary<T>()`, which is
  100 × machine epsilon. The model takes `epsilon` as an explicit parameter
  of the tolerance predicates.

## Model

| member | source | states |
|---|---|---|
| Operators.IsEqualExact | operators.hpp:22-23 | The exact branch of `is_equal`: `lhs == rhs`; its properties are stated by `ExactIsZeroBand` and `ExactReflexiveSymmetric` |
| Operators.IsEqualApprox | operators.hpp:24-25 | The tolerance branch of `is_equal`: `lhs <= rhs + epsilon && rhs <= lhs + epsilon`; its properties are stated by the `Approx…` lemmas |
| Operators.ExactIsZeroBand | operators.hpp:22-25 | For integers the exact branch holds exactly when `lhs == rhs`, which is the same as the tolerance band of width zero |
| Operators.ExactReflexiveSymmetric | operators.hpp:22-23 | The exact branch is reflexive and commutative |
| Operators.ApproxIsDistance | operators.hpp:25 | The tolerance band holds exactly when the absolute difference of `lhs` and `rhs` is at most `epsilon` |
| Operators.ApproxSymmetric | operators.hpp:25 | The tolerance band is commutative |
| Operators.ApproxReflexive | operators.hpp:25 | A value is within the band of itself exactly when `epsilon` is not negative |
| Operators.ApproxEdges | operators.hpp:25 | The band includes `x ± epsilon` and excludes everything beyond `x + epsilon` |
| Vectors.AllEqualIsEquality | num_vector.hpp:42-48 | Element-wise `is_equal` on two integer vectors of one length holds exactly when the vectors are equal |
| Vectors.SumCommutes | num_vector.hpp:69-75 | Vector `+` is commutative |
| Vectors.DifferenceUndoesSum | num_vector.hpp:69-83 | `(a + b) - b == a` |
| Vectors.DifferenceAntisymmetric | num_vector.hpp:77-91 | `b - a == -(a - b)` |
| Vectors.NegationInvolution | num_vector.hpp:85-91 | Unary `-` applied twice is the identity |
| Vectors.DotSymmetric | num_vector.hpp:133-140 | `dot(a, b) == dot(b, a)` |
| Vectors.DotAppend | num_vector.hpp:135-138 | Extending both vectors by one element adds the product of the new elements; this is the step of the accumulating loop |
| Vectors.DotOfThree | num_vector.hpp:133-140 | For three elements `dot` is `a0·b0 + a1·b1 + a2·b2` |
| Vectors.SquaredSumIsSelfDot | num_vector.hpp:96-99 | The sum of squares accumulated by `norm` equals `dot(v, v)` |
| Vectors.SquaredSumZero | num_vector.hpp:96-99 | The sum of squares is never negative, and it is zero exactly for the zero vector |
| Vectors.SquaredSumSignFlips | num_vector.hpp:96-99 | Changing the signs of any elements leaves the sum of squares unchanged |
| Vectors.CrossAnticommutative | num_vector.hpp:146-153 | `cross(a, b) == -cross(b, a)` |
| Vectors.NumVector.constructor | num_vector.hpp:28-29 | Brace initialisation: the vector has N elements, the given ones first and zeros after them |
| Vectors.NumVector.Equals | num_vector.hpp:42-48 | The comparison loop returns true exactly when `is_equal` holds at every index, which is equality of the element sequences |
| Vectors.NumVector.NotEquals | num_vector.hpp:49 | `!=` is true exactly when some index differs, and it is the negation of `==` |
| Vectors.NumVector.At | num_vector.hpp:52-55 | An index in `[0, N)` yields that element; any other index, negative ones included, yields the out-of-range error |
| Vectors.NumVector.AssignAt | num_vector.hpp:52-54 | A write through `[]`/`at` succeeds exactly for an index in range and changes only that element; out of range nothing changes |
| Vectors.NumVector.Fill | num_vector.hpp:67 | Afterwards every element equals the given value |
| Vectors.NumVector.Plus | num_vector.hpp:69-75 | The loop yields a new vector holding the element-wise sum |
| Vectors.NumVector.Minus | num_vector.hpp:77-83 | The loop yields a new vector holding the element-wise difference |
| Vectors.NumVector.Negate | num_vector.hpp:85-91 | The loop yields a new vector holding the additive inverse |
| Vectors.NumVector.SumOfSquares | num_vector.hpp:96-99 | The loop computes the sum of squares, which equals `dot(v, v)` and is not negative |
| Vectors.Times | num_vector.hpp:116-121 | `vector * scalar` yields a new vector with every element multiplied by the scalar |
| Vectors.TimesLeft | num_vector.hpp:124-127 | `scalar * vector` equals `vector * scalar`: every element is `scalar · v[i]` |
| Vectors.Dot | num_vector.hpp:133-140 | The accumulating loop computes the dot product, which is symmetric in its arguments |
| Vectors.Cross | num_vector.hpp:146-153 | A new three-element vector holding the cross product, which is the negation of `cross(rhs, lhs)` |
| Quaternions.ImagPart.AsVector | quaternion.hpp:40-43 | `imag_part::as_vector` has three elements (its order is fixed by `AccessorsAgree`) |
| Quaternions.Quaternion.AsVector | quaternion.hpp:52 | `as_vector` has four elements (its order and round trip are fixed by `AccessorsAgree` and `AsVectorRoundTrip`) |
| Quaternions.Quaternion.Real | quaternion.hpp:55 | `real()` returns the coefficient `a`; `AccessorsAgree` proves it is `q0` and the head of `as_vector` |
| Quaternions.Quaternion.Imag | quaternion.hpp:62 | `imag()` returns `(qi, qj, qk)`; `AccessorsAgree` proves its vector is the tail of `as_vector` |
| Quaternions.Quaternion.Q0 | quaternion.hpp:65 | `q0()` returns `a`; `AccessorsAgree` places it first in `as_vector` |
| Quaternions.Quaternion.Qi | quaternion.hpp:67 | `qi()` returns `i`; `AccessorsAgree` places it second in `as_vector` |
| Quaternions.Quaternion.Qj | quaternion.hpp:69 | `qj()` returns `j`; `AccessorsAgree` places it third in `as_vector` |
| Quaternions.Quaternion.Qk | quaternion.hpp:71 | `qk()` returns `k`; `AccessorsAgree` places it fourth in `as_vector` |
| Quaternions.Quaternion.Plus | quaternion.hpp:75-77 | `+` is vector addition of the coefficient vectors, which adds coefficient by coefficient |
| Quaternions.Quaternion.Minus | quaternion.hpp:79-81 | `-` is vector subtraction of the coefficient vectors, which subtracts coefficient by coefficient |
| Quaternions.Quaternion.Negate | quaternion.hpp:84-86 | Unary `-` agrees with vector negation of the coefficient vector |
| Quaternions.Quaternion.Conjugate | quaternion.hpp:102-104 | `conjugate` keeps the real part and negates the imaginary vector |
| Quaternions.FromRealImag | quaternion.hpp:47 | The constructor from a real part and a three-element vector has that real part and that imaginary vector |
| Quaternions.FromImag | quaternion.hpp:48 | The constructor from a three-element vector has real part zero and that imaginary vector |
| Quaternions.FromVector | quaternion.hpp:49 | The constructor from a four-element vector has that vector as its `as_vector` |
| Quaternions.AsVectorRoundTrip | quaternion.hpp:49-52 | Building from `as_vector` gives back the same quaternion |
| Quaternions.AccessorsAgree | quaternion.hpp:52-71 | `as_vector` is `(q0, qi, qj, qk)`, `real` is `q0`, `imag` is the tail of `as_vector`, and `(real, imag)` rebuilds the quaternion |
| Quaternions.ConstructorsAgree | quaternion.hpp:46-49 | The three vector constructors are the coefficient constructor on the same coefficients |
| Quaternions.Equal | quaternion.hpp:126-128 | `==` over integers: `is_equal` on each of the four coefficient pairs; `EqualIsEquality` proves it is equality |
| Quaternions.EqualIsEquality | quaternion.hpp:125-128 | For integers, coefficient-wise `==` holds exactly when the quaternions are equal, and exactly when the vector `==` holds on their coefficient vectors |
| Quaternions.Times | quaternion.hpp:131-134 | `quaternion * scalar` scales the coefficient vector |
| Quaternions.TimesLeft | quaternion.hpp:136-139 | `scalar * quaternion` multiplies every coefficient by the scalar |
| Quaternions.Dot | quaternion.hpp:144-147 | `dot` has a zero imaginary part and, as its real part, the vector dot product of the coefficient vectors, in either order |
| Quaternions.DotComponents | quaternion.hpp:144-147 | The quaternion `dot` is the sum of the four coefficient products, and it is symmetric |
| Quaternions.Mul | quaternion.hpp:155-160 | The Hamilton product as the source builds it: real part `la·ra − dot(limag, rimag)`, imaginary part `la·rimag + ra·limag + cross(limag, rimag)`; `MulComponents` states its value coefficient by coefficient |
| Quaternions.MulComponents | quaternion.hpp:155-160 | The Hamilton product, built from `dot`, scalar `*`, `+` and `cross`, is the familiar four-coefficient formula |
| Quaternions.MulConjugate | quaternion.hpp:110-112 | `q * conjugate(q)` and `conjugate(q) * q` are the real quaternion of the squared sum |
| Quaternions.ConjugateInvolution | quaternion.hpp:102-104 | Conjugating twice is the identity |
| Quaternions.PlusCommutes | quaternion.hpp:75-77 | Quaternion `+` is commutative |
| Quaternions.MinusUndoesPlus | quaternion.hpp:75-86 | `(p + q) - q == p` and `q - p == -(p - q)` |
| Quaternions.ScalarCommutes | quaternion.hpp:131-139 | `scalar * q == q * scalar`, and `q * -1 == -q` |
| Quaternions.RealQuaternion.SquaredSum | quaternion.hpp:110 | `q0·q0 + qi·qi + qj·qj + qk·qk` over the reals; `RealSquaredSumPositive` proves it is never negative and zero only for the zero quaternion |
| Quaternions.RealQuaternion.Conjugate | quaternion.hpp:102-104 | `conjugate` over the reals: `(q0, −qi, −qj, −qk)` |
| Quaternions.RealQuaternion.Times | quaternion.hpp:131-134 | `quaternion * scalar` over the reals, coefficient by coefficient |
| Quaternions.RealMul | quaternion.hpp:155-160 | The Hamilton product over the reals; `MulEmbeds` proves it agrees with `Mul` on integer quaternions |
| Quaternions.RealQuaternion.Inverse | quaternion.hpp:109-114 | For a nonzero squared sum, `conjugate() * (1 / squared_sum)` is a two-sided inverse under the Hamilton product |
| Quaternions.MulEmbeds | quaternion.hpp:155-160 | The Hamilton product over the reals agrees with the integer one on integer quaternions |
| Quaternions.RealMulConjugate | quaternion.hpp:110-112 | Over the reals too, `q * conjugate(q)` is the real quaternion of the squared sum |
| Quaternions.InverseDefinedForNonzero | quaternion.hpp:110 | The squared sum in `inverse` equals the vector sum of squares, and it is positive for every nonzero integer quaternion, so such a quaternion has an inverse |
| Quaternions.RealSquaredSumPositive | quaternion.hpp:110 | The squared sum of any real quaternion is never negative, and it is zero exactly for the zero quaternion |
| Quaternions.InverseOfNonzero | quaternion.hpp:109-114 | Every nonzero real quaternion has a positive squared sum, so `inverse` is defined, and `q * inverse(q) == 1 == inverse(q) * q` |
| Quaternions.InverseIsInverse | quaternion.hpp:109-114 | `q * inverse(q) == 1` and `inverse(q) * q == 1` |
| Quaternions.ApproxEqual | quaternion.hpp:126-128 | `==` over the reals: the tolerance band of `is_equal` on each of the four coefficient pairs; `ApproxEqualProperties` states its symmetry and reflexivity |
| Quaternions.ApproxEqualProperties | quaternion.hpp:125-128 | Coefficient-wise tolerant `==` is commutative, and it is reflexive exactly when `epsilon` is not negative |
| Scenarios.FillScenario | tests.cpp:37-50 | Seven fives by brace initialisation; `{0}` zero-filled; after `fill(10)` the vector `==` `{10, 10, 10}` and not `!=`; beyond the test, `at(2)` is 10 while `at(3)` and `at(-1)` are out of range |
| Scenarios.NormScenario | tests.cpp:76-80 | The sum of squares under `norm` is 9 for (1, 2, 2), whose square root is the expected 3, and it is the same for (1, −2, 2) and (−1, −2, −2) |
| Scenarios.DotScenario | tests.cpp:83-91 | `dot` gives 12, −14 (with brace-initialised trailing zeros) and 0 on the three pairs |
| Scenarios.CrossScenario | tests.cpp:95-104 | `cross` gives (−6, 17, −8) and differs in the other order; (0, 2, 1) × (3, −1, 0) is (1, 3, −6) and the reverse is (−1, −3, 6) |
| Scenarios.ConstructorScenario | tests.cpp:139-145 | The vector constructors agree with the coefficient constructor on (10, 2, 3, 4), and omitted coefficients are zero |
| Scenarios.HamiltonSquares | tests.cpp:178-181 | `r·r = r`, `i·i = −r`, and `j·j = i·i = k·k` |
| Scenarios.UnitSquare | tests.cpp:179-181 | Each imaginary basis element squares to `−r` |
| Scenarios.HamiltonProducts | tests.cpp:183-185 | `i·j = k`, `j·i = −k`, `(i·j)·k = −r` |
| Scenarios.HamiltonExamples | tests.cpp:188-197 | The worked products given, in both orders, showing the product is not commutative |
| Scenarios.ConjugateOfUnit | tests.cpp:200 | `conjugate(i) == −i` |
| Scenarios.ConjugateOfOnes | tests.cpp:201 | `conjugate(1, 1, 1, 1) == (1, −1, −1, −1)` |
| Scenarios.ComparisonExample | tests.cpp:134-136 | (5, 10, 15, 55) and (5, 10, 15.2, 55) are not equal under any band narrower than 0.2 |
| Scenarios.InverseExample | tests.cpp:209-212 | For (20, −4, 2, 5), with squared sum 445, `q * inverse(q)` equals `(1, 0, 0, 0)` under every non-negative band |

## Left out

- `norm` and `angle` end in `std::sqrt` and `std::acos`, which are floating-point transcendentals. The model keeps the sum of squares that `norm` computes (`NumVector.SumOfSquares`) and leaves out the square root and `angle`.
- `quaternion::norm` and `normalized` are left out because they depend on the square root. The normalisation check in tests.cpp lines 204-207 is left out with them.
- `round`, `precision_boundary` and `to_degrees` are floating-point helpers with no counterpart over `int` or `real`. The tolerance is an explicit `epsilon` parameter instead.
- IEEE floating point is not modelled: no rounding, no NaN or infinity. The approximate branch of `is_equal` and the quaternion type over a field use exact `real`. For that reason the `double` vector and quaternion checks in tests.cpp lines 52-67 and 147-167 are left out.
- `num_vector` over approximate scalars is not modelled; vectors are over `int`. The tolerance band appears only through `Operators` and `Quaternions.ApproxEqual`.
- Quaternions.RealQuaternion.Inverse: requires a nonzero squared sum. The source does not guard a zero squared sum and divides by zero, which gives infinities or NaN in floating point. Over `real` there is no inverse to state, so that path is left out. `InverseOfNonzero` proves the requirement holds for every quaternion other than zero.
- `inverse` over an integer `T` (where `1/squared_sum` truncates) is not modelled. `inverse` is modelled only over a field.
- Fixed-width integer overflow is not modelled. Scalars are unbounded `int`, which matches the source whenever no intermediate result overflows.
- These are left out:
  - `operator<<` for vectors and quaternions (console output)
  - the iterators `begin`/`end`
  - the copy constructor and the type aliases
  - the compile-time `requires` constraints on `T`
- The size `N` is a length requirement on the `NumVector` methods rather than part of the type. A size mismatch is a compile-time error in the source and a precondition here.
- Quaternions.RealMul: the real Hamilton product writes `dot` and `cross` out for three components rather than going through real-valued vectors. `MulEmbeds` ties it to the integer product, which is built from the vector functions.
- Associativity of the Hamilton product is not stated. The source does not claim it, and tests.cpp line 185 is covered by the concrete `Scenarios.HamiltonProducts`.
