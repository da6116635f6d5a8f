# Quaternion value type, modelled in Dafny

This project models the C++ `quaternion` class. The class is a value type holding four real
coefficients, written a + bi + cj + dk. The model covers:

- the constructor, whose omitted trailing arguments default to zero;
- unary `-` and `~`;
- componentwise `==` and `!=`;
- the compound operators `+=`, `-=`, `*=` and `/=`, each in a quaternion form and a scalar form;
- `inverse()` and `norm()`;
- the twelve free binary operators;
- the sign-token layout of `writeTo`.

Coefficients are Dafny `real`s, so the model is the exact-arithmetic idealisation of the C++
`double`s.

- `quaternion.dfy` (module `Quaternions`) holds the datatype and every operator. A compound
  operator is a pure function that returns the new value of its receiver. A free operator copies
  its left operand and applies the compound operator to the copy, as the C++ does. A scalar
  operand is first promoted to (s, 0, 0, 0). The Hamilton product is written term for term as in
  the source. `inverse()` is the conjugate multiplied by 1/|q|². `/=` multiplies by the inverse.
  The file also holds the product lemmas that the inverse and the divisions rest on.
- `laws.dfy` (module `QuaternionLaws`) states the algebra the header comments and the test
  program promise, for all inputs.
- `format.dfy` (module `QuaternionFormat`) models `writeTo` as a token sequence. Its partner is a
  reader of that token sequence, proved to be its exact inverse. The reader (`ReadSigned`, `Parse`)
  is added to the model as a reference and models nothing in the C++: `readFrom`
  (quaternion.cpp:83-85) reads four plain numbers "a b c d", not the signed form `writeTo`
  writes.

A scalar on the left is promoted first, and it stays the left operand. So `s - q` is
(s, 0, 0, 0) - q, and over the reals that equals -(q - s). Order matters because `s - q` and
`q - s` are different quaternions, and likewise `s / q` is (s, 0, 0, 0)·q⁻¹ rather than q / s.

## Model

| member | source | states |
|---|---|---|
| Quaternions.Make | quaternion.h:14-15 | definition, no ensures of its own; `ConstructorDefaults` states that omitted arguments are 0 |
| Quaternions.FromScalar | quaternion.h:14-15 | definition, no ensures of its own; the one-argument constructor, the promotion (s, 0, 0, 0); its coefficients are stated by `ConstructorDefaults` |
| QuaternionLaws.ConstructorDefaults | quaternion.h:14-15 | omitted constructor arguments are 0; `quaternion(s)` is (s, 0, 0, 0); the promoted 0 and 1 are Zero and One |
| Quaternions.NormSq | quaternion.cpp:13-15 | the squared magnitude a² + b² + c² + d² (the square of `abs()`) is never negative |
| Quaternions.NormSqZero | quaternion.cpp:13-15 | the squared magnitude is zero exactly at the zero quaternion |
| Quaternions.NormSqScale | quaternion.cpp:13-15 | scaling by k scales the squared magnitude by k² |
| Quaternions.Neg | quaternion.cpp:5-7 | -q is the additive inverse (q + -q is Zero) and is q scaled by -1 |
| QuaternionLaws.NegInvolutive | quaternion.cpp:5-7 | negation flips all four coefficients, and applying it twice gives back q |
| Quaternions.Conj | quaternion.cpp:9-11 | ~q keeps the real part; q + ~q is the real 2a and q - ~q is the pure imaginary 2(bi + cj + dk) |
| QuaternionLaws.ConjInvolutive | quaternion.cpp:9-11 | conjugation flips b, c and d, and applying it twice gives back q |
| QuaternionLaws.NegConjNormSq | quaternion.cpp:5-15 | negation and conjugation commute and keep the squared magnitude |
| Quaternions.Equals | quaternion.cpp:25-27 | componentwise `==` holds iff the two quaternions are the same value |
| Quaternions.NotEquals | quaternion.cpp:29-31 | `!=` holds iff the two quaternions differ |
| Quaternions.AddAssign | quaternion.cpp:33-39 | definition, no ensures of its own; the componentwise sum; `AddCommutativeMonoid` states its laws |
| Quaternions.SubAssign | quaternion.cpp:45-51 | definition, no ensures of its own; the componentwise difference; `AddSubRoundTrip` states that it undoes `+=` |
| Quaternions.MulAssign | quaternion.cpp:57-62 | definition, no ensures of its own; the Hamilton product term for term; `MulMatchesVectorForm` ties it to the scalar-vector form and `MulAssociative` proves it associative |
| Quaternions.DivAssign | quaternion.cpp:68-70 | definition, no ensures of its own; multiplication by the inverse; `DivAssignRoundTrip` states that it undoes `*=` |
| QuaternionLaws.AddCommutativeMonoid | quaternion.cpp:33-39 | the componentwise sum is commutative and associative, with Zero as identity |
| QuaternionLaws.AddSubRoundTrip | quaternion.cpp:33-51 | subtracting r undoes adding r and the reverse; q - r is q + (-r); q - q is Zero |
| Quaternions.Add | quaternion.cpp:95-99 | definition, no ensures of its own; `+=` on a copy of the left operand; `AddCommutativeMonoid` states its laws |
| Quaternions.AddScalar | quaternion.cpp:101-105 | definition, no ensures of its own; `+=` with the promoted scalar on a copy; `ScalarsScaleAndCommute` states that it moves only the real part |
| Quaternions.ScalarAdd | quaternion.cpp:107-111 | definition, no ensures of its own; the promoted scalar plus the quaternion; `ScalarsScaleAndCommute` states that it equals q + s |
| Quaternions.Sub | quaternion.cpp:113-117 | definition, no ensures of its own; `-=` on a copy of the left operand; `AddSubRoundTrip` states that it undoes `+` |
| Quaternions.SubScalar | quaternion.cpp:119-123 | definition, no ensures of its own; `-=` with the promoted scalar on a copy; `ScalarsScaleAndCommute` states that it moves only the real part |
| Quaternions.ScalarSub | quaternion.cpp:125-129 | definition, no ensures of its own; the promoted scalar minus the quaternion; `ScalarOnLeft` states that it is -(q - s) |
| Quaternions.Mul | quaternion.cpp:131-135 | definition, no ensures of its own; `*=` on a copy of the left operand; `MulIdentityAndZero` and `MulDistributesLeft`/`MulDistributesRight` state its laws |
| Quaternions.MulScalar | quaternion.cpp:137-141 | definition, no ensures of its own; `*=` with the promoted scalar on a copy; `ScalarsScaleAndCommute` states that it scales every coefficient |
| Quaternions.ScalarMul | quaternion.cpp:143-147 | definition, no ensures of its own; the promoted scalar times the quaternion; `MulLeftScalar` and `ScalarsScaleAndCommute` state that it scales every coefficient |
| Quaternions.Div | quaternion.cpp:149-153 | definition, no ensures of its own; `/=` on a copy of the left operand; `DivMulRoundTrip` states that it undoes `*` |
| Quaternions.DivScalar | quaternion.cpp:155-159 | definition, no ensures of its own; `/=` with the promoted scalar on a copy; `DivScalarScales` and `DivScalarComponentwise` state that it divides every coefficient by s |
| Quaternions.ScalarDiv | quaternion.cpp:161-165 | definition, no ensures of its own; the promoted scalar divided by the quaternion; `ScalarDivScales` states that it is q⁻¹ scaled by s |
| Quaternions.AddAssignScalar | quaternion.cpp:41-43 | `q += s` changes only the real part, by +s |
| Quaternions.SubAssignScalar | quaternion.cpp:53-55 | `q -= s` changes only the real part, by -s |
| Quaternions.MulAssignScalar | quaternion.cpp:64-66 | `q *= s`, the product with (s, 0, 0, 0), multiplies every coefficient by s |
| Quaternions.MulRightScalar | quaternion.cpp:57-66 | the product with a promoted scalar on the right scales componentwise |
| Quaternions.MulLeftScalar | quaternion.cpp:143-147 | the product with a promoted scalar on the left scales componentwise |
| Quaternions.MulRightOne | quaternion.cpp:57-62 | One is a right identity of the product |
| Quaternions.MulScaleRight | quaternion.cpp:57-62 | q·(k·r) = k·(q·r) |
| Quaternions.MulScaleLeft | quaternion.cpp:57-62 | (k·q)·r = k·(q·r) |
| Quaternions.MulConj | quaternion.cpp:57-62 | q·~q and ~q·q are both the real number ‖q‖² |
| Quaternions.MulAssociative | quaternion.cpp:57-62 | the term-for-term product is associative |
| Quaternions.Inverse | quaternion.cpp:21-23 | the inverse is the conjugate scaled by 1/‖q‖², defined when ‖q‖² ≠ 0 |
| Quaternions.InverseOfScalar | quaternion.cpp:21-23 | a promoted non-zero scalar s has the promoted 1/s as its inverse |
| Quaternions.DivAssignScalar | quaternion.cpp:72-74 | `q /= s`, division by (s, 0, 0, 0), multiplies every coefficient by 1/s |
| Quaternions.DivScalarScales | quaternion.cpp:155-159 | `q / s` is q scaled by 1/s |
| Quaternions.Normalize | quaternion.cpp:17-19 | `norm()` given the magnitude m: the result is q scaled by 1/m and has squared magnitude 1 |
| QuaternionLaws.NormalizeIsUnit | quaternion.h:34-35 | the normalised quaternion has unit squared magnitude, and scaling it back by m recovers q |
| QuaternionLaws.ScalarsScaleAndCommute | quaternion.cpp:101-147 | a scalar multiplies each coefficient from either side and commutes with every quaternion; q + s = s + q moves only the real part, as does q - s |
| QuaternionLaws.DivScalarComponentwise | quaternion.cpp:155-159 | `q / s` divides each coefficient by s |
| QuaternionLaws.ScalarOnLeft | quaternion.cpp:125-129 | `s - q` is (s - a, -b, -c, -d), the negation of `q - s` |
| QuaternionLaws.ScalarSubOrderMatters | quaternion.cpp:119-129 | swapping the operands of scalar subtraction changes the result |
| QuaternionLaws.UnitsSquareToMinusOne | quaternion.cpp:57-62 | i² = j² = k² = -1 |
| QuaternionLaws.CyclicProducts | quaternion.cpp:57-62 | ij = k, jk = i, ki = j |
| QuaternionLaws.TripleProduct | quaternion.cpp:57-62 | ijk = -1 |
| QuaternionLaws.ProductNotCommutative | quaternion.cpp:57-62 | ji = -k, which differs from ij, so the product does not commute |
| QuaternionLaws.MulIdentityAndZero | quaternion.cpp:131-135 | One is a two-sided identity and Zero annihilates from both sides |
| QuaternionLaws.MulDistributesLeft | quaternion.cpp:131-135 | p·(q + r) = p·q + p·r |
| QuaternionLaws.MulDistributesRight | quaternion.cpp:131-135 | (p + q)·r = p·r + q·r |
| QuaternionLaws.MulMatchesVectorForm | quaternion.cpp:57-62 | the term-for-term product equals the independent scalar-vector form (st - u·v, sv + tu + u×v) |
| QuaternionLaws.ConjReversesProduct | test.cpp:28-29 | ~(q·r) = ~r·~q for all q and r |
| QuaternionLaws.InverseIsTwoSided | quaternion.h:37-38 | q·q⁻¹ = q⁻¹·q = 1 whenever ‖q‖² ≠ 0 |
| QuaternionLaws.InverseDefinedOffZero | quaternion.cpp:21-23 | every non-zero quaternion has positive squared magnitude and a right inverse |
| QuaternionLaws.InverseInvolutive | quaternion.cpp:21-23 | the inverse of the inverse is the original quaternion |
| QuaternionLaws.DivAssignRoundTrip | quaternion.cpp:68-70 | `q /= r` followed by `q *= r` gives back q, and so does `q *= r` followed by `q /= r`, whenever ‖r‖² ≠ 0 |
| QuaternionLaws.DivMulRoundTrip | quaternion.cpp:149-153 | q / r is q·r⁻¹, and the free operators undo each other whenever ‖r‖² ≠ 0: (q / r)·r = q, which is what test.cpp:31-34 checks, and (q·r) / r = q |
| QuaternionLaws.ScalarDivScales | quaternion.cpp:161-165 | `s / q` is q⁻¹ scaled by s, and multiplying it by q on the right gives back the promoted s, for every s including 0 |
| QuaternionLaws.TestProgramExamples | test.cpp:10-26 | the exact-arithmetic expected values of negation, conjugation, sum, difference and product hold |
| QuaternionFormat.SignText | quaternion.cpp:78-80 | the separator is " - " exactly for a negative coefficient and " + " otherwise |
| QuaternionFormat.Magnitude | quaternion.cpp:78-80 | the written magnitude is non-negative and is ±x |
| QuaternionFormat.Term | quaternion.cpp:78-80 | definition, no ensures of its own; one imaginary term as separator, absolute value and unit; `WriteTo` and `SignRule` state its tokens |
| QuaternionFormat.WriteTo | quaternion.cpp:76-81 | the output is ten tokens: the real part as is, then for each of b, c, d in order its separator (" - " for a negative coefficient, " + " otherwise), its absolute value and its unit name i, j or k |
| QuaternionFormat.SignRule | quaternion.cpp:78-80 | each imaginary separator is " - " iff that coefficient is negative and " + " iff it is not, and the magnitude that follows is its absolute value |
| QuaternionFormat.ReadSignedTerm | quaternion.cpp:78-80 | a separator and magnitude written for x read back as x |
| QuaternionFormat.ReadSignedOnlyTerm | quaternion.cpp:78-80 | a separator and magnitude that read as x are exactly the ones written for x |
| QuaternionFormat.ParseWriteTo | quaternion.cpp:76-81 | reading back the written tokens gives the same quaternion |
| QuaternionFormat.ParseExactlyWriteTo | quaternion.cpp:76-81 | a token sequence reads as q iff it is the one written for q |
| QuaternionFormat.WriteToExample | test.cpp:43-44 | 5 - 6i + 7j - 8k is written as 5, " - ", 6, "i", " + ", 7, "j", " - ", 8, "k" |

## Left out

- `abs()` (quaternion.cpp:13-15) is a square root. The model works with the squared magnitude `NormSq`.
- Normalize: `norm()` computes the magnitude itself; the model takes it as a parameter m, with m > 0 and m·m = ‖q‖².
- Inverse: `inverse()` computes 1/(abs()·abs()), a square root that is then squared; the model uses ‖q‖² directly, which is the same over the reals.
- IEEE-754 rounding, NaN and infinities are not modelled. Dividing by a quaternion of zero magnitude is excluded by a precondition, where the C++ silently yields NaN/Inf coefficients. Because coefficients are exact reals, the test program's comparisons within a tolerance of 1e-4 become exact equalities: `DivMulRoundTrip` states exactly what test.cpp:31-34 checks within that tolerance.
- The fixed three-decimal rendering of numbers in `writeTo` is not modelled: a `Number` token stands for the rendered coefficient. `writeTo` also leaves `std::fixed` and a precision of 3 set on the caller's stream (quaternion.cpp:77), which changes how every later number on that stream is written; the model has no stream state, so this side effect is not modelled.
- `readFrom` / `operator>>` (quaternion.cpp:83-85, 91-93): stream extraction of four numbers, including stream failure states, is not modelled.
- `operator<<` only forwards to `writeTo` and is not modelled separately.
- The defaulted copy and move constructors, destructor and copy assignment are not modelled. Values are immutable, so a free operator's operands are unchanged by construction.
- The test program's `main` and its printed message are not modelled; its exact-arithmetic checks appear as lemmas.
- The test program's magnitude, normalisation and division examples (test.cpp:12-14, 31-35) are not instantiated at concrete numbers. They are covered by the all-inputs lemmas `NormalizeIsUnit`, `DivScalarComponentwise` and `DivMulRoundTrip`; the magnitude itself is a square root and is left out as above.
