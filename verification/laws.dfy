/**
 Algebraic laws of the quaternion operators: the identities the header's
 doc-comments promise and the test program checks, stated for every input
 over the reals.
 */
module QuaternionLaws {
  import opened Quaternions

  const I: Quaternion := Quaternion(0.0, 1.0, 0.0, 0.0)
  const J: Quaternion := Quaternion(0.0, 0.0, 1.0, 0.0)
  const K: Quaternion := Quaternion(0.0, 0.0, 0.0, 1.0)

  // ---------------------------------------------------------------------------
  // Construction and equality
  // ---------------------------------------------------------------------------

  /** Omitted trailing constructor arguments are zero; a promoted scalar has no imaginary part. */
  lemma ConstructorDefaults(s: real)
    ensures Make() == Zero
    ensures Make(s) == FromScalar(s)
    ensures FromScalar(s).a == s && FromScalar(s).b == 0.0 && FromScalar(s).c == 0.0 && FromScalar(s).d == 0.0
    ensures FromScalar(0.0) == Zero && FromScalar(1.0) == One
  {
  }

  // ---------------------------------------------------------------------------
  // Negation and conjugation
  // ---------------------------------------------------------------------------

  /** Negation flips all four coefficients, and applying it twice gives back q. */
  lemma NegInvolutive(q: Quaternion)
    ensures Neg(q) == Make(-q.a, -q.b, -q.c, -q.d)
    ensures Neg(Neg(q)) == q
  {
  }

  /** Conjugation keeps a, flips b, c and d, and applying it twice gives back q. */
  lemma ConjInvolutive(q: Quaternion)
    ensures Conj(q) == Make(q.a, -q.b, -q.c, -q.d)
    ensures Conj(Conj(q)) == q
  {
  }

  /** Negation and conjugation commute, and both preserve the squared magnitude. */
  lemma NegConjNormSq(q: Quaternion)
    ensures Neg(Conj(q)) == Conj(Neg(q))
    ensures NormSq(Neg(q)) == NormSq(q)
    ensures NormSq(Conj(q)) == NormSq(q)
  {
  }

  // ---------------------------------------------------------------------------
  // Addition and subtraction
  // ---------------------------------------------------------------------------

  /** Addition is commutative and associative, with Zero as identity. */
  lemma AddCommutativeMonoid(p: Quaternion, q: Quaternion, r: Quaternion)
    ensures Add(q, r) == Add(r, q)
    ensures Add(Add(p, q), r) == Add(p, Add(q, r))
    ensures Add(q, Zero) == q
  {
  }

  /** Subtracting r undoes adding r, and adding r undoes subtracting it. */
  lemma AddSubRoundTrip(q: Quaternion, r: Quaternion)
    ensures Sub(Add(q, r), r) == q
    ensures Add(Sub(q, r), r) == q
    ensures Sub(q, r) == Add(q, Neg(r))
    ensures Sub(q, q) == Zero
  {
  }

  // ---------------------------------------------------------------------------
  // Scalar forms
  // ---------------------------------------------------------------------------

  /**
   A real scalar multiplies each coefficient from either side, so it
   commutes with every quaternion; q + s and q - s move only the real part.
   */
  lemma ScalarsScaleAndCommute(q: Quaternion, s: real)
    ensures MulScalar(q, s) == Scale(q, s)
    ensures ScalarMul(s, q) == Scale(q, s)
    ensures Mul(q, FromScalar(s)) == Mul(FromScalar(s), q)
    ensures AddScalar(q, s) == ScalarAdd(s, q) == q.(a := q.a + s)
    ensures SubScalar(q, s) == q.(a := q.a - s)
  {
    MulRightScalar(q, s);
    MulLeftScalar(s, q);
  }

  /** Dividing by a non-zero scalar divides each coefficient by it. */
  lemma DivScalarComponentwise(q: Quaternion, s: real)
    requires s != 0.0
    ensures DivScalar(q, s) == Quaternion(q.a / s, q.b / s, q.c / s, q.d / s)
  {
    DivScalarScales(q, s);
    ReciprocalScales(q.a, s);
    ReciprocalScales(q.b, s);
    ReciprocalScales(q.c, s);
    ReciprocalScales(q.d, s);
  }

  lemma ReciprocalScales(x: real, s: real)
    requires s != 0.0
    ensures (1.0 / s) * x == x / s
  {
  }

  /**
   A scalar on the left is promoted and is the left operand: s - q is
   (s, 0, 0, 0) - q, which is the negation of q - s.
   */
  lemma ScalarOnLeft(s: real, q: Quaternion)
    ensures ScalarSub(s, q) == Quaternion(s - q.a, -q.b, -q.c, -q.d)
    ensures ScalarSub(s, q) == Neg(SubScalar(q, s))
  {
  }

  /** Swapping the operands of scalar subtraction changes the result: 1 - 0 is not 0 - 1. */
  lemma ScalarSubOrderMatters()
    ensures ScalarSub(1.0, Zero) != SubScalar(Zero, 1.0)
  {
  }

  // ---------------------------------------------------------------------------
  // The Hamilton product
  // ---------------------------------------------------------------------------

  /** i² = j² = k² = -1. */
  lemma UnitsSquareToMinusOne()
    ensures Mul(I, I) == Mul(J, J) == Mul(K, K) == FromScalar(-1.0)
  {
  }

  /** ij = k, jk = i and ki = j. */
  lemma CyclicProducts()
    ensures Mul(I, J) == K && Mul(J, K) == I && Mul(K, I) == J
  {
    ProductIJ();
    ProductJK();
    ProductKI();
  }

  lemma ProductIJ()
    ensures Mul(I, J) == K
  {
  }

  lemma ProductJK()
    ensures Mul(J, K) == I
  {
  }

  lemma ProductKI()
    ensures Mul(K, I) == J
  {
  }

  /** ijk = -1, completing Hamilton's rules. */
  lemma TripleProduct()
    ensures Mul(Mul(I, J), K) == FromScalar(-1.0)
  {
    UnitsSquareToMinusOne();
    ProductIJ();
  }

  /** ji = -k = -(ij): the product does not commute. */
  lemma ProductNotCommutative()
    ensures Mul(J, I) == Neg(K) && Mul(J, I) != Mul(I, J)
  {
    ProductIJ();
    ProductJI();
  }

  lemma ProductJI()
    ensures Mul(J, I) == Neg(K)
  {
  }

  /** One is a two-sided identity and Zero annihilates from both sides. */
  lemma MulIdentityAndZero(q: Quaternion)
    ensures Mul(q, One) == q && Mul(One, q) == q
    ensures Mul(q, Zero) == Zero && Mul(Zero, q) == Zero
  {
    MulRightScalar(q, 1.0);
    MulLeftScalar(1.0, q);
    MulRightScalar(q, 0.0);
    MulLeftScalar(0.0, q);
  }

  /** The product distributes over addition from the left: p·(q + r) = p·q + p·r. */
  lemma MulDistributesLeft(p: Quaternion, q: Quaternion, r: Quaternion)
    ensures Mul(p, Add(q, r)) == Add(Mul(p, q), Mul(p, r))
  {
    DistributeLeftA(p, q, r);
    DistributeLeftB(p, q, r);
    DistributeLeftC(p, q, r);
    DistributeLeftD(p, q, r);
  }

  /** The product distributes over addition from the right: (p + q)·r = p·r + q·r. */
  lemma MulDistributesRight(p: Quaternion, q: Quaternion, r: Quaternion)
    ensures Mul(Add(p, q), r) == Add(Mul(p, r), Mul(q, r))
  {
    DistributeRightA(p, q, r);
    DistributeRightB(p, q, r);
    DistributeRightC(p, q, r);
    DistributeRightD(p, q, r);
  }

  // Distributivity one coefficient at a time.
  lemma DistributeLeftA(p: Quaternion, q: Quaternion, r: Quaternion)
    ensures Mul(p, Add(q, r)).a == Mul(p, q).a + Mul(p, r).a
  {
  }

  lemma DistributeLeftB(p: Quaternion, q: Quaternion, r: Quaternion)
    ensures Mul(p, Add(q, r)).b == Mul(p, q).b + Mul(p, r).b
  {
  }

  lemma DistributeLeftC(p: Quaternion, q: Quaternion, r: Quaternion)
    ensures Mul(p, Add(q, r)).c == Mul(p, q).c + Mul(p, r).c
  {
  }

  lemma DistributeLeftD(p: Quaternion, q: Quaternion, r: Quaternion)
    ensures Mul(p, Add(q, r)).d == Mul(p, q).d + Mul(p, r).d
  {
  }

  lemma DistributeRightA(p: Quaternion, q: Quaternion, r: Quaternion)
    ensures Mul(Add(p, q), r).a == Mul(p, r).a + Mul(q, r).a
  {
  }

  lemma DistributeRightB(p: Quaternion, q: Quaternion, r: Quaternion)
    ensures Mul(Add(p, q), r).b == Mul(p, r).b + Mul(q, r).b
  {
  }

  lemma DistributeRightC(p: Quaternion, q: Quaternion, r: Quaternion)
    ensures Mul(Add(p, q), r).c == Mul(p, r).c + Mul(q, r).c
  {
  }

  lemma DistributeRightD(p: Quaternion, q: Quaternion, r: Quaternion)
    ensures Mul(Add(p, q), r).d == Mul(p, r).d + Mul(q, r).d
  {
  }

  /** A 3-vector: the imaginary part (b, c, d) of a quaternion. */
  datatype Vec3 = Vec3(x: real, y: real, z: real)

  function Imag(q: Quaternion): Vec3
  {
    Vec3(q.b, q.c, q.d)
  }

  function Dot(u: Vec3, v: Vec3): real
  {
    u.x * v.x + u.y * v.y + u.z * v.z
  }

  function Cross(u: Vec3, v: Vec3): Vec3
  {
    Vec3(u.y * v.z - u.z * v.y, u.z * v.x - u.x * v.z, u.x * v.y - u.y * v.x)
  }

  function Plus3(u: Vec3, v: Vec3): Vec3
  {
    Vec3(u.x + v.x, u.y + v.y, u.z + v.z)
  }

  function Times3(k: real, u: Vec3): Vec3
  {
    Vec3(k * u.x, k * u.y, k * u.z)
  }

  /**
   The scalar-vector form of the product, an independent reference:
   (s, u)(t, v) = (st - u·v, sv + tu + u×v).
   */
  function VectorProduct(q: Quaternion, r: Quaternion): Quaternion
  {
    var u, v := Imag(q), Imag(r);
    var w := Plus3(Plus3(Times3(q.a, v), Times3(r.a, u)), Cross(u, v));
    Quaternion(q.a * r.a - Dot(u, v), w.x, w.y, w.z)
  }

  /** The term-by-term product agrees with the scalar-vector form. */
  lemma MulMatchesVectorForm(q: Quaternion, r: Quaternion)
    ensures Mul(q, r) == VectorProduct(q, r)
  {
  }

  /** Conjugation reverses products: ~(q·r) == ~r·~q. */
  lemma ConjReversesProduct(q: Quaternion, r: Quaternion)
    ensures Conj(Mul(q, r)) == Mul(Conj(r), Conj(q))
  {
  }

  // ---------------------------------------------------------------------------
  // Inverse, division and normalisation
  // ---------------------------------------------------------------------------

  /** For non-zero squared magnitude the inverse is a two-sided multiplicative inverse. */
  lemma InverseIsTwoSided(q: Quaternion)
    requires NormSq(q) != 0.0
    ensures Mul(q, Inverse(q)) == One
    ensures Mul(Inverse(q), q) == One
  {
    var n := NormSq(q);
    var k := 1.0 / n;
    MulScaleRight(q, Conj(q), k);
    MulScaleLeft(Conj(q), q, k);
    MulConj(q);
    assert k * n == 1.0;
  }

  /** The squared magnitude is zero exactly at Zero, so the inverse exists for every other quaternion. */
  lemma InverseDefinedOffZero(q: Quaternion)
    requires q != Zero
    ensures NormSq(q) > 0.0
    ensures Mul(q, Inverse(q)) == One
  {
    NormSqZero(q);
    InverseIsTwoSided(q);
  }

  /** `q /= r` and `q *= r` by the same r undo each other. */
  lemma DivAssignRoundTrip(q: Quaternion, r: Quaternion)
    requires NormSq(r) != 0.0
    ensures MulAssign(DivAssign(q, r), r) == q
    ensures DivAssign(MulAssign(q, r), r) == q
  {
    InverseIsTwoSided(r);
    MulAssociative(q, Inverse(r), r);
    MulAssociative(q, r, Inverse(r));
    MulRightOne(q);
  }

  /**
   The free `/` copies its left operand and applies `/=`, so it inherits the
   round trip: right division and right multiplication by r undo each other.
   */
  lemma DivMulRoundTrip(q: Quaternion, r: Quaternion)
    requires NormSq(r) != 0.0
    ensures Div(q, r) == Mul(q, Inverse(r))
    ensures Mul(Div(q, r), r) == q
    ensures Div(Mul(q, r), r) == q
  {
    DivAssignRoundTrip(q, r);
  }

  /**
   `s / q` promotes s and divides on the right: it is q⁻¹ scaled by s, and
   multiplying it back by q gives the promoted s. A zero s is allowed.
   */
  lemma ScalarDivScales(s: real, q: Quaternion)
    requires NormSq(q) != 0.0
    ensures ScalarDiv(s, q) == Scale(Inverse(q), s)
    ensures Mul(ScalarDiv(s, q), q) == FromScalar(s)
  {
    MulLeftScalar(s, Inverse(q));
    DivAssignRoundTrip(FromScalar(s), q);
  }

  /** The inverse of the inverse is the original quaternion. */
  lemma InverseInvolutive(q: Quaternion)
    requires NormSq(q) != 0.0
    ensures NormSq(Inverse(q)) != 0.0
    ensures Inverse(Inverse(q)) == q
  {
    var r := Inverse(q);
    InverseIsTwoSided(q);
    if NormSq(r) == 0.0 {
      NormSqZero(r);
      MulIdentityAndZero(q);
      assert false;
    }
    var rr := Inverse(r);
    InverseIsTwoSided(r);
    calc {
      rr;
      { MulIdentityAndZero(rr); }
      Mul(One, rr);
      Mul(Mul(q, r), rr);
      { MulAssociative(q, r, rr); }
      Mul(q, Mul(r, rr));
      Mul(q, One);
      { MulIdentityAndZero(q); }
      q;
    }
  }

  /** Normalising scales q by 1/m, so scaling back by m restores q. */
  lemma NormalizeIsUnit(q: Quaternion, m: real)
    requires m > 0.0 && m * m == NormSq(q)
    ensures NormSq(Normalize(q, m)) == 1.0
    ensures Scale(Normalize(q, m), m) == q
  {
    var k := 1.0 / m;
    assert m * k == 1.0;
    assert m * (k * q.a) == q.a && m * (k * q.b) == q.b && m * (k * q.c) == q.c && m * (k * q.d) == q.d;
  }

  // ---------------------------------------------------------------------------
  // The exact-arithmetic cases of the test program
  // ---------------------------------------------------------------------------

  /** Negation, conjugation, sums, differences and products checked by the test program. */
  lemma TestProgramExamples()
    ensures Neg(Quaternion(1.0, 2.0, 3.0, 4.0)) == Quaternion(-1.0, -2.0, -3.0, -4.0)
    ensures Conj(Quaternion(1.0, 2.0, 3.0, 4.0)) == Quaternion(1.0, -2.0, -3.0, -4.0)
    ensures Add(Quaternion(1.0, 2.0, 3.0, 4.0), Quaternion(5.0, 6.0, 7.0, 8.0)) == Quaternion(6.0, 8.0, 10.0, 12.0)
    ensures Sub(Quaternion(5.0, 6.0, 7.0, 8.0), Quaternion(4.0, 3.0, 2.0, 1.0)) == Quaternion(1.0, 3.0, 5.0, 7.0)
    ensures Mul(Make(2.0), Quaternion(0.0, 1.0, 2.0, 3.0)) == Quaternion(0.0, 2.0, 4.0, 6.0)
    ensures Mul(Make(2.0), Make(3.0)) == Make(6.0)
    ensures Mul(Quaternion(0.0, 1.0, 2.0, 3.0), Quaternion(0.0, 4.0, 5.0, 6.0))
         == Quaternion(-(1.0 * 4.0 + 2.0 * 5.0 + 3.0 * 6.0), 2.0 * 6.0 - 3.0 * 5.0,
                       3.0 * 4.0 - 1.0 * 6.0, 1.0 * 5.0 - 2.0 * 4.0)
    ensures MulScalar(Quaternion(1.0, 2.0, 3.0, 4.0), 2.0) == Quaternion(2.0, 4.0, 6.0, 8.0)
  {
    ExampleNeg();
    ExampleConj();
    ExampleAdd();
    ExampleSub();
    ExampleScalarTimesQuaternion();
    ExampleScalarTimesScalar();
    ExamplePureProduct();
    ExampleMulScalar();
  }

  lemma ExampleNeg()
    ensures Neg(Quaternion(1.0, 2.0, 3.0, 4.0)) == Quaternion(-1.0, -2.0, -3.0, -4.0)
  {
  }

  lemma ExampleConj()
    ensures Conj(Quaternion(1.0, 2.0, 3.0, 4.0)) == Quaternion(1.0, -2.0, -3.0, -4.0)
  {
  }

  lemma ExampleAdd()
    ensures Add(Quaternion(1.0, 2.0, 3.0, 4.0), Quaternion(5.0, 6.0, 7.0, 8.0)) == Quaternion(6.0, 8.0, 10.0, 12.0)
  {
  }

  lemma ExampleSub()
    ensures Sub(Quaternion(5.0, 6.0, 7.0, 8.0), Quaternion(4.0, 3.0, 2.0, 1.0)) == Quaternion(1.0, 3.0, 5.0, 7.0)
  {
  }

  lemma ExampleScalarTimesQuaternion()
    ensures Mul(Make(2.0), Quaternion(0.0, 1.0, 2.0, 3.0)) == Quaternion(0.0, 2.0, 4.0, 6.0)
  {
  }

  lemma ExampleScalarTimesScalar()
    ensures Mul(Make(2.0), Make(3.0)) == Make(6.0)
  {
  }

  /** The product of two pure quaternions is (-u·v, u×v). */
  lemma ExamplePureProduct()
    ensures Mul(Quaternion(0.0, 1.0, 2.0, 3.0), Quaternion(0.0, 4.0, 5.0, 6.0))
         == Quaternion(-(1.0 * 4.0 + 2.0 * 5.0 + 3.0 * 6.0), 2.0 * 6.0 - 3.0 * 5.0,
                       3.0 * 4.0 - 1.0 * 6.0, 1.0 * 5.0 - 2.0 * 4.0)
  {
  }

  lemma ExampleMulScalar()
    ensures MulScalar(Quaternion(1.0, 2.0, 3.0, 4.0), 2.0) == Quaternion(2.0, 4.0, 6.0, 8.0)
  {
  }
}
