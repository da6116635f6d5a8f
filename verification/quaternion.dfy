/**
 The quaternion value type a + bi + cj + dk and its operators.

 Coefficients are Dafny `real`s: an idealisation of the C++ `double`s under
 which every operator except the magnitude is exact ring arithmetic. The
 mutating compound operators (`+=`, `-=`, `*=`, `/=`) are pure functions that
 return the new value of the receiver; each free binary operator copies its
 left operand and applies the compound operator to the copy, exactly as the
 C++ does. Division by a quaternion of zero magnitude, which the C++ lets turn
 into NaN/Infinity, is excluded by a precondition.
 */
module Quaternions {

  /** The four coefficients of a + bi + cj + dk. */
  datatype Quaternion = Quaternion(a: real, b: real, c: real, d: real)

  /** The C++ constructor: omitted trailing coefficients default to zero. */
  function Make(a: real := 0.0, b: real := 0.0, c: real := 0.0, d: real := 0.0): Quaternion
  {
    Quaternion(a, b, c, d)
  }

  /** `quaternion(scalar)`: a scalar promoted to (scalar, 0, 0, 0). */
  function FromScalar(s: real): Quaternion
  {
    Make(s)
  }

  const Zero: Quaternion := Quaternion(0.0, 0.0, 0.0, 0.0)
  const One: Quaternion := Quaternion(1.0, 0.0, 0.0, 0.0)

  /** Componentwise scaling by k: the reference meaning of multiplying by a real. */
  function Scale(q: Quaternion, k: real): Quaternion
  {
    Quaternion(k * q.a, k * q.b, k * q.c, k * q.d)
  }

  /** a² + b² + c² + d², the square of the C++ `abs()`. */
  function NormSq(q: Quaternion): (n: real)
    ensures n >= 0.0
  {
    SumOfSquares(q);
    q.a * q.a + q.b * q.b + q.c * q.c + q.d * q.d
  }

  /** A sum of four squares is non-negative, and positive unless every term is zero. */
  lemma SumOfSquares(q: Quaternion)
    ensures q.a * q.a + q.b * q.b + q.c * q.c + q.d * q.d >= 0.0
    ensures q != Zero ==> q.a * q.a + q.b * q.b + q.c * q.c + q.d * q.d > 0.0
  {
  }

  /** The squared magnitude vanishes exactly at the zero quaternion. */
  lemma NormSqZero(q: Quaternion)
    ensures NormSq(q) == 0.0 <==> q == Zero
  {
    if q != Zero {
      calc {
        NormSq(q);
      ==
        q.a * q.a + q.b * q.b + q.c * q.c + q.d * q.d;
      > { SumOfSquares(q); }
        0.0;
      }
    }
  }

  /** `-q`: the additive inverse. */
  function Neg(q: Quaternion): (r: Quaternion)
    ensures AddAssign(q, r) == Zero
    ensures r == Scale(q, -1.0)
  {
    Quaternion(-q.a, -q.b, -q.c, -q.d)
  }

  /** `~q`: the conjugate. The real part is kept; q + ~q is real and q - ~q is pure imaginary. */
  function Conj(q: Quaternion): (r: Quaternion)
    ensures r.a == q.a
    ensures AddAssign(q, r) == FromScalar(2.0 * q.a)
    ensures SubAssign(q, r) == Quaternion(0.0, 2.0 * q.b, 2.0 * q.c, 2.0 * q.d)
  {
    Quaternion(q.a, -q.b, -q.c, -q.d)
  }

  /** `operator==`: componentwise comparison, which is exactly value equality. */
  function Equals(q: Quaternion, rhs: Quaternion): (eq: bool)
    ensures eq <==> q == rhs
  {
    q.a == rhs.a && q.b == rhs.b && q.c == rhs.c && q.d == rhs.d
  }

  /** `operator!=`: the negation of `operator==`. */
  function NotEquals(q: Quaternion, rhs: Quaternion): (ne: bool)
    ensures ne <==> q != rhs
  {
    !Equals(q, rhs)
  }

  // ---------------------------------------------------------------------------
  // Compound operators: each returns the new value of the receiver q.
  // ---------------------------------------------------------------------------

  /** `q += rhs`. */
  function AddAssign(q: Quaternion, rhs: Quaternion): Quaternion
  {
    Quaternion(q.a + rhs.a, q.b + rhs.b, q.c + rhs.c, q.d + rhs.d)
  }

  /** `q += scalar`: adds (scalar, 0, 0, 0), so only the real part moves. */
  function AddAssignScalar(q: Quaternion, s: real): (r: Quaternion)
    ensures r == q.(a := q.a + s)
  {
    AddAssign(q, FromScalar(s))
  }

  /** `q -= rhs`. */
  function SubAssign(q: Quaternion, rhs: Quaternion): Quaternion
  {
    Quaternion(q.a - rhs.a, q.b - rhs.b, q.c - rhs.c, q.d - rhs.d)
  }

  /** `q -= scalar`: subtracts (scalar, 0, 0, 0), so only the real part moves. */
  function SubAssignScalar(q: Quaternion, s: real): (r: Quaternion)
    ensures r == q.(a := q.a - s)
  {
    SubAssign(q, FromScalar(s))
  }

  /** `q *= rhs`: the Hamilton product q·rhs, written term for term as in the C++. */
  function MulAssign(q: Quaternion, rhs: Quaternion): Quaternion
  {
    Quaternion(q.a * rhs.a - q.b * rhs.b - q.c * rhs.c - q.d * rhs.d,
               q.a * rhs.b + rhs.a * q.b + q.c * rhs.d - rhs.c * q.d,
               q.a * rhs.c + rhs.a * q.c + q.d * rhs.b - rhs.d * q.b,
               q.a * rhs.d + rhs.a * q.d + q.b * rhs.c - rhs.b * q.c)
  }

  /** `q *= scalar`: the product with (scalar, 0, 0, 0) scales every coefficient. */
  function MulAssignScalar(q: Quaternion, s: real): (r: Quaternion)
    ensures r == Scale(q, s)
  {
    MulRightScalar(q, s);
    MulAssign(q, FromScalar(s))
  }

  /** `q.inverse()`: the conjugate divided by the squared magnitude, q⁻¹ = ~q / |q|². */
  function Inverse(q: Quaternion): (r: Quaternion)
    requires NormSq(q) != 0.0
    ensures r == Scale(Conj(q), 1.0 / NormSq(q))
  {
    var k := 1.0 / NormSq(q);
    MulRightScalar(Conj(q), k);
    MulScalar(Conj(q), k)
  }

  /** `q /= rhs`: right division, the product with rhs⁻¹. */
  function DivAssign(q: Quaternion, rhs: Quaternion): Quaternion
    requires NormSq(rhs) != 0.0
  {
    MulAssign(q, Inverse(rhs))
  }

  /** `q /= scalar`: division by (scalar, 0, 0, 0) divides every coefficient by it. */
  function DivAssignScalar(q: Quaternion, s: real): (r: Quaternion)
    requires s != 0.0
    ensures r == Scale(q, 1.0 / s)
  {
    InverseOfScalar(s);
    MulRightScalar(q, 1.0 / s);
    DivAssign(q, FromScalar(s))
  }

  // ---------------------------------------------------------------------------
  // Free binary operators: copy the left operand, apply the compound operator.
  // ---------------------------------------------------------------------------

  /** `lhs + rhs`. */
  function Add(lhs: Quaternion, rhs: Quaternion): Quaternion
  {
    AddAssign(lhs, rhs)
  }

  /** `lhs + scalar`. */
  function AddScalar(lhs: Quaternion, s: real): Quaternion
  {
    AddAssign(lhs, FromScalar(s))
  }

  /** `scalar + rhs`: the scalar is promoted first and is the receiver. */
  function ScalarAdd(s: real, rhs: Quaternion): Quaternion
  {
    AddAssign(FromScalar(s), rhs)
  }

  /** `lhs - rhs`. */
  function Sub(lhs: Quaternion, rhs: Quaternion): Quaternion
  {
    SubAssign(lhs, rhs)
  }

  /** `lhs - scalar`. */
  function SubScalar(lhs: Quaternion, s: real): Quaternion
  {
    SubAssign(lhs, FromScalar(s))
  }

  /** `scalar - rhs`: the scalar is promoted first and is the receiver. */
  function ScalarSub(s: real, rhs: Quaternion): Quaternion
  {
    SubAssign(FromScalar(s), rhs)
  }

  /** `lhs * rhs`. */
  function Mul(lhs: Quaternion, rhs: Quaternion): Quaternion
  {
    MulAssign(lhs, rhs)
  }

  /** `lhs * scalar`. */
  function MulScalar(lhs: Quaternion, s: real): Quaternion
  {
    MulAssign(lhs, FromScalar(s))
  }

  /** `scalar * rhs`: the scalar is promoted first and is the left factor. */
  function ScalarMul(s: real, rhs: Quaternion): Quaternion
  {
    MulAssign(FromScalar(s), rhs)
  }

  /** `lhs / rhs`. */
  function Div(lhs: Quaternion, rhs: Quaternion): Quaternion
    requires NormSq(rhs) != 0.0
  {
    DivAssign(lhs, rhs)
  }

  /** `lhs / scalar`. */
  function DivScalar(lhs: Quaternion, s: real): Quaternion
    requires s != 0.0
  {
    InverseOfScalar(s);
    DivAssign(lhs, FromScalar(s))
  }

  /** `scalar / rhs`: the promoted scalar divided on the right by rhs. */
  function ScalarDiv(s: real, rhs: Quaternion): Quaternion
    requires NormSq(rhs) != 0.0
  {
    DivAssign(FromScalar(s), rhs)
  }

  /**
   `q.norm()`, which is `q / q.abs()`. The magnitude m, a square root the
   model cannot compute, is supplied by the caller; the result has unit
   squared magnitude.
   */
  function Normalize(q: Quaternion, m: real): (r: Quaternion)
    requires m > 0.0 && m * m == NormSq(q)
    ensures NormSq(r) == 1.0
    ensures r == Scale(q, 1.0 / m)
  {
    DivScalarScales(q, m);
    NormSqScale(q, 1.0 / m);
    assert (1.0 / m) * (1.0 / m) * (m * m) == 1.0;
    DivScalar(q, m)
  }

  // ---------------------------------------------------------------------------
  // Product lemmas the inverse and the divisions rest on.
  // ---------------------------------------------------------------------------

  /** A promoted scalar on the right of the product scales componentwise. */
  lemma MulRightScalar(q: Quaternion, s: real)
    ensures MulAssign(q, FromScalar(s)) == Scale(q, s)
  {
  }

  /** A promoted scalar on the left of the product scales componentwise. */
  lemma MulLeftScalar(s: real, q: Quaternion)
    ensures MulAssign(FromScalar(s), q) == Scale(q, s)
  {
  }

  lemma MulRightOne(q: Quaternion)
    ensures MulAssign(q, One) == q
  {
    MulRightScalar(q, 1.0);
  }

  /** The product is linear in its right factor under scaling. */
  lemma MulScaleRight(q: Quaternion, r: Quaternion, k: real)
    ensures MulAssign(q, Scale(r, k)) == Scale(MulAssign(q, r), k)
  {
    ScaleRightFactorA(q, r, k);
    ScaleRightFactorB(q, r, k);
    ScaleRightFactorC(q, r, k);
    ScaleRightFactorD(q, r, k);
  }

  /** The product is linear in its left factor under scaling. */
  lemma MulScaleLeft(q: Quaternion, r: Quaternion, k: real)
    ensures MulAssign(Scale(q, k), r) == Scale(MulAssign(q, r), k)
  {
    ScaleLeftFactorA(q, r, k);
    ScaleLeftFactorB(q, r, k);
    ScaleLeftFactorC(q, r, k);
    ScaleLeftFactorD(q, r, k);
  }

  // One coefficient at a time: a scale factor moves out of either factor of the product.
  lemma ScaleRightFactorA(q: Quaternion, r: Quaternion, k: real)
    ensures MulAssign(q, Scale(r, k)).a == k * MulAssign(q, r).a
  {
  }

  lemma ScaleRightFactorB(q: Quaternion, r: Quaternion, k: real)
    ensures MulAssign(q, Scale(r, k)).b == k * MulAssign(q, r).b
  {
  }

  lemma ScaleRightFactorC(q: Quaternion, r: Quaternion, k: real)
    ensures MulAssign(q, Scale(r, k)).c == k * MulAssign(q, r).c
  {
  }

  lemma ScaleRightFactorD(q: Quaternion, r: Quaternion, k: real)
    ensures MulAssign(q, Scale(r, k)).d == k * MulAssign(q, r).d
  {
  }

  lemma ScaleLeftFactorA(q: Quaternion, r: Quaternion, k: real)
    ensures MulAssign(Scale(q, k), r).a == k * MulAssign(q, r).a
  {
  }

  lemma ScaleLeftFactorB(q: Quaternion, r: Quaternion, k: real)
    ensures MulAssign(Scale(q, k), r).b == k * MulAssign(q, r).b
  {
  }

  lemma ScaleLeftFactorC(q: Quaternion, r: Quaternion, k: real)
    ensures MulAssign(Scale(q, k), r).c == k * MulAssign(q, r).c
  {
  }

  lemma ScaleLeftFactorD(q: Quaternion, r: Quaternion, k: real)
    ensures MulAssign(Scale(q, k), r).d == k * MulAssign(q, r).d
  {
  }

  /** q·~q and ~q·q are both the real number |q|². */
  lemma MulConj(q: Quaternion)
    ensures MulAssign(q, Conj(q)) == FromScalar(NormSq(q))
    ensures MulAssign(Conj(q), q) == FromScalar(NormSq(q))
  {
  }

  lemma NormSqScale(q: Quaternion, k: real)
    ensures NormSq(Scale(q, k)) == k * k * NormSq(q)
  {
  }

  /** The Hamilton product is associative. */
  lemma MulAssociative(p: Quaternion, q: Quaternion, r: Quaternion)
    ensures MulAssign(MulAssign(p, q), r) == MulAssign(p, MulAssign(q, r))
  {
    var pq, qr := MulAssign(p, q), MulAssign(q, r);
    ProductAssociates(p.a, p.b, p.c, p.d, q.a, q.b, q.c, q.d, r.a, r.b, r.c, r.d,
                      pq.a, pq.b, pq.c, pq.d, qr.a, qr.b, qr.c, qr.d);
  }

  /**
   Associativity of the product over plain reals: (p0..p3)·(q0..q3) is
   (s0..s3), (q0..q3)·(r0..r3) is (t0..t3), and then s·r equals p·t
   coefficient by coefficient.
   */
  lemma ProductAssociates(p0: real, p1: real, p2: real, p3: real,
                          q0: real, q1: real, q2: real, q3: real,
                          r0: real, r1: real, r2: real, r3: real,
                          s0: real, s1: real, s2: real, s3: real,
                          t0: real, t1: real, t2: real, t3: real)
    requires s0 == p0 * q0 - p1 * q1 - p2 * q2 - p3 * q3
    requires s1 == p0 * q1 + q0 * p1 + p2 * q3 - q2 * p3
    requires s2 == p0 * q2 + q0 * p2 + p3 * q1 - q3 * p1
    requires s3 == p0 * q3 + q0 * p3 + p1 * q2 - q1 * p2
    requires t0 == q0 * r0 - q1 * r1 - q2 * r2 - q3 * r3
    requires t1 == q0 * r1 + r0 * q1 + q2 * r3 - r2 * q3
    requires t2 == q0 * r2 + r0 * q2 + q3 * r1 - r3 * q1
    requires t3 == q0 * r3 + r0 * q3 + q1 * r2 - r1 * q2
    ensures s0 * r0 - s1 * r1 - s2 * r2 - s3 * r3 == p0 * t0 - p1 * t1 - p2 * t2 - p3 * t3
    ensures s0 * r1 + r0 * s1 + s2 * r3 - r2 * s3 == p0 * t1 + t0 * p1 + p2 * t3 - t2 * p3
    ensures s0 * r2 + r0 * s2 + s3 * r1 - r3 * s1 == p0 * t2 + t0 * p2 + p3 * t1 - t3 * p1
    ensures s0 * r3 + r0 * s3 + s1 * r2 - r1 * s2 == p0 * t3 + t0 * p3 + p1 * t2 - t1 * p2
  {
    assert (p0 * q0 - p1 * q1 - p2 * q2 - p3 * q3) * r0 - (p0 * q1 + q0 * p1 + p2 * q3 - q2 * p3) * r1
         - (p0 * q2 + q0 * p2 + p3 * q1 - q3 * p1) * r2 - (p0 * q3 + q0 * p3 + p1 * q2 - q1 * p2) * r3
        == p0 * (q0 * r0 - q1 * r1 - q2 * r2 - q3 * r3) - p1 * (q0 * r1 + r0 * q1 + q2 * r3 - r2 * q3)
         - p2 * (q0 * r2 + r0 * q2 + q3 * r1 - r3 * q1) - p3 * (q0 * r3 + r0 * q3 + q1 * r2 - r1 * q2);
    assert (p0 * q0 - p1 * q1 - p2 * q2 - p3 * q3) * r1 + r0 * (p0 * q1 + q0 * p1 + p2 * q3 - q2 * p3)
         + (p0 * q2 + q0 * p2 + p3 * q1 - q3 * p1) * r3 - r2 * (p0 * q3 + q0 * p3 + p1 * q2 - q1 * p2)
        == p0 * (q0 * r1 + r0 * q1 + q2 * r3 - r2 * q3) + (q0 * r0 - q1 * r1 - q2 * r2 - q3 * r3) * p1
         + p2 * (q0 * r3 + r0 * q3 + q1 * r2 - r1 * q2) - (q0 * r2 + r0 * q2 + q3 * r1 - r3 * q1) * p3;
    assert (p0 * q0 - p1 * q1 - p2 * q2 - p3 * q3) * r2 + r0 * (p0 * q2 + q0 * p2 + p3 * q1 - q3 * p1)
         + (p0 * q3 + q0 * p3 + p1 * q2 - q1 * p2) * r1 - r3 * (p0 * q1 + q0 * p1 + p2 * q3 - q2 * p3)
        == p0 * (q0 * r2 + r0 * q2 + q3 * r1 - r3 * q1) + (q0 * r0 - q1 * r1 - q2 * r2 - q3 * r3) * p2
         + p3 * (q0 * r1 + r0 * q1 + q2 * r3 - r2 * q3) - (q0 * r3 + r0 * q3 + q1 * r2 - r1 * q2) * p1;
    assert (p0 * q0 - p1 * q1 - p2 * q2 - p3 * q3) * r3 + r0 * (p0 * q3 + q0 * p3 + p1 * q2 - q1 * p2)
         + (p0 * q1 + q0 * p1 + p2 * q3 - q2 * p3) * r2 - r1 * (p0 * q2 + q0 * p2 + p3 * q1 - q3 * p1)
        == p0 * (q0 * r3 + r0 * q3 + q1 * r2 - r1 * q2) + (q0 * r0 - q1 * r1 - q2 * r2 - q3 * r3) * p3
         + p1 * (q0 * r2 + r0 * q2 + q3 * r1 - r3 * q1) - (q0 * r1 + r0 * q1 + q2 * r3 - r2 * q3) * p2;
  }

  /** `q / s` scales q by 1/s. */
  lemma DivScalarScales(q: Quaternion, s: real)
    requires s != 0.0
    ensures DivScalar(q, s) == Scale(q, 1.0 / s)
  {
    InverseOfScalar(s);
    MulRightScalar(q, 1.0 / s);
  }

  /** The inverse of a promoted non-zero scalar s is the promoted 1/s. */
  lemma InverseOfScalar(s: real)
    requires s != 0.0
    ensures NormSq(FromScalar(s)) != 0.0
    ensures Inverse(FromScalar(s)) == FromScalar(1.0 / s)
  {
    var n := NormSq(FromScalar(s));
    assert n == s * s;
    assert s * (1.0 / n) == 1.0 / s;
  }
}
