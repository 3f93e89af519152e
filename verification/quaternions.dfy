/** `QuaternionBase<T>`: four scalars in one flat array, the same storage as
    a `Vector<4>`.

    The union gives two views of the array: the components `a b c d`
    (cells 0 to 3), and `scalar` (cell 0) followed by a `Vector<3>` called
    `vector` (cells 1 to 3).  Addition, subtraction, negation and scaling
    are the element-wise kernels of `Elementwise`; the one operation
    particular to quaternions is the Hamilton product. */
module Quaternions {
  import opened Elementwise
  import Vectors

  predicate IsQuaternion(q: seq<real>) {
    |q| == 4
  }

  // The `a b c d` view.

  function A(q: seq<real>): real
    requires IsQuaternion(q)
  {
    q[0]
  }

  function B(q: seq<real>): real
    requires IsQuaternion(q)
  {
    q[1]
  }

  function C(q: seq<real>): real
    requires IsQuaternion(q)
  {
    q[2]
  }

  function D(q: seq<real>): real
    requires IsQuaternion(q)
  {
    q[3]
  }

  // The `scalar` + `vector` view.

  /** `scalar` overlays `a`. */
  function Scalar(q: seq<real>): (s: real)
    requires IsQuaternion(q)
    ensures s == A(q)
  {
    q[0]
  }

  /** `vector` overlays `b`, `c` and `d`, as its `x`, `y` and `z`. */
  function VectorPart(q: seq<real>): (v: seq<real>)
    requires IsQuaternion(q)
    ensures v == Vectors.Vec3(B(q), C(q), D(q))
  {
    q[1..]
  }

  // Constructors.

  /** The default constructor: all four components zero. */
  function DefaultQuaternion(): (q: seq<real>)
    ensures IsQuaternion(q) && q == Zero(4)
    ensures A(q) == 0.0 && B(q) == 0.0 && C(q) == 0.0 && D(q) == 0.0
  {
    Zero(4)
  }

  /** The four-value constructor: `a`, `b`, `c`, `d` in that order. */
  function FromComponents(a: real, b: real, c: real, d: real): (q: seq<real>)
    ensures IsQuaternion(q)
    ensures A(q) == a && B(q) == b && C(q) == c && D(q) == d
  {
    [a, b, c, d]
  }

  /** The scalar + vector constructor. */
  function FromScalarAndVector(s: real, v: seq<real>): (q: seq<real>)
    requires |v| == 3
    ensures IsQuaternion(q)
    ensures Scalar(q) == s && VectorPart(q) == v
  {
    [s] + v
  }

  /** The two views name the same four cells: each constructor can be
      written as the other, and taking a quaternion apart through either
      view and rebuilding it gives it back. */
  lemma ViewsAgree(q: seq<real>, s: real, x: real, y: real, z: real)
    requires IsQuaternion(q)
    ensures FromScalarAndVector(s, Vectors.Vec3(x, y, z)) == FromComponents(s, x, y, z)
    ensures FromComponents(A(q), B(q), C(q), D(q)) == q
    ensures FromScalarAndVector(Scalar(q), VectorPart(q)) == q
  {
    assert [Scalar(q)] + VectorPart(q) == q;
  }

  /** `operator Vector<4>()`: the vector `(a, b, c, d)`, which is the same array. */
  function ToVector4(q: seq<real>): (v: seq<real>)
    requires IsQuaternion(q)
    ensures v == q
    ensures Vectors.X(v) == A(q) && Vectors.Y(v) == B(q) && Vectors.Z(v) == C(q) && Vectors.W(v) == D(q)
  {
    Vectors.Vec4(q[0], q[1], q[2], q[3])
  }

  // The Hamilton product, one function per component.

  function ProductA(a1: real, b1: real, c1: real, d1: real, a2: real, b2: real, c2: real, d2: real): real {
    a1 * a2 - b1 * b2 - c1 * c2 - d1 * d2
  }

  function ProductB(a1: real, b1: real, c1: real, d1: real, a2: real, b2: real, c2: real, d2: real): real {
    a1 * b2 + b1 * a2 + c1 * d2 - d1 * c2
  }

  function ProductC(a1: real, b1: real, c1: real, d1: real, a2: real, b2: real, c2: real, d2: real): real {
    a1 * c2 - b1 * d2 + c1 * a2 + d1 * b2
  }

  function ProductD(a1: real, b1: real, c1: real, d1: real, a2: real, b2: real, c2: real, d2: real): real {
    a1 * d2 + b1 * c2 - c1 * b2 + d1 * a2
  }

  /** `operator*` between quaternions: the Hamilton product, under which
      the units satisfy i^2 = j^2 = k^2 = ijk = -1. */
  function Multiply(p: seq<real>, q: seq<real>): (r: seq<real>)
    requires IsQuaternion(p) && IsQuaternion(q)
    ensures IsQuaternion(r)
  {
    [ProductA(p[0], p[1], p[2], p[3], q[0], q[1], q[2], q[3]),
     ProductB(p[0], p[1], p[2], p[3], q[0], q[1], q[2], q[3]),
     ProductC(p[0], p[1], p[2], p[3], q[0], q[1], q[2], q[3]),
     ProductD(p[0], p[1], p[2], p[3], q[0], q[1], q[2], q[3])]
  }

  /** The quaternion units 1, i, j and k. */
  function Unit(k: nat): (q: seq<real>)
    requires k < 4
    ensures IsQuaternion(q)
    ensures forall t :: 0 <= t < 4 ==> q[t] == if t == k then 1.0 else 0.0
  {
    seq(4, t => if t == k then 1.0 else 0.0)
  }

  // The product in the scalar + vector view.

  /** The product written with `Dot` and `Cross` on the vector parts:
      (s1, v1)(s2, v2) = (s1 s2 - v1 . v2, s1 v2 + s2 v1 + v1 x v2). */
  lemma ScalarVectorForm(p: seq<real>, q: seq<real>)
    requires IsQuaternion(p) && IsQuaternion(q)
    ensures Multiply(p, q) == FromScalarAndVector(
      Scalar(p) * Scalar(q) - Vectors.Dot(VectorPart(p), VectorPart(q)),
      Combine(Plus,
        Combine(Plus, CombineScalar(Times, VectorPart(q), Scalar(p)), CombineScalar(Times, VectorPart(p), Scalar(q))),
        Vectors.Cross(VectorPart(p), VectorPart(q))))
  {
    var u, v := VectorPart(p), VectorPart(q);
    Vectors.DotExpanded(u, v);
    Vectors.CrossComponents(u, v);
    var w := Combine(Plus,
      Combine(Plus, CombineScalar(Times, v, Scalar(p)), CombineScalar(Times, u, Scalar(q))),
      Vectors.Cross(u, v));
    var e := FromScalarAndVector(Scalar(p) * Scalar(q) - Vectors.Dot(u, v), w);
    var r := Multiply(p, q);
    assert u[0] == p[1] && u[1] == p[2] && u[2] == p[3];
    assert v[0] == q[1] && v[1] == q[2] && v[2] == q[3];
    assert Vectors.Dot(u, v) == p[1] * q[1] + p[2] * q[2] + p[3] * q[3];
    assert e[0] == r[0];
    assert e[1] == w[0] == r[1];
    assert e[2] == w[1] == r[2];
    assert e[3] == w[2] == r[3];
  }

  // Algebraic laws.

  /** The unit 1 is neutral on both sides. */
  lemma OneIsNeutral(q: seq<real>)
    requires IsQuaternion(q)
    ensures Multiply(Unit(0), q) == q
    ensures Multiply(q, Unit(0)) == q
  {
    assert Unit(0) == [1.0, 0.0, 0.0, 0.0];
  }

  /** i^2 = j^2 = k^2 = -1, ij = k, jk = i, ki = j, and reversing the order of
      two different imaginary units negates their product: the product does
      not commute. */
  lemma UnitTable()
    ensures Multiply(Unit(1), Unit(1)) == Negate(Unit(0))
    ensures Multiply(Unit(2), Unit(2)) == Negate(Unit(0))
    ensures Multiply(Unit(3), Unit(3)) == Negate(Unit(0))
    ensures Multiply(Unit(1), Unit(2)) == Unit(3) && Multiply(Unit(2), Unit(1)) == Negate(Unit(3))
    ensures Multiply(Unit(2), Unit(3)) == Unit(1) && Multiply(Unit(3), Unit(2)) == Negate(Unit(1))
    ensures Multiply(Unit(3), Unit(1)) == Unit(2) && Multiply(Unit(1), Unit(3)) == Negate(Unit(2))
  {
    assert Unit(0) == [1.0, 0.0, 0.0, 0.0];
    assert Unit(1) == [0.0, 1.0, 0.0, 0.0];
    assert Unit(2) == [0.0, 0.0, 1.0, 0.0];
    assert Unit(3) == [0.0, 0.0, 0.0, 1.0];
  }

  /** The Hamilton product is associative. */
  lemma MultiplyAssociative(p: seq<real>, q: seq<real>, r: seq<real>)
    requires IsQuaternion(p) && IsQuaternion(q) && IsQuaternion(r)
    ensures Multiply(Multiply(p, q), r) == Multiply(p, Multiply(q, r))
  {
    AssociativeA(p[0], p[1], p[2], p[3], q[0], q[1], q[2], q[3], r[0], r[1], r[2], r[3]);
    AssociativeB(p[0], p[1], p[2], p[3], q[0], q[1], q[2], q[3], r[0], r[1], r[2], r[3]);
    AssociativeC(p[0], p[1], p[2], p[3], q[0], q[1], q[2], q[3], r[0], r[1], r[2], r[3]);
    AssociativeD(p[0], p[1], p[2], p[3], q[0], q[1], q[2], q[3], r[0], r[1], r[2], r[3]);
  }

  lemma AssociativeA(
    a1: real, b1: real, c1: real, d1: real,
    a2: real, b2: real, c2: real, d2: real,
    a3: real, b3: real, c3: real, d3: real)
    ensures ProductA(ProductA(a1, b1, c1, d1, a2, b2, c2, d2),
               ProductB(a1, b1, c1, d1, a2, b2, c2, d2),
               ProductC(a1, b1, c1, d1, a2, b2, c2, d2),
               ProductD(a1, b1, c1, d1, a2, b2, c2, d2),
               a3, b3, c3, d3)
      == ProductA(a1, b1, c1, d1,
               ProductA(a2, b2, c2, d2, a3, b3, c3, d3),
               ProductB(a2, b2, c2, d2, a3, b3, c3, d3),
               ProductC(a2, b2, c2, d2, a3, b3, c3, d3),
               ProductD(a2, b2, c2, d2, a3, b3, c3, d3))
  {
  }

  lemma AssociativeB(
    a1: real, b1: real, c1: real, d1: real,
    a2: real, b2: real, c2: real, d2: real,
    a3: real, b3: real, c3: real, d3: real)
    ensures ProductB(ProductA(a1, b1, c1, d1, a2, b2, c2, d2),
               ProductB(a1, b1, c1, d1, a2, b2, c2, d2),
               ProductC(a1, b1, c1, d1, a2, b2, c2, d2),
               ProductD(a1, b1, c1, d1, a2, b2, c2, d2),
               a3, b3, c3, d3)
      == ProductB(a1, b1, c1, d1,
               ProductA(a2, b2, c2, d2, a3, b3, c3, d3),
               ProductB(a2, b2, c2, d2, a3, b3, c3, d3),
               ProductC(a2, b2, c2, d2, a3, b3, c3, d3),
               ProductD(a2, b2, c2, d2, a3, b3, c3, d3))
  {
  }

  lemma AssociativeC(
    a1: real, b1: real, c1: real, d1: real,
    a2: real, b2: real, c2: real, d2: real,
    a3: real, b3: real, c3: real, d3: real)
    ensures ProductC(ProductA(a1, b1, c1, d1, a2, b2, c2, d2),
               ProductB(a1, b1, c1, d1, a2, b2, c2, d2),
               ProductC(a1, b1, c1, d1, a2, b2, c2, d2),
               ProductD(a1, b1, c1, d1, a2, b2, c2, d2),
               a3, b3, c3, d3)
      == ProductC(a1, b1, c1, d1,
               ProductA(a2, b2, c2, d2, a3, b3, c3, d3),
               ProductB(a2, b2, c2, d2, a3, b3, c3, d3),
               ProductC(a2, b2, c2, d2, a3, b3, c3, d3),
               ProductD(a2, b2, c2, d2, a3, b3, c3, d3))
  {
  }

  lemma AssociativeD(
    a1: real, b1: real, c1: real, d1: real,
    a2: real, b2: real, c2: real, d2: real,
    a3: real, b3: real, c3: real, d3: real)
    ensures ProductD(ProductA(a1, b1, c1, d1, a2, b2, c2, d2),
               ProductB(a1, b1, c1, d1, a2, b2, c2, d2),
               ProductC(a1, b1, c1, d1, a2, b2, c2, d2),
               ProductD(a1, b1, c1, d1, a2, b2, c2, d2),
               a3, b3, c3, d3)
      == ProductD(a1, b1, c1, d1,
               ProductA(a2, b2, c2, d2, a3, b3, c3, d3),
               ProductB(a2, b2, c2, d2, a3, b3, c3, d3),
               ProductC(a2, b2, c2, d2, a3, b3, c3, d3),
               ProductD(a2, b2, c2, d2, a3, b3, c3, d3))
  {
  }

  /** The squared norm of a product is the product of the squared norms
      (Euler's four-square identity). */
  lemma NormIsMultiplicative(p: seq<real>, q: seq<real>)
    requires IsQuaternion(p) && IsQuaternion(q)
    ensures Vectors.Dot(Multiply(p, q), Multiply(p, q)) == Vectors.Dot(p, p) * Vectors.Dot(q, q)
  {
    var r := Multiply(p, q);
    DotIsSquaredNorm(r);
    DotIsSquaredNorm(p);
    DotIsSquaredNorm(q);
    FourSquares(p[0], p[1], p[2], p[3], q[0], q[1], q[2], q[3]);
  }

  /** The squared Euclidean norm of the four components. */
  function SquaredNorm(a: real, b: real, c: real, d: real): real {
    a * a + b * b + c * c + d * d
  }

  lemma DotIsSquaredNorm(q: seq<real>)
    requires IsQuaternion(q)
    ensures Vectors.Dot(q, q) == SquaredNorm(q[0], q[1], q[2], q[3])
  {
    Vectors.DotExpanded(q, q);
  }

  lemma FourSquares(a1: real, b1: real, c1: real, d1: real, a2: real, b2: real, c2: real, d2: real)
    ensures SquaredNorm(ProductA(a1, b1, c1, d1, a2, b2, c2, d2), ProductB(a1, b1, c1, d1, a2, b2, c2, d2),
                        ProductC(a1, b1, c1, d1, a2, b2, c2, d2), ProductD(a1, b1, c1, d1, a2, b2, c2, d2))
      == SquaredNorm(a1, b1, c1, d1) * SquaredNorm(a2, b2, c2, d2)
  {
    EulerFourSquares(a1, b1, c1, d1, a2, b2, c2, d2);
  }

  /** Euler's four-square identity, written out. */
  lemma EulerFourSquares(a1: real, b1: real, c1: real, d1: real, a2: real, b2: real, c2: real, d2: real)
    ensures ProductA(a1, b1, c1, d1, a2, b2, c2, d2) * ProductA(a1, b1, c1, d1, a2, b2, c2, d2)
          + ProductB(a1, b1, c1, d1, a2, b2, c2, d2) * ProductB(a1, b1, c1, d1, a2, b2, c2, d2)
          + ProductC(a1, b1, c1, d1, a2, b2, c2, d2) * ProductC(a1, b1, c1, d1, a2, b2, c2, d2)
          + ProductD(a1, b1, c1, d1, a2, b2, c2, d2) * ProductD(a1, b1, c1, d1, a2, b2, c2, d2)
      == (a1 * a1 + b1 * b1 + c1 * c1 + d1 * d1) * (a2 * a2 + b2 * b2 + c2 * c2 + d2 * d2)
  {
  }

  /** A real quaternion (s, 0, 0, 0) commutes with every quaternion, and
      multiplying by it is `operator*` with the scalar `s`. */
  lemma ScalarsAreCentral(q: seq<real>, s: real)
    requires IsQuaternion(q)
    ensures Multiply(q, FromComponents(s, 0.0, 0.0, 0.0)) == CombineScalar(Times, q, s)
    ensures Multiply(FromComponents(s, 0.0, 0.0, 0.0), q) == CombineScalar(Times, q, s)
  {
  }

  /** `operator/` with a scalar multiplies by the real quaternion (1/s, 0, 0, 0),
      and multiplying back by `s` restores the quaternion. */
  lemma ScalarDivision(q: seq<real>, s: real)
    requires IsQuaternion(q) && s != 0.0
    ensures CombineScalar(Over, q, s) == Multiply(q, FromComponents(1.0 / s, 0.0, 0.0, 0.0))
    ensures CombineScalar(Times, CombineScalar(Over, q, s), s) == q
  {
    DivisionIsReciprocalScaling(q, s);
    ScalarsAreCentral(q, 1.0 / s);
    var d := CombineScalar(Over, q, s);
    forall i | 0 <= i < 4
      ensures CombineScalar(Times, d, s)[i] == q[i]
    {
      assert d[i] == q[i] / s;
    }
  }

  // The checked values.

  lemma ConstructorFixtures()
    ensures DefaultQuaternion() == [0.0, 0.0, 0.0, 0.0]
    ensures FromComponents(1.0, 2.0, 3.0, 4.0) == [1.0, 2.0, 3.0, 4.0]
    ensures FromScalarAndVector(1.0, Vectors.Vec3(2.0, 3.0, 4.0)) == [1.0, 2.0, 3.0, 4.0]
    ensures ToVector4(FromComponents(0.0, 1.0, 2.0, 3.0)) == Vectors.Vec4(0.0, 1.0, 2.0, 3.0)
  {
  }

  lemma ArithmeticFixtures()
    ensures UnaryPlus([1.0, 2.0, 3.0, 4.0]) == [1.0, 2.0, 3.0, 4.0]
    ensures Negate([1.0, 2.0, 3.0, 4.0]) == [-1.0, -2.0, -3.0, -4.0]
    ensures Combine(Plus, [1.0, 2.0, 3.0, 4.0], [1.0, 2.0, 3.0, 4.0]) == [2.0, 4.0, 6.0, 8.0]
    ensures Combine(Minus, [1.0, 2.0, 3.0, 4.0], [1.0, 2.0, 3.0, 4.0]) == [0.0, 0.0, 0.0, 0.0]
    ensures Multiply([1.0, 2.0, 3.0, 4.0], [5.0, 6.0, 7.0, 8.0]) == [-60.0, 12.0, 30.0, 24.0]
    ensures CombineScalar(Over, [1.0, 2.0, 3.0, 4.0], 2.0) == [0.5, 1.0, 1.5, 2.0]
  {
  }
}
