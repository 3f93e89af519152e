/** `Vector<2>`, `Vector<3>` and `Vector<4>`: N scalars in one flat array.

    The named members (`x y z w`, `u v`, `r g b a`) are aliases of the
    array's cells, so every accessor here reads one index of the same
    sequence, and a write through any of them is `Elementwise.WithCell`. */
module Vectors {
  import opened Elementwise

  /** The lengths the library specialises `Vector` for. */
  predicate ValidLength(n: int) {
    2 <= n <= 4
  }

  // Constructors.  The zero and broadcast constructors are
  // `Elementwise.Zero` and `Elementwise.Broadcast`.

  function Vec2(x: real, y: real): (v: seq<real>)
    ensures |v| == 2 && X(v) == x && Y(v) == y
  {
    [x, y]
  }

  function Vec3(x: real, y: real, z: real): (v: seq<real>)
    ensures |v| == 3 && X(v) == x && Y(v) == y && Z(v) == z
  {
    [x, y, z]
  }

  function Vec4(x: real, y: real, z: real, w: real): (v: seq<real>)
    ensures |v| == 4 && X(v) == x && Y(v) == y && Z(v) == z && W(v) == w
  {
    [x, y, z, w]
  }

  /** The broadcast constructor equals the per-component one with every argument the same. */
  lemma BroadcastIsPerComponent(s: real)
    ensures Broadcast(2, s) == Vec2(s, s)
    ensures Broadcast(3, s) == Vec3(s, s, s)
    ensures Broadcast(4, s) == Vec4(s, s, s, s)
  {
  }

  // Named components: each one is a fixed index of `raw`.

  function X(v: seq<real>): real
    requires ValidLength(|v|)
  {
    v[0]
  }

  function Y(v: seq<real>): real
    requires ValidLength(|v|)
  {
    v[1]
  }

  function Z(v: seq<real>): real
    requires 3 <= |v| <= 4
  {
    v[2]
  }

  function W(v: seq<real>): real
    requires |v| == 4
  {
    v[3]
  }

  /** `u` (2-vectors only) is the cell of `x`, index 0. */
  function U(v: seq<real>): (r: real)
    requires |v| == 2
    ensures r == X(v) && r == v[0]
  {
    v[0]
  }

  /** `v` (2-vectors only) is the cell of `y`, index 1. */
  function V(v: seq<real>): (r: real)
    requires |v| == 2
    ensures r == Y(v) && r == v[1]
  {
    v[1]
  }

  /** `r` (3- and 4-vectors) is the cell of `x`, index 0. */
  function R(v: seq<real>): (r: real)
    requires 3 <= |v| <= 4
    ensures r == X(v) && r == v[0]
  {
    v[0]
  }

  /** `g` (3- and 4-vectors) is the cell of `y`, index 1. */
  function G(v: seq<real>): (r: real)
    requires 3 <= |v| <= 4
    ensures r == Y(v) && r == v[1]
  {
    v[1]
  }

  /** `b` (3- and 4-vectors) is the cell of `z`, index 2. */
  function B(v: seq<real>): (r: real)
    requires 3 <= |v| <= 4
    ensures r == Z(v) && r == v[2]
  {
    v[2]
  }

  /** `a` (4-vectors only) is the cell of `w`, index 3. */
  function A(v: seq<real>): (r: real)
    requires |v| == 4
    ensures r == W(v) && r == v[3]
  {
    v[3]
  }

  /** Writing cell 0 through `[0]` is seen through `x`, `u` and `r`, and no other cell moves. */
  lemma WriteIsVisibleThroughAliases(v: seq<real>, value: real)
    requires ValidLength(|v|)
    ensures X(WithCell(v, 0, value)) == value
    ensures |v| == 2 ==> U(WithCell(v, 0, value)) == value
    ensures |v| >= 3 ==> R(WithCell(v, 0, value)) == value
    ensures Y(WithCell(v, 0, value)) == Y(v)
  {
  }

  /** A `static_cast` between `float` and `double`; over the reals it changes nothing. */
  function Cast(x: real): real {
    x
  }

  /** `operator Vector<N, float>()` / `operator Vector<N, double>()`: every
      component converted on its own.  Over the reals the conversion is the
      identity, so a float -> double -> float round trip is exact. */
  function ConvertPrecision(v: seq<real>): (r: seq<real>)
    ensures r == v
  {
    seq(|v|, i requires 0 <= i < |v| => Cast(v[i]))
  }

  // Geometry.

  /** Sum of the component-wise products. */
  function Dot(a: seq<real>, b: seq<real>): real
    requires |a| == |b|
    decreases |a|
  {
    if |a| == 0 then 0.0 else a[0] * b[0] + Dot(a[1..], b[1..])
  }

  /** The dot product written out for the three supported lengths. */
  lemma DotExpanded(a: seq<real>, b: seq<real>)
    requires |a| == |b| && ValidLength(|a|)
    ensures |a| == 2 ==> Dot(a, b) == a[0] * b[0] + a[1] * b[1]
    ensures |a| == 3 ==> Dot(a, b) == a[0] * b[0] + a[1] * b[1] + a[2] * b[2]
    ensures |a| == 4 ==> Dot(a, b) == a[0] * b[0] + a[1] * b[1] + a[2] * b[2] + a[3] * b[3]
  {
    if |a| == 2 {
      DotExpanded2(a, b);
    } else if |a| == 3 {
      DotExpanded3(a, b);
    } else {
      DotExpanded4(a, b);
    }
  }

  lemma DotExpanded2(a: seq<real>, b: seq<real>)
    requires |a| == |b| == 2
    ensures Dot(a, b) == a[0] * b[0] + a[1] * b[1]
  {
    assert Dot(a, b) == a[0] * b[0] + Dot(a[1..], b[1..]);
    assert Dot(a[1..], b[1..]) == a[1] * b[1] + Dot(a[2..], b[2..]);
    assert Dot(a[2..], b[2..]) == 0.0;
  }

  lemma DotExpanded3(a: seq<real>, b: seq<real>)
    requires |a| == |b| == 3
    ensures Dot(a, b) == a[0] * b[0] + a[1] * b[1] + a[2] * b[2]
  {
    assert Dot(a, b) == a[0] * b[0] + Dot(a[1..], b[1..]);
    DotExpanded2(a[1..], b[1..]);
  }

  lemma DotExpanded4(a: seq<real>, b: seq<real>)
    requires |a| == |b| == 4
    ensures Dot(a, b) == a[0] * b[0] + a[1] * b[1] + a[2] * b[2] + a[3] * b[3]
  {
    assert Dot(a, b) == a[0] * b[0] + Dot(a[1..], b[1..]);
    DotExpanded3(a[1..], b[1..]);
  }

  lemma {:induction false} DotSymmetric(a: seq<real>, b: seq<real>)
    requires |a| == |b|
    ensures Dot(a, b) == Dot(b, a)
    decreases |a|
  {
    if |a| > 0 {
      DotSymmetric(a[1..], b[1..]);
    }
  }

  /** A vector's dot product with itself is a sum of squares. */
  lemma {:induction false} DotSelfNonNegative(v: seq<real>)
    ensures Dot(v, v) >= 0.0
    decreases |v|
  {
    if |v| > 0 {
      DotSelfNonNegative(v[1..]);
      assert v[0] * v[0] >= 0.0;
    }
  }

  /** A vector whose dot product with itself vanishes has only zero cells. */
  lemma {:induction false} DotSelfZeroMeansZero(v: seq<real>)
    requires Dot(v, v) == 0.0
    ensures v == Zero(|v|)
    decreases |v|
  {
    if |v| > 0 {
      DotSelfNonNegative(v[1..]);
      assert v[0] * v[0] >= 0.0;
      assert v[0] * v[0] == 0.0;
      ProductZero(v[0], v[0]);
      DotSelfZeroMeansZero(v[1..]);
      forall i | 0 <= i < |v|
        ensures v[i] == Zero(|v|)[i]
      {
        if i > 0 {
          assert v[i] == v[1..][i - 1];
        }
      }
    }
  }

  lemma {:induction false} DotZero(v: seq<real>)
    requires v == Zero(|v|)
    ensures Dot(v, v) == 0.0
    decreases |v|
  {
    if |v| > 0 {
      assert v[1..] == Zero(|v| - 1);
      DotZero(v[1..]);
      assert v[0] * v[0] == 0.0;
    }
  }

  /** Only the zero vector has a zero dot product with itself. */
  lemma DotSelfZeroOnlyForZero(v: seq<real>)
    ensures Dot(v, v) == 0.0 <==> v == Zero(|v|)
  {
    if v == Zero(|v|) {
      DotZero(v);
    } else if Dot(v, v) == 0.0 {
      DotSelfZeroMeansZero(v);
    }
  }

  /** Scaling one operand scales the dot product. */
  lemma {:induction false} DotScaleLeft(a: seq<real>, b: seq<real>, c: real)
    requires |a| == |b|
    ensures Dot(CombineScalar(Times, a, c), b) == c * Dot(a, b)
    decreases |a|
  {
    if |a| > 0 {
      var ca := CombineScalar(Times, a, c);
      assert ca[1..] == CombineScalar(Times, a[1..], c);
      DotScaleLeft(a[1..], b[1..], c);
      assert ca[0] * b[0] == c * (a[0] * b[0]);
    }
  }

  /** `len` is the Euclidean norm of `v`: the non-negative square root of `Dot(v, v)`.
      The model cannot compute a square root over the reals, so `Length` is
      stated as this relation. */
  ghost predicate IsLength(v: seq<real>, len: real) {
    len >= 0.0 && len * len == Dot(v, v)
  }

  lemma MulPositive(a: real, b: real)
    requires a > 0.0 && b > 0.0
    ensures a * b > 0.0
  {
  }

  lemma ProductZero(a: real, b: real)
    requires a * b == 0.0
    ensures a == 0.0 || b == 0.0
  {
    if a != 0.0 {
      assert b == (a * b) / a;
    }
  }

  lemma SquareMonotone(x: real, y: real)
    requires 0.0 <= x < y
    ensures x * x < y * y
  {
    MulPositive(y - x, y + x);
    assert (y - x) * (y + x) == y * y - x * x;
  }

  /** At most one value is the length of a vector. */
  lemma LengthIsUnique(v: seq<real>, l1: real, l2: real)
    requires IsLength(v, l1) && IsLength(v, l2)
    ensures l1 == l2
  {
    if l1 < l2 {
      SquareMonotone(l1, l2);
    } else if l2 < l1 {
      SquareMonotone(l2, l1);
    }
  }

  lemma ReciprocalSquared(len: real)
    requires len != 0.0
    ensures (1.0 / len) * ((1.0 / len) * (len * len)) == 1.0
  {
    var c := 1.0 / len;
    assert c * len == 1.0;
    assert c * (c * (len * len)) == (c * len) * (c * len);
  }

  /** `Normalize(v)`: `v` divided by its length (`len`).  The result has length
      one and points the same way: scaling it back by `len` recovers `v`. */
  function Normalize(v: seq<real>, len: real): (r: seq<real>)
    requires IsLength(v, len) && len != 0.0
    ensures |r| == |v|
    ensures IsLength(r, 1.0)
    ensures CombineScalar(Times, r, len) == v
  {
    var r := CombineScalar(Over, v, len);
    QuotientHasUnitLength(v, len);
    QuotientScalesBack(v, len);
    r
  }

  /** Dividing by `len` is multiplying by its reciprocal. */
  lemma QuotientIsReciprocalScale(v: seq<real>, len: real)
    requires len != 0.0
    ensures CombineScalar(Over, v, len) == CombineScalar(Times, v, 1.0 / len)
  {
    var r := CombineScalar(Over, v, len);
    forall i | 0 <= i < |v|
      ensures r[i] == CombineScalar(Times, v, 1.0 / len)[i]
    {
      assert v[i] / len == v[i] * (1.0 / len);
    }
  }

  lemma QuotientHasUnitLength(v: seq<real>, len: real)
    requires IsLength(v, len) && len != 0.0
    ensures IsLength(CombineScalar(Over, v, len), 1.0)
  {
    var r := CombineScalar(Over, v, len);
    var inv := 1.0 / len;
    QuotientIsReciprocalScale(v, len);
    DotScaleLeft(v, r, inv);
    DotSymmetric(v, r);
    DotScaleLeft(v, v, inv);
    ReciprocalSquared(len);
  }

  lemma QuotientScalesBack(v: seq<real>, len: real)
    requires len != 0.0
    ensures CombineScalar(Times, CombineScalar(Over, v, len), len) == v
  {
    var r := CombineScalar(Over, v, len);
    forall i | 0 <= i < |v|
      ensures CombineScalar(Times, r, len)[i] == v[i]
    {
      assert r[i] == v[i] / len;
      assert (v[i] / len) * len == v[i];
    }
  }

  /** The 3D cross product. */
  function Cross(a: seq<real>, b: seq<real>): (r: seq<real>)
    requires |a| == 3 && |b| == 3
    ensures |r| == 3
  {
    [a[1] * b[2] - a[2] * b[1],
     a[2] * b[0] - a[0] * b[2],
     a[0] * b[1] - a[1] * b[0]]
  }

  /** The cross product of two 4-vectors uses their x, y, z parts and leaves w at zero. */
  function Cross4(a: seq<real>, b: seq<real>): (r: seq<real>)
    requires |a| == 4 && |b| == 4
    ensures |r| == 4 && r[..3] == Cross(a[..3], b[..3]) && W(r) == 0.0
  {
    Cross(a[..3], b[..3]) + [0.0]
  }

  /** The scalar triple products [a, a, b] and [b, a, b] vanish, written over reals
      as "two terms equal minus the third". */
  lemma TripleProductWithLeft(c0: real, c1: real, c2: real,
                              a0: real, a1: real, a2: real, b0: real, b1: real, b2: real)
    requires c0 == a1 * b2 - a2 * b1 && c1 == a2 * b0 - a0 * b2 && c2 == a0 * b1 - a1 * b0
    ensures c0 * a0 + c1 * a1 == -(c2 * a2)
  {
    assert c0 * a0 == a1 * b2 * a0 - a2 * b1 * a0;
    assert c1 * a1 == a2 * b0 * a1 - a0 * b2 * a1;
    assert c2 * a2 == a0 * b1 * a2 - a1 * b0 * a2;
  }

  lemma TripleProductWithRight(c0: real, c1: real, c2: real,
                               a0: real, a1: real, a2: real, b0: real, b1: real, b2: real)
    requires c0 == a1 * b2 - a2 * b1 && c1 == a2 * b0 - a0 * b2 && c2 == a0 * b1 - a1 * b0
    ensures c0 * b0 + c1 * b1 == -(c2 * b2)
  {
    assert c0 * b0 == a1 * b2 * b0 - a2 * b1 * b0;
    assert c1 * b1 == a2 * b0 * b1 - a0 * b2 * b1;
    assert c2 * b2 == a0 * b1 * b2 - a1 * b0 * b2;
  }

  /** The cross product is perpendicular to both operands. */
  lemma CrossIsOrthogonal(a: seq<real>, b: seq<real>)
    requires |a| == 3 && |b| == 3
    ensures Dot(Cross(a, b), a) == 0.0 && Dot(Cross(a, b), b) == 0.0
  {
    CrossOrthogonalToLeft(a, b);
    CrossOrthogonalToRight(a, b);
  }

  lemma CrossOrthogonalToLeft(a: seq<real>, b: seq<real>)
    requires |a| == 3 && |b| == 3
    ensures Dot(Cross(a, b), a) == 0.0
  {
    CrossTripleLeft(a, b);
    Dot3Vanishes(Cross(a, b), a);
  }

  lemma CrossOrthogonalToRight(a: seq<real>, b: seq<real>)
    requires |a| == 3 && |b| == 3
    ensures Dot(Cross(a, b), b) == 0.0
  {
    CrossTripleRight(a, b);
    Dot3Vanishes(Cross(a, b), b);
  }

  lemma CrossTripleLeft(a: seq<real>, b: seq<real>)
    requires |a| == 3 && |b| == 3
    ensures ThirdTermCancels(Cross(a, b), a)
  {
    var c := Cross(a, b);
    CrossComponents(a, b);
    TripleProductWithLeft(c[0], c[1], c[2], a[0], a[1], a[2], b[0], b[1], b[2]);
  }

  lemma CrossTripleRight(a: seq<real>, b: seq<real>)
    requires |a| == 3 && |b| == 3
    ensures ThirdTermCancels(Cross(a, b), b)
  {
    var c := Cross(a, b);
    CrossComponents(a, b);
    TripleProductWithRight(c[0], c[1], c[2], a[0], a[1], a[2], b[0], b[1], b[2]);
  }

  /** The first two terms of the 3-vector dot product cancel the third. */
  predicate ThirdTermCancels(c: seq<real>, x: seq<real>)
    requires |c| == 3 && |x| == 3
  {
    c[0] * x[0] + c[1] * x[1] == -(c[2] * x[2])
  }

  /** A dot product of 3-vectors whose first two terms cancel the third is zero. */
  lemma Dot3Vanishes(c: seq<real>, x: seq<real>)
    requires |c| == 3 && |x| == 3
    requires ThirdTermCancels(c, x)
    ensures Dot(c, x) == 0.0
  {
    DotExpanded(c, x);
  }

  lemma CrossComponents(a: seq<real>, b: seq<real>)
    requires |a| == 3 && |b| == 3
    ensures Cross(a, b)[0] == a[1] * b[2] - a[2] * b[1]
    ensures Cross(a, b)[1] == a[2] * b[0] - a[0] * b[2]
    ensures Cross(a, b)[2] == a[0] * b[1] - a[1] * b[0]
  {
  }

  /** Swapping the operands negates the cross product. */
  lemma CrossAnticommutes(a: seq<real>, b: seq<real>)
    requires |a| == 3 && |b| == 3
    ensures Cross(a, b) == Negate(Cross(b, a))
  {
  }

  /** The 4-vector cross product keeps the laws of the 3D one for every pair
      of 4-vectors, whatever their w: the result is perpendicular to both
      operands (its w of zero contributes nothing), and swapping the operands
      negates it. */
  lemma Cross4IsOrthogonalAndAnticommutes(a: seq<real>, b: seq<real>)
    requires |a| == 4 && |b| == 4
    ensures Dot(Cross4(a, b), a) == 0.0 && Dot(Cross4(a, b), b) == 0.0
    ensures Cross4(a, b) == Negate(Cross4(b, a))
  {
    Cross4Orthogonal(a, b, a);
    Cross4Orthogonal(a, b, b);
    Cross4Anticommutes(a, b);
  }

  /** Dotting `Cross4(a, b)` with a 4-vector ignores its w and reduces to the
      3D cross product against the x, y, z part, which is zero for `a` and `b`. */
  lemma Cross4Orthogonal(a: seq<real>, b: seq<real>, x: seq<real>)
    requires |a| == 4 && |b| == 4 && (x == a || x == b)
    ensures Dot(Cross4(a, b), x) == 0.0
  {
    var r := Cross4(a, b);
    var c := Cross(a[..3], b[..3]);
    assert r[0] == c[0] && r[1] == c[1] && r[2] == c[2] && r[3] == 0.0;
    CrossIsOrthogonal(a[..3], b[..3]);
    DotExpanded4(r, x);
    DotExpanded3(c, x[..3]);
  }

  lemma Cross4Anticommutes(a: seq<real>, b: seq<real>)
    requires |a| == 4 && |b| == 4
    ensures Cross4(a, b) == Negate(Cross4(b, a))
  {
    var r, s := Cross4(a, b), Cross4(b, a);
    CrossAnticommutes(a[..3], b[..3]);
    forall k | 0 <= k < 4
      ensures r[k] == Negate(s)[k]
    {
      if k < 3 {
        assert r[k] == Cross(a[..3], b[..3])[k];
        assert s[k] == Cross(b[..3], a[..3])[k];
      }
    }
  }

  lemma DotFixtures()
    ensures Dot(Vec2(3.0, 4.0), Vec2(3.0, 4.0)) == 25.0
    ensures Dot(Vec3(3.0, 4.0, 5.0), Vec3(3.0, 4.0, 2.0)) == 35.0
    ensures Dot(Vec4(3.0, 4.0, 5.0, 4.0), Vec4(3.0, 4.0, 2.0, 20.0)) == 115.0
  {
    DotExpanded(Vec2(3.0, 4.0), Vec2(3.0, 4.0));
    DotExpanded(Vec3(3.0, 4.0, 5.0), Vec3(3.0, 4.0, 2.0));
    DotExpanded(Vec4(3.0, 4.0, 5.0, 4.0), Vec4(3.0, 4.0, 2.0, 20.0));
  }

  /** Length((3,4)) == 5, Length((3,4,12)) == 13 and Length((4,4,2,8)) == 10, and no other value. */
  lemma LengthFixtures(l2: real, l3: real, l4: real)
    ensures IsLength(Vec2(3.0, 4.0), 5.0)
    ensures IsLength(Vec3(3.0, 4.0, 12.0), 13.0)
    ensures IsLength(Vec4(4.0, 4.0, 2.0, 8.0), 10.0)
    ensures IsLength(Vec2(3.0, 4.0), l2) ==> l2 == 5.0
    ensures IsLength(Vec3(3.0, 4.0, 12.0), l3) ==> l3 == 13.0
    ensures IsLength(Vec4(4.0, 4.0, 2.0, 8.0), l4) ==> l4 == 10.0
  {
    DotExpanded(Vec2(3.0, 4.0), Vec2(3.0, 4.0));
    DotExpanded(Vec3(3.0, 4.0, 12.0), Vec3(3.0, 4.0, 12.0));
    DotExpanded(Vec4(4.0, 4.0, 2.0, 8.0), Vec4(4.0, 4.0, 2.0, 8.0));
    if IsLength(Vec2(3.0, 4.0), l2) {
      LengthIsUnique(Vec2(3.0, 4.0), l2, 5.0);
    }
    if IsLength(Vec3(3.0, 4.0, 12.0), l3) {
      LengthIsUnique(Vec3(3.0, 4.0, 12.0), l3, 13.0);
    }
    if IsLength(Vec4(4.0, 4.0, 2.0, 8.0), l4) {
      LengthIsUnique(Vec4(4.0, 4.0, 2.0, 8.0), l4, 10.0);
    }
  }

  /** Normalize divides by the fixture lengths 5, 13 and 10. */
  lemma NormalizeFixtures()
    ensures IsLength(Vec2(3.0, 4.0), 5.0)
      && Normalize(Vec2(3.0, 4.0), 5.0) == Vec2(3.0 / 5.0, 4.0 / 5.0)
    ensures IsLength(Vec3(3.0, 4.0, 12.0), 13.0)
      && Normalize(Vec3(3.0, 4.0, 12.0), 13.0) == Vec3(3.0 / 13.0, 4.0 / 13.0, 12.0 / 13.0)
    ensures IsLength(Vec4(4.0, 4.0, 2.0, 8.0), 10.0)
      && Normalize(Vec4(4.0, 4.0, 2.0, 8.0), 10.0) == Vec4(0.4, 0.4, 0.2, 0.8)
  {
    LengthFixtures(0.0, 0.0, 0.0);
  }

  lemma CrossFixtures()
    ensures Cross(Vec3(2.0, 2.0, 1.0), Vec3(1.0, -2.0, 0.0)) == Vec3(2.0, 1.0, -6.0)
    ensures Cross4(Vec4(2.0, 2.0, 1.0, 0.0), Vec4(1.0, -2.0, 0.0, 0.0)) == Vec4(2.0, 1.0, -6.0, 0.0)
  {
    assert Vec4(2.0, 2.0, 1.0, 0.0)[..3] == Vec3(2.0, 2.0, 1.0);
    assert Vec4(1.0, -2.0, 0.0, 0.0)[..3] == Vec3(1.0, -2.0, 0.0);
  }
}
