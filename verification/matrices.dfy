/** `Matrix<2,2>`, `Matrix<3,3>` and `Matrix<4,4>`: N*N scalars in one flat
    array, row by row.

    The named members `m11 .. mNN` alias `raw`: `m<i><j>` (one-based) is
    `raw[(i - 1) * N + (j - 1)]`.  Here a matrix of order `n` is a
    `seq<real>` of length `n * n`, and `Cell(n, m, i, j)` is the zero-based
    alias `m<i+1><j+1>`.  The element-wise operators, equality and indexed
    writes are those of `Elementwise`; this module adds what is particular
    to matrices: the diagonal constructor, the row-by-column product,
    `Transpose`, the 4x4 matrix-vector products and the orthographic
    projection builder. */
module Matrices {
  import opened Elementwise
  import opened Vectors

  /** A matrix of one of the supported orders. */
  predicate IsMatrix(n: int, m: seq<real>) {
    ValidLength(n) && |m| == n * n
  }

  // Row-major layout.

  /** Index arithmetic for orders 1 to 4 (order 1 occurs only as a minor of a 2x2 matrix). */
  lemma OffsetFacts(n: nat, i: nat, j: nat)
    requires 1 <= n <= 4 && i < n && j < n
    ensures i * n + j < n * n
    ensures (i * n + j) / n == i && (i * n + j) % n == j
  {
    if n == 1 {
      assert i * n == 0;
    } else if n == 2 {
      assert i * n == i * 2;
    } else if n == 3 {
      assert i * n == i * 3;
    } else {
      assert i * n == i * 4;
    }
  }

  /** Every index below `n * n` is the offset of exactly one (row, column) pair. */
  lemma SplitOffset(n: nat, k: nat)
    requires 1 <= n <= 4 && k < n * n
    ensures k / n < n && k % n < n
    ensures (k / n) * n + k % n == k
  {
    if n == 1 {
    } else if n == 2 {
      assert (k / n) * n == (k / 2) * 2;
    } else if n == 3 {
      assert (k / n) * n == (k / 3) * 3;
    } else {
      assert (k / n) * n == (k / 4) * 4;
    }
  }

  /** Where the zero-based cell (i, j) lives in `raw`. */
  function Offset(n: nat, i: nat, j: nat): (k: nat)
    requires 1 <= n <= 4 && i < n && j < n
    ensures k < n * n && k / n == i && k % n == j
  {
    OffsetFacts(n, i, j);
    i * n + j
  }

  /** The alias `m<i+1><j+1>`. */
  function Cell(n: nat, m: seq<real>, i: nat, j: nat): real
    requires 1 <= n <= 4 && |m| == n * n && i < n && j < n
  {
    m[Offset(n, i, j)]
  }

  /** Two matrices with the same cells under every alias are the same matrix. */
  lemma CellsDetermineMatrix(n: nat, a: seq<real>, b: seq<real>)
    requires 1 <= n <= 4 && |a| == n * n && |b| == n * n
    requires forall i, j :: 0 <= i < n && 0 <= j < n ==> Cell(n, a, i, j) == Cell(n, b, i, j)
    ensures a == b
  {
    forall k | 0 <= k < n * n
      ensures a[k] == b[k]
    {
      SplitOffset(n, k);
      assert Offset(n, k / n, k % n) == k;
      assert Cell(n, a, k / n, k % n) == Cell(n, b, k / n, k % n);
    }
  }

  // Constructors.

  /** The default constructor: every cell zero. */
  function ZeroMatrix(n: nat): (m: seq<real>)
    requires ValidLength(n)
    ensures IsMatrix(n, m)
    ensures forall i, j :: 0 <= i < n && 0 <= j < n ==> Cell(n, m, i, j) == 0.0
  {
    Zero(n * n)
  }

  /** The one-scalar constructor: the value on the diagonal `m11, m22, ...`
      and zero in every other cell. */
  function Diagonal(n: nat, s: real): (m: seq<real>)
    requires ValidLength(n)
    ensures IsMatrix(n, m)
    ensures forall i, j :: 0 <= i < n && 0 <= j < n ==>
      Cell(n, m, i, j) == if i == j then s else 0.0
  {
    seq(n * n, k requires 0 <= k < n * n => if k / n == k % n then s else 0.0)
  }

  /** `Identity()`: ones on the diagonal, zeros elsewhere. */
  function Identity(n: nat): (m: seq<real>)
    requires ValidLength(n)
    ensures IsMatrix(n, m)
    ensures forall i, j :: 0 <= i < n && 0 <= j < n ==>
      Cell(n, m, i, j) == if i == j then 1.0 else 0.0
  {
    Diagonal(n, 1.0)
  }

  /** The per-element and array constructors: argument `k` lands in
      `raw[k]`, which is the cell in row `k / n` and column `k % n`. */
  function FromRowMajor(n: nat, values: seq<real>): (m: seq<real>)
    requires ValidLength(n) && |values| == n * n
    ensures IsMatrix(n, m)
    ensures forall k :: 0 <= k < n * n ==> k / n < n && k % n < n && Cell(n, m, k / n, k % n) == values[k]
  {
    forall k | 0 <= k < n * n
      ensures k / n < n && k % n < n && Offset(n, k / n, k % n) == k
    {
      SplitOffset(n, k);
    }
    values
  }

  /** The one-scalar constructor with 1 is `Identity()`, and with 0 it is the default constructor. */
  lemma DiagonalSpecialCases(n: nat)
    requires ValidLength(n)
    ensures Diagonal(n, 1.0) == Identity(n)
    ensures Diagonal(n, 0.0) == ZeroMatrix(n)
  {
    CellsDetermineMatrix(n, Diagonal(n, 0.0), ZeroMatrix(n));
  }

  /** The four-value constructor is row-major: `m12` is the second argument and
      `m21` the third; the sixteen-value one puts its fifth argument at `m21`. */
  lemma RowMajorFixtures(a: real, b: real, c: real, d: real)
    ensures Cell(2, FromRowMajor(2, [a, b, c, d]), 0, 1) == b
    ensures Cell(2, FromRowMajor(2, [a, b, c, d]), 1, 0) == c
    ensures Cell(2, FromRowMajor(2, [a, b, c, d]), 1, 1) == d
    ensures Cell(4, FromRowMajor(4, [a, b, c, d, a, b, c, d, a, b, c, d, a, b, c, d]), 1, 0) == a
  {
  }

  // Equality and scalar operators.

  /** `operator==` compares the N*N aliases one by one. */
  lemma EqualityIsCellwise(n: nat, a: seq<real>, b: seq<real>)
    requires IsMatrix(n, a) && IsMatrix(n, b)
    ensures Equal(a, b) <==> forall i, j :: 0 <= i < n && 0 <= j < n ==> Cell(n, a, i, j) == Cell(n, b, i, j)
  {
    if forall i, j :: 0 <= i < n && 0 <= j < n ==> Cell(n, a, i, j) == Cell(n, b, i, j) {
      CellsDetermineMatrix(n, a, b);
    }
  }

  /** Writing a different value into any alias makes `!=` true. */
  lemma ChangingAnyCellBreaksEquality(n: nat, m: seq<real>, i: nat, j: nat, value: real)
    requires IsMatrix(n, m) && i < n && j < n && value != Cell(n, m, i, j)
    ensures NotEqual(m, WithCell(m, Offset(n, i, j), value))
  {
    ChangingOneCellBreaksEquality(m, Offset(n, i, j), value);
  }

  /** The scalar operators reach every cell, off-diagonal ones included, so
      adding `s` to the zero matrix is not the diagonal constructor `Matrix(s)`
      unless `s` is zero. */
  lemma ScalarOperatorsTouchEveryCell(n: nat, op: Op, m: seq<real>, s: real)
    requires IsMatrix(n, m) && Defined(op, s)
    ensures forall i, j :: 0 <= i < n && 0 <= j < n ==>
      Cell(n, CombineScalar(op, m, s), i, j) == Apply(op, Cell(n, m, i, j), s)
    ensures CombineScalar(Plus, ZeroMatrix(n), s) == Diagonal(n, s) <==> s == 0.0
  {
    var sum := CombineScalar(Plus, ZeroMatrix(n), s);
    if s == 0.0 {
      CellsDetermineMatrix(n, sum, Diagonal(n, s));
    } else {
      assert Cell(n, sum, 0, 1) != Cell(n, Diagonal(n, s), 0, 1);
    }
  }

  // Rows, columns and the product.

  function Row(n: nat, m: seq<real>, i: nat): (r: seq<real>)
    requires 1 <= n <= 4 && |m| == n * n && i < n
    ensures |r| == n && forall t :: 0 <= t < n ==> r[t] == Cell(n, m, i, t)
  {
    seq(n, t requires 0 <= t < n => Cell(n, m, i, t))
  }

  function Column(n: nat, m: seq<real>, j: nat): (c: seq<real>)
    requires 1 <= n <= 4 && |m| == n * n && j < n
    ensures |c| == n && forall t :: 0 <= t < n ==> c[t] == Cell(n, m, t, j)
  {
    seq(n, t requires 0 <= t < n => Cell(n, m, t, j))
  }

  /** The row-by-column product of textbook algebra: cell (i, j) is row i of
      `a` dotted with column j of `b`.  The library's `operator*` is `Multiply`
      below, which applies it to the operands in the other order. */
  function Product(n: nat, a: seq<real>, b: seq<real>): (r: seq<real>)
    requires IsMatrix(n, a) && IsMatrix(n, b)
    ensures IsMatrix(n, r)
    ensures forall i, j :: 0 <= i < n && 0 <= j < n ==>
      Cell(n, r, i, j) == Dot(Row(n, a, i), Column(n, b, j))
  {
    forall k | 0 <= k < n * n
      ensures k / n < n && k % n < n
    {
      SplitOffset(n, k);
    }
    seq(n * n, k requires 0 <= k < n * n => Dot(Row(n, a, k / n), Column(n, b, k % n)))
  }

  /** `Transpose`: cell (i, j) of the result is cell (j, i) of the argument.
      Order 1 is admitted for the minors of a 2x2 matrix. */
  function Transpose(n: nat, m: seq<real>): (r: seq<real>)
    requires 1 <= n <= 4 && |m| == n * n
    ensures |r| == n * n
    ensures forall i, j :: 0 <= i < n && 0 <= j < n ==> Cell(n, r, i, j) == Cell(n, m, j, i)
    ensures forall k :: 0 <= k < n * n ==> k / n < n && k % n < n && r[k] == Cell(n, m, k % n, k / n)
  {
    forall k | 0 <= k < n * n
      ensures k / n < n && k % n < n
    {
      SplitOffset(n, k);
    }
    seq(n * n, k requires 0 <= k < n * n => Cell(n, m, k % n, k / n))
  }

  /** `operator*` between matrices.  Its result matches, byte for byte, that of
      a column-major library given the same arrays, so through the row-major
      aliases `m<i><j>` cell (i, j) is row i of the RIGHT operand dotted with
      column j of the LEFT one.  Read column-major (transposed), it is the
      row-by-column product of the operands in their written order. */
  function Multiply(n: nat, lhs: seq<real>, rhs: seq<real>): (r: seq<real>)
    requires IsMatrix(n, lhs) && IsMatrix(n, rhs)
    ensures IsMatrix(n, r)
    ensures Transpose(n, r) == Product(n, Transpose(n, lhs), Transpose(n, rhs))
  {
    TransposeOfProduct(n, rhs, lhs);
    Product(n, rhs, lhs)
  }

  /** Appending one term to each operand adds one product to the dot product. */
  lemma {:induction false} DotAppend(a: seq<real>, b: seq<real>, x: real, y: real)
    requires |a| == |b|
    ensures Dot(a + [x], b + [y]) == Dot(a, b) + x * y
    decreases |a|
  {
    if |a| == 0 {
      assert (a + [x])[1..] == [];
      assert (b + [y])[1..] == [];
    } else {
      assert (a + [x])[1..] == a[1..] + [x];
      assert (b + [y])[1..] == b[1..] + [y];
      DotAppend(a[1..], b[1..], x, y);
    }
  }

  /** Compound `*=` between matrices, computed the way a loop over the cells
      does it: each cell (i, j) is row i of the right operand dotted with
      column j of the left one, accumulated term by term into a fresh result.
      It leaves the same value as `operator*`. */
  method MultiplyAssign(n: nat, lhs: seq<real>, rhs: seq<real>) returns (result: seq<real>)
    requires IsMatrix(n, lhs) && IsMatrix(n, rhs)
    ensures result == Multiply(n, lhs, rhs)
  {
    ghost var p := Product(n, rhs, lhs);
    result := [];
    var k := 0;
    while k < n * n
      invariant 0 <= k <= n * n && result == p[..k]
    {
      SplitOffset(n, k);
      var acc := AccumulateDot(Row(n, rhs, k / n), Column(n, lhs, k % n));
      assert p[..k + 1] == p[..k] + [p[k]];
      result := result + [acc];
      k := k + 1;
    }
    assert p[..n * n] == p;
  }

  /** The inner loop of `*=`: one cell's dot product, accumulated term by term. */
  method AccumulateDot(u: seq<real>, v: seq<real>) returns (acc: real)
    requires |u| == |v|
    ensures acc == Dot(u, v)
  {
    acc := 0.0;
    var t := 0;
    while t < |u|
      invariant 0 <= t <= |u|
      invariant acc == Dot(u[..t], v[..t])
    {
      assert u[..t + 1] == u[..t] + [u[t]];
      assert v[..t + 1] == v[..t] + [v[t]];
      DotAppend(u[..t], v[..t], u[t], v[t]);
      acc := acc + u[t] * v[t];
      t := t + 1;
    }
    assert u[..t] == u && v[..t] == v;
  }

  // Identity, transposition and the product.

  /** Dotting with a unit vector picks one component. */
  lemma {:induction false} DotUnit(u: seq<real>, v: seq<real>, i: nat)
    requires |u| == |v| && i < |u|
    requires forall t :: 0 <= t < |u| ==> u[t] == if t == i then 1.0 else 0.0
    ensures Dot(u, v) == v[i]
    ensures Dot(v, u) == v[i]
    decreases |u|
  {
    DotSymmetric(u, v);
    if i == 0 {
      DotZero(u[1..]);
      DotVanishesAgainstZero(u[1..], v[1..]);
    } else {
      DotUnit(u[1..], v[1..], i - 1);
    }
  }

  /** The zero vector dotted with anything is zero. */
  lemma {:induction false} DotVanishesAgainstZero(z: seq<real>, v: seq<real>)
    requires |z| == |v| && z == Zero(|z|)
    ensures Dot(z, v) == 0.0
    decreases |z|
  {
    if |z| > 0 {
      assert z[1..] == Zero(|z| - 1);
      DotVanishesAgainstZero(z[1..], v[1..]);
    }
  }

  /** `Identity()` is neutral for the product on both sides. */
  lemma IdentityIsNeutral(n: nat, m: seq<real>)
    requires IsMatrix(n, m)
    ensures Product(n, Identity(n), m) == m
    ensures Product(n, m, Identity(n)) == m
    ensures Multiply(n, Identity(n), m) == m
    ensures Multiply(n, m, Identity(n)) == m
  {
    var id := Identity(n);
    forall i, j | 0 <= i < n && 0 <= j < n
      ensures Cell(n, Product(n, id, m), i, j) == Cell(n, m, i, j)
      ensures Cell(n, Product(n, m, id), i, j) == Cell(n, m, i, j)
    {
      DotUnit(Row(n, id, i), Column(n, m, j), i);
      DotUnit(Column(n, id, j), Row(n, m, i), j);
    }
    CellsDetermineMatrix(n, Product(n, id, m), m);
    CellsDetermineMatrix(n, Product(n, m, id), m);
  }

  /** Transposing twice gives back the original matrix. */
  lemma TransposeInvolution(n: nat, m: seq<real>)
    requires 1 <= n <= 4 && |m| == n * n
    ensures Transpose(n, Transpose(n, m)) == m
  {
    CellsDetermineMatrix(n, Transpose(n, Transpose(n, m)), m);
  }

  /** `Identity()` and the one-scalar constructor are their own transposes. */
  lemma DiagonalIsSymmetric(n: nat, s: real)
    requires ValidLength(n)
    ensures Transpose(n, Diagonal(n, s)) == Diagonal(n, s)
  {
    CellsDetermineMatrix(n, Transpose(n, Diagonal(n, s)), Diagonal(n, s));
  }

  /** Transposition reverses the order of a product. */
  lemma TransposeOfProduct(n: nat, a: seq<real>, b: seq<real>)
    requires IsMatrix(n, a) && IsMatrix(n, b)
    ensures Transpose(n, Product(n, a, b)) == Product(n, Transpose(n, b), Transpose(n, a))
  {
    var lhs := Transpose(n, Product(n, a, b));
    var rhs := Product(n, Transpose(n, b), Transpose(n, a));
    forall i, j | 0 <= i < n && 0 <= j < n
      ensures Cell(n, lhs, i, j) == Cell(n, rhs, i, j)
    {
      assert Row(n, Transpose(n, b), i) == Column(n, b, i);
      assert Column(n, Transpose(n, a), j) == Row(n, a, j);
      DotSymmetric(Row(n, a, j), Column(n, b, i));
    }
    CellsDetermineMatrix(n, lhs, rhs);
  }

  /** Scaling either operand of `*` by s scales the result by s. */
  lemma MultiplyScales(n: nat, a: seq<real>, b: seq<real>, s: real)
    requires IsMatrix(n, a) && IsMatrix(n, b)
    ensures Multiply(n, CombineScalar(Times, a, s), b) == CombineScalar(Times, Multiply(n, a, b), s)
    ensures Multiply(n, a, CombineScalar(Times, b, s)) == CombineScalar(Times, Multiply(n, a, b), s)
  {
    ProductScalesRight(n, b, a, s);
    ProductScalesLeft(n, b, a, s);
  }

  /** Scaling the right operand of a product scales the product. */
  lemma ProductScalesRight(n: nat, a: seq<real>, b: seq<real>, s: real)
    requires IsMatrix(n, a) && IsMatrix(n, b)
    ensures Product(n, a, CombineScalar(Times, b, s)) == CombineScalar(Times, Product(n, a, b), s)
  {
    var p := Product(n, a, b);
    var lhs := Product(n, a, CombineScalar(Times, b, s));
    var rhs := CombineScalar(Times, p, s);
    forall i, j | 0 <= i < n && 0 <= j < n
      ensures Cell(n, lhs, i, j) == Cell(n, rhs, i, j)
    {
      ProductScalesRightAt(n, a, b, s, i, j);
      ScaledCell(n, p, s, i, j);
      assert Cell(n, lhs, i, j) == s * Cell(n, p, i, j);
    }
    CellsDetermineMatrix(n, lhs, rhs);
  }

  lemma ProductScalesRightAt(n: nat, a: seq<real>, b: seq<real>, s: real, i: nat, j: nat)
    requires IsMatrix(n, a) && IsMatrix(n, b) && i < n && j < n
    ensures Cell(n, Product(n, a, CombineScalar(Times, b, s)), i, j) == s * Cell(n, Product(n, a, b), i, j)
  {
    var ra, cb := Row(n, a, i), Column(n, b, j);
    var csb := Column(n, CombineScalar(Times, b, s), j);
    calc {
      Cell(n, Product(n, a, CombineScalar(Times, b, s)), i, j);
      Dot(ra, csb);
      { DotSymmetric(csb, ra); }
      Dot(csb, ra);
      { ScaledColumn(n, b, s, j); }
      Dot(CombineScalar(Times, cb, s), ra);
      { DotScaleLeft(cb, ra, s); }
      s * Dot(cb, ra);
      { DotSymmetric(cb, ra); }
      s * Dot(ra, cb);
      s * Cell(n, Product(n, a, b), i, j);
    }
  }

  /** Scaling the left operand of a product scales the product. */
  lemma ProductScalesLeft(n: nat, a: seq<real>, b: seq<real>, s: real)
    requires IsMatrix(n, a) && IsMatrix(n, b)
    ensures Product(n, CombineScalar(Times, a, s), b) == CombineScalar(Times, Product(n, a, b), s)
  {
    var p := Product(n, a, b);
    var lhs := Product(n, CombineScalar(Times, a, s), b);
    var rhs := CombineScalar(Times, p, s);
    forall i, j | 0 <= i < n && 0 <= j < n
      ensures Cell(n, lhs, i, j) == Cell(n, rhs, i, j)
    {
      ProductScalesLeftAt(n, a, b, s, i, j);
      ScaledCell(n, p, s, i, j);
      assert Cell(n, lhs, i, j) == s * Cell(n, p, i, j);
    }
    CellsDetermineMatrix(n, lhs, rhs);
  }

  lemma ProductScalesLeftAt(n: nat, a: seq<real>, b: seq<real>, s: real, i: nat, j: nat)
    requires IsMatrix(n, a) && IsMatrix(n, b) && i < n && j < n
    ensures Cell(n, Product(n, CombineScalar(Times, a, s), b), i, j) == s * Cell(n, Product(n, a, b), i, j)
  {
    var ra, cb := Row(n, a, i), Column(n, b, j);
    calc {
      Cell(n, Product(n, CombineScalar(Times, a, s), b), i, j);
      Dot(Row(n, CombineScalar(Times, a, s), i), cb);
      { ScaledRow(n, a, s, i); }
      Dot(CombineScalar(Times, ra, s), cb);
      { DotScaleLeft(ra, cb, s); }
      s * Dot(ra, cb);
      s * Cell(n, Product(n, a, b), i, j);
    }
  }

  lemma ScaledRow(n: nat, m: seq<real>, s: real, i: nat)
    requires IsMatrix(n, m) && i < n
    ensures Row(n, CombineScalar(Times, m, s), i) == CombineScalar(Times, Row(n, m, i), s)
  {
    var l, r := Row(n, CombineScalar(Times, m, s), i), CombineScalar(Times, Row(n, m, i), s);
    forall t | 0 <= t < n
      ensures l[t] == r[t]
    {
      ScaledCell(n, m, s, i, t);
    }
  }

  lemma ScaledColumn(n: nat, m: seq<real>, s: real, j: nat)
    requires IsMatrix(n, m) && j < n
    ensures Column(n, CombineScalar(Times, m, s), j) == CombineScalar(Times, Column(n, m, j), s)
  {
    var l, r := Column(n, CombineScalar(Times, m, s), j), CombineScalar(Times, Column(n, m, j), s);
    forall t | 0 <= t < n
      ensures l[t] == r[t]
    {
      ScaledCell(n, m, s, t, j);
    }
  }

  /** A scalar `*` scales every alias. */
  lemma ScaledCell(n: nat, m: seq<real>, s: real, i: nat, j: nat)
    requires IsMatrix(n, m) && i < n && j < n
    ensures Cell(n, CombineScalar(Times, m, s), i, j) == s * Cell(n, m, i, j)
  {
    var k := Offset(n, i, j);
    assert CombineScalar(Times, m, s)[k] == m[k] * s;
  }

  /** The squaring fixtures: [[1,2],[3,4]], [[1,2,3],[4,5,6],[7,8,9]] and
      [[1,2,3,4],[5,6,7,8],[9,10,11,12],[13,14,15,16]] multiplied by
      themselves with `*=`. */
  lemma SquareFixture2()
    ensures Multiply(2, [1.0, 2.0, 3.0, 4.0], [1.0, 2.0, 3.0, 4.0]) == [7.0, 10.0, 15.0, 22.0]
  {
    var m := [1.0, 2.0, 3.0, 4.0];
    var p := Product(2, m, m);
    forall i, j | 0 <= i < 2 && 0 <= j < 2
      ensures Cell(2, p, i, j) == Cell(2, [7.0, 10.0, 15.0, 22.0], i, j)
    {
      DotExpanded(Row(2, m, i), Column(2, m, j));
    }
    CellsDetermineMatrix(2, p, [7.0, 10.0, 15.0, 22.0]);
  }

  lemma SquareFixture3()
    ensures Multiply(3, [1.0, 2.0, 3.0, 4.0, 5.0, 6.0, 7.0, 8.0, 9.0], [1.0, 2.0, 3.0, 4.0, 5.0, 6.0, 7.0, 8.0, 9.0])
      == [30.0, 36.0, 42.0, 66.0, 81.0, 96.0, 102.0, 126.0, 150.0]
  {
    var m := [1.0, 2.0, 3.0, 4.0, 5.0, 6.0, 7.0, 8.0, 9.0];
    var e := [30.0, 36.0, 42.0, 66.0, 81.0, 96.0, 102.0, 126.0, 150.0];
    var p := Product(3, m, m);
    forall i, j | 0 <= i < 3 && 0 <= j < 3
      ensures Cell(3, p, i, j) == Cell(3, e, i, j)
    {
      DotExpanded(Row(3, m, i), Column(3, m, j));
    }
    CellsDetermineMatrix(3, p, e);
  }

  lemma SquareFixture4()
    ensures Multiply(4, Counting4, Counting4) == Counting4Squared
  {
    SquareFixture4Row0();
    SquareFixture4Row1();
    SquareFixture4Row2();
    SquareFixture4Row3();
    SixteenCells(Product(4, Counting4, Counting4), Counting4Squared);
  }

  /** The 4x4 matrix holding 1 to 16 in row-major order, and its square. */
  const Counting4: seq<real> := [1.0, 2.0, 3.0, 4.0, 5.0, 6.0, 7.0, 8.0, 9.0, 10.0, 11.0, 12.0, 13.0, 14.0, 15.0, 16.0]
  const Counting4Squared: seq<real> := [90.0, 100.0, 110.0, 120.0, 202.0, 228.0, 254.0, 280.0,
                                        314.0, 356.0, 398.0, 440.0, 426.0, 484.0, 542.0, 600.0]

  /** The rows and columns of `Counting4`. */
  lemma Counting4Lines()
    ensures Row(4, Counting4, 0) == [1.0, 2.0, 3.0, 4.0]
    ensures Row(4, Counting4, 1) == [5.0, 6.0, 7.0, 8.0]
    ensures Row(4, Counting4, 2) == [9.0, 10.0, 11.0, 12.0]
    ensures Row(4, Counting4, 3) == [13.0, 14.0, 15.0, 16.0]
    ensures Column(4, Counting4, 0) == [1.0, 5.0, 9.0, 13.0]
    ensures Column(4, Counting4, 1) == [2.0, 6.0, 10.0, 14.0]
    ensures Column(4, Counting4, 2) == [3.0, 7.0, 11.0, 15.0]
    ensures Column(4, Counting4, 3) == [4.0, 8.0, 12.0, 16.0]
  {
  }

  /** Row 1 of the square of `Counting4`: row 1 against each column. */
  lemma SquareFixture4Row0()
    ensures Product(4, Counting4, Counting4)[0] == 90.0 && Product(4, Counting4, Counting4)[1] == 100.0 && Product(4, Counting4, Counting4)[2] == 110.0 && Product(4, Counting4, Counting4)[3] == 120.0
  {
    var p := Product(4, Counting4, Counting4);
    Counting4Lines();
    assert p[0] == Cell(4, p, 0, 0);
    assert p[1] == Cell(4, p, 0, 1);
    assert p[2] == Cell(4, p, 0, 2);
    assert p[3] == Cell(4, p, 0, 3);
    DotOfDisplay4(1.0, 2.0, 3.0, 4.0, 1.0, 5.0, 9.0, 13.0);
    DotOfDisplay4(1.0, 2.0, 3.0, 4.0, 2.0, 6.0, 10.0, 14.0);
    DotOfDisplay4(1.0, 2.0, 3.0, 4.0, 3.0, 7.0, 11.0, 15.0);
    DotOfDisplay4(1.0, 2.0, 3.0, 4.0, 4.0, 8.0, 12.0, 16.0);
  }

  /** Row 2 of the square of `Counting4`: row 2 against each column. */
  lemma SquareFixture4Row1()
    ensures Product(4, Counting4, Counting4)[4] == 202.0 && Product(4, Counting4, Counting4)[5] == 228.0 && Product(4, Counting4, Counting4)[6] == 254.0 && Product(4, Counting4, Counting4)[7] == 280.0
  {
    var p := Product(4, Counting4, Counting4);
    Counting4Lines();
    assert p[4] == Cell(4, p, 1, 0);
    assert p[5] == Cell(4, p, 1, 1);
    assert p[6] == Cell(4, p, 1, 2);
    assert p[7] == Cell(4, p, 1, 3);
    DotOfDisplay4(5.0, 6.0, 7.0, 8.0, 1.0, 5.0, 9.0, 13.0);
    DotOfDisplay4(5.0, 6.0, 7.0, 8.0, 2.0, 6.0, 10.0, 14.0);
    DotOfDisplay4(5.0, 6.0, 7.0, 8.0, 3.0, 7.0, 11.0, 15.0);
    DotOfDisplay4(5.0, 6.0, 7.0, 8.0, 4.0, 8.0, 12.0, 16.0);
  }

  /** Row 3 of the square of `Counting4`: row 3 against each column. */
  lemma SquareFixture4Row2()
    ensures Product(4, Counting4, Counting4)[8] == 314.0 && Product(4, Counting4, Counting4)[9] == 356.0 && Product(4, Counting4, Counting4)[10] == 398.0 && Product(4, Counting4, Counting4)[11] == 440.0
  {
    var p := Product(4, Counting4, Counting4);
    Counting4Lines();
    assert p[8] == Cell(4, p, 2, 0);
    assert p[9] == Cell(4, p, 2, 1);
    assert p[10] == Cell(4, p, 2, 2);
    assert p[11] == Cell(4, p, 2, 3);
    DotOfDisplay4(9.0, 10.0, 11.0, 12.0, 1.0, 5.0, 9.0, 13.0);
    DotOfDisplay4(9.0, 10.0, 11.0, 12.0, 2.0, 6.0, 10.0, 14.0);
    DotOfDisplay4(9.0, 10.0, 11.0, 12.0, 3.0, 7.0, 11.0, 15.0);
    DotOfDisplay4(9.0, 10.0, 11.0, 12.0, 4.0, 8.0, 12.0, 16.0);
  }

  /** Row 4 of the square of `Counting4`: row 4 against each column. */
  lemma SquareFixture4Row3()
    ensures Product(4, Counting4, Counting4)[12] == 426.0 && Product(4, Counting4, Counting4)[13] == 484.0 && Product(4, Counting4, Counting4)[14] == 542.0 && Product(4, Counting4, Counting4)[15] == 600.0
  {
    var p := Product(4, Counting4, Counting4);
    Counting4Lines();
    assert p[12] == Cell(4, p, 3, 0);
    assert p[13] == Cell(4, p, 3, 1);
    assert p[14] == Cell(4, p, 3, 2);
    assert p[15] == Cell(4, p, 3, 3);
    DotOfDisplay4(13.0, 14.0, 15.0, 16.0, 1.0, 5.0, 9.0, 13.0);
    DotOfDisplay4(13.0, 14.0, 15.0, 16.0, 2.0, 6.0, 10.0, 14.0);
    DotOfDisplay4(13.0, 14.0, 15.0, 16.0, 3.0, 7.0, 11.0, 15.0);
    DotOfDisplay4(13.0, 14.0, 15.0, 16.0, 4.0, 8.0, 12.0, 16.0);
  }

  /** The transpose fixtures: cells 11, 12, 21, 22 (and likewise for 3x3 and
      4x4) swap across the diagonal. */
  lemma TransposeFixtures()
    ensures Transpose(2, [11.0, 12.0, 21.0, 22.0]) == [11.0, 21.0, 12.0, 22.0]
    ensures Transpose(3, [11.0, 12.0, 13.0, 21.0, 22.0, 23.0, 31.0, 32.0, 33.0])
      == [11.0, 21.0, 31.0, 12.0, 22.0, 32.0, 13.0, 23.0, 33.0]
    ensures Transpose(4, Tens4) == Tens4Transposed
  {
    TransposeFixture4();
    CellsDetermineMatrix(2, Transpose(2, [11.0, 12.0, 21.0, 22.0]), [11.0, 21.0, 12.0, 22.0]);
    CellsDetermineMatrix(3, Transpose(3, [11.0, 12.0, 13.0, 21.0, 22.0, 23.0, 31.0, 32.0, 33.0]),
      [11.0, 21.0, 31.0, 12.0, 22.0, 32.0, 13.0, 23.0, 33.0]);
  }

  /** The 4x4 matrix whose cell ij holds the number ij, and its transpose. */
  const Tens4: seq<real> := [11.0, 12.0, 13.0, 14.0, 21.0, 22.0, 23.0, 24.0,
                             31.0, 32.0, 33.0, 34.0, 41.0, 42.0, 43.0, 44.0]
  const Tens4Transposed: seq<real> := [11.0, 21.0, 31.0, 41.0, 12.0, 22.0, 32.0, 42.0,
                                       13.0, 23.0, 33.0, 43.0, 14.0, 24.0, 34.0, 44.0]

  lemma TransposeFixture4()
    ensures Transpose(4, Tens4) == Tens4Transposed
  {
    TransposeFixture4Half0();
    TransposeFixture4Half1();
    SixteenCells(Transpose(4, Tens4), Tens4Transposed);
  }

  /** Two sixteen-element sequences that agree at every index are equal. */
  lemma SixteenCells(a: seq<real>, b: seq<real>)
    requires |a| == 16 && |b| == 16
    requires a[0] == b[0] && a[1] == b[1] && a[2] == b[2] && a[3] == b[3]
    requires a[4] == b[4] && a[5] == b[5] && a[6] == b[6] && a[7] == b[7]
    requires a[8] == b[8] && a[9] == b[9] && a[10] == b[10] && a[11] == b[11]
    requires a[12] == b[12] && a[13] == b[13] && a[14] == b[14] && a[15] == b[15]
    ensures a == b
  {
    assert forall k | 0 <= k < 16 :: a[k] == b[k] by {
      forall k | 0 <= k < 16
        ensures a[k] == b[k]
      {
        if k < 8 {
          if k < 4 {
            assert k == 0 || k == 1 || k == 2 || k == 3;
          } else {
            assert k == 4 || k == 5 || k == 6 || k == 7;
          }
        } else if k < 12 {
          assert k == 8 || k == 9 || k == 10 || k == 11;
        } else {
          assert k == 12 || k == 13 || k == 14 || k == 15;
        }
      }
    }
  }

  /** Cells 0 to 7 of the transpose of `Tens4`. */
  lemma TransposeFixture4Half0()
    ensures Transpose(4, Tens4)[0] == 11.0 && Transpose(4, Tens4)[1] == 21.0 && Transpose(4, Tens4)[2] == 31.0 && Transpose(4, Tens4)[3] == 41.0 && Transpose(4, Tens4)[4] == 12.0 && Transpose(4, Tens4)[5] == 22.0 && Transpose(4, Tens4)[6] == 32.0 && Transpose(4, Tens4)[7] == 42.0
  {
    var r := Transpose(4, Tens4);
    assert r[0] == Tens4[0];
    assert r[1] == Tens4[4];
    assert r[2] == Tens4[8];
    assert r[3] == Tens4[12];
    assert r[4] == Tens4[1];
    assert r[5] == Tens4[5];
    assert r[6] == Tens4[9];
    assert r[7] == Tens4[13];
  }

  /** Cells 8 to 15 of the transpose of `Tens4`. */
  lemma TransposeFixture4Half1()
    ensures Transpose(4, Tens4)[8] == 13.0 && Transpose(4, Tens4)[9] == 23.0 && Transpose(4, Tens4)[10] == 33.0 && Transpose(4, Tens4)[11] == 43.0 && Transpose(4, Tens4)[12] == 14.0 && Transpose(4, Tens4)[13] == 24.0 && Transpose(4, Tens4)[14] == 34.0 && Transpose(4, Tens4)[15] == 44.0
  {
    var r := Transpose(4, Tens4);
    assert r[8] == Tens4[2];
    assert r[9] == Tens4[6];
    assert r[10] == Tens4[10];
    assert r[11] == Tens4[14];
    assert r[12] == Tens4[3];
    assert r[13] == Tens4[7];
    assert r[14] == Tens4[11];
    assert r[15] == Tens4[15];
  }

  // Matrix4 and Vector4.

  /** `Matrix4 * Vector4`, in the same column-major convention as `*`:
      component i is column i dotted with the vector. */
  function MulVec(m: seq<real>, v: seq<real>): (r: seq<real>)
    requires IsMatrix(4, m) && |v| == 4
    ensures |r| == 4 && forall i :: 0 <= i < 4 ==> r[i] == Dot(Column(4, m, i), v)
  {
    seq(4, i requires 0 <= i < 4 => Dot(Column(4, m, i), v))
  }

  /** `Vector4 * Matrix4`: component j is the vector dotted with row j. */
  function VecMul(v: seq<real>, m: seq<real>): (r: seq<real>)
    requires IsMatrix(4, m) && |v| == 4
    ensures |r| == 4 && forall j :: 0 <= j < 4 ==> r[j] == Dot(v, Row(4, m, j))
  {
    seq(4, j requires 0 <= j < 4 => Dot(v, Row(4, m, j)))
  }

  /** Multiplying a vector from the left is multiplying it by the transpose
      from the right. */
  lemma VecMulIsTransposedMulVec(v: seq<real>, m: seq<real>)
    requires IsMatrix(4, m) && |v| == 4
    ensures VecMul(v, m) == MulVec(Transpose(4, m), v)
  {
    forall j | 0 <= j < 4
      ensures VecMul(v, m)[j] == MulVec(Transpose(4, m), v)[j]
    {
      assert Column(4, Transpose(4, m), j) == Row(4, m, j);
      DotSymmetric(v, Row(4, m, j));
    }
  }

  /** `Identity()` leaves a vector unchanged from either side. */
  lemma IdentityFixesVectors(v: seq<real>)
    requires |v| == 4
    ensures MulVec(Identity(4), v) == v
    ensures VecMul(v, Identity(4)) == v
  {
    forall i | 0 <= i < 4
      ensures MulVec(Identity(4), v)[i] == v[i] && VecMul(v, Identity(4))[i] == v[i]
    {
      DotUnit(Column(4, Identity(4), i), v, i);
      DotUnit(Row(4, Identity(4), i), v, i);
    }
  }

  /** Applying a product to a vector applies its factors one after the other:
      (a * b) * v == a * (b * v). */
  lemma MulVecComposes(a: seq<real>, b: seq<real>, v: seq<real>)
    requires IsMatrix(4, a) && IsMatrix(4, b) && |v| == 4
    ensures MulVec(Multiply(4, a, b), v) == MulVec(a, MulVec(b, v))
  {
    forall i | 0 <= i < 4
      ensures MulVec(Multiply(4, a, b), v)[i] == MulVec(a, MulVec(b, v))[i]
    {
      MulVecComposesAt(a, b, v, i);
    }
  }

  lemma MulVecComposesAt(a: seq<real>, b: seq<real>, v: seq<real>, i: nat)
    requires IsMatrix(4, a) && IsMatrix(4, b) && |v| == 4 && i < 4
    ensures MulVec(Multiply(4, a, b), v)[i] == MulVec(a, MulVec(b, v))[i]
  {
    var x := Column(4, a, i);
    var c := Column(4, Product(4, b, a), i);
    var w := MulVec(b, v);
    ProductColumnByRows(b, a, i);
    MulVecByColumns(b, v);
    DotAcross(b, x, v);
  }

  /** Moving a 4x4 matrix b across a dot product: the rows of b against x,
      dotted with v, equal x dotted with the columns of b against v. */
  lemma DotAcross(b: seq<real>, x: seq<real>, v: seq<real>)
    requires IsMatrix(4, b) && |x| == 4 && |v| == 4
    ensures Dot([Dot(Row(4, b, 0), x), Dot(Row(4, b, 1), x), Dot(Row(4, b, 2), x), Dot(Row(4, b, 3), x)], v)
         == Dot(x, [Dot(Column(4, b, 0), v), Dot(Column(4, b, 1), v), Dot(Column(4, b, 2), v), Dot(Column(4, b, 3), v)])
  {
    RowsAsCells(b);
    ColumnsAsCells(b);
    assert x == [x[0], x[1], x[2], x[3]];
    assert v == [v[0], v[1], v[2], v[3]];
    AdjointDisplay(Cell(4, b, 0, 0), Cell(4, b, 0, 1), Cell(4, b, 0, 2), Cell(4, b, 0, 3),
                   Cell(4, b, 1, 0), Cell(4, b, 1, 1), Cell(4, b, 1, 2), Cell(4, b, 1, 3),
                   Cell(4, b, 2, 0), Cell(4, b, 2, 1), Cell(4, b, 2, 2), Cell(4, b, 2, 3),
                   Cell(4, b, 3, 0), Cell(4, b, 3, 1), Cell(4, b, 3, 2), Cell(4, b, 3, 3),
                   x[0], x[1], x[2], x[3], v[0], v[1], v[2], v[3]);
  }

  /** Column i of the textbook product b a lists the rows of b dotted with
      column i of a. */
  lemma ProductColumnByRows(b: seq<real>, a: seq<real>, i: nat)
    requires IsMatrix(4, a) && IsMatrix(4, b) && i < 4
    ensures var x := Column(4, a, i);
      Column(4, Product(4, b, a), i)
        == [Dot(Row(4, b, 0), x), Dot(Row(4, b, 1), x), Dot(Row(4, b, 2), x), Dot(Row(4, b, 3), x)]
  {
  }

  /** A 4x4 matrix times a vector lists the columns dotted with the vector. */
  lemma MulVecByColumns(b: seq<real>, v: seq<real>)
    requires IsMatrix(4, b) && |v| == 4
    ensures MulVec(b, v)
        == [Dot(Column(4, b, 0), v), Dot(Column(4, b, 1), v), Dot(Column(4, b, 2), v), Dot(Column(4, b, 3), v)]
  {
  }

  /** The rows of a 4x4 matrix as lists of its cells. */
  lemma RowsAsCells(b: seq<real>)
    requires IsMatrix(4, b)
    ensures Row(4, b, 0) == [Cell(4, b, 0, 0), Cell(4, b, 0, 1), Cell(4, b, 0, 2), Cell(4, b, 0, 3)]
    ensures Row(4, b, 1) == [Cell(4, b, 1, 0), Cell(4, b, 1, 1), Cell(4, b, 1, 2), Cell(4, b, 1, 3)]
    ensures Row(4, b, 2) == [Cell(4, b, 2, 0), Cell(4, b, 2, 1), Cell(4, b, 2, 2), Cell(4, b, 2, 3)]
    ensures Row(4, b, 3) == [Cell(4, b, 3, 0), Cell(4, b, 3, 1), Cell(4, b, 3, 2), Cell(4, b, 3, 3)]
  {
  }

  /** The columns of a 4x4 matrix as lists of its cells. */
  lemma ColumnsAsCells(b: seq<real>)
    requires IsMatrix(4, b)
    ensures Column(4, b, 0) == [Cell(4, b, 0, 0), Cell(4, b, 1, 0), Cell(4, b, 2, 0), Cell(4, b, 3, 0)]
    ensures Column(4, b, 1) == [Cell(4, b, 0, 1), Cell(4, b, 1, 1), Cell(4, b, 2, 1), Cell(4, b, 3, 1)]
    ensures Column(4, b, 2) == [Cell(4, b, 0, 2), Cell(4, b, 1, 2), Cell(4, b, 2, 2), Cell(4, b, 3, 2)]
    ensures Column(4, b, 3) == [Cell(4, b, 0, 3), Cell(4, b, 1, 3), Cell(4, b, 2, 3), Cell(4, b, 3, 3)]
  {
  }

  /** Moving a 4x4 matrix across a dot product, over its sixteen cells: the
      rows against x, dotted with v, equal x dotted with the columns against
      v. */
  lemma AdjointDisplay(b0: real, b1: real, b2: real, b3: real, b4: real, b5: real, b6: real, b7: real,
                       b8: real, b9: real, b10: real, b11: real, b12: real, b13: real, b14: real, b15: real,
                       x0: real, x1: real, x2: real, x3: real, v0: real, v1: real, v2: real, v3: real)
    ensures Dot([Dot([b0, b1, b2, b3], [x0, x1, x2, x3]),
                 Dot([b4, b5, b6, b7], [x0, x1, x2, x3]),
                 Dot([b8, b9, b10, b11], [x0, x1, x2, x3]),
                 Dot([b12, b13, b14, b15], [x0, x1, x2, x3])], [v0, v1, v2, v3])
         == Dot([x0, x1, x2, x3], [Dot([b0, b4, b8, b12], [v0, v1, v2, v3]),
                                     Dot([b1, b5, b9, b13], [v0, v1, v2, v3]),
                                     Dot([b2, b6, b10, b14], [v0, v1, v2, v3]),
                                     Dot([b3, b7, b11, b15], [v0, v1, v2, v3])])
  {
    DotOfDisplay4(b0, b1, b2, b3, x0, x1, x2, x3);
    DotOfDisplay4(b4, b5, b6, b7, x0, x1, x2, x3);
    DotOfDisplay4(b8, b9, b10, b11, x0, x1, x2, x3);
    DotOfDisplay4(b12, b13, b14, b15, x0, x1, x2, x3);
    DotOfDisplay4(b0, b4, b8, b12, v0, v1, v2, v3);
    DotOfDisplay4(b1, b5, b9, b13, v0, v1, v2, v3);
    DotOfDisplay4(b2, b6, b10, b14, v0, v1, v2, v3);
    DotOfDisplay4(b3, b7, b11, b15, v0, v1, v2, v3);
    DotOfDisplay4(Dot([b0, b1, b2, b3], [x0, x1, x2, x3]), Dot([b4, b5, b6, b7], [x0, x1, x2, x3]),
                  Dot([b8, b9, b10, b11], [x0, x1, x2, x3]), Dot([b12, b13, b14, b15], [x0, x1, x2, x3]),
                  v0, v1, v2, v3);
    DotOfDisplay4(x0, x1, x2, x3,
                  Dot([b0, b4, b8, b12], [v0, v1, v2, v3]), Dot([b1, b5, b9, b13], [v0, v1, v2, v3]),
                  Dot([b2, b6, b10, b14], [v0, v1, v2, v3]), Dot([b3, b7, b11, b15], [v0, v1, v2, v3]));
    Adjoint(b0, b1, b2, b3, b4, b5, b6, b7, b8, b9, b10, b11, b12, b13, b14, b15,
            x0, x1, x2, x3, v0, v1, v2, v3,
            Dot([b0, b1, b2, b3], [x0, x1, x2, x3]),
            Dot([b4, b5, b6, b7], [x0, x1, x2, x3]),
            Dot([b8, b9, b10, b11], [x0, x1, x2, x3]),
            Dot([b12, b13, b14, b15], [x0, x1, x2, x3]),
            Dot([b0, b4, b8, b12], [v0, v1, v2, v3]),
            Dot([b1, b5, b9, b13], [v0, v1, v2, v3]),
            Dot([b2, b6, b10, b14], [v0, v1, v2, v3]),
            Dot([b3, b7, b11, b15], [v0, v1, v2, v3]));
  }

  /** A dot product of two four-element lists, written out. */
  lemma DotOfDisplay4(a0: real, a1: real, a2: real, a3: real, y0: real, y1: real, y2: real, y3: real)
    ensures Dot([a0, a1, a2, a3], [y0, y1, y2, y3]) == a0 * y0 + a1 * y1 + a2 * y2 + a3 * y3
  {
    DotExpanded4([a0, a1, a2, a3], [y0, y1, y2, y3]);
  }

  /** Moving a matrix across a dot product: with c the rows of b against x
      and w the columns of b against v, c . v == x . w, both being the double
      sum of b[k][l] x[l] v[k]. */
  lemma Adjoint(b0: real, b1: real, b2: real, b3: real, b4: real, b5: real, b6: real, b7: real,
               b8: real, b9: real, b10: real, b11: real, b12: real, b13: real, b14: real, b15: real,
               x0: real, x1: real, x2: real, x3: real, v0: real, v1: real, v2: real, v3: real,
               c0: real, c1: real, c2: real, c3: real, w0: real, w1: real, w2: real, w3: real)
    requires c0 == b0 * x0 + b1 * x1 + b2 * x2 + b3 * x3
    requires c1 == b4 * x0 + b5 * x1 + b6 * x2 + b7 * x3
    requires c2 == b8 * x0 + b9 * x1 + b10 * x2 + b11 * x3
    requires c3 == b12 * x0 + b13 * x1 + b14 * x2 + b15 * x3
    requires w0 == b0 * v0 + b4 * v1 + b8 * v2 + b12 * v3
    requires w1 == b1 * v0 + b5 * v1 + b9 * v2 + b13 * v3
    requires w2 == b2 * v0 + b6 * v1 + b10 * v2 + b14 * v3
    requires w3 == b3 * v0 + b7 * v1 + b11 * v2 + b15 * v3
    ensures c0 * v0 + c1 * v1 + c2 * v2 + c3 * v3 == x0 * w0 + x1 * w1 + x2 * w2 + x3 * w3
  {
    RowsSubstituted(b0, b1, b2, b3, b4, b5, b6, b7, b8, b9, b10, b11, b12, b13, b14, b15,
                    x0, x1, x2, x3, v0, v1, v2, v3, c0, c1, c2, c3);
    ColumnsSubstituted(b0, b1, b2, b3, b4, b5, b6, b7, b8, b9, b10, b11, b12, b13, b14, b15,
                       x0, x1, x2, x3, v0, v1, v2, v3, w0, w1, w2, w3);
    AdjointExpanded(b0, b1, b2, b3, b4, b5, b6, b7, b8, b9, b10, b11, b12, b13, b14, b15,
                    x0, x1, x2, x3, v0, v1, v2, v3);
  }

  /** c . v with each c[k] replaced by row k of b against x. */
  lemma RowsSubstituted(b0: real, b1: real, b2: real, b3: real, b4: real, b5: real, b6: real, b7: real,
                       b8: real, b9: real, b10: real, b11: real, b12: real, b13: real, b14: real, b15: real,
                       x0: real, x1: real, x2: real, x3: real, v0: real, v1: real, v2: real, v3: real,
                       c0: real, c1: real, c2: real, c3: real)
    requires c0 == b0 * x0 + b1 * x1 + b2 * x2 + b3 * x3
    requires c1 == b4 * x0 + b5 * x1 + b6 * x2 + b7 * x3
    requires c2 == b8 * x0 + b9 * x1 + b10 * x2 + b11 * x3
    requires c3 == b12 * x0 + b13 * x1 + b14 * x2 + b15 * x3
    ensures c0 * v0 + c1 * v1 + c2 * v2 + c3 * v3 ==
      (b0 * x0 + b1 * x1 + b2 * x2 + b3 * x3) * v0 +
      (b4 * x0 + b5 * x1 + b6 * x2 + b7 * x3) * v1 +
      (b8 * x0 + b9 * x1 + b10 * x2 + b11 * x3) * v2 +
      (b12 * x0 + b13 * x1 + b14 * x2 + b15 * x3) * v3
  {
  }

  /** x . w with each w[l] replaced by column l of b against v. */
  lemma ColumnsSubstituted(b0: real, b1: real, b2: real, b3: real, b4: real, b5: real, b6: real, b7: real,
                          b8: real, b9: real, b10: real, b11: real, b12: real, b13: real, b14: real, b15: real,
                          x0: real, x1: real, x2: real, x3: real, v0: real, v1: real, v2: real, v3: real,
                          w0: real, w1: real, w2: real, w3: real)
    requires w0 == b0 * v0 + b4 * v1 + b8 * v2 + b12 * v3
    requires w1 == b1 * v0 + b5 * v1 + b9 * v2 + b13 * v3
    requires w2 == b2 * v0 + b6 * v1 + b10 * v2 + b14 * v3
    requires w3 == b3 * v0 + b7 * v1 + b11 * v2 + b15 * v3
    ensures x0 * w0 + x1 * w1 + x2 * w2 + x3 * w3 ==
      x0 * (b0 * v0 + b4 * v1 + b8 * v2 + b12 * v3) +
      x1 * (b1 * v0 + b5 * v1 + b9 * v2 + b13 * v3) +
      x2 * (b2 * v0 + b6 * v1 + b10 * v2 + b14 * v3) +
      x3 * (b3 * v0 + b7 * v1 + b11 * v2 + b15 * v3)
  {
  }

  /** The double sum sum_k sum_l b[k][l] x[l] v[k], grouped by rows and by columns. */
  lemma AdjointExpanded(b0: real, b1: real, b2: real, b3: real, b4: real, b5: real, b6: real, b7: real,
                       b8: real, b9: real, b10: real, b11: real, b12: real, b13: real, b14: real, b15: real,
                       x0: real, x1: real, x2: real, x3: real, v0: real, v1: real, v2: real, v3: real)
    ensures (b0 * x0 + b1 * x1 + b2 * x2 + b3 * x3) * v0 +
      (b4 * x0 + b5 * x1 + b6 * x2 + b7 * x3) * v1 +
      (b8 * x0 + b9 * x1 + b10 * x2 + b11 * x3) * v2 +
      (b12 * x0 + b13 * x1 + b14 * x2 + b15 * x3) * v3
         == x0 * (b0 * v0 + b4 * v1 + b8 * v2 + b12 * v3) +
      x1 * (b1 * v0 + b5 * v1 + b9 * v2 + b13 * v3) +
      x2 * (b2 * v0 + b6 * v1 + b10 * v2 + b14 * v3) +
      x3 * (b3 * v0 + b7 * v1 + b11 * v2 + b15 * v3)
  {
  }

  // Orthographic projection.

  /** The 2D orthographic projection onto the box [left, right] x [bottom, top]
      with depth range [-1, 1]: scale 2/(right-left) and 2/(top-bottom) on the
      diagonal, -1 for depth, and the translation in the last row, which
      `Matrix4 * Vector4` applies as the last column of the column-major
      reading. */
  function OrthographicProjection(left: real, right: real, bottom: real, top: real): (m: seq<real>)
    requires right != left && top != bottom
    ensures IsMatrix(4, m)
    ensures Cell(4, m, 0, 0) * (right - left) == 2.0 && Cell(4, m, 1, 1) * (top - bottom) == 2.0
    ensures Cell(4, m, 2, 2) == -1.0 && Cell(4, m, 3, 3) == 1.0
    ensures forall i, j :: 0 <= i < 4 && 0 <= j < 4 && i != j && (i != 3 || j >= 2) ==> Cell(4, m, i, j) == 0.0
  {
    var sx, sy := 2.0 / (right - left), 2.0 / (top - bottom);
    var tx, ty := -(right + left) / (right - left), -(top + bottom) / (top - bottom);
    [sx, 0.0, 0.0, 0.0,
     0.0, sy, 0.0, 0.0,
     0.0, 0.0, -1.0, 0.0,
     tx, ty, 0.0, 1.0]
  }

  /** The projection maps the left-bottom corner to (-1, -1) and the
      right-top corner to (1, 1), flips depth and keeps w. */
  lemma OrthographicMapsBoxToUnitSquare(left: real, right: real, bottom: real, top: real, z: real)
    requires right != left && top != bottom
    ensures MulVec(OrthographicProjection(left, right, bottom, top), Vec4(left, bottom, z, 1.0)) == Vec4(-1.0, -1.0, -z, 1.0)
    ensures MulVec(OrthographicProjection(left, right, bottom, top), Vec4(right, top, z, 1.0)) == Vec4(1.0, 1.0, -z, 1.0)
  {
    var m := OrthographicProjection(left, right, bottom, top);
    EdgeMaps(left, right);
    EdgeMaps(bottom, top);
    ProjectCorner(m, left, right, bottom, top, left, bottom, z);
    ProjectCorner(m, left, right, bottom, top, right, top, z);
  }

  /** The projection of one point (x, y, z, 1), component by component. */
  lemma ProjectCorner(m: seq<real>, left: real, right: real, bottom: real, top: real, x: real, y: real, z: real)
    requires right != left && top != bottom && m == OrthographicProjection(left, right, bottom, top)
    ensures MulVec(m, Vec4(x, y, z, 1.0))[0] == (2.0 / (right - left)) * x + -(right + left) / (right - left)
    ensures MulVec(m, Vec4(x, y, z, 1.0))[1] == (2.0 / (top - bottom)) * y + -(top + bottom) / (top - bottom)
    ensures MulVec(m, Vec4(x, y, z, 1.0))[2] == -z
    ensures MulVec(m, Vec4(x, y, z, 1.0))[3] == 1.0
  {
    var v := Vec4(x, y, z, 1.0);
    var sx, sy := 2.0 / (right - left), 2.0 / (top - bottom);
    var tx, ty := -(right + left) / (right - left), -(top + bottom) / (top - bottom);
    assert Column(4, m, 0) == [sx, 0.0, 0.0, tx];
    assert Column(4, m, 1) == [0.0, sy, 0.0, ty];
    assert Column(4, m, 2) == [0.0, 0.0, -1.0, 0.0];
    assert Column(4, m, 3) == [0.0, 0.0, 0.0, 1.0];
    DotExpanded(Column(4, m, 0), v);
    DotExpanded(Column(4, m, 1), v);
    DotExpanded(Column(4, m, 2), v);
    DotExpanded(Column(4, m, 3), v);
    assert MulVec(m, v)[0] == sx * x + tx;
    assert MulVec(m, v)[1] == sy * y + ty;
    assert MulVec(m, v)[2] == -z;
    assert MulVec(m, v)[3] == 1.0;
  }

  /** One axis of the projection: the low edge goes to -1 and the high edge to 1. */
  lemma EdgeMaps(lo: real, hi: real)
    requires hi != lo
    ensures (2.0 / (hi - lo)) * lo + -(hi + lo) / (hi - lo) == -1.0
    ensures (2.0 / (hi - lo)) * hi + -(hi + lo) / (hi - lo) == 1.0
  {
    var d := hi - lo;
    assert (2.0 / d) * lo == (2.0 * lo) / d;
    assert (2.0 / d) * hi == (2.0 * hi) / d;
    assert (2.0 * lo) / d + -(hi + lo) / d == (2.0 * lo - (hi + lo)) / d;
    assert (2.0 * hi) / d + -(hi + lo) / d == (2.0 * hi - (hi + lo)) / d;
  }

  /** OrthographicProjection(-2, 2, -1, 1) is diag(0.5, 1, -1, 1). */
  lemma OrthographicFixture()
    ensures OrthographicProjection(-2.0, 2.0, -1.0, 1.0)
      == [0.5, 0.0, 0.0, 0.0, 0.0, 1.0, 0.0, 0.0, 0.0, 0.0, -1.0, 0.0, 0.0, 0.0, 0.0, 1.0]
  {
  }
}
