/** `Determinant`, the adjugate and `Inverse` of `Matrix<2,2>`, `Matrix<3,3>`
    and `Matrix<4,4>`.

    The determinant of a matrix is the Leibniz polynomial of its cells
    (`Cofactors`).  The adjugate holds in cell (i, j) the cofactor of cell
    (j, i): the signed determinant of the minor left after deleting row j
    and column i.  `Inverse` divides the adjugate by the determinant. */
module Determinants {
  import opened Elementwise
  import opened Vectors
  import opened Matrices
  import opened Cofactors

  /** `Determinant(m)`. */
  function Determinant(n: nat, m: seq<real>): real
    requires IsMatrix(n, m)
  {
    if n == 2 then Det2(m[0], m[1], m[2], m[3])
    else if n == 3 then Det3(m[0], m[1], m[2], m[3], m[4], m[5], m[6], m[7], m[8])
    else Det4(m[0], m[1], m[2], m[3], m[4], m[5], m[6], m[7],
              m[8], m[9], m[10], m[11], m[12], m[13], m[14], m[15])
  }

  /** The transposed matrix of cofactors. */
  function Adjugate(n: nat, m: seq<real>): (r: seq<real>)
    requires IsMatrix(n, m)
    ensures IsMatrix(n, r)
  {
    if n == 2 then
      [m[3], -m[1],
       -m[2], m[0]]
    else if n == 3 then
      [Det2(m[4], m[5], m[7], m[8]),
       -Det2(m[1], m[2], m[7], m[8]),
       Det2(m[1], m[2], m[4], m[5]),
       -Det2(m[3], m[5], m[6], m[8]),
       Det2(m[0], m[2], m[6], m[8]),
       -Det2(m[0], m[2], m[3], m[5]),
       Det2(m[3], m[4], m[6], m[7]),
       -Det2(m[0], m[1], m[6], m[7]),
       Det2(m[0], m[1], m[3], m[4])]
    else
      [Det3(m[5], m[6], m[7], m[9], m[10], m[11], m[13], m[14], m[15]),
       -Det3(m[1], m[2], m[3], m[9], m[10], m[11], m[13], m[14], m[15]),
       Det3(m[1], m[2], m[3], m[5], m[6], m[7], m[13], m[14], m[15]),
       -Det3(m[1], m[2], m[3], m[5], m[6], m[7], m[9], m[10], m[11]),
       -Det3(m[4], m[6], m[7], m[8], m[10], m[11], m[12], m[14], m[15]),
       Det3(m[0], m[2], m[3], m[8], m[10], m[11], m[12], m[14], m[15]),
       -Det3(m[0], m[2], m[3], m[4], m[6], m[7], m[12], m[14], m[15]),
       Det3(m[0], m[2], m[3], m[4], m[6], m[7], m[8], m[10], m[11]),
       Det3(m[4], m[5], m[7], m[8], m[9], m[11], m[12], m[13], m[15]),
       -Det3(m[0], m[1], m[3], m[8], m[9], m[11], m[12], m[13], m[15]),
       Det3(m[0], m[1], m[3], m[4], m[5], m[7], m[12], m[13], m[15]),
       -Det3(m[0], m[1], m[3], m[4], m[5], m[7], m[8], m[9], m[11]),
       -Det3(m[4], m[5], m[6], m[8], m[9], m[10], m[12], m[13], m[14]),
       Det3(m[0], m[1], m[2], m[8], m[9], m[10], m[12], m[13], m[14]),
       -Det3(m[0], m[1], m[2], m[4], m[5], m[6], m[12], m[13], m[14]),
       Det3(m[0], m[1], m[2], m[4], m[5], m[6], m[8], m[9], m[10])]
  }

  // Each row of a matrix against each column of its adjugate.  Row i meets
  // the cofactors of row j: the Laplace expansion along row i when i == j,
  // and otherwise the expansion of a matrix with two equal rows.

  lemma RowTimesAdjugate3At00(m: seq<real>)
    requires IsMatrix(3, m)
    ensures Dot(Row(3, m, 0), Column(3, Adjugate(3, m), 0)) == Determinant(3, m)
  {
    DotExpanded(Row(3, m, 0), Column(3, Adjugate(3, m), 0));
    RowCofactors300(m[0], m[1], m[2], m[3], m[4], m[5], m[6], m[7], m[8]);
  }

  lemma RowTimesAdjugate3At01(m: seq<real>)
    requires IsMatrix(3, m)
    ensures Dot(Row(3, m, 0), Column(3, Adjugate(3, m), 1)) == 0.0
  {
    DotExpanded(Row(3, m, 0), Column(3, Adjugate(3, m), 1));
    RowCofactors301(m[0], m[1], m[2], m[3], m[4], m[5], m[6], m[7], m[8]);
  }

  lemma RowTimesAdjugate3At02(m: seq<real>)
    requires IsMatrix(3, m)
    ensures Dot(Row(3, m, 0), Column(3, Adjugate(3, m), 2)) == 0.0
  {
    DotExpanded(Row(3, m, 0), Column(3, Adjugate(3, m), 2));
    RowCofactors302(m[0], m[1], m[2], m[3], m[4], m[5], m[6], m[7], m[8]);
  }

  lemma RowTimesAdjugate3At10(m: seq<real>)
    requires IsMatrix(3, m)
    ensures Dot(Row(3, m, 1), Column(3, Adjugate(3, m), 0)) == 0.0
  {
    DotExpanded(Row(3, m, 1), Column(3, Adjugate(3, m), 0));
    RowCofactors310(m[0], m[1], m[2], m[3], m[4], m[5], m[6], m[7], m[8]);
  }

  lemma RowTimesAdjugate3At11(m: seq<real>)
    requires IsMatrix(3, m)
    ensures Dot(Row(3, m, 1), Column(3, Adjugate(3, m), 1)) == Determinant(3, m)
  {
    DotExpanded(Row(3, m, 1), Column(3, Adjugate(3, m), 1));
    RowCofactors311(m[0], m[1], m[2], m[3], m[4], m[5], m[6], m[7], m[8]);
  }

  lemma RowTimesAdjugate3At12(m: seq<real>)
    requires IsMatrix(3, m)
    ensures Dot(Row(3, m, 1), Column(3, Adjugate(3, m), 2)) == 0.0
  {
    DotExpanded(Row(3, m, 1), Column(3, Adjugate(3, m), 2));
    RowCofactors312(m[0], m[1], m[2], m[3], m[4], m[5], m[6], m[7], m[8]);
  }

  lemma RowTimesAdjugate3At20(m: seq<real>)
    requires IsMatrix(3, m)
    ensures Dot(Row(3, m, 2), Column(3, Adjugate(3, m), 0)) == 0.0
  {
    DotExpanded(Row(3, m, 2), Column(3, Adjugate(3, m), 0));
    RowCofactors320(m[0], m[1], m[2], m[3], m[4], m[5], m[6], m[7], m[8]);
  }

  lemma RowTimesAdjugate3At21(m: seq<real>)
    requires IsMatrix(3, m)
    ensures Dot(Row(3, m, 2), Column(3, Adjugate(3, m), 1)) == 0.0
  {
    DotExpanded(Row(3, m, 2), Column(3, Adjugate(3, m), 1));
    RowCofactors321(m[0], m[1], m[2], m[3], m[4], m[5], m[6], m[7], m[8]);
  }

  lemma RowTimesAdjugate3At22(m: seq<real>)
    requires IsMatrix(3, m)
    ensures Dot(Row(3, m, 2), Column(3, Adjugate(3, m), 2)) == Determinant(3, m)
  {
    DotExpanded(Row(3, m, 2), Column(3, Adjugate(3, m), 2));
    RowCofactors322(m[0], m[1], m[2], m[3], m[4], m[5], m[6], m[7], m[8]);
  }

  lemma RowTimesAdjugate3(m: seq<real>, i: nat, j: nat)
    requires IsMatrix(3, m) && i < 3 && j < 3
    ensures Dot(Row(3, m, i), Column(3, Adjugate(3, m), j))
      == if i == j then Determinant(3, m) else 0.0
  {
    if i == 0 && j == 0 {
      RowTimesAdjugate3At00(m);
    } else if i == 0 && j == 1 {
      RowTimesAdjugate3At01(m);
    } else if i == 0 && j == 2 {
      RowTimesAdjugate3At02(m);
    } else if i == 1 && j == 0 {
      RowTimesAdjugate3At10(m);
    } else if i == 1 && j == 1 {
      RowTimesAdjugate3At11(m);
    } else if i == 1 && j == 2 {
      RowTimesAdjugate3At12(m);
    } else if i == 2 && j == 0 {
      RowTimesAdjugate3At20(m);
    } else if i == 2 && j == 1 {
      RowTimesAdjugate3At21(m);
    } else if i == 2 && j == 2 {
      RowTimesAdjugate3At22(m);
    }
  }

  lemma RowTimesAdjugate4At00(m: seq<real>)
    requires IsMatrix(4, m)
    ensures Dot(Row(4, m, 0), Column(4, Adjugate(4, m), 0)) == Determinant(4, m)
  {
    DotExpanded(Row(4, m, 0), Column(4, Adjugate(4, m), 0));
    RowCofactors400(m[0], m[1], m[2], m[3], m[4], m[5], m[6], m[7],
      m[8], m[9], m[10], m[11], m[12], m[13], m[14], m[15]);
  }

  lemma RowTimesAdjugate4At01(m: seq<real>)
    requires IsMatrix(4, m)
    ensures Dot(Row(4, m, 0), Column(4, Adjugate(4, m), 1)) == 0.0
  {
    DotExpanded(Row(4, m, 0), Column(4, Adjugate(4, m), 1));
    RowCofactors401(m[0], m[1], m[2], m[3], m[4], m[5], m[6], m[7],
      m[8], m[9], m[10], m[11], m[12], m[13], m[14], m[15]);
  }

  lemma RowTimesAdjugate4At02(m: seq<real>)
    requires IsMatrix(4, m)
    ensures Dot(Row(4, m, 0), Column(4, Adjugate(4, m), 2)) == 0.0
  {
    DotExpanded(Row(4, m, 0), Column(4, Adjugate(4, m), 2));
    RowCofactors402(m[0], m[1], m[2], m[3], m[4], m[5], m[6], m[7],
      m[8], m[9], m[10], m[11], m[12], m[13], m[14], m[15]);
  }

  lemma RowTimesAdjugate4At03(m: seq<real>)
    requires IsMatrix(4, m)
    ensures Dot(Row(4, m, 0), Column(4, Adjugate(4, m), 3)) == 0.0
  {
    DotExpanded(Row(4, m, 0), Column(4, Adjugate(4, m), 3));
    RowCofactors403(m[0], m[1], m[2], m[3], m[4], m[5], m[6], m[7],
      m[8], m[9], m[10], m[11], m[12], m[13], m[14], m[15]);
  }

  lemma RowTimesAdjugate4At10(m: seq<real>)
    requires IsMatrix(4, m)
    ensures Dot(Row(4, m, 1), Column(4, Adjugate(4, m), 0)) == 0.0
  {
    DotExpanded(Row(4, m, 1), Column(4, Adjugate(4, m), 0));
    RowCofactors410(m[0], m[1], m[2], m[3], m[4], m[5], m[6], m[7],
      m[8], m[9], m[10], m[11], m[12], m[13], m[14], m[15]);
  }

  lemma RowTimesAdjugate4At11(m: seq<real>)
    requires IsMatrix(4, m)
    ensures Dot(Row(4, m, 1), Column(4, Adjugate(4, m), 1)) == Determinant(4, m)
  {
    DotExpanded(Row(4, m, 1), Column(4, Adjugate(4, m), 1));
    RowCofactors411(m[0], m[1], m[2], m[3], m[4], m[5], m[6], m[7],
      m[8], m[9], m[10], m[11], m[12], m[13], m[14], m[15]);
  }

  lemma RowTimesAdjugate4At12(m: seq<real>)
    requires IsMatrix(4, m)
    ensures Dot(Row(4, m, 1), Column(4, Adjugate(4, m), 2)) == 0.0
  {
    DotExpanded(Row(4, m, 1), Column(4, Adjugate(4, m), 2));
    RowCofactors412(m[0], m[1], m[2], m[3], m[4], m[5], m[6], m[7],
      m[8], m[9], m[10], m[11], m[12], m[13], m[14], m[15]);
  }

  lemma RowTimesAdjugate4At13(m: seq<real>)
    requires IsMatrix(4, m)
    ensures Dot(Row(4, m, 1), Column(4, Adjugate(4, m), 3)) == 0.0
  {
    DotExpanded(Row(4, m, 1), Column(4, Adjugate(4, m), 3));
    RowCofactors413(m[0], m[1], m[2], m[3], m[4], m[5], m[6], m[7],
      m[8], m[9], m[10], m[11], m[12], m[13], m[14], m[15]);
  }

  lemma RowTimesAdjugate4At20(m: seq<real>)
    requires IsMatrix(4, m)
    ensures Dot(Row(4, m, 2), Column(4, Adjugate(4, m), 0)) == 0.0
  {
    DotExpanded(Row(4, m, 2), Column(4, Adjugate(4, m), 0));
    RowCofactors420(m[0], m[1], m[2], m[3], m[4], m[5], m[6], m[7],
      m[8], m[9], m[10], m[11], m[12], m[13], m[14], m[15]);
  }

  lemma RowTimesAdjugate4At21(m: seq<real>)
    requires IsMatrix(4, m)
    ensures Dot(Row(4, m, 2), Column(4, Adjugate(4, m), 1)) == 0.0
  {
    DotExpanded(Row(4, m, 2), Column(4, Adjugate(4, m), 1));
    RowCofactors421(m[0], m[1], m[2], m[3], m[4], m[5], m[6], m[7],
      m[8], m[9], m[10], m[11], m[12], m[13], m[14], m[15]);
  }

  lemma RowTimesAdjugate4At22(m: seq<real>)
    requires IsMatrix(4, m)
    ensures Dot(Row(4, m, 2), Column(4, Adjugate(4, m), 2)) == Determinant(4, m)
  {
    DotExpanded(Row(4, m, 2), Column(4, Adjugate(4, m), 2));
    RowCofactors422(m[0], m[1], m[2], m[3], m[4], m[5], m[6], m[7],
      m[8], m[9], m[10], m[11], m[12], m[13], m[14], m[15]);
  }

  lemma RowTimesAdjugate4At23(m: seq<real>)
    requires IsMatrix(4, m)
    ensures Dot(Row(4, m, 2), Column(4, Adjugate(4, m), 3)) == 0.0
  {
    DotExpanded(Row(4, m, 2), Column(4, Adjugate(4, m), 3));
    RowCofactors423(m[0], m[1], m[2], m[3], m[4], m[5], m[6], m[7],
      m[8], m[9], m[10], m[11], m[12], m[13], m[14], m[15]);
  }

  lemma RowTimesAdjugate4At30(m: seq<real>)
    requires IsMatrix(4, m)
    ensures Dot(Row(4, m, 3), Column(4, Adjugate(4, m), 0)) == 0.0
  {
    DotExpanded(Row(4, m, 3), Column(4, Adjugate(4, m), 0));
    RowCofactors430(m[0], m[1], m[2], m[3], m[4], m[5], m[6], m[7],
      m[8], m[9], m[10], m[11], m[12], m[13], m[14], m[15]);
  }

  lemma RowTimesAdjugate4At31(m: seq<real>)
    requires IsMatrix(4, m)
    ensures Dot(Row(4, m, 3), Column(4, Adjugate(4, m), 1)) == 0.0
  {
    DotExpanded(Row(4, m, 3), Column(4, Adjugate(4, m), 1));
    RowCofactors431(m[0], m[1], m[2], m[3], m[4], m[5], m[6], m[7],
      m[8], m[9], m[10], m[11], m[12], m[13], m[14], m[15]);
  }

  lemma RowTimesAdjugate4At32(m: seq<real>)
    requires IsMatrix(4, m)
    ensures Dot(Row(4, m, 3), Column(4, Adjugate(4, m), 2)) == 0.0
  {
    DotExpanded(Row(4, m, 3), Column(4, Adjugate(4, m), 2));
    RowCofactors432(m[0], m[1], m[2], m[3], m[4], m[5], m[6], m[7],
      m[8], m[9], m[10], m[11], m[12], m[13], m[14], m[15]);
  }

  lemma RowTimesAdjugate4At33(m: seq<real>)
    requires IsMatrix(4, m)
    ensures Dot(Row(4, m, 3), Column(4, Adjugate(4, m), 3)) == Determinant(4, m)
  {
    DotExpanded(Row(4, m, 3), Column(4, Adjugate(4, m), 3));
    RowCofactors433(m[0], m[1], m[2], m[3], m[4], m[5], m[6], m[7],
      m[8], m[9], m[10], m[11], m[12], m[13], m[14], m[15]);
  }

  lemma RowTimesAdjugate4(m: seq<real>, i: nat, j: nat)
    requires IsMatrix(4, m) && i < 4 && j < 4
    ensures Dot(Row(4, m, i), Column(4, Adjugate(4, m), j))
      == if i == j then Determinant(4, m) else 0.0
  {
    if i == 0 && j == 0 {
      RowTimesAdjugate4At00(m);
    } else if i == 0 && j == 1 {
      RowTimesAdjugate4At01(m);
    } else if i == 0 && j == 2 {
      RowTimesAdjugate4At02(m);
    } else if i == 0 && j == 3 {
      RowTimesAdjugate4At03(m);
    } else if i == 1 && j == 0 {
      RowTimesAdjugate4At10(m);
    } else if i == 1 && j == 1 {
      RowTimesAdjugate4At11(m);
    } else if i == 1 && j == 2 {
      RowTimesAdjugate4At12(m);
    } else if i == 1 && j == 3 {
      RowTimesAdjugate4At13(m);
    } else if i == 2 && j == 0 {
      RowTimesAdjugate4At20(m);
    } else if i == 2 && j == 1 {
      RowTimesAdjugate4At21(m);
    } else if i == 2 && j == 2 {
      RowTimesAdjugate4At22(m);
    } else if i == 2 && j == 3 {
      RowTimesAdjugate4At23(m);
    } else if i == 3 && j == 0 {
      RowTimesAdjugate4At30(m);
    } else if i == 3 && j == 1 {
      RowTimesAdjugate4At31(m);
    } else if i == 3 && j == 2 {
      RowTimesAdjugate4At32(m);
    } else if i == 3 && j == 3 {
      RowTimesAdjugate4At33(m);
    }
  }

  lemma DeterminantOfTranspose3(m: seq<real>)
    requires IsMatrix(3, m)
    ensures Determinant(3, Transpose(3, m)) == Determinant(3, m)
  {
    var t := Transpose(3, m);
    assert t == [m[0], m[3], m[6], m[1], m[4], m[7], m[2], m[5],
                 m[8]];
    Det3OfTranspose(m[0], m[1], m[2], m[3], m[4], m[5], m[6], m[7], m[8]);
  }

  lemma DeterminantOfTranspose4(m: seq<real>)
    requires IsMatrix(4, m)
    ensures Determinant(4, Transpose(4, m)) == Determinant(4, m)
  {
    var t := Transpose(4, m);
    assert t == [m[0], m[4], m[8], m[12], m[1], m[5], m[9], m[13],
                 m[2], m[6], m[10], m[14], m[3], m[7], m[11], m[15]];
    Det4OfTranspose(m[0], m[1], m[2], m[3], m[4], m[5], m[6], m[7], m[8], m[9], m[10], m[11], m[12], m[13], m[14], m[15]);
  }

  lemma AdjugateOfTranspose3(m: seq<real>)
    requires IsMatrix(3, m)
    ensures Adjugate(3, Transpose(3, m)) == Transpose(3, Adjugate(3, m))
  {
    var l := Adjugate(3, Transpose(3, m));
    var r := Transpose(3, Adjugate(3, m));
    AdjugateOfTranspose3Row0(m);
    AdjugateOfTranspose3Row1(m);
    AdjugateOfTranspose3Row2(m);
    assert l == r;
  }

  lemma AdjugateOfTranspose3Row0(m: seq<real>)
    requires IsMatrix(3, m)
    ensures var l, r := Adjugate(3, Transpose(3, m)), Transpose(3, Adjugate(3, m));
      l[0] == r[0] && l[1] == r[1] && l[2] == r[2]
  {
    AdjugateOfTranspose3At00(m);
    AdjugateOfTranspose3At01(m);
    AdjugateOfTranspose3At02(m);
  }

  lemma AdjugateOfTranspose3Row1(m: seq<real>)
    requires IsMatrix(3, m)
    ensures var l, r := Adjugate(3, Transpose(3, m)), Transpose(3, Adjugate(3, m));
      l[3] == r[3] && l[4] == r[4] && l[5] == r[5]
  {
    AdjugateOfTranspose3At10(m);
    AdjugateOfTranspose3At11(m);
    AdjugateOfTranspose3At12(m);
  }

  lemma AdjugateOfTranspose3Row2(m: seq<real>)
    requires IsMatrix(3, m)
    ensures var l, r := Adjugate(3, Transpose(3, m)), Transpose(3, Adjugate(3, m));
      l[6] == r[6] && l[7] == r[7] && l[8] == r[8]
  {
    AdjugateOfTranspose3At20(m);
    AdjugateOfTranspose3At21(m);
    AdjugateOfTranspose3At22(m);
  }

  lemma AdjugateOfTranspose3At00(m: seq<real>)
    requires IsMatrix(3, m)
    ensures Adjugate(3, Transpose(3, m))[0] == Transpose(3, Adjugate(3, m))[0]
  {
    assert Transpose(3, m) == [m[0], m[3], m[6], m[1], m[4], m[7], m[2], m[5], m[8]];
    Det2OfTranspose(m[4], m[5], m[7], m[8]);
  }

  lemma AdjugateOfTranspose3At01(m: seq<real>)
    requires IsMatrix(3, m)
    ensures Adjugate(3, Transpose(3, m))[1] == Transpose(3, Adjugate(3, m))[1]
  {
    assert Transpose(3, m) == [m[0], m[3], m[6], m[1], m[4], m[7], m[2], m[5], m[8]];
    Det2OfTranspose(m[3], m[5], m[6], m[8]);
  }

  lemma AdjugateOfTranspose3At02(m: seq<real>)
    requires IsMatrix(3, m)
    ensures Adjugate(3, Transpose(3, m))[2] == Transpose(3, Adjugate(3, m))[2]
  {
    assert Transpose(3, m) == [m[0], m[3], m[6], m[1], m[4], m[7], m[2], m[5], m[8]];
    Det2OfTranspose(m[3], m[4], m[6], m[7]);
  }

  lemma AdjugateOfTranspose3At10(m: seq<real>)
    requires IsMatrix(3, m)
    ensures Adjugate(3, Transpose(3, m))[3] == Transpose(3, Adjugate(3, m))[3]
  {
    assert Transpose(3, m) == [m[0], m[3], m[6], m[1], m[4], m[7], m[2], m[5], m[8]];
    Det2OfTranspose(m[1], m[2], m[7], m[8]);
  }

  lemma AdjugateOfTranspose3At11(m: seq<real>)
    requires IsMatrix(3, m)
    ensures Adjugate(3, Transpose(3, m))[4] == Transpose(3, Adjugate(3, m))[4]
  {
    assert Transpose(3, m) == [m[0], m[3], m[6], m[1], m[4], m[7], m[2], m[5], m[8]];
    Det2OfTranspose(m[0], m[2], m[6], m[8]);
  }

  lemma AdjugateOfTranspose3At12(m: seq<real>)
    requires IsMatrix(3, m)
    ensures Adjugate(3, Transpose(3, m))[5] == Transpose(3, Adjugate(3, m))[5]
  {
    assert Transpose(3, m) == [m[0], m[3], m[6], m[1], m[4], m[7], m[2], m[5], m[8]];
    Det2OfTranspose(m[0], m[1], m[6], m[7]);
  }

  lemma AdjugateOfTranspose3At20(m: seq<real>)
    requires IsMatrix(3, m)
    ensures Adjugate(3, Transpose(3, m))[6] == Transpose(3, Adjugate(3, m))[6]
  {
    assert Transpose(3, m) == [m[0], m[3], m[6], m[1], m[4], m[7], m[2], m[5], m[8]];
    Det2OfTranspose(m[1], m[2], m[4], m[5]);
  }

  lemma AdjugateOfTranspose3At21(m: seq<real>)
    requires IsMatrix(3, m)
    ensures Adjugate(3, Transpose(3, m))[7] == Transpose(3, Adjugate(3, m))[7]
  {
    assert Transpose(3, m) == [m[0], m[3], m[6], m[1], m[4], m[7], m[2], m[5], m[8]];
    Det2OfTranspose(m[0], m[2], m[3], m[5]);
  }

  lemma AdjugateOfTranspose3At22(m: seq<real>)
    requires IsMatrix(3, m)
    ensures Adjugate(3, Transpose(3, m))[8] == Transpose(3, Adjugate(3, m))[8]
  {
    assert Transpose(3, m) == [m[0], m[3], m[6], m[1], m[4], m[7], m[2], m[5], m[8]];
    Det2OfTranspose(m[0], m[1], m[3], m[4]);
  }

  // Cell by cell: the cofactor of (j, i) in the transpose is the transposed
  // minor of (i, j), whose determinant is unchanged.

  lemma AdjugateOfTranspose4At00(m: seq<real>)
    requires IsMatrix(4, m)
    ensures Adjugate(4, Transpose(4, m))[0] == Transpose(4, Adjugate(4, m))[0]
  {
    assert Transpose(4, m) == [m[0], m[4], m[8], m[12], m[1], m[5], m[9], m[13],
                              m[2], m[6], m[10], m[14], m[3], m[7], m[11], m[15]];
    Det3OfTranspose(m[5], m[6], m[7], m[9], m[10], m[11], m[13], m[14], m[15]);
  }

  lemma AdjugateOfTranspose4At01(m: seq<real>)
    requires IsMatrix(4, m)
    ensures Adjugate(4, Transpose(4, m))[1] == Transpose(4, Adjugate(4, m))[1]
  {
    assert Transpose(4, m) == [m[0], m[4], m[8], m[12], m[1], m[5], m[9], m[13],
                              m[2], m[6], m[10], m[14], m[3], m[7], m[11], m[15]];
    Det3OfTranspose(m[4], m[6], m[7], m[8], m[10], m[11], m[12], m[14], m[15]);
  }

  lemma AdjugateOfTranspose4At02(m: seq<real>)
    requires IsMatrix(4, m)
    ensures Adjugate(4, Transpose(4, m))[2] == Transpose(4, Adjugate(4, m))[2]
  {
    assert Transpose(4, m) == [m[0], m[4], m[8], m[12], m[1], m[5], m[9], m[13],
                              m[2], m[6], m[10], m[14], m[3], m[7], m[11], m[15]];
    Det3OfTranspose(m[4], m[5], m[7], m[8], m[9], m[11], m[12], m[13], m[15]);
  }

  lemma AdjugateOfTranspose4At03(m: seq<real>)
    requires IsMatrix(4, m)
    ensures Adjugate(4, Transpose(4, m))[3] == Transpose(4, Adjugate(4, m))[3]
  {
    assert Transpose(4, m) == [m[0], m[4], m[8], m[12], m[1], m[5], m[9], m[13],
                              m[2], m[6], m[10], m[14], m[3], m[7], m[11], m[15]];
    Det3OfTranspose(m[4], m[5], m[6], m[8], m[9], m[10], m[12], m[13], m[14]);
  }

  lemma AdjugateOfTranspose4At10(m: seq<real>)
    requires IsMatrix(4, m)
    ensures Adjugate(4, Transpose(4, m))[4] == Transpose(4, Adjugate(4, m))[4]
  {
    assert Transpose(4, m) == [m[0], m[4], m[8], m[12], m[1], m[5], m[9], m[13],
                              m[2], m[6], m[10], m[14], m[3], m[7], m[11], m[15]];
    Det3OfTranspose(m[1], m[2], m[3], m[9], m[10], m[11], m[13], m[14], m[15]);
  }

  lemma AdjugateOfTranspose4At11(m: seq<real>)
    requires IsMatrix(4, m)
    ensures Adjugate(4, Transpose(4, m))[5] == Transpose(4, Adjugate(4, m))[5]
  {
    assert Transpose(4, m) == [m[0], m[4], m[8], m[12], m[1], m[5], m[9], m[13],
                              m[2], m[6], m[10], m[14], m[3], m[7], m[11], m[15]];
    Det3OfTranspose(m[0], m[2], m[3], m[8], m[10], m[11], m[12], m[14], m[15]);
  }

  lemma AdjugateOfTranspose4At12(m: seq<real>)
    requires IsMatrix(4, m)
    ensures Adjugate(4, Transpose(4, m))[6] == Transpose(4, Adjugate(4, m))[6]
  {
    assert Transpose(4, m) == [m[0], m[4], m[8], m[12], m[1], m[5], m[9], m[13],
                              m[2], m[6], m[10], m[14], m[3], m[7], m[11], m[15]];
    Det3OfTranspose(m[0], m[1], m[3], m[8], m[9], m[11], m[12], m[13], m[15]);
  }

  lemma AdjugateOfTranspose4At13(m: seq<real>)
    requires IsMatrix(4, m)
    ensures Adjugate(4, Transpose(4, m))[7] == Transpose(4, Adjugate(4, m))[7]
  {
    assert Transpose(4, m) == [m[0], m[4], m[8], m[12], m[1], m[5], m[9], m[13],
                              m[2], m[6], m[10], m[14], m[3], m[7], m[11], m[15]];
    Det3OfTranspose(m[0], m[1], m[2], m[8], m[9], m[10], m[12], m[13], m[14]);
  }

  lemma AdjugateOfTranspose4At20(m: seq<real>)
    requires IsMatrix(4, m)
    ensures Adjugate(4, Transpose(4, m))[8] == Transpose(4, Adjugate(4, m))[8]
  {
    assert Transpose(4, m) == [m[0], m[4], m[8], m[12], m[1], m[5], m[9], m[13],
                              m[2], m[6], m[10], m[14], m[3], m[7], m[11], m[15]];
    Det3OfTranspose(m[1], m[2], m[3], m[5], m[6], m[7], m[13], m[14], m[15]);
  }

  lemma AdjugateOfTranspose4At21(m: seq<real>)
    requires IsMatrix(4, m)
    ensures Adjugate(4, Transpose(4, m))[9] == Transpose(4, Adjugate(4, m))[9]
  {
    assert Transpose(4, m) == [m[0], m[4], m[8], m[12], m[1], m[5], m[9], m[13],
                              m[2], m[6], m[10], m[14], m[3], m[7], m[11], m[15]];
    Det3OfTranspose(m[0], m[2], m[3], m[4], m[6], m[7], m[12], m[14], m[15]);
  }

  lemma AdjugateOfTranspose4At22(m: seq<real>)
    requires IsMatrix(4, m)
    ensures Adjugate(4, Transpose(4, m))[10] == Transpose(4, Adjugate(4, m))[10]
  {
    assert Transpose(4, m) == [m[0], m[4], m[8], m[12], m[1], m[5], m[9], m[13],
                              m[2], m[6], m[10], m[14], m[3], m[7], m[11], m[15]];
    Det3OfTranspose(m[0], m[1], m[3], m[4], m[5], m[7], m[12], m[13], m[15]);
  }

  lemma AdjugateOfTranspose4At23(m: seq<real>)
    requires IsMatrix(4, m)
    ensures Adjugate(4, Transpose(4, m))[11] == Transpose(4, Adjugate(4, m))[11]
  {
    assert Transpose(4, m) == [m[0], m[4], m[8], m[12], m[1], m[5], m[9], m[13],
                              m[2], m[6], m[10], m[14], m[3], m[7], m[11], m[15]];
    Det3OfTranspose(m[0], m[1], m[2], m[4], m[5], m[6], m[12], m[13], m[14]);
  }

  lemma AdjugateOfTranspose4At30(m: seq<real>)
    requires IsMatrix(4, m)
    ensures Adjugate(4, Transpose(4, m))[12] == Transpose(4, Adjugate(4, m))[12]
  {
    assert Transpose(4, m) == [m[0], m[4], m[8], m[12], m[1], m[5], m[9], m[13],
                              m[2], m[6], m[10], m[14], m[3], m[7], m[11], m[15]];
    Det3OfTranspose(m[1], m[2], m[3], m[5], m[6], m[7], m[9], m[10], m[11]);
  }

  lemma AdjugateOfTranspose4At31(m: seq<real>)
    requires IsMatrix(4, m)
    ensures Adjugate(4, Transpose(4, m))[13] == Transpose(4, Adjugate(4, m))[13]
  {
    assert Transpose(4, m) == [m[0], m[4], m[8], m[12], m[1], m[5], m[9], m[13],
                              m[2], m[6], m[10], m[14], m[3], m[7], m[11], m[15]];
    Det3OfTranspose(m[0], m[2], m[3], m[4], m[6], m[7], m[8], m[10], m[11]);
  }

  lemma AdjugateOfTranspose4At32(m: seq<real>)
    requires IsMatrix(4, m)
    ensures Adjugate(4, Transpose(4, m))[14] == Transpose(4, Adjugate(4, m))[14]
  {
    assert Transpose(4, m) == [m[0], m[4], m[8], m[12], m[1], m[5], m[9], m[13],
                              m[2], m[6], m[10], m[14], m[3], m[7], m[11], m[15]];
    Det3OfTranspose(m[0], m[1], m[3], m[4], m[5], m[7], m[8], m[9], m[11]);
  }

  lemma AdjugateOfTranspose4At33(m: seq<real>)
    requires IsMatrix(4, m)
    ensures Adjugate(4, Transpose(4, m))[15] == Transpose(4, Adjugate(4, m))[15]
  {
    assert Transpose(4, m) == [m[0], m[4], m[8], m[12], m[1], m[5], m[9], m[13],
                              m[2], m[6], m[10], m[14], m[3], m[7], m[11], m[15]];
    Det3OfTranspose(m[0], m[1], m[2], m[4], m[5], m[6], m[8], m[9], m[10]);
  }

  lemma AdjugateOfTranspose4(m: seq<real>)
    requires IsMatrix(4, m)
    ensures Adjugate(4, Transpose(4, m)) == Transpose(4, Adjugate(4, m))
  {
    var l := Adjugate(4, Transpose(4, m));
    var r := Transpose(4, Adjugate(4, m));
    AdjugateOfTranspose4Row0(m);
    AdjugateOfTranspose4Row1(m);
    AdjugateOfTranspose4Row2(m);
    AdjugateOfTranspose4Row3(m);
    assert l == r;
  }

  lemma AdjugateOfTranspose4Row0(m: seq<real>)
    requires IsMatrix(4, m)
    ensures var l, r := Adjugate(4, Transpose(4, m)), Transpose(4, Adjugate(4, m));
      l[0] == r[0] && l[1] == r[1] && l[2] == r[2] && l[3] == r[3]
  {
    AdjugateOfTranspose4At00(m);
    AdjugateOfTranspose4At01(m);
    AdjugateOfTranspose4At02(m);
    AdjugateOfTranspose4At03(m);
  }

  lemma AdjugateOfTranspose4Row1(m: seq<real>)
    requires IsMatrix(4, m)
    ensures var l, r := Adjugate(4, Transpose(4, m)), Transpose(4, Adjugate(4, m));
      l[4] == r[4] && l[5] == r[5] && l[6] == r[6] && l[7] == r[7]
  {
    AdjugateOfTranspose4At10(m);
    AdjugateOfTranspose4At11(m);
    AdjugateOfTranspose4At12(m);
    AdjugateOfTranspose4At13(m);
  }

  lemma AdjugateOfTranspose4Row2(m: seq<real>)
    requires IsMatrix(4, m)
    ensures var l, r := Adjugate(4, Transpose(4, m)), Transpose(4, Adjugate(4, m));
      l[8] == r[8] && l[9] == r[9] && l[10] == r[10] && l[11] == r[11]
  {
    AdjugateOfTranspose4At20(m);
    AdjugateOfTranspose4At21(m);
    AdjugateOfTranspose4At22(m);
    AdjugateOfTranspose4At23(m);
  }

  lemma AdjugateOfTranspose4Row3(m: seq<real>)
    requires IsMatrix(4, m)
    ensures var l, r := Adjugate(4, Transpose(4, m)), Transpose(4, Adjugate(4, m));
      l[12] == r[12] && l[13] == r[13] && l[14] == r[14] && l[15] == r[15]
  {
    AdjugateOfTranspose4At30(m);
    AdjugateOfTranspose4At31(m);
    AdjugateOfTranspose4At32(m);
    AdjugateOfTranspose4At33(m);
  }

  /** Row i of a matrix against column j of its adjugate. */
  lemma RowTimesAdjugate(n: nat, m: seq<real>, i: nat, j: nat)
    requires IsMatrix(n, m) && i < n && j < n
    ensures Dot(Row(n, m, i), Column(n, Adjugate(n, m), j))
      == if i == j then Determinant(n, m) else 0.0
  {
    if n == 2 {
      DotExpanded(Row(2, m, i), Column(2, Adjugate(2, m), j));
    } else if n == 3 {
      RowTimesAdjugate3(m, i, j);
    } else {
      RowTimesAdjugate4(m, i, j);
    }
  }

  /** A matrix times its adjugate is its determinant on the diagonal. */
  lemma MatrixTimesAdjugate(n: nat, m: seq<real>)
    requires IsMatrix(n, m)
    ensures Product(n, m, Adjugate(n, m)) == Diagonal(n, Determinant(n, m))
  {
    var p := Product(n, m, Adjugate(n, m));
    var d := Diagonal(n, Determinant(n, m));
    forall i, j | 0 <= i < n && 0 <= j < n
      ensures Cell(n, p, i, j) == Cell(n, d, i, j)
    {
      RowTimesAdjugate(n, m, i, j);
    }
    CellsDetermineMatrix(n, p, d);
  }

  /** A matrix and its transpose have the same determinant. */
  lemma DeterminantOfTranspose(n: nat, m: seq<real>)
    requires IsMatrix(n, m)
    ensures Determinant(n, Transpose(n, m)) == Determinant(n, m)
  {
    if n == 2 {
      assert Transpose(2, m) == [m[0], m[2], m[1], m[3]];
    } else if n == 3 {
      DeterminantOfTranspose3(m);
    } else {
      DeterminantOfTranspose4(m);
    }
  }

  /** The adjugate of the transpose is the transpose of the adjugate. */
  lemma AdjugateOfTranspose(n: nat, m: seq<real>)
    requires IsMatrix(n, m)
    ensures Adjugate(n, Transpose(n, m)) == Transpose(n, Adjugate(n, m))
  {
    if n == 2 {
      assert Transpose(2, m) == [m[0], m[2], m[1], m[3]];
      var a := Adjugate(2, m);
      assert Transpose(2, a) == [a[0], a[2], a[1], a[3]];
    } else if n == 3 {
      AdjugateOfTranspose3(m);
    } else {
      AdjugateOfTranspose4(m);
    }
  }

  /** The adjugate times the matrix is the determinant on the diagonal too. */
  lemma AdjugateTimesMatrix(n: nat, m: seq<real>)
    requires IsMatrix(n, m)
    ensures Product(n, Adjugate(n, m), m) == Diagonal(n, Determinant(n, m))
  {
    var t := Transpose(n, m);
    var a := Adjugate(n, m);
    var p := Product(n, a, m);
    MatrixTimesAdjugate(n, t);
    AdjugateOfTranspose(n, m);
    DeterminantOfTranspose(n, m);
    TransposeOfProduct(n, a, m);
    TransposeInvolution(n, a);
    TransposeInvolution(n, p);
    DiagonalIsSymmetric(n, Determinant(n, m));
  }

  /** Scaling a diagonal matrix scales its diagonal value. */
  lemma ScaledDiagonal(n: nat, s: real, c: real)
    requires ValidLength(n)
    ensures CombineScalar(Times, Diagonal(n, s), c) == Diagonal(n, s * c)
  {
    var l := CombineScalar(Times, Diagonal(n, s), c);
    var r := Diagonal(n, s * c);
    forall i, j | 0 <= i < n && 0 <= j < n
      ensures Cell(n, l, i, j) == Cell(n, r, i, j)
    {
      if i != j {
        assert Cell(n, l, i, j) == 0.0 * c;
      }
    }
    CellsDetermineMatrix(n, l, r);
  }

  /** The adjugate divided by a non-zero determinant is a two-sided inverse. */
  lemma ScaledAdjugateInverts(n: nat, m: seq<real>)
    requires IsMatrix(n, m) && Determinant(n, m) != 0.0
    ensures Product(n, m, CombineScalar(Over, Adjugate(n, m), Determinant(n, m))) == Identity(n)
    ensures Product(n, CombineScalar(Over, Adjugate(n, m), Determinant(n, m)), m) == Identity(n)
  {
    var d := Determinant(n, m);
    var a := Adjugate(n, m);
    var c := 1.0 / d;
    assert d * c == 1.0;
    DivisionIsReciprocalScaling(a, d);
    DiagonalSpecialCases(n);
    ScaledDiagonal(n, d, c);
    MatrixTimesAdjugate(n, m);
    ProductScalesRight(n, m, a, c);
    assert Product(n, m, CombineScalar(Times, a, c)) == Identity(n);
    AdjugateTimesMatrix(n, m);
    ProductScalesLeft(n, a, m, c);
    assert Product(n, CombineScalar(Times, a, c), m) == Identity(n);
  }

  /** `Inverse(m)`: the adjugate divided by the determinant. */
  function Inverse(n: nat, m: seq<real>): (r: seq<real>)
    requires IsMatrix(n, m) && Determinant(n, m) != 0.0
    ensures IsMatrix(n, r)
    ensures Multiply(n, m, r) == Identity(n)
    ensures Multiply(n, r, m) == Identity(n)
  {
    ScaledAdjugateInverts(n, m);
    CombineScalar(Over, Adjugate(n, m), Determinant(n, m))
  }

  /** The identity has determinant one and is its own inverse. */
  lemma IdentityDeterminantAndInverse(n: nat)
    requires ValidLength(n)
    ensures Determinant(n, Identity(n)) == 1.0
    ensures Inverse(n, Identity(n)) == Identity(n)
  {
    IdentityDeterminant(n);
    IdentityIsNeutral(n, Inverse(n, Identity(n)));
  }

  lemma IdentityDeterminant(n: nat)
    requires ValidLength(n)
    ensures Determinant(n, Identity(n)) == 1.0
  {
    if n == 2 {
      assert Identity(2) == [1.0, 0.0, 0.0, 1.0];
    } else if n == 3 {
      assert Identity(3) == [1.0, 0.0, 0.0, 0.0, 1.0, 0.0, 0.0, 0.0, 1.0];
    } else {
      assert Identity(4) == [1.0, 0.0, 0.0, 0.0, 0.0, 1.0, 0.0, 0.0,
                             0.0, 0.0, 1.0, 0.0, 0.0, 0.0, 0.0, 1.0];
    }
  }

  /** The determinants checked for the three orders. */
  lemma DeterminantFixtures()
    ensures Determinant(4, [1.0, -2.0, 0.0, 3.0, -1.0, 4.0, 1.0, -2.0,
                            2.0, -1.0, 0.0, 3.0, -2.0, 1.0, 2.0, 0.0]) == 9.0
    ensures Determinant(3, [1.0, -2.0, 3.0, 2.0, -1.0, 3.0, -2.0, 1.0, 0.0]) == 9.0
    ensures Determinant(2, [1.0, -2.0, 2.0, -1.0]) == 3.0
  {
  }

  /** The inverses checked for the three orders, each scaled by its
      determinant's magnitude into whole numbers. */
  lemma InverseFixtures()
    ensures Determinant(2, [1.0, 3.0, 4.0, 2.0]) == -10.0
    ensures CombineScalar(Times, Inverse(2, [1.0, 3.0, 4.0, 2.0]), 10.0) == [-2.0, 3.0, 4.0, -1.0]
    ensures Determinant(3, [1.0, 3.0, 6.0, 4.0, 2.0, 1.0, 4.0, 4.0, 3.0]) == 26.0
    ensures CombineScalar(Times, Inverse(3, [1.0, 3.0, 6.0, 4.0, 2.0, 1.0, 4.0, 4.0, 3.0]), 26.0)
      == [2.0, 15.0, -9.0, -8.0, -21.0, 23.0, 8.0, 8.0, -10.0]
    ensures Determinant(4, [1.0, 3.0, 6.0, 4.0, 4.0, 2.0, 1.0, 3.0,
                            4.0, 4.0, 3.0, 2.0, 2.0, 2.0, 1.0, 9.0]) == 226.0
    ensures CombineScalar(Times, Inverse(4, [1.0, 3.0, 6.0, 4.0, 4.0, 2.0, 1.0, 3.0,
                                             4.0, 4.0, 3.0, 2.0, 2.0, 2.0, 1.0, 9.0]), 226.0)
      == [12.0, 125.0, -54.0, -35.0, -62.0, -175.0, 166.0, 49.0,
          64.0, 64.0, -62.0, -36.0, 4.0, 4.0, -18.0, 26.0]
  {
  }
}
