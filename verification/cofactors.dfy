/** The determinant polynomials of orders 2, 3 and 4, written over the
    cells of a matrix given row by row as plain scalars, and the cofactor
    identities the matrix-level results rest on: expanding along any row
    gives the determinant, and a row against another row's cofactors gives
    zero.  Each identity is its own lemma so that each proof obligation
    holds a single polynomial equation. */
module Cofactors {

  /** The determinant of the 2x2 matrix (a b / c d). */
  function Det2(a: real, b: real, c: real, d: real): real {
    a * d - b * c
  }

  /** The Leibniz formula for order 3: the signed sum, over the six permutations
      of the columns, of one cell from each row. */
  function Det3(a: real, b: real, c: real, d: real, e: real, f: real, g: real, h: real, i: real): real {
    a * e * i - a * f * h - b * d * i + b * f * g + c * d * h - c * e * g
  }

  /** The Leibniz formula for order 4, over the 24 permutations of the columns. */
  function Det4(
    a: real, b: real, c: real, d: real, e: real, f: real, g: real, h: real,
    i: real, j: real, k: real, l: real, m: real, n: real, o: real, p: real): real
  {
    a * f * k * p - a * f * l * o - a * g * j * p + a * g * l * n + a * h * j * o
    - a * h * k * n - b * e * k * p + b * e * l * o + b * g * i * p - b * g * l * m
    - b * h * i * o + b * h * k * m + c * e * j * p - c * e * l * n - c * f * i * p
    + c * f * l * m + c * h * i * n - c * h * j * m - d * e * j * o + d * e * k * n
    + d * f * i * o - d * f * k * m - d * g * i * n + d * g * j * m
  }

  /** Each determinant polynomial is alternating: a matrix with two equal
      rows, whichever two, has determinant zero. */
  lemma RepeatedRowsVanish(
    a: real, b: real, c: real, d: real, e: real, f: real, g: real, h: real,
    i: real, j: real, k: real, l: real, m: real, n: real, o: real, p: real)
    ensures Det2(a, b, a, b) == 0.0
    ensures Det3(a, b, c, a, b, c, g, h, i) == 0.0 && Det3(a, b, c, d, e, f, a, b, c) == 0.0
    ensures Det3(a, b, c, d, e, f, d, e, f) == 0.0
    ensures Det4(a, b, c, d, a, b, c, d, i, j, k, l, m, n, o, p) == 0.0
    ensures Det4(a, b, c, d, e, f, g, h, a, b, c, d, m, n, o, p) == 0.0
    ensures Det4(a, b, c, d, e, f, g, h, i, j, k, l, a, b, c, d) == 0.0
    ensures Det4(a, b, c, d, e, f, g, h, e, f, g, h, m, n, o, p) == 0.0
    ensures Det4(a, b, c, d, e, f, g, h, i, j, k, l, e, f, g, h) == 0.0
    ensures Det4(a, b, c, d, e, f, g, h, i, j, k, l, i, j, k, l) == 0.0
  {
  }

  /** Exchanging rows and columns leaves the order-2 determinant unchanged. */
  lemma Det2OfTranspose(a: real, b: real, c: real, d: real)
    ensures Det2(a, b, c, d) == Det2(a, c, b, d)
  {
  }

  /** Exchanging rows and columns leaves the order-3 determinant unchanged. */
  lemma Det3OfTranspose(a: real, b: real, c: real, d: real, e: real, f: real, g: real, h: real, i: real)
    ensures Det3(a, b, c, d, e, f, g, h, i) == Det3(a, d, g, b, e, h, c, f, i)
  {
  }

  /** Exchanging rows and columns leaves the order-4 determinant unchanged. */
  lemma Det4OfTranspose(
    a: real, b: real, c: real, d: real, e: real, f: real, g: real, h: real,
    i: real, j: real, k: real, l: real, m: real, n: real, o: real, p: real)
    ensures Det4(a, b, c, d, e, f, g, h, i, j, k, l, m, n, o, p)
      == Det4(a, e, i, m, b, f, j, n, c, g, k, o, d, h, l, p)
  {
  }

  /** Laplace expansion along row 0 of a 3x3 matrix. */
  lemma RowCofactors300(
    a: real, b: real, c: real, d: real, e: real, f: real, g: real, h: real, i: real)
    ensures a * Det2(e, f, h, i) - b * Det2(d, f, g, i) + c * Det2(d, e, g, h)
      == Det3(a, b, c, d, e, f, g, h, i)
  {
  }

  /** Row 0 of a 3x3 matrix against the cofactors of row 1: the expansion
      of a matrix whose rows 0 and 1 are equal, which vanishes. */
  lemma RowCofactors301(
    a: real, b: real, c: real, d: real, e: real, f: real, g: real, h: real, i: real)
    ensures b * Det2(a, c, g, i)
      == a * Det2(b, c, h, i) + c * Det2(a, b, g, h)
  {
  }

  /** Row 0 of a 3x3 matrix against the cofactors of row 2: the expansion
      of a matrix whose rows 0 and 2 are equal, which vanishes. */
  lemma RowCofactors302(
    a: real, b: real, c: real, d: real, e: real, f: real, g: real, h: real, i: real)
    ensures a * Det2(b, c, e, f) + c * Det2(a, b, d, e)
      == b * Det2(a, c, d, f)
  {
  }

  /** Row 1 of a 3x3 matrix against the cofactors of row 0: the expansion
      of a matrix whose rows 1 and 0 are equal, which vanishes. */
  lemma RowCofactors310(
    a: real, b: real, c: real, d: real, e: real, f: real, g: real, h: real, i: real)
    ensures d * Det2(e, f, h, i) + f * Det2(d, e, g, h)
      == e * Det2(d, f, g, i)
  {
  }

  /** Laplace expansion along row 1 of a 3x3 matrix. */
  lemma RowCofactors311(
    a: real, b: real, c: real, d: real, e: real, f: real, g: real, h: real, i: real)
    ensures -d * Det2(b, c, h, i) + e * Det2(a, c, g, i) - f * Det2(a, b, g, h)
      == Det3(a, b, c, d, e, f, g, h, i)
  {
  }

  /** Row 1 of a 3x3 matrix against the cofactors of row 2: the expansion
      of a matrix whose rows 1 and 2 are equal, which vanishes. */
  lemma RowCofactors312(
    a: real, b: real, c: real, d: real, e: real, f: real, g: real, h: real, i: real)
    ensures d * Det2(b, c, e, f) + f * Det2(a, b, d, e)
      == e * Det2(a, c, d, f)
  {
  }

  /** Row 2 of a 3x3 matrix against the cofactors of row 0: the expansion
      of a matrix whose rows 2 and 0 are equal, which vanishes. */
  lemma RowCofactors320(
    a: real, b: real, c: real, d: real, e: real, f: real, g: real, h: real, i: real)
    ensures g * Det2(e, f, h, i) + i * Det2(d, e, g, h)
      == h * Det2(d, f, g, i)
  {
  }

  /** Row 2 of a 3x3 matrix against the cofactors of row 1: the expansion
      of a matrix whose rows 2 and 1 are equal, which vanishes. */
  lemma RowCofactors321(
    a: real, b: real, c: real, d: real, e: real, f: real, g: real, h: real, i: real)
    ensures h * Det2(a, c, g, i)
      == g * Det2(b, c, h, i) + i * Det2(a, b, g, h)
  {
  }

  /** Laplace expansion along row 2 of a 3x3 matrix. */
  lemma RowCofactors322(
    a: real, b: real, c: real, d: real, e: real, f: real, g: real, h: real, i: real)
    ensures g * Det2(b, c, e, f) - h * Det2(a, c, d, f) + i * Det2(a, b, d, e)
      == Det3(a, b, c, d, e, f, g, h, i)
  {
  }

  /** Laplace expansion along row 0 of a 4x4 matrix. */
  lemma RowCofactors400(
    a: real, b: real, c: real, d: real, e: real, f: real, g: real, h: real,
    i: real, j: real, k: real, l: real, m: real, n: real, o: real, p: real)
    ensures a * Det3(f, g, h, j, k, l, n, o, p) - b * Det3(e, g, h, i, k, l, m, o, p)
         + c * Det3(e, f, h, i, j, l, m, n, p) - d * Det3(e, f, g, i, j, k, m, n, o)
      == Det4(a, b, c, d, e, f, g, h, i, j, k, l, m, n, o, p)
  {
  }

  /** Row 0 of a 4x4 matrix against the cofactors of row 1: the expansion
      of a matrix whose rows 0 and 1 are equal, which vanishes. */
  lemma RowCofactors401(
    a: real, b: real, c: real, d: real, e: real, f: real, g: real, h: real,
    i: real, j: real, k: real, l: real, m: real, n: real, o: real, p: real)
    ensures b * Det3(a, c, d, i, k, l, m, o, p) + d * Det3(a, b, c, i, j, k, m, n, o)
      == a * Det3(b, c, d, j, k, l, n, o, p) + c * Det3(a, b, d, i, j, l, m, n, p)
  {
  }

  /** Row 0 of a 4x4 matrix against the cofactors of row 2: the expansion
      of a matrix whose rows 0 and 2 are equal, which vanishes. */
  lemma RowCofactors402(
    a: real, b: real, c: real, d: real, e: real, f: real, g: real, h: real,
    i: real, j: real, k: real, l: real, m: real, n: real, o: real, p: real)
    ensures a * Det3(b, c, d, f, g, h, n, o, p) + c * Det3(a, b, d, e, f, h, m, n, p)
      == b * Det3(a, c, d, e, g, h, m, o, p) + d * Det3(a, b, c, e, f, g, m, n, o)
  {
  }

  /** Row 0 of a 4x4 matrix against the cofactors of row 3: the expansion
      of a matrix whose rows 0 and 3 are equal, which vanishes. */
  lemma RowCofactors403(
    a: real, b: real, c: real, d: real, e: real, f: real, g: real, h: real,
    i: real, j: real, k: real, l: real, m: real, n: real, o: real, p: real)
    ensures b * Det3(a, c, d, e, g, h, i, k, l) + d * Det3(a, b, c, e, f, g, i, j, k)
      == a * Det3(b, c, d, f, g, h, j, k, l) + c * Det3(a, b, d, e, f, h, i, j, l)
  {
  }

  /** Row 1 of a 4x4 matrix against the cofactors of row 0: the expansion
      of a matrix whose rows 1 and 0 are equal, which vanishes. */
  lemma RowCofactors410(
    a: real, b: real, c: real, d: real, e: real, f: real, g: real, h: real,
    i: real, j: real, k: real, l: real, m: real, n: real, o: real, p: real)
    ensures e * Det3(f, g, h, j, k, l, n, o, p) + g * Det3(e, f, h, i, j, l, m, n, p)
      == f * Det3(e, g, h, i, k, l, m, o, p) + h * Det3(e, f, g, i, j, k, m, n, o)
  {
  }

  /** Laplace expansion along row 1 of a 4x4 matrix. */
  lemma RowCofactors411(
    a: real, b: real, c: real, d: real, e: real, f: real, g: real, h: real,
    i: real, j: real, k: real, l: real, m: real, n: real, o: real, p: real)
    ensures -e * Det3(b, c, d, j, k, l, n, o, p) + f * Det3(a, c, d, i, k, l, m, o, p)
         - g * Det3(a, b, d, i, j, l, m, n, p) + h * Det3(a, b, c, i, j, k, m, n, o)
      == Det4(a, b, c, d, e, f, g, h, i, j, k, l, m, n, o, p)
  {
  }

  /** Row 1 of a 4x4 matrix against the cofactors of row 2: the expansion
      of a matrix whose rows 1 and 2 are equal, which vanishes. */
  lemma RowCofactors412(
    a: real, b: real, c: real, d: real, e: real, f: real, g: real, h: real,
    i: real, j: real, k: real, l: real, m: real, n: real, o: real, p: real)
    ensures e * Det3(b, c, d, f, g, h, n, o, p) + g * Det3(a, b, d, e, f, h, m, n, p)
      == f * Det3(a, c, d, e, g, h, m, o, p) + h * Det3(a, b, c, e, f, g, m, n, o)
  {
  }

  /** Row 1 of a 4x4 matrix against the cofactors of row 3: the expansion
      of a matrix whose rows 1 and 3 are equal, which vanishes. */
  lemma RowCofactors413(
    a: real, b: real, c: real, d: real, e: real, f: real, g: real, h: real,
    i: real, j: real, k: real, l: real, m: real, n: real, o: real, p: real)
    ensures f * Det3(a, c, d, e, g, h, i, k, l) + h * Det3(a, b, c, e, f, g, i, j, k)
      == e * Det3(b, c, d, f, g, h, j, k, l) + g * Det3(a, b, d, e, f, h, i, j, l)
  {
  }

  /** Row 2 of a 4x4 matrix against the cofactors of row 0: the expansion
      of a matrix whose rows 2 and 0 are equal, which vanishes. */
  lemma RowCofactors420(
    a: real, b: real, c: real, d: real, e: real, f: real, g: real, h: real,
    i: real, j: real, k: real, l: real, m: real, n: real, o: real, p: real)
    ensures i * Det3(f, g, h, j, k, l, n, o, p) + k * Det3(e, f, h, i, j, l, m, n, p)
      == j * Det3(e, g, h, i, k, l, m, o, p) + l * Det3(e, f, g, i, j, k, m, n, o)
  {
  }

  /** Row 2 of a 4x4 matrix against the cofactors of row 1: the expansion
      of a matrix whose rows 2 and 1 are equal, which vanishes. */
  lemma RowCofactors421(
    a: real, b: real, c: real, d: real, e: real, f: real, g: real, h: real,
    i: real, j: real, k: real, l: real, m: real, n: real, o: real, p: real)
    ensures j * Det3(a, c, d, i, k, l, m, o, p) + l * Det3(a, b, c, i, j, k, m, n, o)
      == i * Det3(b, c, d, j, k, l, n, o, p) + k * Det3(a, b, d, i, j, l, m, n, p)
  {
  }

  /** Laplace expansion along row 2 of a 4x4 matrix. */
  lemma RowCofactors422(
    a: real, b: real, c: real, d: real, e: real, f: real, g: real, h: real,
    i: real, j: real, k: real, l: real, m: real, n: real, o: real, p: real)
    ensures i * Det3(b, c, d, f, g, h, n, o, p) - j * Det3(a, c, d, e, g, h, m, o, p)
         + k * Det3(a, b, d, e, f, h, m, n, p) - l * Det3(a, b, c, e, f, g, m, n, o)
      == Det4(a, b, c, d, e, f, g, h, i, j, k, l, m, n, o, p)
  {
  }

  /** Row 2 of a 4x4 matrix against the cofactors of row 3: the expansion
      of a matrix whose rows 2 and 3 are equal, which vanishes. */
  lemma RowCofactors423(
    a: real, b: real, c: real, d: real, e: real, f: real, g: real, h: real,
    i: real, j: real, k: real, l: real, m: real, n: real, o: real, p: real)
    ensures j * Det3(a, c, d, e, g, h, i, k, l) + l * Det3(a, b, c, e, f, g, i, j, k)
      == i * Det3(b, c, d, f, g, h, j, k, l) + k * Det3(a, b, d, e, f, h, i, j, l)
  {
  }

  /** Row 3 of a 4x4 matrix against the cofactors of row 0: the expansion
      of a matrix whose rows 3 and 0 are equal, which vanishes. */
  lemma RowCofactors430(
    a: real, b: real, c: real, d: real, e: real, f: real, g: real, h: real,
    i: real, j: real, k: real, l: real, m: real, n: real, o: real, p: real)
    ensures m * Det3(f, g, h, j, k, l, n, o, p) + o * Det3(e, f, h, i, j, l, m, n, p)
      == n * Det3(e, g, h, i, k, l, m, o, p) + p * Det3(e, f, g, i, j, k, m, n, o)
  {
  }

  /** Row 3 of a 4x4 matrix against the cofactors of row 1: the expansion
      of a matrix whose rows 3 and 1 are equal, which vanishes. */
  lemma RowCofactors431(
    a: real, b: real, c: real, d: real, e: real, f: real, g: real, h: real,
    i: real, j: real, k: real, l: real, m: real, n: real, o: real, p: real)
    ensures n * Det3(a, c, d, i, k, l, m, o, p) + p * Det3(a, b, c, i, j, k, m, n, o)
      == m * Det3(b, c, d, j, k, l, n, o, p) + o * Det3(a, b, d, i, j, l, m, n, p)
  {
  }

  /** Row 3 of a 4x4 matrix against the cofactors of row 2: the expansion
      of a matrix whose rows 3 and 2 are equal, which vanishes. */
  lemma RowCofactors432(
    a: real, b: real, c: real, d: real, e: real, f: real, g: real, h: real,
    i: real, j: real, k: real, l: real, m: real, n: real, o: real, p: real)
    ensures m * Det3(b, c, d, f, g, h, n, o, p) + o * Det3(a, b, d, e, f, h, m, n, p)
      == n * Det3(a, c, d, e, g, h, m, o, p) + p * Det3(a, b, c, e, f, g, m, n, o)
  {
  }

  /** Laplace expansion along row 3 of a 4x4 matrix. */
  lemma RowCofactors433(
    a: real, b: real, c: real, d: real, e: real, f: real, g: real, h: real,
    i: real, j: real, k: real, l: real, m: real, n: real, o: real, p: real)
    ensures -m * Det3(b, c, d, f, g, h, j, k, l) + n * Det3(a, c, d, e, g, h, i, k, l)
         - o * Det3(a, b, d, e, f, h, i, j, l) + p * Det3(a, b, c, e, f, g, i, j, k)
      == Det4(a, b, c, d, e, f, g, h, i, j, k, l, m, n, o, p)
  {
  }

}
