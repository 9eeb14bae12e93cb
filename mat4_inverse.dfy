/**
 * Determinant and inverse of double 4x4 matrices
 * (Core/rmath/src/types/mat4_double.c, `_det3x3`, `dmat4_determinant`,
 * `dmat4_inverse` and their `_to`/`_inplace` forms).
 *
 * Like `dmat4_mult`, this code reads `elem[i*4 + j]` as row `i`,
 * column `j`; all statements here use that reading, under which
 * `Mat4.Product` is the matrix product. The expansion is by cofactors along
 * row 0, and a minor is stored row by row in nine slots.
 */
module Mat4Inverse {
  import Common
  import Vec4
  import Mat4

  /** `_det3x3`: the rule of Sarrus on a row-by-row 3x3 matrix. */
  function Det3x3(m: seq<real>): real
    requires |m| == 9
  {
    m[0] * (m[4] * m[8] - m[5] * m[7]) -
    m[1] * (m[3] * m[8] - m[5] * m[6]) +
    m[2] * (m[3] * m[7] - m[4] * m[6])
  }

  /** The 3x3 determinant does not change under transposition and changes sign when two rows are exchanged. */
  lemma Det3x3Symmetries(m: seq<real>)
    requires |m| == 9
    ensures Det3x3([m[0], m[3], m[6], m[1], m[4], m[7], m[2], m[5], m[8]]) == Det3x3(m)
    ensures Det3x3([m[3], m[4], m[5], m[0], m[1], m[2], m[6], m[7], m[8]]) == -Det3x3(m)
  {
  }

  /** Position `p` of a range with `r` removed: the positions at and after `r` move up by one. */
  function Skip(p: int, r: int): int
  {
    if p < r then p else p + 1
  }

  /** The minor without row `r` and column `c`, in the order the source's loops fill it. */
  function Minor(m: Mat4.Mat4, r: int, c: int): (s: seq<real>)
    requires 0 <= r < 4 && 0 <= c < 4
    ensures |s| == 9
  {
    seq(9, t requires 0 <= t < 9 => m[Skip(t / 3, r) * 4 + Skip(t % 3, c)])
  }

  /** `(i + j) % 2 == 0 ? 1.0 : -1.0`. */
  function Alternating(k: int): real
  {
    if k % 2 == 0 then 1.0 else -1.0
  }

  /** The signed minor of row `r`, column `c`. */
  function Cofactor(m: Mat4.Mat4, r: int, c: int): real
    requires 0 <= r < 4 && 0 <= c < 4
  {
    Alternating(r + c) * Det3x3(Minor(m, r, c))
  }

  /** The term that `dmat4_determinant` adds for column `col`: `sign * elem[col] * _det3x3(minor)`. */
  function DetTerm(m: Mat4.Mat4, col: int): real
    requires 0 <= col < 4
  {
    Alternating(col) * m[col] * Det3x3(Minor(m, 0, col))
  }

  /** The running sum `det` after the first `n` columns. */
  function PartialDet(m: Mat4.Mat4, n: int): real
    requires 0 <= n <= 4
  {
    if n == 0 then 0.0 else PartialDet(m, n - 1) + DetTerm(m, n - 1)
  }

  /** The determinant as `dmat4_determinant` expands it along row 0. */
  function Det(m: Mat4.Mat4): real
  {
    PartialDet(m, 4)
  }

  /** The determinant as the signed sum over the 24 permutations (Leibniz formula). */
  function Leibniz(m: Mat4.Mat4): real
  {
    m[0] * m[5] * m[10] * m[15] - m[0] * m[5] * m[11] * m[14] - m[0] * m[6] * m[9] * m[15] + m[0] * m[6] * m[11] * m[13] + m[0] * m[7] * m[9] * m[14] - m[0] * m[7] * m[10] * m[13] - m[1] * m[4] * m[10] * m[15] + m[1] * m[4] * m[11] * m[14] + m[1] * m[6] * m[8] * m[15] - m[1] * m[6] * m[11] * m[12] - m[1] * m[7] * m[8] * m[14] + m[1] * m[7] * m[10] * m[12] + m[2] * m[4] * m[9] * m[15] - m[2] * m[4] * m[11] * m[13] - m[2] * m[5] * m[8] * m[15] + m[2] * m[5] * m[11] * m[12] + m[2] * m[7] * m[8] * m[13] - m[2] * m[7] * m[9] * m[12] - m[3] * m[4] * m[9] * m[14] + m[3] * m[4] * m[10] * m[13] + m[3] * m[5] * m[8] * m[14] - m[3] * m[5] * m[10] * m[12] - m[3] * m[6] * m[8] * m[13] + m[3] * m[6] * m[9] * m[12]
  }

  /** The cofactors of row `j`. */
  function CofactorRow(m: Mat4.Mat4, j: int): Vec4.DVec4
    requires 0 <= j < 4
  {
    Vec4.DVec4(Cofactor(m, j, 0), Cofactor(m, j, 1), Cofactor(m, j, 2), Cofactor(m, j, 3))
  }

  /** The cofactors of column `i`. */
  function CofactorColumn(m: Mat4.Mat4, i: int): Vec4.DVec4
    requires 0 <= i < 4
  {
    Vec4.DVec4(Cofactor(m, 0, i), Cofactor(m, 1, i), Cofactor(m, 2, i), Cofactor(m, 3, i))
  }

  /** Row `i` of `m` (slots `i*4..i*4+3`) against the cofactors of row `j`. */
  function RowTimesCofactors(m: Mat4.Mat4, i: int, j: int): real
    requires 0 <= i < 4 && 0 <= j < 4
  {
    Vec4.Dot(Mat4.Column(m, i), CofactorRow(m, j))
  }

  /** Column `i` of `m` (slots `i`, `4+i`, `8+i`, `12+i`) against the cofactors of column `j`. */
  function ColumnTimesCofactors(m: Mat4.Mat4, i: int, j: int): real
    requires 0 <= i < 4 && 0 <= j < 4
  {
    Vec4.Dot(Mat4.Row(m, i), CofactorColumn(m, j))
  }

  // Each cofactor written out as a polynomial in the sixteen slots.

  lemma Cof00(m: Mat4.Mat4)
    ensures Cofactor(m, 0, 0) == m[5] * m[10] * m[15] - m[5] * m[11] * m[14] - m[6] * m[9] * m[15] + m[6] * m[11] * m[13] + m[7] * m[9] * m[14] - m[7] * m[10] * m[13]
  {
  }

  lemma Cof01(m: Mat4.Mat4)
    ensures Cofactor(m, 0, 1) == -m[4] * m[10] * m[15] + m[4] * m[11] * m[14] + m[6] * m[8] * m[15] - m[6] * m[11] * m[12] - m[7] * m[8] * m[14] + m[7] * m[10] * m[12]
  {
  }

  lemma Cof02(m: Mat4.Mat4)
    ensures Cofactor(m, 0, 2) == m[4] * m[9] * m[15] - m[4] * m[11] * m[13] - m[5] * m[8] * m[15] + m[5] * m[11] * m[12] + m[7] * m[8] * m[13] - m[7] * m[9] * m[12]
  {
  }

  lemma Cof03(m: Mat4.Mat4)
    ensures Cofactor(m, 0, 3) == -m[4] * m[9] * m[14] + m[4] * m[10] * m[13] + m[5] * m[8] * m[14] - m[5] * m[10] * m[12] - m[6] * m[8] * m[13] + m[6] * m[9] * m[12]
  {
  }

  lemma Cof10(m: Mat4.Mat4)
    ensures Cofactor(m, 1, 0) == -m[1] * m[10] * m[15] + m[1] * m[11] * m[14] + m[2] * m[9] * m[15] - m[2] * m[11] * m[13] - m[3] * m[9] * m[14] + m[3] * m[10] * m[13]
  {
  }

  lemma Cof11(m: Mat4.Mat4)
    ensures Cofactor(m, 1, 1) == m[0] * m[10] * m[15] - m[0] * m[11] * m[14] - m[2] * m[8] * m[15] + m[2] * m[11] * m[12] + m[3] * m[8] * m[14] - m[3] * m[10] * m[12]
  {
  }

  lemma Cof12(m: Mat4.Mat4)
    ensures Cofactor(m, 1, 2) == -m[0] * m[9] * m[15] + m[0] * m[11] * m[13] + m[1] * m[8] * m[15] - m[1] * m[11] * m[12] - m[3] * m[8] * m[13] + m[3] * m[9] * m[12]
  {
  }

  lemma Cof13(m: Mat4.Mat4)
    ensures Cofactor(m, 1, 3) == m[0] * m[9] * m[14] - m[0] * m[10] * m[13] - m[1] * m[8] * m[14] + m[1] * m[10] * m[12] + m[2] * m[8] * m[13] - m[2] * m[9] * m[12]
  {
  }

  lemma Cof20(m: Mat4.Mat4)
    ensures Cofactor(m, 2, 0) == m[1] * m[6] * m[15] - m[1] * m[7] * m[14] - m[2] * m[5] * m[15] + m[2] * m[7] * m[13] + m[3] * m[5] * m[14] - m[3] * m[6] * m[13]
  {
  }

  lemma Cof21(m: Mat4.Mat4)
    ensures Cofactor(m, 2, 1) == -m[0] * m[6] * m[15] + m[0] * m[7] * m[14] + m[2] * m[4] * m[15] - m[2] * m[7] * m[12] - m[3] * m[4] * m[14] + m[3] * m[6] * m[12]
  {
  }

  lemma Cof22(m: Mat4.Mat4)
    ensures Cofactor(m, 2, 2) == m[0] * m[5] * m[15] - m[0] * m[7] * m[13] - m[1] * m[4] * m[15] + m[1] * m[7] * m[12] + m[3] * m[4] * m[13] - m[3] * m[5] * m[12]
  {
  }

  lemma Cof23(m: Mat4.Mat4)
    ensures Cofactor(m, 2, 3) == -m[0] * m[5] * m[14] + m[0] * m[6] * m[13] + m[1] * m[4] * m[14] - m[1] * m[6] * m[12] - m[2] * m[4] * m[13] + m[2] * m[5] * m[12]
  {
  }

  lemma Cof30(m: Mat4.Mat4)
    ensures Cofactor(m, 3, 0) == -m[1] * m[6] * m[11] + m[1] * m[7] * m[10] + m[2] * m[5] * m[11] - m[2] * m[7] * m[9] - m[3] * m[5] * m[10] + m[3] * m[6] * m[9]
  {
  }

  lemma Cof31(m: Mat4.Mat4)
    ensures Cofactor(m, 3, 1) == m[0] * m[6] * m[11] - m[0] * m[7] * m[10] - m[2] * m[4] * m[11] + m[2] * m[7] * m[8] + m[3] * m[4] * m[10] - m[3] * m[6] * m[8]
  {
  }

  lemma Cof32(m: Mat4.Mat4)
    ensures Cofactor(m, 3, 2) == -m[0] * m[5] * m[11] + m[0] * m[7] * m[9] + m[1] * m[4] * m[11] - m[1] * m[7] * m[8] - m[3] * m[4] * m[9] + m[3] * m[5] * m[8]
  {
  }

  lemma Cof33(m: Mat4.Mat4)
    ensures Cofactor(m, 3, 3) == m[0] * m[5] * m[10] - m[0] * m[6] * m[9] - m[1] * m[4] * m[10] + m[1] * m[6] * m[8] + m[2] * m[4] * m[9] - m[2] * m[5] * m[8]
  {
  }

  // Laplace expansion along each row, against its own and every other row's cofactors.

  lemma RowExpansion00(m: Mat4.Mat4)
    ensures RowTimesCofactors(m, 0, 0) == Leibniz(m)
  {
    Cof00(m);
    assert m[0] * Cofactor(m, 0, 0) == m[0] * m[5] * m[10] * m[15] - m[0] * m[5] * m[11] * m[14] - m[0] * m[6] * m[9] * m[15] + m[0] * m[6] * m[11] * m[13] + m[0] * m[7] * m[9] * m[14] - m[0] * m[7] * m[10] * m[13];
    Cof01(m);
    assert m[1] * Cofactor(m, 0, 1) == -m[1] * m[4] * m[10] * m[15] + m[1] * m[4] * m[11] * m[14] + m[1] * m[6] * m[8] * m[15] - m[1] * m[6] * m[11] * m[12] - m[1] * m[7] * m[8] * m[14] + m[1] * m[7] * m[10] * m[12];
    Cof02(m);
    assert m[2] * Cofactor(m, 0, 2) == m[2] * m[4] * m[9] * m[15] - m[2] * m[4] * m[11] * m[13] - m[2] * m[5] * m[8] * m[15] + m[2] * m[5] * m[11] * m[12] + m[2] * m[7] * m[8] * m[13] - m[2] * m[7] * m[9] * m[12];
    Cof03(m);
    assert m[3] * Cofactor(m, 0, 3) == -m[3] * m[4] * m[9] * m[14] + m[3] * m[4] * m[10] * m[13] + m[3] * m[5] * m[8] * m[14] - m[3] * m[5] * m[10] * m[12] - m[3] * m[6] * m[8] * m[13] + m[3] * m[6] * m[9] * m[12];
  }

  lemma RowExpansion01(m: Mat4.Mat4)
    ensures RowTimesCofactors(m, 0, 1) == 0.0
  {
    Cof10(m);
    assert m[0] * Cofactor(m, 1, 0) == -m[0] * m[1] * m[10] * m[15] + m[0] * m[1] * m[11] * m[14] + m[0] * m[2] * m[9] * m[15] - m[0] * m[2] * m[11] * m[13] - m[0] * m[3] * m[9] * m[14] + m[0] * m[3] * m[10] * m[13];
    Cof11(m);
    assert m[1] * Cofactor(m, 1, 1) == m[0] * m[1] * m[10] * m[15] - m[0] * m[1] * m[11] * m[14] - m[1] * m[2] * m[8] * m[15] + m[1] * m[2] * m[11] * m[12] + m[1] * m[3] * m[8] * m[14] - m[1] * m[3] * m[10] * m[12];
    Cof12(m);
    assert m[2] * Cofactor(m, 1, 2) == -m[0] * m[2] * m[9] * m[15] + m[0] * m[2] * m[11] * m[13] + m[1] * m[2] * m[8] * m[15] - m[1] * m[2] * m[11] * m[12] - m[2] * m[3] * m[8] * m[13] + m[2] * m[3] * m[9] * m[12];
    Cof13(m);
    assert m[3] * Cofactor(m, 1, 3) == m[0] * m[3] * m[9] * m[14] - m[0] * m[3] * m[10] * m[13] - m[1] * m[3] * m[8] * m[14] + m[1] * m[3] * m[10] * m[12] + m[2] * m[3] * m[8] * m[13] - m[2] * m[3] * m[9] * m[12];
  }

  lemma RowExpansion02(m: Mat4.Mat4)
    ensures RowTimesCofactors(m, 0, 2) == 0.0
  {
    Cof20(m);
    assert m[0] * Cofactor(m, 2, 0) == m[0] * m[1] * m[6] * m[15] - m[0] * m[1] * m[7] * m[14] - m[0] * m[2] * m[5] * m[15] + m[0] * m[2] * m[7] * m[13] + m[0] * m[3] * m[5] * m[14] - m[0] * m[3] * m[6] * m[13];
    Cof21(m);
    assert m[1] * Cofactor(m, 2, 1) == -m[0] * m[1] * m[6] * m[15] + m[0] * m[1] * m[7] * m[14] + m[1] * m[2] * m[4] * m[15] - m[1] * m[2] * m[7] * m[12] - m[1] * m[3] * m[4] * m[14] + m[1] * m[3] * m[6] * m[12];
    Cof22(m);
    assert m[2] * Cofactor(m, 2, 2) == m[0] * m[2] * m[5] * m[15] - m[0] * m[2] * m[7] * m[13] - m[1] * m[2] * m[4] * m[15] + m[1] * m[2] * m[7] * m[12] + m[2] * m[3] * m[4] * m[13] - m[2] * m[3] * m[5] * m[12];
    Cof23(m);
    assert m[3] * Cofactor(m, 2, 3) == -m[0] * m[3] * m[5] * m[14] + m[0] * m[3] * m[6] * m[13] + m[1] * m[3] * m[4] * m[14] - m[1] * m[3] * m[6] * m[12] - m[2] * m[3] * m[4] * m[13] + m[2] * m[3] * m[5] * m[12];
  }

  lemma RowExpansion03(m: Mat4.Mat4)
    ensures RowTimesCofactors(m, 0, 3) == 0.0
  {
    Cof30(m);
    assert m[0] * Cofactor(m, 3, 0) == -m[0] * m[1] * m[6] * m[11] + m[0] * m[1] * m[7] * m[10] + m[0] * m[2] * m[5] * m[11] - m[0] * m[2] * m[7] * m[9] - m[0] * m[3] * m[5] * m[10] + m[0] * m[3] * m[6] * m[9];
    Cof31(m);
    assert m[1] * Cofactor(m, 3, 1) == m[0] * m[1] * m[6] * m[11] - m[0] * m[1] * m[7] * m[10] - m[1] * m[2] * m[4] * m[11] + m[1] * m[2] * m[7] * m[8] + m[1] * m[3] * m[4] * m[10] - m[1] * m[3] * m[6] * m[8];
    Cof32(m);
    assert m[2] * Cofactor(m, 3, 2) == -m[0] * m[2] * m[5] * m[11] + m[0] * m[2] * m[7] * m[9] + m[1] * m[2] * m[4] * m[11] - m[1] * m[2] * m[7] * m[8] - m[2] * m[3] * m[4] * m[9] + m[2] * m[3] * m[5] * m[8];
    Cof33(m);
    assert m[3] * Cofactor(m, 3, 3) == m[0] * m[3] * m[5] * m[10] - m[0] * m[3] * m[6] * m[9] - m[1] * m[3] * m[4] * m[10] + m[1] * m[3] * m[6] * m[8] + m[2] * m[3] * m[4] * m[9] - m[2] * m[3] * m[5] * m[8];
  }

  lemma RowExpansion10(m: Mat4.Mat4)
    ensures RowTimesCofactors(m, 1, 0) == 0.0
  {
    Cof00(m);
    assert m[4] * Cofactor(m, 0, 0) == m[4] * m[5] * m[10] * m[15] - m[4] * m[5] * m[11] * m[14] - m[4] * m[6] * m[9] * m[15] + m[4] * m[6] * m[11] * m[13] + m[4] * m[7] * m[9] * m[14] - m[4] * m[7] * m[10] * m[13];
    Cof01(m);
    assert m[5] * Cofactor(m, 0, 1) == -m[4] * m[5] * m[10] * m[15] + m[4] * m[5] * m[11] * m[14] + m[5] * m[6] * m[8] * m[15] - m[5] * m[6] * m[11] * m[12] - m[5] * m[7] * m[8] * m[14] + m[5] * m[7] * m[10] * m[12];
    Cof02(m);
    assert m[6] * Cofactor(m, 0, 2) == m[4] * m[6] * m[9] * m[15] - m[4] * m[6] * m[11] * m[13] - m[5] * m[6] * m[8] * m[15] + m[5] * m[6] * m[11] * m[12] + m[6] * m[7] * m[8] * m[13] - m[6] * m[7] * m[9] * m[12];
    Cof03(m);
    assert m[7] * Cofactor(m, 0, 3) == -m[4] * m[7] * m[9] * m[14] + m[4] * m[7] * m[10] * m[13] + m[5] * m[7] * m[8] * m[14] - m[5] * m[7] * m[10] * m[12] - m[6] * m[7] * m[8] * m[13] + m[6] * m[7] * m[9] * m[12];
  }

  lemma RowExpansion11(m: Mat4.Mat4)
    ensures RowTimesCofactors(m, 1, 1) == Leibniz(m)
  {
    Cof10(m);
    assert m[4] * Cofactor(m, 1, 0) == -m[1] * m[4] * m[10] * m[15] + m[1] * m[4] * m[11] * m[14] + m[2] * m[4] * m[9] * m[15] - m[2] * m[4] * m[11] * m[13] - m[3] * m[4] * m[9] * m[14] + m[3] * m[4] * m[10] * m[13];
    Cof11(m);
    assert m[5] * Cofactor(m, 1, 1) == m[0] * m[5] * m[10] * m[15] - m[0] * m[5] * m[11] * m[14] - m[2] * m[5] * m[8] * m[15] + m[2] * m[5] * m[11] * m[12] + m[3] * m[5] * m[8] * m[14] - m[3] * m[5] * m[10] * m[12];
    Cof12(m);
    assert m[6] * Cofactor(m, 1, 2) == -m[0] * m[6] * m[9] * m[15] + m[0] * m[6] * m[11] * m[13] + m[1] * m[6] * m[8] * m[15] - m[1] * m[6] * m[11] * m[12] - m[3] * m[6] * m[8] * m[13] + m[3] * m[6] * m[9] * m[12];
    Cof13(m);
    assert m[7] * Cofactor(m, 1, 3) == m[0] * m[7] * m[9] * m[14] - m[0] * m[7] * m[10] * m[13] - m[1] * m[7] * m[8] * m[14] + m[1] * m[7] * m[10] * m[12] + m[2] * m[7] * m[8] * m[13] - m[2] * m[7] * m[9] * m[12];
  }

  lemma RowExpansion12(m: Mat4.Mat4)
    ensures RowTimesCofactors(m, 1, 2) == 0.0
  {
    Cof20(m);
    assert m[4] * Cofactor(m, 2, 0) == m[1] * m[4] * m[6] * m[15] - m[1] * m[4] * m[7] * m[14] - m[2] * m[4] * m[5] * m[15] + m[2] * m[4] * m[7] * m[13] + m[3] * m[4] * m[5] * m[14] - m[3] * m[4] * m[6] * m[13];
    Cof21(m);
    assert m[5] * Cofactor(m, 2, 1) == -m[0] * m[5] * m[6] * m[15] + m[0] * m[5] * m[7] * m[14] + m[2] * m[4] * m[5] * m[15] - m[2] * m[5] * m[7] * m[12] - m[3] * m[4] * m[5] * m[14] + m[3] * m[5] * m[6] * m[12];
    Cof22(m);
    assert m[6] * Cofactor(m, 2, 2) == m[0] * m[5] * m[6] * m[15] - m[0] * m[6] * m[7] * m[13] - m[1] * m[4] * m[6] * m[15] + m[1] * m[6] * m[7] * m[12] + m[3] * m[4] * m[6] * m[13] - m[3] * m[5] * m[6] * m[12];
    Cof23(m);
    assert m[7] * Cofactor(m, 2, 3) == -m[0] * m[5] * m[7] * m[14] + m[0] * m[6] * m[7] * m[13] + m[1] * m[4] * m[7] * m[14] - m[1] * m[6] * m[7] * m[12] - m[2] * m[4] * m[7] * m[13] + m[2] * m[5] * m[7] * m[12];
  }

  lemma RowExpansion13(m: Mat4.Mat4)
    ensures RowTimesCofactors(m, 1, 3) == 0.0
  {
    Cof30(m);
    assert m[4] * Cofactor(m, 3, 0) == -m[1] * m[4] * m[6] * m[11] + m[1] * m[4] * m[7] * m[10] + m[2] * m[4] * m[5] * m[11] - m[2] * m[4] * m[7] * m[9] - m[3] * m[4] * m[5] * m[10] + m[3] * m[4] * m[6] * m[9];
    Cof31(m);
    assert m[5] * Cofactor(m, 3, 1) == m[0] * m[5] * m[6] * m[11] - m[0] * m[5] * m[7] * m[10] - m[2] * m[4] * m[5] * m[11] + m[2] * m[5] * m[7] * m[8] + m[3] * m[4] * m[5] * m[10] - m[3] * m[5] * m[6] * m[8];
    Cof32(m);
    assert m[6] * Cofactor(m, 3, 2) == -m[0] * m[5] * m[6] * m[11] + m[0] * m[6] * m[7] * m[9] + m[1] * m[4] * m[6] * m[11] - m[1] * m[6] * m[7] * m[8] - m[3] * m[4] * m[6] * m[9] + m[3] * m[5] * m[6] * m[8];
    Cof33(m);
    assert m[7] * Cofactor(m, 3, 3) == m[0] * m[5] * m[7] * m[10] - m[0] * m[6] * m[7] * m[9] - m[1] * m[4] * m[7] * m[10] + m[1] * m[6] * m[7] * m[8] + m[2] * m[4] * m[7] * m[9] - m[2] * m[5] * m[7] * m[8];
  }

  lemma RowExpansion20(m: Mat4.Mat4)
    ensures RowTimesCofactors(m, 2, 0) == 0.0
  {
    Cof00(m);
    assert m[8] * Cofactor(m, 0, 0) == m[5] * m[8] * m[10] * m[15] - m[5] * m[8] * m[11] * m[14] - m[6] * m[8] * m[9] * m[15] + m[6] * m[8] * m[11] * m[13] + m[7] * m[8] * m[9] * m[14] - m[7] * m[8] * m[10] * m[13];
    Cof01(m);
    assert m[9] * Cofactor(m, 0, 1) == -m[4] * m[9] * m[10] * m[15] + m[4] * m[9] * m[11] * m[14] + m[6] * m[8] * m[9] * m[15] - m[6] * m[9] * m[11] * m[12] - m[7] * m[8] * m[9] * m[14] + m[7] * m[9] * m[10] * m[12];
    Cof02(m);
    assert m[10] * Cofactor(m, 0, 2) == m[4] * m[9] * m[10] * m[15] - m[4] * m[10] * m[11] * m[13] - m[5] * m[8] * m[10] * m[15] + m[5] * m[10] * m[11] * m[12] + m[7] * m[8] * m[10] * m[13] - m[7] * m[9] * m[10] * m[12];
    Cof03(m);
    assert m[11] * Cofactor(m, 0, 3) == -m[4] * m[9] * m[11] * m[14] + m[4] * m[10] * m[11] * m[13] + m[5] * m[8] * m[11] * m[14] - m[5] * m[10] * m[11] * m[12] - m[6] * m[8] * m[11] * m[13] + m[6] * m[9] * m[11] * m[12];
  }

  lemma RowExpansion21(m: Mat4.Mat4)
    ensures RowTimesCofactors(m, 2, 1) == 0.0
  {
    Cof10(m);
    assert m[8] * Cofactor(m, 1, 0) == -m[1] * m[8] * m[10] * m[15] + m[1] * m[8] * m[11] * m[14] + m[2] * m[8] * m[9] * m[15] - m[2] * m[8] * m[11] * m[13] - m[3] * m[8] * m[9] * m[14] + m[3] * m[8] * m[10] * m[13];
    Cof11(m);
    assert m[9] * Cofactor(m, 1, 1) == m[0] * m[9] * m[10] * m[15] - m[0] * m[9] * m[11] * m[14] - m[2] * m[8] * m[9] * m[15] + m[2] * m[9] * m[11] * m[12] + m[3] * m[8] * m[9] * m[14] - m[3] * m[9] * m[10] * m[12];
    Cof12(m);
    assert m[10] * Cofactor(m, 1, 2) == -m[0] * m[9] * m[10] * m[15] + m[0] * m[10] * m[11] * m[13] + m[1] * m[8] * m[10] * m[15] - m[1] * m[10] * m[11] * m[12] - m[3] * m[8] * m[10] * m[13] + m[3] * m[9] * m[10] * m[12];
    Cof13(m);
    assert m[11] * Cofactor(m, 1, 3) == m[0] * m[9] * m[11] * m[14] - m[0] * m[10] * m[11] * m[13] - m[1] * m[8] * m[11] * m[14] + m[1] * m[10] * m[11] * m[12] + m[2] * m[8] * m[11] * m[13] - m[2] * m[9] * m[11] * m[12];
  }

  lemma RowExpansion22(m: Mat4.Mat4)
    ensures RowTimesCofactors(m, 2, 2) == Leibniz(m)
  {
    Cof20(m);
    assert m[8] * Cofactor(m, 2, 0) == m[1] * m[6] * m[8] * m[15] - m[1] * m[7] * m[8] * m[14] - m[2] * m[5] * m[8] * m[15] + m[2] * m[7] * m[8] * m[13] + m[3] * m[5] * m[8] * m[14] - m[3] * m[6] * m[8] * m[13];
    Cof21(m);
    assert m[9] * Cofactor(m, 2, 1) == -m[0] * m[6] * m[9] * m[15] + m[0] * m[7] * m[9] * m[14] + m[2] * m[4] * m[9] * m[15] - m[2] * m[7] * m[9] * m[12] - m[3] * m[4] * m[9] * m[14] + m[3] * m[6] * m[9] * m[12];
    Cof22(m);
    assert m[10] * Cofactor(m, 2, 2) == m[0] * m[5] * m[10] * m[15] - m[0] * m[7] * m[10] * m[13] - m[1] * m[4] * m[10] * m[15] + m[1] * m[7] * m[10] * m[12] + m[3] * m[4] * m[10] * m[13] - m[3] * m[5] * m[10] * m[12];
    Cof23(m);
    assert m[11] * Cofactor(m, 2, 3) == -m[0] * m[5] * m[11] * m[14] + m[0] * m[6] * m[11] * m[13] + m[1] * m[4] * m[11] * m[14] - m[1] * m[6] * m[11] * m[12] - m[2] * m[4] * m[11] * m[13] + m[2] * m[5] * m[11] * m[12];
  }

  lemma RowExpansion23(m: Mat4.Mat4)
    ensures RowTimesCofactors(m, 2, 3) == 0.0
  {
    Cof30(m);
    assert m[8] * Cofactor(m, 3, 0) == -m[1] * m[6] * m[8] * m[11] + m[1] * m[7] * m[8] * m[10] + m[2] * m[5] * m[8] * m[11] - m[2] * m[7] * m[8] * m[9] - m[3] * m[5] * m[8] * m[10] + m[3] * m[6] * m[8] * m[9];
    Cof31(m);
    assert m[9] * Cofactor(m, 3, 1) == m[0] * m[6] * m[9] * m[11] - m[0] * m[7] * m[9] * m[10] - m[2] * m[4] * m[9] * m[11] + m[2] * m[7] * m[8] * m[9] + m[3] * m[4] * m[9] * m[10] - m[3] * m[6] * m[8] * m[9];
    Cof32(m);
    assert m[10] * Cofactor(m, 3, 2) == -m[0] * m[5] * m[10] * m[11] + m[0] * m[7] * m[9] * m[10] + m[1] * m[4] * m[10] * m[11] - m[1] * m[7] * m[8] * m[10] - m[3] * m[4] * m[9] * m[10] + m[3] * m[5] * m[8] * m[10];
    Cof33(m);
    assert m[11] * Cofactor(m, 3, 3) == m[0] * m[5] * m[10] * m[11] - m[0] * m[6] * m[9] * m[11] - m[1] * m[4] * m[10] * m[11] + m[1] * m[6] * m[8] * m[11] + m[2] * m[4] * m[9] * m[11] - m[2] * m[5] * m[8] * m[11];
  }

  lemma RowExpansion30(m: Mat4.Mat4)
    ensures RowTimesCofactors(m, 3, 0) == 0.0
  {
    Cof00(m);
    assert m[12] * Cofactor(m, 0, 0) == m[5] * m[10] * m[12] * m[15] - m[5] * m[11] * m[12] * m[14] - m[6] * m[9] * m[12] * m[15] + m[6] * m[11] * m[12] * m[13] + m[7] * m[9] * m[12] * m[14] - m[7] * m[10] * m[12] * m[13];
    Cof01(m);
    assert m[13] * Cofactor(m, 0, 1) == -m[4] * m[10] * m[13] * m[15] + m[4] * m[11] * m[13] * m[14] + m[6] * m[8] * m[13] * m[15] - m[6] * m[11] * m[12] * m[13] - m[7] * m[8] * m[13] * m[14] + m[7] * m[10] * m[12] * m[13];
    Cof02(m);
    assert m[14] * Cofactor(m, 0, 2) == m[4] * m[9] * m[14] * m[15] - m[4] * m[11] * m[13] * m[14] - m[5] * m[8] * m[14] * m[15] + m[5] * m[11] * m[12] * m[14] + m[7] * m[8] * m[13] * m[14] - m[7] * m[9] * m[12] * m[14];
    Cof03(m);
    assert m[15] * Cofactor(m, 0, 3) == -m[4] * m[9] * m[14] * m[15] + m[4] * m[10] * m[13] * m[15] + m[5] * m[8] * m[14] * m[15] - m[5] * m[10] * m[12] * m[15] - m[6] * m[8] * m[13] * m[15] + m[6] * m[9] * m[12] * m[15];
  }

  lemma RowExpansion31(m: Mat4.Mat4)
    ensures RowTimesCofactors(m, 3, 1) == 0.0
  {
    Cof10(m);
    assert m[12] * Cofactor(m, 1, 0) == -m[1] * m[10] * m[12] * m[15] + m[1] * m[11] * m[12] * m[14] + m[2] * m[9] * m[12] * m[15] - m[2] * m[11] * m[12] * m[13] - m[3] * m[9] * m[12] * m[14] + m[3] * m[10] * m[12] * m[13];
    Cof11(m);
    assert m[13] * Cofactor(m, 1, 1) == m[0] * m[10] * m[13] * m[15] - m[0] * m[11] * m[13] * m[14] - m[2] * m[8] * m[13] * m[15] + m[2] * m[11] * m[12] * m[13] + m[3] * m[8] * m[13] * m[14] - m[3] * m[10] * m[12] * m[13];
    Cof12(m);
    assert m[14] * Cofactor(m, 1, 2) == -m[0] * m[9] * m[14] * m[15] + m[0] * m[11] * m[13] * m[14] + m[1] * m[8] * m[14] * m[15] - m[1] * m[11] * m[12] * m[14] - m[3] * m[8] * m[13] * m[14] + m[3] * m[9] * m[12] * m[14];
    Cof13(m);
    assert m[15] * Cofactor(m, 1, 3) == m[0] * m[9] * m[14] * m[15] - m[0] * m[10] * m[13] * m[15] - m[1] * m[8] * m[14] * m[15] + m[1] * m[10] * m[12] * m[15] + m[2] * m[8] * m[13] * m[15] - m[2] * m[9] * m[12] * m[15];
  }

  lemma RowExpansion32(m: Mat4.Mat4)
    ensures RowTimesCofactors(m, 3, 2) == 0.0
  {
    Cof20(m);
    assert m[12] * Cofactor(m, 2, 0) == m[1] * m[6] * m[12] * m[15] - m[1] * m[7] * m[12] * m[14] - m[2] * m[5] * m[12] * m[15] + m[2] * m[7] * m[12] * m[13] + m[3] * m[5] * m[12] * m[14] - m[3] * m[6] * m[12] * m[13];
    Cof21(m);
    assert m[13] * Cofactor(m, 2, 1) == -m[0] * m[6] * m[13] * m[15] + m[0] * m[7] * m[13] * m[14] + m[2] * m[4] * m[13] * m[15] - m[2] * m[7] * m[12] * m[13] - m[3] * m[4] * m[13] * m[14] + m[3] * m[6] * m[12] * m[13];
    Cof22(m);
    assert m[14] * Cofactor(m, 2, 2) == m[0] * m[5] * m[14] * m[15] - m[0] * m[7] * m[13] * m[14] - m[1] * m[4] * m[14] * m[15] + m[1] * m[7] * m[12] * m[14] + m[3] * m[4] * m[13] * m[14] - m[3] * m[5] * m[12] * m[14];
    Cof23(m);
    assert m[15] * Cofactor(m, 2, 3) == -m[0] * m[5] * m[14] * m[15] + m[0] * m[6] * m[13] * m[15] + m[1] * m[4] * m[14] * m[15] - m[1] * m[6] * m[12] * m[15] - m[2] * m[4] * m[13] * m[15] + m[2] * m[5] * m[12] * m[15];
  }

  lemma RowExpansion33(m: Mat4.Mat4)
    ensures RowTimesCofactors(m, 3, 3) == Leibniz(m)
  {
    Cof30(m);
    assert m[12] * Cofactor(m, 3, 0) == -m[1] * m[6] * m[11] * m[12] + m[1] * m[7] * m[10] * m[12] + m[2] * m[5] * m[11] * m[12] - m[2] * m[7] * m[9] * m[12] - m[3] * m[5] * m[10] * m[12] + m[3] * m[6] * m[9] * m[12];
    Cof31(m);
    assert m[13] * Cofactor(m, 3, 1) == m[0] * m[6] * m[11] * m[13] - m[0] * m[7] * m[10] * m[13] - m[2] * m[4] * m[11] * m[13] + m[2] * m[7] * m[8] * m[13] + m[3] * m[4] * m[10] * m[13] - m[3] * m[6] * m[8] * m[13];
    Cof32(m);
    assert m[14] * Cofactor(m, 3, 2) == -m[0] * m[5] * m[11] * m[14] + m[0] * m[7] * m[9] * m[14] + m[1] * m[4] * m[11] * m[14] - m[1] * m[7] * m[8] * m[14] - m[3] * m[4] * m[9] * m[14] + m[3] * m[5] * m[8] * m[14];
    Cof33(m);
    assert m[15] * Cofactor(m, 3, 3) == m[0] * m[5] * m[10] * m[15] - m[0] * m[6] * m[9] * m[15] - m[1] * m[4] * m[10] * m[15] + m[1] * m[6] * m[8] * m[15] + m[2] * m[4] * m[9] * m[15] - m[2] * m[5] * m[8] * m[15];
  }

  // Laplace expansion along each column, against its own and every other column's cofactors.

  lemma ColumnExpansion00(m: Mat4.Mat4)
    ensures ColumnTimesCofactors(m, 0, 0) == Leibniz(m)
  {
    Cof00(m);
    assert m[0] * Cofactor(m, 0, 0) == m[0] * m[5] * m[10] * m[15] - m[0] * m[5] * m[11] * m[14] - m[0] * m[6] * m[9] * m[15] + m[0] * m[6] * m[11] * m[13] + m[0] * m[7] * m[9] * m[14] - m[0] * m[7] * m[10] * m[13];
    Cof10(m);
    assert m[4] * Cofactor(m, 1, 0) == -m[1] * m[4] * m[10] * m[15] + m[1] * m[4] * m[11] * m[14] + m[2] * m[4] * m[9] * m[15] - m[2] * m[4] * m[11] * m[13] - m[3] * m[4] * m[9] * m[14] + m[3] * m[4] * m[10] * m[13];
    Cof20(m);
    assert m[8] * Cofactor(m, 2, 0) == m[1] * m[6] * m[8] * m[15] - m[1] * m[7] * m[8] * m[14] - m[2] * m[5] * m[8] * m[15] + m[2] * m[7] * m[8] * m[13] + m[3] * m[5] * m[8] * m[14] - m[3] * m[6] * m[8] * m[13];
    Cof30(m);
    assert m[12] * Cofactor(m, 3, 0) == -m[1] * m[6] * m[11] * m[12] + m[1] * m[7] * m[10] * m[12] + m[2] * m[5] * m[11] * m[12] - m[2] * m[7] * m[9] * m[12] - m[3] * m[5] * m[10] * m[12] + m[3] * m[6] * m[9] * m[12];
  }

  lemma ColumnExpansion01(m: Mat4.Mat4)
    ensures ColumnTimesCofactors(m, 0, 1) == 0.0
  {
    Cof01(m);
    assert m[0] * Cofactor(m, 0, 1) == -m[0] * m[4] * m[10] * m[15] + m[0] * m[4] * m[11] * m[14] + m[0] * m[6] * m[8] * m[15] - m[0] * m[6] * m[11] * m[12] - m[0] * m[7] * m[8] * m[14] + m[0] * m[7] * m[10] * m[12];
    Cof11(m);
    assert m[4] * Cofactor(m, 1, 1) == m[0] * m[4] * m[10] * m[15] - m[0] * m[4] * m[11] * m[14] - m[2] * m[4] * m[8] * m[15] + m[2] * m[4] * m[11] * m[12] + m[3] * m[4] * m[8] * m[14] - m[3] * m[4] * m[10] * m[12];
    Cof21(m);
    assert m[8] * Cofactor(m, 2, 1) == -m[0] * m[6] * m[8] * m[15] + m[0] * m[7] * m[8] * m[14] + m[2] * m[4] * m[8] * m[15] - m[2] * m[7] * m[8] * m[12] - m[3] * m[4] * m[8] * m[14] + m[3] * m[6] * m[8] * m[12];
    Cof31(m);
    assert m[12] * Cofactor(m, 3, 1) == m[0] * m[6] * m[11] * m[12] - m[0] * m[7] * m[10] * m[12] - m[2] * m[4] * m[11] * m[12] + m[2] * m[7] * m[8] * m[12] + m[3] * m[4] * m[10] * m[12] - m[3] * m[6] * m[8] * m[12];
  }

  lemma ColumnExpansion02(m: Mat4.Mat4)
    ensures ColumnTimesCofactors(m, 0, 2) == 0.0
  {
    Cof02(m);
    assert m[0] * Cofactor(m, 0, 2) == m[0] * m[4] * m[9] * m[15] - m[0] * m[4] * m[11] * m[13] - m[0] * m[5] * m[8] * m[15] + m[0] * m[5] * m[11] * m[12] + m[0] * m[7] * m[8] * m[13] - m[0] * m[7] * m[9] * m[12];
    Cof12(m);
    assert m[4] * Cofactor(m, 1, 2) == -m[0] * m[4] * m[9] * m[15] + m[0] * m[4] * m[11] * m[13] + m[1] * m[4] * m[8] * m[15] - m[1] * m[4] * m[11] * m[12] - m[3] * m[4] * m[8] * m[13] + m[3] * m[4] * m[9] * m[12];
    Cof22(m);
    assert m[8] * Cofactor(m, 2, 2) == m[0] * m[5] * m[8] * m[15] - m[0] * m[7] * m[8] * m[13] - m[1] * m[4] * m[8] * m[15] + m[1] * m[7] * m[8] * m[12] + m[3] * m[4] * m[8] * m[13] - m[3] * m[5] * m[8] * m[12];
    Cof32(m);
    assert m[12] * Cofactor(m, 3, 2) == -m[0] * m[5] * m[11] * m[12] + m[0] * m[7] * m[9] * m[12] + m[1] * m[4] * m[11] * m[12] - m[1] * m[7] * m[8] * m[12] - m[3] * m[4] * m[9] * m[12] + m[3] * m[5] * m[8] * m[12];
  }

  lemma ColumnExpansion03(m: Mat4.Mat4)
    ensures ColumnTimesCofactors(m, 0, 3) == 0.0
  {
    Cof03(m);
    assert m[0] * Cofactor(m, 0, 3) == -m[0] * m[4] * m[9] * m[14] + m[0] * m[4] * m[10] * m[13] + m[0] * m[5] * m[8] * m[14] - m[0] * m[5] * m[10] * m[12] - m[0] * m[6] * m[8] * m[13] + m[0] * m[6] * m[9] * m[12];
    Cof13(m);
    assert m[4] * Cofactor(m, 1, 3) == m[0] * m[4] * m[9] * m[14] - m[0] * m[4] * m[10] * m[13] - m[1] * m[4] * m[8] * m[14] + m[1] * m[4] * m[10] * m[12] + m[2] * m[4] * m[8] * m[13] - m[2] * m[4] * m[9] * m[12];
    Cof23(m);
    assert m[8] * Cofactor(m, 2, 3) == -m[0] * m[5] * m[8] * m[14] + m[0] * m[6] * m[8] * m[13] + m[1] * m[4] * m[8] * m[14] - m[1] * m[6] * m[8] * m[12] - m[2] * m[4] * m[8] * m[13] + m[2] * m[5] * m[8] * m[12];
    Cof33(m);
    assert m[12] * Cofactor(m, 3, 3) == m[0] * m[5] * m[10] * m[12] - m[0] * m[6] * m[9] * m[12] - m[1] * m[4] * m[10] * m[12] + m[1] * m[6] * m[8] * m[12] + m[2] * m[4] * m[9] * m[12] - m[2] * m[5] * m[8] * m[12];
  }

  lemma ColumnExpansion10(m: Mat4.Mat4)
    ensures ColumnTimesCofactors(m, 1, 0) == 0.0
  {
    Cof00(m);
    assert m[1] * Cofactor(m, 0, 0) == m[1] * m[5] * m[10] * m[15] - m[1] * m[5] * m[11] * m[14] - m[1] * m[6] * m[9] * m[15] + m[1] * m[6] * m[11] * m[13] + m[1] * m[7] * m[9] * m[14] - m[1] * m[7] * m[10] * m[13];
    Cof10(m);
    assert m[5] * Cofactor(m, 1, 0) == -m[1] * m[5] * m[10] * m[15] + m[1] * m[5] * m[11] * m[14] + m[2] * m[5] * m[9] * m[15] - m[2] * m[5] * m[11] * m[13] - m[3] * m[5] * m[9] * m[14] + m[3] * m[5] * m[10] * m[13];
    Cof20(m);
    assert m[9] * Cofactor(m, 2, 0) == m[1] * m[6] * m[9] * m[15] - m[1] * m[7] * m[9] * m[14] - m[2] * m[5] * m[9] * m[15] + m[2] * m[7] * m[9] * m[13] + m[3] * m[5] * m[9] * m[14] - m[3] * m[6] * m[9] * m[13];
    Cof30(m);
    assert m[13] * Cofactor(m, 3, 0) == -m[1] * m[6] * m[11] * m[13] + m[1] * m[7] * m[10] * m[13] + m[2] * m[5] * m[11] * m[13] - m[2] * m[7] * m[9] * m[13] - m[3] * m[5] * m[10] * m[13] + m[3] * m[6] * m[9] * m[13];
  }

  lemma ColumnExpansion11(m: Mat4.Mat4)
    ensures ColumnTimesCofactors(m, 1, 1) == Leibniz(m)
  {
    Cof01(m);
    assert m[1] * Cofactor(m, 0, 1) == -m[1] * m[4] * m[10] * m[15] + m[1] * m[4] * m[11] * m[14] + m[1] * m[6] * m[8] * m[15] - m[1] * m[6] * m[11] * m[12] - m[1] * m[7] * m[8] * m[14] + m[1] * m[7] * m[10] * m[12];
    Cof11(m);
    assert m[5] * Cofactor(m, 1, 1) == m[0] * m[5] * m[10] * m[15] - m[0] * m[5] * m[11] * m[14] - m[2] * m[5] * m[8] * m[15] + m[2] * m[5] * m[11] * m[12] + m[3] * m[5] * m[8] * m[14] - m[3] * m[5] * m[10] * m[12];
    Cof21(m);
    assert m[9] * Cofactor(m, 2, 1) == -m[0] * m[6] * m[9] * m[15] + m[0] * m[7] * m[9] * m[14] + m[2] * m[4] * m[9] * m[15] - m[2] * m[7] * m[9] * m[12] - m[3] * m[4] * m[9] * m[14] + m[3] * m[6] * m[9] * m[12];
    Cof31(m);
    assert m[13] * Cofactor(m, 3, 1) == m[0] * m[6] * m[11] * m[13] - m[0] * m[7] * m[10] * m[13] - m[2] * m[4] * m[11] * m[13] + m[2] * m[7] * m[8] * m[13] + m[3] * m[4] * m[10] * m[13] - m[3] * m[6] * m[8] * m[13];
  }

  lemma ColumnExpansion12(m: Mat4.Mat4)
    ensures ColumnTimesCofactors(m, 1, 2) == 0.0
  {
    Cof02(m);
    assert m[1] * Cofactor(m, 0, 2) == m[1] * m[4] * m[9] * m[15] - m[1] * m[4] * m[11] * m[13] - m[1] * m[5] * m[8] * m[15] + m[1] * m[5] * m[11] * m[12] + m[1] * m[7] * m[8] * m[13] - m[1] * m[7] * m[9] * m[12];
    Cof12(m);
    assert m[5] * Cofactor(m, 1, 2) == -m[0] * m[5] * m[9] * m[15] + m[0] * m[5] * m[11] * m[13] + m[1] * m[5] * m[8] * m[15] - m[1] * m[5] * m[11] * m[12] - m[3] * m[5] * m[8] * m[13] + m[3] * m[5] * m[9] * m[12];
    Cof22(m);
    assert m[9] * Cofactor(m, 2, 2) == m[0] * m[5] * m[9] * m[15] - m[0] * m[7] * m[9] * m[13] - m[1] * m[4] * m[9] * m[15] + m[1] * m[7] * m[9] * m[12] + m[3] * m[4] * m[9] * m[13] - m[3] * m[5] * m[9] * m[12];
    Cof32(m);
    assert m[13] * Cofactor(m, 3, 2) == -m[0] * m[5] * m[11] * m[13] + m[0] * m[7] * m[9] * m[13] + m[1] * m[4] * m[11] * m[13] - m[1] * m[7] * m[8] * m[13] - m[3] * m[4] * m[9] * m[13] + m[3] * m[5] * m[8] * m[13];
  }

  lemma ColumnExpansion13(m: Mat4.Mat4)
    ensures ColumnTimesCofactors(m, 1, 3) == 0.0
  {
    Cof03(m);
    assert m[1] * Cofactor(m, 0, 3) == -m[1] * m[4] * m[9] * m[14] + m[1] * m[4] * m[10] * m[13] + m[1] * m[5] * m[8] * m[14] - m[1] * m[5] * m[10] * m[12] - m[1] * m[6] * m[8] * m[13] + m[1] * m[6] * m[9] * m[12];
    Cof13(m);
    assert m[5] * Cofactor(m, 1, 3) == m[0] * m[5] * m[9] * m[14] - m[0] * m[5] * m[10] * m[13] - m[1] * m[5] * m[8] * m[14] + m[1] * m[5] * m[10] * m[12] + m[2] * m[5] * m[8] * m[13] - m[2] * m[5] * m[9] * m[12];
    Cof23(m);
    assert m[9] * Cofactor(m, 2, 3) == -m[0] * m[5] * m[9] * m[14] + m[0] * m[6] * m[9] * m[13] + m[1] * m[4] * m[9] * m[14] - m[1] * m[6] * m[9] * m[12] - m[2] * m[4] * m[9] * m[13] + m[2] * m[5] * m[9] * m[12];
    Cof33(m);
    assert m[13] * Cofactor(m, 3, 3) == m[0] * m[5] * m[10] * m[13] - m[0] * m[6] * m[9] * m[13] - m[1] * m[4] * m[10] * m[13] + m[1] * m[6] * m[8] * m[13] + m[2] * m[4] * m[9] * m[13] - m[2] * m[5] * m[8] * m[13];
  }

  lemma ColumnExpansion20(m: Mat4.Mat4)
    ensures ColumnTimesCofactors(m, 2, 0) == 0.0
  {
    Cof00(m);
    assert m[2] * Cofactor(m, 0, 0) == m[2] * m[5] * m[10] * m[15] - m[2] * m[5] * m[11] * m[14] - m[2] * m[6] * m[9] * m[15] + m[2] * m[6] * m[11] * m[13] + m[2] * m[7] * m[9] * m[14] - m[2] * m[7] * m[10] * m[13];
    Cof10(m);
    assert m[6] * Cofactor(m, 1, 0) == -m[1] * m[6] * m[10] * m[15] + m[1] * m[6] * m[11] * m[14] + m[2] * m[6] * m[9] * m[15] - m[2] * m[6] * m[11] * m[13] - m[3] * m[6] * m[9] * m[14] + m[3] * m[6] * m[10] * m[13];
    Cof20(m);
    assert m[10] * Cofactor(m, 2, 0) == m[1] * m[6] * m[10] * m[15] - m[1] * m[7] * m[10] * m[14] - m[2] * m[5] * m[10] * m[15] + m[2] * m[7] * m[10] * m[13] + m[3] * m[5] * m[10] * m[14] - m[3] * m[6] * m[10] * m[13];
    Cof30(m);
    assert m[14] * Cofactor(m, 3, 0) == -m[1] * m[6] * m[11] * m[14] + m[1] * m[7] * m[10] * m[14] + m[2] * m[5] * m[11] * m[14] - m[2] * m[7] * m[9] * m[14] - m[3] * m[5] * m[10] * m[14] + m[3] * m[6] * m[9] * m[14];
  }

  lemma ColumnExpansion21(m: Mat4.Mat4)
    ensures ColumnTimesCofactors(m, 2, 1) == 0.0
  {
    Cof01(m);
    assert m[2] * Cofactor(m, 0, 1) == -m[2] * m[4] * m[10] * m[15] + m[2] * m[4] * m[11] * m[14] + m[2] * m[6] * m[8] * m[15] - m[2] * m[6] * m[11] * m[12] - m[2] * m[7] * m[8] * m[14] + m[2] * m[7] * m[10] * m[12];
    Cof11(m);
    assert m[6] * Cofactor(m, 1, 1) == m[0] * m[6] * m[10] * m[15] - m[0] * m[6] * m[11] * m[14] - m[2] * m[6] * m[8] * m[15] + m[2] * m[6] * m[11] * m[12] + m[3] * m[6] * m[8] * m[14] - m[3] * m[6] * m[10] * m[12];
    Cof21(m);
    assert m[10] * Cofactor(m, 2, 1) == -m[0] * m[6] * m[10] * m[15] + m[0] * m[7] * m[10] * m[14] + m[2] * m[4] * m[10] * m[15] - m[2] * m[7] * m[10] * m[12] - m[3] * m[4] * m[10] * m[14] + m[3] * m[6] * m[10] * m[12];
    Cof31(m);
    assert m[14] * Cofactor(m, 3, 1) == m[0] * m[6] * m[11] * m[14] - m[0] * m[7] * m[10] * m[14] - m[2] * m[4] * m[11] * m[14] + m[2] * m[7] * m[8] * m[14] + m[3] * m[4] * m[10] * m[14] - m[3] * m[6] * m[8] * m[14];
  }

  lemma ColumnExpansion22(m: Mat4.Mat4)
    ensures ColumnTimesCofactors(m, 2, 2) == Leibniz(m)
  {
    Cof02(m);
    assert m[2] * Cofactor(m, 0, 2) == m[2] * m[4] * m[9] * m[15] - m[2] * m[4] * m[11] * m[13] - m[2] * m[5] * m[8] * m[15] + m[2] * m[5] * m[11] * m[12] + m[2] * m[7] * m[8] * m[13] - m[2] * m[7] * m[9] * m[12];
    Cof12(m);
    assert m[6] * Cofactor(m, 1, 2) == -m[0] * m[6] * m[9] * m[15] + m[0] * m[6] * m[11] * m[13] + m[1] * m[6] * m[8] * m[15] - m[1] * m[6] * m[11] * m[12] - m[3] * m[6] * m[8] * m[13] + m[3] * m[6] * m[9] * m[12];
    Cof22(m);
    assert m[10] * Cofactor(m, 2, 2) == m[0] * m[5] * m[10] * m[15] - m[0] * m[7] * m[10] * m[13] - m[1] * m[4] * m[10] * m[15] + m[1] * m[7] * m[10] * m[12] + m[3] * m[4] * m[10] * m[13] - m[3] * m[5] * m[10] * m[12];
    Cof32(m);
    assert m[14] * Cofactor(m, 3, 2) == -m[0] * m[5] * m[11] * m[14] + m[0] * m[7] * m[9] * m[14] + m[1] * m[4] * m[11] * m[14] - m[1] * m[7] * m[8] * m[14] - m[3] * m[4] * m[9] * m[14] + m[3] * m[5] * m[8] * m[14];
  }

  lemma ColumnExpansion23(m: Mat4.Mat4)
    ensures ColumnTimesCofactors(m, 2, 3) == 0.0
  {
    Cof03(m);
    assert m[2] * Cofactor(m, 0, 3) == -m[2] * m[4] * m[9] * m[14] + m[2] * m[4] * m[10] * m[13] + m[2] * m[5] * m[8] * m[14] - m[2] * m[5] * m[10] * m[12] - m[2] * m[6] * m[8] * m[13] + m[2] * m[6] * m[9] * m[12];
    Cof13(m);
    assert m[6] * Cofactor(m, 1, 3) == m[0] * m[6] * m[9] * m[14] - m[0] * m[6] * m[10] * m[13] - m[1] * m[6] * m[8] * m[14] + m[1] * m[6] * m[10] * m[12] + m[2] * m[6] * m[8] * m[13] - m[2] * m[6] * m[9] * m[12];
    Cof23(m);
    assert m[10] * Cofactor(m, 2, 3) == -m[0] * m[5] * m[10] * m[14] + m[0] * m[6] * m[10] * m[13] + m[1] * m[4] * m[10] * m[14] - m[1] * m[6] * m[10] * m[12] - m[2] * m[4] * m[10] * m[13] + m[2] * m[5] * m[10] * m[12];
    Cof33(m);
    assert m[14] * Cofactor(m, 3, 3) == m[0] * m[5] * m[10] * m[14] - m[0] * m[6] * m[9] * m[14] - m[1] * m[4] * m[10] * m[14] + m[1] * m[6] * m[8] * m[14] + m[2] * m[4] * m[9] * m[14] - m[2] * m[5] * m[8] * m[14];
  }

  lemma ColumnExpansion30(m: Mat4.Mat4)
    ensures ColumnTimesCofactors(m, 3, 0) == 0.0
  {
    Cof00(m);
    assert m[3] * Cofactor(m, 0, 0) == m[3] * m[5] * m[10] * m[15] - m[3] * m[5] * m[11] * m[14] - m[3] * m[6] * m[9] * m[15] + m[3] * m[6] * m[11] * m[13] + m[3] * m[7] * m[9] * m[14] - m[3] * m[7] * m[10] * m[13];
    Cof10(m);
    assert m[7] * Cofactor(m, 1, 0) == -m[1] * m[7] * m[10] * m[15] + m[1] * m[7] * m[11] * m[14] + m[2] * m[7] * m[9] * m[15] - m[2] * m[7] * m[11] * m[13] - m[3] * m[7] * m[9] * m[14] + m[3] * m[7] * m[10] * m[13];
    Cof20(m);
    assert m[11] * Cofactor(m, 2, 0) == m[1] * m[6] * m[11] * m[15] - m[1] * m[7] * m[11] * m[14] - m[2] * m[5] * m[11] * m[15] + m[2] * m[7] * m[11] * m[13] + m[3] * m[5] * m[11] * m[14] - m[3] * m[6] * m[11] * m[13];
    Cof30(m);
    assert m[15] * Cofactor(m, 3, 0) == -m[1] * m[6] * m[11] * m[15] + m[1] * m[7] * m[10] * m[15] + m[2] * m[5] * m[11] * m[15] - m[2] * m[7] * m[9] * m[15] - m[3] * m[5] * m[10] * m[15] + m[3] * m[6] * m[9] * m[15];
  }

  lemma ColumnExpansion31(m: Mat4.Mat4)
    ensures ColumnTimesCofactors(m, 3, 1) == 0.0
  {
    Cof01(m);
    assert m[3] * Cofactor(m, 0, 1) == -m[3] * m[4] * m[10] * m[15] + m[3] * m[4] * m[11] * m[14] + m[3] * m[6] * m[8] * m[15] - m[3] * m[6] * m[11] * m[12] - m[3] * m[7] * m[8] * m[14] + m[3] * m[7] * m[10] * m[12];
    Cof11(m);
    assert m[7] * Cofactor(m, 1, 1) == m[0] * m[7] * m[10] * m[15] - m[0] * m[7] * m[11] * m[14] - m[2] * m[7] * m[8] * m[15] + m[2] * m[7] * m[11] * m[12] + m[3] * m[7] * m[8] * m[14] - m[3] * m[7] * m[10] * m[12];
    Cof21(m);
    assert m[11] * Cofactor(m, 2, 1) == -m[0] * m[6] * m[11] * m[15] + m[0] * m[7] * m[11] * m[14] + m[2] * m[4] * m[11] * m[15] - m[2] * m[7] * m[11] * m[12] - m[3] * m[4] * m[11] * m[14] + m[3] * m[6] * m[11] * m[12];
    Cof31(m);
    assert m[15] * Cofactor(m, 3, 1) == m[0] * m[6] * m[11] * m[15] - m[0] * m[7] * m[10] * m[15] - m[2] * m[4] * m[11] * m[15] + m[2] * m[7] * m[8] * m[15] + m[3] * m[4] * m[10] * m[15] - m[3] * m[6] * m[8] * m[15];
  }

  lemma ColumnExpansion32(m: Mat4.Mat4)
    ensures ColumnTimesCofactors(m, 3, 2) == 0.0
  {
    Cof02(m);
    assert m[3] * Cofactor(m, 0, 2) == m[3] * m[4] * m[9] * m[15] - m[3] * m[4] * m[11] * m[13] - m[3] * m[5] * m[8] * m[15] + m[3] * m[5] * m[11] * m[12] + m[3] * m[7] * m[8] * m[13] - m[3] * m[7] * m[9] * m[12];
    Cof12(m);
    assert m[7] * Cofactor(m, 1, 2) == -m[0] * m[7] * m[9] * m[15] + m[0] * m[7] * m[11] * m[13] + m[1] * m[7] * m[8] * m[15] - m[1] * m[7] * m[11] * m[12] - m[3] * m[7] * m[8] * m[13] + m[3] * m[7] * m[9] * m[12];
    Cof22(m);
    assert m[11] * Cofactor(m, 2, 2) == m[0] * m[5] * m[11] * m[15] - m[0] * m[7] * m[11] * m[13] - m[1] * m[4] * m[11] * m[15] + m[1] * m[7] * m[11] * m[12] + m[3] * m[4] * m[11] * m[13] - m[3] * m[5] * m[11] * m[12];
    Cof32(m);
    assert m[15] * Cofactor(m, 3, 2) == -m[0] * m[5] * m[11] * m[15] + m[0] * m[7] * m[9] * m[15] + m[1] * m[4] * m[11] * m[15] - m[1] * m[7] * m[8] * m[15] - m[3] * m[4] * m[9] * m[15] + m[3] * m[5] * m[8] * m[15];
  }

  lemma ColumnExpansion33(m: Mat4.Mat4)
    ensures ColumnTimesCofactors(m, 3, 3) == Leibniz(m)
  {
    Cof03(m);
    assert m[3] * Cofactor(m, 0, 3) == -m[3] * m[4] * m[9] * m[14] + m[3] * m[4] * m[10] * m[13] + m[3] * m[5] * m[8] * m[14] - m[3] * m[5] * m[10] * m[12] - m[3] * m[6] * m[8] * m[13] + m[3] * m[6] * m[9] * m[12];
    Cof13(m);
    assert m[7] * Cofactor(m, 1, 3) == m[0] * m[7] * m[9] * m[14] - m[0] * m[7] * m[10] * m[13] - m[1] * m[7] * m[8] * m[14] + m[1] * m[7] * m[10] * m[12] + m[2] * m[7] * m[8] * m[13] - m[2] * m[7] * m[9] * m[12];
    Cof23(m);
    assert m[11] * Cofactor(m, 2, 3) == -m[0] * m[5] * m[11] * m[14] + m[0] * m[6] * m[11] * m[13] + m[1] * m[4] * m[11] * m[14] - m[1] * m[6] * m[11] * m[12] - m[2] * m[4] * m[11] * m[13] + m[2] * m[5] * m[11] * m[12];
    Cof33(m);
    assert m[15] * Cofactor(m, 3, 3) == m[0] * m[5] * m[10] * m[15] - m[0] * m[6] * m[9] * m[15] - m[1] * m[4] * m[10] * m[15] + m[1] * m[6] * m[8] * m[15] + m[2] * m[4] * m[9] * m[15] - m[2] * m[5] * m[8] * m[15];
  }

  /** Row `i` against the cofactors of row `j` gives the determinant when `i == j` and zero otherwise. */
  lemma RowExpansion(m: Mat4.Mat4, i: int, j: int)
    requires 0 <= i < 4 && 0 <= j < 4
    ensures RowTimesCofactors(m, i, j) == if i == j then Leibniz(m) else 0.0
  {
    if i == 0 && j == 0 {
      RowExpansion00(m);
    } else if i == 0 && j == 1 {
      RowExpansion01(m);
    } else if i == 0 && j == 2 {
      RowExpansion02(m);
    } else if i == 0 && j == 3 {
      RowExpansion03(m);
    } else if i == 1 && j == 0 {
      RowExpansion10(m);
    } else if i == 1 && j == 1 {
      RowExpansion11(m);
    } else if i == 1 && j == 2 {
      RowExpansion12(m);
    } else if i == 1 && j == 3 {
      RowExpansion13(m);
    } else if i == 2 && j == 0 {
      RowExpansion20(m);
    } else if i == 2 && j == 1 {
      RowExpansion21(m);
    } else if i == 2 && j == 2 {
      RowExpansion22(m);
    } else if i == 2 && j == 3 {
      RowExpansion23(m);
    } else if i == 3 && j == 0 {
      RowExpansion30(m);
    } else if i == 3 && j == 1 {
      RowExpansion31(m);
    } else if i == 3 && j == 2 {
      RowExpansion32(m);
    } else {
      RowExpansion33(m);
    }
  }

  /** Column `i` against the cofactors of column `j` gives the determinant when `i == j` and zero otherwise. */
  lemma ColumnExpansion(m: Mat4.Mat4, i: int, j: int)
    requires 0 <= i < 4 && 0 <= j < 4
    ensures ColumnTimesCofactors(m, i, j) == if i == j then Leibniz(m) else 0.0
  {
    if i == 0 && j == 0 {
      ColumnExpansion00(m);
    } else if i == 0 && j == 1 {
      ColumnExpansion01(m);
    } else if i == 0 && j == 2 {
      ColumnExpansion02(m);
    } else if i == 0 && j == 3 {
      ColumnExpansion03(m);
    } else if i == 1 && j == 0 {
      ColumnExpansion10(m);
    } else if i == 1 && j == 1 {
      ColumnExpansion11(m);
    } else if i == 1 && j == 2 {
      ColumnExpansion12(m);
    } else if i == 1 && j == 3 {
      ColumnExpansion13(m);
    } else if i == 2 && j == 0 {
      ColumnExpansion20(m);
    } else if i == 2 && j == 1 {
      ColumnExpansion21(m);
    } else if i == 2 && j == 2 {
      ColumnExpansion22(m);
    } else if i == 2 && j == 3 {
      ColumnExpansion23(m);
    } else if i == 3 && j == 0 {
      ColumnExpansion30(m);
    } else if i == 3 && j == 1 {
      ColumnExpansion31(m);
    } else if i == 3 && j == 2 {
      ColumnExpansion32(m);
    } else {
      ColumnExpansion33(m);
    }
  }

  // ----------------------------------------------------------------- determinant

  /** The term for column `col` is the entry of row 0 times its cofactor. */
  lemma DetTermCofactor(m: Mat4.Mat4, col: int)
    requires 0 <= col < 4
    ensures DetTerm(m, col) == m[col] * Cofactor(m, 0, col)
  {
    var d := Det3x3(Minor(m, 0, col));
    assert DetTerm(m, col) == Alternating(col) * m[col] * d;
    assert Cofactor(m, 0, col) == Alternating(col) * d;
  }

  /** The expansion along row 0 equals the Leibniz sum over all permutations. */
  lemma DetLeibniz(m: Mat4.Mat4)
    ensures Det(m) == Leibniz(m)
  {
    DetRowExpansion(m);
    RowExpansion00(m);
  }

  /** `Det` is row 0 against its own cofactors. */
  lemma DetRowExpansion(m: Mat4.Mat4)
    ensures Det(m) == RowTimesCofactors(m, 0, 0)
  {
    DetTermCofactor(m, 0);
    DetTermCofactor(m, 1);
    DetTermCofactor(m, 2);
    DetTermCofactor(m, 3);
    calc {
      Det(m);
      PartialDet(m, 3) + DetTerm(m, 3);
      PartialDet(m, 2) + DetTerm(m, 2) + DetTerm(m, 3);
      PartialDet(m, 1) + DetTerm(m, 1) + DetTerm(m, 2) + DetTerm(m, 3);
      DetTerm(m, 0) + DetTerm(m, 1) + DetTerm(m, 2) + DetTerm(m, 3);
    }
  }

  /** The identity has determinant one and the zero matrix determinant zero. */
  lemma DetIdentityZero()
    ensures Det(Mat4.Identity()) == 1.0
    ensures Det(Mat4.Zero()) == 0.0
  {
    var e := Mat4.Identity();
    assert e == [1.0, 0.0, 0.0, 0.0, 0.0, 1.0, 0.0, 0.0, 0.0, 0.0, 1.0, 0.0, 0.0, 0.0, 0.0, 1.0];
    DetLeibniz(e);
    DetLeibniz(Mat4.Zero());
  }

  /** Slot `t` of the minor without row 0 and column `col`, for the row `i` and column `j` it comes from. */
  lemma MinorSlot(m: Mat4.Mat4, r: int, c: int, i: int, j: int)
    requires 0 <= r < 4 && 0 <= c < 4 && 0 <= i < 4 && 0 <= j < 4 && i != r && j != c
    ensures var t := (if i < r then i else i - 1) * 3 + (if j < c then j else j - 1);
      0 <= t < 9 && Minor(m, r, c)[t] == m[i * 4 + j]
  {
    var ii, jj := (if i < r then i else i - 1), (if j < c then j else j - 1);
    var t := ii * 3 + jj;
    assert t / 3 == ii && t % 3 == jj;
  }

  /** The two inner loops of `dmat4_determinant`: rows 1 to 3, and in each the columns other than `col`. */
  method Row0Minor(m: Mat4.Mat4, col: int) returns (s: seq<real>)
    requires 0 <= col < 4
    ensures s == Minor(m, 0, col)
  {
    var minor := new real[9];
    var idx := 0;
    for i := 1 to 4
      invariant idx == (i - 1) * 3
      invariant forall t :: 0 <= t < idx ==> minor[t] == Minor(m, 0, col)[t]
    {
      for j := 0 to 4
        invariant idx == (i - 1) * 3 + (if j <= col then j else j - 1)
        invariant forall t :: 0 <= t < idx ==> minor[t] == Minor(m, 0, col)[t]
      {
        if j != col {
          MinorSlot(m, 0, col, i, j);
          minor[idx] := m[i * 4 + j];
          idx := idx + 1;
        }
      }
    }
    s := minor[..];
  }

  /** One pass of the loop of `dmat4_determinant`: the minor of row 0, column `col`, times the signed entry. */
  method ColumnTerm(m: Mat4.Mat4, col: int, sign: int) returns (term: real)
    requires 0 <= col < 4 && sign as real == Alternating(col)
    ensures term == DetTerm(m, col)
  {
    var minor := Row0Minor(m, col);
    term := (sign as real) * m[col] * Det3x3(minor);
  }

  /** The sign flips between neighbouring columns. */
  lemma SignStep(col: int, sign: int)
    requires sign as real == Alternating(col)
    ensures (-sign) as real == Alternating(col + 1)
  {
  }

  /** `dmat4_determinant`: expansion along row 0, `sign` flipping from column to column. */
  method Determinant(m: Mat4.Mat4) returns (det: real)
    ensures det == Det(m)
  {
    det := 0.0;
    var sign := 1;
    for col := 0 to 4
      invariant det == PartialDet(m, col)
      invariant sign as real == Alternating(col)
    {
      var term := ColumnTerm(m, col, sign);
      SignStep(col, sign);
      det := det + term;
      sign := -sign;
    }
  }

  // ----------------------------------------------------------------- inverse

  /** `dmat4_inverse` treats a determinant smaller than this in magnitude as zero. */
  const SingularTolerance: real := 0.000000000001

  /** The test of `dmat4_inverse`: `|det| < 1e-12`. */
  predicate Singular(m: Mat4.Mat4)
  {
    Common.Abs(Det(m)) < SingularTolerance
  }

  /** The cofactor matrix: slot `i*4+j` holds the cofactor of row `i`, column `j`. */
  function Cofactors(m: Mat4.Mat4): Mat4.Mat4
  {
    seq(16, p requires 0 <= p < 16 => Cofactor(m, p / 4, p % 4))
  }

  /**
   * What `dmat4_inverse` computes: zero for a singular matrix, otherwise the
   * cofactor matrix divided by the determinant. The inverse needs the
   * adjugate, the transpose of the cofactor matrix.
   */
  function CofactorInverse(m: Mat4.Mat4): Mat4.Mat4
  {
    if Singular(m) then Mat4.Zero() else Mat4.Divided(Cofactors(m), Det(m))
  }

  /** The inverse the source's comment intends: the adjugate divided by the determinant. */
  function AdjugateInverse(m: Mat4.Mat4): Mat4.Mat4
  {
    if Singular(m) then Mat4.Zero() else Mat4.Divided(Mat4.Transposed(Cofactors(m)), Det(m))
  }

  /** `t` holds at row `x`, column `y` the cofactor of row `y`, column `x` over `d`, read in the loops' layout. */
  /** Slot `i*4+j` of the cofactor matrix over a non-zero `d`. */
  lemma SlotOfCofactorInverse(m: Mat4.Mat4, d: real, i: int, j: int)
    requires 0 <= i < 4 && 0 <= j < 4 && d != 0.0
    ensures Mat4.Divided(Cofactors(m), d)[i * 4 + j] == Cofactor(m, i, j) / d
  {
    var p := i * 4 + j;
    assert p / 4 == i && p % 4 == j;
  }

  /** Slot `i*4+j` of the adjugate over a non-zero `d`. */
  lemma SlotOfAdjugateInverse(m: Mat4.Mat4, d: real, i: int, j: int)
    requires 0 <= i < 4 && 0 <= j < 4 && d != 0.0
    ensures Mat4.Divided(Mat4.Transposed(Cofactors(m)), d)[i * 4 + j] == Cofactor(m, j, i) / d
  {
    var p, q := i * 4 + j, j * 4 + i;
    assert p / 4 == i && p % 4 == j && q / 4 == j && q % 4 == i;
    assert Mat4.Transposed(Cofactors(m))[p] == Cofactors(m)[q];
  }

  /** Slot `i*4+j`, which the loops of `dmat4_inverse` read as row `i`, column `j`. */
  function Entry(t: Mat4.Mat4, i: int, j: int): (v: real)
    requires 0 <= i < 4 && 0 <= j < 4
    ensures v == Mat4.Get(t, j, i)
  {
    t[i * 4 + j]
  }

  /** `t` holds at row `i`, column `j` (in the loops' reading) the cofactor of row `i`, column `j` over `d`. */
  predicate HoldsCofactorsOver(t: Mat4.Mat4, m: Mat4.Mat4, d: real)
    requires d != 0.0
  {
    forall i, j {:trigger Entry(t, i, j)} :: 0 <= i < 4 && 0 <= j < 4 ==> Entry(t, i, j) == Cofactor(m, i, j) / d
  }

  /** `t` holds at row `i`, column `j` (in the loops' reading) the cofactor of row `j`, column `i` over `d`. */
  predicate HoldsAdjugateOver(t: Mat4.Mat4, m: Mat4.Mat4, d: real)
    requires d != 0.0
  {
    forall i, j {:trigger Entry(t, i, j)} :: 0 <= i < 4 && 0 <= j < 4 ==> Entry(t, i, j) == Cofactor(m, j, i) / d
  }

  /** The cofactor matrix over `d` is what `HoldsCofactorsOver` describes. */
  lemma CofactorsOverHolds(m: Mat4.Mat4, d: real)
    requires d != 0.0
    ensures HoldsCofactorsOver(Mat4.Divided(Cofactors(m), d), m, d)
  {
    forall i, j | 0 <= i < 4 && 0 <= j < 4
      ensures Entry(Mat4.Divided(Cofactors(m), d), i, j) == Cofactor(m, i, j) / d
    {
      SlotOfCofactorInverse(m, d, i, j);
    }
  }

  /** The adjugate over `d` is what `HoldsAdjugateOver` describes. */
  lemma AdjugateOverHolds(m: Mat4.Mat4, d: real)
    requires d != 0.0
    ensures HoldsAdjugateOver(Mat4.Divided(Mat4.Transposed(Cofactors(m)), d), m, d)
  {
    forall i, j | 0 <= i < 4 && 0 <= j < 4
      ensures Entry(Mat4.Divided(Mat4.Transposed(Cofactors(m)), d), i, j) == Cofactor(m, j, i) / d
    {
      SlotOfAdjugateInverse(m, d, i, j);
    }
  }

  /** The minor loops of `dmat4_inverse`: rows other than `r`, and in each the columns other than `c`. */
  method BuildMinor(m: Mat4.Mat4, r: int, c: int) returns (s: seq<real>)
    requires 0 <= r < 4 && 0 <= c < 4
    ensures s == Minor(m, r, c)
  {
    var minor := new real[9];
    var idx := 0;
    for row := 0 to 4
      invariant idx == (if row <= r then row else row - 1) * 3
      invariant forall t :: 0 <= t < idx ==> minor[t] == Minor(m, r, c)[t]
    {
      if row == r {
        continue;
      }
      for col := 0 to 4
        invariant idx == (if row < r then row else row - 1) * 3 + (if col <= c then col else col - 1)
        invariant forall t :: 0 <= t < idx ==> minor[t] == Minor(m, r, c)[t]
      {
        if col == c {
          continue;
        }
        MinorSlot(m, r, c, row, col);
        minor[idx] := m[row * 4 + col];
        idx := idx + 1;
      }
    }
    s := minor[..];
  }

  /**
   * The body of the inner loop of `dmat4_inverse`: the minor without row `r`
   * and column `c`, its determinant with the sign of `r + c`, over `det`.
   */
  method CofactorEntry(m: Mat4.Mat4, r: int, c: int, det: real) returns (v: real)
    requires 0 <= r < 4 && 0 <= c < 4 && det != 0.0
    ensures v == Cofactor(m, r, c) / det
  {
    var minor := BuildMinor(m, r, c);
    v := Alternating(r + c) * Det3x3(minor) / det;
  }

  /** The entry the loops of `dmat4_inverse` as written store at row `i`, column `j`. */
  method CofactorSlot(m: Mat4.Mat4, det: real, ghost target: Mat4.Mat4, i: int, j: int) returns (v: real)
    requires 0 <= i < 4 && 0 <= j < 4 && det != 0.0 && HoldsCofactorsOver(target, m, det)
    ensures v == target[i * 4 + j]
  {
    v := CofactorEntry(m, i, j, det);
    assert Entry(target, i, j) == v;
  }

  /** The entry the loops of `dmat4_inverse` store at row `i`, column `j` when the minor leaves out row `j`, column `i`. */
  method AdjugateSlot(m: Mat4.Mat4, det: real, ghost target: Mat4.Mat4, i: int, j: int) returns (v: real)
    requires 0 <= i < 4 && 0 <= j < 4 && det != 0.0 && HoldsAdjugateOver(target, m, det)
    ensures v == target[i * 4 + j]
  {
    v := CofactorEntry(m, j, i, det);
    assert Entry(target, i, j) == v;
  }

  /** The loops of `dmat4_inverse` as written: slot `i*4+j` gets the cofactor of row `i`, column `j` over `det`. */
  method FillCofactors(m: Mat4.Mat4, det: real, ghost target: Mat4.Mat4) returns (r: Mat4.Mat4)
    requires det != 0.0 && HoldsCofactorsOver(target, m, det)
    ensures r == target
  {
    var inv := new real[16];
    for i := 0 to 4
      invariant forall p :: 0 <= p < 16 && Mat4.VisitedIJ(p, i, 0) ==> inv[p] == target[p]
    {
      for j := 0 to 4
        invariant forall p :: 0 <= p < 16 && Mat4.VisitedIJ(p, i, j) ==> inv[p] == target[p]
      {
        var entry := CofactorSlot(m, det, target, i, j);
        inv[i * 4 + j] := entry;
      }
    }
    r := inv[..];
  }

  /** The loops of `dmat4_inverse` with the corrected minor, which leaves out row `j`, column `i`. */
  method FillAdjugate(m: Mat4.Mat4, det: real, ghost target: Mat4.Mat4) returns (r: Mat4.Mat4)
    requires det != 0.0 && HoldsAdjugateOver(target, m, det)
    ensures r == target
  {
    var inv := new real[16];
    for i := 0 to 4
      invariant forall p :: 0 <= p < 16 && Mat4.VisitedIJ(p, i, 0) ==> inv[p] == target[p]
    {
      for j := 0 to 4
        invariant forall p :: 0 <= p < 16 && Mat4.VisitedIJ(p, i, j) ==> inv[p] == target[p]
      {
        var entry := AdjugateSlot(m, det, target, i, j);
        inv[i * 4 + j] := entry;
      }
    }
    r := inv[..];
  }

  /** The loops of `dmat4_inverse` as written, for a non-zero determinant. */
  method CofactorsLoop(m: Mat4.Mat4, det: real) returns (r: Mat4.Mat4)
    requires det != 0.0
    ensures r == Mat4.Divided(Cofactors(m), det)
  {
    CofactorsOverHolds(m, det);
    r := FillCofactors(m, det, Mat4.Divided(Cofactors(m), det));
  }

  /** The loops of `dmat4_inverse` with the corrected minor, for a non-zero determinant. */
  method AdjugateLoop(m: Mat4.Mat4, det: real) returns (r: Mat4.Mat4)
    requires det != 0.0
    ensures r == Mat4.Divided(Mat4.Transposed(Cofactors(m)), det)
  {
    AdjugateOverHolds(m, det);
    r := FillAdjugate(m, det, Mat4.Divided(Mat4.Transposed(Cofactors(m)), det));
  }

  /** `dmat4_inverse` as written: zero when singular, otherwise the cofactor matrix over the determinant. */
  method InverseAsWritten(m: Mat4.Mat4) returns (r: Mat4.Mat4)
    ensures r == CofactorInverse(m)
  {
    var det := Determinant(m);
    if Common.Abs(det) < SingularTolerance {
      return Mat4.Zero();
    }
    r := CofactorsLoop(m, det);
  }

  /** `dmat4_inverse` with the corrected minor: zero when singular, otherwise the adjugate over the determinant. */
  method Inverse(m: Mat4.Mat4) returns (r: Mat4.Mat4)
    ensures r == AdjugateInverse(m)
  {
    var det := Determinant(m);
    if Common.Abs(det) < SingularTolerance {
      return Mat4.Zero();
    }
    r := AdjugateLoop(m, det);
  }

  /** `dmat4_inverse_to` as written: `out` receives the cofactor matrix over the determinant. */
  method InverseToAsWritten(out: array<real>, m: array<real>)
    requires out.Length == 16 && m.Length == 16
    modifies out
    ensures out[..] == CofactorInverse(old(m[..]))
  {
    var r := InverseAsWritten(m[..]);
    Mat4.Assign(out, r);
  }

  /** `dmat4_inverse_inplace` as written: `m` is replaced by its cofactor matrix over the determinant. */
  method InverseInPlaceAsWritten(m: array<real>)
    requires m.Length == 16
    modifies m
    ensures m[..] == CofactorInverse(old(m[..]))
  {
    var temp := InverseAsWritten(m[..]);
    Mat4.Assign(m, temp);
  }

  /** `dmat4_inverse_to`, with the corrected inverse. */
  method InverseTo(out: array<real>, m: array<real>)
    requires out.Length == 16 && m.Length == 16
    modifies out
    ensures out[..] == AdjugateInverse(old(m[..]))
  {
    var r := Inverse(m[..]);
    Mat4.Assign(out, r);
  }

  /** `dmat4_inverse_inplace`, with the corrected inverse. */
  method InverseInPlace(m: array<real>)
    requires m.Length == 16
    modifies m
    ensures m[..] == AdjugateInverse(old(m[..]))
  {
    var temp := Inverse(m[..]);
    Mat4.Assign(m, temp);
  }

  // ----------------------------------------------------------------- inverse properties

  /** Dividing commutes with transposing. */
  lemma TransposedDivided(a: Mat4.Mat4, d: real)
    requires d != 0.0
    ensures Mat4.Transposed(Mat4.Divided(a, d)) == Mat4.Divided(Mat4.Transposed(a), d)
  {
  }

  /** What `dmat4_inverse` stores is the transpose of the intended inverse. */
  lemma AdjugateIsTransposedCofactorInverse(m: Mat4.Mat4)
    ensures AdjugateInverse(m) == Mat4.Transposed(CofactorInverse(m))
  {
    if Singular(m) {
      assert Mat4.Transposed(Mat4.Zero()) == Mat4.Zero();
    } else {
      TransposedDivided(Cofactors(m), Det(m));
    }
  }

  /** Dividing one side of a dot product divides the product. */
  lemma DotDiv(u: Vec4.DVec4, w: Vec4.DVec4, d: real)
    requires d != 0.0
    ensures Vec4.Dot(u, Vec4.Div(w, d)) == Vec4.Dot(u, w) / d
  {
    MulDiv(u.x, w.x, d);
    MulDiv(u.y, w.y, d);
    MulDiv(u.z, w.z, d);
    MulDiv(u.w, w.w, d);
  }

  /** Division by `d` moves out of a product. */
  lemma MulDiv(a: real, b: real, d: real)
    requires d != 0.0
    ensures a * (b / d) == (a * b) / d
  {
  }

  /** Dividing either factor of a product by `d` divides the product by `d`. */
  lemma ProductDivided(a: Mat4.Mat4, b: Mat4.Mat4, d: real)
    requires d != 0.0
    ensures Mat4.Product(a, Mat4.Divided(b, d)) == Mat4.Divided(Mat4.Product(a, b), d)
    ensures Mat4.Product(Mat4.Divided(a, d), b) == Mat4.Divided(Mat4.Product(a, b), d)
  {
    forall p | 0 <= p < 16
      ensures Mat4.Product(a, Mat4.Divided(b, d))[p] == Mat4.Divided(Mat4.Product(a, b), d)[p]
      ensures Mat4.Product(Mat4.Divided(a, d), b)[p] == Mat4.Divided(Mat4.Product(a, b), d)[p]
    {
      var i, j := p / 4, p % 4;
      assert Mat4.Row(Mat4.Divided(b, d), j) == Vec4.Div(Mat4.Row(b, j), d);
      DotDiv(Mat4.Column(a, i), Mat4.Row(b, j), d);
      assert Mat4.Column(Mat4.Divided(a, d), i) == Vec4.Div(Mat4.Column(a, i), d);
      Vec4.DotSymmetric(Vec4.Div(Mat4.Column(a, i), d), Mat4.Row(b, j));
      DotDiv(Mat4.Row(b, j), Mat4.Column(a, i), d);
      Vec4.DotSymmetric(Mat4.Row(b, j), Mat4.Column(a, i));
    }
  }

  /** Slot `i*4+j` of `a` times the transpose of `c` pairs column `i` of `a` with column `j` of `c`. */
  lemma ProductTransposedSlot(a: Mat4.Mat4, c: Mat4.Mat4, i: int, j: int)
    requires 0 <= i < 4 && 0 <= j < 4
    ensures Mat4.Product(a, Mat4.Transposed(c))[i * 4 + j] == Vec4.Dot(Mat4.Column(a, i), Mat4.Column(c, j))
  {
    var p := i * 4 + j;
    assert p / 4 == i && p % 4 == j;
    Mat4.RowOfTransposed(c, j);
    calc {
      Mat4.Product(a, Mat4.Transposed(c))[p];
      Vec4.Dot(Mat4.Column(a, i), Mat4.Row(Mat4.Transposed(c), j));
    }
  }

  /** Slot `i*4+j` of the transpose of `c` times `a` pairs row `j` of `a` with row `i` of `c`. */
  lemma TransposedProductSlot(a: Mat4.Mat4, c: Mat4.Mat4, i: int, j: int)
    requires 0 <= i < 4 && 0 <= j < 4
    ensures Mat4.Product(Mat4.Transposed(c), a)[i * 4 + j] == Vec4.Dot(Mat4.Row(a, j), Mat4.Row(c, i))
  {
    var p := i * 4 + j;
    assert p / 4 == i && p % 4 == j;
    calc {
      Mat4.Product(Mat4.Transposed(c), a)[p];
      Vec4.Dot(Mat4.Column(Mat4.Transposed(c), i), Mat4.Row(a, j));
      Vec4.Dot(Mat4.Row(c, i), Mat4.Row(a, j));
      { Vec4.DotSymmetric(Mat4.Row(c, i), Mat4.Row(a, j)); }
      Vec4.Dot(Mat4.Row(a, j), Mat4.Row(c, i));
    }
  }

  /** Slot `i*4+j` of the cofactor matrix. */
  lemma CofactorsSlot(m: Mat4.Mat4, i: int, j: int)
    requires 0 <= i < 4 && 0 <= j < 4
    ensures Cofactors(m)[i * 4 + j] == Cofactor(m, i, j)
  {
    var p := i * 4 + j;
    assert p / 4 == i && p % 4 == j;
  }

  /** Column `k` of the cofactor matrix holds the cofactors of row `k`. */
  lemma CofactorsColumn(m: Mat4.Mat4, k: int)
    requires 0 <= k < 4
    ensures Mat4.Column(Cofactors(m), k) == CofactorRow(m, k)
  {
    CofactorsSlot(m, k, 0);
    CofactorsSlot(m, k, 1);
    CofactorsSlot(m, k, 2);
    CofactorsSlot(m, k, 3);
  }

  /** Row `k` of the cofactor matrix holds the cofactors of column `k`. */
  lemma CofactorsRow(m: Mat4.Mat4, k: int)
    requires 0 <= k < 4
    ensures Mat4.Row(Cofactors(m), k) == CofactorColumn(m, k)
  {
    CofactorsSlot(m, 0, k);
    CofactorsSlot(m, 1, k);
    CofactorsSlot(m, 2, k);
    CofactorsSlot(m, 3, k);
  }

  /** Slot `i*4+j` of `m` times the adjugate is row `i` against the cofactors of row `j`. */
  lemma ProductAdjugateSlot(m: Mat4.Mat4, i: int, j: int)
    requires 0 <= i < 4 && 0 <= j < 4
    ensures Mat4.Product(m, Mat4.Transposed(Cofactors(m)))[i * 4 + j] == RowTimesCofactors(m, i, j)
    ensures Mat4.Product(Mat4.Transposed(Cofactors(m)), m)[i * 4 + j] == ColumnTimesCofactors(m, j, i)
  {
    ProductTransposedSlot(m, Cofactors(m), i, j);
    TransposedProductSlot(m, Cofactors(m), i, j);
    CofactorsColumn(m, i);
    CofactorsColumn(m, j);
    CofactorsRow(m, i);
    CofactorsRow(m, j);
  }

  /** A quotient of the determinant by itself, or of zero by it. */
  lemma UnitQuotient(x: real, d: real, same: bool)
    requires d != 0.0 && x == (if same then d else 0.0)
    ensures x / d == if same then 1.0 else 0.0
  {
  }

  /** Row `r`, column `c` of both products of `m` with its corrected inverse is that of the identity. */
  lemma InverseSlot(m: Mat4.Mat4, d: real, r: int, c: int)
    requires 0 <= r < 4 && 0 <= c < 4 && d != 0.0 && d == Leibniz(m)
    ensures Mat4.Get(Mat4.Divided(Mat4.Product(m, Mat4.Transposed(Cofactors(m))), d), r, c) == Mat4.Get(Mat4.Identity(), r, c)
    ensures Mat4.Get(Mat4.Divided(Mat4.Product(Mat4.Transposed(Cofactors(m)), m), d), r, c) == Mat4.Get(Mat4.Identity(), r, c)
  {
    ProductAdjugateSlot(m, c, r);
    RowExpansion(m, c, r);
    UnitQuotient(RowTimesCofactors(m, c, r), d, c == r);
    ColumnExpansion(m, r, c);
    UnitQuotient(ColumnTimesCofactors(m, r, c), d, c == r);
  }

  /** For a non-singular matrix the corrected inverse is a two-sided inverse under the product. */
  lemma AdjugateInverseIsInverse(m: Mat4.Mat4)
    requires !Singular(m)
    ensures Mat4.Product(m, AdjugateInverse(m)) == Mat4.Identity()
    ensures Mat4.Product(AdjugateInverse(m), m) == Mat4.Identity()
  {
    var d := Det(m);
    assert d != 0.0;
    DetLeibniz(m);
    var t := Mat4.Transposed(Cofactors(m));
    ProductDivided(m, t, d);
    ProductDivided(t, m, d);
    var left, right := Mat4.Divided(Mat4.Product(m, t), d), Mat4.Divided(Mat4.Product(t, m), d);
    forall r, c | 0 <= r < 4 && 0 <= c < 4
      ensures Mat4.Get(left, r, c) == Mat4.Get(Mat4.Identity(), r, c)
      ensures Mat4.Get(right, r, c) == Mat4.Get(Mat4.Identity(), r, c)
    {
      InverseSlot(m, d, r, c);
    }
    Mat4.PositionsEqual(left, Mat4.Identity());
    Mat4.PositionsEqual(right, Mat4.Identity());
  }

  /** The identity is its own inverse. */
  lemma InverseOfIdentity()
    ensures AdjugateInverse(Mat4.Identity()) == Mat4.Identity()
  {
    var e := Mat4.Identity();
    DetIdentityZero();
    AdjugateInverseIsInverse(e);
    Mat4.ProductIdentity(AdjugateInverse(e));
  }

  /**
   * For the shear that adds `x` to `y` (determinant 1), the cofactor matrix
   * that `dmat4_inverse` returns is no inverse: slot 0 of the product is 0.
   */
  lemma CofactorInverseCounterexample(s: Mat4.Mat4)
    requires s == Mat4.ShearYByX()
    ensures !Singular(s)
    ensures Mat4.Product(s, CofactorInverse(s))[0] == 0.0
    ensures Mat4.Product(s, CofactorInverse(s)) != Mat4.Identity()
  {
    ShearInverseSlots(s);
    ShearColumn0(s);
    ProductNotIdentity(s, CofactorInverse(s));
  }

  /** A product whose slot 0 pairs `1, 1, 0, 0` with `1, -1, ...` is 0 there, so it is not the identity. */
  lemma ProductNotIdentity(a: Mat4.Mat4, b: Mat4.Mat4)
    requires a[0] == 1.0 && a[1] == 1.0 && a[2] == 0.0 && a[3] == 0.0
    requires b[0] == 1.0 && b[4] == -1.0
    ensures Mat4.Product(a, b)[0] == 0.0
    ensures Mat4.Product(a, b) != Mat4.Identity()
  {
    assert Mat4.Product(a, b)[0] == Vec4.Dot(Mat4.Column(a, 0), Mat4.Row(b, 0));
    assert Mat4.Get(Mat4.Identity(), 0, 0) == 1.0;
  }

  /** The shear is invertible, and the matrix `dmat4_inverse` returns for it holds 1 and -1 in slots 0 and 4. */
  lemma ShearInverseSlots(s: Mat4.Mat4)
    requires s == Mat4.ShearYByX()
    ensures !Singular(s)
    ensures CofactorInverse(s)[0] == 1.0 && CofactorInverse(s)[4] == -1.0
  {
    ShearDet(s);
    ShearCofactors(s);
  }

  /** The first column of the shear. */
  lemma ShearColumn0(s: Mat4.Mat4)
    requires s == Mat4.ShearYByX()
    ensures s[0] == 1.0 && s[1] == 1.0 && s[2] == 0.0 && s[3] == 0.0
  {
    assert s == [1.0, 1.0, 0.0, 0.0, 0.0, 1.0, 0.0, 0.0, 0.0, 0.0, 1.0, 0.0, 0.0, 0.0, 0.0, 1.0];
  }

  /** The shear has determinant 1. */
  lemma ShearDet(s: Mat4.Mat4)
    requires s == Mat4.ShearYByX()
    ensures Det(s) == 1.0
  {
    assert s == [1.0, 1.0, 0.0, 0.0, 0.0, 1.0, 0.0, 0.0, 0.0, 0.0, 1.0, 0.0, 0.0, 0.0, 0.0, 1.0];
    DetLeibniz(s);
  }

  /** Two cofactors of the shear: row 0, column 0 and row 1, column 0. */
  lemma ShearCofactors(s: Mat4.Mat4)
    requires s == Mat4.ShearYByX()
    ensures Cofactors(s)[0] == 1.0
    ensures Cofactors(s)[4] == -1.0
  {
    assert s == [1.0, 1.0, 0.0, 0.0, 0.0, 1.0, 0.0, 0.0, 0.0, 0.0, 1.0, 0.0, 0.0, 0.0, 0.0, 1.0];
    Cof00(s);
    Cof10(s);
  }
}
