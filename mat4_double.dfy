/**
 * Double-precision 4x4 matrices (Core/rmath/src/types/mat4_double.c).
 *
 * A `dmat4` is a union of sixteen doubles `elem` and four column vectors
 * `cols`, so that `elem[c*4 + r]` is component `r` of `cols[c]`. Its value
 * is the subset type `Mat4` of sixteen-element sequences; caller-owned
 * storage written by the `_to` and `_inplace` forms is an `array<real>` of
 * length 16. The value-returning C functions that fill a matrix in loops are
 * methods here, each proved against a specification function on `Mat4`.
 */
module Mat4 {
  import Vec3
  import Vec4

  type Mat4 = s: seq<real> | |s| == 16
    witness [0.0, 0.0, 0.0, 0.0, 0.0, 0.0, 0.0, 0.0, 0.0, 0.0, 0.0, 0.0, 0.0, 0.0, 0.0, 0.0]

  // ------------------------------------------------------------------- indexing

  /**
   * `_dmat4_index` as written: the column is scaled by `MAT4_SIZE`, which
   * is 16, not by the column height 4. For row and column in 0..3 the slot
   * lies inside the sixteen-slot storage only in column 0.
   */
  function IndexAsWritten(i: int, j: int): (r: int)
    ensures 0 <= i < 4 && 0 <= j < 4 ==> (0 <= r < 16 <==> j == 0)
    ensures 0 <= i < 4 && 0 < j < 4 ==> r >= 16
  {
    j * 16 + i
  }

  /**
   * `_dmat4_index` as evidently intended: row `i`, column `j` of the
   * column-major storage. It is a bijection between positions and slots.
   */
  function Index(i: int, j: int): (r: int)
    ensures 0 <= i < 4 && 0 <= j < 4 ==> 0 <= r < 16 && r % 4 == i && r / 4 == j
  {
    j * 4 + i
  }

  /** Every slot is the index of exactly one position. */
  lemma IndexOnto(k: int)
    requires 0 <= k < 16
    ensures Index(k % 4, k / 4) == k
    ensures forall i, j :: 0 <= i < 4 && 0 <= j < 4 && Index(i, j) == k ==> i == k % 4 && j == k / 4
  {
  }

  /** Component `i` of a vector: the `elem[i]` view of a `dvec4`. */
  function Component(v: Vec4.DVec4, i: int): real
    requires 0 <= i < 4
  {
    match i
    case 0 => v.x
    case 1 => v.y
    case 2 => v.z
    case 3 => v.w
  }

  /** `dmat4_col` (as a value): column `c`, the `cols[c]` view of the storage. */
  function Column(m: Mat4, c: int): (v: Vec4.DVec4)
    requires 0 <= c < 4
  {
    Vec4.DVec4(m[c * 4], m[c * 4 + 1], m[c * 4 + 2], m[c * 4 + 3])
  }

  /** Row `r`: component `r` of every column. */
  function Row(m: Mat4, r: int): (v: Vec4.DVec4)
    requires 0 <= r < 4
  {
    Vec4.DVec4(m[r], m[4 + r], m[8 + r], m[12 + r])
  }

  /** `dmat4_get` as written; no position outside column 0 satisfies its bounds. */
  function GetAsWritten(m: Mat4, x: int, y: int): (r: real)
    requires 0 <= IndexAsWritten(x, y) < 16
    ensures 0 <= x < 4 && 0 <= y < 4 ==> y == 0 && r == Component(Column(m, 0), x)
  {
    m[IndexAsWritten(x, y)]
  }

  /** `dmat4_get` with the intended index: row `x` of column `y`. */
  function Get(m: Mat4, x: int, y: int): (r: real)
    requires 0 <= x < 4 && 0 <= y < 4
    ensures r == Component(Column(m, y), x)
    ensures r == Component(Row(m, x), y)
  {
    m[Index(x, y)]
  }

  /** `dmat4_set` as written: the store is in bounds only in column 0. */
  method SetAsWritten(m: array<real>, x: int, y: int, value: real)
    requires m.Length == 16
    requires 0 <= IndexAsWritten(x, y) < 16
    modifies m
    ensures m[..] == old(m[..])[IndexAsWritten(x, y) := value]
  {
    m[IndexAsWritten(x, y)] := value;
  }

  /** `dmat4_set` with the intended index: one position changes, every other keeps its value. */
  method Set(m: array<real>, x: int, y: int, value: real)
    requires m.Length == 16
    requires 0 <= x < 4 && 0 <= y < 4
    modifies m
    ensures Get(m[..], x, y) == value
    ensures forall i, j :: 0 <= i < 4 && 0 <= j < 4 && (i, j) != (x, y) ==> Get(m[..], i, j) == Get(old(m[..]), i, j)
  {
    m[Index(x, y)] := value;
  }

  /** Whole-value assignment `*out = m` into caller storage. */
  method Assign(out: array<real>, m: Mat4)
    requires out.Length == 16
    modifies out
    ensures out[..] == m
  {
    forall k | 0 <= k < 16 {
      out[k] := m[k];
    }
  }

  // --------------------------------------------------------------- construction

  /** `dmat4_zero`. */
  function Zero(): Mat4
  {
    seq(16, k => 0.0)
  }

  /** `dmat4_identity`: the zero matrix with 1 in slots 0, 5, 10 and 15. */
  function Identity(): (r: Mat4)
    ensures forall i, j :: 0 <= i < 4 && 0 <= j < 4 ==> Get(r, i, j) == if i == j then 1.0 else 0.0
  {
    Zero()[0 := 1.0][5 := 1.0][10 := 1.0][15 := 1.0]
  }

  /** `dmat4_construct_diagonal`: `s` in slots 0, 5, 10 and 15. */
  function Diagonal(s: real): (r: Mat4)
    ensures forall i, j :: 0 <= i < 4 && 0 <= j < 4 ==> Get(r, i, j) == if i == j then s else 0.0
  {
    Zero()[0 := s][5 := s][10 := s][15 := s]
  }

  /** `dmat4_construct_cols`: the four columns in order. */
  function FromCols(c0: Vec4.DVec4, c1: Vec4.DVec4, c2: Vec4.DVec4, c3: Vec4.DVec4): (r: Mat4)
    ensures Column(r, 0) == c0 && Column(r, 1) == c1 && Column(r, 2) == c2 && Column(r, 3) == c3
  {
    [c0.x, c0.y, c0.z, c0.w, c1.x, c1.y, c1.z, c1.w, c2.x, c2.y, c2.z, c2.w, c3.x, c3.y, c3.z, c3.w]
  }

  /** A matrix is determined by its columns. */
  lemma FromColsOfColumns(m: Mat4)
    ensures FromCols(Column(m, 0), Column(m, 1), Column(m, 2), Column(m, 3)) == m
  {
  }

  /** `dmat4_zero_to`. */
  method ZeroTo(out: array<real>)
    requires out.Length == 16
    modifies out
    ensures out[..] == Zero()
  {
    Assign(out, Zero());
  }

  /** `dmat4_identity_to`: clear, then the four diagonal stores. */
  method IdentityTo(out: array<real>)
    requires out.Length == 16
    modifies out
    ensures out[..] == Identity()
  {
    ZeroTo(out);
    out[0] := 1.0;
    out[5] := 1.0;
    out[10] := 1.0;
    out[15] := 1.0;
  }

  /** `dmat4_construct_diagonal_to`. */
  method DiagonalTo(out: array<real>, s: real)
    requires out.Length == 16
    modifies out
    ensures out[..] == Diagonal(s)
  {
    ZeroTo(out);
    out[0] := s;
    out[5] := s;
    out[10] := s;
    out[15] := s;
  }

  /** `dmat4_construct_cols_to`: the four column stores. */
  method ConstructColsTo(out: array<real>, c0: Vec4.DVec4, c1: Vec4.DVec4, c2: Vec4.DVec4, c3: Vec4.DVec4)
    requires out.Length == 16
    modifies out
    ensures out[..] == FromCols(c0, c1, c2, c3)
  {
    out[0] := c0.x;
    out[1] := c0.y;
    out[2] := c0.z;
    out[3] := c0.w;
    out[4] := c1.x;
    out[5] := c1.y;
    out[6] := c1.z;
    out[7] := c1.w;
    out[8] := c2.x;
    out[9] := c2.y;
    out[10] := c2.z;
    out[11] := c2.w;
    out[12] := c3.x;
    out[13] := c3.y;
    out[14] := c3.z;
    out[15] := c3.w;
    assert out[..] == [c0.x, c0.y, c0.z, c0.w, c1.x, c1.y, c1.z, c1.w,
                       c2.x, c2.y, c2.z, c2.w, c3.x, c3.y, c3.z, c3.w];
  }

  /** `dmat4_copy`: the bytes of `src` into `out`. */
  method Copy(out: array<real>, src: array<real>)
    requires out.Length == 16 && src.Length == 16
    modifies out
    ensures out[..] == old(src[..])
  {
    Assign(out, src[..]);
  }

  // ---------------------------------------------------------- element-wise ops

  /** Slot `k` has been written by a rows-outer sweep over slots `j*4+i` that has reached row `i`, column `j`. */
  predicate VisitedJI(k: int, i: int, j: int)
  {
    k % 4 < i || (k % 4 == i && k / 4 < j)
  }

  function Sum(a: Mat4, b: Mat4): Mat4
  {
    seq(16, k requires 0 <= k < 16 => a[k] + b[k])
  }

  function Difference(a: Mat4, b: Mat4): Mat4
  {
    seq(16, k requires 0 <= k < 16 => a[k] - b[k])
  }

  function Scaled(a: Mat4, s: real): Mat4
  {
    seq(16, k requires 0 <= k < 16 => a[k] * s)
  }

  function Divided(a: Mat4, s: real): Mat4
    requires s != 0.0
  {
    seq(16, k requires 0 <= k < 16 => a[k] / s)
  }

  /** `dmat4_add`: a zero matrix filled slot `j*4+i` by slot, rows outer. */
  method Add(a: Mat4, b: Mat4) returns (r: Mat4)
    ensures r == Sum(a, b)
  {
    var m := new real[16](_ => 0.0);
    for i := 0 to 4
      invariant forall k :: 0 <= k < 16 ==> m[k] == if VisitedJI(k, i, 0) then a[k] + b[k] else 0.0
    {
      for j := 0 to 4
        invariant forall k :: 0 <= k < 16 ==> m[k] == if VisitedJI(k, i, j) then a[k] + b[k] else 0.0
      {
        m[j * 4 + i] := a[j * 4 + i] + b[j * 4 + i];
      }
    }
    assert forall k :: 0 <= k < 16 ==> m[k] == Sum(a, b)[k];
    r := m[..];
  }

  /** `dmat4_add_to`: `out` may be `a` or `b`; every slot reads only its own inputs before it is written. */
  method AddTo(out: array<real>, a: array<real>, b: array<real>)
    requires out.Length == 16 && a.Length == 16 && b.Length == 16
    modifies out
    ensures out[..] == Sum(old(a[..]), old(b[..]))
  {
    for i := 0 to 4
      invariant forall k :: 0 <= k < 16 ==> out[k] == if VisitedJI(k, i, 0) then old(a[k]) + old(b[k]) else old(out[k])
      invariant forall k :: 0 <= k < 16 && !VisitedJI(k, i, 0) ==> a[k] == old(a[k]) && b[k] == old(b[k])
    {
      for j := 0 to 4
        invariant forall k :: 0 <= k < 16 ==> out[k] == if VisitedJI(k, i, j) then old(a[k]) + old(b[k]) else old(out[k])
        invariant forall k :: 0 <= k < 16 && !VisitedJI(k, i, j) ==> a[k] == old(a[k]) && b[k] == old(b[k])
      {
        out[j * 4 + i] := a[j * 4 + i] + b[j * 4 + i];
      }
    }
    assert forall k :: 0 <= k < 16 ==> out[k] == Sum(old(a[..]), old(b[..]))[k];
  }

  /** `dmat4_add_inplace`: only `a` changes; `b` may be `a` itself. */
  method AddInPlace(a: array<real>, b: array<real>)
    requires a.Length == 16 && b.Length == 16
    modifies a
    ensures a[..] == Sum(old(a[..]), old(b[..]))
  {
    for i := 0 to 4
      invariant forall k :: 0 <= k < 16 ==> a[k] == if VisitedJI(k, i, 0) then old(a[k]) + old(b[k]) else old(a[k])
      invariant forall k :: 0 <= k < 16 && !VisitedJI(k, i, 0) ==> b[k] == old(b[k])
    {
      for j := 0 to 4
        invariant forall k :: 0 <= k < 16 ==> a[k] == if VisitedJI(k, i, j) then old(a[k]) + old(b[k]) else old(a[k])
        invariant forall k :: 0 <= k < 16 && !VisitedJI(k, i, j) ==> b[k] == old(b[k])
      {
        a[j * 4 + i] := a[j * 4 + i] + b[j * 4 + i];
      }
    }
    assert forall k :: 0 <= k < 16 ==> a[k] == Sum(old(a[..]), old(b[..]))[k];
  }

  /** `dmat4_sub`: a zero matrix filled slot `j*4+i` by slot, rows outer. */
  method Sub(a: Mat4, b: Mat4) returns (r: Mat4)
    ensures r == Difference(a, b)
  {
    var m := new real[16](_ => 0.0);
    for i := 0 to 4
      invariant forall k :: 0 <= k < 16 ==> m[k] == if VisitedJI(k, i, 0) then a[k] - b[k] else 0.0
    {
      for j := 0 to 4
        invariant forall k :: 0 <= k < 16 ==> m[k] == if VisitedJI(k, i, j) then a[k] - b[k] else 0.0
      {
        m[j * 4 + i] := a[j * 4 + i] - b[j * 4 + i];
      }
    }
    assert forall k :: 0 <= k < 16 ==> m[k] == Difference(a, b)[k];
    r := m[..];
  }

  /** `dmat4_sub_to`: `out` may be `a` or `b`; every slot reads only its own inputs before it is written. */
  method SubTo(out: array<real>, a: array<real>, b: array<real>)
    requires out.Length == 16 && a.Length == 16 && b.Length == 16
    modifies out
    ensures out[..] == Difference(old(a[..]), old(b[..]))
  {
    for i := 0 to 4
      invariant forall k :: 0 <= k < 16 ==> out[k] == if VisitedJI(k, i, 0) then old(a[k]) - old(b[k]) else old(out[k])
      invariant forall k :: 0 <= k < 16 && !VisitedJI(k, i, 0) ==> a[k] == old(a[k]) && b[k] == old(b[k])
    {
      for j := 0 to 4
        invariant forall k :: 0 <= k < 16 ==> out[k] == if VisitedJI(k, i, j) then old(a[k]) - old(b[k]) else old(out[k])
        invariant forall k :: 0 <= k < 16 && !VisitedJI(k, i, j) ==> a[k] == old(a[k]) && b[k] == old(b[k])
      {
        out[j * 4 + i] := a[j * 4 + i] - b[j * 4 + i];
      }
    }
    assert forall k :: 0 <= k < 16 ==> out[k] == Difference(old(a[..]), old(b[..]))[k];
  }

  /** `dmat4_sub_inplace`: only `a` changes; `b` may be `a` itself. */
  method SubInPlace(a: array<real>, b: array<real>)
    requires a.Length == 16 && b.Length == 16
    modifies a
    ensures a[..] == Difference(old(a[..]), old(b[..]))
  {
    for i := 0 to 4
      invariant forall k :: 0 <= k < 16 ==> a[k] == if VisitedJI(k, i, 0) then old(a[k]) - old(b[k]) else old(a[k])
      invariant forall k :: 0 <= k < 16 && !VisitedJI(k, i, 0) ==> b[k] == old(b[k])
    {
      for j := 0 to 4
        invariant forall k :: 0 <= k < 16 ==> a[k] == if VisitedJI(k, i, j) then old(a[k]) - old(b[k]) else old(a[k])
        invariant forall k :: 0 <= k < 16 && !VisitedJI(k, i, j) ==> b[k] == old(b[k])
      {
        a[j * 4 + i] := a[j * 4 + i] - b[j * 4 + i];
      }
    }
    assert forall k :: 0 <= k < 16 ==> a[k] == Difference(old(a[..]), old(b[..]))[k];
  }

  /** `dmat4_mult_scalar`: a zero matrix filled slot `j*4+i` by slot, rows outer. */
  method MultScalar(a: Mat4, s: real) returns (r: Mat4)
    ensures r == Scaled(a, s)
  {
    var m := new real[16](_ => 0.0);
    for i := 0 to 4
      invariant forall k :: 0 <= k < 16 ==> m[k] == if VisitedJI(k, i, 0) then a[k] * s else 0.0
    {
      for j := 0 to 4
        invariant forall k :: 0 <= k < 16 ==> m[k] == if VisitedJI(k, i, j) then a[k] * s else 0.0
      {
        m[j * 4 + i] := a[j * 4 + i] * s;
      }
    }
    assert forall k :: 0 <= k < 16 ==> m[k] == Scaled(a, s)[k];
    r := m[..];
  }

  /** `dmat4_mult_scalar_to`: `out` may be `a`; every slot reads only its own inputs before it is written. */
  method MultScalarTo(out: array<real>, a: array<real>, s: real)
    requires out.Length == 16 && a.Length == 16
    modifies out
    ensures out[..] == Scaled(old(a[..]), s)
  {
    for i := 0 to 4
      invariant forall k :: 0 <= k < 16 ==> out[k] == if VisitedJI(k, i, 0) then old(a[k]) * s else old(out[k])
      invariant forall k :: 0 <= k < 16 && !VisitedJI(k, i, 0) ==> a[k] == old(a[k])
    {
      for j := 0 to 4
        invariant forall k :: 0 <= k < 16 ==> out[k] == if VisitedJI(k, i, j) then old(a[k]) * s else old(out[k])
        invariant forall k :: 0 <= k < 16 && !VisitedJI(k, i, j) ==> a[k] == old(a[k])
      {
        out[j * 4 + i] := a[j * 4 + i] * s;
      }
    }
    assert forall k :: 0 <= k < 16 ==> out[k] == Scaled(old(a[..]), s)[k];
  }

  /** `dmat4_mult_scalar_inplace`: only `a` changes. */
  method MultScalarInPlace(a: array<real>, s: real)
    requires a.Length == 16
    modifies a
    ensures a[..] == Scaled(old(a[..]), s)
  {
    for i := 0 to 4
      invariant forall k :: 0 <= k < 16 ==> a[k] == if VisitedJI(k, i, 0) then old(a[k]) * s else old(a[k])
    {
      for j := 0 to 4
        invariant forall k :: 0 <= k < 16 ==> a[k] == if VisitedJI(k, i, j) then old(a[k]) * s else old(a[k])
      {
        a[j * 4 + i] := a[j * 4 + i] * s;
      }
    }
    assert forall k :: 0 <= k < 16 ==> a[k] == Scaled(old(a[..]), s)[k];
  }

  /** `dmat4_div_scalar`: a zero matrix filled slot `j*4+i` by slot, rows outer. */
  method DivScalar(a: Mat4, s: real) returns (r: Mat4)
    requires s != 0.0
    ensures r == Divided(a, s)
  {
    var m := new real[16](_ => 0.0);
    for i := 0 to 4
      invariant forall k :: 0 <= k < 16 ==> m[k] == if VisitedJI(k, i, 0) then a[k] / s else 0.0
    {
      for j := 0 to 4
        invariant forall k :: 0 <= k < 16 ==> m[k] == if VisitedJI(k, i, j) then a[k] / s else 0.0
      {
        m[j * 4 + i] := a[j * 4 + i] / s;
      }
    }
    assert forall k :: 0 <= k < 16 ==> m[k] == Divided(a, s)[k];
    r := m[..];
  }

  /** `dmat4_div_scalar_to`: `out` may be `a`; every slot reads only its own inputs before it is written. */
  method DivScalarTo(out: array<real>, a: array<real>, s: real)
    requires out.Length == 16 && a.Length == 16
    requires s != 0.0
    modifies out
    ensures out[..] == Divided(old(a[..]), s)
  {
    for i := 0 to 4
      invariant forall k :: 0 <= k < 16 ==> out[k] == if VisitedJI(k, i, 0) then old(a[k]) / s else old(out[k])
      invariant forall k :: 0 <= k < 16 && !VisitedJI(k, i, 0) ==> a[k] == old(a[k])
    {
      for j := 0 to 4
        invariant forall k :: 0 <= k < 16 ==> out[k] == if VisitedJI(k, i, j) then old(a[k]) / s else old(out[k])
        invariant forall k :: 0 <= k < 16 && !VisitedJI(k, i, j) ==> a[k] == old(a[k])
      {
        out[j * 4 + i] := a[j * 4 + i] / s;
      }
    }
    assert forall k :: 0 <= k < 16 ==> out[k] == Divided(old(a[..]), s)[k];
  }

  /** `dmat4_div_scalar_inplace`: only `a` changes. */
  method DivScalarInPlace(a: array<real>, s: real)
    requires a.Length == 16
    requires s != 0.0
    modifies a
    ensures a[..] == Divided(old(a[..]), s)
  {
    for i := 0 to 4
      invariant forall k :: 0 <= k < 16 ==> a[k] == if VisitedJI(k, i, 0) then old(a[k]) / s else old(a[k])
    {
      for j := 0 to 4
        invariant forall k :: 0 <= k < 16 ==> a[k] == if VisitedJI(k, i, j) then old(a[k]) / s else old(a[k])
      {
        a[j * 4 + i] := a[j * 4 + i] / s;
      }
    }
    assert forall k :: 0 <= k < 16 ==> a[k] == Divided(old(a[..]), s)[k];
  }

  /** Subtraction undoes addition, and addition is commutative. */
  lemma SumDifferenceInverse(a: Mat4, b: Mat4)
    ensures Difference(Sum(a, b), b) == a
    ensures Sum(a, b) == Sum(b, a)
  {
  }

  /** Dividing by a non-zero scalar undoes scaling by it; scaling the identity gives the diagonal matrix. */
  lemma DividedUndoesScaled(a: Mat4, s: real)
    requires s != 0.0
    ensures Divided(Scaled(a, s), s) == a
    ensures Scaled(Identity(), s) == Diagonal(s)
  {
    forall k | 0 <= k < 16
      ensures Divided(Scaled(a, s), s)[k] == a[k]
    {
      Vec4.DivUndoesMult(Vec4.Uniform(a[k]), s);
    }
    assert Scaled(Identity(), s)[0] == s;
  }

  // ------------------------------------------------------------------ products

  /**
   * The sum accumulated by the innermost loop of `dmat4_mult` after `n`
   * steps: `a[i*4+k] * b[k*4+j]` added for `k` from 0 below `n`.
   */
  function PartialDot(a: Mat4, b: Mat4, i: int, j: int, n: int): real
    requires 0 <= i < 4 && 0 <= j < 4 && 0 <= n <= 4
  {
    if n == 0 then 0.0 else PartialDot(a, b, i, j, n - 1) + a[i * 4 + n - 1] * b[(n - 1) * 4 + j]
  }

  /**
   * The product computed by `dmat4_mult`: slot `i*4+j` holds
   * `sum over k of a[i*4+k] * b[k*4+j]`. In the storage union slots
   * `i*4..i*4+3` form `cols[i]`, so the slot is the dot product of column `i`
   * of `a` with row `j` of `b`.
   */
  function Product(a: Mat4, b: Mat4): Mat4
  {
    seq(16, p requires 0 <= p < 16 => Vec4.Dot(Column(a, p / 4), Row(b, p % 4)))
  }

  /** The finished inner loop yields the product slot. */
  lemma PartialDotComplete(a: Mat4, b: Mat4, i: int, j: int)
    requires 0 <= i < 4 && 0 <= j < 4
    ensures PartialDot(a, b, i, j, 4) == Product(a, b)[i * 4 + j]
  {
    assert (i * 4 + j) / 4 == i && (i * 4 + j) % 4 == j;
    calc {
      PartialDot(a, b, i, j, 4);
      PartialDot(a, b, i, j, 3) + a[i * 4 + 3] * b[12 + j];
      PartialDot(a, b, i, j, 2) + a[i * 4 + 2] * b[8 + j] + a[i * 4 + 3] * b[12 + j];
      PartialDot(a, b, i, j, 1) + a[i * 4 + 1] * b[4 + j] + a[i * 4 + 2] * b[8 + j] + a[i * 4 + 3] * b[12 + j];
      a[i * 4] * b[j] + a[i * 4 + 1] * b[4 + j] + a[i * 4 + 2] * b[8 + j] + a[i * 4 + 3] * b[12 + j];
      Vec4.Dot(Column(a, i), Row(b, j));
    }
  }

  /** Slot `k` has been written by a rows-outer sweep over slots `i*4+j` that has reached `i`, `j`. */
  predicate VisitedIJ(k: int, i: int, j: int)
  {
    k / 4 < i || (k / 4 == i && k % 4 < j)
  }

  /** `dmat4_mult`: the triple loop accumulating each slot in `sum`. */
  method Mult(a: Mat4, b: Mat4) returns (r: Mat4)
    ensures r == Product(a, b)
  {
    var out := new real[16](_ => 0.0);
    for i := 0 to 4
      invariant forall p :: 0 <= p < 16 ==> out[p] == if VisitedIJ(p, i, 0) then Product(a, b)[p] else 0.0
    {
      for j := 0 to 4
        invariant forall p :: 0 <= p < 16 ==> out[p] == if VisitedIJ(p, i, j) then Product(a, b)[p] else 0.0
      {
        var sum := 0.0;
        for k := 0 to 4
          invariant sum == PartialDot(a, b, i, j, k)
        {
          sum := sum + a[i * 4 + k] * b[k * 4 + j];
        }
        PartialDotComplete(a, b, i, j);
        out[i * 4 + j] := sum;
      }
    }
    r := out[..];
  }

  /** `dmat4_mult_to`: the product is formed first, so `out` may alias either operand. */
  method MultTo(out: array<real>, a: array<real>, b: array<real>)
    requires out.Length == 16 && a.Length == 16 && b.Length == 16
    modifies out
    ensures out[..] == Product(old(a[..]), old(b[..]))
  {
    var r := Mult(a[..], b[..]);
    Assign(out, r);
  }

  /** `dmat4_mult_inplace`: through a temporary, so `b` may be `a` itself. */
  method MultInPlace(a: array<real>, b: array<real>)
    requires a.Length == 16 && b.Length == 16
    modifies a
    ensures a[..] == Product(old(a[..]), old(b[..]))
  {
    var temp := Mult(a[..], b[..]);
    Assign(a, temp);
  }

  /** The identity is a unit for the product on both sides. */
  lemma ProductIdentity(m: Mat4)
    ensures Product(Identity(), m) == m
    ensures Product(m, Identity()) == m
  {
    forall p | 0 <= p < 16
      ensures Product(Identity(), m)[p] == m[p]
    {
      var c, r := p / 4, p % 4;
      UnitDot(c, Row(m, r));
      Components(m, c, r);
    }
    forall p | 0 <= p < 16
      ensures Product(m, Identity())[p] == m[p]
    {
      var c, r := p / 4, p % 4;
      UnitDot(r, Column(m, c));
      Vec4.DotSymmetric(Column(m, c), Row(Identity(), r));
      Components(m, c, r);
    }
  }

  /** Row `r` of column `c` is slot `c*4 + r`, read either way. */
  lemma Components(m: Mat4, c: int, r: int)
    requires 0 <= c < 4 && 0 <= r < 4
    ensures Component(Column(m, c), r) == m[c * 4 + r]
    ensures Component(Row(m, r), c) == m[c * 4 + r]
  {
  }

  /** The columns and rows of the identity are the unit vectors, which pick a component out of a dot product. */
  lemma UnitDot(c: int, v: Vec4.DVec4)
    requires 0 <= c < 4
    ensures Column(Identity(), c) == Row(Identity(), c)
    ensures Vec4.Dot(Column(Identity(), c), v) == Component(v, c)
  {
    var e := Identity();
    assert e == [1.0, 0.0, 0.0, 0.0, 0.0, 1.0, 0.0, 0.0, 0.0, 0.0, 1.0, 0.0, 0.0, 0.0, 0.0, 1.0];
  }

  /**
   * `dmat4_mult_vec4`: component `r` is `cols[0..3]` at `r` weighted by
   * `v.x..v.w`, that is, row `r` dotted with `v`.
   */
  function MulVec4(m: Mat4, v: Vec4.DVec4): Vec4.DVec4
  {
    Vec4.DVec4(Vec4.Dot(Row(m, 0), v), Vec4.Dot(Row(m, 1), v), Vec4.Dot(Row(m, 2), v), Vec4.Dot(Row(m, 3), v))
  }

  /** `dmat4_mult_vec4_to`: the product vector stored whole. */
  method MulVec4To(out: Vec4.DVec4Ref, m: array<real>, v: Vec4.DVec4Ref)
    requires m.Length == 16
    modifies out
    ensures out.Value() == MulVec4(old(m[..]), old(v.Value()))
  {
    var r := MulVec4(m[..], v.Value());
    out.x, out.y, out.z, out.w := r.x, r.y, r.z, r.w;
  }

  /** `M v` written out slot by slot, as the source spells it. */
  lemma MulVec4Expanded(m: Mat4, v: Vec4.DVec4)
    ensures MulVec4(m, v) == Vec4.DVec4(
      m[0] * v.x + m[4] * v.y + m[8] * v.z + m[12] * v.w,
      m[1] * v.x + m[5] * v.y + m[9] * v.z + m[13] * v.w,
      m[2] * v.x + m[6] * v.y + m[10] * v.z + m[14] * v.w,
      m[3] * v.x + m[7] * v.y + m[11] * v.z + m[15] * v.w)
  {
  }

  /** The identity fixes every vector. */
  lemma MulVec4Identity(v: Vec4.DVec4)
    ensures MulVec4(Identity(), v) == v
  {
    var e := Identity();
    assert e == [1.0, 0.0, 0.0, 0.0, 0.0, 1.0, 0.0, 0.0, 0.0, 0.0, 1.0, 0.0, 0.0, 0.0, 0.0, 1.0];
  }

  /** `M v` is the combination of the columns of `M` with the components of `v` as weights. */
  lemma MulVec4Columns(m: Mat4, v: Vec4.DVec4)
    ensures MulVec4(m, v) == Vec4.Add(Vec4.Add(Vec4.Add(Vec4.Mult(Column(m, 0), v.x), Vec4.Mult(Column(m, 1), v.y)), Vec4.Mult(Column(m, 2), v.z)), Vec4.Mult(Column(m, 3), v.w))
  {
  }

  /** The matrix-vector product is linear in the vector. */
  lemma MulVec4Linear(m: Mat4, p: Vec4.DVec4, q: Vec4.DVec4, t: real)
    ensures MulVec4(m, Vec4.Add(p, q)) == Vec4.Add(MulVec4(m, p), MulVec4(m, q))
    ensures MulVec4(m, Vec4.Mult(p, t)) == Vec4.Mult(MulVec4(m, p), t)
  {
    MulVec4Additive(m, p, q);
    MulVec4Homogeneous(m, p, t);
  }

  /** `M (p + q) == M p + M q`. */
  lemma MulVec4Additive(m: Mat4, p: Vec4.DVec4, q: Vec4.DVec4)
    ensures MulVec4(m, Vec4.Add(p, q)) == Vec4.Add(MulVec4(m, p), MulVec4(m, q))
  {
    Vec4.DotAdditive(Row(m, 0), p, q);
    Vec4.DotAdditive(Row(m, 1), p, q);
    Vec4.DotAdditive(Row(m, 2), p, q);
    Vec4.DotAdditive(Row(m, 3), p, q);
  }

  /** `M (t p) == t (M p)`. */
  lemma MulVec4Homogeneous(m: Mat4, p: Vec4.DVec4, t: real)
    ensures MulVec4(m, Vec4.Mult(p, t)) == Vec4.Mult(MulVec4(m, p), t)
  {
    Vec4.DotHomogeneous(Row(m, 0), p, t);
    Vec4.DotHomogeneous(Row(m, 1), p, t);
    Vec4.DotHomogeneous(Row(m, 2), p, t);
    Vec4.DotHomogeneous(Row(m, 3), p, t);
  }

  /** Column `c` of `Product(a, b)` is `b` applied to column `c` of `a`. */
  lemma ProductColumn(a: Mat4, b: Mat4, c: int)
    requires 0 <= c < 4
    ensures Column(Product(a, b), c) == MulVec4(b, Column(a, c))
  {
    var p := Product(a, b);
    forall r | 0 <= r < 4
      ensures p[c * 4 + r] == Vec4.Dot(Row(b, r), Column(a, c))
    {
      assert (c * 4 + r) / 4 == c && (c * 4 + r) % 4 == r;
      Vec4.DotSymmetric(Row(b, r), Column(a, c));
    }
  }

  /**
   * Read through `MulVec4`, which treats the storage as columns, the loop of
   * `dmat4_mult` composes the other way round: `Product(a, b)` applies `a`
   * first and `b` second, that is, it is `b * a` and not the `a * b` the
   * header documents.
   */
  lemma MulVec4Product(a: Mat4, b: Mat4, v: Vec4.DVec4)
    ensures MulVec4(Product(a, b), v) == MulVec4(b, MulVec4(a, v))
  {
    var p := Product(a, b);
    MulVec4Columns(a, v);
    MulVec4Columns(p, v);
    var w0, w1, w2, w3 := Vec4.Mult(Column(a, 0), v.x), Vec4.Mult(Column(a, 1), v.y), Vec4.Mult(Column(a, 2), v.z), Vec4.Mult(Column(a, 3), v.w);
    MulVec4Linear(b, Vec4.Add(Vec4.Add(w0, w1), w2), w3, 0.0);
    MulVec4Linear(b, Vec4.Add(w0, w1), w2, 0.0);
    MulVec4Linear(b, w0, w1, 0.0);
    MulVec4Linear(b, Column(a, 0), w1, v.x);
    MulVec4Linear(b, Column(a, 1), w1, v.y);
    MulVec4Linear(b, Column(a, 2), w1, v.z);
    MulVec4Linear(b, Column(a, 3), w1, v.w);
    ProductColumn(a, b, 0);
    ProductColumn(a, b, 1);
    ProductColumn(a, b, 2);
    ProductColumn(a, b, 3);
  }

  /** A shear that adds `y` to `x`. */
  function ShearXByY(): Mat4
  {
    FromCols(Vec4.DVec4(1.0, 0.0, 0.0, 0.0), Vec4.DVec4(1.0, 1.0, 0.0, 0.0), Vec4.DVec4(0.0, 0.0, 1.0, 0.0), Vec4.DVec4(0.0, 0.0, 0.0, 1.0))
  }

  /** A shear that adds `x` to `y`. */
  function ShearYByX(): Mat4
  {
    FromCols(Vec4.DVec4(1.0, 1.0, 0.0, 0.0), Vec4.DVec4(0.0, 1.0, 0.0, 0.0), Vec4.DVec4(0.0, 0.0, 1.0, 0.0), Vec4.DVec4(0.0, 0.0, 0.0, 1.0))
  }

  /**
   * For the two shears and the unit vector along x, the product computed by
   * `dmat4_mult(a, b)` maps the vector to (1, 1, 0, 0), while applying `b`
   * and then `a`, as `a * b` means for column vectors, gives (2, 1, 0, 0).
   */
  lemma ProductOrderCounterexample()
    ensures MulVec4(Product(ShearXByY(), ShearYByX()), Vec4.DVec4(1.0, 0.0, 0.0, 0.0)) == Vec4.DVec4(1.0, 1.0, 0.0, 0.0)
    ensures MulVec4(ShearXByY(), MulVec4(ShearYByX(), Vec4.DVec4(1.0, 0.0, 0.0, 0.0))) == Vec4.DVec4(2.0, 1.0, 0.0, 0.0)
  {
    MulVec4Product(ShearXByY(), ShearYByX(), Vec4.DVec4(1.0, 0.0, 0.0, 0.0));
    ShearValues();
  }

  /** The two shears applied to the unit vector along x and to (1, 1, 0, 0). */
  lemma ShearValues()
    ensures MulVec4(ShearXByY(), Vec4.DVec4(1.0, 0.0, 0.0, 0.0)) == Vec4.DVec4(1.0, 0.0, 0.0, 0.0)
    ensures MulVec4(ShearYByX(), Vec4.DVec4(1.0, 0.0, 0.0, 0.0)) == Vec4.DVec4(1.0, 1.0, 0.0, 0.0)
    ensures MulVec4(ShearXByY(), Vec4.DVec4(1.0, 1.0, 0.0, 0.0)) == Vec4.DVec4(2.0, 1.0, 0.0, 0.0)
  {
    assert ShearXByY() == [1.0, 0.0, 0.0, 0.0, 1.0, 1.0, 0.0, 0.0, 0.0, 0.0, 1.0, 0.0, 0.0, 0.0, 0.0, 1.0];
    assert ShearYByX() == [1.0, 1.0, 0.0, 0.0, 0.0, 1.0, 0.0, 0.0, 0.0, 0.0, 1.0, 0.0, 0.0, 0.0, 0.0, 1.0];
    MulVec4Expanded(ShearXByY(), Vec4.DVec4(1.0, 0.0, 0.0, 0.0));
    MulVec4Expanded(ShearYByX(), Vec4.DVec4(1.0, 0.0, 0.0, 0.0));
    MulVec4Expanded(ShearXByY(), Vec4.DVec4(1.0, 1.0, 0.0, 0.0));
  }

  /**
   * The product `a * b` for the column layout that `dmat4_mult_vec4` and the
   * storage union use: row `r` of `a` dotted with column `c` of `b` in slot
   * `c*4 + r`.
   */
  function Compose(a: Mat4, b: Mat4): Mat4
  {
    seq(16, p requires 0 <= p < 16 => Vec4.Dot(Row(a, p % 4), Column(b, p / 4)))
  }

  /** The column-layout product is the loop's product with the operands exchanged. */
  lemma ComposeIsSwappedProduct(a: Mat4, b: Mat4)
    ensures Compose(a, b) == Product(b, a)
  {
    forall p | 0 <= p < 16
      ensures Compose(a, b)[p] == Product(b, a)[p]
    {
      Vec4.DotSymmetric(Row(a, p % 4), Column(b, p / 4));
    }
  }

  /** The column-layout product applies `b` first and then `a`, as `a * b` promises. */
  lemma MulVec4Compose(a: Mat4, b: Mat4, v: Vec4.DVec4)
    ensures MulVec4(Compose(a, b), v) == MulVec4(a, MulVec4(b, v))
  {
    ComposeIsSwappedProduct(a, b);
    MulVec4Product(b, a, v);
  }

  // ----------------------------------------------------------------- transpose

  /** Slot `i*4+j` of the transpose holds slot `j*4+i` of `m`: columns become rows. */
  function Transposed(m: Mat4): (r: Mat4)
    ensures forall c :: 0 <= c < 4 ==> Column(r, c) == Row(m, c)
  {
    seq(16, p requires 0 <= p < 16 => m[(p % 4) * 4 + p / 4])
  }

  /** Transposing twice gives the matrix back. */
  lemma TransposeInvolution(m: Mat4)
    ensures Transposed(Transposed(m)) == m
  {
    forall p | 0 <= p < 16
      ensures Transposed(Transposed(m))[p] == m[p]
    {
      var q := (p % 4) * 4 + p / 4;
      assert q / 4 == p % 4 && q % 4 == p / 4;
      calc {
        Transposed(Transposed(m))[p];
        Transposed(m)[q];
        m[(q % 4) * 4 + q / 4];
        m[p];
      }
    }
  }

  /** The transpose reverses a product. */
  lemma TransposeProduct(a: Mat4, b: Mat4)
    ensures Transposed(Product(a, b)) == Product(Transposed(b), Transposed(a))
  {
    forall r, c | 0 <= r < 4 && 0 <= c < 4
      ensures Get(Transposed(Product(a, b)), r, c) == Get(Product(Transposed(b), Transposed(a)), r, c)
    {
      TransposeProductSlot(a, b, c, r);
    }
    PositionsEqual(Transposed(Product(a, b)), Product(Transposed(b), Transposed(a)));
  }

  /** Slot `i*4+j` of both sides of `TransposeProduct`. */
  lemma TransposeProductSlot(a: Mat4, b: Mat4, i: int, j: int)
    requires 0 <= i < 4 && 0 <= j < 4
    ensures Transposed(Product(a, b))[i * 4 + j] == Product(Transposed(b), Transposed(a))[i * 4 + j]
  {
    TransposedSlot(Product(a, b), i, j);
    ProductSlot(a, b, j, i);
    ProductSlot(Transposed(b), Transposed(a), i, j);
    RowOfTransposed(a, j);
    Vec4.DotSymmetric(Column(a, j), Row(b, i));
  }

  /** Slot `i*4+j` of a product: column `i` of `a` against row `j` of `b`. */
  lemma ProductSlot(a: Mat4, b: Mat4, i: int, j: int)
    requires 0 <= i < 4 && 0 <= j < 4
    ensures Product(a, b)[i * 4 + j] == Vec4.Dot(Column(a, i), Row(b, j))
  {
    var p := i * 4 + j;
    assert p / 4 == i && p % 4 == j;
  }

  /** Slot `i*4+j` of a transpose is slot `j*4+i` of the matrix. */
  lemma TransposedSlot(m: Mat4, i: int, j: int)
    requires 0 <= i < 4 && 0 <= j < 4
    ensures Transposed(m)[i * 4 + j] == m[j * 4 + i]
  {
    var p := i * 4 + j;
    assert p / 4 == i && p % 4 == j;
  }

  /** Two matrices that agree at every row and column are equal. */
  lemma PositionsEqual(x: Mat4, y: Mat4)
    requires forall r, c :: 0 <= r < 4 && 0 <= c < 4 ==> Get(x, r, c) == Get(y, r, c)
    ensures x == y
  {
    forall p | 0 <= p < 16
      ensures x[p] == y[p]
    {
      IndexOnto(p);
      assert Get(x, p % 4, p / 4) == Get(y, p % 4, p / 4);
    }
  }

  /** Rows of the transpose are the columns of `m`. */
  lemma RowOfTransposed(m: Mat4, r: int)
    requires 0 <= r < 4
    ensures Row(Transposed(m), r) == Column(m, r)
  {
  }

  /** `dmat4_transpose`: `out` is left uninitialised and every slot is written. */
  method Transpose(m: Mat4) returns (r: Mat4)
    ensures r == Transposed(m)
  {
    var out := new real[16];
    for i := 0 to 4
      invariant forall p :: 0 <= p < 16 && VisitedIJ(p, i, 0) ==> out[p] == Transposed(m)[p]
    {
      for j := 0 to 4
        invariant forall p :: 0 <= p < 16 && VisitedIJ(p, i, j) ==> out[p] == Transposed(m)[p]
      {
        out[i * 4 + j] := m[j * 4 + i];
      }
    }
    r := out[..];
  }

  /** `dmat4_transpose_to`: the transpose is formed first, so `out` may be `m`. */
  method TransposeTo(out: array<real>, m: array<real>)
    requires out.Length == 16 && m.Length == 16
    modifies out
    ensures out[..] == Transposed(old(m[..]))
  {
    var r := Transpose(m[..]);
    Assign(out, r);
  }

  /** `dmat4_transpose_inplace`: through a temporary. */
  method TransposeInPlace(m: array<real>)
    requires m.Length == 16
    modifies m
    ensures m[..] == Transposed(old(m[..]))
  {
    var temp := Transpose(m[..]);
    Assign(m, temp);
  }

  // ------------------------------------------------------------------ builders

  /**
   * The matrix `dmat4_translation` builds, with the intended index: a zero
   * matrix with the offsets in column 3 and 1 at row 3, column 3. Slots 0,
   * 5 and 10 are never written and stay 0.
   */
  function TranslationMatrix(t: Vec3.DVec3): Mat4
  {
    Zero()[Index(0, 3) := t.x][Index(1, 3) := t.y][Index(2, 3) := t.z][Index(3, 3) := 1.0]
  }

  /** `dmat4_translation`: a cleared local matrix and four stores. */
  method Translation(t: Vec3.DVec3) returns (m: Mat4)
    ensures m == TranslationMatrix(t)
  {
    var a := new real[16];
    ZeroTo(a);
    a[Index(0, 3)] := t.x;
    a[Index(1, 3)] := t.y;
    a[Index(2, 3)] := t.z;
    a[Index(3, 3)] := 1.0;
    m := a[..];
  }

  /** `dmat4_translation_to`: the translation stored whole. */
  method TranslationTo(out: array<real>, t: Vec3.DVec3)
    requires out.Length == 16
    modifies out
    ensures out[..] == TranslationMatrix(t)
  {
    var m := Translation(t);
    Assign(out, m);
  }

  /**
   * Since the diagonal is 0, the translation sends every vector to the
   * offset scaled by its `w`: the point itself is lost.
   */
  lemma TranslationDropsPoint(t: Vec3.DVec3, v: Vec4.DVec4)
    ensures MulVec4(TranslationMatrix(t), v) == Vec4.DVec4(t.x * v.w, t.y * v.w, t.z * v.w, v.w)
  {
    var m := TranslationMatrix(t);
    assert m == [0.0, 0.0, 0.0, 0.0, 0.0, 0.0, 0.0, 0.0, 0.0, 0.0, 0.0, 0.0, t.x, t.y, t.z, 1.0];
    MulVec4Expanded(m, v);
  }

  /** The point (1, 0, 0) moved by the zero offset should stay put; it lands on the origin. */
  lemma TranslationCounterexample()
    ensures MulVec4(TranslationMatrix(Vec3.DVec3(0.0, 0.0, 0.0)), Vec4.DVec4(1.0, 0.0, 0.0, 1.0)) == Vec4.DVec4(0.0, 0.0, 0.0, 1.0)
  {
    TranslationDropsPoint(Vec3.DVec3(0.0, 0.0, 0.0), Vec4.DVec4(1.0, 0.0, 0.0, 1.0));
  }

  /** The translation as evidently intended: the identity with the offsets in column 3. */
  function AffineTranslation(t: Vec3.DVec3): Mat4
  {
    Identity()[Index(0, 3) := t.x][Index(1, 3) := t.y][Index(2, 3) := t.z]
  }

  /** The intended translation adds `w` times the offset to the point and keeps `w`. */
  lemma AffineTranslationMovesPoint(t: Vec3.DVec3, v: Vec4.DVec4)
    ensures MulVec4(AffineTranslation(t), v) == Vec4.DVec4(v.x + t.x * v.w, v.y + t.y * v.w, v.z + t.z * v.w, v.w)
  {
    var m := AffineTranslation(t);
    assert m == [1.0, 0.0, 0.0, 0.0, 0.0, 1.0, 0.0, 0.0, 0.0, 0.0, 1.0, 0.0, t.x, t.y, t.z, 1.0];
    MulVec4Expanded(m, v);
  }

  /** The matrix `dmat4_scale` builds: `(s.x, s.y, s.z, 1)` on the diagonal, 0 elsewhere. */
  function ScaleMatrix(s: Vec3.DVec3): Mat4
  {
    Zero()[Index(0, 0) := s.x][Index(1, 1) := s.y][Index(2, 2) := s.z][Index(3, 3) := 1.0]
  }

  /** `dmat4_scale`: a cleared local matrix and four diagonal stores. */
  method Scale(s: Vec3.DVec3) returns (m: Mat4)
    ensures m == ScaleMatrix(s)
  {
    var a := new real[16];
    ZeroTo(a);
    a[Index(0, 0)] := s.x;
    a[Index(1, 1)] := s.y;
    a[Index(2, 2)] := s.z;
    a[Index(3, 3)] := 1.0;
    m := a[..];
  }

  /** `dmat4_scale_to`: the scale stored whole. */
  method ScaleTo(out: array<real>, s: Vec3.DVec3)
    requires out.Length == 16
    modifies out
    ensures out[..] == ScaleMatrix(s)
  {
    var m := Scale(s);
    Assign(out, m);
  }

  /** The scale multiplies each of x, y and z by its factor and keeps `w`; unit factors give the identity. */
  lemma ScaleMatrixScales(s: Vec3.DVec3, v: Vec4.DVec4)
    ensures MulVec4(ScaleMatrix(s), v) == Vec4.DVec4(s.x * v.x, s.y * v.y, s.z * v.z, v.w)
    ensures ScaleMatrix(Vec3.DVec3(1.0, 1.0, 1.0)) == Identity()
  {
    var m := ScaleMatrix(s);
    assert m == [s.x, 0.0, 0.0, 0.0, 0.0, s.y, 0.0, 0.0, 0.0, 0.0, s.z, 0.0, 0.0, 0.0, 0.0, 1.0];
    MulVec4Expanded(m, v);
    assert ScaleMatrix(Vec3.DVec3(1.0, 1.0, 1.0)) == [1.0, 0.0, 0.0, 0.0, 0.0, 1.0, 0.0, 0.0, 0.0, 0.0, 1.0, 0.0, 0.0, 0.0, 0.0, 1.0];
    assert Identity() == [1.0, 0.0, 0.0, 0.0, 0.0, 1.0, 0.0, 0.0, 0.0, 0.0, 1.0, 0.0, 0.0, 0.0, 0.0, 1.0];
  }

  /**
   * The matrix `dmat4_ortho_to` stores, with the intended index: the
   * factors on the diagonal and the offsets at row 3, columns 0 to 2.
   */
  function OrthoMatrix(left: real, right: real, bottom: real, top: real, near: real, far: real): Mat4
    requires right != left && top != bottom && far != near
  {
    var rl, tb, fn := right - left, top - bottom, far - near;
    [2.0 / rl, 0.0, 0.0, -(right + left) / rl,
     0.0, 2.0 / tb, 0.0, -(top + bottom) / tb,
     0.0, 0.0, -2.0 / fn, -(far + near) / fn,
     0.0, 0.0, 0.0, 1.0]
  }

  /** `dmat4_ortho_to` with the intended index: sixteen stores, one per position. */
  method OrthoTo(out: array<real>, left: real, right: real, bottom: real, top: real, near: real, far: real)
    requires out.Length == 16
    requires right != left && top != bottom && far != near
    modifies out
    ensures out[..] == OrthoMatrix(left, right, bottom, top, near, far)
  {
    var rl := right - left;
    var tb := top - bottom;
    var fn := far - near;
    var sx, sy, sz := 2.0 / rl, 2.0 / tb, -2.0 / fn;
    var ox, oy, oz := -(right + left) / rl, -(top + bottom) / tb, -(far + near) / fn;
    // The stores in source order; position (i, j) is slot `Index(i, j) == j*4 + i`.
    out[0] := sx;
    out[4] := 0.0;
    out[8] := 0.0;
    out[12] := 0.0;
    out[1] := 0.0;
    out[5] := sy;
    out[9] := 0.0;
    out[13] := 0.0;
    out[2] := 0.0;
    out[6] := 0.0;
    out[10] := sz;
    out[14] := 0.0;
    out[3] := ox;
    out[7] := oy;
    out[11] := oz;
    out[15] := 1.0;
    assert out[..] == [sx, 0.0, 0.0, ox, 0.0, sy, 0.0, oy, 0.0, 0.0, sz, oz, 0.0, 0.0, 0.0, 1.0];
  }

  /** `dmat4_ortho`: `dmat4_ortho_to` into a local matrix. */
  method Ortho(left: real, right: real, bottom: real, top: real, near: real, far: real) returns (m: Mat4)
    requires right != left && top != bottom && far != near
    ensures m == OrthoMatrix(left, right, bottom, top, near, far)
  {
    var a := new real[16];
    OrthoTo(a, left, right, bottom, top, near, far);
    m := a[..];
  }

  /**
   * The ortho offsets sit in row 3, where the translation keeps them in
   * column 3: the two builders disagree on the layout.
   */
  lemma OffsetsDisagree(left: real, right: real, bottom: real, top: real, near: real, far: real, t: Vec3.DVec3)
    requires right != left && top != bottom && far != near
    ensures Row(OrthoMatrix(left, right, bottom, top, near, far), 3)
      == Vec4.DVec4(-(right + left) / (right - left), -(top + bottom) / (top - bottom), -(far + near) / (far - near), 1.0)
    ensures Column(TranslationMatrix(t), 3) == Vec4.DVec4(t.x, t.y, t.z, 1.0)
  {
    assert TranslationMatrix(t) == [0.0, 0.0, 0.0, 0.0, 0.0, 0.0, 0.0, 0.0, 0.0, 0.0, 0.0, 0.0, t.x, t.y, t.z, 1.0];
  }

  /**
   * Read by `dmat4_mult_vec4`, the ortho matrix of the box x in [0, 2],
   * y in [-1, 1], z in [-1, 1] sends the near corner (0, -1, 1) to x = 0
   * instead of -1.
   */
  lemma OrthoCounterexample()
    ensures MulVec4(OrthoMatrix(0.0, 2.0, -1.0, 1.0, -1.0, 1.0), Vec4.DVec4(0.0, -1.0, 1.0, 1.0)) == Vec4.DVec4(0.0, -1.0, -1.0, 1.0)
  {
    var m := OrthoMatrix(0.0, 2.0, -1.0, 1.0, -1.0, 1.0);
    assert m == [1.0, 0.0, 0.0, -1.0, 0.0, 1.0, 0.0, 0.0, 0.0, 0.0, -1.0, 0.0, 0.0, 0.0, 0.0, 1.0];
    MulVec4Expanded(m, Vec4.DVec4(0.0, -1.0, 1.0, 1.0));
  }

  /** The orthographic projection as evidently intended: the offsets in column 3. */
  function ColumnMajorOrtho(left: real, right: real, bottom: real, top: real, near: real, far: real): (r: Mat4)
    requires right != left && top != bottom && far != near
  {
    var rl, tb, fn := right - left, top - bottom, far - near;
    [2.0 / rl, 0.0, 0.0, 0.0,
     0.0, 2.0 / tb, 0.0, 0.0,
     0.0, 0.0, -2.0 / fn, 0.0,
     -(right + left) / rl, -(top + bottom) / tb, -(far + near) / fn, 1.0]
  }

  /** The intended projection is the transpose of the stored one. */
  lemma ColumnMajorOrthoTransposes(left: real, right: real, bottom: real, top: real, near: real, far: real)
    requires right != left && top != bottom && far != near
    ensures ColumnMajorOrtho(left, right, bottom, top, near, far) == Transposed(OrthoMatrix(left, right, bottom, top, near, far))
  {
    var o := OrthoMatrix(left, right, bottom, top, near, far);
    var c := ColumnMajorOrtho(left, right, bottom, top, near, far);
    forall i, j | 0 <= i < 4 && 0 <= j < 4
      ensures Get(c, i, j) == Get(Transposed(o), i, j)
    {
      RowOfTransposed(o, i);
    }
    PositionsEqual(c, Transposed(o));
  }

  /**
   * The intended projection maps the box: the near corner `(left, bottom,
   * -near)` to `(-1, -1, -1)` and the far corner `(right, top, -far)` to
   * `(1, 1, 1)`, with `w` kept at 1.
   */
  lemma ColumnMajorOrthoMapsBox(left: real, right: real, bottom: real, top: real, near: real, far: real)
    requires right != left && top != bottom && far != near
    ensures MulVec4(ColumnMajorOrtho(left, right, bottom, top, near, far), Vec4.DVec4(left, bottom, -near, 1.0))
      == Vec4.DVec4(-1.0, -1.0, -1.0, 1.0)
    ensures MulVec4(ColumnMajorOrtho(left, right, bottom, top, near, far), Vec4.DVec4(right, top, -far, 1.0))
      == Vec4.DVec4(1.0, 1.0, 1.0, 1.0)
  {
    var m := ColumnMajorOrtho(left, right, bottom, top, near, far);
    MulVec4Expanded(m, Vec4.DVec4(left, bottom, -near, 1.0));
    MulVec4Expanded(m, Vec4.DVec4(right, top, -far, 1.0));
    BoxEnds(left, right);
    BoxEnds(bottom, top);
    BoxEnds(near, far);
  }

  /** The affine map of the projection sends the ends of `[lo, hi]` to -1 and 1 (and of `[-lo, -hi]` for depth). */
  lemma BoxEnds(lo: real, hi: real)
    requires hi != lo
    ensures 2.0 / (hi - lo) * lo + -(hi + lo) / (hi - lo) == -1.0
    ensures 2.0 / (hi - lo) * hi + -(hi + lo) / (hi - lo) == 1.0
    ensures -2.0 / (hi - lo) * -lo + -(hi + lo) / (hi - lo) == -1.0
    ensures -2.0 / (hi - lo) * -hi + -(hi + lo) / (hi - lo) == 1.0
  {
    var d := hi - lo;
    assert 2.0 / d * lo + -(hi + lo) / d == (lo - hi) / d;
    assert 2.0 / d * hi + -(hi + lo) / d == (hi - lo) / d;
  }

  /** `dmat4_trs`: not implemented in the source; the identity whatever the inputs. */
  function Trs(translation: Vec3.DVec3, rotation: Vec3.DVec3, scale: Vec3.DVec3): Mat4
  {
    Identity()
  }

  /** The TRS matrix fixes every vector and does not depend on its inputs. */
  lemma TrsIgnoresInputs(t: Vec3.DVec3, r: Vec3.DVec3, s: Vec3.DVec3, t': Vec3.DVec3, r': Vec3.DVec3, s': Vec3.DVec3, v: Vec4.DVec4)
    ensures MulVec4(Trs(t, r, s), v) == v
    ensures Trs(t, r, s) == Trs(t', r', s')
  {
    MulVec4Identity(v);
  }

  /** `dmat4_trs_to`. */
  method TrsTo(out: array<real>, translation: Vec3.DVec3, rotation: Vec3.DVec3, scale: Vec3.DVec3)
    requires out.Length == 16
    modifies out
    ensures out[..] == Trs(translation, rotation, scale)
  {
    Assign(out, Trs(translation, rotation, scale));
  }

  /** `dmat4_decompose_trs`: its body is empty, so none of the outputs changes. */
  method DecomposeTrs(m: array<real>, translation: Vec3.DVec3Ref, rotation: Vec3.DVec3Ref, scale: Vec3.DVec3Ref)
    requires m.Length == 16
    ensures translation.Value() == old(translation.Value())
    ensures rotation.Value() == old(rotation.Value())
    ensures scale.Value() == old(scale.Value())
  {
  }
}
