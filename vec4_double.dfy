/**
 * Four-component double vectors (Core/rmath/src/types/vec4_double.c).
 *
 * As for `dvec3`, a `dvec4` value is the datatype `DVec4`, the
 * value-returning C functions are functions on it, and the `_to` and
 * `_inplace` forms are methods writing the fields of caller-owned storage,
 * the class `DVec4Ref`. `sqrt` is a parameter.
 */
module Vec4 {
  import Vec3

  /** `dvec4`: the x/y/z/w and r/g/b/a names all denote these four slots. */
  datatype DVec4 = DVec4(x: real, y: real, z: real, w: real)

  /** Caller-owned `dvec4` storage written by the `_to` and `_inplace` forms. */
  class DVec4Ref {
    var x: real
    var y: real
    var z: real
    var w: real

    constructor (v: DVec4)
      ensures Value() == v
    {
      x, y, z, w := v.x, v.y, v.z, v.w;
    }

    /** The vector currently stored. */
    function Value(): DVec4
      reads this
    {
      DVec4(x, y, z, w)
    }
  }

  // ---------------------------------------------------------------- construction

  function Zero(): DVec4 { DVec4(0.0, 0.0, 0.0, 0.0) }

  function One(): DVec4 { DVec4(1.0, 1.0, 1.0, 1.0) }

  /** `dvec4_construct_uniform`. */
  function Uniform(value: real): DVec4 { DVec4(value, value, value, value) }

  /** `dvec4_construct_from_dvec3`: the direction `v` with `w` set to 0. */
  function FromDVec3(v: Vec3.DVec3): (r: DVec4)
    ensures Vec3.DVec3(r.x, r.y, r.z) == v && r.w == 0.0
  {
    DVec4(v.x, v.y, v.z, 0.0)
  }

  /** `dvec4_construct_from_dvec2`: `z` and `w` become 0. */
  function FromDVec2(v: Vec3.DVec2): (r: DVec4)
    ensures Vec3.DVec2(r.x, r.y) == v && r.z == 0.0 && r.w == 0.0
  {
    DVec4(v.x, v.y, 0.0, 0.0)
  }

  /** Widening a `dvec2` directly or through a `dvec3` gives the same `dvec4`. */
  lemma FromDVec2ThroughDVec3(v: Vec3.DVec2)
    ensures FromDVec3(Vec3.FromDVec2(v)) == FromDVec2(v)
  {
  }

  /** `dvec4_zero_to`. */
  method ZeroTo(v: DVec4Ref)
    modifies v
    ensures v.Value() == Zero()
  {
    v.x := 0.0;
    v.y := 0.0;
    v.z := 0.0;
    v.w := 0.0;
  }

  /** `dvec4_copy`: field-by-field copy; `out` and `src` may be the same vector. */
  method Copy(out: DVec4Ref, src: DVec4Ref)
    modifies out
    ensures out.Value() == old(src.Value())
  {
    out.x := src.x;
    out.y := src.y;
    out.z := src.z;
    out.w := src.w;
  }

  // ------------------------------------------------------------------ arithmetic

  function Add(a: DVec4, b: DVec4): DVec4
  {
    DVec4(a.x + b.x, a.y + b.y, a.z + b.z, a.w + b.w)
  }

  function Sub(a: DVec4, b: DVec4): DVec4
  {
    DVec4(a.x - b.x, a.y - b.y, a.z - b.z, a.w - b.w)
  }

  function Neg(v: DVec4): DVec4
  {
    DVec4(-v.x, -v.y, -v.z, -v.w)
  }

  /** `dvec4_mult`: scaling by `s`. */
  function Mult(v: DVec4, s: real): DVec4
  {
    DVec4(v.x * s, v.y * s, v.z * s, v.w * s)
  }

  /** `dvec4_div`: the source divides without a check; the divisor must be non-zero. */
  function Div(v: DVec4, s: real): DVec4
    requires s != 0.0
  {
    DVec4(v.x / s, v.y / s, v.z / s, v.w / s)
  }

  /** Subtracting what was added gives the vector back, and the other way round. */
  lemma AddSubInverse(a: DVec4, b: DVec4)
    ensures Sub(Add(a, b), b) == a
    ensures Add(Sub(a, b), b) == a
  {
  }

  /** Negation is an involution and the additive inverse; subtraction adds the negation. */
  lemma NegInvolution(v: DVec4, u: DVec4)
    ensures Neg(Neg(v)) == v
    ensures Add(v, Neg(v)) == Zero()
    ensures Sub(v, u) == Add(v, Neg(u))
  {
  }

  /** Dividing by a non-zero scalar undoes scaling by it. */
  lemma DivUndoesMult(v: DVec4, s: real)
    requires s != 0.0
    ensures Div(Mult(v, s), s) == v
  {
  }

  /** `dvec4_add_to`: `out` may be `a` or `b`; each slot reads only its own inputs. */
  method AddTo(out: DVec4Ref, a: DVec4Ref, b: DVec4Ref)
    modifies out
    ensures out.Value() == Add(old(a.Value()), old(b.Value()))
  {
    out.x := a.x + b.x;
    out.y := a.y + b.y;
    out.z := a.z + b.z;
    out.w := a.w + b.w;
  }

  /**
   * `dvec4_add_inplace` as written: each slot is assigned `+b`, the unary
   * plus of the operand, so `a` ends up a copy of `b` instead of `a + b`.
   */
  method AddInPlaceAsWritten(a: DVec4Ref, b: DVec4Ref)
    modifies a
    ensures a.Value() == old(b.Value())
  {
    a.x := b.x;
    a.y := b.y;
    a.z := b.z;
    a.w := b.w;
  }

  /** The as-written result `b` is the sum `a + b` only when `a` is zero. */
  lemma AddInPlaceAsWrittenDiffers(a: DVec4, b: DVec4)
    ensures b == Add(a, b) <==> a == Zero()
  {
    if b == Add(a, b) {
      assert a.x == 0.0 && a.y == 0.0 && a.z == 0.0 && a.w == 0.0;
    }
  }

  /** `dvec4_add_inplace` as evidently intended (and as `dvec3_add_inplace` does): `a += b`. */
  method AddInPlace(a: DVec4Ref, b: DVec4Ref)
    modifies a
    ensures a.Value() == Add(old(a.Value()), old(b.Value()))
  {
    a.x := a.x + b.x;
    a.y := a.y + b.y;
    a.z := a.z + b.z;
    a.w := a.w + b.w;
  }

  /** `dvec4_sub_to`. */
  method SubTo(out: DVec4Ref, a: DVec4Ref, b: DVec4Ref)
    modifies out
    ensures out.Value() == Sub(old(a.Value()), old(b.Value()))
  {
    out.x := a.x - b.x;
    out.y := a.y - b.y;
    out.z := a.z - b.z;
    out.w := a.w - b.w;
  }

  /**
   * `dvec4_sub_inplace` as written: each slot is assigned `-b`, so `a` ends
   * up the negation of `b` instead of `a - b`.
   */
  method SubInPlaceAsWritten(a: DVec4Ref, b: DVec4Ref)
    modifies a
    ensures a.Value() == Neg(old(b.Value()))
  {
    a.x := -b.x;
    a.y := -b.y;
    a.z := -b.z;
    a.w := -b.w;
  }

  /** The as-written result `-b` is the difference `a - b` only when `a` is zero. */
  lemma SubInPlaceAsWrittenDiffers(a: DVec4, b: DVec4)
    ensures Neg(b) == Sub(a, b) <==> a == Zero()
  {
    if Neg(b) == Sub(a, b) {
      assert a.x == 0.0 && a.y == 0.0 && a.z == 0.0 && a.w == 0.0;
    }
  }

  /** `dvec4_sub_inplace` as evidently intended: `a -= b`. */
  method SubInPlace(a: DVec4Ref, b: DVec4Ref)
    modifies a
    ensures a.Value() == Sub(old(a.Value()), old(b.Value()))
  {
    a.x := a.x - b.x;
    a.y := a.y - b.y;
    a.z := a.z - b.z;
    a.w := a.w - b.w;
  }

  /** With the intended in-place forms, adding `b` and then subtracting it restores `a`. */
  method AddThenSubRestores(a: DVec4Ref, b: DVec4Ref)
    requires a != b
    modifies a
    ensures a.Value() == old(a.Value())
  {
    AddInPlace(a, b);
    SubInPlace(a, b);
    AddSubInverse(old(a.Value()), b.Value());
  }

  /** `dvec4_mult_to`. */
  method MultTo(out: DVec4Ref, v: DVec4Ref, s: real)
    modifies out
    ensures out.Value() == Mult(old(v.Value()), s)
  {
    out.x := v.x * s;
    out.y := v.y * s;
    out.z := v.z * s;
    out.w := v.w * s;
  }

  /** `dvec4_mult_inplace`. */
  method MultInPlace(v: DVec4Ref, s: real)
    modifies v
    ensures v.Value() == Mult(old(v.Value()), s)
  {
    v.x := v.x * s;
    v.y := v.y * s;
    v.z := v.z * s;
    v.w := v.w * s;
  }

  /** `dvec4_div_to`. */
  method DivTo(out: DVec4Ref, v: DVec4Ref, s: real)
    requires s != 0.0
    modifies out
    ensures out.Value() == Div(old(v.Value()), s)
  {
    out.x := v.x / s;
    out.y := v.y / s;
    out.z := v.z / s;
    out.w := v.w / s;
  }

  /** `dvec4_div_inplace`. */
  method DivInPlace(v: DVec4Ref, s: real)
    requires s != 0.0
    modifies v
    ensures v.Value() == Div(old(v.Value()), s)
  {
    v.x := v.x / s;
    v.y := v.y / s;
    v.z := v.z / s;
    v.w := v.w / s;
  }

  // ------------------------------------------------------- products and lengths

  function Dot(a: DVec4, b: DVec4): real
  {
    a.x * b.x + a.y * b.y + a.z * b.z + a.w * b.w
  }

  function LengthSquared(v: DVec4): real
  {
    v.x * v.x + v.y * v.y + v.z * v.z + v.w * v.w
  }

  /** `dvec4_length`: `sqrt` of the squared length, with `sqrt` supplied by the caller. */
  function Length(v: DVec4, sqrt: real -> real): real
  {
    sqrt(LengthSquared(v))
  }

  /** `dvec4_distance`: the root of the summed squares of the component differences. */
  function Distance(a: DVec4, b: DVec4, sqrt: real -> real): real
  {
    sqrt(LengthSquared(Sub(a, b)))
  }

  /** Dot product is symmetric; the squared length is the self dot product. */
  lemma DotSymmetric(a: DVec4, b: DVec4)
    ensures Dot(a, b) == Dot(b, a)
    ensures LengthSquared(a) == Dot(a, a)
  {
  }

  /** The dot product distributes over a sum in its second argument. */
  lemma DotAdditive(a: DVec4, p: DVec4, q: DVec4)
    ensures Dot(a, Add(p, q)) == Dot(a, p) + Dot(a, q)
  {
  }

  /** A scale factor in the second argument comes out of the dot product. */
  lemma DotHomogeneous(a: DVec4, p: DVec4, t: real)
    ensures Dot(a, Mult(p, t)) == Dot(a, p) * t
  {
  }

  /** The squared length is never negative; the zero vector has squared length 0. */
  lemma LengthSquaredNonNegative(v: DVec4)
    ensures LengthSquared(v) >= 0.0
    ensures LengthSquared(Zero()) == 0.0
  {
  }

  /** A point-to-direction widening keeps the dot product and the squared length. */
  lemma FromDVec3Products(a: Vec3.DVec3, b: Vec3.DVec3)
    ensures Dot(FromDVec3(a), FromDVec3(b)) == Vec3.Dot(a, b)
    ensures LengthSquared(FromDVec3(a)) == Vec3.LengthSquared(a)
  {
  }

  /** Negating a vector keeps its squared length. */
  lemma LengthSquaredNeg(v: DVec4)
    ensures LengthSquared(Neg(v)) == LengthSquared(v)
  {
    assert (-v.x) * (-v.x) == v.x * v.x;
    assert (-v.y) * (-v.y) == v.y * v.y;
    assert (-v.z) * (-v.z) == v.z * v.z;
    assert (-v.w) * (-v.w) == v.w * v.w;
  }

  /** Distance is symmetric. */
  lemma DistanceSymmetric(a: DVec4, b: DVec4, sqrt: real -> real)
    ensures Distance(a, b, sqrt) == Distance(b, a, sqrt)
  {
    assert Sub(b, a) == Neg(Sub(a, b));
    LengthSquaredNeg(Sub(a, b));
  }

  /** The distance is the length of the difference. */
  lemma DistanceIsLengthOfDifference(a: DVec4, b: DVec4, sqrt: real -> real)
    ensures Distance(a, b, sqrt) == Length(Sub(a, b), sqrt)
  {
  }

  // -------------------------------------------------------------- normalization

  /** The value every `dvec4` normalize form produces: each slot divided by the length. */
  function Normalize(v: DVec4, sqrt: real -> real): DVec4
    requires Length(v, sqrt) != 0.0
  {
    var len := Length(v, sqrt);
    DVec4(v.x / len, v.y / len, v.z / len, v.w / len)
  }

  /**
   * Scaling a vector by `t` scales its squared length by `t * t`; in
   * particular `t * n` has squared length `t * t` exactly when `n` has
   * squared length 1 or `t` is zero.
   */
  lemma LengthSquaredScale(n: DVec4, t: real)
    ensures LengthSquared(Mult(n, t)) - t * t == (t * t) * (LengthSquared(n) - 1.0)
  {
  }

  /**
   * If `sqrt` returns a value whose square is the squared length, normalizing
   * yields a vector that scales back to the input and has squared length 1.
   */
  lemma NormalizeUnit(v: DVec4, sqrt: real -> real)
    requires Length(v, sqrt) != 0.0
    requires Length(v, sqrt) * Length(v, sqrt) == LengthSquared(v)
    ensures Mult(Normalize(v, sqrt), Length(v, sqrt)) == v
    ensures LengthSquared(Normalize(v, sqrt)) == 1.0
  {
    var len := Length(v, sqrt);
    var n := Normalize(v, sqrt);
    Vec3.QuotientTimes(v.x, len);
    Vec3.QuotientTimes(v.y, len);
    Vec3.QuotientTimes(v.z, len);
    Vec3.QuotientTimes(v.w, len);
    assert Mult(n, len) == v;
    LengthSquaredScale(n, len);
    Vec3.SquareFactorZero(len, LengthSquared(n) - 1.0);
  }

  /** `dvec4_normalize`: in place, dividing each slot by the length taken beforehand. */
  method NormalizeSelf(v: DVec4Ref, sqrt: real -> real)
    requires Length(v.Value(), sqrt) != 0.0
    modifies v
    ensures v.Value() == Normalize(old(v.Value()), sqrt)
  {
    var l := Length(v.Value(), sqrt);
    v.x := v.x / l;
    v.y := v.y / l;
    v.z := v.z / l;
    v.w := v.w / l;
  }

  /** `dvec4_normalize_to`. */
  method NormalizeTo(out: DVec4Ref, v: DVec4Ref, sqrt: real -> real)
    requires Length(v.Value(), sqrt) != 0.0
    modifies out
    ensures out.Value() == Normalize(old(v.Value()), sqrt)
  {
    var l := Length(v.Value(), sqrt);
    out.x := v.x / l;
    out.y := v.y / l;
    out.z := v.z / l;
    out.w := v.w / l;
  }

  /** `dvec4_normalize_inplace`: the length, then `dvec4_div_inplace` by it. */
  method NormalizeInPlace(v: DVec4Ref, sqrt: real -> real)
    requires Length(v.Value(), sqrt) != 0.0
    modifies v
    ensures v.Value() == Normalize(old(v.Value()), sqrt)
  {
    var l := Length(v.Value(), sqrt);
    DivInPlace(v, l);
  }

  // ------------------------------------------------------- negation, hadamard

  /** `dvec4_neg_to`. */
  method NegTo(out: DVec4Ref, v: DVec4Ref)
    modifies out
    ensures out.Value() == Neg(old(v.Value()))
  {
    out.x := -v.x;
    out.y := -v.y;
    out.z := -v.z;
    out.w := -v.w;
  }

  /** `dvec4_neg_inplace`. */
  method NegInPlace(v: DVec4Ref)
    modifies v
    ensures v.Value() == Neg(old(v.Value()))
  {
    v.x := -v.x;
    v.y := -v.y;
    v.z := -v.z;
    v.w := -v.w;
  }

  /** `dvec4_hadamard`: component-wise product. */
  function Hadamard(a: DVec4, b: DVec4): DVec4
  {
    DVec4(a.x * b.x, a.y * b.y, a.z * b.z, a.w * b.w)
  }

  /** The component-wise product is commutative and has `One()` as unit. */
  lemma HadamardCommutes(a: DVec4, b: DVec4)
    ensures Hadamard(a, b) == Hadamard(b, a)
    ensures Hadamard(a, One()) == a
  {
  }

  /** `dvec4_hadamard_to`: the product is formed first, then stored whole. */
  method HadamardTo(out: DVec4Ref, a: DVec4Ref, b: DVec4Ref)
    modifies out
    ensures out.Value() == Hadamard(old(a.Value()), old(b.Value()))
  {
    var h := Hadamard(a.Value(), b.Value());
    out.x, out.y, out.z, out.w := h.x, h.y, h.z, h.w;
  }
}
