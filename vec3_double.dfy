/**
 * Three-component double vectors (Core/rmath/src/types/vec3_double.c).
 *
 * A `dvec3` value is the datatype `DVec3`; the value-returning C functions
 * are functions on it. The `_to` and `_inplace` forms write the fields of a
 * caller-owned vector one by one; that storage is the class `DVec3Ref`, and
 * those forms are methods that say what the referenced vector holds
 * afterwards. `sqrt` is never interpreted: the functions that need it take it
 * as a parameter, and the unit-length statement assumes only that the value
 * supplied squares back to its argument.
 */
module Vec3 {

  /** `dvec2`, used only by the conversion constructor. */
  datatype DVec2 = DVec2(x: real, y: real)

  /** `dvec3`: the x/y/z, r/g/b and s/t/p names all denote these three slots. */
  datatype DVec3 = DVec3(x: real, y: real, z: real)

  /** Caller-owned `dvec3` storage written by the `_to` and `_inplace` forms. */
  class DVec3Ref {
    var x: real
    var y: real
    var z: real

    constructor (v: DVec3)
      ensures Value() == v
    {
      x, y, z := v.x, v.y, v.z;
    }

    /** The vector currently stored. */
    function Value(): DVec3
      reads this
    {
      DVec3(x, y, z)
    }
  }

  // ---------------------------------------------------------------- construction

  function Zero(): DVec3 { DVec3(0.0, 0.0, 0.0) }

  function One(): DVec3 { DVec3(1.0, 1.0, 1.0) }

  /** `dvec3_construct_uniform`. */
  function Uniform(value: real): DVec3 { DVec3(value, value, value) }

  /** `dvec3_construct_from_dvec2`: copies x and y, z becomes 0. */
  function FromDVec2(v: DVec2): (r: DVec3)
    ensures DVec2(r.x, r.y) == v && r.z == 0.0
  {
    DVec3(v.x, v.y, 0.0)
  }

  /** `dvec3_zero_to`. */
  method ZeroTo(v: DVec3Ref)
    modifies v
    ensures v.Value() == Zero()
  {
    v.x := 0.0;
    v.y := 0.0;
    v.z := 0.0;
  }

  /** `dvec3_construct_to`. */
  method ConstructTo(out: DVec3Ref, x: real, y: real, z: real)
    modifies out
    ensures out.Value() == DVec3(x, y, z)
  {
    out.x, out.y, out.z := x, y, z;
  }

  /** `dvec3_construct_uniform_to`. */
  method UniformTo(out: DVec3Ref, value: real)
    modifies out
    ensures out.Value() == Uniform(value)
  {
    out.x, out.y, out.z := value, value, value;
  }

  /** `dvec3_copy`: field-by-field copy; `out` and `src` may be the same vector. */
  method Copy(out: DVec3Ref, src: DVec3Ref)
    modifies out
    ensures out.Value() == old(src.Value())
  {
    out.x := src.x;
    out.y := src.y;
    out.z := src.z;
  }

  // ------------------------------------------------------------------ arithmetic

  function Add(a: DVec3, b: DVec3): DVec3
  {
    DVec3(a.x + b.x, a.y + b.y, a.z + b.z)
  }

  function Sub(a: DVec3, b: DVec3): DVec3
  {
    DVec3(a.x - b.x, a.y - b.y, a.z - b.z)
  }

  /** `dvec3_mult`: scaling by `t`. */
  function Mult(v: DVec3, t: real): DVec3
  {
    DVec3(v.x * t, v.y * t, v.z * t)
  }

  /** `dvec3_div`: the source divides without a check; the divisor must be non-zero. */
  function Div(v: DVec3, t: real): DVec3
    requires t != 0.0
  {
    DVec3(v.x / t, v.y / t, v.z / t)
  }

  /** Subtracting what was added gives the vector back, and the other way round. */
  lemma AddSubInverse(a: DVec3, b: DVec3)
    ensures Sub(Add(a, b), b) == a
    ensures Add(Sub(a, b), b) == a
  {
  }

  /** Dividing by a non-zero scalar undoes scaling by it. */
  lemma DivUndoesMult(v: DVec3, t: real)
    requires t != 0.0
    ensures Div(Mult(v, t), t) == v
  {
  }

  /** `dvec3_add_to`: `out` may be `a` or `b`; each slot reads only its own inputs. */
  method AddTo(out: DVec3Ref, a: DVec3Ref, b: DVec3Ref)
    modifies out
    ensures out.Value() == Add(old(a.Value()), old(b.Value()))
  {
    out.x := a.x + b.x;
    out.y := a.y + b.y;
    out.z := a.z + b.z;
  }

  /** `dvec3_add_inplace`: `a += b`, nothing but `a` changes. */
  method AddInPlace(a: DVec3Ref, b: DVec3Ref)
    modifies a
    ensures a.Value() == Add(old(a.Value()), old(b.Value()))
  {
    a.x := a.x + b.x;
    a.y := a.y + b.y;
    a.z := a.z + b.z;
  }

  /** `dvec3_sub_to`. */
  method SubTo(out: DVec3Ref, a: DVec3Ref, b: DVec3Ref)
    modifies out
    ensures out.Value() == Sub(old(a.Value()), old(b.Value()))
  {
    out.x := a.x - b.x;
    out.y := a.y - b.y;
    out.z := a.z - b.z;
  }

  /** `dvec3_sub_inplace`: `a -= b`. */
  method SubInPlace(a: DVec3Ref, b: DVec3Ref)
    modifies a
    ensures a.Value() == Sub(old(a.Value()), old(b.Value()))
  {
    a.x := a.x - b.x;
    a.y := a.y - b.y;
    a.z := a.z - b.z;
  }

  /** Adding `b` in place and then subtracting it in place restores `a`. */
  method AddThenSubRestores(a: DVec3Ref, b: DVec3Ref)
    requires a != b
    modifies a
    ensures a.Value() == old(a.Value())
  {
    AddInPlace(a, b);
    SubInPlace(a, b);
    AddSubInverse(old(a.Value()), b.Value());
  }

  /** `dvec3_mult_to`. */
  method MultTo(out: DVec3Ref, v: DVec3Ref, t: real)
    modifies out
    ensures out.Value() == Mult(old(v.Value()), t)
  {
    out.x := v.x * t;
    out.y := v.y * t;
    out.z := v.z * t;
  }

  /** `dvec3_mult_inplace`. */
  method MultInPlace(v: DVec3Ref, t: real)
    modifies v
    ensures v.Value() == Mult(old(v.Value()), t)
  {
    v.x := v.x * t;
    v.y := v.y * t;
    v.z := v.z * t;
  }

  /** `dvec3_div_to`. */
  method DivTo(out: DVec3Ref, v: DVec3Ref, t: real)
    requires t != 0.0
    modifies out
    ensures out.Value() == Div(old(v.Value()), t)
  {
    out.x := v.x / t;
    out.y := v.y / t;
    out.z := v.z / t;
  }

  /** `dvec3_div_inplace`. */
  method DivInPlace(v: DVec3Ref, t: real)
    requires t != 0.0
    modifies v
    ensures v.Value() == Div(old(v.Value()), t)
  {
    v.x := v.x / t;
    v.y := v.y / t;
    v.z := v.z / t;
  }

  // ------------------------------------------------------- products and lengths

  function Dot(v: DVec3, u: DVec3): real
  {
    v.x * u.x + v.y * u.y + v.z * u.z
  }

  function LengthSquared(v: DVec3): real
  {
    v.x * v.x + v.y * v.y + v.z * v.z
  }

  /** `dvec3_length`: `sqrt` of the squared length, with `sqrt` supplied by the caller. */
  function Length(v: DVec3, sqrt: real -> real): real
  {
    sqrt(LengthSquared(v))
  }

  /** `dvec3_distance`: the root of the summed squares of the component differences. */
  function Distance(a: DVec3, b: DVec3, sqrt: real -> real): real
  {
    sqrt(LengthSquared(Sub(a, b)))
  }

  /** Dot product is symmetric; the squared length is the self dot product. */
  lemma DotSymmetric(v: DVec3, u: DVec3)
    ensures Dot(v, u) == Dot(u, v)
    ensures LengthSquared(v) == Dot(v, v)
  {
  }

  /** The squared length is never negative; the zero vector has squared length 0. */
  lemma LengthSquaredNonNegative(v: DVec3)
    ensures LengthSquared(v) >= 0.0
    ensures LengthSquared(Zero()) == 0.0
  {
  }

  /** Negating a vector keeps its squared length. */
  lemma LengthSquaredNeg(v: DVec3)
    ensures LengthSquared(Neg(v)) == LengthSquared(v)
  {
    assert (-v.x) * (-v.x) == v.x * v.x;
    assert (-v.y) * (-v.y) == v.y * v.y;
    assert (-v.z) * (-v.z) == v.z * v.z;
  }

  /** Distance is symmetric. */
  lemma DistanceSymmetric(a: DVec3, b: DVec3, sqrt: real -> real)
    ensures Distance(a, b, sqrt) == Distance(b, a, sqrt)
  {
    assert Sub(b, a) == Neg(Sub(a, b));
    LengthSquaredNeg(Sub(a, b));
  }

  /** `dvec3_normalize`: every component divided by the same length. */
  function Normalize(v: DVec3, sqrt: real -> real): DVec3
    requires Length(v, sqrt) != 0.0
  {
    var len := Length(v, sqrt);
    DVec3(v.x / len, v.y / len, v.z / len)
  }

  /**
   * Scaling a vector by `t` scales its squared length by `t * t`; in
   * particular `t * n` has squared length `t * t` exactly when `n` has
   * squared length 1 or `t` is zero.
   */
  lemma LengthSquaredScale(n: DVec3, t: real)
    ensures LengthSquared(Mult(n, t)) - t * t == (t * t) * (LengthSquared(n) - 1.0)
  {
  }

  /**
   * If `sqrt` returns a value whose square is the squared length, normalizing
   * yields a vector that scales back to the input and has squared length 1.
   */
  lemma NormalizeUnit(v: DVec3, sqrt: real -> real)
    requires Length(v, sqrt) != 0.0
    requires Length(v, sqrt) * Length(v, sqrt) == LengthSquared(v)
    ensures Mult(Normalize(v, sqrt), Length(v, sqrt)) == v
    ensures LengthSquared(Normalize(v, sqrt)) == 1.0
  {
    var len := Length(v, sqrt);
    var n := Normalize(v, sqrt);
    QuotientTimes(v.x, len);
    QuotientTimes(v.y, len);
    QuotientTimes(v.z, len);
    assert Mult(n, len) == v;
    LengthSquaredScale(n, len);
    SquareFactorZero(len, LengthSquared(n) - 1.0);
  }

  lemma QuotientTimes(a: real, d: real)
    requires d != 0.0
    ensures (a / d) * d == a
  {
  }

  lemma FactorZero(d: real, e: real)
    requires d != 0.0
    requires d * e == 0.0
    ensures e == 0.0
  {
  }

  lemma SquareFactorZero(d: real, e: real)
    requires d != 0.0
    requires (d * d) * e == 0.0
    ensures e == 0.0
  {
    FactorZero(d, d * e);
    FactorZero(d, e);
  }

  /** `dvec3_normalize_to`: the length is computed before any slot of `out` is written. */
  method NormalizeTo(out: DVec3Ref, v: DVec3Ref, sqrt: real -> real)
    requires Length(v.Value(), sqrt) != 0.0
    modifies out
    ensures out.Value() == Normalize(old(v.Value()), sqrt)
  {
    var len := Length(v.Value(), sqrt);
    out.x := v.x / len;
    out.y := v.y / len;
    out.z := v.z / len;
  }

  /** `dvec3_normalize_inplace`. */
  method NormalizeInPlace(v: DVec3Ref, sqrt: real -> real)
    requires Length(v.Value(), sqrt) != 0.0
    modifies v
    ensures v.Value() == Normalize(old(v.Value()), sqrt)
  {
    var len := Length(v.Value(), sqrt);
    v.x := v.x / len;
    v.y := v.y / len;
    v.z := v.z / len;
  }

  // --------------------------------------------------------------- cross product

  /** `dvec3_cross`: the right-handed cross product `a x b`. */
  function Cross(a: DVec3, b: DVec3): DVec3
  {
    DVec3(a.y * b.z - a.z * b.y,
          a.z * b.x - a.x * b.z,
          a.x * b.y - a.y * b.x)
  }

  /** The cross product is orthogonal to both of its factors. */
  lemma CrossOrthogonal(a: DVec3, b: DVec3)
    ensures Dot(Cross(a, b), a) == 0.0
    ensures Dot(Cross(a, b), b) == 0.0
  {
  }

  /** The cross product anticommutes and vanishes on equal factors. */
  lemma CrossAnticommutes(a: DVec3, b: DVec3)
    ensures Cross(a, b) == Neg(Cross(b, a))
    ensures Cross(a, a) == Zero()
  {
  }

  /** A vector equals its negation exactly when it is zero. */
  lemma NegFixedPoint(c: DVec3)
    ensures Neg(c) == c <==> c == Zero()
  {
  }

  /**
   * The as-written `cross_to` result `-(v x u)` agrees with `v x u` only
   * when the cross product vanishes, i.e. for parallel operands.
   */
  lemma CrossToAsWrittenDiffers(v: DVec3, u: DVec3)
    ensures Neg(Cross(v, u)) == Cross(v, u) <==> Cross(v, u) == Zero()
  {
    NegFixedPoint(Cross(v, u));
  }

  /**
   * `dvec3_cross_to(out, v, u)` as written: its three slots are the
   * components of `u x v`, the operands in the opposite order from
   * `dvec3_cross(v, u)`. The slots are written one after the other from
   * the live fields, so the result is stated for an `out` distinct from
   * both operands.
   */
  method CrossToAsWritten(out: DVec3Ref, v: DVec3Ref, u: DVec3Ref)
    modifies out
    ensures out != v && out != u ==> out.Value() == Cross(old(u.Value()), old(v.Value()))
    ensures out != v && out != u ==> out.Value() == Neg(Cross(old(v.Value()), old(u.Value())))
  {
    out.x := u.y * v.z - u.z * v.y;
    out.y := u.z * v.x - u.x * v.z;
    out.z := u.x * v.y - u.y * v.x;
    if out != v && out != u {
      CrossAnticommutes(old(u.Value()), old(v.Value()));
    }
  }

  /**
   * `dvec3_cross_to` as evidently intended: stores `v x u`, agreeing with `Cross(v, u)`, and
   * computes the product before writing so `out` may alias an operand.
   */
  method CrossTo(out: DVec3Ref, v: DVec3Ref, u: DVec3Ref)
    modifies out
    ensures out.Value() == Cross(old(v.Value()), old(u.Value()))
  {
    var c := Cross(v.Value(), u.Value());
    out.x, out.y, out.z := c.x, c.y, c.z;
  }

  // ------------------------------------------------------- negation, hadamard

  function Neg(v: DVec3): DVec3
  {
    DVec3(-v.x, -v.y, -v.z)
  }

  /** Negation is an involution and the additive inverse. */
  lemma NegInvolution(v: DVec3)
    ensures Neg(Neg(v)) == v
    ensures Add(v, Neg(v)) == Zero()
  {
  }

  /** `dvec3_neg_to`. */
  method NegTo(out: DVec3Ref, v: DVec3Ref)
    modifies out
    ensures out.Value() == Neg(old(v.Value()))
  {
    out.x := -v.x;
    out.y := -v.y;
    out.z := -v.z;
  }

  /** `dvec3_neg_inplace`. */
  method NegInPlace(v: DVec3Ref)
    modifies v
    ensures v.Value() == Neg(old(v.Value()))
  {
    v.x := -v.x;
    v.y := -v.y;
    v.z := -v.z;
  }

  /** `dvec3_hadamard(u, v)`: component-wise product (computed as `v * u`). */
  function Hadamard(u: DVec3, v: DVec3): DVec3
  {
    DVec3(v.x * u.x, v.y * u.y, v.z * u.z)
  }

  /** The component-wise product is commutative and has `One()` as unit. */
  lemma HadamardCommutes(u: DVec3, v: DVec3)
    ensures Hadamard(u, v) == Hadamard(v, u)
    ensures Hadamard(u, One()) == u
  {
  }

  // ----------------------------------------------------------------- reflection

  /** `dvec3_reflect`: `v - 2 * dot(v, n) * n`. */
  function Reflect(v: DVec3, n: DVec3): DVec3
  {
    var k := 2.0 * (v.x * n.x + v.y * n.y + v.z * n.z);
    DVec3(v.x - k * n.x, v.y - k * n.y, v.z - k * n.z)
  }

  /** The formula the source's comment gives, in terms of the other operations. */
  lemma ReflectFormula(v: DVec3, n: DVec3)
    ensures Reflect(v, n) == Sub(v, Mult(n, 2.0 * Dot(v, n)))
  {
    var k := 2.0 * Dot(v, n);
    assert Reflect(v, n) == DVec3(v.x - k * n.x, v.y - k * n.y, v.z - k * n.z);
    assert Mult(n, k) == DVec3(k * n.x, k * n.y, k * n.z);
  }

  /**
   * For a unit normal the reflection flips the normal component, keeps the
   * squared length, and reflecting twice gives the vector back.
   */
  lemma ReflectUnitNormal(v: DVec3, n: DVec3)
    requires Dot(n, n) == 1.0
    ensures Dot(Reflect(v, n), n) == -Dot(v, n)
    ensures Reflect(Reflect(v, n), n) == v
    ensures LengthSquared(Reflect(v, n)) == LengthSquared(v)
  {
    ReflectFlipsNormal(v, n);
    ReflectKeepsLength(v, n);
  }

  /** The normal component of the reflection is the negated normal component. */
  lemma ReflectFlipsNormal(v: DVec3, n: DVec3)
    requires Dot(n, n) == 1.0
    ensures Dot(Reflect(v, n), n) == -Dot(v, n)
  {
    var d := Dot(v, n);
    var r := Reflect(v, n);
    assert r == DVec3(v.x - 2.0 * d * n.x, v.y - 2.0 * d * n.y, v.z - 2.0 * d * n.z);
    calc {
      Dot(r, n);
      d - 2.0 * d * (n.x * n.x + n.y * n.y + n.z * n.z);
      d - 2.0 * d * Dot(n, n);
      -d;
    }
  }

  /** The reflection keeps the squared length. */
  lemma ReflectKeepsLength(v: DVec3, n: DVec3)
    requires Dot(n, n) == 1.0
    ensures LengthSquared(Reflect(v, n)) == LengthSquared(v)
  {
    var d := Dot(v, n);
    var r := Reflect(v, n);
    assert r == DVec3(v.x - 2.0 * d * n.x, v.y - 2.0 * d * n.y, v.z - 2.0 * d * n.z);
    calc {
      LengthSquared(r);
      LengthSquared(v) - 4.0 * d * d + 4.0 * d * d * (n.x * n.x + n.y * n.y + n.z * n.z);
      LengthSquared(v) - 4.0 * d * d + 4.0 * d * d * Dot(n, n);
      LengthSquared(v);
    }
  }
}
