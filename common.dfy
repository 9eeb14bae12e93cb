/**
 * Scalar helpers of the rmath kernel (Core/rmath/src/common.c).
 *
 * `double` is modelled by `real`, so every statement below is exact; IEEE
 * rounding, NaN and infinities are not represented. The `float` twins
 * (`sr_f*`) evaluate the same expressions and coincide with these functions
 * over the reals. The hash works on 32-bit unsigned words, modelled by `bv32`,
 * whose multiplication wraps around modulo 2^32 exactly as `uint32_t` does.
 */
module Common {

  /** `sr_dabs`: the magnitude of `x`. */
  function Abs(x: real): (r: real)
    ensures r >= 0.0
    ensures r == x || r == -x
  {
    if x < 0.0 then -x else x
  }

  /**
   * `sr_dclamp`: below `lo` gives `lo`, above `hi` gives `hi`, otherwise `x`.
   * The lower bound is tested first, so with `lo > hi` the result is one of
   * the two bounds.
   */
  function Clamp(x: real, lo: real, hi: real): (r: real)
    ensures r == x || r == lo || r == hi
    ensures lo <= hi ==> lo <= r <= hi
    ensures lo <= x <= hi ==> r == x
    ensures lo > hi ==> r == lo || r == hi
  {
    if x < lo then lo else if x > hi then hi else x
  }

  /** Clamping is idempotent whenever the bounds are ordered. */
  lemma ClampIdempotent(x: real, lo: real, hi: real)
    requires lo <= hi
    ensures Clamp(Clamp(x, lo, hi), lo, hi) == Clamp(x, lo, hi)
  {
  }

  /** `sr_dsaturate`: clamp to the unit interval. */
  function Saturate(x: real): (r: real)
    ensures 0.0 <= r <= 1.0
    ensures 0.0 <= x <= 1.0 ==> r == x
    ensures x < 0.0 ==> r == 0.0
    ensures x > 1.0 ==> r == 1.0
  {
    Clamp(x, 0.0, 1.0)
  }

  /** `sr_dlerp`: linear interpolation `a + t * (b - a)`. */
  function Lerp(a: real, b: real, t: real): (r: real)
    ensures t == 0.0 ==> r == a
    ensures t == 1.0 ==> r == b
  {
    a + t * (b - a)
  }

  /** For `t` in the unit interval the interpolant lies between its end points. */
  lemma LerpBetween(a: real, b: real, t: real)
    requires 0.0 <= t <= 1.0
    requires a <= b
    ensures a <= Lerp(a, b, t) <= b
  {
    ProductNonNegative(t, b - a);
    ProductNonNegative(1.0 - t, b - a);
    assert (1.0 - t) * (b - a) == (b - a) - t * (b - a);
  }

  /**
   * `sr_dsmoothstep`: Hermite smoothing `t * t * (3 - 2 * t)` of the clamped
   * ratio. The source divides by `edge1 - edge0` without a check; over the
   * reals that quotient exists only for distinct edges.
   */
  function SmoothStep(edge0: real, edge1: real, x: real): (r: real)
    requires edge0 != edge1
    ensures 0.0 <= r <= 1.0
    ensures (x - edge0) / (edge1 - edge0) <= 0.0 ==> r == 0.0
    ensures (x - edge0) / (edge1 - edge0) >= 1.0 ==> r == 1.0
  {
    var t := Clamp((x - edge0) / (edge1 - edge0), 0.0, 1.0);
    HermiteUnit(t);
    t * t * (3.0 - 2.0 * t)
  }

  lemma ProductNonNegative(x: real, y: real)
    requires x >= 0.0 && y >= 0.0
    ensures x * y >= 0.0
  {
  }

  /** The Hermite polynomial maps the unit interval into itself. */
  lemma HermiteUnit(t: real)
    requires 0.0 <= t <= 1.0
    ensures 0.0 <= t * t * (3.0 - 2.0 * t) <= 1.0
  {
    ProductNonNegative(t, t);
    ProductNonNegative(t * t, 3.0 - 2.0 * t);
    ProductNonNegative(1.0 - t, 1.0 - t);
    ProductNonNegative((1.0 - t) * (1.0 - t), 1.0 + 2.0 * t);
    assert 1.0 - t * t * (3.0 - 2.0 * t) == (1.0 - t) * (1.0 - t) * (1.0 + 2.0 * t);
  }

  /** `sr_dsign`: the C expression `(x > 0) - (x < 0)` on booleans-as-ints. */
  function Sign(x: real): (r: int)
    ensures r == 1 <==> x > 0.0
    ensures r == -1 <==> x < 0.0
    ensures r == 0 <==> x == 0.0
  {
    (if x > 0.0 then 1 else 0) - (if x < 0.0 then 1 else 0)
  }

  /** `sr_dmin`. */
  function Min(a: real, b: real): (r: real)
    ensures r <= a && r <= b
    ensures r == a || r == b
  {
    if a < b then a else b
  }

  /** `sr_dmax`. */
  function Max(a: real, b: real): (r: real)
    ensures r >= a && r >= b
    ensures r == a || r == b
  {
    if a > b then a else b
  }

  /** The minimum never exceeds the maximum, and together they are the two inputs. */
  lemma MinLeMax(a: real, b: real)
    ensures Min(a, b) <= Max(a, b)
    ensures Min(a, b) + Max(a, b) == a + b
  {
  }

  /** `sr_dequal`: strict epsilon comparison `|a - b| < eps`. */
  function Equal(a: real, b: real, eps: real): (r: bool)
    ensures r ==> -eps < a - b < eps
    ensures r <== -eps < a - b < eps
  {
    Abs(a - b) < eps
  }

  /** `sr_dzero`: `|x| < eps`. */
  function IsZero(x: real, eps: real): (r: bool)
    ensures r <==> -eps < x < eps
  {
    Abs(x) < eps
  }

  /** Epsilon equality is symmetric, and "zero" is equality with 0. */
  lemma EqualSymmetric(a: real, b: real, eps: real)
    ensures Equal(a, b, eps) == Equal(b, a, eps)
    ensures IsZero(a, eps) == Equal(a, 0.0, eps)
  {
  }

  /** `sr_ddeg_to_rad`. */
  function DegToRad(deg: real): real
  {
    deg * 0.017453292519943295
  }

  /** `sr_drad_to_deg`. */
  function RadToDeg(rad: real): real
  {
    rad * 57.29577951308232
  }

  /**
   * The two conversion constants are reciprocal only up to their last
   * decimal digit: a round trip moves a value by less than `|x| / 10^15`.
   */
  lemma DegRadRoundTrip(x: real)
    ensures Abs(RadToDeg(DegToRad(x)) - x) <= Abs(x) / 1000000000000000.0
  {
    var k := 0.017453292519943295 * 57.29577951308232;
    assert RadToDeg(DegToRad(x)) - x == x * (k - 1.0);
    assert -1.0 / 1000000000000000.0 <= k - 1.0 <= 1.0 / 1000000000000000.0;
    if x >= 0.0 {
      assert x * (k - 1.0) <= x / 1000000000000000.0;
      assert x * (k - 1.0) >= -x / 1000000000000000.0;
    } else {
      assert x * (k - 1.0) <= -x / 1000000000000000.0;
      assert x * (k - 1.0) >= x / 1000000000000000.0;
    }
  }

  /**
   * `sr_hash_u32`: two rounds of xor-shift by 16 followed by a wrapping
   * multiplication with 0x45d9f3b, then a final xor-shift.
   */
  function HashU32(x: bv32): bv32
  {
    var x1 := ((x >> 16) ^ x) * 0x45d9f3b;
    var x2 := ((x1 >> 16) ^ x1) * 0x45d9f3b;
    (x2 >> 16) ^ x2
  }

  /** Zero is a fixed point of the hash; other words are scattered. */
  lemma HashValues()
    ensures HashU32(0) == 0
    ensures HashU32(1) == 0x31251ba7
    ensures HashU32(2) == 0x66a79298
    ensures HashU32(0xffff_ffff) == 0x2028884f
  {
  }
}
