# rmath double-precision kernel in Dafny

A model of the double-precision core of the `rmath` library:

- **4x4 matrices** (`mat4_double.c`): the index helper, get/set, the constructors, element-wise arithmetic in its value, `_to` and `_inplace` forms, the matrix product, the matrix-vector product, the transpose, the determinant, the inverse and the translation/scale/TRS/orthographic builders.
- **Vectors** (`vec3_double.c`, `vec4_double.c`): construction, three-form arithmetic, dot, cross, negation, Hadamard product, reflection and normalization.
- **Scalar helpers** (`common.c`): clamp, saturate, lerp, smoothstep, sign, min/max, epsilon comparison, degree/radian conversion and the 32-bit hash.

Files and modules:

| file | module | contents |
|---|---|---|
| `common.dfy` | `Common` | scalar helpers as functions; `sr_hash_u32` on `bv32` |
| `vec3_double.dfy` | `Vec3` | `DVec2`, `DVec3` values; `DVec3Ref` caller storage for the `_to`/`_inplace` forms |
| `vec4_double.dfy` | `Vec4` | `DVec4` value; `DVec4Ref` caller storage |
| `mat4_double.dfy` | `Mat4` | `Mat4` = sixteen-slot `seq<real>`; caller storage is `array<real>` of length 16; everything but the determinant and the inverse |
| `mat4_inverse.dfy` | `Mat4Inverse` | `_det3x3`, the determinant, the inverse, and the proof that the corrected inverse is a two-sided inverse |

How the C code is modelled:

- `double` is `real`, so the algebraic statements are exact. Rounding is not modelled.
- A value-returning C function that is a single expression is a Dafny `function`.
- A C function that fills a matrix in loops is a `method` with the same loops and their invariants. It is proved equal to a specification function: `Sum`, `Product`, `Transposed`, `Det`, `CofactorInverse` and so on. The algebraic facts are lemmas about those functions.
- A `_to` or `_inplace` form writes caller storage. For a vector that storage is a `DVec3Ref`/`DVec4Ref` object; for a matrix it is an `array<real>`. Each method states the new contents in terms of the old ones, so aliasing between `out` and the operands is covered.
- The `dmat4` union makes `elem[c*4 + r]` component `r` of `cols[c]`. `Column`, `Row` and `Get` read a `Mat4` that way.
- `sqrt` is a parameter `sqrt: real -> real` and is never interpreted. The unit-length statements assume only that the value `sqrt` returns squares back to its argument.

## Model

| member | source | states |
|---|---|---|
| Common.Abs | Core/rmath/src/common.c:51 | the result is non-negative and is `x` or `-x` |
| Common.Clamp | Core/rmath/src/common.c:33-36 | the result is `x`, `lo` or `hi`; it lies in `[lo, hi]` when `lo <= hi` and equals `x` inside the range; with `lo > hi` it is one of the bounds |
| Common.ClampIdempotent | Core/rmath/src/common.c:33-36 | clamping twice with ordered bounds equals clamping once |
| Common.Saturate | Core/rmath/src/common.c:38 | the result always lies in `[0, 1]`, is `x` inside, 0 below and 1 above |
| Common.Lerp | Core/rmath/src/common.c:39 | `t = 0` gives `a` and `t = 1` gives `b` |
| Common.LerpBetween | Core/rmath/src/common.c:39 | for `t` in `[0, 1]` and `a <= b` the interpolant lies in `[a, b]` |
| Common.SmoothStep | Core/rmath/src/common.c:40-44 | for distinct edges the result lies in `[0, 1]`; it is 0 at or below the lower edge ratio and 1 at or above the upper one |
| Common.HermiteUnit | Core/rmath/src/common.c:43 | `t*t*(3 - 2t)` maps `[0, 1]` into `[0, 1]` |
| Common.Sign | Core/rmath/src/common.c:46 | 1 exactly for positive, -1 exactly for negative, 0 exactly for zero |
| Common.Min | Core/rmath/src/common.c:52 | a lower bound of both inputs and one of them |
| Common.Max | Core/rmath/src/common.c:53 | an upper bound of both inputs and one of them |
| Common.MinLeMax | Core/rmath/src/common.c:52-53 | `min <= max`, and their sum is `a + b`, so between them they return both inputs |
| Common.Equal | Core/rmath/src/common.c:59 | true exactly when `-eps < a - b < eps` |
| Common.IsZero | Core/rmath/src/common.c:61 | true exactly when `-eps < x < eps` |
| Common.EqualSymmetric | Core/rmath/src/common.c:59-61 | epsilon equality is symmetric, and the zero test is equality with 0 |
| Common.DegToRad | Core/rmath/src/common.c:48 | degrees times the constant 0.017453292519943295 of the source |
| Common.RadToDeg | Core/rmath/src/common.c:49 | radians times the constant 57.29577951308232 of the source |
| Common.HashU32 | Core/rmath/src/common.c:71-77 | two rounds of xor-shift by 16 and a multiplication by 0x45d9f3b wrapping at 2^32, then a final xor-shift; its values are fixed by `HashValues` |
| Common.DegRadRoundTrip | Core/rmath/src/common.c:48-49 | converting degrees to radians and back moves a value by at most `|x| / 10^15` |
| Common.HashValues | Core/rmath/src/common.c:71-77 | with 32-bit wrap-around, 0 hashes to 0, and 1, 2 and `0xffffffff` hash to the stated words |
| Vec3.Zero | Core/rmath/src/types/vec3_double.c:6 | the vector (0, 0, 0) |
| Vec3.One | Core/rmath/src/types/vec3_double.c:7 | the vector (1, 1, 1) |
| Vec3.Uniform | Core/rmath/src/types/vec3_double.c:25-28 | the value in all three components |
| Vec3.Add | Core/rmath/src/types/vec3_double.c:64-67 | the component-wise sum; `AddSubInverse` is its inverse law |
| Vec3.Sub | Core/rmath/src/types/vec3_double.c:83-89 | the component-wise difference |
| Vec3.Mult | Core/rmath/src/types/vec3_double.c:105-108 | every component times `t` |
| Vec3.Div | Core/rmath/src/types/vec3_double.c:124-127 | every component over a non-zero `t`; `DivUndoesMult` relates it to `Mult` |
| Vec3.Dot | Core/rmath/src/types/vec3_double.c:180-185 | the sum of the component products; symmetric by `DotSymmetric` |
| Vec3.LengthSquared | Core/rmath/src/types/vec3_double.c:142-145 | `x*x + y*y + z*z`, the self dot product |
| Vec3.Length | Core/rmath/src/types/vec3_double.c:147-150 | `sqrt` of the squared length |
| Vec3.Distance | Core/rmath/src/types/vec3_double.c:229-235 | `sqrt` of the squared length of `a - b`; symmetric by `DistanceSymmetric` |
| Vec3.Normalize | Core/rmath/src/types/vec3_double.c:152-160 | every component over the length, which must be non-zero; `NormalizeUnit` gives it unit squared length |
| Vec3.Cross | Core/rmath/src/types/vec3_double.c:187-193 | the cross product; orthogonal to both operands by `CrossOrthogonal` |
| Vec3.Neg | Core/rmath/src/types/vec3_double.c:202-205 | every component negated |
| Vec3.Hadamard | Core/rmath/src/types/vec3_double.c:221-227 | the component-wise product |
| Vec3.Reflect | Core/rmath/src/types/vec3_double.c:237-246 | `v - k n` with `k = 2 dot(v, n)`; properties in `ReflectUnitNormal` |
| Vec3.FromDVec2 | Core/rmath/src/types/vec3_double.c:35-38 | x and y are copied and z is 0 |
| Vec3.ZeroTo | Core/rmath/src/types/vec3_double.c:8-13 | the vector becomes zero |
| Vec3.ConstructTo | Core/rmath/src/types/vec3_double.c:20-23 | `out` holds the three given components |
| Vec3.UniformTo | Core/rmath/src/types/vec3_double.c:30-33 | `out` holds the value in every slot |
| Vec3.Copy | Core/rmath/src/types/vec3_double.c:41-46 | `out` holds what `src` held, also when they are the same vector |
| Vec3.AddSubInverse | Core/rmath/src/types/vec3_double.c:64-89 | subtraction undoes addition and the other way round |
| Vec3.DivUndoesMult | Core/rmath/src/types/vec3_double.c:105-127 | dividing by a non-zero `t` undoes scaling by it |
| Vec3.AddTo | Core/rmath/src/types/vec3_double.c:69-74 | `out` holds `dvec3_add` of the old operands, whatever aliases `out` |
| Vec3.AddInPlace | Core/rmath/src/types/vec3_double.c:76-81 | `a` becomes `a + b` and nothing else changes |
| Vec3.SubTo | Core/rmath/src/types/vec3_double.c:91-96 | `out` holds `dvec3_sub` of the old operands |
| Vec3.SubInPlace | Core/rmath/src/types/vec3_double.c:98-103 | `a` becomes `a - b` |
| Vec3.AddThenSubRestores | Core/rmath/src/types/vec3_double.c:76-103 | `add_inplace` then `sub_inplace` by a distinct `b` restores `a` |
| Vec3.MultTo | Core/rmath/src/types/vec3_double.c:110-115 | `out` holds `dvec3_mult` of the old vector |
| Vec3.MultInPlace | Core/rmath/src/types/vec3_double.c:117-122 | `v` becomes `v * t` |
| Vec3.DivTo | Core/rmath/src/types/vec3_double.c:128-133 | for `t != 0`, `out` holds `dvec3_div` of the old vector |
| Vec3.DivInPlace | Core/rmath/src/types/vec3_double.c:135-140 | for `t != 0`, `v` becomes `v / t` |
| Vec3.DotSymmetric | Core/rmath/src/types/vec3_double.c:180-185 | the dot product is symmetric, and the squared length is the self dot product |
| Vec3.LengthSquaredNonNegative | Core/rmath/src/types/vec3_double.c:142-145 | the squared length is never negative and is 0 for the zero vector |
| Vec3.LengthSquaredNeg | Core/rmath/src/types/vec3_double.c:142-145 | negation keeps the squared length |
| Vec3.DistanceSymmetric | Core/rmath/src/types/vec3_double.c:229-235 | `distance(a, b) == distance(b, a)` for any `sqrt` |
| Vec3.LengthSquaredScale | Core/rmath/src/types/vec3_double.c:142-145 | scaling by `t` scales the squared length by `t*t` |
| Vec3.NormalizeUnit | Core/rmath/src/types/vec3_double.c:152-160 | for a non-zero length whose square is the squared length, the normalized vector times the length is the input, and it has squared length 1 |
| Vec3.NormalizeTo | Core/rmath/src/types/vec3_double.c:162-169 | `out` holds `dvec3_normalize` of the old vector, also when `out` is `v` |
| Vec3.NormalizeInPlace | Core/rmath/src/types/vec3_double.c:171-178 | `v` becomes `dvec3_normalize(v)` |
| Vec3.CrossOrthogonal | Core/rmath/src/types/vec3_double.c:187-193 | `a x b` is orthogonal to `a` and to `b` |
| Vec3.CrossAnticommutes | Core/rmath/src/types/vec3_double.c:187-193 | `a x b == -(b x a)` and `a x a == 0` |
| Vec3.CrossToAsWritten | Core/rmath/src/types/vec3_double.c:195-200 | for an `out` distinct from both operands, `cross_to(out, v, u)` stores `u x v`, which is `-(v x u)` |
| Vec3.CrossToAsWrittenDiffers | Core/rmath/src/types/vec3_double.c:187-200 | the as-written result equals `dvec3_cross(v, u)` exactly when the cross product is zero |
| Vec3.CrossTo | Core/rmath/src/types/vec3_double.c:195-200 | the corrected `cross_to` stores `dvec3_cross(v, u)`, whatever aliases `out` |
| Vec3.NegFixedPoint | Core/rmath/src/types/vec3_double.c:202-205 | a vector is its own negation exactly when it is zero |
| Vec3.NegInvolution | Core/rmath/src/types/vec3_double.c:202-205 | negation is an involution and the additive inverse |
| Vec3.NegTo | Core/rmath/src/types/vec3_double.c:207-212 | `out` holds `dvec3_neg` of the old vector |
| Vec3.NegInPlace | Core/rmath/src/types/vec3_double.c:214-219 | `v` becomes `-v` |
| Vec3.HadamardCommutes | Core/rmath/src/types/vec3_double.c:221-227 | the component-wise product is commutative with `(1, 1, 1)` as unit |
| Vec3.ReflectFormula | Core/rmath/src/types/vec3_double.c:237-246 | the reflection is `v - 2 dot(v, n) n`, the formula in the source's comment |
| Vec3.ReflectUnitNormal | Core/rmath/src/types/vec3_double.c:237-246 | for a unit normal, the reflection negates the normal component, keeps the squared length, and reflecting twice gives `v` back |
| Vec3.ReflectFlipsNormal | Core/rmath/src/types/vec3_double.c:237-246 | for a unit normal, `dot(reflect(v, n), n) == -dot(v, n)` |
| Vec3.ReflectKeepsLength | Core/rmath/src/types/vec3_double.c:237-246 | for a unit normal, the reflection keeps the squared length |
| Vec4.Zero | Core/rmath/src/types/vec4_double.c:8 | the vector (0, 0, 0, 0) |
| Vec4.One | Core/rmath/src/types/vec4_double.c:9 | the vector (1, 1, 1, 1) |
| Vec4.Uniform | Core/rmath/src/types/vec4_double.c:19 | the value in all four components |
| Vec4.Add | Core/rmath/src/types/vec4_double.c:58-61 | the component-wise sum |
| Vec4.Sub | Core/rmath/src/types/vec4_double.c:78-81 | the component-wise difference |
| Vec4.Neg | Core/rmath/src/types/vec4_double.c:176 | every component negated |
| Vec4.Mult | Core/rmath/src/types/vec4_double.c:98-101 | every component times `s` |
| Vec4.Div | Core/rmath/src/types/vec4_double.c:117-120 | every component over a non-zero `s` |
| Vec4.Dot | Core/rmath/src/types/vec4_double.c:166-169 | the sum of the four component products |
| Vec4.LengthSquared | Core/rmath/src/types/vec4_double.c:137-140 | the self dot product |
| Vec4.Length | Core/rmath/src/types/vec4_double.c:141 | `sqrt` of the squared length |
| Vec4.Distance | Core/rmath/src/types/vec4_double.c:170-174 | `sqrt` of the sum of the squared component differences |
| Vec4.Normalize | Core/rmath/src/types/vec4_double.c:143-150 | every component over the non-zero length |
| Vec4.Hadamard | Core/rmath/src/types/vec4_double.c:193-196 | the component-wise product |
| Vec4.FromDVec3 | Core/rmath/src/types/vec4_double.c:21-24 | x, y and z are copied and w is 0 |
| Vec4.FromDVec2 | Core/rmath/src/types/vec4_double.c:26-29 | x and y are copied, and z and w are 0 |
| Vec4.FromDVec2ThroughDVec3 | Core/rmath/src/types/vec4_double.c:21-29 | widening a `dvec2` directly, or through a `dvec3`, gives the same vector |
| Vec4.ZeroTo | Core/rmath/src/types/vec4_double.c:10-16 | the vector becomes zero |
| Vec4.Copy | Core/rmath/src/types/vec4_double.c:32-38 | `out` holds what `src` held |
| Vec4.AddSubInverse | Core/rmath/src/types/vec4_double.c:58-81 | subtraction undoes addition and the other way round |
| Vec4.NegInvolution | Core/rmath/src/types/vec4_double.c:176 | negation is an involution and the additive inverse, and `a - b == a + (-b)` |
| Vec4.DivUndoesMult | Core/rmath/src/types/vec4_double.c:98-120 | dividing by a non-zero `s` undoes scaling by it |
| Vec4.AddTo | Core/rmath/src/types/vec4_double.c:62-68 | `out` holds `dvec4_add` of the old operands |
| Vec4.AddInPlaceAsWritten | Core/rmath/src/types/vec4_double.c:70-76 | as written, `a` ends up a copy of `b` |
| Vec4.AddInPlaceAsWrittenDiffers | Core/rmath/src/types/vec4_double.c:70-76 | that result equals `a + b` exactly when `a` is zero |
| Vec4.AddInPlace | Core/rmath/src/types/vec4_double.c:70-76 | the corrected form makes `a` into `a + b` |
| Vec4.SubTo | Core/rmath/src/types/vec4_double.c:82-88 | `out` holds `dvec4_sub` of the old operands |
| Vec4.SubInPlaceAsWritten | Core/rmath/src/types/vec4_double.c:90-96 | as written, `a` ends up `-b` |
| Vec4.SubInPlaceAsWrittenDiffers | Core/rmath/src/types/vec4_double.c:90-96 | that result equals `a - b` exactly when `a` is zero |
| Vec4.SubInPlace | Core/rmath/src/types/vec4_double.c:90-96 | the corrected form makes `a` into `a - b` |
| Vec4.AddThenSubRestores | Core/rmath/src/types/vec4_double.c:70-96 | with the corrected forms, adding then subtracting a distinct `b` restores `a` |
| Vec4.MultTo | Core/rmath/src/types/vec4_double.c:102-108 | `out` holds `dvec4_mult` of the old vector |
| Vec4.MultInPlace | Core/rmath/src/types/vec4_double.c:109-115 | `v` becomes `v * s` |
| Vec4.DivTo | Core/rmath/src/types/vec4_double.c:121-127 | for `s != 0`, `out` holds `dvec4_div` of the old vector |
| Vec4.DivInPlace | Core/rmath/src/types/vec4_double.c:129-135 | for `s != 0`, `v` becomes `v / s` |
| Vec4.DotSymmetric | Core/rmath/src/types/vec4_double.c:166-169 | the dot product is symmetric, and the squared length is the self dot product |
| Vec4.DotAdditive | Core/rmath/src/types/vec4_double.c:166-169 | the dot product distributes over a sum in its second argument |
| Vec4.DotHomogeneous | Core/rmath/src/types/vec4_double.c:166-169 | a scale factor in the second argument comes out of the dot product |
| Vec4.LengthSquaredNonNegative | Core/rmath/src/types/vec4_double.c:137-140 | the squared length is never negative and is 0 for the zero vector |
| Vec4.FromDVec3Products | Core/rmath/src/types/vec4_double.c:21-24 | widening with `w = 0` keeps dot products and squared lengths |
| Vec4.LengthSquaredNeg | Core/rmath/src/types/vec4_double.c:137-140 | negation keeps the squared length |
| Vec4.DistanceSymmetric | Core/rmath/src/types/vec4_double.c:170-174 | `distance(a, b) == distance(b, a)` for any `sqrt` |
| Vec4.DistanceIsLengthOfDifference | Core/rmath/src/types/vec4_double.c:170-174 | `distance(a, b) == length(a - b)` |
| Vec4.LengthSquaredScale | Core/rmath/src/types/vec4_double.c:137-140 | scaling by `t` scales the squared length by `t*t` |
| Vec4.NormalizeUnit | Core/rmath/src/types/vec4_double.c:143-150 | for a non-zero length whose square is the squared length, the normalized vector times the length is the input, and it has squared length 1 |
| Vec4.NormalizeSelf | Core/rmath/src/types/vec4_double.c:143-150 | `dvec4_normalize` divides every slot of `v` by its old length |
| Vec4.NormalizeTo | Core/rmath/src/types/vec4_double.c:151-158 | `out` holds the same normalized vector |
| Vec4.NormalizeInPlace | Core/rmath/src/types/vec4_double.c:160-164 | the length followed by `div_inplace` gives the same normalized vector |
| Vec4.NegTo | Core/rmath/src/types/vec4_double.c:177-183 | `out` holds `dvec4_neg` of the old vector |
| Vec4.NegInPlace | Core/rmath/src/types/vec4_double.c:185-191 | `v` becomes `-v` |
| Vec4.HadamardCommutes | Core/rmath/src/types/vec4_double.c:193-196 | the component-wise product is commutative with `(1, 1, 1, 1)` as unit |
| Vec4.HadamardTo | Core/rmath/src/types/vec4_double.c:198-201 | `out` holds `dvec4_hadamard` of the old operands |
| Mat4.IndexAsWritten | Core/rmath/src/types/mat4_double.c:12-14 | for row and column in 0..3 the slot is inside the sixteen slots exactly when the column is 0; any other column lands at 16 or beyond |
| Mat4.Index | Core/rmath/src/types/mat4_double.c:12-14 | the corrected index maps row `i`, column `j` into 0..15, with `i` as the slot mod 4 and `j` as the slot div 4 |
| Mat4.IndexOnto | Core/rmath/src/types/mat4_double.c:12-14 | every slot is the corrected index of exactly one position |
| Mat4.GetAsWritten | Core/rmath/src/types/mat4_double.c:76-78 | as written, a read within bounds is only possible in column 0, and it returns that column's component |
| Mat4.Get | Core/rmath/src/types/mat4_double.c:76-78 | the corrected read returns component `x` of column `y`, which is also component `y` of row `x` |
| Mat4.SetAsWritten | Core/rmath/src/types/mat4_double.c:80-82 | as written, the store goes to slot `y*16 + x`, which is in bounds only in column 0 |
| Mat4.Set | Core/rmath/src/types/mat4_double.c:80-82 | the corrected store changes the one position and keeps every other |
| Mat4.Zero | Core/rmath/src/types/mat4_double.c:32-34 | all sixteen slots 0 |
| Mat4.Identity | Core/rmath/src/types/mat4_double.c:17-22 | 1 on the diagonal and 0 elsewhere |
| Mat4.Diagonal | Core/rmath/src/types/mat4_double.c:55-60 | `s` on the diagonal and 0 elsewhere |
| Mat4.FromCols | Core/rmath/src/types/mat4_double.c:40-45 | the four columns are the four given vectors |
| Mat4.FromColsOfColumns | Core/rmath/src/types/mat4_double.c:40-45 | a matrix is rebuilt from its own columns |
| Mat4.ZeroTo | Core/rmath/src/types/mat4_double.c:36-38 | the storage becomes the zero matrix |
| Mat4.IdentityTo | Core/rmath/src/types/mat4_double.c:24-30 | the storage becomes the identity |
| Mat4.DiagonalTo | Core/rmath/src/types/mat4_double.c:62-68 | the storage becomes the diagonal matrix |
| Mat4.ConstructColsTo | Core/rmath/src/types/mat4_double.c:47-53 | the storage holds the four columns |
| Mat4.Copy | Core/rmath/src/types/mat4_double.c:70-72 | `out` holds what `src` held |
| Mat4.Assign | Core/rmath/src/types/mat4_double.c:239-242 | whole-value assignment `*out = m` stores `m` |
| Mat4.Sum | Core/rmath/src/types/mat4_double.c:88-100 | the slot-wise sum |
| Mat4.Difference | Core/rmath/src/types/mat4_double.c:122-134 | the slot-wise difference |
| Mat4.Scaled | Core/rmath/src/types/mat4_double.c:155-167 | every slot times `s` |
| Mat4.Divided | Core/rmath/src/types/mat4_double.c:189-201 | every slot over a non-zero `s` |
| Mat4.Add | Core/rmath/src/types/mat4_double.c:88-100 | the loop over all sixteen slots yields the slot-wise sum |
| Mat4.AddTo | Core/rmath/src/types/mat4_double.c:102-110 | `out` holds the slot-wise sum of the old operands, whatever aliases `out` |
| Mat4.AddInPlace | Core/rmath/src/types/mat4_double.c:112-120 | `a` becomes `a + b`, also when `b` is `a` |
| Mat4.Sub | Core/rmath/src/types/mat4_double.c:122-134 | the loop yields the slot-wise difference |
| Mat4.SubTo | Core/rmath/src/types/mat4_double.c:135-143 | `out` holds the slot-wise difference of the old operands |
| Mat4.SubInPlace | Core/rmath/src/types/mat4_double.c:145-153 | `a` becomes `a - b` |
| Mat4.MultScalar | Core/rmath/src/types/mat4_double.c:155-167 | the loop scales every slot by `s` |
| Mat4.MultScalarTo | Core/rmath/src/types/mat4_double.c:169-177 | `out` holds the old matrix scaled by `s` |
| Mat4.MultScalarInPlace | Core/rmath/src/types/mat4_double.c:179-187 | `a` becomes `s a` |
| Mat4.DivScalar | Core/rmath/src/types/mat4_double.c:189-201 | for `s != 0`, the loop divides every slot by `s` |
| Mat4.DivScalarTo | Core/rmath/src/types/mat4_double.c:203-211 | `out` holds the old matrix divided by `s` |
| Mat4.DivScalarInPlace | Core/rmath/src/types/mat4_double.c:213-221 | `a` becomes `a / s` |
| Mat4.SumDifferenceInverse | Core/rmath/src/types/mat4_double.c:88-153 | subtraction undoes addition, and addition is commutative |
| Mat4.DividedUndoesScaled | Core/rmath/src/types/mat4_double.c:189-201 | dividing by a non-zero `s` undoes scaling by it, and the scaled identity is the diagonal matrix |
| Mat4.Product | Core/rmath/src/types/mat4_double.c:223-237 | slot `i*4+j` holds the sum over `k` of `a[i*4+k] * b[k*4+j]`, as the loop indexes it |
| Mat4.PartialDotComplete | Core/rmath/src/types/mat4_double.c:229-233 | after four steps the inner `sum` loop holds the product slot |
| Mat4.Mult | Core/rmath/src/types/mat4_double.c:223-237 | the triple loop yields `Product(a, b)`, whose slot `i*4+j` is `sum over k of a[i*4+k] * b[k*4+j]` |
| Mat4.MultTo | Core/rmath/src/types/mat4_double.c:239-242 | `out` holds the product of the old operands, whatever aliases `out` |
| Mat4.MultInPlace | Core/rmath/src/types/mat4_double.c:244-248 | `a` becomes the product, also when `b` is `a` |
| Mat4.ProductIdentity | Core/rmath/src/types/mat4_double.c:223-237 | the identity is a left and a right unit of the product |
| Mat4.UnitDot | Core/rmath/src/types/mat4_double.c:17-22 | the identity's columns are its rows, and they pick a component out of a dot product |
| Mat4.MulVec4 | Core/rmath/src/types/mat4_double.c:250-258 | the columns of `m` weighted by the components of `v` and summed |
| Mat4.MulVec4To | Core/rmath/src/types/mat4_double.c:250-262 | `out` holds `m` applied to the old vector |
| Mat4.MulVec4Expanded | Core/rmath/src/types/mat4_double.c:250-258 | each component is the sum over the columns, weighted by `v`, as the source writes it |
| Mat4.MulVec4Identity | Core/rmath/src/types/mat4_double.c:250-258 | the identity fixes every vector |
| Mat4.MulVec4Columns | Core/rmath/src/types/mat4_double.c:250-258 | `M v` is the combination of the columns of `M` weighted by the components of `v` |
| Mat4.MulVec4Linear | Core/rmath/src/types/mat4_double.c:250-258 | `M v` is linear in `v` |
| Mat4.MulVec4Additive | Core/rmath/src/types/mat4_double.c:250-258 | `M (p + q) == M p + M q` |
| Mat4.MulVec4Homogeneous | Core/rmath/src/types/mat4_double.c:250-258 | `M (t p) == t (M p)` |
| Mat4.ProductColumn | Core/rmath/src/types/mat4_double.c:223-258 | column `c` of `dmat4_mult(a, b)` is `b` applied to column `c` of `a` |
| Mat4.MulVec4Product | Core/rmath/src/types/mat4_double.c:223-258 | `mult_vec4(mult(a, b), v) == mult_vec4(b, mult_vec4(a, v))`: the loop composes `b * a` |
| Mat4.ProductOrderCounterexample | Core/rmath/src/types/mat4_double.c:223-258 | for two shears the stored product sends (1, 0, 0, 0) to (1, 1, 0, 0), while `a * b` sends it to (2, 1, 0, 0) |
| Mat4.Compose | Core/rmath/src/types/mat4_double.c:223-237 | the product `a * b` the header promises, read column-major: slot `j*4+i` holds row `i` of `a` against column `j` of `b` |
| Mat4.ComposeIsSwappedProduct | Core/rmath/src/types/mat4_double.c:223-237 | the column-major product `a * b` is the loop's product with its operands exchanged |
| Mat4.MulVec4Compose | Core/rmath/src/types/mat4_double.c:250-258 | the column-major product applies `b` first and then `a` |
| Mat4.Transposed | Core/rmath/src/types/mat4_double.c:270-276 | the columns of the transpose are the rows of `m` |
| Mat4.TransposeInvolution | Core/rmath/src/types/mat4_double.c:270-276 | transposing twice gives the matrix back |
| Mat4.TransposeProduct | Core/rmath/src/types/mat4_double.c:270-276 | the transpose of a product is the product of the transposes in reverse order |
| Mat4.RowOfTransposed | Core/rmath/src/types/mat4_double.c:270-276 | the rows of the transpose are the columns of `m` |
| Mat4.Transpose | Core/rmath/src/types/mat4_double.c:270-276 | the double loop writes every slot and yields the transpose |
| Mat4.TransposeTo | Core/rmath/src/types/mat4_double.c:278-281 | `out` holds the transpose of the old matrix, also when `out` is `m` |
| Mat4.TransposeInPlace | Core/rmath/src/types/mat4_double.c:283-287 | `m` becomes its transpose |
| Mat4.TranslationMatrix | Core/rmath/src/types/mat4_double.c:364-373 | the zero matrix with the offsets and 1 in column 3, as the builder stores them |
| Mat4.Translation | Core/rmath/src/types/mat4_double.c:364-373 | the builder yields the zero matrix with the offsets and 1 in column 3 (corrected index) |
| Mat4.TranslationTo | Core/rmath/src/types/mat4_double.c:375-377 | `out` holds that matrix |
| Mat4.TranslationDropsPoint | Core/rmath/src/types/mat4_double.c:364-373 | with a zero diagonal, the matrix sends `v` to the offset times `v.w`, with `w` kept, so the point itself is lost |
| Mat4.TranslationCounterexample | Core/rmath/src/types/mat4_double.c:364-373 | the zero offset moves the point (1, 0, 0) to the origin |
| Mat4.AffineTranslation | Core/rmath/src/types/mat4_double.c:364-373 | the identity with the offsets in column 3, the evidently intended translation |
| Mat4.AffineTranslationMovesPoint | Core/rmath/src/types/mat4_double.c:364-373 | the intended translation adds `w` times the offset to the point and keeps `w` |
| Mat4.ScaleMatrix | Core/rmath/src/types/mat4_double.c:379-388 | the zero matrix with `(s.x, s.y, s.z, 1)` on the diagonal |
| Mat4.Scale | Core/rmath/src/types/mat4_double.c:379-388 | the builder yields `(s.x, s.y, s.z, 1)` on the diagonal and 0 elsewhere |
| Mat4.ScaleTo | Core/rmath/src/types/mat4_double.c:390-392 | `out` holds that matrix |
| Mat4.ScaleMatrixScales | Core/rmath/src/types/mat4_double.c:379-388 | the scale multiplies x, y and z by their factors and keeps `w`; unit factors give the identity |
| Mat4.OrthoMatrix | Core/rmath/src/types/mat4_double.c:596-622 | the factors `2/(r-l)`, `2/(t-b)`, `-2/(f-n)` and 1 on the diagonal and the three offsets at positions (3, 0..2), the argument order the source uses |
| Mat4.OrthoTo | Core/rmath/src/types/mat4_double.c:596-622 | the sixteen stores, at the corrected index, leave the factors on the diagonal and the offsets at row 3, columns 0 to 2 |
| Mat4.Ortho | Core/rmath/src/types/mat4_double.c:586-594 | the result is what `ortho_to` stores |
| Mat4.OffsetsDisagree | Core/rmath/src/types/mat4_double.c:596-622 | ortho keeps its offsets in row 3, and translation keeps them in column 3 |
| Mat4.OrthoCounterexample | Core/rmath/src/types/mat4_double.c:596-622 | read by `mult_vec4`, the ortho matrix of the box [0,2] x [-1,1] x [-1,1] sends the near corner to x = 0, not -1 |
| Mat4.ColumnMajorOrtho | Core/rmath/src/types/mat4_double.c:596-622 | the same factors with the offsets in column 3, the evidently intended projection |
| Mat4.ColumnMajorOrthoTransposes | Core/rmath/src/types/mat4_double.c:596-622 | the intended projection is the transpose of the stored matrix |
| Mat4.ColumnMajorOrthoMapsBox | Core/rmath/src/types/mat4_double.c:596-622 | the intended projection maps the near corner of the box to (-1, -1, -1, 1) and the far corner to (1, 1, 1, 1) |
| Mat4.Trs | Core/rmath/src/types/mat4_double.c:465-479 | the identity, whatever the translation, rotation and scale |
| Mat4.TrsIgnoresInputs | Core/rmath/src/types/mat4_double.c:465-479 | the TRS matrix fixes every vector and does not depend on its inputs |
| Mat4.TrsTo | Core/rmath/src/types/mat4_double.c:481-487 | `out` holds the TRS matrix, the same matrix whatever the inputs |
| Mat4.DecomposeTrs | Core/rmath/src/types/mat4_double.c:490-496 | none of the three outputs changes |
| Mat4Inverse.Det3x3 | Core/rmath/src/types/mat4_double.c:292-297 | the rule of Sarrus on a row-by-row 3x3 matrix |
| Mat4Inverse.Det3x3Symmetries | Core/rmath/src/types/mat4_double.c:292-297 | the Sarrus determinant is unchanged by transposition and changes sign when two rows are exchanged |
| Mat4Inverse.Cofactor | Core/rmath/src/types/mat4_double.c:333-347 | `(-1)^(r+c)` times the 3x3 determinant of the minor without row `r` and column `c` |
| Mat4Inverse.Det | Core/rmath/src/types/mat4_double.c:299-316 | the alternating expansion along slots 0..3 with the 3x3 minors of the other rows; equal to the 24-term definition by `DetLeibniz` |
| Mat4Inverse.RowExpansion | Core/rmath/src/types/mat4_double.c:299-316 | row `i` against the cofactors of row `j` is the determinant when `i == j` and 0 otherwise |
| Mat4Inverse.ColumnExpansion | Core/rmath/src/types/mat4_double.c:299-316 | column `i` against the cofactors of column `j` is the determinant when `i == j` and 0 otherwise |
| Mat4Inverse.DetTermCofactor | Core/rmath/src/types/mat4_double.c:310 | the term for column `col` is the row-0 entry times its cofactor |
| Mat4Inverse.DetRowExpansion | Core/rmath/src/types/mat4_double.c:299-316 | the row-0 loop is row 0 of `m` against the cofactors of row 0 |
| Mat4Inverse.DetLeibniz | Core/rmath/src/types/mat4_double.c:299-316 | the expansion along row 0 equals the sum over the 24 permutations |
| Mat4Inverse.DetIdentityZero | Core/rmath/src/types/mat4_double.c:299-316 | det(identity) = 1 and det(zero) = 0 |
| Mat4Inverse.Row0Minor | Core/rmath/src/types/mat4_double.c:305-309 | the `idx` loops collect the minor without row 0 and column `col` |
| Mat4Inverse.ColumnTerm | Core/rmath/src/types/mat4_double.c:304-311 | one pass of the outer loop adds the signed entry times its minor's determinant |
| Mat4Inverse.Determinant | Core/rmath/src/types/mat4_double.c:299-316 | the loop with the flipping `sign` yields the expansion along row 0 |
| Mat4Inverse.BuildMinor | Core/rmath/src/types/mat4_double.c:336-345 | the `row`/`col` loops collect the minor without row `r` and column `c` |
| Mat4Inverse.CofactorEntry | Core/rmath/src/types/mat4_double.c:332-347 | the loop body stores the cofactor over the determinant |
| Mat4Inverse.FillCofactors | Core/rmath/src/types/mat4_double.c:330-349 | the two outer loops fill every slot with its entry |
| Mat4Inverse.CofactorsLoop | Core/rmath/src/types/mat4_double.c:330-349 | the loops as written yield the cofactor matrix over the determinant |
| Mat4Inverse.AdjugateLoop | Core/rmath/src/types/mat4_double.c:330-349 | the loops with the minor of row `j`, column `i` yield the adjugate over the determinant |
| Mat4Inverse.CofactorInverse | Core/rmath/src/types/mat4_double.c:321-351 | what `dmat4_inverse` returns: zero when `|det| < 1e-12`, otherwise slot `i*4+j` holds cofactor `(i, j)` over the determinant |
| Mat4Inverse.AdjugateInverse | Core/rmath/src/types/mat4_double.c:321-351 | the corrected result: zero when singular, otherwise the adjugate over the determinant |
| Mat4Inverse.InverseAsWritten | Core/rmath/src/types/mat4_double.c:321-351 | a zero matrix when `|det| < 1e-12`, otherwise the cofactor matrix over the determinant |
| Mat4Inverse.Inverse | Core/rmath/src/types/mat4_double.c:321-351 | the corrected inverse: a zero matrix when singular, otherwise the adjugate over the determinant |
| Mat4Inverse.InverseToAsWritten | Core/rmath/src/types/mat4_double.c:353-356 | as written, `out` holds what `dmat4_inverse` returns for the old matrix: zero when singular, otherwise the cofactor matrix over the determinant, the transpose of the inverse |
| Mat4Inverse.InverseInPlaceAsWritten | Core/rmath/src/types/mat4_double.c:358-362 | as written, `m` is replaced by that cofactor matrix over the determinant |
| Mat4Inverse.InverseTo | Core/rmath/src/types/mat4_double.c:353-356 | corrected: `out` holds the adjugate inverse of the old matrix, a two-sided inverse by `AdjugateInverseIsInverse` |
| Mat4Inverse.InverseInPlace | Core/rmath/src/types/mat4_double.c:358-362 | corrected: `m` becomes its adjugate inverse |
| Mat4Inverse.AdjugateIsTransposedCofactorInverse | Core/rmath/src/types/mat4_double.c:321-351 | the source's result is the transpose of the intended inverse |
| Mat4Inverse.ProductDivided | Core/rmath/src/types/mat4_double.c:223-237 | dividing either factor by `d` divides the product by `d` |
| Mat4Inverse.ProductAdjugateSlot | Core/rmath/src/types/mat4_double.c:321-351 | a slot of `m` times the adjugate is a row of `m` against a row of cofactors |
| Mat4Inverse.InverseSlot | Core/rmath/src/types/mat4_double.c:321-351 | every position of both products of `m` with its corrected inverse is that of the identity |
| Mat4Inverse.AdjugateInverseIsInverse | Core/rmath/src/types/mat4_double.c:321-351 | for a non-singular matrix, the corrected inverse is a two-sided inverse under `dmat4_mult` |
| Mat4Inverse.InverseOfIdentity | Core/rmath/src/types/mat4_double.c:321-351 | the inverse of the identity is the identity |
| Mat4Inverse.CofactorInverseCounterexample | Core/rmath/src/types/mat4_double.c:321-351 | for a shear with determinant 1, slot 0 of `m` times the stored inverse is 0, so that product is not the identity |

## Left out

- `sqrt`, `sin`, `cos`, `tan`: these are foreign library calls. `sqrt` is an uninterpreted function parameter. No statement about a length, a distance or a normalized vector depends on what it returns, except the unit-length lemmas, which assume `sqrt(x)^2 == x`.
- `dmat4_rotation_x/y/z/euler` and their `_to` forms, `dmat4_look_at`, `dmat4_perspective` and their `_to` forms: they rest on `sin`, `cos`, `tan` and `sqrt`. The model makes no angle or projection claims for them.
- IEEE rounding, NaN, infinities and signed zero: every double is a real. The `1e-12` singularity test is exact. A `double` division by zero is excluded by a `requires` on `Div`, `DivScalar`, `SmoothStep` and `OrthoMatrix`, and on the normalize forms by a non-zero length.
- Vec3.Normalize: the source divides by the length without a check. The model requires a non-zero length instead of modelling the infinities or NaN a zero length produces. The same holds for `Vec4.Normalize`, `Vec3.Div`, `Vec4.Div`, `Mat4.Divided`, `Common.SmoothStep` and `Mat4.OrthoMatrix`.
- Vec3.LengthSquaredNonNegative: it states `>= 0` and `0` for the zero vector, but not the converse, that only the zero vector has squared length 0. The nonlinear step from `x*x + y*y + z*z == 0` to `x == y == z == 0` does not close in this solver configuration.
- Vec4.LengthSquaredNonNegative: it is weaker in the same way, for the same reason: the nonlinear step from a zero sum of four squares to four zero components does not close in this solver configuration.
- `sr_f*` float helpers (`common.c:4-30`, `58`, `60`): over the reals they coincide with the `sr_d*` forms modelled here.
- `sr_dmod`, `sr_dfract`, `sr_fmod`, `sr_ffract`, `sr_frand*`, `sr_drand*`: calls into `fmod`/`floor` and the global `rand()` state.
- `dmat4_mult_vec4_inplace`: it is commented out in the source.
- `dmat4_col`, `dmat4_clone`, `dvec*_clone`, and the `get_*`/`set_*` field accessors of the vectors: they are field access or plain struct copies. `Mat4.Column`, the datatype selectors and the `DVec3Ref`/`DVec4Ref` fields are their counterparts.
- `memset`/`memcpy` are whole-value assignment: `ZeroTo`, `Copy`, `Assign`.
- The logger (`rlogger`): console I/O and time, which is not logic.
- Mat4Inverse.InverseTo, Mat4Inverse.InverseInPlace: these store the corrected adjugate inverse; the source's `dmat4_inverse_to` and `dmat4_inverse_inplace` store the cofactor matrix over the determinant, which `InverseToAsWritten` and `InverseInPlaceAsWritten` model.
- Mat4.Translation, Mat4.Scale, Mat4.OrthoTo, Mat4.Set, Mat4.Get: these use the corrected `Index`. As written, every store outside column 0 is past the end of the sixteen slots, which is undefined behaviour in C and has no value to model. `GetAsWritten`/`SetAsWritten` model the as-written index, with a precondition that only column 0 meets.

## Findings

| source | as written | input that shows it | evidently intended | confidence | as-written member | corrected member |
|---|---|---|---|---|---|---|
| Core/rmath/src/types/mat4_double.c:12-14 | `_dmat4_index(i, j)` is `j*16 + i` | `(0, 1)` gives slot 16, past the sixteen slots | `j*4 + i`, row `i` of column `j` | high, not executed | Mat4.IndexAsWritten | Mat4.Index |
| Core/rmath/src/types/mat4_double.c:223-258 | `dmat4_mult(a, b)` reads slot `i*4+j` as row `i`, but `mult_vec4` reads columns, so the product applies `a` first | the two shears of `ProductOrderCounterexample` and (1, 0, 0, 0): (1, 1, 0, 0) instead of (2, 1, 0, 0) | `mult_vec4(mult(a, b), v) == mult_vec4(a, mult_vec4(b, v))` | high, not executed | Mat4.MulVec4Product | Mat4.MulVec4Compose |
| Core/rmath/src/types/mat4_double.c:330-347 | `inverse` stores the cofactor of row `i`, column `j` at slot `i*4+j` | the shear adding `x` to `y`: slot 0 of `m * inverse(m)` is 0 | the adjugate: the cofactor of row `j`, column `i` | high, not executed | Mat4Inverse.CofactorInverseCounterexample | Mat4Inverse.AdjugateInverseIsInverse |
| Core/rmath/src/types/vec4_double.c:70-76 | `add_inplace` assigns `a = +b` | `a = (1, 0, 0, 0)`, `b = 0`: `a` becomes 0 | `a += b` | high, not executed | Vec4.AddInPlaceAsWrittenDiffers | Vec4.AddInPlace |
| Core/rmath/src/types/vec4_double.c:90-96 | `sub_inplace` assigns `a = -b` | `a = (1, 0, 0, 0)`, `b = 0`: `a` becomes 0 | `a -= b` | high, not executed | Vec4.SubInPlaceAsWrittenDiffers | Vec4.SubInPlace |
| Core/rmath/src/types/vec3_double.c:195-200 | `cross_to(out, v, u)` stores `u x v` | `v = (1, 0, 0)`, `u = (0, 1, 0)`: (0, 0, -1) instead of (0, 0, 1) | `v x u`, as `dvec3_cross(v, u)` | high, not executed | Vec3.CrossToAsWrittenDiffers | Vec3.CrossTo |
| Core/rmath/src/types/mat4_double.c:364-373 | translation starts from the zero matrix and never sets slots 0, 5 and 10 | zero offset, point (1, 0, 0): it goes to the origin | the identity plus the offsets in column 3 | high, not executed | Mat4.TranslationCounterexample | Mat4.AffineTranslationMovesPoint |
| Core/rmath/src/types/mat4_double.c:596-622 | ortho stores its offsets at `(3, 0..2)`, in row 3 | the box [0,2] x [-1,1] x [-1,1]: its near corner goes to x = 0, not -1 | offsets in column 3, as translation does | medium, not executed: `dmat4_look_at_to` (offsets at `(3, 0..2)`, mat4_double.c:534-536) and `dmat4_perspective_to` (-1 at `(2, 3)`, mat4_double.c:575) use ortho's argument order, and only translation uses (row, column); under the `j*4 + i` index chosen here those two are transposed as well, while under an `i*4 + j` reading translation would be the odd one out | Mat4.OrthoCounterexample | Mat4.ColumnMajorOrthoMapsBox |
