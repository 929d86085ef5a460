# qmath in Dafny

A Dafny model of the deterministic fixed-point maths library qmath. The model covers these parts of the library:

- the CORDIC trigonometric kernel (`sin_cos`, `sin`, `cos`, `tan`, `asin`, `acos`, `atan`, `atan2`);
- the elementary functions and named constants of `QBasic`;
- the 2-dimensional vector `QVec2`;
- the direction type `QDir`;
- the Mersenne Twister generator `QRng` (MT19937).

`Q64` is the `fixed` crate's `I32F32`: a signed 64-bit raw integer read as raw / 2^32. The model keeps that raw value as an `int` confined to [-2^63, 2^63 - 1], so all arithmetic is exact integer arithmetic.

Module by module:

- **`Fixed`** (fixed.dfy) gives the `fixed` crate operations that the library calls:
  - `*` rounds down, and `/` rounds toward zero;
  - `%` takes the sign of the dividend;
  - `>> k` is an arithmetic shift;
  - the `saturating_*` family clamps to [MIN, MAX];
  - `saturating_sqrt` is the integer square root;
  - `signum`, `abs`, `min`, `max`, `clamp` and the rounding functions are included too.

  A non-saturating `+ - * /` panics on overflow in a debug build, so its no-overflow condition is a precondition. An `assert!` panic becomes the `Err` of a `Result`, carrying the source's message.
- **`NonLinear`** (nonlinear.dfy) holds the integer lemmas these rest on: division with remainder, monotonicity, and truncating division.
- **`Basic`**, **`Coordic`**, **`Vec2`**, **`Dir`** and **`Rng`** follow src/basic.rs, src/coordic.rs, src/vec2.rs, src/dir.rs and src/rng.rs.

Code that loops or updates state in place is written as methods, each proved equal to a specification function. This covers:

- the 32-step CORDIC loops;
- the `powi` and `exp` loops;
- the `*Assign` operators, on class `QVec2Place`;
- `QDir::rotate`, on class `QDirPlace`;
- the generator's state array, on class `QRng`, which holds an `array<bv32>`.

Properties relating several calls are lemmas about those functions. Two conversions are the same members as the named operations:

- `From<QDir> for QVec2` (src/dir.rs:74-78) is `Dir.ToVec`;
- `From<QVec2> for QDir` (src/dir.rs:80-84) is `Dir.NewFromVec`.

The getter `angle()` (src/dir.rs:40-42) is the datatype field `QDir.angle`.

The `Basic` constants are the raw values that the literals round to:

- `EPS` is 43 ulp;
- `TWO_PI` is `26986075408`, two ulp below 2 * PI;
- `NEG_PI` is one ulp closer to zero than -PI.

`PI` itself is taken as `13493037705` and `E` as `11674931555`, the nearest raw values (an assumption; see "## Left out").

## Model

| member | source | states |
|---|---|---|
| Basic.ConstantRelations | src/basic.rs:40-48 | NEG_HALF, NEG_TWO, NEG_TWO_PI and NEG_DELTA are the negations of HALF, TWO, TWO_PI and DELTA; EPS is positive; the decimal literals put TWO_PI two ulp below 2 * PI and NEG_PI one ulp above -PI |
| Basic.SqrtGuard | src/basic.rs:64-68 | a negative input gives ZERO, ZERO gives itself, and exactly the positive inputs go on to the Newton iteration |
| Basic.PowiAsWrittenValue | src/basic.rs:94-117 | powi as written: ONE for n = 0; for n > 0, x squared n - 1 times; for n < 0, the recip of x squared -n - 1 times |
| Basic.SquaringLoop | src/basic.rs:99-110 | the loop as written returns x squared m - 1 times for m = abs(n) passes |
| Basic.PowiAsWritten | src/basic.rs:94-117 | the method computes PowiAsWrittenValue |
| Basic.PowiAsWrittenCubesWrong | src/basic.rs:103-110 | as written, TWO.powi(3) is 16 |
| Basic.PowiValue | src/basic.rs:94-117 | corrected powi: |n| products of x starting from ONE, inverted with recip when n < 0 |
| Basic.PowLoop | src/basic.rs:99-110 | the corrected loop multiplies `result` by x once per pass and ends with x^m |
| Basic.Powi | src/basic.rs:94-117 | the corrected method computes PowiValue, ONE for n = 0 |
| Basic.PowExactOnIntegers | src/basic.rs:103-110 | on a whole number a, the corrected power is exactly a^m |
| Basic.PowiAgreesUpToSquares | src/basic.rs:94-117 | for -2 <= n <= 2 the correction and the code as written agree |
| Basic.PowiCubesRight | src/basic.rs:94-117 | corrected, TWO.powi(3) is 8 |
| Basic.PowiDocExamples | src/basic.rs:81-92 | the documented examples: MAX.powi(-1) == ONE / MAX and PI.powi(-2) == ONE / PI.powi(2) |
| Basic.DivByCount | src/basic.rs:130 | `self / i` for a counter i >= 1 never overflows, never grows in magnitude and keeps a non-negative sign |
| Basic.ExpPass | src/basic.rs:129-133 | one pass multiplies the term by x / i and adds it to the sum |
| Basic.Exp | src/basic.rs:126-135 | the loop runs the twelve passes of the series and returns its sum |
| Basic.ExpZeroState | src/basic.rs:126-135 | on ZERO every term after the first is ZERO and the sum stays ONE |
| Basic.ExpOfZero | src/basic.rs:126-135 | exp(ZERO) == ONE |
| Basic.ExpUnitState | src/basic.rs:126-135 | on [-1, 1] no pass overflows; every term stays within 1 and the i-th partial sum within i + 1 |
| Basic.ExpDefinedOnUnitInterval | src/basic.rs:126-135 | on [-1, 1] exp never overflows and its value lies within 13 |
| Basic.ExpNonnegState | src/basic.rs:126-135 | for x >= 0 every term is non-negative and each partial sum after the first pass is at least 1 + x |
| Basic.ExpAboveTangent | src/basic.rs:126-135 | for x >= 0, exp(x) >= 1 + x |
| Basic.ExpOneNearE | src/basic.rs:119-125 | the documented example: ONE.exp() is within EPS of E (nine ulp below it) |
| Basic.Half | src/basic.rs:137-139 | half never saturates: it is x / 2 rounded down, and its magnitude is at most that of x |
| Basic.HalfOfDouble | src/basic.rs:137-139 | halving undoes doubling |
| Basic.HalfTwice | src/basic.rs:137-139 | halving twice divides by four, rounded down |
| Coordic.TableWellFormed | src/coordic.rs:5-38 | index k at position k; angles positive and strictly decreasing, also after narrowing by `>> 28`; cos entries positive, non-decreasing and at most 1.0 |
| Coordic.TailsStep | src/coordic.rs:5-38 | each tail sum is the step's narrowed angle plus the next tail, so the tails never exceed the sum of all angles; each angle is covered by the angles after it plus 9 ulp; each narrowed cos factor lies in (0, 1] |
| Coordic.TurnSafe | src/coordic.rs:84-92 | a shift-and-add step on coordinates within the step's bound never overflows and stays within the next step's bound, below 6.0 |
| Coordic.ReductionConstants | src/coordic.rs:65-74 | the computed 2 * PI, PI / 2, PI * 3 / 2 and the narrowed gain K have the raw values the reduction uses |
| Coordic.Wrapped | src/coordic.rs:66-68 | `self % (2 * PI)` shifted up when negative is the angle mod 2 * PI in [0, 2 * PI) |
| Coordic.Fold | src/coordic.rs:69-74 | the folded angle lies in [-(PI / 2) - 1 ulp, PI / 2]; the factor is negated exactly when the angle lies strictly between PI / 2 and PI * 3 / 2; the angle moves by PI exactly then, otherwise by 0 or 2 * PI |
| Coordic.Reduce | src/coordic.rs:64-74 | for any input, the reduced angle lies in [-(PI / 2) - 1 ulp, PI / 2], the factor is +-K, and input minus reduced angle is PI (factor negated) or 0 modulo 2 * PI |
| Coordic.ReduceAngle | src/coordic.rs:65-74 | the in-place reduction computes Reduce |
| Coordic.RotationStep | src/coordic.rs:82-93 | each rotation step moves `remain` by exactly the step's narrowed table angle, down exactly when remain > 0, and keeps coordinates and remain in bounds |
| Coordic.RotationAfter | src/coordic.rs:76-93 | after n steps the coordinates stay within their bound and abs(remain) is at most the angles still to come plus 9 ulp |
| Coordic.RotateLoop | src/coordic.rs:76-93 | the loop updating x, y and remain in place computes RotationAfter for all 32 steps |
| Coordic.SinCosValue | src/coordic.rs:63-98 | both results of sin_cos lie within 6.0 |
| Coordic.SinCos | src/coordic.rs:63-98 | the method (reduction, 32 steps, scaling by the signed gain) computes SinCosValue |
| Coordic.SinCosPeriodic | src/coordic.rs:66 | sin_cos is exactly periodic in the computed 2 * PI |
| Coordic.Sin | src/coordic.rs:100 | sin is the first half of sin_cos, within 6.0 |
| Coordic.Cos | src/coordic.rs:102 | cos is the second half of sin_cos, within 6.0 |
| Coordic.Tan | src/coordic.rs:104-111 | MAX or MIN (by the sign of sin) when abs(cos) <= EPS; otherwise exactly the truncated quotient TruncDiv(sin * SCALE, cos), whose magnitude is at most TAN_BOUND, so it cannot overflow |
| Coordic.TanQuotientBound | src/coordic.rs:110 | with abs(sin) <= 6 and abs(cos) > EPS the quotient is below MAX |
| Coordic.VectorStep | src/coordic.rs:128-139 | each vectoring step moves z by exactly the step's narrowed angle, up exactly when it turns counter-clockwise, and the cos factor keeps the coordinates in bounds |
| Coordic.VectorAfter | src/coordic.rs:128-140 | after n steps the coordinates are bounded and z is within the sum of the first n angles of its start |
| Coordic.FinalAngle | src/coordic.rs:128-140 | the final z of asin, acos or atan is within the sum of all 32 narrowed angles of its start |
| Coordic.Step | src/coordic.rs:128-139 | one loop step computes VectorStep |
| Coordic.Advance | src/coordic.rs:190-202 | the loop body, with its direction test, goes from the state after k steps to the state after k + 1 |
| Coordic.Start | src/coordic.rs:161-163 | the start point lies within 1.0 on both axes, and z starts at PI / 2 for acos and at ZERO otherwise |
| Coordic.Init | src/coordic.rs:161-163 | the start state: (ZERO, ONE) with z = PI / 2 for acos, (ONE, ZERO) with z = ZERO otherwise |
| Coordic.Vector | src/coordic.rs:166-178 | the 32-step vectoring loop computes VectorAfter |
| Coordic.AsinValue | src/coordic.rs:120-149 | fails outside [-1, 1]; the two candidates sum to PI when the first is positive, to -PI otherwise, and both lie in [-PI, PI] |
| Coordic.Asin | src/coordic.rs:120-149 | the method computes AsinValue |
| Coordic.AcosValue | src/coordic.rs:158-182 | fails outside [-1, 1]; returns (-z, z) with z within the sum of the table angles of PI / 2 |
| Coordic.Acos | src/coordic.rs:158-182 | the method computes AcosValue |
| Coordic.AtanValue | src/coordic.rs:184-212 | the two candidates differ by exactly PI; the first is <= 0 < the second; both lie in [-PI, PI] |
| Coordic.Atan | src/coordic.rs:184-212 | the method computes AtanValue |
| Coordic.Atan2AsWritten | src/coordic.rs:229-237 | atan2 as written: fails exactly on (0, 0); result in [-PI, PI], positive exactly when y >= 0 |
| Coordic.Atan2AsWrittenLosesNegativeXAxis | src/coordic.rs:231-236 | as written, atan2(ZERO, x) is the same for every x != 0, so (-1, 0) gets the angle of (1, 0) |
| Coordic.OnXAxis | src/coordic.rs:231-236 | as written, every point of the x axis other than the origin gets atan(ZERO).1 |
| Coordic.Atan2AsWrittenWrapsSteepRatio | src/coordic.rs:231-233 | as written, for the vector with x = DELTA and y = ONE the ratio 2^32 wraps to ZERO, so it gets the angle of the x axis |
| Coordic.Atan2 | src/coordic.rs:229-237 | corrected atan2: fails exactly on (0, 0); result in [-PI, PI], positive exactly when y >= 0; the negative x axis gives PI |
| Coordic.Slope | src/coordic.rs:231-233 | corrected ratio: MAX on the y axis, the saturating quotient y / x elsewhere, ZERO on the x axis |
| Coordic.Branch | src/coordic.rs:234-236 | the candidate picked by the sign of y lies in [-PI, PI] and is positive exactly when y >= 0 |
| Coordic.Atan2SteepIsVertical | src/coordic.rs:231-233 | corrected: a vector whose slope exceeds MAX gets exactly the angle of the vertical, as for x == 0 |
| Coordic.Atan2OneOverDelta | src/coordic.rs:231-233 | corrected: the vector with x = DELTA and y = ONE gets the angle of the vertical |
| Coordic.CoordicDocExamples | src/coordic.rs:214-228 | the documented cases: atan2(ONE, ZERO) == MAX.atan().1; asin and acos fail at TWO and NEG_TWO; atan2 fails at (ZERO, ZERO) |
| Vec2.Splat | src/vec2.rs:72-74 | both components are v |
| Vec2.SaturatingAddVec | src/vec2.rs:81-86 | each component is the exact sum clamped to [MIN, MAX] |
| Vec2.SaturatingSubVec | src/vec2.rs:93-98 | each component is the exact difference clamped |
| Vec2.SaturatingMulVec | src/vec2.rs:105-110 | each component is the product rounded down, clamped |
| Vec2.SaturatingDivVec | src/vec2.rs:117-122 | each component is the quotient rounded toward zero, clamped |
| Vec2.SaturatingAddNum | src/vec2.rs:129-134 | each component plus the scalar, clamped |
| Vec2.SaturatingSubNum | src/vec2.rs:141-146 | each component minus the scalar, clamped |
| Vec2.SaturatingMulNum | src/vec2.rs:153-158 | each component times the scalar, rounded down, clamped |
| Vec2.SaturatingDivNum | src/vec2.rs:165-170 | each component over the scalar, rounded toward zero, clamped |
| Vec2.AddVec | src/vec2.rs:498-507 | `+` is the exact componentwise sum where it does not overflow |
| Vec2.SubVec | src/vec2.rs:509-518 | `-` is the exact componentwise difference |
| Vec2.MulVec | src/vec2.rs:520-529 | `*` gives each component's product rounded down |
| Vec2.DivVec | src/vec2.rs:531-540 | `/` gives each component exactly TruncDiv(a * SCALE, b), the quotient rounded toward zero (magnitude and sign) |
| Vec2.AddNum | src/vec2.rs:574-583 | vector plus scalar, exact on each component |
| Vec2.SubNum | src/vec2.rs:585-594 | vector minus scalar, exact on each component |
| Vec2.MulNum | src/vec2.rs:596-605 | vector times scalar, each product rounded down |
| Vec2.DivNum | src/vec2.rs:607-616 | vector over scalar: each component exactly TruncDiv(a * SCALE, s), the quotient rounded toward zero |
| Vec2.RemVec | src/vec2.rs:650-659 | `%` gives each component a - b * TruncDiv(a, b), smaller in magnitude than the divisor, with the sign of the dividend |
| Vec2.NegVec | src/vec2.rs:661-670 | unary `-` negates both components |
| Vec2.SaturatingAgreesWithExact | src/vec2.rs:81-110 | away from the bounds the saturating `+ - *` equal the plain operators |
| Vec2.AddSubRoundTrip | src/vec2.rs:498-518 | (a + b) - b == a |
| Vec2.RemOfSmaller | src/vec2.rs:650-659 | `%` leaves unchanged a non-negative vector below a positive divisor |
| Vec2.NegTwice | src/vec2.rs:661-670 | -(-v) == v |
| Vec2.MulDivByOne | src/vec2.rs:520-540 | multiplying or dividing by ONE changes nothing |
| Vec2.MinVec | src/vec2.rs:186-191 | each component is the smaller of the two and one of them |
| Vec2.MaxVec | src/vec2.rs:198-203 | each component is the larger of the two and one of them |
| Vec2.ClampVec | src/vec2.rs:214-217 | fails unless min <= max on both components; otherwise each component lies in [min, max]: one below min becomes min, one above max becomes max, and one already inside is kept |
| Vec2.ClampIdempotent | src/vec2.rs:214-217 | clamping twice to the same bounds is clamping once |
| Vec2.MinElement | src/vec2.rs:224-226 | the smaller component, one of x and y |
| Vec2.MaxElement | src/vec2.rs:233-235 | the larger component, one of x and y |
| Vec2.AbsVec | src/vec2.rs:240-245 | each component's absolute value |
| Vec2.RoundVec | src/vec2.rs:322-327 | each component becomes a whole number at most half a unit away, of the same sign, and a tie (exactly half a unit) goes away from zero |
| Vec2.FloorVec | src/vec2.rs:333-338 | each component becomes the largest whole number not above it |
| Vec2.CeilVec | src/vec2.rs:344-349 | each component becomes the smallest whole number not below it |
| Vec2.TruncVec | src/vec2.rs:355-360 | each component becomes a whole number toward zero: of the same sign, not larger in magnitude, and less than one unit smaller |
| Vec2.FractVec | src/vec2.rs:368-370 | `self - self.floor()` never overflows and lies in [0, 1) on each component |
| Vec2.FloorPlusFract | src/vec2.rs:368-370 | floor plus fract gives the vector back |
| Vec2.Dot | src/vec2.rs:177-179 | the rounded-down product of the x components plus the saturated product of the y components, clamped to [MIN, MAX] |
| Vec2.DotSymmetric | src/vec2.rs:177-179 | the dot product is symmetric |
| Vec2.LengthSquared | src/vec2.rs:263-265 | the dot product of the vector with itself, never negative |
| Vec2.Length | src/vec2.rs:252-254 | the square root of the squared length rounded down; ZERO exactly when the squared length is ZERO |
| Vec2.DistanceSquared | src/vec2.rs:292-294 | the squared length of the saturated difference, never negative |
| Vec2.Distance | src/vec2.rs:283-285 | the square root of `distance_squared`, rounded down (r * r <= d * SCALE < (r + 1)^2), never negative, and ZERO exactly when the squared distance is ZERO |
| Vec2.DistanceToSelf | src/vec2.rs:283-294 | a point is at distance ZERO from itself |
| Vec2.Cross | src/vec2.rs:456-458 | the saturated difference of the saturated products x * y' and y * x' |
| Vec2.CrossSelf | src/vec2.rs:456-458 | v.cross(v) == ZERO |
| Vec2.CrossAntisymmetric | src/vec2.rs:456-458 | where nothing saturates, swapping the arguments negates the cross product |
| Vec2.Perp | src/vec2.rs:443-448 | the vector turned by 90 degrees: (-y, x) |
| Vec2.PerpTwice | src/vec2.rs:443-448 | perp(perp(v)) == -v |
| Vec2.PerpOrthogonal | src/vec2.rs:443-448 | a vector's dot product with its perp is ZERO or -DELTA (one rounding ulp) |
| Vec2.Rotate | src/vec2.rs:467-472 | the complex product of the two vectors, each product and sum saturated |
| Vec2.RotateByX | src/vec2.rs:467-472 | rotating by the X axis changes nothing |
| Vec2.RotateXAxis | src/vec2.rs:467-472 | rotating the X axis by a vector gives that vector |
| Vec2.RotateByY | src/vec2.rs:467-472 | rotating by the Y axis is perp |
| Vec2.AbsDiffEq | src/vec2.rs:484-488 | true exactly when both saturated differences are at most the tolerance in magnitude |
| Vec2.AbsDiffEqReflexive | src/vec2.rs:484-488 | a vector is within any non-negative tolerance of itself |
| Vec2.Lerp | src/vec2.rs:381-383 | self + (rhs - self) * s, with every step saturated |
| Vec2.LerpAtZero | src/vec2.rs:372-383 | lerp at ZERO is self, as documented |
| Vec2.LerpAtOne | src/vec2.rs:372-383 | lerp at ONE is rhs when the difference does not saturate |
| Vec2.Midpoint | src/vec2.rs:394-396 | the saturated sum halved, rounded down |
| Vec2.MidpointIsHalfLerp | src/vec2.rs:386-396 | where nothing saturates, midpoint equals lerp at HALF, as documented |
| Vec2.FromAngle | src/vec2.rs:404-407 | cos in x and sin in y, both within 6.0 |
| Vec2.FromAnglePeriodic | src/vec2.rs:404-407 | from_angle repeats after the computed 2 * PI |
| Vec2.ToAngle | src/vec2.rs:418-421 | fails exactly on the zero vector, so atan2's own check never fires; otherwise atan2(y, x) as written, in [-PI, PI] and positive exactly when y >= 0 |
| Vec2.ToAngleNegX | src/vec2.rs:418-421 | through atan2 as written, the negative X axis gets the angle of the positive one, atan(ZERO).1 |
| Vec2.Hypotenuse | src/vec2.rs:431 | h is the square root, rounded down, of the saturated product p of the squared lengths (h * h <= p * SCALE < (h + 1)^2), never negative, and ZERO exactly when that product rounds to ZERO |
| Vec2.Cosine | src/vec2.rs:433-435 | the clamped cosine lies in [NEG_ONE, ONE], so acos cannot fail |
| Vec2.WithSignOf | src/vec2.rs:437 | `angle * signum` is ZERO, the angle or its negation, exactly |
| Vec2.AngleBetween | src/vec2.rs:430-438 | fails exactly when the hypotenuse is ZERO; ZERO for a zero cross product; otherwise within the table sum of the +-PI / 2 centre chosen by the sign of the cross product |
| Vec2.AngleBetweenSelf | src/vec2.rs:430-438 | the angle between a vector and itself is ZERO |
| Vec2.AngleBetweenZero | src/vec2.rs:430-438 | no angle is measured from the zero vector |
| Vec2.FromArray | src/vec2.rs:687-692 | x from a[0], y from a[1] |
| Vec2.ToArray | src/vec2.rs:694-699 | [x, y] |
| Vec2.FromTuple | src/vec2.rs:701-706 | x from t.0, y from t.1 |
| Vec2.ToTuple | src/vec2.rs:708-712 | (x, y) |
| Vec2.ArrayRoundTrip | src/vec2.rs:687-699 | array conversions round-trip both ways |
| Vec2.TupleRoundTrip | src/vec2.rs:701-712 | tuple conversions round-trip both ways |
| Vec2.QVec2Place.AddAssign | src/vec2.rs:542-548 | `+=` updates the vector in place to self + rhs |
| Vec2.QVec2Place.SubAssign | src/vec2.rs:550-556 | `-=` updates it to self - rhs |
| Vec2.QVec2Place.MulAssign | src/vec2.rs:558-564 | `*=` updates it to self * rhs |
| Vec2.QVec2Place.DivAssign | src/vec2.rs:566-572 | `/=` updates it to self / rhs |
| Vec2.QVec2Place.AddAssignNum | src/vec2.rs:618-624 | `+=` by a scalar |
| Vec2.QVec2Place.SubAssignNum | src/vec2.rs:626-632 | `-=` by a scalar |
| Vec2.QVec2Place.MulAssignNum | src/vec2.rs:634-640 | `*=` by a scalar |
| Vec2.QVec2Place.DivAssignNum | src/vec2.rs:642-648 | `/=` by a scalar |
| Dir.New | src/dir.rs:17-20 | succeeds exactly when ZERO <= angle < TWO_PI, keeping the angle |
| Dir.WrapTurn | src/dir.rs:23-25 | the truncating remainder, shifted up by TWO_PI when negative, is the remainder rounded down |
| Dir.NewFromAngle | src/dir.rs:22-29 | always a valid direction, so the inner `new` never fails; the angle is the input mod TWO_PI |
| Dir.NewFromAngleIdentity | src/dir.rs:22-29 | on an angle already in [0, TWO_PI), new_from_angle is new |
| Dir.NewFromAnglePeriodic | src/dir.rs:22-29 | adding TWO_PI does not change the direction |
| Dir.IntoTurn | src/dir.rs:33-37 | an atan2 angle moved into [0, TWO_PI): positive kept, ZERO kept, negative moved up by TWO_PI; the residue mod TWO_PI is kept |
| Dir.NewFromVec | src/dir.rs:31-38 | fails exactly on the zero vector; otherwise a valid direction; for y >= 0 it is the angle of atan2 as written, in (0, PI]; it keeps that angle's residue mod TWO_PI |
| Dir.ToVec | src/dir.rs:44-46 | the vector (cos, sin) of the angle, within 6.0 |
| Dir.RotateDir | src/dir.rs:53-55 | a valid direction whose angle is the sum of the two angles mod TWO_PI |
| Dir.RotateDirAssociative | src/dir.rs:53-55 | composing rotations does not depend on the grouping |
| Dir.RotateVec | src/dir.rs:57-59 | the vector rotated by the direction's vector |
| Dir.RotateVecOfX | src/dir.rs:57-59 | rotating the X axis by a direction gives its own vector |
| Dir.ProjectionOf | src/dir.rs:61-63 | the dot product of the direction's vector with v |
| Dir.ProjectionOfOwnVec | src/dir.rs:61-63 | projecting a direction's own vector gives its squared length, never negative |
| Dir.NegDir | src/dir.rs:66-72 | a valid direction with the negated angle mod TWO_PI |
| Dir.RotateByNeg | src/dir.rs:66-72 | rotating a direction by its negation gives angle ZERO |
| Dir.NegDirTwice | src/dir.rs:66-72 | -(-d) == d |
| Dir.NewFromVecNegX | src/dir.rs:31-38 | through atan2 as written, the negative X axis gets the same direction as the positive one |
| Dir.FromXAxis | src/dir.rs:10 | the X axis has the positive angle atan(ZERO).1, not ZERO |
| Dir.FromPositiveX | src/dir.rs:31-38 | every vector on the positive x axis gets that same direction |
| Dir.QDirPlace.Rotate | src/dir.rs:48-51 | rotate sets the angle to new_from_angle(angle + a).angle, which is (angle + a) mod TWO_PI, and keeps the invariant |
| Rng.CheckedAdd | src/rng.rs:21 | the `u32` `+` panics exactly when the wrapped sum falls below the first operand; otherwise it is the wrapped sum |
| Rng.SeedStepOverflows | src/rng.rs:21 | seed 0x69c77f92 makes the first seeding add overflow; MT19937's wrapping add gives 0 there |
| Rng.QRng.FromSeed | src/rng.rs:14-24 | state[0] is the seed; each later word is SeedStep of the one before and its index (SeedStep uses the wrapping add of MT19937, as a release build computes it); index is N |
| Rng.MaskedSumIsOr | src/rng.rs:56 | the two masked words share no bit, so their sum does not carry and equals their OR |
| Rng.NextWords | src/rng.rs:54-64 | N words, word j being word N + j of the MT19937 recurrence |
| Rng.TwistReadsUpdated | src/rng.rs:55-61 | for i >= N - M the new word i reads the new word i + M - N, and word N - 1 reads the new word 0 |
| Rng.TwistStep | src/rng.rs:55-61 | at step i of the in-place loop the words read are recurrence words i, i + 1 and i + M, and the word written is word N + i |
| Rng.QRng.TwistWord | src/rng.rs:56-61 | one pass rewrites word i from words (i + M) % N, i and (i + 1) % N and changes no other word |
| Rng.QRng.Twist | src/rng.rs:54-64 | the in-place loop turns the state into the next N words of the recurrence, and index becomes 0 |
| Rng.UnitOf | src/rng.rs:51 | the `u32` zero-extended into raw bits is a value in [0, 1) |
| Rng.QRng.NextUnit | src/rng.rs:39-52 | twists when index >= N, then returns the tempered word at the index as a value in [0, 1); index rises by exactly one and stays <= N |

## Left out

- The Newton iteration of `sqrt` (src/basic.rs:70-78) has no termination measure. `Basic.SqrtGuard` models the guard branches only.
- `length_recip`, `normalize` and `is_normalized` (src/vec2.rs:274-316) are not modelled. They rest on `saturating_recip` and on precision claims about the square root.
- Accuracy against the true trigonometric and exponential functions is not modelled, because it needs real numbers. What the model states instead:
  - bounds;
  - the exact movement of the angle accumulator;
  - the candidate shapes;
  - the documented concrete values.
- The formatted values in the `assert!` messages of `acos` and `angle_between` are omitted; formatting is I/O.
- `fmt::Display`, `fmt::Debug`, `Default`, serde (de)serialisation and the `q64!`/`qvec2!` macros are not modelled.
- The statistical quality of MT19937 is not modelled.
- The `& 0xffffffff` on a `u32` at src/rng.rs:21 is a no-op and is not written.
- Raw bits of the `fixed` crate:
  - its operations are given as exact integer definitions, following that crate's documented rounding;
  - how `lit` parses decimal strings is not modelled: the constants are the raw values those literals round to.
  - the raw values of the crate's `PI` (13493037705) and `E` (11674931555) are assumed to be pi and e times 2^32 rounded to nearest, since the source does not show them. The "two ulp", "one ulp" and "one ulp below -(PI / 2)" statements rest on that assumption: with a truncated `PI` (13493037704), TWO_PI would be exactly 2 * PI, NEG_PI exactly -PI, and the reduced angle would lie exactly in [-(PI / 2), PI / 2].
- Coordic.Atan2AsWritten: `y / x` is taken with release-build wrapping, where the rest of the model turns debug-build overflow panics into preconditions. A debug build panics on steep vectors (`Coordic.Atan2AsWrittenWrapsSteepRatio`), and the model does not state that as a precondition. Vec2.ToAngle and Dir.NewFromVec call it and inherit this.
- Coordic.AtanValue: atan's in-loop `y / x` is taken with release-build wrapping. A debug build panics where that quotient overflows, and the model does not state when that happens.
- Coordic.AcosValue: states only that z lies within the sum of the table angles of PI / 2, not how close z is to the true arccosine.
- Dir.NewFromVec: for y < 0 it states only that the angle is ZERO or at least PI - 2 ulp. The exact angle depends on the unproved bound of atan's accumulator near zero.
- Vec2.AngleBetween: states the ZERO case and, otherwise, that the angle lies within the table sum of the +-PI / 2 centre chosen by the sign of the cross product; not the angle's accuracy.
- Rng.QRng.NextUnit: the `u32` index is an unbounded `nat`. It cannot overflow, because it never exceeds N.
- Rng.QRng.FromSeed: the index `i as u32` is built by counting up in `bv32` (`AsU32`). The model has no lemma tying it to the integer i.
- Tempering is invertible in MT19937, but the model does not prove it.
- Vec2.QVec2Place, Dir.QDirPlace: Rust's `&mut self` on these `Copy` types is modelled as classes holding the fields. Aliasing cannot arise in the source.

## Where the documentation and the code differ

- src/dir.rs:10 documents that the `QDir` of `QVec2::X` is zero. In the code, that direction's angle is `atan(ZERO).1`, which is positive (`Dir.FromXAxis`). The model follows the code.
- The comment at src/coordic.rs:64 puts the reduced angle in [-PI/2, PI/2]. With the raw `PI` assumed above (an odd number), `PI / 2` and `PI * 3 / 2` are each rounded toward zero, so the lowest reduced angle is one ulp below -(PI / 2) (`Coordic.Fold`, `Coordic.Reduce`).

## Findings

| source | as written | input that shows it | evidently intended | confidence | as-written member | corrected member |
|---|---|---|---|---|---|---|
| src/basic.rs:103-110 | the loop squares `current_power` on every pass but the last, so powi returns x^(2^(abs(n) - 1)) | TWO.powi(3) is 16 | x multiplied abs(n) times: TWO.powi(3) is 8 | not executed | Basic.PowiAsWrittenCubesWrong | Basic.PowiCubesRight |
| src/coordic.rs:231-236 | for y == 0 the ratio is ZERO whatever the sign of x, so atan2 cannot tell (1, 0) from (-1, 0) | atan2(ZERO, NEG_ONE) == atan2(ZERO, ONE) | PI for the negative x axis | not executed | Coordic.Atan2AsWrittenLosesNegativeXAxis | Coordic.Atan2 |
| src/coordic.rs:231-233 | `y / x` overflows Q64 for steep vectors: it wraps in a release build and panics in a debug build | atan2(ONE, DELTA): the ratio 2^32 wraps to ZERO, giving the angle of the x axis | saturate to MAX, as the code already does for x == 0 | not executed | Coordic.Atan2AsWrittenWrapsSteepRatio | Coordic.Atan2OneOverDelta |
| src/rng.rs:21 | `+ i as u32` after `wrapping_mul` is a checked add and panics on overflow in a debug build | seed 0x69c77f92, i = 1: the product is 0xffffffff | the wrapping add of MT19937 (the word is 0) | not executed | Rng.SeedStepOverflows | Rng.QRng.FromSeed |
