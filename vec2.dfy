/** The 2-dimensional vector `QVec2`: componentwise arithmetic, products, interpolation,
    angles and conversions. */
module Vec2 {

  import opened NonLinear
  import opened Fixed
  import opened Basic
  import opened Coordic
  import opened Wrappers

  datatype QVec2 = QVec2(x: Q64, y: Q64)

  const ZERO_VEC: QVec2 := QVec2(ZERO, ZERO)
  const ONE_VEC: QVec2 := QVec2(ONE, ONE)
  const NEG_ONE_VEC: QVec2 := QVec2(NEG_ONE, NEG_ONE)
  const MIN_VEC: QVec2 := QVec2(MIN, MIN)
  const MAX_VEC: QVec2 := QVec2(MAX, MAX)
  /** The unit vectors along the axes. */
  const X_AXIS: QVec2 := QVec2(ONE, ZERO)
  const Y_AXIS: QVec2 := QVec2(ZERO, ONE)
  const NEG_X_AXIS: QVec2 := QVec2(NEG_ONE, ZERO)
  const NEG_Y_AXIS: QVec2 := QVec2(ZERO, NEG_ONE)
  const AXES: seq<QVec2> := [X_AXIS, Y_AXIS]
  const EPS_VEC: QVec2 := QVec2(EPS, EPS)
  const EPS_X: QVec2 := QVec2(EPS, ZERO)
  const EPS_Y: QVec2 := QVec2(ZERO, EPS)
  const DELTA_VEC: QVec2 := QVec2(DELTA, DELTA)
  const DELTA_X: QVec2 := QVec2(DELTA, ZERO)
  const DELTA_Y: QVec2 := QVec2(ZERO, DELTA)

  /** A vector with both components set to v. */
  function Splat(v: Q64): (r: QVec2)
    ensures r.x == v && r.y == v
  {
    QVec2(v, v)
  }

  // ---------------------------------------------------------------------------------
  // Saturating arithmetic: the scalar operation on each component, clamped to [MIN, MAX].

  function SaturatingAddVec(a: QVec2, b: QVec2): (r: QVec2)
    ensures r.x.raw == Saturate(a.x.raw + b.x.raw) && r.y.raw == Saturate(a.y.raw + b.y.raw)
  {
    QVec2(SaturatingAdd(a.x, b.x), SaturatingAdd(a.y, b.y))
  }

  function SaturatingSubVec(a: QVec2, b: QVec2): (r: QVec2)
    ensures r.x.raw == Saturate(a.x.raw - b.x.raw) && r.y.raw == Saturate(a.y.raw - b.y.raw)
  {
    QVec2(SaturatingSub(a.x, b.x), SaturatingSub(a.y, b.y))
  }

  function SaturatingMulVec(a: QVec2, b: QVec2): (r: QVec2)
    ensures r.x.raw == Saturate(a.x.raw * b.x.raw / SCALE)
    ensures r.y.raw == Saturate(a.y.raw * b.y.raw / SCALE)
  {
    QVec2(SaturatingMul(a.x, b.x), SaturatingMul(a.y, b.y))
  }

  function SaturatingDivVec(a: QVec2, b: QVec2): (r: QVec2)
    requires b.x.raw != 0 && b.y.raw != 0
    ensures r.x.raw == Saturate(TruncDiv(a.x.raw * SCALE, b.x.raw))
    ensures r.y.raw == Saturate(TruncDiv(a.y.raw * SCALE, b.y.raw))
  {
    QVec2(SaturatingDiv(a.x, b.x), SaturatingDiv(a.y, b.y))
  }

  function SaturatingAddNum(a: QVec2, s: Q64): (r: QVec2)
    ensures r.x.raw == Saturate(a.x.raw + s.raw) && r.y.raw == Saturate(a.y.raw + s.raw)
  {
    QVec2(SaturatingAdd(a.x, s), SaturatingAdd(a.y, s))
  }

  function SaturatingSubNum(a: QVec2, s: Q64): (r: QVec2)
    ensures r.x.raw == Saturate(a.x.raw - s.raw) && r.y.raw == Saturate(a.y.raw - s.raw)
  {
    QVec2(SaturatingSub(a.x, s), SaturatingSub(a.y, s))
  }

  function SaturatingMulNum(a: QVec2, s: Q64): (r: QVec2)
    ensures r.x.raw == Saturate(a.x.raw * s.raw / SCALE)
    ensures r.y.raw == Saturate(a.y.raw * s.raw / SCALE)
  {
    QVec2(SaturatingMul(a.x, s), SaturatingMul(a.y, s))
  }

  function SaturatingDivNum(a: QVec2, s: Q64): (r: QVec2)
    requires s.raw != 0
    ensures r.x.raw == Saturate(TruncDiv(a.x.raw * SCALE, s.raw))
    ensures r.y.raw == Saturate(TruncDiv(a.y.raw * SCALE, s.raw))
  {
    QVec2(SaturatingDiv(a.x, s), SaturatingDiv(a.y, s))
  }

  // ---------------------------------------------------------------------------------
  // The operators `+ - * / %` and unary `-`: exact on each component, panicking on
  // overflow, which the preconditions exclude.

  predicate AddFits(a: QVec2, b: QVec2) { InRange(a.x.raw + b.x.raw) && InRange(a.y.raw + b.y.raw) }
  predicate SubFits(a: QVec2, b: QVec2) { InRange(a.x.raw - b.x.raw) && InRange(a.y.raw - b.y.raw) }
  predicate MulFits(a: QVec2, b: QVec2)
  {
    InRange(a.x.raw * b.x.raw / SCALE) && InRange(a.y.raw * b.y.raw / SCALE)
  }
  predicate DivFits(a: QVec2, b: QVec2)
  {
    b.x.raw != 0 && b.y.raw != 0
    && InRange(TruncDiv(a.x.raw * SCALE, b.x.raw)) && InRange(TruncDiv(a.y.raw * SCALE, b.y.raw))
  }

  function AddVec(a: QVec2, b: QVec2): (r: QVec2)
    requires AddFits(a, b)
    ensures r.x.raw == a.x.raw + b.x.raw && r.y.raw == a.y.raw + b.y.raw
  {
    QVec2(Add(a.x, b.x), Add(a.y, b.y))
  }

  function SubVec(a: QVec2, b: QVec2): (r: QVec2)
    requires SubFits(a, b)
    ensures r.x.raw == a.x.raw - b.x.raw && r.y.raw == a.y.raw - b.y.raw
  {
    QVec2(Sub(a.x, b.x), Sub(a.y, b.y))
  }

  function MulVec(a: QVec2, b: QVec2): (r: QVec2)
    requires MulFits(a, b)
    ensures r.x.raw * SCALE <= a.x.raw * b.x.raw < r.x.raw * SCALE + SCALE
    ensures r.y.raw * SCALE <= a.y.raw * b.y.raw < r.y.raw * SCALE + SCALE
  {
    QVec2(Mul(a.x, b.x), Mul(a.y, b.y))
  }

  function DivVec(a: QVec2, b: QVec2): (r: QVec2)
    requires DivFits(a, b)
    ensures r.x.raw == TruncDiv(a.x.raw * SCALE, b.x.raw) && r.y.raw == TruncDiv(a.y.raw * SCALE, b.y.raw)
    ensures Abs(r.x.raw) == Abs(a.x.raw * SCALE) / Abs(b.x.raw)
    ensures Abs(r.y.raw) == Abs(a.y.raw * SCALE) / Abs(b.y.raw)
  {
    QVec2(Div(a.x, b.x), Div(a.y, b.y))
  }

  function AddNum(a: QVec2, s: Q64): (r: QVec2)
    requires AddFits(a, Splat(s))
    ensures r.x.raw == a.x.raw + s.raw && r.y.raw == a.y.raw + s.raw
  {
    QVec2(Add(a.x, s), Add(a.y, s))
  }

  function SubNum(a: QVec2, s: Q64): (r: QVec2)
    requires SubFits(a, Splat(s))
    ensures r.x.raw == a.x.raw - s.raw && r.y.raw == a.y.raw - s.raw
  {
    QVec2(Sub(a.x, s), Sub(a.y, s))
  }

  function MulNum(a: QVec2, s: Q64): (r: QVec2)
    requires MulFits(a, Splat(s))
    ensures r.x.raw * SCALE <= a.x.raw * s.raw < r.x.raw * SCALE + SCALE
    ensures r.y.raw * SCALE <= a.y.raw * s.raw < r.y.raw * SCALE + SCALE
  {
    QVec2(Mul(a.x, s), Mul(a.y, s))
  }

  function DivNum(a: QVec2, s: Q64): (r: QVec2)
    requires DivFits(a, Splat(s))
    ensures r.x.raw == TruncDiv(a.x.raw * SCALE, s.raw) && r.y.raw == TruncDiv(a.y.raw * SCALE, s.raw)
    ensures Abs(r.x.raw) == Abs(a.x.raw * SCALE) / Abs(s.raw)
    ensures Abs(r.y.raw) == Abs(a.y.raw * SCALE) / Abs(s.raw)
  {
    QVec2(Div(a.x, s), Div(a.y, s))
  }

  /** `%` on each component: the remainder with the sign of the dividend. */
  function RemVec(a: QVec2, b: QVec2): (r: QVec2)
    requires b.x.raw != 0 && b.y.raw != 0
    requires !(a.x == MIN && b.x.raw == -1) && !(a.y == MIN && b.y.raw == -1)
    ensures r.x.raw == a.x.raw - b.x.raw * TruncDiv(a.x.raw, b.x.raw)
    ensures r.y.raw == a.y.raw - b.y.raw * TruncDiv(a.y.raw, b.y.raw)
    ensures Abs(r.x.raw) < Abs(b.x.raw) && Abs(r.y.raw) < Abs(b.y.raw)
    ensures (a.x.raw >= 0 ==> r.x.raw >= 0) && (a.x.raw < 0 ==> r.x.raw <= 0)
    ensures (a.y.raw >= 0 ==> r.y.raw >= 0) && (a.y.raw < 0 ==> r.y.raw <= 0)
  {
    QVec2(Rem(a.x, b.x), Rem(a.y, b.y))
  }

  function NegVec(v: QVec2): (r: QVec2)
    requires v.x != MIN && v.y != MIN
    ensures r.x.raw == -v.x.raw && r.y.raw == -v.y.raw
  {
    QVec2(Neg(v.x), Neg(v.y))
  }

  /** Away from the bounds the saturating operators are the plain ones. */
  lemma SaturatingAgreesWithExact(a: QVec2, b: QVec2)
    requires AddFits(a, b) && SubFits(a, b) && MulFits(a, b)
    ensures SaturatingAddVec(a, b) == AddVec(a, b)
    ensures SaturatingSubVec(a, b) == SubVec(a, b)
    ensures SaturatingMulVec(a, b) == MulVec(a, b)
  {
  }

  /** Subtracting what was added gives the vector back. */
  lemma AddSubRoundTrip(a: QVec2, b: QVec2)
    requires AddFits(a, b)
    ensures SubFits(AddVec(a, b), b) && SubVec(AddVec(a, b), b) == a
  {
  }

  /** A non-negative component below a positive divisor is left unchanged by `%`. */
  lemma RemOfSmaller(a: QVec2, b: QVec2)
    requires 0 <= a.x.raw < b.x.raw && 0 <= a.y.raw < b.y.raw
    ensures RemVec(a, b) == a
  {
    RemOfSmallerPart(a.x, b.x);
    RemOfSmallerPart(a.y, b.y);
  }

  lemma RemOfSmallerPart(a: Q64, b: Q64)
    requires 0 <= a.raw < b.raw
    ensures Rem(a, b) == a
  {
    ModUnique(a.raw, b.raw, 0, a.raw);
    assert TruncDiv(a.raw, b.raw) == 0;
  }

  lemma NegTwice(v: QVec2)
    requires v.x != MIN && v.y != MIN
    ensures NegVec(NegVec(v)) == v
  {
  }

  /** Multiplying or dividing by ONE on each component changes nothing. */
  lemma MulDivByOne(v: QVec2)
    ensures MulFits(v, ONE_VEC) && MulVec(v, ONE_VEC) == v
    ensures DivFits(v, ONE_VEC) && DivVec(v, ONE_VEC) == v
  {
    MulOne(v.x);
    MulOne(v.y);
    assert TruncDiv(v.x.raw * SCALE, SCALE) == v.x.raw by {
      ModUnique(Abs(v.x.raw) * SCALE, SCALE, Abs(v.x.raw), 0);
      MulAbs(v.x.raw, SCALE);
    }
    assert TruncDiv(v.y.raw * SCALE, SCALE) == v.y.raw by {
      ModUnique(Abs(v.y.raw) * SCALE, SCALE, Abs(v.y.raw), 0);
      MulAbs(v.y.raw, SCALE);
    }
  }

  // ---------------------------------------------------------------------------------
  // Ordering.

  function MinVec(a: QVec2, b: QVec2): (r: QVec2)
    ensures r.x.raw <= a.x.raw && r.x.raw <= b.x.raw && (r.x == a.x || r.x == b.x)
    ensures r.y.raw <= a.y.raw && r.y.raw <= b.y.raw && (r.y == a.y || r.y == b.y)
  {
    QVec2(QMin(a.x, b.x), QMin(a.y, b.y))
  }

  function MaxVec(a: QVec2, b: QVec2): (r: QVec2)
    ensures r.x.raw >= a.x.raw && r.x.raw >= b.x.raw && (r.x == a.x || r.x == b.x)
    ensures r.y.raw >= a.y.raw && r.y.raw >= b.y.raw && (r.y == a.y || r.y == b.y)
  {
    QVec2(QMax(a.x, b.x), QMax(a.y, b.y))
  }

  /** `clamp`: fails unless lo <= hi on both components; otherwise each component lands in
      [lo, hi] and one already there is kept. */
  function ClampVec(v: QVec2, lo: QVec2, hi: QVec2): (r: Result<QVec2>)
    ensures r.Err? <==> !(lo.x.raw <= hi.x.raw && lo.y.raw <= hi.y.raw)
    ensures r.Ok? ==> lo.x.raw <= r.value.x.raw <= hi.x.raw && lo.y.raw <= r.value.y.raw <= hi.y.raw
    ensures r.Ok? && lo.x.raw <= v.x.raw <= hi.x.raw ==> r.value.x == v.x
    ensures r.Ok? && lo.y.raw <= v.y.raw <= hi.y.raw ==> r.value.y == v.y
    ensures r.Ok? && v.x.raw < lo.x.raw ==> r.value.x == lo.x
    ensures r.Ok? && v.x.raw > hi.x.raw ==> r.value.x == hi.x
    ensures r.Ok? && v.y.raw < lo.y.raw ==> r.value.y == lo.y
    ensures r.Ok? && v.y.raw > hi.y.raw ==> r.value.y == hi.y
  {
    if !(lo.x.raw <= hi.x.raw && lo.y.raw <= hi.y.raw) then
      Err("[QVec2::clamp] Expected min <= max.")
    else
      Ok(MinVec(MaxVec(v, lo), hi))
  }

  /** Clamping twice to the same bounds is clamping once. */
  lemma ClampIdempotent(v: QVec2, lo: QVec2, hi: QVec2)
    requires ClampVec(v, lo, hi).Ok?
    ensures ClampVec(ClampVec(v, lo, hi).value, lo, hi) == ClampVec(v, lo, hi)
  {
  }

  function MinElement(v: QVec2): (r: Q64)
    ensures r.raw <= v.x.raw && r.raw <= v.y.raw && (r == v.x || r == v.y)
  {
    QMin(v.x, v.y)
  }

  function MaxElement(v: QVec2): (r: Q64)
    ensures r.raw >= v.x.raw && r.raw >= v.y.raw && (r == v.x || r == v.y)
  {
    QMax(v.x, v.y)
  }

  /** `abs` on each component (panics on MIN in a debug build). */
  function AbsVec(v: QVec2): (r: QVec2)
    requires v.x != MIN && v.y != MIN
    ensures r.x.raw == Abs(v.x.raw) && r.y.raw == Abs(v.y.raw)
  {
    QVec2(QAbs(v.x), QAbs(v.y))
  }

  // ---------------------------------------------------------------------------------
  // Rounding.

  function RoundVec(v: QVec2): (r: QVec2)
    requires InRange(if v.x.raw >= 0 then (v.x.raw + SCALE / 2) / SCALE * SCALE
                     else -((Abs(v.x.raw) + SCALE / 2) / SCALE * SCALE))
    requires InRange(if v.y.raw >= 0 then (v.y.raw + SCALE / 2) / SCALE * SCALE
                     else -((Abs(v.y.raw) + SCALE / 2) / SCALE * SCALE))
    ensures r.x.raw % SCALE == 0 && 2 * Abs(r.x.raw - v.x.raw) <= SCALE
    ensures r.y.raw % SCALE == 0 && 2 * Abs(r.y.raw - v.y.raw) <= SCALE
    ensures (v.x.raw >= 0 ==> r.x.raw >= 0) && (v.x.raw <= 0 ==> r.x.raw <= 0)
    ensures (v.y.raw >= 0 ==> r.y.raw >= 0) && (v.y.raw <= 0 ==> r.y.raw <= 0)
    ensures 2 * Abs(r.x.raw - v.x.raw) == SCALE ==> Abs(r.x.raw) > Abs(v.x.raw)
    ensures 2 * Abs(r.y.raw - v.y.raw) == SCALE ==> Abs(r.y.raw) > Abs(v.y.raw)
  {
    QVec2(Round(v.x), Round(v.y))
  }

  function FloorVec(v: QVec2): (r: QVec2)
    ensures r.x.raw % SCALE == 0 && r.x.raw <= v.x.raw < r.x.raw + SCALE
    ensures r.y.raw % SCALE == 0 && r.y.raw <= v.y.raw < r.y.raw + SCALE
  {
    QVec2(Floor(v.x), Floor(v.y))
  }

  function CeilVec(v: QVec2): (r: QVec2)
    requires InRange(v.x.raw + (SCALE - v.x.raw % SCALE) % SCALE)
    requires InRange(v.y.raw + (SCALE - v.y.raw % SCALE) % SCALE)
    ensures r.x.raw % SCALE == 0 && r.x.raw - SCALE < v.x.raw <= r.x.raw
    ensures r.y.raw % SCALE == 0 && r.y.raw - SCALE < v.y.raw <= r.y.raw
  {
    QVec2(Ceil(v.x), Ceil(v.y))
  }

  /** `trunc`: each component rounded toward zero. */
  function TruncVec(v: QVec2): (r: QVec2)
    ensures r.x.raw % SCALE == 0 && Abs(r.x.raw) <= Abs(v.x.raw) < Abs(r.x.raw) + SCALE
    ensures r.y.raw % SCALE == 0 && Abs(r.y.raw) <= Abs(v.y.raw) < Abs(r.y.raw) + SCALE
    ensures (v.x.raw >= 0 ==> r.x.raw >= 0) && (v.x.raw <= 0 ==> r.x.raw <= 0)
    ensures (v.y.raw >= 0 ==> r.y.raw >= 0) && (v.y.raw <= 0 ==> r.y.raw <= 0)
  {
    QVec2(RoundToZero(v.x), RoundToZero(v.y))
  }

  /** `fract`: `self - self.floor()`, which never overflows and lies in [0, 1). */
  function FractVec(v: QVec2): (r: QVec2)
    ensures 0 <= r.x.raw < SCALE && 0 <= r.y.raw < SCALE
  {
    SubVec(v, FloorVec(v))
  }

  /** The floor and the fractional part add back up to the vector. */
  lemma FloorPlusFract(v: QVec2)
    ensures AddFits(FloorVec(v), FractVec(v)) && AddVec(FloorVec(v), FractVec(v)) == v
  {
  }

  // ---------------------------------------------------------------------------------
  // Products.

  /** `dot`: x * x' plus the saturated y * y', in one saturating multiply-add. */
  function Dot(a: QVec2, b: QVec2): (r: Q64)
    ensures r.raw == Saturate(a.x.raw * b.x.raw / SCALE + Saturate(a.y.raw * b.y.raw / SCALE))
  {
    SaturatingMulAdd(a.x, b.x, SaturatingMul(a.y, b.y))
  }

  lemma DotSymmetric(a: QVec2, b: QVec2)
    ensures Dot(a, b) == Dot(b, a)
  {
    assert a.x.raw * b.x.raw == b.x.raw * a.x.raw;
    assert a.y.raw * b.y.raw == b.y.raw * a.y.raw;
  }

  /** A square rounded down is never negative. */
  lemma SquareNonneg(v: int)
    ensures v * v / SCALE >= 0
  {
    if v < 0 { MulNeg(v, -v); MulMono(-v, 0, -v); } else { MulMono(v, 0, v); }
    DivNonneg(v * v, SCALE);
  }

  /** `length_squared`: the dot product of a vector with itself, never negative. */
  function LengthSquared(v: QVec2): (r: Q64)
    ensures r.raw >= 0
    ensures r == Dot(v, v)
  {
    SquareNonneg(v.x.raw);
    SquareNonneg(v.y.raw);
    Dot(v, v)
  }

  /** `length`: the square root of `length_squared`, rounded down; ZERO only for a vector
      whose squared length is ZERO. */
  function Length(v: QVec2): (r: Q64)
    ensures r.raw >= 0
    ensures r.raw * r.raw <= LengthSquared(v).raw * SCALE < (r.raw + 1) * (r.raw + 1)
    ensures r.raw == 0 <==> LengthSquared(v).raw == 0
  {
    SaturatingSqrt(LengthSquared(v))
  }

  /** `distance_squared`: the squared length of the saturated difference, never negative. */
  function DistanceSquared(a: QVec2, b: QVec2): (r: Q64)
    ensures r.raw >= 0
    ensures r == LengthSquared(SaturatingSubVec(a, b))
  {
    LengthSquared(SaturatingSubVec(a, b))
  }

  /** `distance`: the length of the saturated difference. */
  function Distance(a: QVec2, b: QVec2): (r: Q64)
    ensures r.raw >= 0
    ensures r.raw * r.raw <= DistanceSquared(a, b).raw * SCALE < (r.raw + 1) * (r.raw + 1)
    ensures r.raw == 0 <==> DistanceSquared(a, b).raw == 0
  {
    Length(SaturatingSubVec(a, b))
  }

  /** A point is at distance ZERO from itself. */
  lemma DistanceToSelf(v: QVec2)
    ensures DistanceSquared(v, v) == ZERO && Distance(v, v) == ZERO
  {
    assert SaturatingSubVec(v, v) == ZERO_VEC;
  }

  /** `cross`: the 2D cross product x * y' - y * x', each product saturated, then the
      difference saturated. */
  function Cross(a: QVec2, b: QVec2): (r: Q64)
    ensures r.raw == Saturate(Saturate(a.x.raw * b.y.raw / SCALE) - Saturate(a.y.raw * b.x.raw / SCALE))
  {
    SaturatingSub(SaturatingMul(a.x, b.y), SaturatingMul(a.y, b.x))
  }

  /** A vector's cross product with itself is ZERO: both terms are the same product. */
  lemma CrossSelf(v: QVec2)
    ensures Cross(v, v) == ZERO
  {
    assert v.x.raw * v.y.raw == v.y.raw * v.x.raw;
  }

  /** Swapping the arguments negates the cross product when no step saturates. */
  lemma CrossAntisymmetric(a: QVec2, b: QVec2)
    requires InRange(a.x.raw * b.y.raw / SCALE) && InRange(a.y.raw * b.x.raw / SCALE)
    requires InRange(a.x.raw * b.y.raw / SCALE - a.y.raw * b.x.raw / SCALE)
    requires InRange(a.y.raw * b.x.raw / SCALE - a.x.raw * b.y.raw / SCALE)
    ensures Cross(b, a).raw == -Cross(a, b).raw
  {
    assert b.x.raw * a.y.raw == a.y.raw * b.x.raw;
    assert b.y.raw * a.x.raw == a.x.raw * b.y.raw;
  }

  /** `perp`: the vector turned by 90 degrees, (-y, x) (panics when y is MIN). */
  function Perp(v: QVec2): (r: QVec2)
    requires v.y != MIN
    ensures r.x.raw == -v.y.raw && r.y == v.x
  {
    QVec2(Neg(v.y), v.x)
  }

  /** Two quarter turns are a half turn. */
  lemma PerpTwice(v: QVec2)
    requires v.x != MIN && v.y != MIN
    ensures Perp(Perp(v)) == NegVec(v)
  {
  }

  /** x * -y and y * x rounded down cancel up to one ulp: the dot product of a vector
      with its perpendicular is ZERO or -DELTA. */
  lemma PerpOrthogonal(v: QVec2)
    requires v.y != MIN && InRange(v.x.raw * v.y.raw / SCALE)
    ensures Dot(v, Perp(v)).raw == 0 || Dot(v, Perp(v)).raw == -1
  {
    var p := v.x.raw * v.y.raw;
    MulNeg(v.x.raw, v.y.raw);
    assert v.y.raw * v.x.raw == p;
    DivMod(p, SCALE);
    DivMod(-p, SCALE);
    if p % SCALE == 0 {
      ModUnique(-p, SCALE, -(p / SCALE), 0);
    } else {
      ModUnique(-p, SCALE, -(p / SCALE) - 1, SCALE - p % SCALE);
    }
  }

  /** `rotate`: the complex product of the two vectors, each product and sum saturated. */
  function Rotate(a: QVec2, b: QVec2): (r: QVec2)
    ensures r.x.raw == Saturate(Saturate(a.x.raw * b.x.raw / SCALE) - Saturate(a.y.raw * b.y.raw / SCALE))
    ensures r.y.raw == Saturate(Saturate(a.y.raw * b.x.raw / SCALE) + Saturate(a.x.raw * b.y.raw / SCALE))
  {
    QVec2(SaturatingSub(SaturatingMul(a.x, b.x), SaturatingMul(a.y, b.y)),
          SaturatingAdd(SaturatingMul(a.y, b.x), SaturatingMul(a.x, b.y)))
  }

  /** Rotating by the X axis leaves a vector unchanged. */
  lemma RotateByX(v: QVec2)
    ensures Rotate(X_AXIS, v) == v
  {
    MulOne(v.x);
    MulOne(v.y);
  }

  /** Rotating the X axis by a vector gives that vector. */
  lemma RotateXAxis(v: QVec2)
    ensures Rotate(v, X_AXIS) == v
  {
    MulOne(v.x);
    MulOne(v.y);
  }

  /** Rotating by the Y axis is a quarter turn. */
  lemma RotateByY(v: QVec2)
    requires v.y != MIN
    ensures Rotate(Y_AXIS, v) == Perp(v)
  {
    MulOne(v.x);
    MulOne(v.y);
  }

  /** `abs_diff_eq`: whether each saturated difference is at most d in magnitude (its
      `abs` panics when a difference saturates to MIN). */
  function AbsDiffEq(a: QVec2, b: QVec2, d: Q64): (r: bool)
    requires Saturate(a.x.raw - b.x.raw) != MIN_RAW && Saturate(a.y.raw - b.y.raw) != MIN_RAW
    ensures r <==> Abs(Saturate(a.x.raw - b.x.raw)) <= d.raw && Abs(Saturate(a.y.raw - b.y.raw)) <= d.raw
  {
    var dif := AbsVec(SaturatingSubVec(a, b));
    var gap := Splat(d);
    dif.x.raw <= gap.x.raw && dif.y.raw <= gap.y.raw
  }

  /** Every vector is within any non-negative tolerance of itself. */
  lemma AbsDiffEqReflexive(v: QVec2, d: Q64)
    requires d.raw >= 0
    ensures AbsDiffEq(v, v, d)
  {
  }

  // ---------------------------------------------------------------------------------
  // Interpolation.

  /** `lerp`: self + (rhs - self) * s, every step saturating. */
  function Lerp(a: QVec2, b: QVec2, s: Q64): (r: QVec2)
    ensures r.x.raw == Saturate(a.x.raw + Saturate(Saturate(b.x.raw - a.x.raw) * s.raw / SCALE))
    ensures r.y.raw == Saturate(a.y.raw + Saturate(Saturate(b.y.raw - a.y.raw) * s.raw / SCALE))
  {
    SaturatingAddVec(a, SaturatingMulNum(SaturatingSubVec(b, a), s))
  }

  /** `lerp` at ZERO is the start point. */
  lemma LerpAtZero(a: QVec2, b: QVec2)
    ensures Lerp(a, b, ZERO) == a
  {
  }

  /** `lerp` at ONE is the end point when the difference does not saturate. */
  lemma LerpAtOne(a: QVec2, b: QVec2)
    requires SubFits(b, a)
    ensures Lerp(a, b, ONE) == b
  {
    MulOne(SubVec(b, a).x);
    MulOne(SubVec(b, a).y);
  }

  /** `midpoint`: the saturated sum halved by a saturating multiply with HALF, which is the
      sum halved and rounded down. */
  function Midpoint(a: QVec2, b: QVec2): (r: QVec2)
    ensures r.x.raw * 2 <= Saturate(a.x.raw + b.x.raw) <= r.x.raw * 2 + 1
    ensures r.y.raw * 2 <= Saturate(a.y.raw + b.y.raw) <= r.y.raw * 2 + 1
  {
    var s := SaturatingAddVec(a, b);
    assert Half(s.x) == SaturatingMul(s.x, HALF) && Half(s.y) == SaturatingMul(s.y, HALF);
    SaturatingMulNum(s, HALF)
  }

  /** a + (b - a) / 2 == (a + b) / 2 with both halvings rounded down. */
  lemma HalfShift(a: int, b: int)
    ensures a + (b - a) / 2 == (a + b) / 2
  {
    DivMod(b - a, 2);
    ModUnique(a + b, 2, a + (b - a) / 2, (b - a) % 2);
  }

  /** Where nothing saturates, `midpoint` is `lerp` at HALF, as its documentation says. */
  lemma MidpointIsHalfLerp(a: QVec2, b: QVec2)
    requires AddFits(a, b) && SubFits(b, a)
    ensures Midpoint(a, b) == Lerp(a, b, HALF)
  {
    var d := SubVec(b, a);
    var hx := Half(d.x);
    var hy := Half(d.y);
    var mx := Half(SaturatingAdd(a.x, b.x));
    var my := Half(SaturatingAdd(a.y, b.y));
    DivMod(d.x.raw, 2);
    DivMod(d.y.raw, 2);
    ModUnique(d.x.raw, 2, hx.raw, d.x.raw - 2 * hx.raw);
    ModUnique(d.y.raw, 2, hy.raw, d.y.raw - 2 * hy.raw);
    ModUnique(a.x.raw + b.x.raw, 2, mx.raw, a.x.raw + b.x.raw - 2 * mx.raw);
    ModUnique(a.y.raw + b.y.raw, 2, my.raw, a.y.raw + b.y.raw - 2 * my.raw);
    HalfShift(a.x.raw, b.x.raw);
    HalfShift(a.y.raw, b.y.raw);
  }

  // ---------------------------------------------------------------------------------
  // Angles.

  /** `from_angle`: cos in x and sin in y, each within 6.0. */
  function FromAngle(angle: Q64): (r: QVec2)
    ensures (r.y, r.x) == SinCosValue(angle)
    ensures Abs(r.x.raw) <= 6 * SCALE && Abs(r.y.raw) <= 6 * SCALE
  {
    var sc := SinCosValue(angle);
    QVec2(sc.1, sc.0)
  }

  /** `from_angle` repeats after the computed 2 * PI. */
  lemma FromAnglePeriodic(angle: Q64)
    requires InRange(angle.raw + FULL_TURN.raw)
    ensures FromAngle(Q64(angle.raw + FULL_TURN.raw)) == FromAngle(angle)
  {
    SinCosPeriodic(angle);
  }

  /** `to_angle`: fails on the zero vector, which also keeps `atan2`'s own check from
      firing; otherwise `atan2` as the program calls it, an angle in [-PI, PI] that is
      positive iff y >= 0. */
  function ToAngle(v: QVec2): (r: Result<Q64>)
    ensures r.Err? <==> v == ZERO_VEC
    ensures r.Ok? ==> r == Atan2AsWritten(v.y, v.x)
    ensures r.Ok? ==> -PI.raw <= r.value.raw <= PI.raw
    ensures r.Ok? ==> (r.value.raw > 0 <==> v.y.raw >= 0)
  {
    if !(v.x != ZERO || v.y != ZERO) then
      Err("[QVec2::to_angle] Computeing angle of zero vector, zero is returned.")
    else
      Atan2AsWritten(v.y, v.x)
  }

  /** Through `atan2`'s loss of the sign of x on the x axis, the negative X axis gets the
      angle of the positive one. */
  lemma ToAngleNegX()
    ensures ToAngle(NEG_X_AXIS) == ToAngle(X_AXIS)
    ensures ToAngle(NEG_X_AXIS) == Ok(AtanValue(ZERO).1)
  {
    OnXAxis(NEG_ONE);
    OnXAxis(ONE);
  }

  /** The `hypotenuse_length` of `angle_between`: the square root of the product of the
      squared lengths; ZERO exactly when that product, rounded down, is ZERO. */
  function Hypotenuse(a: QVec2, b: QVec2): (h: Q64)
    ensures h.raw >= 0
    ensures var p := SaturatingMul(LengthSquared(a), LengthSquared(b));
      h.raw * h.raw <= p.raw * SCALE < (h.raw + 1) * (h.raw + 1)
    ensures h.raw == 0 <==> LengthSquared(a).raw * LengthSquared(b).raw < SCALE
  {
    var la := LengthSquared(a);
    var lb := LengthSquared(b);
    MulMono(la.raw, 0, lb.raw);
    DivNonneg(la.raw * lb.raw, SCALE);
    DivMod(la.raw * lb.raw, SCALE);
    var p := SaturatingMul(la, lb);
    assert p.raw == 0 <==> la.raw * lb.raw < SCALE by {
      if la.raw * lb.raw >= SCALE { DivGe(la.raw * lb.raw, SCALE, 1); }
    }
    SaturatingSqrt(p)
  }

  /** The cosine `angle_between` feeds to `acos`: the saturated quotient clamped to
      [NEG_ONE, ONE], so `acos`'s range check always passes. */
  function Cosine(a: QVec2, b: QVec2, h: Q64): (c: Q64)
    requires h.raw != 0
    ensures -SCALE <= c.raw <= SCALE
    ensures AcosValue(c).Ok?
  {
    QClamp(SaturatingDiv(Dot(a, b), h), NEG_ONE, ONE)
  }

  /** `angle * c.signum()`: exact, since the factor is ONE, ZERO or NEG_ONE. */
  function WithSignOf(angle: Q64, c: Q64): (r: Q64)
    requires angle != MIN
    ensures c.raw == 0 ==> r == ZERO
    ensures c.raw > 0 ==> r == angle
    ensures c.raw < 0 ==> r.raw == -angle.raw
  {
    var sign := Signum(c);
    MulOne(angle);
    assert angle.raw * NEG_ONE.raw / SCALE == -angle.raw by {
      MulNeg(angle.raw, SCALE);
      ModUnique(-angle.raw * SCALE, SCALE, -angle.raw, 0);
    }
    Mul(angle, sign)
  }

  /** `angle_between`: fails when the hypotenuse is ZERO; otherwise `acos(...).1` with the
      sign of the cross product, so ZERO for parallel vectors and within the table sum of
      +-PI/2 otherwise. */
  function AngleBetween(a: QVec2, b: QVec2): (r: Result<Q64>)
    ensures r.Err? <==> Hypotenuse(a, b).raw == 0
    ensures r.Ok? && Cross(a, b).raw == 0 ==> r.value == ZERO
    ensures r.Ok? && Cross(a, b).raw > 0 ==> Abs(r.value.raw - HALF_PI.raw) <= TAILS[0]
    ensures r.Ok? && Cross(a, b).raw < 0 ==> Abs(r.value.raw + HALF_PI.raw) <= TAILS[0]
  {
    var h := Hypotenuse(a, b);
    if !(h != ZERO) then
      Err("[QVec2::angle_between] Computeing angle between zero vectors.")
    else
      var angle := AcosValue(Cosine(a, b, h)).value.1;
      ReductionConstants();
      Ok(WithSignOf(angle, Cross(a, b)))
  }

  /** The angle between a vector and itself is ZERO. */
  lemma AngleBetweenSelf(v: QVec2)
    requires Hypotenuse(v, v).raw != 0
    ensures AngleBetween(v, v) == Ok(ZERO)
  {
    CrossSelf(v);
  }

  /** No angle is measured from the zero vector. */
  lemma AngleBetweenZero(b: QVec2)
    ensures AngleBetween(ZERO_VEC, b).Err?
  {
    assert LengthSquared(ZERO_VEC).raw == 0;
  }

  // ---------------------------------------------------------------------------------
  // Conversions from and to `[Q64; 2]` and `(Q64, Q64)`.

  function FromArray(a: seq<Q64>): (r: QVec2)
    requires |a| == 2
    ensures r.x == a[0] && r.y == a[1]
  {
    QVec2(a[0], a[1])
  }

  function ToArray(v: QVec2): (r: seq<Q64>)
    ensures |r| == 2 && r[0] == v.x && r[1] == v.y
  {
    [v.x, v.y]
  }

  function FromTuple(t: (Q64, Q64)): (r: QVec2)
    ensures r.x == t.0 && r.y == t.1
  {
    QVec2(t.0, t.1)
  }

  function ToTuple(v: QVec2): (r: (Q64, Q64))
    ensures r.0 == v.x && r.1 == v.y
  {
    (v.x, v.y)
  }

  lemma ArrayRoundTrip(v: QVec2, a: seq<Q64>)
    requires |a| == 2
    ensures FromArray(ToArray(v)) == v
    ensures ToArray(FromArray(a)) == a
  {
    assert ToArray(FromArray(a))[..] == a;
  }

  lemma TupleRoundTrip(v: QVec2, t: (Q64, Q64))
    ensures FromTuple(ToTuple(v)) == v && ToTuple(FromTuple(t)) == t
  {
  }

  // ---------------------------------------------------------------------------------
  // The `*Assign` operators, which update a vector in place.

  /** A `QVec2` variable that the compound assignments update in place. */
  class QVec2Place {
    var x: Q64
    var y: Q64

    constructor (v: QVec2)
      ensures Value() == v
    {
      x, y := v.x, v.y;
    }

    function Value(): QVec2
      reads this
    {
      QVec2(x, y)
    }

    method AddAssign(rhs: QVec2)
      requires AddFits(Value(), rhs)
      modifies this
      ensures Value() == AddVec(old(Value()), rhs)
    {
      x := Add(x, rhs.x);
      y := Add(y, rhs.y);
    }

    method SubAssign(rhs: QVec2)
      requires SubFits(Value(), rhs)
      modifies this
      ensures Value() == SubVec(old(Value()), rhs)
    {
      x := Sub(x, rhs.x);
      y := Sub(y, rhs.y);
    }

    method MulAssign(rhs: QVec2)
      requires MulFits(Value(), rhs)
      modifies this
      ensures Value() == MulVec(old(Value()), rhs)
    {
      x := Mul(x, rhs.x);
      y := Mul(y, rhs.y);
    }

    method DivAssign(rhs: QVec2)
      requires DivFits(Value(), rhs)
      modifies this
      ensures Value() == DivVec(old(Value()), rhs)
    {
      x := Div(x, rhs.x);
      y := Div(y, rhs.y);
    }

    method AddAssignNum(rhs: Q64)
      requires AddFits(Value(), Splat(rhs))
      modifies this
      ensures Value() == AddNum(old(Value()), rhs)
    {
      x := Add(x, rhs);
      y := Add(y, rhs);
    }

    method SubAssignNum(rhs: Q64)
      requires SubFits(Value(), Splat(rhs))
      modifies this
      ensures Value() == SubNum(old(Value()), rhs)
    {
      x := Sub(x, rhs);
      y := Sub(y, rhs);
    }

    method MulAssignNum(rhs: Q64)
      requires MulFits(Value(), Splat(rhs))
      modifies this
      ensures Value() == MulNum(old(Value()), rhs)
    {
      x := Mul(x, rhs);
      y := Mul(y, rhs);
    }

    method DivAssignNum(rhs: Q64)
      requires DivFits(Value(), Splat(rhs))
      modifies this
      ensures Value() == DivNum(old(Value()), rhs)
    {
      x := Div(x, rhs);
      y := Div(y, rhs);
    }
  }
}
