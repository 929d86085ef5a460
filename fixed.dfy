/** The signed 32.32 fixed-point scalar `Q64` (the `fixed` crate's `I32F32`) and the
    operations of that crate the library builds on.

    A value is its raw 64-bit two's-complement integer, read as raw / 2^32. Every
    operation below is integer arithmetic on raw values. The non-saturating operators
    panic on overflow in a debug build; here they carry a no-overflow precondition. */
module Fixed {

  import opened NonLinear

  /** Raw value of ONE: 2^32 (32 fractional bits). */
  const SCALE: int := 0x1_0000_0000
  const MIN_RAW: int := -0x8000_0000_0000_0000
  const MAX_RAW: int := 0x7fff_ffff_ffff_ffff
  /** 2^64, the modulus of two's-complement wrap-around. */
  const WRAP: int := 0x1_0000_0000_0000_0000

  predicate InRange(v: int) { MIN_RAW <= v <= MAX_RAW }

  /** The raw storage type, `i64`. */
  type I64 = v: int | MIN_RAW <= v <= MAX_RAW

  datatype Q64 = Q64(raw: I64)

  const ZERO: Q64 := Q64(0)
  const ONE: Q64 := Q64(SCALE)
  const NEG_ONE: Q64 := Q64(-SCALE)
  const MIN: Q64 := Q64(MIN_RAW)
  const MAX: Q64 := Q64(MAX_RAW)
  /** The smallest positive value, one unit in the last place. */
  const DELTA: Q64 := Q64(1)
  /** pi * 2^32 = 13493037704.52..., rounded to nearest. */
  const PI: Q64 := Q64(13493037705)
  /** e * 2^32 = 11674931554.54..., rounded to nearest. */
  const E: Q64 := Q64(11674931555)

  function Pow2(k: nat): (r: nat)
    ensures r >= 1
  {
    if k == 0 then 1 else 2 * Pow2(k - 1)
  }

  lemma {:induction false} Pow2Add(a: nat, b: nat)
    ensures Pow2(a + b) == Pow2(a) * Pow2(b)
  {
    if a > 0 { Pow2Add(a - 1, b); }
  }

  lemma Pow2Scale()
    ensures Pow2(32) == SCALE
  {
    assert Pow2(2) == 4;
    Pow2Add(2, 2);
    Pow2Add(4, 4);
    Pow2Add(8, 8);
    Pow2Add(16, 16);
  }

  /** Clamps an exact result to [MIN, MAX]: the `saturating_*` family. */
  function Saturate(v: int): (r: I64)
    ensures InRange(v) ==> r == v
    ensures v < MIN_RAW ==> r == MIN_RAW
    ensures v > MAX_RAW ==> r == MAX_RAW
  {
    if v < MIN_RAW then MIN_RAW else if v > MAX_RAW then MAX_RAW else v
  }

  /** Two's-complement wrap-around of an exact result into i64 (release-build overflow). */
  function Wrap(v: int): (r: I64)
    ensures InRange(v) ==> r == v
    ensures (r - v) % WRAP == 0
  {
    var w := (v - MIN_RAW) % WRAP + MIN_RAW;
    assert w - v == WRAP * ((v - MIN_RAW) / WRAP) * -1;
    w
  }

  // ---------------------------------------------------------------------------------
  // Non-saturating operators (`+`, `-`, unary `-`, `*`, `/`, `%`, `>>`); each panics on
  // overflow in a debug build, so each requires that the exact result fits.

  function Add(a: Q64, b: Q64): (r: Q64)
    requires InRange(a.raw + b.raw)
    ensures r.raw == a.raw + b.raw
  {
    Q64(a.raw + b.raw)
  }

  function Sub(a: Q64, b: Q64): (r: Q64)
    requires InRange(a.raw - b.raw)
    ensures r.raw == a.raw - b.raw
  {
    Q64(a.raw - b.raw)
  }

  function Neg(a: Q64): (r: Q64)
    requires a != MIN
    ensures r.raw == -a.raw
  {
    Q64(-a.raw)
  }

  /** A value times a plain integer, as in `2 * PI` (exact). */
  function MulInt(a: Q64, n: int): (r: Q64)
    requires InRange(a.raw * n)
    ensures r.raw == a.raw * n
  {
    Q64(a.raw * n)
  }

  /** A value divided by a plain integer, rounding toward zero, as in `PI / 2`. */
  function DivInt(a: Q64, n: int): (r: Q64)
    requires n != 0 && InRange(TruncDiv(a.raw, n))
    ensures r.raw == TruncDiv(a.raw, n)
  {
    Q64(TruncDiv(a.raw, n))
  }

  /** Fixed-point product: the exact product a * b / 2^32 rounded down. */
  function Mul(a: Q64, b: Q64): (r: Q64)
    requires InRange(a.raw * b.raw / SCALE)
    ensures r.raw * SCALE <= a.raw * b.raw < r.raw * SCALE + SCALE
  {
    Q64(a.raw * b.raw / SCALE)
  }

  /** Fixed-point quotient a / b, rounded toward zero. */
  function Div(a: Q64, b: Q64): (r: Q64)
    requires b.raw != 0 && InRange(TruncDiv(a.raw * SCALE, b.raw))
    ensures r.raw == TruncDiv(a.raw * SCALE, b.raw)
    ensures Abs(r.raw) == Abs(a.raw * SCALE) / Abs(b.raw)
    ensures r.raw > 0 ==> (a.raw < 0) == (b.raw < 0)
    ensures r.raw < 0 ==> (a.raw < 0) != (b.raw < 0)
  {
    Q64(TruncDiv(a.raw * SCALE, b.raw))
  }

  /** The quotient a / b as a release build computes it: wrapped into i64 on overflow. */
  function DivWrapping(a: Q64, b: Q64): (r: Q64)
    requires b.raw != 0
    ensures InRange(TruncDiv(a.raw * SCALE, b.raw)) ==> r == Div(a, b)
  {
    Q64(Wrap(TruncDiv(a.raw * SCALE, b.raw)))
  }

  /** `%`: the raw remainder with the sign of the dividend (panics on `MIN % -DELTA`). */
  function Rem(a: Q64, b: Q64): (r: Q64)
    requires b.raw != 0 && !(a == MIN && b.raw == -1)
    ensures Abs(r.raw) < Abs(b.raw)
    ensures a.raw >= 0 ==> r.raw >= 0
    ensures a.raw < 0 ==> r.raw <= 0
    ensures r.raw == a.raw - b.raw * TruncDiv(a.raw, b.raw)
  {
    Q64(TruncRem(a.raw, b.raw))
  }

  /** `>> k`: arithmetic right shift of the raw value, a division by 2^k rounded down. */
  function Shr(a: Q64, k: nat): (r: Q64)
    ensures r.raw == a.raw / Pow2(k)
  {
    DivShrink(a.raw, Abs(a.raw), Pow2(k));
    Q64(a.raw / Pow2(k))
  }

  /** `from_num(I4F60::from_bits(b))`: narrows a 60-fractional-bit value to Q64, rounding down. */
  function Narrow60(b: I64): (r: Q64)
    ensures r.raw == b / 0x1000_0000
  {
    Q64(b / 0x1000_0000)
  }

  // ---------------------------------------------------------------------------------
  // Saturating operators: the exact result clamped to [MIN, MAX].

  function SaturatingAdd(a: Q64, b: Q64): (r: Q64)
    ensures r.raw == Saturate(a.raw + b.raw)
  {
    Q64(Saturate(a.raw + b.raw))
  }

  function SaturatingSub(a: Q64, b: Q64): (r: Q64)
    ensures r.raw == Saturate(a.raw - b.raw)
  {
    Q64(Saturate(a.raw - b.raw))
  }

  function SaturatingMul(a: Q64, b: Q64): (r: Q64)
    ensures r.raw == Saturate(a.raw * b.raw / SCALE)
  {
    Q64(Saturate(a.raw * b.raw / SCALE))
  }

  /** Saturating quotient (panics only on a zero divisor). */
  function SaturatingDiv(a: Q64, b: Q64): (r: Q64)
    requires b.raw != 0
    ensures r.raw == Saturate(TruncDiv(a.raw * SCALE, b.raw))
  {
    Q64(Saturate(TruncDiv(a.raw * SCALE, b.raw)))
  }

  /** `a.saturating_mul_add(m, c)`: a * m + c with one rounding and one clamp. */
  function SaturatingMulAdd(a: Q64, m: Q64, c: Q64): (r: Q64)
    ensures r.raw == Saturate(a.raw * m.raw / SCALE + c.raw)
  {
    Q64(Saturate(a.raw * m.raw / SCALE + c.raw))
  }

  /** `saturating_sqrt` on a non-negative value: the square root rounded down. */
  function SaturatingSqrt(a: Q64): (r: Q64)
    requires a.raw >= 0
    ensures r.raw >= 0
    ensures r.raw * r.raw <= a.raw * SCALE < (r.raw + 1) * (r.raw + 1)
    ensures r.raw == 0 <==> a.raw == 0
  {
    var n := a.raw * SCALE;
    var s := ISqrt(n);
    assert s <= MAX_RAW by {
      if s > 0x1_0000_0000_0000 {
        MulMono(s, 0x1_0000_0000_0000, s);
        MulMono(0x1_0000_0000_0000, 0x1_0000_0000_0000, s);
        MulMono(a.raw, 1, MAX_RAW);
        MulMono(SCALE, a.raw, MAX_RAW);
      }
    }
    assert s == 0 <==> a.raw == 0 by {
      if a.raw > 0 { MulMono(SCALE, 1, a.raw); }
    }
    Q64(s)
  }

  /** `recip`: ONE / a. */
  function Recip(a: Q64): (r: Q64)
    requires a.raw != 0 && InRange(TruncDiv(SCALE * SCALE, a.raw))
    ensures r == Div(ONE, a)
  {
    Div(ONE, a)
  }

  // ---------------------------------------------------------------------------------
  // Sign, ordering and rounding.

  /** `abs` (panics on MIN in a debug build). */
  function QAbs(a: Q64): (r: Q64)
    requires a != MIN
    ensures r.raw == Abs(a.raw)
  {
    Q64(Abs(a.raw))
  }

  /** `signum`: NEG_ONE, ZERO or ONE. */
  function Signum(a: Q64): (r: Q64)
    ensures a.raw < 0 ==> r == NEG_ONE
    ensures a.raw == 0 ==> r == ZERO
    ensures a.raw > 0 ==> r == ONE
  {
    if a.raw < 0 then NEG_ONE else if a.raw == 0 then ZERO else ONE
  }

  function QMin(a: Q64, b: Q64): (r: Q64)
    ensures r.raw <= a.raw && r.raw <= b.raw
    ensures r == a || r == b
  {
    if b.raw < a.raw then b else a
  }

  function QMax(a: Q64, b: Q64): (r: Q64)
    ensures r.raw >= a.raw && r.raw >= b.raw
    ensures r == a || r == b
  {
    if b.raw > a.raw then b else a
  }

  /** `Ord::clamp` (panics when lo > hi). */
  function QClamp(a: Q64, lo: Q64, hi: Q64): (r: Q64)
    requires lo.raw <= hi.raw
    ensures lo.raw <= r.raw <= hi.raw
    ensures lo.raw <= a.raw <= hi.raw ==> r == a
    ensures a.raw < lo.raw ==> r == lo
    ensures a.raw > hi.raw ==> r == hi
  {
    if a.raw < lo.raw then lo else if a.raw > hi.raw then hi else a
  }

  /** Largest integer value not above a. */
  function Floor(a: Q64): (r: Q64)
    ensures r.raw % SCALE == 0
    ensures r.raw <= a.raw < r.raw + SCALE
  {
    Q64(a.raw - a.raw % SCALE)
  }

  /** Smallest integer value not below a (panics when that is above MAX). */
  function Ceil(a: Q64): (r: Q64)
    requires InRange(a.raw + (SCALE - a.raw % SCALE) % SCALE)
    ensures r.raw % SCALE == 0
    ensures r.raw - SCALE < a.raw <= r.raw
  {
    Q64(a.raw + (SCALE - a.raw % SCALE) % SCALE)
  }

  /** Integer part, rounding toward zero (`round_to_zero`). */
  function RoundToZero(a: Q64): (r: Q64)
    ensures r.raw % SCALE == 0
    ensures Abs(r.raw) <= Abs(a.raw) < Abs(r.raw) + SCALE
    ensures a.raw >= 0 ==> r.raw >= 0
    ensures a.raw <= 0 ==> r.raw <= 0
  {
    if a.raw >= 0 then Floor(a)
    else
      var m := Abs(a.raw) % SCALE;
      DivMod(Abs(a.raw), SCALE);
      assert (Abs(a.raw) - m) % SCALE == 0 by { DivMod(Abs(a.raw) - m, SCALE); }
      Q64(-(Abs(a.raw) - m))
  }

  /** Nearest integer value, ties away from zero (panics when that is above MAX). */
  function Round(a: Q64): (r: Q64)
    requires InRange(if a.raw >= 0 then (a.raw + SCALE / 2) / SCALE * SCALE
                     else -((Abs(a.raw) + SCALE / 2) / SCALE * SCALE))
    ensures r.raw % SCALE == 0
    ensures 2 * Abs(r.raw - a.raw) <= SCALE
    ensures a.raw >= 0 ==> r.raw >= 0
    ensures a.raw <= 0 ==> r.raw <= 0
    ensures 2 * Abs(r.raw - a.raw) == SCALE ==> Abs(r.raw) > Abs(a.raw)
  {
    RoundHalfUp(Abs(a.raw));
    if a.raw >= 0 then Q64((a.raw + SCALE / 2) / SCALE * SCALE)
    else Q64(-((Abs(a.raw) + SCALE / 2) / SCALE * SCALE))
  }

  /** Rounding a magnitude half up: a multiple of SCALE within half a unit, and a tie goes up. */
  lemma RoundHalfUp(x: int)
    requires x >= 0
    ensures var r := (x + SCALE / 2) / SCALE * SCALE;
      r >= 0 && r % SCALE == 0 && 2 * Abs(r - x) <= SCALE && (2 * Abs(r - x) == SCALE ==> r > x)
  {
    DivMod(x + SCALE / 2, SCALE);
  }

  // ---------------------------------------------------------------------------------
  // Facts about the primitives.

  /** Multiplying by ONE is exact. */
  lemma MulOne(a: Q64)
    ensures InRange(a.raw * ONE.raw / SCALE) && Mul(a, ONE) == a
    ensures InRange(ONE.raw * a.raw / SCALE) && Mul(ONE, a) == a
    ensures SaturatingMul(a, ONE) == a && SaturatingMul(ONE, a) == a
  {
    assert a.raw * SCALE / SCALE == a.raw;
  }

  /** Multiplying by a factor of magnitude at most ONE never grows a value. */
  lemma MulNoGrow(v: Q64, c: Q64)
    requires Abs(c.raw) <= SCALE && v != MIN
    ensures InRange(v.raw * c.raw / SCALE) && Abs(Mul(v, c).raw) <= Abs(v.raw)
  {
    ScaleNoGrow(v.raw, c.raw, SCALE);
  }

  /** A shift by k keeps a bound b on the magnitude within b / 2^k + 1. */
  lemma ShrBound(a: Q64, k: nat, b: int)
    requires Abs(a.raw) <= b
    ensures Abs(Shr(a, k).raw) <= b / Pow2(k) + 1
  {
    DivShrink(a.raw, b, Pow2(k));
  }

  /** Zero divided by anything non-zero is zero, whichever overflow rule applies. */
  lemma ZeroQuotient(b: Q64)
    requires b.raw != 0
    ensures DivWrapping(ZERO, b) == ZERO && SaturatingDiv(ZERO, b) == ZERO
  {
    assert TruncDiv(0, b.raw) == 0;
  }
}
