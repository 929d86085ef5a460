/** Elementary functions and named constants (`QBasic for Q64`). */
module Basic {

  import opened NonLinear
  import opened Fixed
  import opened Wrappers

  // Each constant is a decimal literal rounded to the nearest multiple of 2^-32.

  /** "1.0e-8": 42.95 ulp, rounded to 43. */
  const EPS: Q64 := Q64(43)
  /** "0.5". */
  const HALF: Q64 := Q64(0x8000_0000)
  /** "2". */
  const TWO: Q64 := Q64(0x2_0000_0000)
  /** "-0.5". */
  const NEG_HALF: Q64 := Q64(-0x8000_0000)
  /** "-2". */
  const NEG_TWO: Q64 := Q64(-0x2_0000_0000)
  /** "-0.0000000002": -0.86 ulp, rounded to -1. */
  const NEG_DELTA: Q64 := Q64(-1)
  /** "-3.1415926535": one ulp closer to zero than the negation of PI. */
  const NEG_PI: Q64 := Q64(-13493037704)
  /** "6.283185307": two ulp below 2 * PI. */
  const TWO_PI: Q64 := Q64(26986075408)
  /** "-6.283185307". */
  const NEG_TWO_PI: Q64 := Q64(-26986075408)

  /** The negative constants are the negations of the positive ones, EPS is positive, and
      TWO_PI and NEG_PI, being decimal literals, sit two and one ulp inside 2 * PI and -PI. */
  lemma ConstantRelations()
    ensures NEG_HALF == Neg(HALF) && NEG_TWO == Neg(TWO) && NEG_TWO_PI == Neg(TWO_PI)
    ensures NEG_DELTA == Neg(DELTA) && EPS.raw > 0
    ensures TWO_PI.raw == 2 * PI.raw - 2 && NEG_PI.raw == -PI.raw + 1
    ensures HALF.raw * 2 == ONE.raw && TWO.raw == 2 * ONE.raw
  {
  }

  // ---------------------------------------------------------------------------------
  // `sqrt`: only the guard branches; the Newton iteration is not part of this model.

  /** The guards of `sqrt`: Some(ZERO) for a negative input (signum is NEG_ONE), the input
      itself for ZERO, and None where the Newton iteration would run (positive inputs). */
  function SqrtGuard(x: Q64): (r: Option<Q64>)
    ensures x.raw < 0 ==> r == Some(ZERO)
    ensures x == ZERO ==> r == Some(x)
    ensures r.None? <==> x.raw > 0
  {
    if Signum(x) == NEG_ONE then Some(ZERO)
    else if x == ZERO then Some(x)
    else None
  }

  // ---------------------------------------------------------------------------------
  // `powi`.

  /** The `isize` exponent range; `n.abs()` panics on the minimum in a debug build, so it
      is excluded. */
  predicate IsizeAbsOk(n: int) { -0x7fff_ffff_ffff_ffff <= n <= 0x7fff_ffff_ffff_ffff }

  /** Whether squaring x m times in a row never overflows. */
  predicate SquaringsFit(x: Q64, m: nat)
    decreases m, 0
  {
    m == 0
    || (SquaringsFit(x, m - 1)
        && InRange(Squarings(x, m - 1).raw * Squarings(x, m - 1).raw / SCALE))
  }

  lemma {:induction false} SquaringsFitPrefix(x: Q64, m: nat, j: nat)
    requires j <= m && SquaringsFit(x, m)
    ensures SquaringsFit(x, j)
    decreases m - j
  {
    if j < m { SquaringsFitPrefix(x, m - 1, j); }
  }

  /** x squared m times in a row: each step is one `current_power * current_power`. */
  function Squarings(x: Q64, m: nat): Q64
    requires SquaringsFit(x, m)
    decreases m, 1
  {
    if m == 0 then x else Mul(Squarings(x, m - 1), Squarings(x, m - 1))
  }

  /** Whether the powi loop and its final `recip` run without a panic. */
  predicate PowiAsWrittenOk(x: Q64, n: int)
  {
    IsizeAbsOk(n) && (n != 0 ==> SquaringsFit(x, Abs(n) - 1))
    && (n < 0 ==> Squarings(x, Abs(n) - 1).raw != 0
                  && InRange(TruncDiv(SCALE * SCALE, Squarings(x, Abs(n) - 1).raw)))
  }

  /** `powi` as written: for n != 0 the loop squares `current_power` on every pass but the
      last, so it returns x^(2^(|n| - 1)) (rounded), inverted when n < 0. */
  function PowiAsWrittenValue(x: Q64, n: int): (r: Q64)
    requires PowiAsWrittenOk(x, n)
    ensures n == 0 ==> r == ONE
    ensures n > 0 ==> r == Squarings(x, n - 1)
    ensures n < 0 ==> r == Recip(Squarings(x, -n - 1))
  {
    if n == 0 then ONE
    else
      var p := Squarings(x, Abs(n) - 1);
      MulOne(p);
      if n < 0 then Recip(Mul(ONE, p)) else Mul(ONE, p)
  }

  /** The loop of `powi` as written, for an exponent of magnitude m >= 1: every pass but
      the last squares `current_power`; the last multiplies it into `result` and breaks. */
  method SquaringLoop(x: Q64, m: nat) returns (result: Q64)
    requires m >= 1 && SquaringsFit(x, m - 1)
    ensures result == Squarings(x, m - 1)
  {
    var absExponent := m;
    var currentPower := x;
    result := ONE;
    while absExponent > 0
      invariant 1 <= absExponent <= m
      invariant SquaringsFit(x, m - absExponent)
      invariant currentPower == Squarings(x, m - absExponent)
      invariant result == ONE
      decreases absExponent
    {
      if absExponent == 1 {
        MulOne(currentPower);
        result := Mul(result, currentPower);
        break;
      }
      SquaringsFitPrefix(x, m - 1, m - absExponent + 1);
      currentPower := Mul(currentPower, currentPower);
      absExponent := absExponent - 1;
    }
  }

  /** `powi` as written. */
  method PowiAsWritten(x: Q64, n: int) returns (result: Q64)
    requires PowiAsWrittenOk(x, n)
    ensures result == PowiAsWrittenValue(x, n)
  {
    if n == 0 {
      return ONE;
    }
    result := SquaringLoop(x, Abs(n));
    if n < 0 {
      result := Recip(result);
    }
  }

  /** Finding: `TWO.powi(3)` is 16, not 8 (two squarings instead of three products). */
  lemma PowiAsWrittenCubesWrong()
    ensures PowiAsWrittenOk(TWO, 3) && PowiAsWrittenValue(TWO, 3) == Q64(16 * SCALE)
  {
    assert Squarings(TWO, 1) == Q64(4 * SCALE);
    assert Squarings(TWO, 2) == Q64(16 * SCALE);
  }

  /** Whether multiplying ONE by x m times never overflows. */
  predicate PowFits(x: Q64, m: nat)
    decreases m, 0
  {
    m == 0 || (PowFits(x, m - 1) && InRange(Pow(x, m - 1).raw * x.raw / SCALE))
  }

  lemma {:induction false} PowFitsPrefix(x: Q64, m: nat, j: nat)
    requires j <= m && PowFits(x, m)
    ensures PowFits(x, j)
    decreases m - j
  {
    if j < m { PowFitsPrefix(x, m - 1, j); }
  }

  /** x^m as m products `result * x`, starting from ONE. */
  function Pow(x: Q64, m: nat): Q64
    requires PowFits(x, m)
    decreases m, 1
  {
    if m == 0 then ONE else Mul(Pow(x, m - 1), x)
  }

  /** Integer powers, the reference for `Pow` on whole numbers. */
  function IntPow(a: int, m: nat): int
  {
    if m == 0 then 1 else IntPow(a, m - 1) * a
  }

  /** Whether the corrected `powi` runs without a panic. */
  predicate PowiOk(x: Q64, n: int)
  {
    IsizeAbsOk(n) && PowFits(x, Abs(n))
    && (n < 0 ==> Pow(x, Abs(n)).raw != 0 && InRange(TruncDiv(SCALE * SCALE, Pow(x, Abs(n)).raw)))
  }

  /** `powi` corrected: |n| products of x, inverted when n < 0. */
  function PowiValue(x: Q64, n: int): (r: Q64)
    requires PowiOk(x, n)
    ensures n >= 0 ==> r == Pow(x, n)
    ensures n < 0 ==> r == Recip(Pow(x, -n))
  {
    if n < 0 then Recip(Pow(x, Abs(n))) else Pow(x, n)
  }

  /** The corrected loop: multiply `result` by x once per pass, m passes. */
  method PowLoop(x: Q64, m: nat) returns (result: Q64)
    requires PowFits(x, m)
    ensures result == Pow(x, m)
  {
    result := ONE;
    var absExponent := m;
    while absExponent > 0
      invariant 0 <= absExponent <= m
      invariant PowFits(x, m - absExponent)
      invariant result == Pow(x, m - absExponent)
      decreases absExponent
    {
      PowFitsPrefix(x, m, m - absExponent + 1);
      result := Mul(result, x);
      absExponent := absExponent - 1;
    }
  }

  /** `powi` corrected. */
  method Powi(x: Q64, n: int) returns (result: Q64)
    requires PowiOk(x, n)
    ensures result == PowiValue(x, n)
  {
    if n == 0 {
      return ONE;
    }
    result := PowLoop(x, Abs(n));
    if n < 0 {
      result := Recip(result);
    }
  }

  /** On a whole number the corrected `powi` is the exact integer power. */
  lemma {:induction false} PowExactOnIntegers(a: int, m: nat)
    requires InRange(a * SCALE) && PowFits(Q64(a * SCALE), m)
    ensures Pow(Q64(a * SCALE), m).raw == IntPow(a, m) * SCALE
  {
    if m > 0 {
      PowExactOnIntegers(a, m - 1);
      var p := IntPow(a, m - 1);
      assert (p * SCALE) * (a * SCALE) == (p * a * SCALE) * SCALE;
      ModUnique((p * SCALE) * (a * SCALE), SCALE, p * a * SCALE, 0);
    }
  }

  /** The correction agrees with the source wherever the source is right: exponents of
      magnitude at most two, so both documented examples keep their values. */
  lemma PowiAgreesUpToSquares(x: Q64, n: int)
    requires -2 <= n <= 2 && PowiAsWrittenOk(x, n) && PowiOk(x, n)
    ensures PowiValue(x, n) == PowiAsWrittenValue(x, n)
  {
    MulOne(x);
    if n == 2 || n == -2 {
      assert Pow(x, 2) == Mul(Pow(x, 1), x);
      assert Squarings(x, 1) == Mul(x, x);
    }
  }

  /** The corrected `powi` gives TWO.powi(3) == 8. */
  lemma PowiCubesRight()
    ensures PowiOk(TWO, 3) && PowiValue(TWO, 3) == Q64(8 * SCALE)
  {
    PowExactOnIntegers(2, 3);
  }

  /** The documented examples: `MAX.powi(-1) == ONE / MAX` and
      `PI.powi(-2) == ONE / PI.powi(2)`, both for the code as written and for the
      correction. */
  lemma PowiDocExamples()
    ensures PowiOk(MAX, -1) && PowiValue(MAX, -1) == Div(ONE, MAX)
    ensures PowiOk(PI, 2) && PowiOk(PI, -2) && PowiValue(PI, -2) == Div(ONE, PowiValue(PI, 2))
    ensures PowiAsWrittenOk(MAX, -1) && PowiAsWrittenValue(MAX, -1) == Div(ONE, MAX)
    ensures PowiAsWrittenOk(PI, 2) && PowiAsWrittenOk(PI, -2)
    ensures PowiAsWrittenValue(PI, -2) == Div(ONE, PowiAsWrittenValue(PI, 2))
  {
    MulOne(MAX);
    MulOne(PI);
    PowiAgreesUpToSquares(MAX, -1);
    PowiAgreesUpToSquares(PI, 2);
    PowiAgreesUpToSquares(PI, -2);
  }

  // ---------------------------------------------------------------------------------
  // `exp`: the Taylor series cut after the x^12 / 12! term.

  /** `self / i` for a loop counter i >= 1: never overflows and never grows the value. */
  function DivByCount(x: Q64, i: int): (r: Q64)
    requires i >= 1
    ensures r == DivInt(x, i)
    ensures Abs(r.raw) <= Abs(x.raw)
    ensures x.raw >= 0 ==> r.raw >= 0
  {
    DivNonneg(Abs(x.raw), i);
    DivInt(x, i)
  }

  /** Whether the first i passes of the series loop run without an overflow. */
  predicate ExpFits(x: Q64, i: nat)
    decreases i, 0
  {
    i == 0
    || (ExpFits(x, i - 1)
        && InRange(ExpState(x, i - 1).1.raw * DivByCount(x, i).raw / SCALE)
        && InRange(ExpState(x, i - 1).0.raw + Mul(ExpState(x, i - 1).1, DivByCount(x, i)).raw))
  }

  /** `(rst, term)` after i passes: term is multiplied by x / i and added to rst. */
  function ExpState(x: Q64, i: nat): (Q64, Q64)
    requires ExpFits(x, i)
    decreases i, 1
  {
    if i == 0 then (ONE, ONE)
    else
      var prev := ExpState(x, i - 1);
      var term := Mul(prev.1, DivByCount(x, i));
      (Add(prev.0, term), term)
  }

  /** The number of series terms after the constant one. */
  const EXP_TERMS: nat := 12

  /** `exp` where none of its twelve passes overflows. */
  function ExpValue(x: Q64): Q64
    requires ExpFits(x, EXP_TERMS)
  {
    ExpState(x, EXP_TERMS).0
  }

  lemma {:induction false} ExpFitsPrefix(x: Q64, i: nat, j: nat)
    requires j <= i && ExpFits(x, i)
    ensures ExpFits(x, j)
    decreases i - j
  {
    if j < i { ExpFitsPrefix(x, i - 1, j); }
  }

  /** One pass of the series loop. */
  method ExpPass(x: Q64, i: nat, rst: Q64, term: Q64) returns (rst': Q64, term': Q64)
    requires 1 <= i && ExpFits(x, i) && (rst, term) == ExpState(x, i - 1)
    ensures (rst', term') == ExpState(x, i)
  {
    var temp := DivInt(x, i);
    term' := Mul(term, temp);
    rst' := Add(rst, term');
  }

  /** The `exp` loop. */
  method Exp(x: Q64) returns (rst: Q64)
    requires ExpFits(x, EXP_TERMS)
    ensures rst == ExpValue(x)
  {
    rst := ONE;
    var term := ONE;
    for i := 1 to EXP_TERMS + 1
      invariant ExpFits(x, i - 1) && (rst, term) == ExpState(x, i - 1)
    {
      ExpFitsPrefix(x, EXP_TERMS, i);
      rst, term := ExpPass(x, i, rst, term);
    }
  }

  lemma {:induction false} ExpZeroState(i: nat)
    ensures ExpFits(ZERO, i)
    ensures ExpState(ZERO, i) == if i == 0 then (ONE, ONE) else (ONE, ZERO)
  {
    if i > 0 {
      ExpZeroState(i - 1);
      assert DivByCount(ZERO, i) == ZERO;
      assert Mul(ExpState(ZERO, i - 1).1, ZERO) == ZERO;
    }
  }

  /** exp(0) == 1: every term after the first vanishes. */
  lemma ExpOfZero()
    ensures ExpFits(ZERO, EXP_TERMS) && ExpValue(ZERO) == ONE
  {
    ExpZeroState(EXP_TERMS);
  }

  lemma {:induction false} ExpUnitState(x: Q64, i: nat)
    requires Abs(x.raw) <= SCALE && i <= EXP_TERMS
    ensures ExpFits(x, i)
    ensures Abs(ExpState(x, i).1.raw) <= SCALE
    ensures Abs(ExpState(x, i).0.raw) <= (i + 1) * SCALE
  {
    if i > 0 {
      ExpUnitState(x, i - 1);
      var prev := ExpState(x, i - 1);
      var q := DivByCount(x, i);
      MulNoGrow(prev.1, q);
      var term := Mul(prev.1, q);
      assert Abs(term.raw) <= SCALE;
      Distrib(SCALE, i, 1);
      assert (i + 1) * SCALE == i * SCALE + SCALE;
      assert Abs(prev.0.raw) <= i * SCALE;
      assert InRange(prev.0.raw + term.raw);
    }
  }

  /** On [-1, 1] the series never overflows, and every partial sum stays within 13. */
  lemma ExpDefinedOnUnitInterval(x: Q64)
    requires Abs(x.raw) <= SCALE
    ensures ExpFits(x, EXP_TERMS)
    ensures Abs(ExpValue(x).raw) <= (EXP_TERMS + 1) * SCALE
  {
    ExpUnitState(x, EXP_TERMS);
  }

  lemma {:induction false} ExpNonnegState(x: Q64, i: nat)
    requires x.raw >= 0 && ExpFits(x, i)
    ensures ExpState(x, i).1.raw >= 0
    ensures i >= 1 ==> ExpState(x, i).0.raw >= SCALE + x.raw
  {
    if i > 0 {
      ExpNonnegState(x, i - 1);
      var prev := ExpState(x, i - 1);
      var q := DivByCount(x, i);
      MulMono(prev.1.raw, 0, q.raw);
      DivNonneg(prev.1.raw * q.raw, SCALE);
      if i == 1 {
        assert q == x;
        MulOne(x);
      }
    }
  }

  /** For x >= 0 the series is at least its first two terms: exp(x) >= 1 + x. */
  lemma ExpAboveTangent(x: Q64)
    requires x.raw >= 0 && ExpFits(x, EXP_TERMS)
    ensures ExpValue(x).raw >= ONE.raw + x.raw
  {
    ExpNonnegState(x, EXP_TERMS);
  }

  /** q is `x / i` when q * i <= x < q * i + i. */
  lemma CountQuotient(x: Q64, i: int, q: int)
    requires i >= 1 && x.raw >= 0 && q * i <= x.raw < q * i + i
    ensures DivByCount(x, i).raw == q
  {
    ModUnique(x.raw, i, q, x.raw - q * i);
  }

  /** t is the product a * b when t * 2^32 <= a * b < t * 2^32 + 2^32. */
  lemma ProductPinned(a: Q64, b: Q64, t: int)
    requires InRange(t) && t * SCALE <= a.raw * b.raw < t * SCALE + SCALE
    ensures InRange(a.raw * b.raw / SCALE) && Mul(a, b).raw == t
  {
    ModUnique(a.raw * b.raw, SCALE, t, a.raw * b.raw - t * SCALE);
  }

  /** One pass of the series on a non-negative x, written out on raw values: q is `x / i`
      and t the new term, each given by the bounds that pin a quotient rounded down. */
  lemma ExpStepValue(x: Q64, i: nat, rst: Q64, term: Q64, q: int, t: int)
    requires 1 <= i && ExpFits(x, i - 1) && ExpState(x, i - 1) == (rst, term)
    requires x.raw >= 0 && q * i <= x.raw < q * i + i
    requires InRange(t) && t * SCALE <= term.raw * q < t * SCALE + SCALE
    requires InRange(rst.raw + t)
    ensures ExpFits(x, i) && ExpState(x, i) == (Q64(rst.raw + t), Q64(t))
  {
    CountQuotient(x, i, q);
    var d := DivByCount(x, i);
    ProductPinned(term, d, t);
  }

  lemma ExpOneFirstSteps(x: Q64)
    requires x == ONE
    ensures ExpFits(x, 4) && ExpState(x, 4) == (Q64(11632203092), Q64(178956970))
  {
    ExpStepValue(x, 1, Q64(4294967296), Q64(4294967296), 4294967296, 4294967296);
    ExpStepValue(x, 2, Q64(8589934592), Q64(4294967296), 2147483648, 2147483648);
    ExpStepValue(x, 3, Q64(10737418240), Q64(2147483648), 1431655765, 715827882);
    ExpStepValue(x, 4, Q64(11453246122), Q64(715827882), 1073741824, 178956970);
  }

  lemma ExpOneMiddleSteps(x: Q64)
    requires x == ONE
    requires ExpFits(x, 4) && ExpState(x, 4) == (Q64(11632203092), Q64(178956970))
    ensures ExpFits(x, 8) && ExpState(x, 8) == (Q64(11674918413), Q64(106521))
  {
    ExpStepValue(x, 5, Q64(11632203092), Q64(178956970), 858993459, 35791393);
    ExpStepValue(x, 6, Q64(11667994485), Q64(35791393), 715827882, 5965232);
    ExpStepValue(x, 7, Q64(11673959717), Q64(5965232), 613566756, 852175);
    ExpStepValue(x, 8, Q64(11674811892), Q64(852175), 536870912, 106521);
  }

  lemma ExpOneLastSteps(x: Q64)
    requires x == ONE
    requires ExpFits(x, 8) && ExpState(x, 8) == (Q64(11674918413), Q64(106521))
    ensures ExpFits(x, 12) && ExpState(x, 12) == (Q64(11674931546), Q64(8))
  {
    ExpStepValue(x, 9, Q64(11674918413), Q64(106521), 477218588, 11835);
    ExpStepValue(x, 10, Q64(11674930248), Q64(11835), 429496729, 1183);
    ExpStepValue(x, 11, Q64(11674931431), Q64(1183), 390451572, 107);
    ExpStepValue(x, 12, Q64(11674931538), Q64(107), 357913941, 8);
  }

  /** The documented example: `ONE.exp()` is within EPS of E (it is nine ulp below). */
  lemma ExpOneNearE()
    ensures ExpFits(ONE, EXP_TERMS) && ExpValue(ONE) == Q64(E.raw - 9)
    ensures Abs(ExpValue(ONE).raw - E.raw) <= EPS.raw
  {
    ExpOneFirstSteps(ONE);
    ExpOneMiddleSteps(ONE);
    ExpOneLastSteps(ONE);
  }

  // ---------------------------------------------------------------------------------
  // `half`.

  /** `half` is `saturating_mul(HALF)`: x / 2 rounded down, which never saturates. */
  function Half(x: Q64): (r: Q64)
    ensures r.raw * 2 <= x.raw <= r.raw * 2 + 1
    ensures Abs(r.raw) <= Abs(x.raw)
  {
    ModUnique(x.raw * HALF.raw, SCALE, x.raw / 2, (x.raw % 2) * HALF.raw);
    SaturatingMul(x, HALF)
  }

  /** Halving undoes doubling. */
  lemma HalfOfDouble(x: Q64)
    requires InRange(x.raw * 2)
    ensures Half(MulInt(x, 2)) == x
  {
  }

  /** Halving twice equals one division by four, rounded down. */
  lemma HalfTwice(x: Q64)
    ensures Half(Half(x)).raw == x.raw / 4
  {
    DivMod(x.raw, 4);
  }
}
