/** The CORDIC trigonometric kernel (`QCoordic for Q64`).

    Every function runs 32 shift-and-add steps over a fixed table of
    (k, atan(2^-k), cos(atan(2^-k))) entries stored with 60 fractional bits. */
module Coordic {

  import opened NonLinear
  import opened Fixed
  import opened Basic
  import opened Wrappers

  /** One table row: its index, atan(2^-k) and cos(atan(2^-k)), both as raw I4F60 bits. */
  datatype Entry = Entry(k: int, rad: I64, cos: I64)

  const STEPS: nat := 32

  /** `CIRCLE_I4F60`. */
  const CIRCLE: seq<Entry> := [
      Entry(0, 905502432259640320, 815238614083298944),
      Entry(1, 534549298976576448, 1031204342808898688),
      Entry(2, 282441168888798112, 1118498150950604288),
      Entry(3, 143371547418228448, 1144018502608809088),
      Entry(4, 71963988336308048, 1150676280461235072),
      Entry(5, 36017075762092180, 1152358966635028224),
      Entry(6, 18012932708689206, 1152780792883053696),
      Entry(7, 9007016009513623, 1152886321845288960),
      Entry(8, 4503576721087964, 1152912708614486784),
      Entry(9, 2251796950380271, 1152919305589882880),
      Entry(10, 1125899548928888, 1152920954851426304),
      Entry(11, 562949908682076, 1152921367167918080),
      Entry(12, 281474971118251, 1152921470247110144),
      Entry(13, 140737487656277, 1152921496016912512),
      Entry(14, 70368744090283, 1152921502459363328),
      Entry(15, 35184372077909, 1152921504069976064),
      Entry(16, 17592186043051, 1152921504472629248),
      Entry(17, 8796093022037, 1152921504573292544),
      Entry(18, 4398046511083, 1152921504598458368),
      Entry(19, 2199023255549, 1152921504604749824),
      Entry(20, 1099511627776, 1152921504606322688),
      Entry(21, 549755813888, 1152921504606715904),
      Entry(22, 274877906944, 1152921504606814208),
      Entry(23, 137438953472, 1152921504606838784),
      Entry(24, 68719476736, 1152921504606844928),
      Entry(25, 34359738368, 1152921504606846464),
      Entry(26, 17179869184, 1152921504606846848),
      Entry(27, 8589934592, 1152921504606846976),
      Entry(28, 4294967296, 1152921504606846976),
      Entry(29, 2147483648, 1152921504606846976),
      Entry(30, 1073741824, 1152921504606846976),
      Entry(31, 536870912, 1152921504606846976)
  ]

  /** `CIRCLE_KN_I4F60`: the CORDIC gain 1 / prod(sqrt(1 + 2^-2k)) = 0.6072..., as I4F60 bits. */
  const CIRCLE_KN: I64 := 700114967507363456

  /** The sum of the narrowed table angles from step k to the last one. */
  function Tail(k: nat): (r: int)
    requires k <= STEPS
    decreases STEPS - k
  {
    if k == STEPS then 0 else Angle(k).raw + Tail(k + 1)
  }

  /** The rotation angle of step k, narrowed to Q64. */
  function Angle(k: nat): (r: Q64)
    requires k < STEPS
  {
    Narrow60(CIRCLE[k].rad)
  }

  /** The gain correction of step k, narrowed to Q64. */
  function CosFactor(k: nat): (r: Q64)
    requires k < STEPS
  {
    Narrow60(CIRCLE[k].cos)
  }

  /** The partial sums Tail(k), written out. */
  const TAILS: seq<int> := [
    7487359006, 4114099580, 2122748263, 1070572917, 536472283, 268385536, 134211474,
    67108071, 33554322, 16777192, 8388595, 4194293, 2097142, 1048567, 524280, 262137,
    131066, 65531, 32764, 16381, 8190, 4094, 2046, 1022, 510, 254, 126, 62, 30, 14, 6, 2, 0]

  /** The table is well formed: indices run 0..31, the angles are positive and strictly
      decreasing (also after narrowing), and the cos factors never decrease and never
      exceed 1.0. */
  lemma TableWellFormed()
    ensures |CIRCLE| == STEPS
    ensures forall k :: 0 <= k < STEPS ==> CIRCLE[k].k == k
    ensures forall k :: 0 <= k < STEPS ==> CIRCLE[k].rad > 0 && Angle(k).raw > 0
    ensures forall k :: 0 <= k < STEPS - 1 ==> CIRCLE[k + 1].rad < CIRCLE[k].rad
    ensures forall k :: 0 <= k < STEPS - 1 ==> Angle(k + 1).raw < Angle(k).raw
    ensures forall k :: 0 <= k < STEPS - 1 ==> CIRCLE[k].cos <= CIRCLE[k + 1].cos
    ensures forall k :: 0 <= k < STEPS ==> 0 < CIRCLE[k].cos <= 0x1000_0000_0000_0000
  {
    forall k | 0 <= k < STEPS
      ensures CIRCLE[k].k == k && CIRCLE[k].rad > 0 && Angle(k).raw > 0
      ensures 0 < CIRCLE[k].cos <= 0x1000_0000_0000_0000
      ensures k < STEPS - 1 ==> CIRCLE[k + 1].rad < CIRCLE[k].rad
      ensures k < STEPS - 1 ==> Angle(k + 1).raw < Angle(k).raw
      ensures k < STEPS - 1 ==> CIRCLE[k].cos <= CIRCLE[k + 1].cos
    {
      assert k == 0 || k == 1 || k == 2 || k == 3 || k == 4 || k == 5 || k == 6 || k == 7
          || k == 8 || k == 9 || k == 10 || k == 11 || k == 12 || k == 13 || k == 14 || k == 15
          || k == 16 || k == 17 || k == 18 || k == 19 || k == 20 || k == 21 || k == 22
          || k == 23 || k == 24 || k == 25 || k == 26 || k == 27 || k == 28 || k == 29
          || k == 30 || k == 31;
    }
  }

  /** Slack of the convergence argument: every angle is covered by the angles after it
      plus this many ulp (the narrowed table falls short of exact halving by up to 7). */
  const RESIDUAL: int := 9

  /** The written-out partial sums agree with the table, one step at a time, and every
      angle is covered by the ones after it up to RESIDUAL. */
  lemma TailsStep(k: nat)
    requires k <= STEPS
    ensures 0 <= TAILS[k] <= TAILS[0]
    ensures k < STEPS ==> TAILS[k] == Angle(k).raw + TAILS[k + 1]
    ensures k < STEPS ==> 0 < Angle(k).raw <= TAILS[k + 1] + RESIDUAL
    ensures k < STEPS ==> 0 < CosFactor(k).raw <= SCALE
  {
    assert k == 0 || k == 1 || k == 2 || k == 3 || k == 4 || k == 5 || k == 6 || k == 7
        || k == 8 || k == 9 || k == 10 || k == 11 || k == 12 || k == 13 || k == 14 || k == 15
        || k == 16 || k == 17 || k == 18 || k == 19 || k == 20 || k == 21 || k == 22
        || k == 23 || k == 24 || k == 25 || k == 26 || k == 27 || k == 28 || k == 29
        || k == 30 || k == 31 || k == 32;
  }

  lemma {:induction false} TailValue(k: nat)
    requires k <= STEPS
    ensures Tail(k) == TAILS[k]
    decreases STEPS - k
  {
    if k < STEPS {
      TailValue(k + 1);
      TailsStep(k);
    }
  }

  /** Tail(k) is the sum of the remaining angles: non-negative, at most the whole sum,
      and each step removes exactly one table angle. */
  lemma TailFacts(k: nat)
    requires k <= STEPS
    ensures 0 <= Tail(k) <= TAILS[0]
    ensures k < STEPS ==> Tail(k) == Angle(k).raw + Tail(k + 1)
    ensures k < STEPS ==> 0 < Angle(k).raw <= Tail(k + 1) + RESIDUAL
  {
    TailValue(k);
    TailsStep(k);
    if k < STEPS { TailValue(k + 1); }
  }

  // ---------------------------------------------------------------------------------
  // Coordinates.

  /** A bound on |x| and |y| after n shift-and-add steps from a vector of length at most 1:
      step k adds at most (the other coordinate) / 2^k + 1, and the growth stays below 6.0. */
  function CoordBound(n: nat): (b: int)
    requires n <= STEPS
  {
    if n == 0 then SCALE
    else if n == 1 then 2 * SCALE + 1
    else if n == 2 then 3 * SCALE + 2
    else 6 * SCALE - 14 * Pow2(STEPS - n)
  }

  lemma CoordBoundFacts(n: nat)
    requires n <= STEPS
    ensures SCALE <= CoordBound(n) <= 6 * SCALE
    ensures n < STEPS ==> CoordBound(n) + CoordBound(n) / Pow2(n) + 1 <= CoordBound(n + 1)
  {
    if n >= 3 {
      var p := Pow2(STEPS - n);
      assert p <= 0x2000_0000 by {
        Pow2Scale();
        Pow2Add(STEPS - n, n);
        assert Pow2(n) >= 8 by { Pow2Add(3, n - 3); assert Pow2(3) == 8; MulMono(8, 1, Pow2(n - 3)); }
        MulMono(p, 8, Pow2(n));
      }
      if n < STEPS { CoordBoundGrowth(n); }
    } else if n == 2 {
      assert Pow2(STEPS - 3) == 0x2000_0000 by { Pow2Scale(); Pow2Add(29, 3); assert Pow2(3) == 8; }
      assert Pow2(2) == 4;
    }
  }

  lemma CoordBoundGrowth(n: nat)
    requires 3 <= n < STEPS
    ensures CoordBound(n) + CoordBound(n) / Pow2(n) + 1 <= CoordBound(n + 1)
  {
    var p := Pow2(STEPS - n);
    var q := Pow2(n);
    var b := CoordBound(n);
    assert p * q == SCALE by { Pow2Scale(); Pow2Add(STEPS - n, n); }
    assert q * (6 * p) == 6 * SCALE;
    DivLe(b, q, 6 * p);
    assert p == 2 * Pow2(STEPS - (n + 1));
  }

  /** The shift-and-add of step k never overflows and keeps both coordinates within
      CoordBound(k + 1). */
  lemma TurnSafe(x: Q64, y: Q64, k: nat)
    requires k < STEPS && Abs(x.raw) <= CoordBound(k) && Abs(y.raw) <= CoordBound(k)
    ensures InRange(x.raw - Shr(y, k).raw) && InRange(x.raw + Shr(y, k).raw)
    ensures InRange(y.raw - Shr(x, k).raw) && InRange(y.raw + Shr(x, k).raw)
    ensures Abs(x.raw - Shr(y, k).raw) <= CoordBound(k + 1)
    ensures Abs(x.raw + Shr(y, k).raw) <= CoordBound(k + 1)
    ensures Abs(y.raw - Shr(x, k).raw) <= CoordBound(k + 1)
    ensures Abs(y.raw + Shr(x, k).raw) <= CoordBound(k + 1)
  {
    CoordBoundFacts(k);
    CoordBoundFacts(k + 1);
    ShrBound(x, k, CoordBound(k));
    ShrBound(y, k, CoordBound(k));
  }

  // ---------------------------------------------------------------------------------
  // Rotation mode (`sin_cos`).

  /** The loop state: coordinates and the angle accumulator (`remain` or `z`). */
  datatype Rot = Rot(x: Q64, y: Q64, z: Q64)

  /** Rotation step k: turn counter-clockwise while angle remains, clockwise otherwise, and
      move `remain` by exactly the step's table angle towards zero. */
  function RotationStep(s: Rot, k: nat): (r: Rot)
    requires k < STEPS && Abs(s.x.raw) <= CoordBound(k) && Abs(s.y.raw) <= CoordBound(k)
    requires Abs(s.z.raw) <= Tail(k) + RESIDUAL
    ensures Abs(r.x.raw) <= CoordBound(k + 1) && Abs(r.y.raw) <= CoordBound(k + 1)
    ensures Abs(r.z.raw) <= Tail(k + 1) + RESIDUAL
    ensures Abs(r.z.raw - s.z.raw) == Angle(k).raw
    ensures r.z.raw < s.z.raw <==> s.z.raw > 0
  {
    TurnSafe(s.x, s.y, k);
    TailFacts(k);
    TailFacts(k + 1);
    if s.z.raw > 0 then
      Rot(Sub(s.x, Shr(s.y, k)), Add(Shr(s.x, k), s.y), Sub(s.z, Angle(k)))
    else
      Rot(Add(s.x, Shr(s.y, k)), Sub(s.y, Shr(s.x, k)), Add(s.z, Angle(k)))
  }

  /** The state after n rotation steps of `sin_cos` from (ONE, ZERO) with `remain` = angle.
      |remain| never exceeds the angles still to come plus RESIDUAL, so after all 32 steps
      the rotation applied equals the angle to within 9 ulp. */
  function RotationAfter(angle: Q64, n: nat): (s: Rot)
    requires n <= STEPS && Abs(angle.raw) <= TAILS[0] + RESIDUAL
    ensures Abs(s.x.raw) <= CoordBound(n) && Abs(s.y.raw) <= CoordBound(n)
    ensures Abs(s.z.raw) <= Tail(n) + RESIDUAL
  {
    if n == 0 then
      TailValue(0);
      Rot(ONE, ZERO, angle)
    else
      RotationStep(RotationAfter(angle, n - 1), n - 1)
  }

  // ---------------------------------------------------------------------------------
  // Argument reduction (`sin_cos`).

  /** `2 * Self::PI`, `Self::PI / 2` and `Self::PI * 3 / 2` as the source computes them. */
  const FULL_TURN: Q64 := MulInt(PI, 2)
  const HALF_PI: Q64 := DivInt(PI, 2)
  const THREE_HALF_PI: Q64 := DivInt(MulInt(PI, 3), 2)
  /** The gain K narrowed to Q64, the initial `result_factor`. */
  const GAIN: Q64 := Narrow60(CIRCLE_KN)

  lemma ReductionConstants()
    ensures FULL_TURN.raw == 2 * PI.raw == 26986075410
    ensures HALF_PI.raw == 6746518852 && THREE_HALF_PI.raw == 20239556557
    ensures GAIN.raw == 2608131496
  {
  }

  /** The reduced angle and the sign-carrying gain that `sin_cos` multiplies the result by. */
  datatype Reduced = Reduced(angle: Q64, factor: Q64)

  /** `self % (2 * PI)`, shifted up by 2 * PI when negative: the angle taken mod 2 * PI
      into [0, 2 * PI). */
  function Wrapped(theta: Q64): (p: Q64)
    ensures p.raw == theta.raw % FULL_TURN.raw
  {
    ReductionConstants();
    var p0 := Rem(theta, FULL_TURN);
    var q := TruncDiv(theta.raw, FULL_TURN.raw);
    if p0.raw < 0 then
      ModUnique(theta.raw, FULL_TURN.raw, q - 1, p0.raw + FULL_TURN.raw);
      Add(p0, FULL_TURN)
    else
      ModUnique(theta.raw, FULL_TURN.raw, q, p0.raw);
      p0
  }

  /** Folds an angle in [0, 2 * PI) into [-(PI / 2) - 1, PI / 2]: angles strictly between
      PI / 2 and 3 * PI / 2 move by PI and negate the gain; angles from 3 * PI / 2 on move
      down by 2 * PI. The reduced angle differs from the input by a multiple of 2 * PI, plus
      PI exactly when the gain was negated. (The lower end is PI / 2 plus one ulp because
      PI / 2 and 3 * PI / 2 are each rounded toward zero.) */
  function Fold(p: Q64): (r: Reduced)
    requires 0 <= p.raw < FULL_TURN.raw
    ensures -HALF_PI.raw - 1 <= r.angle.raw <= HALF_PI.raw
    ensures r.factor == GAIN || r.factor.raw == -GAIN.raw
    ensures r.factor.raw < 0 <==> HALF_PI.raw < p.raw < THREE_HALF_PI.raw
    ensures p.raw - r.angle.raw == (if r.factor.raw < 0 then PI.raw else 0)
                                   || p.raw - r.angle.raw == (if r.factor.raw < 0 then -PI.raw else FULL_TURN.raw)
  {
    ReductionConstants();
    var flip := HALF_PI.raw < p.raw < THREE_HALF_PI.raw;
    var p2 := if flip then (if p.raw < PI.raw then Add(p, PI) else Sub(p, PI)) else p;
    var p3 := if p2.raw >= THREE_HALF_PI.raw then Sub(p2, FULL_TURN) else p2;
    Reduced(p3, if flip then Neg(GAIN) else GAIN)
  }

  /** The argument reduction of `sin_cos`. */
  function Reduce(theta: Q64): (r: Reduced)
    ensures -HALF_PI.raw - 1 <= r.angle.raw <= HALF_PI.raw
    ensures r.factor == GAIN || r.factor.raw == -GAIN.raw
    ensures r.factor.raw < 0 <==> HALF_PI.raw < theta.raw % FULL_TURN.raw < THREE_HALF_PI.raw
    ensures (theta.raw - r.angle.raw) % FULL_TURN.raw == if r.factor.raw < 0 then PI.raw else 0
  {
    var p := Wrapped(theta);
    var r := Fold(p);
    ReductionConstants();
    FoldShift(theta.raw, r.angle.raw, if r.factor.raw < 0 then PI.raw else 0);
    r
  }

  /** The reduced angle a differs from theta mod 2 * PI by c (0 or PI), possibly less one
      period: so theta - a is c modulo 2 * PI. */
  lemma FoldShift(t: int, a: int, c: int)
    requires FULL_TURN.raw == 26986075410 && (c == 0 || c == PI.raw)
    requires t % FULL_TURN.raw - a == c
          || t % FULL_TURN.raw - a == (if c == 0 then FULL_TURN.raw else -PI.raw)
    ensures (t - a) % FULL_TURN.raw == c
  {
    var d := FULL_TURN.raw;
    if t % d - a == c { ShiftMod(t, a, d, c, 0); }
    else if c == 0 { ShiftMod(t, a, d, c, 1); }
    else { ShiftMod(t, a, d, c, -1); }
  }

  /** Moving a residue by a whole number of periods does not change it. */
  lemma ShiftMod(t: int, a: int, d: int, c: int, j: int)
    requires d > 0 && 0 <= c < d && t % d - a == c + j * d
    ensures (t - a) % d == c
  {
    DivMod(t, d);
    Distrib(d, t / d, j);
    ModUnique(t - a, d, t / d + j, c);
  }

  /** The value `sin_cos` returns: (y * factor, x * factor) after 32 rotation steps of
      the reduced angle. Both are bounded by 6.0. */
  function SinCosValue(theta: Q64): (r: (Q64, Q64))
    ensures Abs(r.0.raw) <= 6 * SCALE && Abs(r.1.raw) <= 6 * SCALE
  {
    var red := Reduce(theta);
    ReductionConstants();
    TailValue(0);
    var s := RotationAfter(red.angle, STEPS);
    CoordBoundFacts(STEPS);
    MulNoGrow(s.y, red.factor);
    MulNoGrow(s.x, red.factor);
    (Mul(s.y, red.factor), Mul(s.x, red.factor))
  }

  /** `sin_cos` is exactly periodic in the computed 2 * PI: only the angle's residue modulo
      2 * PI enters the reduction. */
  lemma SinCosPeriodic(theta: Q64)
    requires InRange(theta.raw + FULL_TURN.raw)
    ensures SinCosValue(Q64(theta.raw + FULL_TURN.raw)) == SinCosValue(theta)
  {
    ReductionConstants();
    var d := FULL_TURN.raw;
    DivMod(theta.raw, d);
    Distrib(d, theta.raw / d, 1);
    ModUnique(theta.raw + d, d, theta.raw / d + 1, theta.raw % d);
    assert Wrapped(Q64(theta.raw + d)) == Wrapped(theta);
  }

  /** The reduction at the head of `sin_cos`, updating `preliminary_angle` and
      `result_factor` in place. */
  method ReduceAngle(theta: Q64) returns (p: Q64, factor: Q64)
    ensures Reduced(p, factor) == Reduce(theta)
  {
    ReductionConstants();
    factor := Narrow60(CIRCLE_KN);
    p := Rem(theta, MulInt(PI, 2));
    if p.raw < 0 { p := Add(p, MulInt(PI, 2)); }
    assert p == Wrapped(theta);
    if p.raw > DivInt(PI, 2).raw && p.raw < DivInt(MulInt(PI, 3), 2).raw {
      factor := Neg(factor);
      if p.raw < PI.raw { p := Add(p, PI); } else { p := Sub(p, PI); }
    }
    if p.raw >= DivInt(MulInt(PI, 3), 2).raw { p := Sub(p, MulInt(PI, 2)); }
  }

  /** The 32 rotation steps of `sin_cos`, updating `x`, `y` and `remain` in place. */
  method RotateLoop(angle: Q64) returns (x: Q64, y: Q64, remain: Q64)
    requires Abs(angle.raw) <= TAILS[0] + RESIDUAL
    ensures Rot(x, y, remain) == RotationAfter(angle, STEPS)
  {
    x, y, remain := ONE, ZERO, angle;
    for k := 0 to STEPS
      invariant Rot(x, y, remain) == RotationAfter(angle, k)
    {
      ghost var s := Rot(x, y, remain);
      TurnSafe(x, y, k);
      TailFacts(k);
      var xv, yv;
      if remain.raw > 0 {
        xv := Sub(x, Shr(y, k));
        yv := Add(Shr(x, k), y);
        remain := Sub(remain, Angle(k));
      } else {
        xv := Add(x, Shr(y, k));
        yv := Sub(y, Shr(x, k));
        remain := Add(remain, Angle(k));
      }
      x, y := xv, yv;
      assert Rot(x, y, remain) == RotationStep(s, k);
    }
  }

  /** `sin_cos`: reduce, rotate, and scale the final coordinates by the signed gain. */
  method SinCos(theta: Q64) returns (sin: Q64, cos: Q64)
    ensures (sin, cos) == SinCosValue(theta)
  {
    var p, factor := ReduceAngle(theta);
    ReductionConstants();
    TailValue(0);
    var x, y, remain := RotateLoop(p);
    CoordBoundFacts(STEPS);
    MulNoGrow(y, factor);
    MulNoGrow(x, factor);
    sin, cos := Mul(y, factor), Mul(x, factor);
  }

  // ---------------------------------------------------------------------------------
  // Vectoring mode (`asin`, `acos`, `atan`).

  /** Which of the three vectoring loops runs: they differ only in the start state and in
      the test that picks the direction of each step. */
  datatype Mode = AsinMode | AcosMode | AtanMode

  /** Start state: (ONE, ZERO) with z = ZERO for `asin` and `atan`; (ZERO, ONE) with
      z = PI / 2 for `acos`. */
  function Start(mode: Mode): (s: Rot)
    ensures Abs(s.x.raw) <= SCALE && Abs(s.y.raw) <= SCALE
    ensures s.z.raw == if mode == AcosMode then HALF_PI.raw else 0
  {
    if mode == AcosMode then Rot(ZERO, ONE, HALF_PI) else Rot(ONE, ZERO, ZERO)
  }

  /** Whether step turns counter-clockwise (and adds the table angle to z). `atan` divides
      y by x only when x > 0. */
  function Ccw(mode: Mode, v: Q64, s: Rot): bool
  {
    match mode
    case AsinMode => (s.x.raw > 0 && v.raw > s.y.raw) || (s.x.raw < 0 && v.raw < s.y.raw)
    case AcosMode => (s.y.raw > 0 && v.raw < s.x.raw) || (s.y.raw < 0 && v.raw > s.x.raw)
    case AtanMode => s.x.raw > 0 && v.raw > DivWrapping(s.y, s.x).raw
  }

  /** Vectoring step k: the shift-and-add turn, z moved by exactly the step's table angle
      (up when turning counter-clockwise), and both coordinates scaled by the step's cos
      factor, which cannot make them grow. */
  function VectorStep(s: Rot, k: nat, ccw: bool): (r: Rot)
    requires k < STEPS && Abs(s.x.raw) <= CoordBound(k) && Abs(s.y.raw) <= CoordBound(k)
    requires Abs(s.z.raw) <= 0x4000_0000_0000_0000
    ensures Abs(r.x.raw) <= CoordBound(k + 1) && Abs(r.y.raw) <= CoordBound(k + 1)
    ensures Abs(r.z.raw - s.z.raw) == Angle(k).raw
    ensures r.z.raw > s.z.raw <==> ccw
  {
    TurnSafe(s.x, s.y, k);
    TailsStep(k);
    TailsStep(k + 1);
    var xv := if ccw then Sub(s.x, Shr(s.y, k)) else Add(s.x, Shr(s.y, k));
    var yv := if ccw then Add(Shr(s.x, k), s.y) else Sub(s.y, Shr(s.x, k));
    var c := CosFactor(k);
    MulNoGrow(xv, c);
    MulNoGrow(yv, c);
    Rot(Mul(xv, c), Mul(yv, c), if ccw then Add(s.z, Angle(k)) else Sub(s.z, Angle(k)))
  }

  /** The state after n vectoring steps. z has moved from its start by at most the sum of
      the first n table angles. */
  function VectorAfter(mode: Mode, v: Q64, n: nat): (s: Rot)
    requires n <= STEPS
    ensures Abs(s.x.raw) <= CoordBound(n) && Abs(s.y.raw) <= CoordBound(n)
    ensures Abs(s.z.raw - Start(mode).z.raw) <= TAILS[0] - Tail(n)
  {
    if n == 0 then
      TailValue(0);
      Start(mode)
    else
      var s := VectorAfter(mode, v, n - 1);
      TailFacts(n - 1);
      ReductionConstants();
      VectorStep(s, n - 1, Ccw(mode, v, s))
  }

  /** The final z of a vectoring loop is within the sum of all table angles of its start. */
  lemma FinalAngle(mode: Mode, v: Q64)
    ensures Abs(VectorAfter(mode, v, STEPS).z.raw - Start(mode).z.raw) <= TAILS[0]
    ensures TAILS[0] == 7487359006
  {
    TailValue(STEPS);
  }

  /** One vectoring step on the loop variables. */
  method Step(x: Q64, y: Q64, z: Q64, k: nat, ccw: bool) returns (x': Q64, y': Q64, z': Q64)
    requires k < STEPS && Abs(x.raw) <= CoordBound(k) && Abs(y.raw) <= CoordBound(k)
    requires Abs(z.raw) <= 0x4000_0000_0000_0000
    ensures Rot(x', y', z') == VectorStep(Rot(x, y, z), k, ccw)
  {
    TurnSafe(x, y, k);
    TailsStep(k);
    TailsStep(k + 1);
    var xv, yv;
    if ccw {
      xv := Sub(x, Shr(y, k));
      yv := Add(Shr(x, k), y);
      z' := Add(z, Angle(k));
    } else {
      xv := Add(x, Shr(y, k));
      yv := Sub(y, Shr(x, k));
      z' := Sub(z, Angle(k));
    }
    var c := CosFactor(k);
    MulNoGrow(xv, c);
    MulNoGrow(yv, c);
    x', y' := Mul(xv, c), Mul(yv, c);
  }

  /** The body of the vectoring loop: each function's direction test, then the step. */
  method Advance(mode: Mode, v: Q64, k: nat, x: Q64, y: Q64, z: Q64)
    returns (x': Q64, y': Q64, z': Q64)
    requires k < STEPS && Rot(x, y, z) == VectorAfter(mode, v, k)
    ensures Rot(x', y', z') == VectorAfter(mode, v, k + 1)
  {
    TailFacts(k);
    ReductionConstants();
    var ccw := match mode
      case AsinMode => (x.raw > 0 && v.raw > y.raw) || (x.raw < 0 && v.raw < y.raw)
      case AcosMode => (y.raw > 0 && v.raw < x.raw) || (y.raw < 0 && v.raw > x.raw)
      case AtanMode => x.raw > 0 && v.raw > DivWrapping(y, x).raw;
    assert ccw == Ccw(mode, v, Rot(x, y, z));
    x', y', z' := Step(x, y, z, k, ccw);
  }

  /** The starting point of the vectoring loop: (0, 1) with z = PI / 2 for `acos`, (1, 0)
      with z = 0 otherwise. */
  method Init(mode: Mode, v: Q64) returns (x: Q64, y: Q64, z: Q64)
    ensures Rot(x, y, z) == VectorAfter(mode, v, 0)
  {
    if mode == AcosMode {
      x, y, z := ZERO, ONE, DivInt(PI, 2);
    } else {
      x, y, z := ONE, ZERO, ZERO;
    }
  }

  /** The 32 vectoring steps of `asin`, `acos` or `atan`, updating `x`, `y` and `z` in
      place; returns the final z. */
  method Vector(mode: Mode, v: Q64) returns (z: Q64)
    ensures z == VectorAfter(mode, v, STEPS).z
  {
    var x, y;
    x, y, z := Init(mode, v);
    for k := 0 to STEPS
      invariant Rot(x, y, z) == VectorAfter(mode, v, k)
    {
      x, y, z := Advance(mode, v, k, x, y, z);
    }
  }

  // ---------------------------------------------------------------------------------
  // The public functions.

  /** `asin`: fails outside [-1, 1]; otherwise the two candidate angles
      (z, PI - z) when z > 0 and (-z - PI, z) otherwise. They sum to PI when the first is
      positive and to -PI otherwise, and both lie within [-PI, PI]. */
  function AsinValue(v: Q64): (r: Result<(Q64, Q64)>)
    ensures r.Err? <==> !(-SCALE <= v.raw <= SCALE)
    ensures r.Ok? ==> r.value.0.raw + r.value.1.raw == (if r.value.0.raw > 0 then PI.raw else -PI.raw)
    ensures r.Ok? ==> -PI.raw <= r.value.0.raw <= PI.raw && -PI.raw <= r.value.1.raw <= PI.raw
  {
    if !(v.raw <= SCALE && v.raw >= -SCALE) then
      Err("[QCoordic::asin] Sine value should be in range of [-1, 1].")
    else
      var z := VectorAfter(AsinMode, v, STEPS).z;
      FinalAngle(AsinMode, v);
      Ok(if z.raw > 0 then (z, Add(Neg(z), PI)) else (Sub(Neg(z), PI), z))
  }

  /** `acos`: fails outside [-1, 1]; otherwise (-z, z), where z stays within the sum of
      the table angles of PI / 2. */
  function AcosValue(v: Q64): (r: Result<(Q64, Q64)>)
    ensures r.Err? <==> !(-SCALE <= v.raw <= SCALE)
    ensures r.Ok? ==> r.value.0.raw + r.value.1.raw == 0
    ensures r.Ok? ==> Abs(r.value.1.raw - HALF_PI.raw) <= TAILS[0]
  {
    if !(v.raw <= SCALE && v.raw >= -SCALE) then
      Err("[QCoordic::acos] Can't acos value, cosine value should be in range of [-1, 1].")
    else
      var z := VectorAfter(AcosMode, v, STEPS).z;
      FinalAngle(AcosMode, v);
      ReductionConstants();
      Ok((Neg(z), z))
  }

  /** `atan`: the candidates (z - PI, z) when z > 0 and (z, z + PI) otherwise. They differ
      by exactly PI, the first is never positive, the second always is, and both lie within
      [-PI, PI]. */
  function AtanValue(v: Q64): (r: (Q64, Q64))
    ensures r.1.raw - r.0.raw == PI.raw
    ensures r.0.raw <= 0 < r.1.raw
    ensures -PI.raw <= r.0.raw && r.1.raw <= PI.raw
  {
    var z := VectorAfter(AtanMode, v, STEPS).z;
    FinalAngle(AtanMode, v);
    if z.raw > 0 then (Sub(z, PI), z) else (z, Add(z, PI))
  }

  method Asin(v: Q64) returns (r: Result<(Q64, Q64)>)
    ensures r == AsinValue(v)
  {
    if !(v.raw <= SCALE && v.raw >= -SCALE) {
      return Err("[QCoordic::asin] Sine value should be in range of [-1, 1].");
    }
    var z := Vector(AsinMode, v);
    FinalAngle(AsinMode, v);
    if z.raw > 0 {
      r := Ok((z, Add(Neg(z), PI)));
    } else {
      r := Ok((Sub(Neg(z), PI), z));
    }
  }

  method Acos(v: Q64) returns (r: Result<(Q64, Q64)>)
    ensures r == AcosValue(v)
  {
    if !(v.raw <= SCALE && v.raw >= -SCALE) {
      return Err("[QCoordic::acos] Can't acos value, cosine value should be in range of [-1, 1].");
    }
    var z := Vector(AcosMode, v);
    FinalAngle(AcosMode, v);
    ReductionConstants();
    r := Ok((Neg(z), z));
  }

  method Atan(v: Q64) returns (r: (Q64, Q64))
    ensures r == AtanValue(v)
  {
    var z := Vector(AtanMode, v);
    FinalAngle(AtanMode, v);
    if z.raw > 0 {
      r := (Sub(z, PI), z);
    } else {
      r := (z, Add(z, PI));
    }
  }

  /** `sin`: the first half of `sin_cos`, bounded by 6.0. */
  function Sin(theta: Q64): (r: Q64)
    ensures r == SinCosValue(theta).0 && Abs(r.raw) <= 6 * SCALE
  {
    SinCosValue(theta).0
  }

  /** `cos`: the second half of `sin_cos`, bounded by 6.0. */
  function Cos(theta: Q64): (r: Q64)
    ensures r == SinCosValue(theta).1 && Abs(r.raw) <= 6 * SCALE
  {
    SinCosValue(theta).1
  }

  /** The bound on `tan`'s quotient: 6.0 * 2^32 / (EPS + 1 ulp), below MAX. */
  const TAN_BOUND: int := 6 * SCALE * SCALE / 44

  /** `tan`: MAX or MIN (by the sign of sin) when |cos| <= EPS; otherwise sin / cos, rounded
      toward zero, which cannot overflow because |cos| > EPS. */
  function Tan(theta: Q64): (r: Q64)
    ensures var (s, c) := SinCosValue(theta);
      if Abs(c.raw) <= EPS.raw then r == (if s.raw > 0 then MAX else MIN)
      else (r.raw == TruncDiv(s.raw * SCALE, c.raw) && Abs(r.raw) == Abs(s.raw * SCALE) / Abs(c.raw)
            && Abs(r.raw) <= TAN_BOUND)
  {
    var (s, c) := SinCosValue(theta);
    if QAbs(c).raw <= EPS.raw then (if s.raw > 0 then MAX else MIN)
    else
      TanQuotientBound(s.raw, c.raw);
      Div(s, c)
  }

  lemma TanQuotientBound(s: int, c: int)
    requires Abs(s) <= 6 * SCALE && Abs(c) > EPS.raw
    ensures Abs(TruncDiv(s * SCALE, c)) <= TAN_BOUND < MAX_RAW
  {
    MulAbs(s, SCALE);
    MulMono(SCALE, Abs(s), 6 * SCALE);
    DivNumMono(Abs(s * SCALE), 6 * SCALE * SCALE, Abs(c));
    DivDivisorMono(6 * SCALE * SCALE, 44, Abs(c));
  }

  // ---------------------------------------------------------------------------------
  // `atan2`.

  /** `atan2` as written (release build: the quotient y / x wraps on overflow; a debug
      build panics there). Fails on (0, 0); uses MAX for x == 0; takes `atan`'s first
      candidate exactly when y < 0. The result lies within [-PI, PI] and is positive
      exactly when y >= 0. */
  function Atan2AsWritten(y: Q64, x: Q64): (r: Result<Q64>)
    ensures r.Err? <==> y == ZERO && x == ZERO
    ensures r.Ok? ==> -PI.raw <= r.value.raw <= PI.raw
    ensures r.Ok? ==> (r.value.raw > 0 <==> y.raw >= 0)
  {
    if y == ZERO && x == ZERO then
      Err("[QCoordic::atan2] Both X and Y can't be zero when calculating the tan value.")
    else
      var t := if x == ZERO then MAX else DivWrapping(y, x);
      var pair := AtanValue(t);
      Ok(if y.raw < 0 then pair.0 else pair.1)
  }

  /** Finding: on the x axis the sign of x is lost, so the opposite directions (1, 0) and
      (-1, 0) get the same angle. */
  lemma Atan2AsWrittenLosesNegativeXAxis(x: Q64)
    requires x.raw != 0
    ensures Atan2AsWritten(ZERO, x) == Atan2AsWritten(ZERO, ONE)
    ensures Atan2AsWritten(ZERO, NEG_ONE) == Atan2AsWritten(ZERO, ONE)
  {
    OnXAxis(x);
    OnXAxis(NEG_ONE);
    OnXAxis(ONE);
  }

  lemma OnXAxis(x: Q64)
    requires x.raw != 0
    ensures Atan2AsWritten(ZERO, x) == Ok(AtanValue(ZERO).1)
  {
    ZeroQuotient(x);
  }

  /** Finding: a steep vector overflows the quotient y / x. For (DELTA, ONE), pointing
      almost straight up, ONE / DELTA = 2^32 wraps to zero and the angle is that of the
      x axis. */
  lemma Atan2AsWrittenWrapsSteepRatio()
    ensures Atan2AsWritten(ONE, DELTA) == Atan2AsWritten(ZERO, ONE)
  {
    assert DivWrapping(ONE, DELTA) == ZERO;
    assert DivWrapping(ZERO, ONE) == ZERO;
  }

  /** `atan2` with both defects corrected: the negative x axis maps to PI, and the quotient
      saturates instead of wrapping, which agrees with the source's own choice of MAX for
      x == 0. */
  function Atan2(y: Q64, x: Q64): (r: Result<Q64>)
    ensures r.Err? <==> y == ZERO && x == ZERO
    ensures r.Ok? ==> -PI.raw <= r.value.raw <= PI.raw
    ensures r.Ok? ==> (r.value.raw > 0 <==> y.raw >= 0)
    ensures y == ZERO && x.raw < 0 ==> r == Ok(PI)
    ensures y == ZERO && x.raw > 0 ==> r == Ok(AtanValue(ZERO).1)
  {
    if y == ZERO && x == ZERO then
      Err("[QCoordic::atan2] Both X and Y can't be zero when calculating the tan value.")
    else if y == ZERO && x.raw < 0 then
      Ok(PI)
    else
      Ok(Branch(Slope(y, x), y))
  }

  function Slope(y: Q64, x: Q64): (t: Q64)
    requires y != ZERO || x != ZERO
    ensures x == ZERO ==> t == MAX
    ensures x != ZERO ==> t == SaturatingDiv(y, x)
    ensures y == ZERO ==> t == ZERO
  {
    if x == ZERO then MAX else (ZeroQuotient(x); SaturatingDiv(y, x))
  }

  function Branch(t: Q64, y: Q64): (r: Q64)
    ensures -PI.raw <= r.raw <= PI.raw
    ensures r.raw > 0 <==> y.raw >= 0
    ensures r == if y.raw < 0 then AtanValue(t).0 else AtanValue(t).1
  {
    var pair := AtanValue(t);
    if y.raw < 0 then pair.0 else pair.1
  }

  /** A vector whose slope exceeds MAX gets exactly the angle of the vertical vector, so
      (DELTA, ONE) now gets the angle of (ZERO, ONE). */
  lemma Atan2SteepIsVertical(y: Q64, x: Q64)
    requires y.raw > 0 && x.raw > 0 && y.raw * SCALE / x.raw > MAX_RAW
    ensures Atan2(y, x) == Atan2(y, ZERO)
  {
    var q := y.raw * SCALE / x.raw;
    assert TruncDiv(y.raw * SCALE, x.raw) == q;
    assert Slope(y, x) == MAX == Slope(y, ZERO);
  }

  /** The smallest positive x already saturates the slope of (ONE, DELTA). */
  lemma Atan2OneOverDelta()
    ensures Atan2(ONE, DELTA) == Atan2(ONE, ZERO)
  {
    assert ONE.raw * SCALE / DELTA.raw == SCALE * SCALE;
    Atan2SteepIsVertical(ONE, DELTA);
  }

  /** The documented example `atan2(ONE, ZERO) == MAX.atan().1`, and the documented
      failures of `asin`, `acos` (at TWO and NEG_TWO) and `atan2` (at (0, 0)). */
  lemma CoordicDocExamples()
    ensures Atan2(ONE, ZERO) == Ok(AtanValue(MAX).1)
    ensures Atan2AsWritten(ONE, ZERO) == Ok(AtanValue(MAX).1)
    ensures AsinValue(TWO).Err? && AsinValue(NEG_TWO).Err?
    ensures AcosValue(TWO).Err? && AcosValue(NEG_TWO).Err?
    ensures Atan2(ZERO, ZERO).Err? && Atan2AsWritten(ZERO, ZERO).Err?
  {
  }
}
