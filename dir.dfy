/** The 2-dimensional direction `QDir`: an angle in radians kept within [0, TWO_PI). */
module Dir {

  import opened NonLinear
  import opened Fixed
  import opened Basic
  import opened Coordic
  import opened Wrappers
  import opened Vec2

  datatype QDir = QDir(angle: Q64)

  /** The documented invariant: 0 <= angle < TWO_PI. */
  predicate Normalized(d: QDir)
  {
    0 <= d.angle.raw < TWO_PI.raw
  }

  /** `new`: fails unless the angle already lies in [0, TWO_PI). */
  function New(angle: Q64): (r: Result<QDir>)
    ensures r.Ok? <==> 0 <= angle.raw < TWO_PI.raw
    ensures r.Ok? ==> Normalized(r.value) && r.value.angle == angle
  {
    if !(angle.raw >= ZERO.raw && angle.raw < TWO_PI.raw) then
      Err("[QDir::new] Angle should be in range of [0, 2PI)")
    else
      Ok(QDir(angle))
  }

  /** The truncating remainder, shifted up by TWO_PI when negative, is the remainder
      rounded down. */
  lemma WrapTurn(a: int)
    ensures var m := TruncRem(a, TWO_PI.raw);
            (if m < 0 then m + TWO_PI.raw else m) == a % TWO_PI.raw
  {
    var t := TWO_PI.raw;
    var q := TruncDiv(a, t);
    var m := TruncRem(a, t);
    assert a == t * q + m;
    if m < 0 {
      Distrib(t, q - 1, 1);
      ModUnique(a, t, q - 1, m + t);
    } else {
      ModUnique(a, t, q, m);
    }
  }

  /** `new_from_angle`: the angle reduced modulo TWO_PI into [0, TWO_PI), so the inner
      `new` never fails. */
  function NewFromAngle(angle: Q64): (r: QDir)
    ensures Normalized(r)
    ensures r.angle.raw == angle.raw % TWO_PI.raw
  {
    var modAngle := Rem(angle, TWO_PI);
    WrapTurn(angle.raw);
    var reduced := if modAngle.raw < ZERO.raw then Add(modAngle, TWO_PI) else modAngle;
    New(reduced).value
  }

  /** On an angle already in range, `new_from_angle` is `new`. */
  lemma NewFromAngleIdentity(angle: Q64)
    requires 0 <= angle.raw < TWO_PI.raw
    ensures NewFromAngle(angle) == QDir(angle)
    ensures New(angle) == Ok(NewFromAngle(angle))
  {
    ModUnique(angle.raw, TWO_PI.raw, 0, angle.raw);
  }

  /** Adding TWO_PI to the angle does not change the direction. */
  lemma NewFromAnglePeriodic(angle: Q64)
    requires InRange(angle.raw + TWO_PI.raw)
    ensures NewFromAngle(Q64(angle.raw + TWO_PI.raw)) == NewFromAngle(angle)
  {
    var t := TWO_PI.raw;
    DivMod(angle.raw, t);
    Distrib(t, angle.raw / t, 1);
    ModUnique(angle.raw + t, t, angle.raw / t + 1, angle.raw % t);
  }

  /** An `atan2` angle in [-PI, PI] moved into [0, TWO_PI) keeps its residue modulo
      TWO_PI. */
  lemma TurnUp(a: int)
    requires -PI.raw <= a <= PI.raw
    ensures a < 0 ==> 0 <= a + TWO_PI.raw < TWO_PI.raw && (a + TWO_PI.raw) % TWO_PI.raw == a % TWO_PI.raw
    ensures a >= 0 ==> a % TWO_PI.raw == a
  {
    var t := TWO_PI.raw;
    if a < 0 {
      ModUnique(a, t, -1, a + t);
      ModUnique(a + t, t, 0, a + t);
    } else {
      ModUnique(a, t, 0, a);
    }
  }

  /** The branch of `new_from_vec` after `atan2`: a negative angle is moved up by
      TWO_PI, a non-negative one kept. */
  function IntoTurn(a: Q64): (r: QDir)
    requires -PI.raw <= a.raw <= PI.raw
    ensures Normalized(r)
    ensures a.raw > 0 ==> r.angle == a
    ensures a.raw == 0 ==> r.angle == ZERO
    ensures a.raw < 0 ==> r.angle.raw == a.raw + TWO_PI.raw && PI.raw - 2 <= r.angle.raw
    ensures r.angle.raw % TWO_PI.raw == a.raw % TWO_PI.raw
  {
    TurnUp(a.raw);
    if a.raw < ZERO.raw then New(Add(a, TWO_PI)).value else New(a).value
  }

  /** `new_from_vec`: the `atan2` angle of the vector (as the program computes it), moved
      up by TWO_PI when negative.
      Fails on the zero vector (from `atan2`); otherwise a valid direction in (0, PI] for
      vectors with y >= 0 and, below the x axis, either ZERO or in [PI - 2 ulp, TWO_PI). */
  function NewFromVec(v: QVec2): (r: Result<QDir>)
    ensures r.Err? <==> v == ZERO_VEC
    ensures r.Ok? ==> Normalized(r.value)
    ensures r.Ok? && v.y.raw >= 0 ==> r.value.angle == Atan2AsWritten(v.y, v.x).value && 0 < r.value.angle.raw <= PI.raw
    ensures r.Ok? && v.y.raw < 0 ==> r.value.angle == ZERO || PI.raw - 2 <= r.value.angle.raw
    ensures r.Ok? ==> r.value.angle.raw % TWO_PI.raw == Atan2AsWritten(v.y, v.x).value.raw % TWO_PI.raw
  {
    match Atan2AsWritten(v.y, v.x)
    case Err(msg) => Err(msg)
    case Ok(a) => Ok(IntoTurn(a))
  }

  /** `to_vec` and `From<QDir> for QVec2`: the vector (cos, sin) of the angle. */
  function ToVec(d: QDir): (r: QVec2)
    ensures (r.y, r.x) == SinCosValue(d.angle)
    ensures Abs(r.x.raw) <= 6 * SCALE && Abs(r.y.raw) <= 6 * SCALE
  {
    FromAngle(d.angle)
  }

  /** `rotate_dir`: the sum of the two angles reduced modulo TWO_PI. */
  function RotateDir(a: QDir, b: QDir): (r: QDir)
    requires Normalized(a) && Normalized(b)
    ensures Normalized(r)
    ensures r.angle.raw == (a.angle.raw + b.angle.raw) % TWO_PI.raw
  {
    NewFromAngle(Add(a.angle, b.angle))
  }

  /** (a % t + b) % t == (a + b) % t. */
  lemma ModAddLeft(a: int, b: int, t: int)
    requires t > 0
    ensures (a % t + b) % t == (a + b) % t
  {
    DivMod(a, t);
    DivMod(a % t + b, t);
    var q := a / t + (a % t + b) / t;
    Distrib(t, a / t, (a % t + b) / t);
    ModUnique(a + b, t, q, (a % t + b) % t);
  }

  /** Adding three angles modulo TWO_PI does not depend on the grouping. */
  lemma ModAddAssociative(x: int, y: int, z: int, xy: int, left: int, yz: int, right: int)
    requires xy == (x + y) % TWO_PI.raw && left == (xy + z) % TWO_PI.raw
    requires yz == (y + z) % TWO_PI.raw && right == (x + yz) % TWO_PI.raw
    ensures left == right
  {
    var t := TWO_PI.raw;
    ModAddLeft(x + y, z, t);
    ModAddLeft(y + z, x, t);
    assert yz + x == x + yz;
    assert (x + y) + z == (y + z) + x;
  }

  /** Composing rotations does not depend on the grouping. */
  lemma RotateDirAssociative(a: QDir, b: QDir, c: QDir)
    requires Normalized(a) && Normalized(b) && Normalized(c)
    ensures RotateDir(RotateDir(a, b), c) == RotateDir(a, RotateDir(b, c))
  {
    var ab := RotateDir(a, b);
    var left := RotateDir(ab, c);
    var bc := RotateDir(b, c);
    var right := RotateDir(a, bc);
    ModAddAssociative(a.angle.raw, b.angle.raw, c.angle.raw, ab.angle.raw, left.angle.raw, bc.angle.raw, right.angle.raw);
    assert left == QDir(right.angle);
  }

  /** `rotate_vec`: the vector rotated by the direction's (cos, sin). */
  function RotateVec(d: QDir, v: QVec2): (r: QVec2)
    ensures r == Vec2.Rotate(ToVec(d), v)
  {
    Vec2.Rotate(ToVec(d), v)
  }

  /** Rotating the X axis by a direction gives the direction's own vector. */
  lemma RotateVecOfX(d: QDir)
    ensures RotateVec(d, X_AXIS) == ToVec(d)
  {
    RotateXAxis(ToVec(d));
  }

  /** `projection_of`: the dot product of the direction's vector with v. */
  function ProjectionOf(d: QDir, v: QVec2): (r: Q64)
    ensures r == Dot(ToVec(d), v)
  {
    Dot(ToVec(d), v)
  }

  /** A direction's projection of its own vector is its squared length, never negative. */
  lemma ProjectionOfOwnVec(d: QDir)
    ensures ProjectionOf(d, ToVec(d)) == LengthSquared(ToVec(d))
    ensures ProjectionOf(d, ToVec(d)).raw >= 0
  {
  }

  /** The negation of an angle in [0, TWO_PI), reduced modulo TWO_PI. */
  lemma NegAngleMod(a: int)
    requires 0 <= a < TWO_PI.raw
    ensures (-a) % TWO_PI.raw == if a == 0 then 0 else TWO_PI.raw - a
    ensures (a + (-a) % TWO_PI.raw) % TWO_PI.raw == 0
  {
    var t := TWO_PI.raw;
    if a == 0 {
      ModUnique(0, t, 0, 0);
    } else {
      ModUnique(-a, t, -1, t - a);
      ModUnique(t, t, 1, 0);
    }
  }

  /** `-d`: the negated angle reduced modulo TWO_PI. */
  function NegDir(d: QDir): (r: QDir)
    requires Normalized(d)
    ensures Normalized(r)
    ensures r.angle.raw == (-d.angle.raw) % TWO_PI.raw
  {
    NewFromAngle(Neg(d.angle))
  }

  /** `-d` is the direction that `rotate_dir` brings back to angle ZERO. */
  lemma RotateByNeg(d: QDir)
    requires Normalized(d)
    ensures RotateDir(d, NegDir(d)).angle == ZERO
  {
    NegAngleMod(d.angle.raw);
    assert RotateDir(d, NegDir(d)).angle.raw == 0;
  }

  /** Negating an angle in [0, TWO_PI) twice modulo TWO_PI gives it back. */
  lemma NegNegMod(a: int, b: int, c: int)
    requires 0 <= a < TWO_PI.raw
    requires b == (-a) % TWO_PI.raw && c == (-b) % TWO_PI.raw
    ensures c == a
  {
    NegAngleMod(a);
    if a != 0 {
      NegAngleMod(TWO_PI.raw - a);
    }
  }

  /** Negating twice gives the direction back. */
  lemma NegDirTwice(d: QDir)
    requires Normalized(d)
    ensures NegDir(NegDir(d)) == d
  {
    var once := NegDir(d);
    var twice := NegDir(once);
    NegNegMod(d.angle.raw, once.angle.raw, twice.angle.raw);
    assert twice == QDir(d.angle);
  }

  /** The direction of the X axis has the angle `atan(0).1`: the residual the rotations
      leave in `z`, which is positive, so not the ZERO the type's documentation gives. */
  lemma FromXAxis()
    ensures NewFromVec(X_AXIS) == Ok(QDir(AtanValue(ZERO).1))
    ensures NewFromVec(X_AXIS).value.angle.raw > 0
  {
    FromPositiveX(X_AXIS);
  }

  /** Every vector on the positive x axis has that same direction. */
  lemma FromPositiveX(v: QVec2)
    requires v.y == ZERO && v.x.raw > 0
    ensures NewFromVec(v) == Ok(QDir(AtanValue(ZERO).1))
  {
    var a := AtanValue(ZERO).1;
    OnXAxis(v.x);
    assert IntoTurn(a) == QDir(a);
  }

  /** The negative X axis gets the direction of the positive one, since `atan2` loses the
      sign of x on the x axis. */
  lemma NewFromVecNegX()
    ensures NewFromVec(NEG_X_AXIS) == NewFromVec(X_AXIS)
  {
    FromPositiveX(X_AXIS);
    var a := AtanValue(ZERO).1;
    OnXAxis(NEG_ONE);
    assert IntoTurn(a) == QDir(a);
  }

  /** A direction whose angle the program rotates in place (`rotate(&mut self, angle)`). */
  class QDirPlace {
    var angle: Q64

    predicate Valid()
      reads this
    {
      Normalized(QDir(angle))
    }

    constructor (d: QDir)
      requires 0 <= d.angle.raw < TWO_PI.raw
      ensures Valid() && angle == d.angle
    {
      angle := d.angle;
    }

    /** `rotate`: the angle becomes `new_from_angle(angle + a).angle`, which keeps it in
        [0, TWO_PI); the sum itself must not overflow. */
    method Rotate(a: Q64)
      requires Valid() && InRange(angle.raw + a.raw)
      modifies this
      ensures Valid()
      ensures angle == NewFromAngle(Add(old(angle), a)).angle
      ensures angle.raw == (old(angle.raw) + a.raw) % TWO_PI.raw
    {
      var newDir := NewFromAngle(Add(angle, a));
      angle := newDir.angle;
    }
  }
}
