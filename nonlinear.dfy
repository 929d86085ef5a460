/** Small facts about integer multiplication and division, stated one step at a time so
    that the solver never has to search for them. */
module NonLinear {

  function Abs(v: int): (r: int)
    ensures r >= 0 && (r == v || r == -v)
  {
    if v < 0 then -v else v
  }

  lemma DivMod(a: int, d: int)
    requires d > 0
    ensures a == d * (a / d) + a % d && 0 <= a % d < d
  {
  }

  lemma MulMono(c: int, x: int, y: int)
    requires c >= 0 && x <= y
    ensures c * x <= c * y
  {
  }

  lemma MulCancel(c: int, x: int, y: int)
    requires c > 0 && c * x < c * y
    ensures x < y
  {
    if x >= y { MulMono(c, y, x); }
  }

  lemma Distrib(c: int, x: int, y: int)
    ensures c * (x + y) == c * x + c * y
  {
  }

  lemma MulNeg(c: int, x: int)
    ensures c * -x == -(c * x)
  {
  }

  lemma MulAbs(x: int, y: int)
    ensures Abs(x * y) == Abs(x) * Abs(y)
  {
    if x < 0 { MulNeg(y, -x); }
    if y < 0 { MulNeg(x, -y); }
    if x < 0 && y < 0 { MulNeg(-x, -y); MulNeg(-y, x); }
  }

  /** p <= d * m bounds the rounded-down quotient p / d by m. */
  lemma DivLe(p: int, d: int, m: int)
    requires d > 0 && p <= d * m
    ensures p / d <= m
  {
    DivMod(p, d);
    if p / d > m { MulMono(d, m + 1, p / d); Distrib(d, m, 1); }
  }

  /** p >= d * m bounds the rounded-down quotient p / d from below by m. */
  lemma DivGe(p: int, d: int, m: int)
    requires d > 0 && p >= d * m
    ensures p / d >= m
  {
    DivMod(p, d);
    if p / d < m { MulMono(d, p / d + 1, m); Distrib(d, p / d, 1); }
  }

  /** The quotient and remainder are the unique q, r with a == d * q + r and 0 <= r < d. */
  lemma ModUnique(a: int, d: int, q: int, r: int)
    requires d > 0 && 0 <= r < d && a == d * q + r
    ensures a % d == r && a / d == q
  {
    DivMod(a, d);
    var q0 := a / d;
    if q0 < q { MulMono(d, q0 + 1, q); Distrib(d, q0, 1); }
    if q0 > q { MulMono(d, q + 1, q0); Distrib(d, q, 1); }
  }

  lemma DivNonneg(a: int, d: int)
    requires a >= 0 && d > 0
    ensures 0 <= a / d <= a
  {
    DivGe(a, d, 0);
    MulMono(a, 1, d);
    DivLe(a, d, a);
  }

  /** A quotient rounded down by d > 0 of a value bounded by b is bounded by b / d + 1,
      and never exceeds the value in magnitude. */
  lemma DivShrink(a: int, b: int, d: int)
    requires d > 0 && Abs(a) <= b
    ensures Abs(a / d) <= b / d + 1
    ensures Abs(a / d) <= Abs(a)
  {
    var q := a / d;
    var qb := b / d;
    DivMod(a, d);
    DivMod(b, d);
    Distrib(d, q, 1);
    Distrib(d, qb, 1);
    if a >= 0 {
      DivNonneg(a, d);
      MulCancel(d, q, qb + 1);
    } else {
      assert d * (q + 1) > a;
      MulNeg(d, qb + 1);
      MulCancel(d, -(qb + 1), q + 1);
      assert q < 0 by { if q >= 0 { MulMono(d, 0, q); } }
      assert q >= a by { MulMono(-a, 1, d); MulCancel(d, a, q + 1); }
    }
  }

  /** Scaling by a factor c with |c| <= d, then dividing by d (rounding down), never grows. */
  lemma ScaleNoGrow(v: int, c: int, d: int)
    requires d > 0 && Abs(c) <= d
    ensures Abs(v * c / d) <= Abs(v)
  {
    var p := v * c;
    MulAbs(v, c);
    MulMono(Abs(v), Abs(c), d);
    if p >= 0 {
      DivLe(p, d, Abs(v));
      DivGe(p, d, 0);
    } else {
      MulNeg(d, Abs(v));
      DivGe(p, d, 0 - Abs(v));
      DivLe(p, d, 0);
    }
  }

  lemma ISqrtStep(n: nat, s: nat)
    requires n >= 2 && s * s <= n / 4 < (s + 1) * (s + 1)
    ensures (2 * s) * (2 * s) <= n < (2 * s + 2) * (2 * s + 2)
  {
    DivMod(n, 4);
    MulMono(4, s * s, n / 4);
    MulMono(4, n / 4 + 1, (s + 1) * (s + 1));
    assert (2 * s) * (2 * s) == 4 * (s * s);
    assert (2 * s + 2) * (2 * s + 2) == 4 * ((s + 1) * (s + 1));
  }

  /** Largest integer whose square does not exceed n. */
  function ISqrt(n: nat): (r: nat)
    ensures r * r <= n < (r + 1) * (r + 1)
  {
    if n < 2 then n
    else
      var s := ISqrt(n / 4);
      ISqrtStep(n, s);
      if (2 * s + 1) * (2 * s + 1) <= n then 2 * s + 1 else 2 * s
  }

  /** Integer division rounding toward zero, as Rust's `/` on integers. */
  function TruncDiv(a: int, b: int): (q: int)
    requires b != 0
    ensures Abs(q) == Abs(a) / Abs(b)
    ensures q > 0 ==> (a < 0) == (b < 0)
    ensures q < 0 ==> (a < 0) != (b < 0)
  {
    DivNonneg(Abs(a), Abs(b));
    if (a < 0) == (b < 0) then Abs(a) / Abs(b) else -(Abs(a) / Abs(b))
  }

  /** Integer remainder taking the sign of the dividend, as Rust's `%` on integers. */
  function TruncRem(a: int, b: int): (r: int)
    requires b != 0
    ensures Abs(r) < Abs(b)
    ensures a >= 0 ==> r >= 0
    ensures a < 0 ==> r <= 0
    ensures r == a - b * TruncDiv(a, b)
  {
    var q := TruncDiv(a, b);
    var x := Abs(a) / Abs(b);
    var m := Abs(a) % Abs(b);
    DivMod(Abs(a), Abs(b));
    assert b * q == if a < 0 then -(Abs(b) * x) else Abs(b) * x by {
      if b < 0 { MulNeg(b, x); MulNeg(-b, x); }
      if a < 0 { MulNeg(b, x); }
    }
    if a >= 0 then m else -m
  }

  /** A larger divisor gives a smaller quotient. */
  lemma DivDivisorMono(a: int, b: int, c: int)
    requires a >= 0 && 0 < b <= c
    ensures a / c <= a / b
  {
    DivMod(a, c);
    DivNonneg(a, c);
    MulMono(a / c, b, c);
    DivGe(a, b, a / c);
  }

  /** A larger dividend gives a larger quotient. */
  lemma DivNumMono(a: int, b: int, d: int)
    requires d > 0 && a <= b
    ensures a / d <= b / d
  {
    DivMod(a, d);
    DivGe(b, d, a / d);
  }
}
