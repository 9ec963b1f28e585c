/**
 * Repeated returnHome: what happens to a particle over frames in which the
 * pointer is absent or out of range. Each frame keeps 14/15 of each axis's
 * gap to home, so the gap decays geometrically and gets below any tolerance.
 */
module Homing {
  import opened Physics

  function Abs(v: real): real { if v < 0.0 then -v else v }

  function Pow(r: real, n: nat): real
  {
    if n == 0 then 1.0 else r * Pow(r, n - 1)
  }

  /** The fraction of a gap that survives one homing frame. */
  const Keep: real := 14.0 / 15.0

  /** `n` consecutive homing frames. Home and density survive every one of them. */
  function Settle(b: Body, n: nat): (r: Body)
    ensures r.baseX == b.baseX && r.baseY == b.baseY && r.density == b.density
  {
    if n == 0 then b else Home(Settle(b, n - 1))
  }

  /** After `n` homing frames each axis's gap is the original gap times (14/15)^n. */
  lemma {:induction false} SettleGap(b: Body, n: nat)
    ensures Settle(b, n).x - b.baseX == (b.x - b.baseX) * Pow(Keep, n)
    ensures Settle(b, n).y - b.baseY == (b.y - b.baseY) * Pow(Keep, n)
  {
    if n > 0 {
      SettleGap(b, n - 1);
      var p := Pow(Keep, n - 1);
      assert (b.x - b.baseX) * p * Keep == (b.x - b.baseX) * (Keep * p);
      assert (b.y - b.baseY) * p * Keep == (b.y - b.baseY) * (Keep * p);
    }
  }

  /** An axis already at home stays there: home is a fixed point of homing. */
  lemma {:induction false} SettleAtHome(b: Body, n: nat)
    requires b.x == b.baseX && b.y == b.baseY
    ensures Settle(b, n) == b
  {
    if n > 0 {
      SettleAtHome(b, n - 1);
    }
  }

  /** More homing frames never widen the gap on either axis. */
  lemma {:induction false} SettleMonotone(b: Body, n: nat, m: nat)
    requires n <= m
    ensures Abs(Settle(b, m).x - b.baseX) <= Abs(Settle(b, n).x - b.baseX)
    ensures Abs(Settle(b, m).y - b.baseY) <= Abs(Settle(b, n).y - b.baseY)
  {
    if n < m {
      SettleMonotone(b, n, m - 1);
    }
  }

  /** (14/15)^n lies in [0, 1] and is at most 14 / (14 + n). */
  lemma {:induction false} PowBound(n: nat)
    ensures 0.0 <= Pow(Keep, n) <= 1.0
    ensures Pow(Keep, n) * (14.0 + n as real) <= 14.0
  {
    if n > 0 {
      PowBound(n - 1);
      var p := Pow(Keep, n - 1);
      var m := (n - 1) as real;
      assert Pow(Keep, n) == Keep * p;
      assert Pow(Keep, n) * (14.0 + n as real) == Keep * (p * (14.0 + m) + p);
    }
  }

  /**
   * With the pointer gone, every particle gets within any tolerance `eps` of
   * home on both axes after finitely many frames.
   */
  lemma SettleWithin(b: Body, eps: real) returns (n: nat)
    requires 0.0 < eps
    ensures Abs(Settle(b, n).x - b.baseX) < eps
    ensures Abs(Settle(b, n).y - b.baseY) < eps
  {
    var gx, gy := b.x - b.baseX, b.y - b.baseY;
    var g := Abs(gx) + Abs(gy);
    n := FramesFor(g, eps);
    var p := Pow(Keep, n);
    PowBound(n);
    SettleGap(b, n);
    var s := Settle(b, n);
    GapBelow(s.x - b.baseX, gx, p, n as real, g, eps);
    GapBelow(s.y - b.baseY, gy, p, n as real, g, eps);
  }

  /** A frame count past 14 * g / eps. */
  lemma FramesFor(g: real, eps: real) returns (n: nat)
    requires 0.0 <= g && 0.0 < eps
    ensures 14.0 * g / eps < n as real
  {
    var q := 14.0 * g / eps;
    NonNegativeQuotient(14.0 * g, eps);
    var f := q.Floor;
    assert f as real <= q < f as real + 1.0;
    n := f + 1;
  }

  /** The arithmetic step of SettleWithin, for one axis. */
  lemma GapBelow(now: real, gap: real, p: real, n: real, g: real, eps: real)
    requires now == gap * p
    requires 0.0 < eps && 0.0 <= n && 0.0 <= p
    requires p * (14.0 + n) <= 14.0
    requires Abs(gap) <= g && 14.0 * g / eps < n
    ensures Abs(now) < eps
  {
    assert Abs(gap * p) == Abs(gap) * p;
    assert Abs(gap) * p * (14.0 + n) <= 14.0 * Abs(gap) by {
      MulMono(p * (14.0 + n), 14.0, Abs(gap));
    }
    assert 14.0 * g < n * eps by {
      MulMono(14.0 * g / eps, n, eps);
    }
    assert Abs(gap) * p * (14.0 + n) < eps * (14.0 + n);
    CancelPositive(Abs(gap) * p, eps, 14.0 + n);
  }

  lemma NonNegativeQuotient(a: real, b: real)
    requires 0.0 <= a && 0.0 < b
    ensures 0.0 <= a / b
  {
  }

  lemma MulMono(a: real, b: real, c: real)
    requires a <= b && 0.0 <= c
    ensures a * c <= b * c
  {
  }

  lemma CancelPositive(a: real, b: real, c: real)
    requires 0.0 < c && a * c < b * c
    ensures a < b
  {
  }
}
