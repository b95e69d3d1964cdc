/**
  * The arithmetic of a Bancor connector. The fractional powers are taken exactly: a weight of
  * 1000/m makes issuing tokens an m-th root and redeeming them an m-th power, both cut off to
  * whole units.
  */
module Bancor {
  // ---------------------------------------------------------------------------
  // Powers
  // ---------------------------------------------------------------------------

  function Pow(b: nat, e: nat): (p: nat)
    ensures b > 0 ==> p > 0
  {
    if e == 0 then 1 else b * Pow(b, e - 1)
  }

  lemma MulMono(a: nat, b: nat, c: nat, d: nat)
    requires a <= b && c <= d
    ensures a * c <= b * d
  {
    assert a * c <= b * c;
    assert b * c <= b * d;
  }

  lemma {:induction false} PowMono(a: nat, b: nat, e: nat)
    requires a <= b
    ensures Pow(a, e) <= Pow(b, e)
  {
    if e > 0 {
      PowMono(a, b, e - 1);
      MulMono(a, b, Pow(a, e - 1), Pow(b, e - 1));
    }
  }

  /** Doubling the base at least doubles the power. */
  lemma {:induction false} PowDouble(a: nat, e: nat)
    requires e >= 1
    ensures Pow(2 * a, e) >= 2 * Pow(a, e)
  {
    if e > 1 {
      PowDouble(a, e - 1);
      var p, q := Pow(a, e - 1), Pow(2 * a, e - 1);
      MulMono(2 * a, 2 * a, 2 * p, q);
      assert 2 * a * (2 * p) == 4 * (a * p);
    }
  }

  // ---------------------------------------------------------------------------
  // The two formulas
  // ---------------------------------------------------------------------------

  /** k more tokens on top of a supply of r are covered by a deposit t into a balance that is then c. */
  predicate Covered(r: nat, c: nat, t: nat, m: nat, k: nat) {
    Pow(r + k, m) * c <= Pow(r, m) * (c + t)
  }

  function LargestCovered(r: nat, c: nat, t: nat, m: nat, hi: nat): (k: nat)
    ensures k <= hi
    ensures k == 0 || Covered(r, c, t, m, k)
    ensures forall j :: k < j <= hi ==> !Covered(r, c, t, m, j)
  {
    if hi == 0 || Covered(r, c, t, m, hi) then hi else LargestCovered(r, c, t, m, hi - 1)
  }

  /** The tokens issued for a deposit t: the supply times the m-th root of 1 + t/c, less the supply. */
  function Issued(r: nat, c: nat, t: nat, m: nat): nat {
    LargestCovered(r, c, t, m, r)
  }

  /** The connector units paid for e tokens when r remain: c times the m-th power of 1 + e/r, less c. */
  function Payout(c: nat, r: nat, e: nat, m: nat): int
    requires r > 0
  {
    c * (Pow(r + e, m) - Pow(r, m)) / Pow(r, m)
  }

  lemma {:induction false} PowStrict(a: nat, b: nat, e: nat)
    requires a < b && e >= 1
    ensures Pow(a, e) < Pow(b, e)
  {
    var p, q := Pow(a, e - 1), Pow(b, e - 1);
    PowMono(a, b, e - 1);
    MulMono(a, a, p, q);
    assert b * q == a * q + (b - a) * q;
    assert (b - a) * q > 0;
  }

  lemma DoubleCovers(p: nat, c: nat, t: nat)
    requires t <= c
    ensures p * c <= p * (c + t) <= 2 * p * c
    ensures p > 0 && t < c ==> p * (c + t) < 2 * p * c
  {
    assert p * (c + t) == p * c + p * t;
    assert 2 * p * c == p * c + p * c;
    MulMono(p, p, t, c);
    if p > 0 && t < c {
      MulMono(p, p, t + 1, c);
      assert p * (t + 1) == p * t + p;
    }
  }

  lemma NotCoveredAbove(p: nat, q: nat, c: nat, t: nat)
    requires q > 2 * p && t <= c && c > 0
    ensures q * c > p * (c + t)
  {
    DoubleCovers(p, c, t);
    MulMono(2 * p + 1, q, c, c);
    assert (2 * p + 1) * c == 2 * p * c + c;
  }

  /** Between the issued amount and any larger one lies the exact value. */
  lemma IssuedIsGreatest(r: nat, c: nat, t: nat, m: nat, k: nat)
    requires m >= 1 && 0 < c && t <= c
    ensures Covered(r, c, t, m, Issued(r, c, t, m))
    ensures k > Issued(r, c, t, m) ==> !Covered(r, c, t, m, k)
  {
    DoubleCovers(Pow(r, m), c, t);
    assert r + 0 == r;
    if k > r {
      PowDouble(r, m);
      PowStrict(2 * r, r + k, m);
      NotCoveredAbove(Pow(r, m), Pow(r + k, m), c, t);
    }
  }

  /** What is covered with one more unit uncovered is the issued amount. */
  lemma IssuedIs(r: nat, c: nat, t: nat, m: nat, k: nat)
    requires m >= 1 && 0 < c && t <= c
    requires Covered(r, c, t, m, k) && !Covered(r, c, t, m, k + 1)
    ensures Issued(r, c, t, m) == k
  {
    var issued := Issued(r, c, t, m);
    IssuedIsGreatest(r, c, t, m, k);
    if issued > k {
      PowMono(r + (k + 1), r + issued, m);
      MulMono(Pow(r + (k + 1), m), Pow(r + issued, m), c, c);
    }
  }

  lemma GrowthBound(p: nat, q: nat, b: nat, t: nat)
    requires q * (b + t) <= p * (b + t + t) && b > 0
    ensures q * b <= p * (b + t)
  {
    calc {
      q * b * (b + t);
    == { Reorder(q, b, b + t); }
      q * (b + t) * b;
    <= { MulMono(q * (b + t), p * (b + t + t), b, b); }
      p * (b + t + t) * b;
    == { Reorder(p, b + t + t, b); }
      p * ((b + t + t) * b);
    <= { SquareBound(b, t); MulMono(p, p, (b + t + t) * b, (b + t) * (b + t)); }
      p * ((b + t) * (b + t));
    == { Reorder(p, b + t, b + t); }
      p * (b + t) * (b + t);
    }
    Cancel(q * b, p * (b + t), b + t);
  }

  lemma SquareBound(b: nat, t: nat)
    ensures (b + t + t) * b <= (b + t) * (b + t)
  {
    assert (b + t + t) * b == b * b + 2 * (t * b);
    assert (b + t) * (b + t) == b * b + 2 * (t * b) + t * t;
  }

  /** A deposit lets the m-th power of the supply grow by no larger a factor than the balance. */
  lemma IssuedGrowth(r: nat, b: nat, t: nat, m: nat)
    requires m >= 1 && b > 0
    ensures Pow(r + Issued(r, b + t, t, m), m) * b <= Pow(r, m) * (b + t)
  {
    IssuedIsGreatest(r, b + t, t, m, 0);
    GrowthBound(Pow(r, m), Pow(r + Issued(r, b + t, t, m), m), b, t);
  }

  lemma GrowthChains(p: nat, q: nat, z: nat, b: nat, c: nat, d: nat)
    requires q * b <= p * c && z * c <= q * d && c > 0
    ensures z * b <= p * d
  {
    calc {
      z * b * c;
    == { Reorder(z, b, c); }
      z * c * b;
    <= { MulMono(z * c, q * d, b, b); }
      q * d * b;
    == { Reorder(q, d, b); }
      q * b * d;
    <= { MulMono(q * b, p * c, d, d); }
      p * c * d;
    == { Reorder(p, c, d); }
      p * d * c;
    }
    Cancel(z * b, p * d, c);
  }

  lemma LessThanDouble(p: nat, q: nat, c: nat, t: nat)
    requires q * c <= p * (c + t) && t < c && p > 0
    ensures q < 2 * p
  {
    DoubleCovers(p, c, t);
    if q >= 2 * p {
      MulMono(2 * p, q, c, c);
    }
  }

  /** A deposit smaller than the balance it joins issues less than doubles the m-th power of the supply. */
  lemma IssuedBelowDouble(r: nat, c: nat, t: nat, m: nat)
    requires m >= 1 && r > 0 && 0 <= t < c
    ensures Pow(r + Issued(r, c, t, m), m) < 2 * Pow(r, m)
  {
    IssuedIsGreatest(r, c, t, m, 0);
    LessThanDouble(Pow(r, m), Pow(r + Issued(r, c, t, m), m), c, t);
  }

  lemma DivBound(x: nat, y: nat)
    requires y > 0
    ensures 0 <= x / y && x / y * y <= x < (x / y + 1) * y
  {
    assert x == x / y * y + x % y;
  }

  lemma PayoutBound(c: nat, r: nat, e: nat, m: nat)
    requires r > 0
    ensures Pow(r, m) <= Pow(r + e, m)
    ensures 0 <= Payout(c, r, e, m)
    ensures Payout(c, r, e, m) * Pow(r, m) <= c * (Pow(r + e, m) - Pow(r, m))
    ensures c * (Pow(r + e, m) - Pow(r, m)) < (Payout(c, r, e, m) + 1) * Pow(r, m)
  {
    PowMono(r, r + e, m);
    MulMono(0, c, 0, Pow(r + e, m) - Pow(r, m));
    DivBound(c * (Pow(r + e, m) - Pow(r, m)), Pow(r, m));
  }

  /** Cancelling a positive factor. */
  lemma Cancel(x: int, y: int, p: nat)
    requires p > 0 && x * p <= y * p
    ensures x <= y
  {
    if x > y {
      MulMono(1, x - y, p, p);
    }
  }

  lemma Reorder(x: int, y: int, z: int)
    ensures x * y * z == x * z * y == x * (y * z)
  {
  }

  lemma ExcessBound(a: nat, b: nat, c: nat, t: nat)
    requires a <= b && b * c <= a * (c + t)
    ensures (b - a) * c <= a * t
  {
    assert (b - a) * c == b * c - a * c;
    assert a * (c + t) == a * c + a * t;
  }

  lemma ShareBound(a: nat, b: nat, c: nat, t: nat, q: nat, out: nat)
    requires 0 < a <= b && b * c <= a * (c + t) && out * a <= q * (b - a)
    ensures out * c <= q * t
  {
    ExcessBound(a, b, c, t);
    calc {
      out * c * a;
    == { Reorder(out, c, a); }
      out * a * c;
    <= { MulMono(out * a, q * (b - a), c, c); }
      q * (b - a) * c;
    == { Reorder(q, b - a, c); }
      q * ((b - a) * c);
    <= { MulMono(q, q, (b - a) * c, a * t); }
      q * (a * t);
    == { Reorder(q, a, t); }
      q * t * a;
    }
    Cancel(out * c, q * t, a);
  }

  /** What tokens just issued for t redeem at a connector of balance q: at most the share t/c of it. */
  lemma RedeemIssued(r: nat, c: nat, t: nat, m: nat, q: nat)
    requires m >= 1 && r > 0 && 0 < c && t <= c
    ensures 0 <= Payout(q, r, Issued(r, c, t, m), m)
    ensures Payout(q, r, Issued(r, c, t, m), m) * c <= q * t
  {
    var k := Issued(r, c, t, m);
    IssuedIsGreatest(r, c, t, m, 0);
    RedeemGrown(q, r, k, m, c, t);
  }

  /** What e tokens redeem when with them the supply has grown by no larger a factor than (c + t)/c. */
  lemma RedeemGrown(q: nat, r: nat, e: nat, m: nat, c: nat, t: nat)
    requires r > 0 && Pow(r + e, m) * c <= Pow(r, m) * (c + t)
    ensures 0 <= Payout(q, r, e, m) && Payout(q, r, e, m) * c <= q * t
  {
    PayoutBound(q, r, e, m);
    ShareBound(Pow(r, m), Pow(r + e, m), c, t, q, Payout(q, r, e, m));
  }

  /** A payout exceeds a whole amount exactly when the formula reaches the next unit. */
  lemma PayoutExceeds(c: nat, r: nat, e: nat, m: nat, t: nat)
    requires r > 0
    ensures Payout(c, r, e, m) > t <==> c * (Pow(r + e, m) - Pow(r, m)) >= (t + 1) * Pow(r, m)
  {
    PayoutBound(c, r, e, m);
    if Payout(c, r, e, m) > t {
      MulMono(t + 1, Payout(c, r, e, m), Pow(r, m), Pow(r, m));
    } else {
      MulMono(Payout(c, r, e, m) + 1, t + 1, Pow(r, m), Pow(r, m));
    }
  }

  // ---------------------------------------------------------------------------
  // The formulas as real numbers
  // ---------------------------------------------------------------------------

  function RealPow(x: real, e: nat): real {
    if e == 0 then 1.0 else x * RealPow(x, e - 1)
  }

  lemma {:induction false} RealPowOfNat(b: nat, e: nat)
    ensures RealPow(b as real, e) == Pow(b, e) as real
  {
    if e > 0 {
      RealPowOfNat(b, e - 1);
      assert (b * Pow(b, e - 1)) as real == b as real * Pow(b, e - 1) as real;
    }
  }

  lemma RealMulMono(a: real, b: real, c: real, d: real)
    requires 0.0 <= a <= b && 0.0 <= c <= d
    ensures a * c <= b * d
  {
    assert a * c <= b * c;
    assert b * c <= b * d;
  }

  lemma {:induction false} RealPowMono(x: real, y: real, e: nat)
    requires 0.0 <= x <= y
    ensures 0.0 <= RealPow(x, e) <= RealPow(y, e)
  {
    if e > 0 {
      RealPowMono(x, y, e - 1);
      RealMulMono(0.0, x, 0.0, RealPow(x, e - 1));
      RealMulMono(x, y, RealPow(x, e - 1), RealPow(y, e - 1));
    }
  }

  lemma {:induction false} RealPowDivides(x: real, r: real, e: nat)
    requires r > 0.0
    ensures RealPow(r, e) > 0.0
    ensures RealPow(x / r, e) * RealPow(r, e) == RealPow(x, e)
  {
    if e > 0 {
      RealPowDivides(x, r, e - 1);
      var p, q, z := RealPow(x / r, e - 1), RealPow(r, e - 1), RealPow(x, e - 1);
      assert r * q > 0.0;
      assert (x / r * p) * (r * q) == (x / r * r) * (p * q);
      assert x / r * r == x;
    }
  }

  lemma {:induction false} RealPowProduct(x: real, y: real, e: nat)
    ensures RealPow(x * y, e) == RealPow(x, e) * RealPow(y, e)
  {
    if e > 0 {
      RealPowProduct(x, y, e - 1);
      var p, q := RealPow(x, e - 1), RealPow(y, e - 1);
      assert (x * y) * (p * q) == (x * p) * (y * q);
    }
  }

  lemma {:induction false} RealPowStrict(x: real, y: real, e: nat)
    requires 0.0 <= x < y && e >= 1
    ensures RealPow(x, e) < RealPow(y, e)
  {
    var p, q := RealPow(x, e - 1), RealPow(y, e - 1);
    RealPowMono(x, y, e - 1);
    RealPowPositive(y, e - 1);
    RealMulMono(x, x, p, q);
    assert y * q == x * q + (y - x) * q;
    assert (y - x) * q > 0.0;
  }

  lemma {:induction false} RealPowPositive(x: real, e: nat)
    requires x > 0.0
    ensures RealPow(x, e) > 0.0
  {
    if e > 0 {
      RealPowPositive(x, e - 1);
    }
  }

  lemma FloorBetween(z: real, d: int)
    requires d as real <= z < (d + 1) as real
    ensures z.Floor == d
  {
  }

  lemma RealCancel(x: real, y: real, c: real)
    requires c > 0.0
    ensures x <= y <==> x * c <= y * c
  {
    if x <= y {
      assert (y - x) * c >= 0.0;
    } else {
      assert (x - y) * c > 0.0;
    }
  }

  lemma ScaledAsReal(p: nat, q: nat, c: nat, t: nat, growth: real)
    requires c > 0 && growth * c as real == (c + t) as real
    ensures q * c <= p * (c + t) <==> q as real <= p as real * growth
  {
    var pr, cr := p as real, c as real;
    assert pr * growth * cr == pr * (growth * cr);
    assert (p * (c + t)) as real == pr * (c + t) as real;
    assert (q * c) as real == q as real * cr;
    RealCancel(q as real, pr * growth, cr);
  }

  lemma RealPowCompare(x: real, y: real, e: nat)
    requires 0.0 <= x && 0.0 <= y && e >= 1
    ensures x <= y <==> RealPow(x, e) <= RealPow(y, e)
  {
    if x <= y {
      RealPowMono(x, y, e);
    } else {
      RealPowStrict(y, x, e);
    }
  }

  lemma GrownPower(r: nat, g: real, m: nat)
    ensures RealPow(r as real * g, m) == Pow(r, m) as real * RealPow(g, m)
  {
    RealPowProduct(r as real, g, m);
    RealPowOfNat(r, m);
  }

  lemma CoveredAsReal(r: nat, c: nat, t: nat, m: nat, k: nat, g: real, y: real)
    requires c > 0 && m >= 1 && g >= 0.0 && RealPow(g, m) * c as real == (c + t) as real
    requires y == r as real * g && y >= 0.0
    ensures Covered(r, c, t, m, k) <==> (r + k) as real <= y
  {
    RealPowCompare((r + k) as real, y, m);
    RealPowOfNat(r + k, m);
    GrownPower(r, g, m);
    ScaledAsReal(Pow(r, m), Pow(r + k, m), c, t, RealPow(g, m));
  }

  /** With g the m-th root of 1 + t/c, the issued amount is -r * (1 - g) cut off to a whole number. */
  lemma IssuedIsTruncation(r: nat, c: nat, t: nat, m: nat, g: real)
    requires c > 0 && t <= c && m >= 1
    requires g >= 0.0 && RealPow(g, m) * c as real == (c + t) as real
    ensures Issued(r, c, t, m) == (-(r as real) * (1.0 - g)).Floor
  {
    var k, y := Issued(r, c, t, m), r as real * g;
    RealMulMono(0.0, r as real, 0.0, g);
    IssuedIsGreatest(r, c, t, m, k + 1);
    CoveredAsReal(r, c, t, m, k, g, y);
    CoveredAsReal(r, c, t, m, k + 1, g, y);
    assert -(r as real) * (1.0 - g) == y - r as real;
    FloorBetween(y - r as real, k);
  }

  lemma QuotientFloor(x: int, y: nat, z: real)
    requires y > 0 && z * y as real == x as real
    ensures z.Floor == x / y
  {
    var d, yr := x / y, y as real;
    assert d * y <= x < (d + 1) * y by {
      assert x == d * y + x % y;
      assert (d + 1) * y == d * y + y;
    }
    assert (d * y) as real == d as real * yr;
    assert ((d + 1) * y) as real == (d + 1) as real * yr;
    RealCancel(d as real, z, yr);
    RealCancel((d + 1) as real, z, yr);
    FloorBetween(z, d);
  }

  lemma ScaledExcess(c: nat, p: nat, q: nat, g: real)
    requires g * p as real == q as real
    ensures c as real * (g - 1.0) * p as real == (c * (q - p)) as real
  {
    assert c as real * (g - 1.0) * p as real == c as real * (g * p as real - p as real);
  }

  /** The payout is c * ((1 + e/r)^m - 1) cut off to a whole number. */
  lemma PayoutIsTruncation(c: nat, r: nat, e: nat, m: nat, growth: real)
    requires r > 0 && growth == RealPow((r as real + e as real) / r as real, m)
    ensures Payout(c, r, e, m) == (c as real * (growth - 1.0)).Floor
  {
    RealPowOfNat(r, m);
    RealPowOfNat(r + e, m);
    RealPowDivides(r as real + e as real, r as real, m);
    ScaledExcess(c, Pow(r, m), Pow(r + e, m), growth);
    QuotientFloor(c * (Pow(r + e, m) - Pow(r, m)), Pow(r, m), c as real * (growth - 1.0));
  }
}
