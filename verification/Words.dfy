/**
  * Unsigned 64-bit words as natural numbers below 2^64: shifts that drop what leaves the
  * word, and bitwise operations defined bit by bit.
  */
module Words {
  const WIDTH: nat := 64

  function Pow2(k: nat): (p: nat)
    ensures p > 0
  {
    if k == 0 then 1 else 2 * Pow2(k - 1)
  }

  predicate IsWord(n: nat) {
    n < Pow2(WIDTH)
  }

  function Shl(n: nat, k: nat): (r: nat)
    ensures IsWord(r)
  {
    n * Pow2(k) % Pow2(WIDTH)
  }

  function Shr(n: nat, k: nat): nat {
    if k == 0 then n else Shr(n / 2, k - 1)
  }

  function And(a: nat, b: nat): nat {
    if a == 0 || b == 0 then 0
    else 2 * And(a / 2, b / 2) + (if a % 2 == 1 && b % 2 == 1 then 1 else 0)
  }

  function Or(a: nat, b: nat): nat {
    if a == 0 then b
    else if b == 0 then a
    else 2 * Or(a / 2, b / 2) + (if a % 2 == 1 || b % 2 == 1 then 1 else 0)
  }

  lemma {:induction false} Pow2Add(j: nat, k: nat)
    ensures Pow2(j + k) == Pow2(j) * Pow2(k)
  {
    if j > 0 {
      Pow2Add(j - 1, k);
      Assoc(2, Pow2(j - 1), Pow2(k));
    }
  }

  lemma {:induction false} Pow2Monotone(j: nat, k: nat)
    requires j <= k
    ensures Pow2(j) <= Pow2(k)
  {
    if j < k {
      Pow2Monotone(j, k - 1);
    }
  }

  lemma Assoc(x: int, y: int, z: int)
    ensures x * y * z == x * (y * z)
  {
  }

  /** Quotients are the only numbers with a remainder in range. */
  lemma DivIs(n: nat, d: nat, q: nat, r: nat)
    requires n == q * d + r && r < d
    ensures n / d == q && n % d == r
  {
    var q', r' := n / d, n % d;
    assert n == q' * d + r';
    if q < q' {
      assert (q' - q) * d >= d by { MulAtLeast(q' - q, d); }
      assert false by { Distribute(q', q, d); }
    } else if q' < q {
      assert (q - q') * d >= d by { MulAtLeast(q - q', d); }
      assert false by { Distribute(q, q', d); }
    }
  }

  lemma MulAtLeast(x: nat, d: nat)
    requires x >= 1
    ensures x * d >= d
  {
  }

  lemma Distribute(x: int, y: int, d: int)
    ensures (x - y) * d == x * d - y * d
  {
  }

  lemma Regroup(q: nat, y: nat, x: nat, r: nat, b: nat)
    ensures (q * y + r) * x + b == q * (x * y) + (r * x + b)
  {
  }

  lemma BelowProduct(r: nat, b: nat, x: nat, y: nat)
    requires r < y && b < x
    ensures r * x + b < x * y
  {
    assert (y - r) * x >= x by { MulAtLeast(y - r, x); }
    Distribute(y, r, x);
  }

  lemma Product(x: nat, y: nat)
    requires x > 0 && y > 0
    ensures x * y > 0
  {
  }

  lemma DivMod(n: nat, d: nat)
    requires d > 0
    ensures n == n / d * d + n % d && n % d < d && n / d >= 0
  {
  }

  lemma QuotientOfQuotient(n: nat, x: nat, y: nat, a: nat, b: nat, q: nat, r: nat)
    requires n == a * x + b && b < x && a == q * y + r && r < y
    ensures x * y > 0 && n / (x * y) == q
  {
    Product(x, y);
    Regroup(q, y, x, r, b);
    BelowProduct(r, b, x, y);
    DivIs(n, x * y, q, r * x + b);
  }

  lemma DivDiv(n: nat, x: nat, y: nat)
    requires x > 0 && y > 0
    ensures x * y > 0 && n / (x * y) == n / x / y
  {
    DivMod(n, x);
    var a: nat := n / x;
    DivMod(a, y);
    QuotientOfQuotient(n, x, y, a, n % x, a / y, a % y);
  }

  lemma {:induction false} ShrIsDiv(n: nat, k: nat)
    ensures Shr(n, k) == n / Pow2(k)
  {
    if k > 0 {
      ShrIsDiv(n / 2, k - 1);
      DivDiv(n, 2, Pow2(k - 1));
    }
  }

  lemma ModDouble(n: nat, p: nat)
    requires p > 0
    ensures n % (2 * p) == 2 * (n / 2 % p) + n % 2
  {
    var h := n / 2;
    assert n == h / p * (2 * p) + (2 * (h % p) + n % 2) by {
      assert h == h / p * p + h % p;
      assert h / p * (2 * p) == 2 * (h / p * p);
    }
    DivIs(n, 2 * p, h / p, 2 * (h % p) + n % 2);
  }

  lemma AndOdd(n: nat, p: nat)
    requires p > 0
    ensures And(n, 2 * p - 1) == 2 * And(n / 2, p - 1) + n % 2
  {
    assert (2 * p - 1) / 2 == p - 1 && (2 * p - 1) % 2 == 1;
  }

  lemma AndEven(n: nat, m: nat)
    ensures And(n, 2 * m) == 2 * And(n / 2, m)
  {
  }

  /** The last k bits. */
  function Low(n: nat, k: nat): nat {
    if k == 0 then 0 else 2 * Low(n / 2, k - 1) + n % 2
  }

  lemma {:induction false} LowIsMod(n: nat, k: nat)
    ensures Low(n, k) == n % Pow2(k)
  {
    if k > 0 {
      LowIsMod(n / 2, k - 1);
      ModDouble(n, Pow2(k - 1));
    }
  }

  /** A mask of low ones keeps the low bits. */
  lemma {:induction false} AndLow(n: nat, k: nat)
    ensures And(n, Pow2(k) - 1) == Low(n, k)
  {
    if k > 0 {
      AndLow(n / 2, k - 1);
      AndOdd(n, Pow2(k - 1));
    }
  }

  lemma {:induction false} LowAll(n: nat, k: nat)
    requires n < Pow2(k)
    ensures Low(n, k) == n
  {
    if k > 0 {
      LowAll(n / 2, k - 1);
    }
  }

  lemma AndAll(n: nat, k: nat)
    requires n < Pow2(k)
    ensures And(n, Pow2(k) - 1) == n
  {
    AndLow(n, k);
    LowAll(n, k);
  }

  /** A mask of ones with zeros below keeps the low bits but for the lowest. */
  lemma {:induction false} AndMiddle(n: nat, k: nat, j: nat)
    requires j <= k
    ensures Pow2(j) <= Pow2(k)
    ensures And(n, Pow2(k) - Pow2(j)) == Low(n, k) - Low(n, j)
    decreases j
  {
    Pow2Monotone(j, k);
    if j == 0 {
      AndLow(n, k);
    } else {
      AndMiddle(n / 2, k - 1, j - 1);
      var m := Pow2(k - 1) - Pow2(j - 1);
      assert Pow2(k) - Pow2(j) == 2 * m;
      AndEven(n, m);
    }
  }

  lemma ScaleBound(n: nat, m: nat, p: nat)
    requires n < m && p > 0
    ensures n * p < m * p
  {
  }

  lemma SmallRemainder(n: nat, m: nat)
    requires n < m
    ensures n % m == n
  {
  }

  /** A shift loses nothing when there is room. */
  lemma ShlFits(n: nat, k: nat, j: nat)
    requires n < Pow2(j) && j + k <= WIDTH
    ensures Shl(n, k) == n * Pow2(k) < Pow2(j + k)
  {
    assert n * Pow2(k) < Pow2(j + k) by {
      Pow2Add(j, k);
      ScaleBound(n, Pow2(j), Pow2(k));
    }
    Pow2Monotone(j + k, WIDTH);
    SmallRemainder(n * Pow2(k), Pow2(WIDTH));
  }

  /** Words without a common bit are joined by adding them. */
  lemma {:induction false} OrIsSum(a: nat, b: nat, k: nat)
    requires b < Pow2(k)
    ensures Or(a * Pow2(k), b) == a * Pow2(k) + b
  {
    if k > 0 {
      var x := a * Pow2(k - 1);
      assert a * Pow2(k) == 2 * x;
      OrIsSum(a, b / 2, k - 1);
    }
  }
}
