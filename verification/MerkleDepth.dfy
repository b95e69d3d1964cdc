/**
  * The depth of the incremental Merkle tree, computed with bit tricks: smear the highest bit
  * downwards to find the next power of two, then find its exponent with six masks.
  */
module MerkleDepth {
  import opened Words

  // ------------------------------------------------------------------- single bits

  predicate Bit(n: nat, i: nat)
    decreases i
  {
    if i == 0 then n % 2 == 1 else Bit(n / 2, i - 1)
  }

  lemma {:induction false} OrBit(a: nat, b: nat, i: nat)
    ensures Bit(Or(a, b), i) <==> Bit(a, i) || Bit(b, i)
    decreases i
  {
    if a == 0 {
      ZeroBit(i);
    } else if b == 0 {
      ZeroBit(i);
    } else if i > 0 {
      OrBit(a / 2, b / 2, i - 1);
      assert Or(a, b) / 2 == Or(a / 2, b / 2);
    }
  }

  lemma {:induction false} AndBit(a: nat, b: nat, i: nat)
    ensures Bit(And(a, b), i) <==> Bit(a, i) && Bit(b, i)
    decreases i
  {
    if a == 0 || b == 0 {
      ZeroBit(i);
    } else if i > 0 {
      AndBit(a / 2, b / 2, i - 1);
      assert And(a, b) / 2 == And(a / 2, b / 2);
    }
  }

  lemma {:induction false} ZeroBit(i: nat)
    ensures !Bit(0, i)
  {
    if i > 0 {
      ZeroBit(i - 1);
    }
  }

  lemma {:induction false} ShrBit(n: nat, s: nat, i: nat)
    ensures Bit(Shr(n, s), i) <==> Bit(n, i + s)
    decreases s
  {
    if s > 0 {
      ShrBit(n / 2, s - 1, i);
    }
  }

  /** A number is below a power of two exactly when it has no bit from there on. */
  lemma {:induction false} HighestBit(n: nat) returns (k: nat)
    requires n > 0
    ensures Bit(n, k) && Pow2(k) <= n < Pow2(k + 1)
    ensures forall i :: i > k ==> !Bit(n, i)
  {
    if n == 1 {
      k := 0;
      forall i: nat | i > 0
        ensures !Bit(n, i)
      {
        ZeroBit(i - 1);
      }
    } else {
      var half := HighestBit(n / 2);
      k := half + 1;
      forall i: nat | i > k
        ensures !Bit(n, i)
      {
        var above := i - 1;
        assert !Bit(n / 2, above);
      }
    }
  }

  lemma {:induction false} OnlyOnes(n: nat, k: nat)
    requires forall i: nat :: Bit(n, i) <==> i < k
    ensures n == Pow2(k) - 1
    decreases k
  {
    if k == 0 {
      if n > 0 {
        var top := HighestBit(n);
        assert false;
      }
    } else {
      assert Bit(n, 0);
      forall i: nat
        ensures Bit(n / 2, i) <==> i < k - 1
      {
        var next := i + 1;
        assert Bit(n, next) <==> next < k;
      }
      OnlyOnes(n / 2, k - 1);
    }
  }

  // ------------------------------------------------------------- the next power of two

  /** The j bits from bit k down are set, and none above. */
  ghost predicate Smeared(v: nat, k: nat, j: nat) {
    && (forall i: nat :: i <= k && i + j > k ==> Bit(v, i))
    && (forall i: nat :: i > k ==> !Bit(v, i))
  }

  lemma SmearStep(v: nat, k: nat, j: nat)
    requires Smeared(v, k, j)
    ensures Smeared(Or(v, Shr(v, j)), k, 2 * j)
  {
    var w := Or(v, Shr(v, j));
    forall i: nat | i > k || i + 2 * j > k
      ensures Bit(w, i) <==> i <= k
    {
      var from := i + j;
      OrBit(v, Shr(v, j), i);
      ShrBit(v, j, i);
      assert Bit(v, from) <==> Bit(Shr(v, j), i);
    }
  }

  lemma FullySmeared(v: nat, k: nat)
    requires k < WIDTH && Smeared(v, k, 64)
    ensures v == Pow2(k + 1) - 1
  {
    OnlyOnes(v, k + 1);
  }

  lemma {:induction false} ShrZero(s: nat)
    ensures Shr(0, s) == 0
    decreases s
  {
    if s > 0 {
      ShrZero(s - 1);
    }
  }

  /** One line of the smearing: nothing comes of nothing, and set bits double. */
  method SmearBy(value: nat, s: nat, ghost k: nat) returns (v: nat)
    requires value == 0 || Smeared(value, k, s)
    ensures if value == 0 then v == 0 else Smeared(v, k, 2 * s) && v > 0
  {
    v := Or(value, Shr(value, s));
    if value == 0 {
      ShrZero(s);
    } else {
      SmearStep(value, k, s);
      OrPositive(value, Shr(value, s));
    }
  }

  lemma {:induction false} OrPositive(a: nat, b: nat)
    requires a > 0
    ensures Or(a, b) > 0
  {
    if b > 0 && a > 1 {
      OrPositive(a / 2, b / 2);
    }
  }

  /**
    * The least power of two from a value on. Above 2^63 it is out of reach of the word, and there,
    * as for 0, the arithmetic wraps around to 0.
    */
  method NextPowerOf2(value: nat) returns (p: nat, ghost exponent: nat)
    requires IsWord(value)
    ensures p > 0 <==> 1 <= value <= Pow2(63)
    ensures value > 0 ==>
              && exponent <= WIDTH && Pow2(exponent) >= value && (exponent > 0 ==> Pow2(exponent - 1) < value)
              && p == if exponent == WIDTH then 0 else Pow2(exponent)
  {
    var v := if value == 0 then Pow2(WIDTH) - 1 else value - 1;
    ghost var below, k := v, 0;
    if below > 0 {
      k := TopOfWord(below);
    }
    v := SmearBy(v, 1, k);
    v := SmearBy(v, 2, k);
    v := SmearBy(v, 4, k);
    v := SmearBy(v, 8, k);
    v := SmearBy(v, 16, k);
    v := SmearBy(v, 32, k);
    if v > 0 {
      FullySmeared(v, k);
    }
    p := if v == Pow2(WIDTH) - 1 then 0 else v + 1;
    exponent := if below == 0 then 0 else k + 1;
    RoundedUp(value, below, k);
  }

  lemma TopOfWord(n: nat) returns (k: nat)
    requires 0 < n && IsWord(n)
    ensures k < WIDTH && Smeared(n, k, 1) && Pow2(k) <= n < Pow2(k + 1)
  {
    k := HighestBit(n);
    if k >= WIDTH {
      Pow2Monotone(WIDTH, k);
    }
  }

  lemma RoundedUp(value: nat, below: nat, k: nat)
    requires IsWord(value) && below == if value == 0 then Pow2(WIDTH) - 1 else value - 1
    requires below > 0 ==> k < WIDTH && Pow2(k) <= below < Pow2(k + 1)
    ensures below == 0 ==> value == 1
    ensures below > 0 && k < 63 ==> 1 < value <= Pow2(63) && Pow2(k) < value <= Pow2(k + 1) < Pow2(WIDTH)
    ensures below > 0 && k == 63 ==> value == 0 || value > Pow2(63)
  {
    if below > 0 && k < 63 {
      Pow2Monotone(k + 1, 63);
    }
  }

  // ---------------------------------------------------------------- the exponent

  lemma {:induction false} BitSplit(x: nat, y: nat, w: nat, i: nat)
    requires y < Pow2(w)
    ensures Bit(x * Pow2(w) + y, i) <==> if i < w then Bit(y, i) else Bit(x, i - w)
    decreases w
  {
    if w > 0 {
      var z := x * Pow2(w - 1);
      assert x * Pow2(w) == 2 * z;
      assert (2 * z + y) / 2 == z + y / 2 && (2 * z + y) % 2 == y % 2;
      if i > 0 {
        BitSplit(x, y / 2, w - 1, i - 1);
      }
    }
  }

  lemma {:induction false} OnesBit(b: nat, i: nat)
    ensures Bit(Pow2(b) - 1, i) <==> i < b
    decreases b
  {
    if b == 0 {
      ZeroBit(i);
    } else {
      assert (Pow2(b) - 1) / 2 == Pow2(b - 1) - 1 && (Pow2(b) - 1) % 2 == 1;
      if i > 0 {
        OnesBit(b - 1, i - 1);
      }
    }
  }

  lemma {:induction false} PowBit(k: nat, i: nat)
    ensures Bit(Pow2(k), i) <==> i == k
    decreases k
  {
    if i > 0 {
      if k == 0 {
        ZeroBit(i - 1);
      } else {
        PowBit(k - 1, i - 1);
      }
    }
  }

  function Width(b: nat, l: nat): nat
    decreases l
  {
    if l == 0 then 2 * b else 2 * Width(b, l - 1)
  }

  /** Alternating b ones and b zeros from the low end, doubled l times. */
  function Stripes(b: nat, l: nat): nat
    decreases l
  {
    if l == 0 then Pow2(b) - 1
    else
      var half := Stripes(b, l - 1);
      half * Pow2(Width(b, l - 1)) + half
  }

  lemma Doubled(x: nat, p: nat)
    requires x < p
    ensures x * p + x < p * p
  {
    ScaleBound(x, p, p);
    Distribute(p, x, p);
    MulAtLeast(p - x, p);
  }

  lemma {:induction false} StripesBound(b: nat, l: nat)
    ensures Stripes(b, l) < Pow2(Width(b, l))
    decreases l
  {
    if l == 0 {
      Pow2Monotone(b, 2 * b);
    } else {
      var w := Width(b, l - 1);
      StripesBound(b, l - 1);
      Pow2Add(w, w);
      Doubled(Stripes(b, l - 1), Pow2(w));
    }
  }

  /** Widths are even numbers of stripes. */
  lemma {:induction false} WidthIs(b: nat, l: nat) returns (q: nat)
    ensures Width(b, l) == 2 * q * b
    decreases l
  {
    if l == 0 {
      q := 1;
    } else {
      var half := WidthIs(b, l - 1);
      q := 2 * half;
      Assoc(2, 2 * half, b);
    }
  }

  lemma SameStripe(b: nat, i: nat, q: nat)
    requires b > 0 && 2 * q * b <= i
    ensures (i - 2 * q * b) / b % 2 == i / b % 2
  {
    var rest := i - 2 * q * b;
    DivMod(rest, b);
    Distribute(rest / b, -2 * q, b);
    DivIs(i, b, rest / b + 2 * q, rest % b);
  }

  lemma {:induction false} StripesBit(b: nat, l: nat, i: nat)
    requires b > 0 && i < Width(b, l)
    ensures Bit(Stripes(b, l), i) <==> i / b % 2 == 0
    decreases l
  {
    if l == 0 {
      OnesBit(b, i);
      if i < b {
        DivIs(i, b, 0, i);
      } else {
        DivIs(i, b, 1, i - b);
      }
    } else {
      var half, w := Stripes(b, l - 1), Width(b, l - 1);
      StripesBound(b, l - 1);
      BitSplit(half, half, w, i);
      if i < w {
        StripesBit(b, l - 1, i);
      } else {
        StripesBit(b, l - 1, i - w);
        var q := WidthIs(b, l - 1);
        SameStripe(b, i, q);
      }
    }
  }

  lemma PowHits(k: nat, m: nat)
    ensures And(Pow2(k), m) != 0 <==> Bit(m, k)
  {
    var hit := And(Pow2(k), m);
    AndBit(Pow2(k), m, k);
    PowBit(k, k);
    ZeroBit(k);
    if hit > 0 {
      var i := HighestBit(hit);
      AndBit(Pow2(k), m, i);
      PowBit(k, i);
    }
  }

  lemma StripeHits(k: nat, b: nat, l: nat, mask: nat)
    requires b > 0 && k < Width(b, l) && mask == Stripes(b, l)
    ensures And(Pow2(k), mask) != 0 <==> k / b % 2 == 0
  {
    PowHits(k, mask);
    StripesBit(b, l, k);
  }

  lemma SmallPowers()
    ensures Pow2(1) == 2 && Pow2(2) == 4 && Pow2(4) == 16 && Pow2(8) == 256
  {
    Pow2Add(4, 4);
  }

  lemma Power16()
    ensures Pow2(16) == 0x1_0000
  {
    SmallPowers();
    Pow2Add(8, 8);
  }

  lemma Powers()
    ensures Pow2(1) == 2 && Pow2(2) == 4 && Pow2(4) == 16 && Pow2(8) == 256
    ensures Pow2(16) == 0x1_0000 && Pow2(32) == 0x1_0000_0000
  {
    SmallPowers();
    Power16();
    Pow2Add(16, 16);
  }

  lemma WideStripes()
    ensures Stripes(32, 0) == 0x0000_0000_FFFF_FFFF && Width(32, 0) == 64
    ensures Stripes(16, 1) == 0x0000_FFFF_0000_FFFF && Width(16, 1) == 64
    ensures Stripes(8, 2) == 0x00FF_00FF_00FF_00FF && Width(8, 2) == 64
  {
    Powers();
    assert Stripes(16, 0) == 0xFFFF && Width(16, 0) == 32;
    assert Stripes(8, 0) == 0xFF && Width(8, 0) == 16;
    assert Stripes(8, 1) == 0x00FF_00FF && Width(8, 1) == 32;
  }

  lemma NarrowStripes()
    ensures Stripes(4, 3) == 0x0F0F_0F0F_0F0F_0F0F && Width(4, 3) == 64
    ensures Stripes(2, 4) == 0x3333_3333_3333_3333 && Width(2, 4) == 64
    ensures Stripes(1, 5) == 0x5555_5555_5555_5555 && Width(1, 5) == 64
  {
    Powers();
    assert Stripes(4, 0) == 0xF && Width(4, 0) == 8;
    assert Stripes(4, 1) == 0x0F0F && Width(4, 1) == 16;
    assert Stripes(4, 2) == 0x0F0F_0F0F && Width(4, 2) == 32;
    assert Stripes(2, 0) == 3 && Width(2, 0) == 4;
    assert Stripes(2, 1) == 0x33 && Width(2, 1) == 8;
    assert Stripes(2, 2) == 0x3333 && Width(2, 2) == 16;
    assert Stripes(2, 3) == 0x3333_3333 && Width(2, 3) == 32;
    assert Stripes(1, 0) == 1 && Width(1, 0) == 2;
    assert Stripes(1, 1) == 5 && Width(1, 1) == 4;
    assert Stripes(1, 2) == 0x55 && Width(1, 2) == 8;
    assert Stripes(1, 3) == 0x5555 && Width(1, 3) == 16;
    assert Stripes(1, 4) == 0x5555_5555 && Width(1, 4) == 32;
  }

  function Part(q: nat, b: nat): nat {
    if q % 2 == 0 then b else 0
  }

  lemma Binary(k: nat)
    requires k < 64
    ensures k == 32 * (k / 32 % 2) + 16 * (k / 16 % 2) + 8 * (k / 8 % 2) + 4 * (k / 4 % 2) + 2 * (k / 2 % 2) + k % 2
    ensures k == 63 - Part(k / 32, 32) - Part(k / 16, 16) - Part(k / 8, 8) - Part(k / 4, 4) - Part(k / 2, 2) - Part(k, 1)
  {
    assert k / 16 / 2 == k / 32;
    assert k / 8 / 2 == k / 16;
    assert k / 4 / 2 == k / 8;
    assert k / 2 / 2 == k / 4;
  }

  /** What the mask of b-bit stripes takes off the count for 2^k; 2^64 is the word 0. */
  method Weight(value: nat, mask: nat, b: nat, ghost k: nat, ghost l: nat) returns (w: nat)
    requires k <= WIDTH && value == if k == WIDTH then 0 else Pow2(k)
    requires b > 0 && mask == Stripes(b, l) && Width(b, l) == WIDTH
    ensures w == if k < WIDTH then Part(k / b, b) else 0
  {
    if k < WIDTH {
      StripeHits(k, b, l, mask);
    }
    w := if And(value, mask) != 0 then b else 0;
  }

  method WideWeights(value: nat, ghost k: nat) returns (w32: nat, w16: nat, w8: nat)
    requires k <= WIDTH && value == if k == WIDTH then 0 else Pow2(k)
    ensures k < WIDTH ==> w32 == Part(k / 32, 32) && w16 == Part(k / 16, 16) && w8 == Part(k / 8, 8)
    ensures k == WIDTH ==> w32 == w16 == w8 == 0
  {
    WideStripes();
    w32 := Weight(value, 0x0000_0000_FFFF_FFFF, 32, k, 0);
    w16 := Weight(value, 0x0000_FFFF_0000_FFFF, 16, k, 1);
    w8 := Weight(value, 0x00FF_00FF_00FF_00FF, 8, k, 2);
  }

  method NarrowWeights(value: nat, ghost k: nat) returns (w4: nat, w2: nat, w1: nat)
    requires k <= WIDTH && value == if k == WIDTH then 0 else Pow2(k)
    ensures k < WIDTH ==> w4 == Part(k / 4, 4) && w2 == Part(k / 2, 2) && w1 == Part(k, 1)
    ensures k == WIDTH ==> w4 == w2 == w1 == 0
  {
    NarrowStripes();
    w4 := Weight(value, 0x0F0F_0F0F_0F0F_0F0F, 4, k, 3);
    w2 := Weight(value, 0x3333_3333_3333_3333, 2, k, 4);
    w1 := Weight(value, 0x5555_5555_5555_5555, 1, k, 5);
  }

  /** Named for leading zeros; for a power of two it returns the exponent, and for 2^64, which the
      word holds as 0, it does so as well. */
  method ClzPower2(value: nat, ghost k: nat) returns (lz: int)
    requires k <= WIDTH && value == if k == WIDTH then 0 else Pow2(k)
    ensures lz == k
  {
    lz := 64;
    if value != 0 { lz := lz - 1; }
    var w32, w16, w8 := WideWeights(value, k);
    var w4, w2, w1 := NarrowWeights(value, k);
    lz := lz - w32 - w16 - w8 - w4 - w2 - w1;
    if k < WIDTH {
      Binary(k);
    }
  }

  // -------------------------------------------------------------------- the depth

  /** Number of levels above the leaves of a tree with n leaves. */
  function Height(n: nat): nat
    decreases n
  {
    if n <= 1 then 0 else 1 + Height((n + 1) / 2)
  }

  /** The depth of the smallest full binary tree with room for n leaves; an empty tree has none. */
  function MaxDepth(n: nat): nat {
    if n == 0 then 0 else Height(n) + 1
  }

  lemma {:induction false} HeightIs(n: nat, h: nat)
    requires 1 <= n <= Pow2(h) && (h > 0 ==> Pow2(h - 1) < n)
    ensures Height(n) == h
    decreases h
  {
    if h > 0 {
      HeightIs((n + 1) / 2, h - 1);
    }
  }

  /** The depth of the smallest full tree for a count of nodes. */
  method CalculateMaxDepth(nodeCount: nat) returns (depth: int)
    requires IsWord(nodeCount)
    ensures depth == MaxDepth(nodeCount)
  {
    if nodeCount == 0 {
      return 0;
    }
    var impliedCount, k := NextPowerOf2(nodeCount);
    HeightIs(nodeCount, k);
    var exponent := ClzPower2(impliedCount, k);
    depth := exponent + 1;
  }
}
