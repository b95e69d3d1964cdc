/** Numerals in base 32, the five-bit characters of a packed name. */
module Numerals {
  import opened Words

  /** The number written with digits p in base 32. */
  function Value(p: seq<nat>): nat {
    if p == [] then 0 else 32 * Value(p[..|p| - 1]) + p[|p| - 1]
  }

  predicate Digits(p: seq<nat>) {
    forall i :: 0 <= i < |p| ==> p[i] < 32
  }

  /** The last k digits of h in base 32. */
  function Expand(h: nat, k: nat): (p: seq<nat>)
    ensures |p| == k && Digits(p)
  {
    if k == 0 then [] else Expand(h / 32, k - 1) + [h % 32]
  }

  lemma Pow32(k: nat)
    requires k > 0
    ensures Pow2(5 * k) == 32 * Pow2(5 * (k - 1))
  {
    Pow2Add(5, 5 * (k - 1));
    assert Pow2(5) == 32;
  }

  lemma {:induction false} ValueBound(p: seq<nat>)
    requires Digits(p)
    ensures Value(p) < Pow2(5 * |p|)
  {
    if p != [] {
      ValueBound(p[..|p| - 1]);
      Pow32(|p|);
    }
  }

  lemma {:induction false} ExpandValue(p: seq<nat>)
    requires Digits(p)
    ensures Expand(Value(p), |p|) == p
  {
    if p != [] {
      ExpandValue(p[..|p| - 1]);
    }
  }

  lemma {:induction false} ValueExpand(h: nat, k: nat)
    requires h < Pow2(5 * k)
    ensures Value(Expand(h, k)) == h
  {
    if k > 0 {
      Pow32(k);
      ValueExpand(h / 32, k - 1);
      assert Expand(h, k)[..k - 1] == Expand(h / 32, k - 1);
    }
  }

  lemma {:induction false} ExpandAt(h: nat, k: nat, i: nat)
    requires i < k
    ensures Expand(h, k)[i] == h / Pow2(5 * (k - 1 - i)) % 32
  {
    if i < k - 1 {
      ExpandAt(h / 32, k - 1, i);
      Pow32(k - 1 - i);
      DivDiv(h, 32, Pow2(5 * (k - 2 - i)));
    }
  }

  function Dots(k: nat): (p: seq<nat>)
    ensures |p| == k && Digits(p)
  {
    seq(k, i => 0)
  }

  lemma {:induction false} ValueConcat(p: seq<nat>, q: seq<nat>)
    ensures Value(p + q) == Value(p) * Pow2(5 * |q|) + Value(q)
  {
    if q == [] {
      assert p + q == p;
    } else {
      var k := |q|;
      ValueConcat(p, q[..k - 1]);
      assert (p + q)[..|p| + k - 1] == p + q[..k - 1];
      Pow32(k);
      Assoc(Value(p), 32, Pow2(5 * (k - 1)));
      Assoc(32, Value(p), Pow2(5 * (k - 1)));
    }
  }

  lemma {:induction false} NoValue(k: nat)
    ensures Value(Dots(k)) == 0
  {
    if k > 0 {
      NoValue(k - 1);
      assert Dots(k)[..k - 1] == Dots(k - 1);
    }
  }

  lemma ValueDots(p: seq<nat>, k: nat)
    ensures Value(p + Dots(k)) == Value(p) * Pow2(5 * k)
  {
    ValueConcat(p, Dots(k));
    NoValue(k);
  }

  /** Numerals of one length compare as their digits do at the first place where they differ. */
  lemma {:induction false} ValueLess(p: seq<nat>, q: seq<nat>, k: nat)
    requires |p| == |q| && Digits(p) && Digits(q) && k < |p| && p[..k] == q[..k] && p[k] < q[k]
    ensures Value(p) < Value(q)
  {
    var last := |p| - 1;
    if k < last {
      assert p[..last][..k] == p[..k] == q[..k] == q[..last][..k];
      ValueLess(p[..last], q[..last], k);
    } else {
      assert p[..last] == q[..last];
    }
  }
}
