/**
  * The part of a name after its last dot, computed on the packed word with a sentinel loop,
  * a mask and two shifts, against the plain reading of the characters.
  */
module NameSuffix {
  import opened Words
  import opened Numerals
  import opened Sequences
  import opened Names

  /** The characters after the last dot that has another character after it. */
  function Tail(s: seq<nat>): seq<nat> {
    AfterLast(TrimRight(s, 0), 0)
  }

  lemma TailIs(s: seq<nat>) returns (p: nat)
    ensures p <= |TrimRight(s, 0)| <= |s| && Tail(s) == TrimRight(s, 0)[p..] && 0 !in Tail(s)
    ensures p < |s| || s == []
    ensures Tail(s) == [] ==> TrimRight(s, 0) == []
  {
    TrimRightIs(s, 0);
    p := AfterLastIs(TrimRight(s, 0), 0);
  }

  lemma TailFits(s: seq<nat>)
    requires Digits(s)
    ensures |Tail(s)| <= |s| && Digits(Tail(s))
  {
    var p := TailIs(s);
    TrimRightIs(s, 0);
  }

  /** Those characters moved to the front, dots after them. */
  function SuffixChars(s: seq<nat>): (t: seq<nat>)
    requires Fits(s)
    ensures |t| == LENGTH
  {
    TailFits(s);
    Tail(s) + Dots(LENGTH - |Tail(s)|)
  }

  lemma SuffixFits(s: seq<nat>)
    requires Fits(s)
    ensures Fits(SuffixChars(s))
  {
    TailFits(s);
    if |Tail(s)| == LENGTH {
      var p := TailIs(s);
      TrimRightIs(s, 0);
      assert Tail(s) == s;
    }
  }

  function Suffix(n: nat): nat {
    Pack(SuffixChars(Chars(n)))
  }

  lemma ShiftedChar(n: nat, i: nat)
    requires i < 12
    ensures And(Shr(n, 59 - 5 * i), 31) == Chars(n)[i]
  {
    var k := 5 * (11 - i);
    LowCharacter(Shr(n, 4 + k));
    ShrIsDiv(n, 4 + k);
    Pow2Add(4, k);
    assert Pow2(4) == 16;
    DivDiv(n, 16, Pow2(k));
    ExpandAt(n / 16, 12, i);
  }

  // -------------------------------------------------------------- the last step

  lemma SplitWord(s: seq<nat>, p: nat)
    requires Fits(s) && 1 <= p <= 12
    ensures Pack(s) == Value(s[..p]) * Pow2(64 - 5 * p) + (16 * Value(s[p..12]) + s[12])
    ensures 16 * Value(s[p..12]) + s[12] < Pow2(64 - 5 * p)
  {
    var j := 12 - p;
    assert s[..12] == s[..p] + s[p..12];
    ValueConcat(s[..p], s[p..12]);
    ValueBound(s[p..12]);
    Pow2Add(4, 5 * j);
    assert Pow2(4) == 16 && 64 - 5 * p == 4 + 5 * j;
    Assoc(16, Value(s[..p]), Pow2(5 * j));
    Assoc(Value(s[..p]), 16, Pow2(5 * j));
  }

  /** Masking with ones from bit 4 up keeps the characters after place p but for the thirteenth. */
  lemma Masked(s: seq<nat>, p: nat)
    requires Fits(s) && 1 <= p <= 12
    ensures Pow2(64 - 5 * p) >= 16
    ensures And(Pack(s), Pow2(64 - 5 * p) - 16) == 16 * Value(s[p..12])
  {
    var n, k := Pack(s), 64 - 5 * p;
    assert Pow2(4) == 16;
    AndMiddle(n, k, 4);
    LowIsMod(n, k);
    LowIsMod(n, 4);
    SplitWord(s, p);
    DivIs(n, Pow2(k), Value(s[..p]), 16 * Value(s[p..12]) + s[12]);
    DivIs(n, 16, Value(s[..12]), s[12]);
  }

  lemma HighSummand(v: nat, p: nat)
    requires 1 <= p <= 12 && v < Pow2(5 * (12 - p))
    ensures Shl(16 * v, 5 * p) == 32 * v * Pow2(5 * p - 1)
  {
    var j := 5 * (12 - p);
    Pow2Add(4, j);
    assert Pow2(4) == 16;
    ShlFits(16 * v, 5 * p, 4 + j);
    assert Pow2(5 * p) == 2 * Pow2(5 * p - 1);
    Assoc(16 * v, 2, Pow2(5 * p - 1));
  }

  lemma LowSummand(c: nat, p: nat)
    requires 1 <= p <= 12 && c < 16
    ensures Shl(c, 5 * p - 1) == c * Pow2(5 * p - 1)
  {
    assert Pow2(4) == 16;
    ShlFits(c, 5 * p - 1, 4);
  }

  /** The two summands are the characters after place p, the thirteenth now five bits wide. */
  lemma SumIsShifted(s: seq<nat>, p: nat)
    requires Fits(s) && 1 <= p <= 12
    ensures 32 * Value(s[p..12]) * Pow2(5 * p - 1) + s[12] * Pow2(5 * p - 1) == Pack(s[p..] + Dots(p))
  {
    var t := s[p..];
    assert t[..12 - p] == s[p..12] && t[12 - p] == s[12];
    assert Value(t) == 32 * Value(s[p..12]) + s[12];
    ValueDots(t, p - 1);
    assert (t + Dots(p))[..12] == t + Dots(p - 1);
    Pow2Add(4, 5 * (p - 1));
    assert Pow2(4) == 16;
    SumArithmetic(Value(s[p..12]), s[12], Pow2(5 * (p - 1)));
  }

  lemma SumArithmetic(v: nat, c: nat, q: nat)
    ensures 32 * v * (16 * q) + c * (16 * q) == 16 * ((32 * v + c) * q)
  {
  }

  /** The summands have no bit in common, so that adding them is joining them. */
  lemma SummandsDisjoint(v: nat, c: nat, p: nat)
    requires 1 <= p <= 12 && c < 16
    ensures Or(32 * v * Pow2(5 * p - 1), c * Pow2(5 * p - 1)) == 32 * v * Pow2(5 * p - 1) + c * Pow2(5 * p - 1)
  {
    var q := Pow2(5 * p - 1);
    Pow2Add(4, 5 * p - 1);
    assert Pow2(4) == 16;
    ScaleBound(c, 16, q);
    Assoc(2 * v, 16, q);
    OrIsSum(2 * v, c * q, 5 * p + 3);
  }

  lemma CutIsShifted(s: seq<nat>, p: nat)
    requires Fits(s) && 1 <= p <= 12
    ensures Pow2(64 - 5 * p) >= 16
    ensures Shl(And(Pack(s), Pow2(64 - 5 * p) - 16), 5 * p) + Shl(s[12], 5 * p - 1) == Pack(s[p..] + Dots(p))
    ensures IsWord(Pack(s[p..] + Dots(p)))
  {
    PackIsWord(s[p..] + Dots(p));
    Masked(s, p);
    ValueBound(s[p..12]);
    HighSummand(Value(s[p..12]), p);
    LowSummand(s[12], p);
    SumIsShifted(s, p);
  }

  // ------------------------------------------------------------------- the loop

  /** How the loop remembers the place p where a suffix starts: bits left after the dot, 0 for none. */
  function Mark(p: int): int {
    if p == 0 then 0 else 64 - 5 * p
  }

  /** The place after the last dot in s. */
  function AfterDot(s: seq<nat>): int {
    |s| - |AfterLast(s, 0)|
  }

  /** The same when the dots at the end of s are not looked at. */
  function Start(s: seq<nat>): int {
    AfterDot(TrimRight(s, 0))
  }

  lemma NextChar(s: seq<nat>, i: nat)
    requires i < |s|
    ensures s[i] == 0 ==> AfterDot(s[..i + 1]) == i + 1 && Start(s[..i + 1]) == Start(s[..i])
    ensures s[i] != 0 ==> AfterDot(s[..i + 1]) == AfterDot(s[..i]) && Start(s[..i + 1]) == AfterDot(s[..i])
  {
    assert s[..i + 1][..i] == s[..i];
  }

  lemma SamePadding(s: seq<nat>, t: seq<nat>, p: nat)
    requires |s| == LENGTH && t <= s && p <= |t| && forall i :: |t| <= i < LENGTH ==> s[i] == 0
    ensures t[p..] + Dots(LENGTH - (|t| - p)) == s[p..] + Dots(p)
  {
  }

  lemma StartIsSuffix(s: seq<nat>)
    requires Fits(s)
    ensures 0 <= Start(s) <= 12 && SuffixChars(s) == s[Start(s)..] + Dots(Start(s))
  {
    var p := TailIs(s);
    TrimRightIs(s, 0);
    SamePadding(s, TrimRight(s, 0), p);
  }

  lemma MarkedSum(n: nat, remaining: nat, s: seq<nat>, p: nat)
    requires Fits(s) && n == Pack(s) && 1 <= p <= 12 && remaining == Mark(p)
    ensures 16 <= Shl(1, remaining) == Pow2(remaining)
    ensures Shl(And(n, Shl(1, remaining) - 16), 64 - remaining) + Shl(And(n, 15), 63 - remaining)
         == Pack(s[p..] + Dots(p)) < Pow2(WIDTH)
  {
    assert n % 16 == s[12];
    LowCharacter(n);
    ShlFits(1, remaining, 1);
    CutIsShifted(s, p);
  }

  /** The characters that follow the marked dot, moved to the high end. */
  method CutAt(n: nat, remaining: nat, ghost s: seq<nat>, ghost p: nat) returns (r: nat)
    requires Fits(s) && n == Pack(s) && 1 <= p <= 12 && remaining == Mark(p)
    ensures r == Pack(s[p..] + Dots(p)) && IsWord(r)
  {
    MarkedSum(n, remaining, s, p);
    var mask := Shl(1, remaining) - 16;
    var shift := 64 - remaining;
    r := Shl(And(n, mask), shift) + Shl(And(n, 15), shift - 1);
    SmallRemainder(r, Pow2(WIDTH));
    r := r % Pow2(WIDTH);
  }

  method ComputeSuffix(n: nat) returns (r: nat)
    requires IsWord(n)
    ensures r == Suffix(n) && IsWord(r)
  {
    var remaining, tmp := 0, 0;
    ghost var s, i := Chars(n), 0;
    var bits := 59;
    while bits >= 4
      invariant 0 <= i <= 12 && bits == 59 - 5 * i
      invariant tmp == Mark(AfterDot(s[..i])) && remaining == Mark(Start(s[..i]))
    {
      ShiftedChar(n, i);
      NextChar(s, i);
      var c := And(Shr(n, bits), 31);
      if c == 0 {
        tmp := bits;
      } else {
        remaining := tmp;
      }
      bits := bits - 5;
      i := i + 1;
    }
    LowCharacter(n);
    NextChar(s, 12);
    assert s[..LENGTH] == s;
    var thirteenth := And(n, 15);
    if thirteenth != 0 {
      remaining := tmp;
    }
    StartIsSuffix(s);
    PackChars(n);
    if remaining == 0 {
      assert s[0..] + Dots(0) == s;
      return n;
    }
    r := CutAt(n, remaining, s, Start(s));
  }

  // ----------------------------------------------------------------- properties

  lemma SuffixParts(n: nat) returns (a: seq<nat>)
    ensures a == Tail(Chars(n)) && |a| <= LENGTH && 0 !in a
    ensures Chars(Suffix(n)) == a + Dots(LENGTH - |a|) && TrimRight(Chars(Suffix(n)), 0) == a
  {
    var s := Chars(n);
    a := Tail(s);
    var p := TailIs(s);
    SuffixFits(s);
    CharsPack(SuffixChars(s));
    TrimRightOf(a + Dots(LENGTH - |a|), a, 0);
  }

  lemma SuffixCharsFrom(s: seq<nat>, p: nat)
    requires Fits(s) && p < LENGTH && (p > 0 ==> s[p - 1] == 0 && exists j :: p <= j < LENGTH && s[j] != 0)
    requires forall d, j :: p <= d < j < LENGTH && s[d] == 0 ==> s[j] == 0
    ensures SuffixChars(s) == s[p..] + Dots(p)
  {
    TrimRightIs(s, 0);
    var t := TrimRight(s, 0);
    assert p <= |t|;
    forall k | p <= k < |t|
      ensures t[k] != 0
    {
      assert s[|t| - 1] != 0;
    }
    AfterLastOf(t, p, 0);
    SamePadding(s, t, p);
  }

  /**
    * The suffix starts after the last dot that has a character other than a dot somewhere
    * behind it; a name without such a dot is its own suffix.
    */
  lemma SuffixAfterLastDot(n: nat, p: nat)
    requires IsWord(n) && p < LENGTH
    requires p > 0 ==> Chars(n)[p - 1] == 0 && exists j :: p <= j < LENGTH && Chars(n)[j] != 0
    requires forall d, j :: p <= d < j < LENGTH && Chars(n)[d] == 0 ==> Chars(n)[j] == 0
    ensures Chars(Suffix(n)) == Chars(n)[p..] + Dots(p)
    ensures p == 0 ==> Suffix(n) == n
  {
    SuffixCharsFrom(Chars(n), p);
    SuffixFits(Chars(n));
    CharsPack(SuffixChars(Chars(n)));
    if p == 0 {
      assert Chars(n)[0..] + Dots(0) == Chars(n);
      PackChars(n);
    }
  }

  lemma {:induction false} LettersAfterLast(t: seq<nat>, u: string)
    requires Digits(t) && |t| == |u| && forall i :: 0 <= i < |t| ==> u[i] == Letter(t[i])
    ensures Digits(AfterLast(t, 0)) && |AfterLast(u, '.')| == |AfterLast(t, 0)|
    ensures forall i :: 0 <= i < |AfterLast(t, 0)| ==> AfterLast(u, '.')[i] == Letter(AfterLast(t, 0)[i])
  {
    if t != [] {
      var k := |t| - 1;
      SymbolOfLetter(t[k]);
      LettersAfterLast(t[..k], u[..k]);
    }
  }

  lemma ToTextLetters(n: nat, t: seq<nat>)
    requires t == TrimRight(Chars(n), 0)
    ensures Digits(t) && |ToText(n)| == |t| && forall i :: 0 <= i < |t| ==> ToText(n)[i] == Letter(t[i])
  {
    ToTextIs(n);
    TrimRightIs(Chars(n), 0);
  }

  /** In text, the suffix is what follows the last dot of the printed name. */
  lemma SuffixText(n: nat)
    ensures ToText(Suffix(n)) == AfterLast(ToText(n), '.')
  {
    var a := SuffixParts(n);
    var t := TrimRight(Chars(n), 0);
    ToTextLetters(n, t);
    ToTextLetters(Suffix(n), a);
    LettersAfterLast(t, ToText(n));
  }

  lemma SuffixIdempotent(n: nat)
    ensures Suffix(Suffix(n)) == Suffix(n)
  {
    var a := SuffixParts(n);
    AfterLastOf(a, 0, 0);
    assert a[0..] == a;
    assert Tail(Chars(Suffix(n))) == a;
  }

  lemma PackZero(s: seq<nat>)
    requires Fits(s)
    ensures Pack(s) == 0 <==> s == Dots(LENGTH)
  {
    NoValue(12);
    assert Dots(LENGTH)[..12] == Dots(12);
    CharsPack(s);
    CharsPack(Dots(LENGTH));
  }

  lemma ZeroChars(n: nat)
    requires IsWord(n)
    ensures n == 0 <==> Chars(n) == Dots(LENGTH)
  {
    PackZero(Chars(n));
    PackChars(n);
  }

  lemma AllDots(s: seq<nat>)
    ensures TrimRight(s, 0) == [] <==> s == Dots(|s|)
  {
    TrimRightIs(s, 0);
    if s == Dots(|s|) {
      TrimRightOf(s, [], 0);
    }
  }

  lemma NoDots(a: seq<nat>)
    requires |a| <= LENGTH && 0 !in a
    ensures a + Dots(LENGTH - |a|) == Dots(LENGTH) <==> a == []
  {
    if a != [] {
      assert (a + Dots(LENGTH - |a|))[0] == a[0] != 0;
    }
  }

  lemma SuffixZero(n: nat)
    requires IsWord(n)
    ensures Suffix(n) == 0 <==> n == 0
  {
    var a := SuffixParts(n);
    SuffixFits(Chars(n));
    PackIsWord(SuffixChars(Chars(n)));
    ZeroChars(n);
    ZeroChars(Suffix(n));
    NoDots(a);
    AllDots(Chars(n));
    var p := TailIs(Chars(n));
  }

  /** A suffix is characters other than dots, then only dots. */
  lemma SuffixShape(n: nat) returns (k: nat)
    ensures k <= LENGTH
    ensures forall i :: 0 <= i < k ==> Chars(Suffix(n))[i] != 0
    ensures forall i :: k <= i < LENGTH ==> Chars(Suffix(n))[i] == 0
  {
    var a := SuffixParts(n);
    k := |a|;
  }
}
