/** What comes before and after the occurrences of one element in a sequence. */
module Sequences {
  function TrimRight<T(==)>(s: seq<T>, x: T): seq<T> {
    if s != [] && s[|s| - 1] == x then TrimRight(s[..|s| - 1], x) else s
  }

  /** What follows the last x, or everything if there is none. */
  function AfterLast<T(==)>(s: seq<T>, x: T): seq<T> {
    if s == [] || s[|s| - 1] == x then [] else AfterLast(s[..|s| - 1], x) + [s[|s| - 1]]
  }

  lemma {:induction false} TrimRightIs<T>(s: seq<T>, x: T)
    ensures TrimRight(s, x) <= s
    ensures forall i :: |TrimRight(s, x)| <= i < |s| ==> s[i] == x
    ensures TrimRight(s, x) == [] || TrimRight(s, x)[|TrimRight(s, x)| - 1] != x
  {
    if s != [] && s[|s| - 1] == x {
      TrimRightIs(s[..|s| - 1], x);
    }
  }

  lemma {:induction false} TrimRightOf<T>(s: seq<T>, t: seq<T>, x: T)
    requires t <= s && (forall i :: |t| <= i < |s| ==> s[i] == x) && (t == [] || t[|t| - 1] != x)
    ensures TrimRight(s, x) == t
  {
    if |t| < |s| {
      TrimRightOf(s[..|s| - 1], t, x);
    }
  }

  lemma {:induction false} AfterLastIs<T>(s: seq<T>, x: T) returns (p: nat)
    ensures p <= |s| && AfterLast(s, x) == s[p..] && x !in s[p..] && (p > 0 ==> s[p - 1] == x)
  {
    p := |s|;
    if s != [] && s[|s| - 1] != x {
      var t := s[..|s| - 1];
      p := AfterLastIs(t, x);
      assert s[p..] == t[p..] + [s[|s| - 1]];
    }
  }

  lemma {:induction false} AfterLastOf<T>(s: seq<T>, p: nat, x: T)
    requires p <= |s| && x !in s[p..] && (p == 0 || s[p - 1] == x)
    ensures AfterLast(s, x) == s[p..]
  {
    if p < |s| {
      var t := s[..|s| - 1];
      assert s[p..] == t[p..] + [s[|s| - 1]];
      AfterLastOf(t, p, x);
    }
  }

  /** Elementwise images that tell x apart keep both ends. */
  lemma {:induction false} TrimRightImage<T, U>(s: seq<T>, x: T, u: seq<U>, y: U)
    requires |s| == |u| && forall i :: 0 <= i < |s| ==> (s[i] == x <==> u[i] == y)
    ensures |TrimRight(s, x)| == |TrimRight(u, y)|
  {
    if s != [] && s[|s| - 1] == x {
      TrimRightImage(s[..|s| - 1], x, u[..|u| - 1], y);
    }
  }
}
