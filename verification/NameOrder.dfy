/** The numeric order of packed names is the lexicographic order of their text. */
module NameOrder {
  import opened Words
  import opened Numerals
  import opened Names

  /** Lexicographic comparison: at the first difference, or because u is a proper prefix of v. */
  ghost predicate Before(u: string, v: string) {
    exists k :: BeforeAt(u, v, k)
  }

  predicate BeforeAt(u: string, v: string, k: nat) {
    k <= |u| && k < |v| && u[..k] == v[..k] && (k < |u| ==> u[k] < v[k])
  }

  lemma {:induction false} Compare(u: string, v: string, k: nat)
    requires k <= |u| && k <= |v| && u[..k] == v[..k]
    ensures u == v || Before(u, v) || Before(v, u)
    decreases |u| - k
  {
    if k == |u| || k == |v| || u[k] != v[k] {
      assert BeforeAt(u, v, k) || BeforeAt(v, u, k) || u == v;
    } else {
      Compare(u, v, k + 1);
    }
  }

  /** Character sequences compare as the words they are packed into. */
  lemma PackLess(s: seq<nat>, t: seq<nat>, k: nat)
    requires Fits(s) && Fits(t) && k < LENGTH && s[..k] == t[..k] && s[k] < t[k]
    ensures Pack(s) < Pack(t)
  {
    if k < 12 {
      assert s[..12][..k] == s[..k] == t[..k] == t[..12][..k];
      ValueLess(s[..12], t[..12], k);
    }
  }

  lemma WrittenPrefix(u: string, v: string, k: nat)
    requires k <= |u| && k <= |v| && k <= LENGTH && u[..k] == v[..k]
    ensures Written(u)[..k] == Written(v)[..k]
  {
    forall i | 0 <= i < k
      ensures Written(u)[i] == Written(v)[i]
    {
      assert u[..k][i] == v[..k][i];
    }
  }

  /** A longer string wins at its first character that is not a dot. */
  lemma {:induction false} LongerIsGreater(s: seq<nat>, t: seq<nat>, k: nat, last: nat)
    requires Fits(s) && Fits(t) && k <= last < LENGTH && s[..k] == t[..k] && t[last] != 0
    requires forall i :: k <= i < LENGTH ==> s[i] == 0
    ensures Pack(s) < Pack(t)
    decreases last - k
  {
    if t[k] != 0 {
      PackLess(s, t, k);
    } else {
      assert s[..k + 1] == s[..k] + [s[k]] && t[..k + 1] == t[..k] + [t[k]];
      LongerIsGreater(s, t, k + 1, last);
    }
  }

  lemma BeforeIsLess(u: string, v: string, k: nat)
    requires Normal(u) && Normal(v) && BeforeAt(u, v, k)
    ensures FromText(u) < FromText(v)
  {
    var s, t := Written(u), Written(v);
    WrittenPrefix(u, v, k);
    if k < |u| {
      SymbolOrder(u[k], v[k]);
      PackLess(s, t, k);
    } else {
      var last := |v| - 1;
      LetterOfSymbol(v[last]);
      LongerIsGreater(s, t, k, last);
    }
  }

  /** For normal strings, packed words compare exactly as the strings do. */
  lemma TextOrder(u: string, v: string)
    requires Normal(u) && Normal(v)
    ensures FromText(u) < FromText(v) <==> Before(u, v)
  {
    Compare(u, v, 0);
    if Before(u, v) {
      var k :| BeforeAt(u, v, k);
      BeforeIsLess(u, v, k);
    } else if Before(v, u) {
      var k :| BeforeAt(v, u, k);
      BeforeIsLess(v, u, k);
    }
  }

  /** The same order seen from the words. */
  lemma WordOrder(a: nat, b: nat)
    requires IsWord(a) && IsWord(b)
    ensures a < b <==> Before(ToText(a), ToText(b))
  {
    ToTextIs(a);
    ToTextIs(b);
    TextRoundTrip(a);
    TextRoundTrip(b);
    TextOrder(ToText(a), ToText(b));
  }

  function PackAll(words: seq<string>): (ns: seq<nat>)
    ensures |ns| == |words|
  {
    seq(|words|, i requires 0 <= i < |words| => FromText(words[i]))
  }

  /**
    * Sorting strings and packing them gives sorted words, and printing those gives the sorted
    * strings back.
    */
  lemma AlphabeticSort(words: seq<string>)
    requires forall i :: 0 <= i < |words| ==> Normal(words[i])
    ensures (forall i, j :: 0 <= i < j < |words| ==> !Before(words[j], words[i]))
       <==> (forall i, j :: 0 <= i < j < |words| ==> PackAll(words)[i] <= PackAll(words)[j])
    ensures forall i :: 0 <= i < |words| ==> ToText(PackAll(words)[i]) == words[i]
  {
    forall i, j | 0 <= i < |words| && 0 <= j < |words|
      ensures Before(words[j], words[i]) <==> PackAll(words)[j] < PackAll(words)[i]
    {
      TextOrder(words[j], words[i]);
    }
    forall i | 0 <= i < |words|
      ensures ToText(PackAll(words)[i]) == words[i]
    {
      NameRoundTrip(words[i]);
    }
  }
}
