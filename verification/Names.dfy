/**
  * Account names: up to thirteen characters of the alphabet ".12345a-z" packed into one
  * 64-bit word, five bits a character from the high end and four bits for the thirteenth.
  * Packing, printing and the suffix after the last dot are modelled with the source's own
  * shifts and masks, and proved against sequences of characters.
  */
module Names {
  import opened Numerals
  import opened Sequences
  import opened Words
  import opened Wrappers

  const LENGTH: nat := 13

  // ------------------------------------------------------------ packed names

  /** The character sequences that fit in a word. */
  predicate Fits(s: seq<nat>) {
    |s| == LENGTH && Digits(s) && s[12] < 16
  }

  function Pack(s: seq<nat>): nat
    requires |s| == LENGTH
  {
    16 * Value(s[..12]) + s[12]
  }

  function Chars(n: nat): (s: seq<nat>)
    ensures Fits(s)
  {
    Expand(n / 16, 12) + [n % 16]
  }

  lemma HighBits()
    ensures Pow2(WIDTH) == 16 * Pow2(60)
  {
    Pow2Add(4, 60);
    assert Pow2(4) == 16;
  }

  lemma PackIsWord(s: seq<nat>)
    requires Fits(s)
    ensures IsWord(Pack(s))
  {
    HighBits();
    ValueBound(s[..12]);
  }

  lemma CharsPack(s: seq<nat>)
    requires Fits(s)
    ensures Chars(Pack(s)) == s
  {
    ExpandValue(s[..12]);
    assert Pack(s) / 16 == Value(s[..12]) && Pack(s) % 16 == s[12];
    assert s == s[..12] + [s[12]];
  }

  lemma PackChars(n: nat)
    requires IsWord(n)
    ensures Pack(Chars(n)) == n
  {
    HighBits();
    ValueExpand(n / 16, 12);
    assert Chars(n)[..12] == Expand(n / 16, 12);
  }

  // ------------------------------------------------------------- characters

  const CHARMAP: string := ".12345abcdefghijklmnopqrstuvwxyz"

  function SymbolOf(c: char): (k: nat)
    ensures k < 32
  {
    if 'a' <= c <= 'z' then c as int - 'a' as int + 6
    else if '1' <= c <= '5' then c as int - '1' as int + 1
    else 0
  }

  predicate Legal(c: char) {
    c == '.' || '1' <= c <= '5' || 'a' <= c <= 'z'
  }

  function Letter(k: nat): char
    requires k < 32
  {
    if k == 0 then '.' else if k < 6 then ('1' as int + k - 1) as char else ('a' as int + k - 6) as char
  }

  lemma CharmapIs(k: nat)
    requires k < 32
    ensures CHARMAP[k] == Letter(k)
  {
  }

  lemma LetterOfSymbol(c: char)
    ensures Letter(SymbolOf(c)) == c <==> Legal(c)
  {
  }

  lemma SymbolOfLetter(k: nat)
    requires k < 32
    ensures Legal(Letter(k)) && SymbolOf(Letter(k)) == k && (Letter(k) == '.' <==> k == 0)
  {
  }

  lemma SymbolOrder(c: char, d: char)
    requires Legal(c) && Legal(d)
    ensures SymbolOf(c) < SymbolOf(d) <==> c < d
  {
  }

  /** The characters of a packed name as text. */
  function Text(s: seq<nat>): (u: string)
    requires Digits(s)
    ensures |u| == |s|
  {
    seq(|s|, i requires 0 <= i < |s| => Letter(s[i]))
  }

  /** What a string writes into the thirteen places; the last place keeps four bits of its symbol. */
  function Written(u: string): (s: seq<nat>)
    ensures Fits(s)
  {
    seq(LENGTH, i requires 0 <= i < LENGTH =>
      if i >= |u| then 0 else if i < 12 then SymbolOf(u[i]) else SymbolOf(u[i]) % 16)
  }

  function FromText(u: string): nat {
    Pack(Written(u))
  }

  function ToText(n: nat): string {
    TrimRight(Text(Chars(n)), '.')
  }

  /** The strings that are the text of some name. */
  predicate Normal(u: string) {
    && |u| <= LENGTH
    && (forall i :: 0 <= i < |u| ==> Legal(u[i]))
    && (u != [] ==> u[|u| - 1] != '.')
    && (|u| == LENGTH ==> SymbolOf(u[12]) < 16)
  }

  lemma TextDots(s: seq<nat>)
    requires Digits(s)
    ensures forall i :: 0 <= i < |s| ==> (s[i] == 0 <==> Text(s)[i] == '.')
  {
    forall i | 0 <= i < |s|
      ensures s[i] == 0 <==> Text(s)[i] == '.'
    {
      SymbolOfLetter(s[i]);
    }
  }

  lemma ToTextIs(n: nat)
    ensures Normal(ToText(n))
    ensures |TrimRight(Chars(n), 0)| == |ToText(n)|
    ensures forall i :: 0 <= i < |ToText(n)| ==> ToText(n)[i] == Letter(Chars(n)[i])
    ensures forall i :: |ToText(n)| <= i < LENGTH ==> Chars(n)[i] == 0
  {
    var s := Chars(n);
    TextDots(s);
    TrimRightIs(Text(s), '.');
    TrimRightImage(s, 0, Text(s), '.');
    forall i | 0 <= i < LENGTH
      ensures Legal(Text(s)[i]) && SymbolOf(Text(s)[i]) == s[i]
    {
      SymbolOfLetter(s[i]);
    }
  }

  /** Printing a name and reading the text back gives the name. */
  lemma TextRoundTrip(n: nat)
    requires IsWord(n)
    ensures FromText(ToText(n)) == n
  {
    ToTextIs(n);
    var s, u := Chars(n), ToText(n);
    forall i | 0 <= i < LENGTH
      ensures Written(u)[i] == s[i]
    {
      SymbolOfLetter(s[i]);
    }
    PackChars(n);
    assert Written(u) == s;
  }

  /** Reading a string and printing it gives the string back exactly when it is a normal one. */
  lemma NameRoundTrip(u: string)
    ensures ToText(FromText(u)) == u <==> Normal(u)
  {
    var s := Written(u);
    CharsPack(s);
    ToTextIs(FromText(u));
    if Normal(u) {
      forall i | 0 <= i < |u|
        ensures Text(s)[i] == u[i]
      {
        LetterOfSymbol(u[i]);
      }
      TrimRightOf(Text(s), u, '.');
    }
  }

  /** Two normal strings never pack to the same word. */
  lemma FromTextInjective(u: string, v: string)
    requires Normal(u) && Normal(v) && FromText(u) == FromText(v)
    ensures u == v
  {
    NameRoundTrip(u);
    NameRoundTrip(v);
  }

  // ----------------------------------------------------- packing and printing

  lemma JoinArithmetic(v: nat, c: nat, p: nat, q: nat)
    requires q == 32 * p
    ensures v * q + c * p == (32 * v + c) * p
  {
  }

  lemma Pow32Step(k: nat)
    ensures Pow2(5 + k) == 32 * Pow2(k)
  {
    Pow2Add(5, k);
    assert Pow2(5) == 32;
  }

  lemma FiveBits(c: nat)
    requires c < 32
    ensures And(c, 31) == c < Pow2(5)
  {
    assert Pow2(5) == 32;
    AndAll(c, 5);
  }

  lemma CharacterFits(c: nat, k: nat)
    requires c < 32 && 5 + k <= WIDTH
    ensures Shl(And(c, 31), k) == c * Pow2(k) < Pow2(5 + k)
  {
    FiveBits(c);
    ShlFits(c, k, 5);
  }

  lemma JoinStep(v: nat, c: nat, k: nat)
    requires c < 32 && 5 + k <= WIDTH
    ensures Or(v * Pow2(5 + k), Shl(And(c, 31), k)) == (32 * v + c) * Pow2(k)
  {
    CharacterFits(c, k);
    OrIsSum(v, c * Pow2(k), 5 + k);
    Pow32Step(k);
    JoinArithmetic(v, c, Pow2(k), Pow2(5 + k));
  }

  /** The word holding the first i characters. */
  ghost function Prefix(s: seq<nat>, i: nat): nat
    requires i <= 12 <= |s|
  {
    Value(s[..i]) * Pow2(64 - 5 * i)
  }

  /** One turn of the packing loop: the next character lands below those already packed. */
  lemma PrefixStep(s: seq<nat>, i: nat)
    requires i < 12 <= |s| && Digits(s)
    ensures Or(Prefix(s, i), Shl(And(s[i], 31), 64 - 5 * (i + 1))) == Prefix(s, i + 1)
  {
    JoinStep(Value(s[..i]), s[i], 59 - 5 * i);
    assert s[..i + 1][..i] == s[..i];
  }

  lemma PrefixDots(s: seq<nat>, i: nat)
    requires i <= 12 <= |s| && forall k :: i <= k < 12 ==> s[k] == 0
    ensures Prefix(s, i) == 16 * Value(s[..12])
  {
    var k := 12 - i;
    ValueDots(s[..i], k);
    assert s[..i] + Dots(k) == s[..12];
    Pow2Add(4, 5 * k);
    assert Pow2(4) == 16;
    Assoc(16, Value(s[..i]), Pow2(5 * k));
    Assoc(Value(s[..i]), 16, Pow2(5 * k));
  }

  lemma LowPlace(v: nat, c: nat)
    ensures Or(16 * v, And(c, 15)) == 16 * v + c % 16
  {
    assert Pow2(4) == 16;
    AndLow(c, 4);
    LowIsMod(c, 4);
    OrIsSum(v, c % 16, 4);
  }

  method StringToName(u: string) returns (name: nat)
    ensures name == FromText(u)
  {
    name := 0;
    ghost var s := Written(u);
    var i := 0;
    while i < |u| && i < 12
      invariant i <= |u| && i <= 12
      invariant name == Prefix(s, i)
    {
      PrefixStep(s, i);
      name := Or(name, Shl(And(SymbolOf(u[i]), 31), 64 - 5 * (i + 1)));
      i := i + 1;
    }
    PrefixDots(s, i);
    if i == 12 {
      var last := if |u| > 12 then SymbolOf(u[12]) else 0;
      LowPlace(Value(s[..12]), last);
      name := Or(name, And(last, 15));
    }
  }

  lemma LowCharacter(n: nat)
    ensures And(n, 15) == n % 16 && And(n, 31) == n % 32 && Shr(n, 4) == n / 16 && Shr(n, 5) == n / 32
  {
    assert Pow2(4) == 16 && Pow2(5) == 32;
    AndLow(n, 4);
    AndLow(n, 5);
    LowIsMod(n, 4);
    LowIsMod(n, 5);
    ShrIsDiv(n, 4);
    ShrIsDiv(n, 5);
  }

  method NameToString(n: nat) returns (u: string)
    ensures u == ToText(n)
  {
    var str := seq(LENGTH, _ => '.');
    var tmp := n;
    ghost var s := Chars(n);
    var i := 0;
    while i <= 12
      invariant i <= LENGTH && |str| == LENGTH
      invariant if i == 0 then tmp == n else Expand(tmp, LENGTH - i) == s[..LENGTH - i]
      invariant forall k :: LENGTH - i <= k < LENGTH ==> str[k] == Letter(s[k])
    {
      LowCharacter(tmp);
      assert i > 0 ==> s[..LENGTH - i][..12 - i] == s[..12 - i];
      var k := And(tmp, if i == 0 then 15 else 31);
      assert k == s[12 - i];
      CharmapIs(k);
      str := str[12 - i := CHARMAP[k]];
      tmp := Shr(tmp, if i == 0 then 4 else 5);
      i := i + 1;
    }
    assert str == Text(s);
    u := TrimRight(str, '.');
  }

  datatype NameError = TooLong | NotNormalized

  class Name {
    var value: nat

    constructor ()
      ensures value == 0
    {
      value := 0;
    }

    /**
      * Takes the strings that are the text of a name, and no other; a string that is refused for
      * another reason than its length has already overwritten the value.
      */
    method Set(u: string) returns (r: Result<nat, NameError>)
      modifies this
      ensures r.Success? <==> Normal(u)
      ensures r.Success? ==> r.value == value && ToText(value) == u
      ensures r.Failure? ==> r.error == if |u| > LENGTH then TooLong else NotNormalized
      ensures value == if |u| > LENGTH then old(value) else FromText(u)
    {
      if |u| > LENGTH {
        return Failure(TooLong);
      }
      value := StringToName(u);
      var printed := NameToString(value);
      NameRoundTrip(u);
      if printed != u {
        return Failure(NotNormalized);
      }
      return Success(value);
    }
  }
}
