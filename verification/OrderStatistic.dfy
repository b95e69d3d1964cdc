/**
  * The last irreversible block number that delegated proof of stake derives from the numbers the
  * producers imply: the value one third into the sorted list.
  */
module OrderStatistic {
  import opened ChainTypes

  // ---------------------------------------------------------------------------
  // What the number means: the greatest one that two thirds of the producers reach
  // ---------------------------------------------------------------------------

  ghost function Backers(implied: map<AccountName, nat>, v: nat): set<AccountName> {
    set p | p in implied && implied[p] >= v
  }

  ghost function Backing(implied: map<AccountName, nat>, v: nat): nat {
    |Backers(implied, v)|
  }

  /** How many of n producers must reach the irreversible number. */
  function Supermajority(n: nat): int { n - (n - 1) / 3 }

  ghost predicate IsLastIrreversible(implied: map<AccountName, nat>, v: nat) {
    Backing(implied, v) >= Supermajority(|implied|) > Backing(implied, v + 1)
  }

  lemma BackingAntitone(implied: map<AccountName, nat>, v: nat, w: nat)
    requires v <= w
    ensures Backing(implied, w) <= Backing(implied, v)
  {
    SubsetSize(Backers(implied, w), Backers(implied, v));
  }

  lemma {:induction false} SubsetSize<T>(a: set<T>, b: set<T>)
    requires a <= b
    ensures |a| <= |b|
    decreases a
  {
    if x :| x in a {
      SubsetSize(a - {x}, b - {x});
    }
  }

  lemma BackingAll(implied: map<AccountName, nat>)
    ensures Backing(implied, 0) == |implied|
  {
    assert Backers(implied, 0) == implied.Keys;
  }

  lemma BackingNone(implied: map<AccountName, nat>, bound: nat)
    requires forall p :: p in implied ==> implied[p] < bound
    ensures Backing(implied, bound) == 0
  {
    assert Backers(implied, bound) == {};
  }

  lemma {:induction false} BoundExists(implied: map<AccountName, nat>, keys: set<AccountName>) returns (bound: nat)
    requires keys <= implied.Keys
    ensures forall p :: p in keys ==> implied[p] < bound
    decreases keys
  {
    bound := 0;
    if x :| x in keys {
      bound := BoundExists(implied, keys - {x});
      if bound <= implied[x] {
        bound := implied[x] + 1;
      }
    }
  }

  lemma {:induction false} LastIrreversibleBelow(implied: map<AccountName, nat>, bound: nat) returns (v: nat)
    requires implied != map[]
    requires Backing(implied, bound) < Supermajority(|implied|)
    ensures v < bound && IsLastIrreversible(implied, v)
    decreases bound
  {
    BackingAll(implied);
    assert bound > 0;
    if Backing(implied, bound - 1) >= Supermajority(|implied|) {
      v := bound - 1;
    } else {
      v := LastIrreversibleBelow(implied, bound - 1);
    }
  }

  lemma LastIrreversibleExists(implied: map<AccountName, nat>)
    requires implied != map[]
    ensures exists v: nat :: IsLastIrreversible(implied, v)
  {
    var bound := BoundExists(implied, implied.Keys);
    BackingNone(implied, bound);
    var v := LastIrreversibleBelow(implied, bound);
  }

  lemma LastIrreversibleUnique(implied: map<AccountName, nat>, v: nat, w: nat)
    requires IsLastIrreversible(implied, v) && IsLastIrreversible(implied, w)
    ensures v == w
  {
    if v < w {
      BackingAntitone(implied, v + 1, w);
    } else if w < v {
      BackingAntitone(implied, w + 1, v);
    }
  }

  ghost function LastIrreversible(implied: map<AccountName, nat>): nat {
    if implied == map[] then 0
    else
      LastIrreversibleExists(implied);
      var v: nat :| IsLastIrreversible(implied, v);
      v
  }

  lemma LastIrreversibleIs(implied: map<AccountName, nat>, v: nat)
    requires implied != map[] && IsLastIrreversible(implied, v)
    ensures LastIrreversible(implied) == v
  {
    LastIrreversibleUnique(implied, v, LastIrreversible(implied));
  }

  /** The number reaches a level exactly when two thirds of the producers do. */
  lemma ReachesIffBacked(implied: map<AccountName, nat>, level: nat)
    requires implied != map[]
    ensures LastIrreversible(implied) >= level <==> Backing(implied, level) >= Supermajority(|implied|)
  {
    LastIrreversibleExists(implied);
    var v := LastIrreversible(implied);
    if v >= level {
      BackingAntitone(implied, level, v);
    } else {
      BackingAntitone(implied, v + 1, level);
    }
  }

  /** The number is one that some producer implied. */
  lemma LastIrreversibleIsImplied(implied: map<AccountName, nat>)
    requires implied != map[]
    ensures exists p :: p in implied && implied[p] == LastIrreversible(implied)
  {
    LastIrreversibleExists(implied);
    var v := LastIrreversible(implied);
    var at, above := Backers(implied, v), Backers(implied, v + 1);
    if at <= above {
      SubsetSize(at, above);
      assert false;
    }
    var p :| p in at && p !in above;
  }

  // ---------------------------------------------------------------------------
  // How it is computed: collect, sort, index
  // ---------------------------------------------------------------------------

  function CountAtLeast(s: seq<nat>, v: nat): nat {
    if s == [] then 0 else (if s[0] >= v then 1 else 0) + CountAtLeast(s[1..], v)
  }

  ghost predicate Sorted(s: seq<nat>) {
    forall i, j :: 0 <= i < j < |s| ==> s[i] <= s[j]
  }

  lemma {:induction false} CountConcat(s: seq<nat>, t: seq<nat>, v: nat)
    ensures CountAtLeast(s + t, v) == CountAtLeast(s, v) + CountAtLeast(t, v)
    decreases |s|
  {
    if s == [] {
      assert s + t == t;
    } else {
      assert (s + t)[1..] == s[1..] + t;
      CountConcat(s[1..], t, v);
    }
  }

  lemma {:induction false} CountBounds(s: seq<nat>, v: nat)
    ensures CountAtLeast(s, v) <= |s|
    ensures (forall i :: 0 <= i < |s| ==> s[i] >= v) ==> CountAtLeast(s, v) == |s|
    ensures (forall i :: 0 <= i < |s| ==> s[i] < v) ==> CountAtLeast(s, v) == 0
    decreases |s|
  {
    if s != [] {
      CountBounds(s[1..], v);
    }
  }

  lemma CountSplit(s: seq<nat>, k: nat, v: nat)
    requires k <= |s|
    ensures CountAtLeast(s, v) == CountAtLeast(s[..k], v) + CountAtLeast(s[k..], v)
  {
    assert s == s[..k] + s[k..];
    CountConcat(s[..k], s[k..], v);
  }

  lemma CountAppend(s: seq<nat>, x: nat, v: nat)
    ensures CountAtLeast(s + [x], v) == CountAtLeast(s, v) + (if x >= v then 1 else 0)
  {
    CountConcat(s, [x], v);
    assert [x][1..] == [];
  }

  lemma CountInsert(s: seq<nat>, k: nat, x: nat, v: nat)
    requires k <= |s|
    ensures CountAtLeast(s[..k] + [x] + s[k..], v) == CountAtLeast(s, v) + (if x >= v then 1 else 0)
  {
    CountSplit(s, k, v);
    CountAppend(s[..k], x, v);
    CountConcat(s[..k] + [x], s[k..], v);
  }

  lemma CountReaches(s: seq<nat>, k: nat, v: nat)
    requires k <= |s| && forall i :: k <= i < |s| ==> s[i] >= v
    ensures CountAtLeast(s, v) >= |s| - k
  {
    CountSplit(s, k, v);
    CountBounds(s[k..], v);
  }

  lemma CountMisses(s: seq<nat>, k: nat, v: nat)
    requires k <= |s| && forall i :: 0 <= i < k ==> s[i] < v
    ensures CountAtLeast(s, v) <= |s| - k
  {
    CountSplit(s, k, v);
    CountBounds(s[..k], v);
    CountBounds(s[k..], v);
  }

  method Insert(s: seq<nat>, x: nat) returns (r: seq<nat>)
    requires Sorted(s)
    ensures Sorted(r) && |r| == |s| + 1
    ensures forall v: nat :: CountAtLeast(r, v) == CountAtLeast(s, v) + (if x >= v then 1 else 0)
  {
    var i := |s|;
    while i > 0 && s[i - 1] > x
      invariant 0 <= i <= |s|
      invariant forall j :: i <= j < |s| ==> s[j] > x
    {
      i := i - 1;
    }
    r := s[..i] + [x] + s[i..];
    forall v: nat {
      CountInsert(s, i, x, v);
    }
  }

  method Sort(s: seq<nat>) returns (r: seq<nat>)
    ensures Sorted(r) && |r| == |s|
    ensures forall v: nat :: CountAtLeast(r, v) == CountAtLeast(s, v)
  {
    r := [];
    for i := 0 to |s|
      invariant Sorted(r) && |r| == i
      invariant forall v: nat :: CountAtLeast(r, v) == CountAtLeast(s[..i], v)
    {
      r := Insert(r, s[i]);
      forall v: nat ensures CountAtLeast(r, v) == CountAtLeast(s[..i + 1], v) {
        assert s[..i + 1] == s[..i] + [s[i]];
        CountAppend(s[..i], s[i], v);
      }
    }
    assert s[..|s|] == s;
  }

  ghost function Reaching(implied: map<AccountName, nat>, keys: set<AccountName>, v: nat): set<AccountName> {
    set p | p in keys && p in implied && implied[p] >= v
  }

  lemma ReachingAdd(implied: map<AccountName, nat>, keys: set<AccountName>, p: AccountName, v: nat)
    requires p in implied && p !in keys
    ensures |Reaching(implied, keys + {p}, v)| == |Reaching(implied, keys, v)| + (if implied[p] >= v then 1 else 0)
  {
    var before := Reaching(implied, keys, v);
    assert Reaching(implied, keys + {p}, v) == if implied[p] >= v then before + {p} else before;
  }

  /** The numbers of all producers, in any order. */
  method Collect(implied: map<AccountName, nat>) returns (numbers: seq<nat>)
    ensures |numbers| == |implied|
    ensures forall v: nat :: CountAtLeast(numbers, v) == Backing(implied, v)
  {
    numbers := [];
    var left := implied.Keys;
    ghost var done: set<AccountName> := {};
    while left != {}
      invariant left !! done && left + done == implied.Keys
      invariant |numbers| == |done|
      invariant forall v: nat :: CountAtLeast(numbers, v) == |Reaching(implied, done, v)|
      decreases left
    {
      var p :| p in left;
      forall v: nat
        ensures CountAtLeast(numbers + [implied[p]], v) == |Reaching(implied, done + {p}, v)|
      {
        CountAppend(numbers, implied[p], v);
        ReachingAdd(implied, done, p, v);
      }
      numbers := numbers + [implied[p]];
      left, done := left - {p}, done + {p};
    }
    assert done == implied.Keys;
    forall v: nat ensures CountAtLeast(numbers, v) == Backing(implied, v) {
      assert Reaching(implied, done, v) == Backers(implied, v);
    }
  }

  method CalcLastIrreversible(implied: map<AccountName, nat>) returns (number: nat)
    ensures number == LastIrreversible(implied)
  {
    var numbers := Collect(implied);
    if |numbers| == 0 {
      assert implied == map[];
      return 0;
    }
    numbers := Sort(numbers);
    var k := (|numbers| - 1) / 3;
    number := numbers[k];
    CountReaches(numbers, k, number);
    CountMisses(numbers, k + 1, number + 1);
    LastIrreversibleIs(implied, number);
  }
}
