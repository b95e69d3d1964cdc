/** Why two thirds and one: conflicting blocks never both become irreversible while at most a third equivocates. */
module BftSafety {
  import opened ChainTypes
  import opened BlockHeader
  import opened BlockTree
  import opened OrderStatistic

  ghost function ConfirmerSet(b: HeaderState): set<AccountName> {
    set i | 0 <= i < |b.confirmations| :: b.confirmations[i].producer
  }

  /** The schedule gives the producer this key; of several entries for a name the first one counts. */
  ghost predicate HoldsKey(producers: seq<ProducerKey>, p: AccountName, key: PublicKey) {
    exists i :: 0 <= i < |producers| && producers[i] == ProducerKey(p, key)
                && forall j :: 0 <= j < i ==> producers[j].producerName != p
  }

  /** Each scheduled producer confirmed at most once, signed with its own key, and nobody else did. */
  ghost predicate ConfirmationsValid(b: HeaderState) {
    && (forall i :: 0 <= i < |b.confirmations| ==>
          && b.confirmations[i].producer in b.active.Names()
          && HoldsKey(b.active.producers, b.confirmations[i].producer, b.confirmations[i].signer))
    && (forall i, j :: 0 <= i < j < |b.confirmations| ==>
          b.confirmations[i].producer != b.confirmations[j].producer)
  }

  ghost function Prefix(s: seq<Confirmation>, k: nat): set<AccountName>
    requires k <= |s|
  {
    set i | 0 <= i < k :: s[i].producer
  }

  lemma {:induction false} DistinctCount(s: seq<Confirmation>, k: nat)
    requires k <= |s|
    requires forall i, j :: 0 <= i < j < k ==> s[i].producer != s[j].producer
    ensures |Prefix(s, k)| == k
  {
    if k > 0 {
      DistinctCount(s, k - 1);
      assert Prefix(s, k) == Prefix(s, k - 1) + {s[k - 1].producer};
    }
  }

  lemma ConfirmerCount(b: HeaderState)
    requires ConfirmationsValid(b)
    ensures |ConfirmerSet(b)| == |b.confirmations| && ConfirmerSet(b) <= b.active.Names()
  {
    DistinctCount(b.confirmations, |b.confirmations|);
    assert ConfirmerSet(b) == Prefix(b.confirmations, |b.confirmations|);
  }

  ghost function PrefixNames(s: seq<ProducerKey>, k: nat): set<AccountName>
    requires k <= |s|
  {
    set i | 0 <= i < k :: s[i].producerName
  }

  lemma {:induction false} NamesCount(s: seq<ProducerKey>, k: nat)
    requires k <= |s|
    ensures |PrefixNames(s, k)| <= k
  {
    if k > 0 {
      NamesCount(s, k - 1);
      assert PrefixNames(s, k) == PrefixNames(s, k - 1) + {s[k - 1].producerName};
    }
  }

  lemma OverlapSize<T>(a: set<T>, b: set<T>, all: set<T>)
    requires a <= all && b <= all
    ensures |a * b| >= |a| + |b| - |all|
  {
    assert |a + b| + |a * b| == |a| + |b|;
    SubsetSize(a + b, all);
  }

  /** Two quorums of one schedule have more than a third of it in common. */
  lemma QuorumsOverlap(x: HeaderState, y: HeaderState)
    requires ConfirmationsValid(x) && ConfirmationsValid(y)
    requires QuorumConfirmed(x) && QuorumConfirmed(y) && x.active.producers == y.active.producers
    ensures 3 * |ConfirmerSet(x) * ConfirmerSet(y)| > |x.active.producers|
  {
    ConfirmerCount(x);
    ConfirmerCount(y);
    var n := |x.active.producers|;
    NamesCount(x.active.producers, n);
    assert x.active.Names() == PrefixNames(x.active.producers, n) == y.active.Names();
    OverlapSize(ConfirmerSet(x), ConfirmerSet(y), x.active.Names());
  }

  ghost predicate Conflict(m: BlockMap, x: BlockId, y: BlockId)
    requires Linked(m)
  {
    !DescendsFrom(m, x, y) && !DescendsFrom(m, y, x)
  }

  /** The producers that confirmed two conflicting blocks. */
  ghost function Equivocators(m: BlockMap, names: set<AccountName>): set<AccountName>
    requires Linked(m)
  {
    set p | p in names && exists x, y ::
      x in m && y in m && Conflict(m, x, y) && p in ConfirmerSet(m[x]) && p in ConfirmerSet(m[y])
  }

  lemma ConflictInherited(m: BlockMap, a: BlockId, b: BlockId, x: BlockId, y: BlockId)
    requires Linked(m) && Conflict(m, a, b) && DescendsFrom(m, x, a) && DescendsFrom(m, y, b)
    ensures Conflict(m, x, y)
  {
    if DescendsFrom(m, x, y) {
      DescentTransitive(m, x, y, b);
      AncestorsComparable(m, x, a, b);
    }
    if DescendsFrom(m, y, x) {
      DescentTransitive(m, y, x, a);
      AncestorsComparable(m, y, a, b);
    }
  }

  /** With at most (n - 1) / 3 equivocating producers, blocks made irreversible by quorums of the same
      producers further up any two forks never conflict. */
  lemma NoConflictingFinality(m: BlockMap, producers: seq<ProducerKey>, a: BlockId, b: BlockId, x: BlockId, y: BlockId)
    requires Linked(m) && x in m && y in m && ConfirmationsValid(m[x]) && ConfirmationsValid(m[y])
    requires m[x].active.producers == m[y].active.producers == producers
    requires QuorumConfirmed(m[x]) && QuorumConfirmed(m[y])
    requires 3 * |Equivocators(m, PrefixNames(producers, |producers|))| <= |producers| - 1
    requires DescendsFrom(m, x, a) && DescendsFrom(m, y, b)
    ensures !Conflict(m, a, b)
  {
    if Conflict(m, a, b) {
      ConflictInherited(m, a, b, x, y);
      var both := ConfirmerSet(m[x]) * ConfirmerSet(m[y]);
      QuorumsOverlap(m[x], m[y]);
      ConfirmerCount(m[x]);
      assert m[x].active.Names() == PrefixNames(producers, |producers|);
      SubsetSize(both, Equivocators(m, PrefixNames(producers, |producers|)));
    }
  }
}
