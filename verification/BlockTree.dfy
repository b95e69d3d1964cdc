/** Trees of linked blocks: descent, finality by confirmations, and searches through them. */
module BlockTree {
  import opened ChainTypes
  import opened BlockHeader

  type BlockMap = map<BlockId, HeaderState>

  /** Every block is filed under its id and has the number after its parent's. */
  ghost predicate Linked(m: BlockMap) {
    && (forall d {:trigger m[d].id} :: d in m ==> m[d].id == d)
    && (forall d {:trigger m[d].previous} :: d in m && m[d].previous in m ==>
          m[m[d].previous].blockNum + 1 == m[d].blockNum)
  }

  ghost function Rank(m: BlockMap, d: BlockId): nat {
    if d in m then m[d].blockNum + 1 else 0
  }

  /** Block d is a, or was built on top of it. */
  ghost predicate DescendsFrom(m: BlockMap, d: BlockId, a: BlockId)
    requires Linked(m)
    decreases Rank(m, d)
  {
    d == a || (d in m && DescendsFrom(m, m[d].previous, a))
  }

  lemma {:induction false} DescendantIsLater(m: BlockMap, d: BlockId, a: BlockId)
    requires Linked(m) && d in m && a in m && DescendsFrom(m, d, a)
    ensures m[d].blockNum >= m[a].blockNum
    ensures d != a ==> m[d].blockNum > m[a].blockNum && m[d].previous in m
    decreases Rank(m, d)
  {
    if d != a {
      var p := m[d].previous;
      assert DescendsFrom(m, p, a);
      if p in m {
        DescendantIsLater(m, p, a);
      }
    }
  }

  lemma {:induction false} DescentTransitive(m: BlockMap, d: BlockId, b: BlockId, a: BlockId)
    requires Linked(m) && DescendsFrom(m, d, b) && DescendsFrom(m, b, a)
    ensures DescendsFrom(m, d, a)
    decreases Rank(m, d)
  {
    if d != b && d != a {
      DescentTransitive(m, m[d].previous, b, a);
    }
  }

  /** The blocks below a common descendant lie on one line. */
  lemma {:induction false} AncestorsComparable(m: BlockMap, d: BlockId, a: BlockId, b: BlockId)
    requires Linked(m) && DescendsFrom(m, d, a) && DescendsFrom(m, d, b)
    ensures DescendsFrom(m, a, b) || DescendsFrom(m, b, a)
    decreases Rank(m, d)
  {
    if d != a && d != b {
      AncestorsComparable(m, m[d].previous, a, b);
    }
  }

  /** Two maps with the same blocks, links and numbers. */
  ghost predicate SameTree(m: BlockMap, n: BlockMap) {
    && m.Keys == n.Keys
    && forall d :: d in m ==>
         m[d].id == n[d].id && m[d].previous == n[d].previous && m[d].blockNum == n[d].blockNum
  }

  lemma {:induction false} SameTreeDescent(m: BlockMap, n: BlockMap, d: BlockId, a: BlockId)
    requires Linked(m) && SameTree(m, n)
    ensures Linked(n) && DescendsFrom(n, d, a) == DescendsFrom(m, d, a)
    decreases Rank(m, d)
  {
    assert Linked(n) by {
      forall x | x in n
        ensures n[x].id == x && (n[x].previous in n ==> n[n[x].previous].blockNum + 1 == n[x].blockNum)
      {
        assert x in m;
      }
    }
    if d in m {
      SameTreeDescent(m, n, m[d].previous, a);
    }
  }

  // ---------------------------------------------------------------------------
  // Finality by confirmations
  // ---------------------------------------------------------------------------

  predicate QuorumConfirmed(b: HeaderState) {
    |b.confirmations| >= Quorum(|b.active.producers|)
  }

  /** The number of the latest block, among this one and those it builds on, with a quorum; else 0. */
  ghost function Finalized(m: BlockMap, d: BlockId): nat
    requires Linked(m) && d in m
    decreases Rank(m, d)
  {
    if QuorumConfirmed(m[d]) then m[d].blockNum
    else if m[d].previous in m then Finalized(m, m[d].previous)
    else 0
  }

  lemma {:induction false} FinalizedBound(m: BlockMap, d: BlockId)
    requires Linked(m) && d in m
    ensures Finalized(m, d) <= m[d].blockNum
    decreases Rank(m, d)
  {
    if m[d].previous in m {
      FinalizedBound(m, m[d].previous);
    }
  }

  /** What the finality of a block means. */
  lemma {:induction false} FinalizedIsGreatest(m: BlockMap, d: BlockId, a: BlockId)
    requires Linked(m) && d in m && a in m && DescendsFrom(m, d, a) && QuorumConfirmed(m[a])
    ensures Finalized(m, d) >= m[a].blockNum
    decreases Rank(m, d)
  {
    DescendantIsLater(m, d, a);
    if d != a {
      FinalizedIsGreatest(m, m[d].previous, a);
    }
  }

  lemma {:induction false} FinalizedIsReached(m: BlockMap, d: BlockId) returns (a: BlockId)
    requires Linked(m) && d in m && Finalized(m, d) > 0
    ensures a in m && DescendsFrom(m, d, a) && QuorumConfirmed(m[a]) && m[a].blockNum == Finalized(m, d)
    decreases Rank(m, d)
  {
    if QuorumConfirmed(m[d]) {
      a := d;
    } else {
      a := FinalizedIsReached(m, m[d].previous);
    }
  }

  /** Finality depends on the links and on which blocks have a quorum, and on nothing else. */
  lemma {:induction false} FinalizedDepends(m: BlockMap, n: BlockMap, d: BlockId)
    requires Linked(m) && SameTree(m, n) && d in m
    requires forall x :: x in m ==> QuorumConfirmed(m[x]) == QuorumConfirmed(n[x])
    ensures Linked(n) && Finalized(n, d) == Finalized(m, d)
    decreases Rank(m, d)
  {
    SameTreeDescent(m, n, d, d);
    if m[d].previous in m {
      FinalizedDepends(m, n, m[d].previous);
    }
  }

  /** More confirmations never lower the finality of a block. */
  lemma {:induction false} FinalizedNeverFalls(m: BlockMap, n: BlockMap, d: BlockId)
    requires Linked(m) && SameTree(m, n) && d in m
    requires forall x :: x in m && QuorumConfirmed(m[x]) ==> QuorumConfirmed(n[x])
    ensures Linked(n) && Finalized(n, d) >= Finalized(m, d)
    decreases Rank(m, d)
  {
    SameTreeDescent(m, n, d, d);
    FinalizedBound(m, d);
    if m[d].previous in m {
      FinalizedNeverFalls(m, n, m[d].previous);
    }
  }

  function Max(a: nat, b: nat): nat { if a < b then b else a }

  /** A quorum for block b lifts exactly the blocks built on b, to its number at least. */
  lemma {:induction false} FinalizedAfterQuorum(m: BlockMap, n: BlockMap, b: BlockId, d: BlockId)
    requires Linked(m) && SameTree(m, n) && d in m && b in m
    requires QuorumConfirmed(n[b])
    requires forall x :: x in m && x != b ==> QuorumConfirmed(m[x]) == QuorumConfirmed(n[x])
    ensures Linked(n)
    ensures Finalized(n, d) ==
            if DescendsFrom(m, d, b) then Max(Finalized(m, d), m[b].blockNum) else Finalized(m, d)
    decreases Rank(m, d)
  {
    SameTreeDescent(m, n, d, d);
    FinalizedBound(m, d);
    if d != b {
      if DescendsFrom(m, d, b) {
        DescendantIsLater(m, d, b);
      }
      if m[d].previous in m {
        FinalizedAfterQuorum(m, n, b, m[d].previous);
      }
    }
  }
}
