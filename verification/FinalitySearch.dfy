/** The breadth-first search that spreads a new irreversible number over all forks. */
module FinalitySearch {
  import opened ChainTypes
  import opened BlockHeader
  import opened BlockTree

  /** What the search is to produce: the blocks built on root, lifted to its number. */
  ghost function Lifted(m: BlockMap, root: BlockId, d: BlockId): HeaderState
    requires Linked(m) && root in m && d in m
  {
    if DescendsFrom(m, d, root) then m[d].(bftIrreversible := Max(m[d].bftIrreversible, m[root].blockNum)) else m[d]
  }

  /** So far only descendants were lifted, and to the right number. */
  ghost predicate PartlyLifted(m0: BlockMap, m: BlockMap, root: BlockId)
    requires Linked(m0) && root in m0
  {
    && m.Keys == m0.Keys
    && (forall d {:trigger m[d]} :: d in m0 ==> m[d] == m0[d] || m[d] == Lifted(m0, root, d))
    && m[root] == Lifted(m0, root, root)
  }

  /** A descendant still to be lifted, under a parent that has been. */
  ghost predicate Waiting(m0: BlockMap, m: BlockMap, root: BlockId, d: BlockId)
    requires Linked(m0) && root in m0 && m.Keys == m0.Keys
  {
    && d in m0 && d != root && DescendsFrom(m0, d, root) && m0[d].previous in m0
    && m[d].bftIrreversible < m0[root].blockNum
    && m[m0[d].previous].bftIrreversible >= m0[root].blockNum
  }

  /** The parent of every waiting block is queued, or the block is about to be visited. */
  ghost predicate Frontier(m0: BlockMap, m: BlockMap, root: BlockId, queued: set<BlockId>, visiting: set<BlockId>)
    requires Linked(m0) && root in m0 && m.Keys == m0.Keys
  {
    forall d {:trigger Waiting(m0, m, root, d)} :: Waiting(m0, m, root, d) ==>
      m0[d].previous in queued || d in visiting
  }

  ghost function Unlifted(m: BlockMap, n: nat): set<BlockId> {
    set d | d in m && m[d].bftIrreversible < n
  }

  function Children(m: BlockMap, i: BlockId): set<BlockId> {
    set d | d in m && m[d].previous == i
  }

  ghost function Elements(s: seq<BlockId>): set<BlockId> {
    set i | 0 <= i < |s| :: s[i]
  }

  lemma ElementsSnoc(s: seq<BlockId>, x: BlockId)
    ensures Elements(s + [x]) == Elements(s) + {x}
  {
    assert (s + [x])[|s|] == x;
    forall y | y in Elements(s) ensures y in Elements(s + [x]) {
      var i :| 0 <= i < |s| && s[i] == y;
      assert (s + [x])[i] == y;
    }
  }

  ghost predicate AllDescend(m0: BlockMap, root: BlockId, s: seq<BlockId>)
    requires Linked(m0)
  {
    forall k :: 0 <= k < |s| ==> DescendsFrom(m0, s[k], root)
  }

  /** How far a part of the search got: what it queued it lifted. */
  ghost predicate Progress(n: nat, m: BlockMap, updated: seq<BlockId>, m': BlockMap, updated': seq<BlockId>) {
    && Unlifted(m', n) <= Unlifted(m, n)
    && updated <= updated'
    && (updated' != updated ==> Unlifted(m', n) != Unlifted(m, n))
  }

  lemma ProgressAdds(n: nat, m: BlockMap, u: seq<BlockId>, m1: BlockMap, u1: seq<BlockId>, m2: BlockMap, u2: seq<BlockId>)
    requires Progress(n, m, u, m1, u1) && Progress(n, m1, u1, m2, u2)
    ensures Progress(n, m, u, m2, u2)
  {
  }

  /** Lifting c moves the frontier to its children. */
  lemma FrontierLift(m0: BlockMap, m: BlockMap, root: BlockId, c: BlockId, m': BlockMap,
                     queued: set<BlockId>, visiting: set<BlockId>)
    requires Linked(m0) && root in m0 && PartlyLifted(m0, m, root) && c in m0
    requires m' == m[c := m[c].(bftIrreversible := m0[root].blockNum)]
    requires Frontier(m0, m, root, queued, visiting)
    ensures Frontier(m0, m', root, queued + {c}, visiting - {c})
  {
    forall d | Waiting(m0, m', root, d) ensures m0[d].previous in queued + {c} || d in visiting - {c} {
      assert d != c;
      assert m0[d].previous == c || Waiting(m0, m, root, d);
    }
  }

  lemma FrontierSkip(m0: BlockMap, m: BlockMap, root: BlockId, c: BlockId, queued: set<BlockId>, visiting: set<BlockId>)
    requires Linked(m0) && root in m0 && m.Keys == m0.Keys && c in m0
    requires m[c].bftIrreversible >= m0[root].blockNum
    requires Frontier(m0, m, root, queued, visiting)
    ensures Frontier(m0, m, root, queued, visiting - {c})
  {
  }

  /** Visit one block: lift it and queue it when its number is lower. */
  method Visit(ghost m0: BlockMap, m: BlockMap, ghost root: BlockId, n: nat, c: BlockId, updated: seq<BlockId>,
               ghost queued: set<BlockId>, ghost visiting: set<BlockId>)
    returns (m': BlockMap, updated': seq<BlockId>)
    requires Linked(m0) && root in m0 && n == m0[root].blockNum
    requires PartlyLifted(m0, m, root) && c in m0 && DescendsFrom(m0, c, root)
    requires Frontier(m0, m, root, queued + Elements(updated), visiting)
    ensures PartlyLifted(m0, m', root)
    ensures Frontier(m0, m', root, queued + Elements(updated'), visiting - {c})
    ensures AllDescend(m0, root, updated) ==> AllDescend(m0, root, updated')
    ensures Progress(n, m, updated, m', updated')
  {
    if m[c].bftIrreversible < n {
      m' := m[c := m[c].(bftIrreversible := n)];
      updated' := updated + [c];
      ElementsSnoc(updated, c);
      FrontierLift(m0, m, root, c, m', queued + Elements(updated), visiting);
      assert queued + Elements(updated) + {c} == queued + Elements(updated');
      assert m'[c] == Lifted(m0, root, c);
      assert c in Unlifted(m, n) && c !in Unlifted(m', n);
    } else {
      m', updated' := m, updated;
      FrontierSkip(m0, m, root, c, queued + Elements(updated), visiting);
    }
  }

  lemma FrontierOpens(m0: BlockMap, m: BlockMap, root: BlockId, queued: set<BlockId>, i: BlockId, children: set<BlockId>)
    requires Linked(m0) && root in m0 && PartlyLifted(m0, m, root) && DescendsFrom(m0, i, root)
    requires Frontier(m0, m, root, queued + {i}, {}) && children == Children(m, i)
    ensures Frontier(m0, m, root, queued, children)
    ensures forall c :: c in children ==> c in m0 && DescendsFrom(m0, c, root)
  {
    forall c | c in children ensures c in m0 && DescendsFrom(m0, c, root) {
      assert m[c].previous == m0[c].previous;
    }
    forall d | Waiting(m0, m, root, d) ensures m0[d].previous in queued || d in children {
      assert m[d].previous == m0[d].previous;
    }
  }

  /** Visit every block built directly on i. */
  method VisitChildren(ghost m0: BlockMap, m: BlockMap, ghost root: BlockId, n: nat, i: BlockId,
                       updated: seq<BlockId>, ghost queued: set<BlockId>)
    returns (m': BlockMap, updated': seq<BlockId>)
    requires Linked(m0) && root in m0 && n == m0[root].blockNum
    requires PartlyLifted(m0, m, root) && DescendsFrom(m0, i, root)
    requires Frontier(m0, m, root, queued + Elements(updated) + {i}, {})
    requires AllDescend(m0, root, updated)
    ensures PartlyLifted(m0, m', root)
    ensures Frontier(m0, m', root, queued + Elements(updated'), {})
    ensures AllDescend(m0, root, updated')
    ensures Progress(n, m, updated, m', updated')
  {
    m', updated' := m, updated;
    var left := Children(m, i);
    FrontierOpens(m0, m, root, queued + Elements(updated), i, left);
    while left != {}
      invariant forall c :: c in left ==> c in m0 && DescendsFrom(m0, c, root)
      invariant PartlyLifted(m0, m', root)
      invariant Frontier(m0, m', root, queued + Elements(updated'), left)
      invariant AllDescend(m0, root, updated')
      invariant Progress(n, m, updated, m', updated')
      decreases left
    {
      var c :| c in left;
      ghost var m1, u1 := m', updated';
      m', updated' := Visit(m0, m', root, n, c, updated', queued, left);
      ProgressAdds(n, m, updated, m1, u1, m', updated');
      left := left - {c};
    }
  }

  lemma ElementsHead(s: seq<BlockId>)
    requires s != []
    ensures Elements(s) == Elements(s[1..]) + {s[0]}
  {
    forall y | y in Elements(s) ensures y in Elements(s[1..]) + {s[0]} {
      var i :| 0 <= i < |s| && s[i] == y;
      assert i > 0 ==> s[1..][i - 1] == y;
    }
    forall y | y in Elements(s[1..]) ensures y in Elements(s) {
      var i :| 0 <= i < |s[1..]| && s[1..][i] == y;
      assert s[i + 1] == y;
    }
  }

  lemma LayerStep(layer: seq<BlockId>, k: nat, u: set<BlockId>)
    requires k < |layer|
    ensures Elements(layer[k..]) + u == Elements(layer[k + 1..]) + u + {layer[k]}
  {
    ElementsHead(layer[k..]);
    assert layer[k..][1..] == layer[k + 1..];
  }

  /** Visit one layer of the search and return the next. */
  method VisitLayer(ghost m0: BlockMap, m: BlockMap, ghost root: BlockId, n: nat, layer: seq<BlockId>)
    returns (m': BlockMap, updated: seq<BlockId>)
    requires Linked(m0) && root in m0 && n == m0[root].blockNum
    requires PartlyLifted(m0, m, root)
    requires Frontier(m0, m, root, Elements(layer), {})
    requires AllDescend(m0, root, layer)
    ensures PartlyLifted(m0, m', root)
    ensures Frontier(m0, m', root, Elements(updated), {})
    ensures AllDescend(m0, root, updated)
    ensures Progress(n, m, [], m', updated)
  {
    m', updated := m, [];
    for k := 0 to |layer|
      invariant PartlyLifted(m0, m', root)
      invariant Frontier(m0, m', root, Elements(layer[k..]) + Elements(updated), {})
      invariant AllDescend(m0, root, updated)
      invariant Progress(n, m, [], m', updated)
    {
      LayerStep(layer, k, Elements(updated));
      ghost var m1, u1 := m', updated;
      m', updated := VisitChildren(m0, m', root, n, layer[k], updated, Elements(layer[k + 1..]));
      ProgressAdds(n, m, [], m1, u1, m', updated);
    }
    assert Elements(layer[|layer|..]) + Elements(updated) == Elements(updated);
  }

  /** With nothing queued every descendant has been lifted. */
  lemma {:induction false} AllLifted(m0: BlockMap, m: BlockMap, root: BlockId, d: BlockId)
    requires Linked(m0) && root in m0 && d in m0
    requires PartlyLifted(m0, m, root) && Frontier(m0, m, root, {}, {})
    ensures m[d] == Lifted(m0, root, d)
    ensures DescendsFrom(m0, d, root) ==> m[d].bftIrreversible >= m0[root].blockNum
    decreases Rank(m0, d)
  {
    if d != root && DescendsFrom(m0, d, root) {
      DescendantIsLater(m0, d, root);
      AllLifted(m0, m, root, m0[d].previous);
      assert !Waiting(m0, m, root, d);
    }
  }

  /** A block's number is never below its parent's. */
  ghost predicate Monotone(m: BlockMap) {
    forall d {:trigger m[d].previous} :: d in m && m[d].previous in m ==>
      m[m[d].previous].bftIrreversible <= m[d].bftIrreversible
  }

  lemma FrontierStarts(m0: BlockMap, m: BlockMap, root: BlockId)
    requires Linked(m0) && root in m0 && Monotone(m0)
    requires m == m0[root := m0[root].(bftIrreversible := m0[root].blockNum)]
    ensures Frontier(m0, m, root, {root}, {})
  {
    forall d | Waiting(m0, m, root, d) ensures m0[d].previous == root {
    }
  }

  /** The whole search: layer by layer from the root. */
  method LiftDescendants(m0: BlockMap, root: BlockId) returns (m: BlockMap)
    requires Linked(m0) && Monotone(m0)
    requires root in m0 && m0[root].bftIrreversible <= m0[root].blockNum
    ensures m.Keys == m0.Keys
    ensures forall d :: d in m0 ==> m[d] == Lifted(m0, root, d)
  {
    var n := m0[root].blockNum;
    m := m0[root := m0[root].(bftIrreversible := n)];
    var queue := [root];
    assert Elements(queue) == {root} by { assert queue[0] == root; }
    assert Frontier(m0, m, root, {root}, {}) by { FrontierStarts(m0, m, root); }
    while queue != []
      invariant PartlyLifted(m0, m, root)
      invariant Frontier(m0, m, root, Elements(queue), {})
      invariant AllDescend(m0, root, queue)
      decreases Unlifted(m, n), |queue|
    {
      m, queue := VisitLayer(m0, m, root, n, queue);
    }
    forall d | d in m0 ensures m[d] == Lifted(m0, root, d) {
      AllLifted(m0, m, root, d);
    }
  }
}
