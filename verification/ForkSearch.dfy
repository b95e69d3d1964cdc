/** Walks over the fork tree: cutting off an invalid fork, and splitting two forks at their base. */
module ForkSearch {
  import opened Wrappers
  import opened ChainTypes
  import opened BlockHeader
  import opened BlockTree
  import opened FinalitySearch

  // ---------------------------------------------------------------------------
  // Removing a block and everything built on it
  // ---------------------------------------------------------------------------

  ghost predicate Distinct(s: seq<BlockId>) {
    forall i, j :: 0 <= i < j < |s| ==> s[i] != s[j]
  }

  /** The k-th block of the queue was put there by its parent, one of the first i. */
  ghost predicate Enqueued(m0: BlockMap, queue: seq<BlockId>, i: nat, k: nat)
    requires i <= |queue| && k < |queue|
  {
    queue[k] in m0 && m0[queue[k]].previous in queue[..i]
  }

  /** The removal queue after its first i blocks were processed. */
  ghost predicate RemovalQueue(m0: BlockMap, id: BlockId, queue: seq<BlockId>, i: nat)
    requires Linked(m0)
  {
    && i <= |queue|
    && queue != [] && queue[0] == id
    && Distinct(queue)
    && AllDescend(m0, id, queue)
    && (forall k {:trigger Enqueued(m0, queue, i, k)} :: 0 < k < |queue| ==> Enqueued(m0, queue, i, k))
    && (forall d {:trigger m0[d].previous} :: d in m0 && m0[d].previous in queue[..i] ==> d in queue)
  }

  lemma NotBelowItself(m: BlockMap, id: BlockId, d: BlockId)
    requires Linked(m) && d in m && DescendsFrom(m, m[d].previous, id)
    ensures d != id
  {
    if d == id && m[d].previous in m {
      DescendantIsLater(m, m[d].previous, id);
    }
  }

  /** While the children of queue[i] are appended: those still missing are `left`. */
  ghost predicate Appending(m0: BlockMap, id: BlockId, queue: seq<BlockId>, i: nat, left: set<BlockId>)
    requires Linked(m0)
  {
    && i < |queue|
    && queue != [] && queue[0] == id
    && Distinct(queue)
    && AllDescend(m0, id, queue)
    && (forall k {:trigger Enqueued(m0, queue, i + 1, k)} :: 0 < k < |queue| ==> Enqueued(m0, queue, i + 1, k))
    && (forall d {:trigger m0[d].previous} :: d in m0 && m0[d].previous in queue[..i + 1] ==> d in queue || d in left)
    && (forall c :: c in left ==> c in m0 && m0[c].previous == queue[i] && c !in queue)
  }

  lemma AppendOne(m0: BlockMap, id: BlockId, queue: seq<BlockId>, i: nat, left: set<BlockId>, c: BlockId)
    requires Linked(m0) && Appending(m0, id, queue, i, left) && c in left
    ensures Appending(m0, id, queue + [c], i, left - {c})
  {
    var more := queue + [c];
    assert more[..i + 1] == queue[..i + 1];
    assert DescendsFrom(m0, queue[i], id);
    assert queue[i] in queue[..i + 1] by { assert queue[..i + 1][i] == queue[i]; }
    assert more[|queue|] == c;
    var next := i + 1;
    forall k | 0 < k < |more| ensures Enqueued(m0, more, next, k) {
      assert k < |queue| ==> Enqueued(m0, queue, i + 1, k);
    }
  }

  lemma StartAppending(m0: BlockMap, m: BlockMap, id: BlockId, queue: seq<BlockId>, i: nat)
    requires Linked(m0) && RemovalQueue(m0, id, queue, i) && i < |queue|
    requires m == m0 - Elements(queue[..i + 1])
    ensures Appending(m0, id, queue, i, Children(m, queue[i]))
  {
    var left := Children(m, queue[i]);
    assert queue[..i + 1] == queue[..i] + [queue[i]];
    ElementsSnoc(queue[..i], queue[i]);
    forall c | c in left ensures c !in queue {
      NotBelowItself(m0, id, c);
      forall k | 0 <= k < |queue| ensures queue[k] != c {
        assert k > 0 ==> Enqueued(m0, queue, i, k);
      }
    }
    var next := i + 1;
    forall k | 0 < k < |queue| ensures Enqueued(m0, queue, next, k) {
      assert Enqueued(m0, queue, i, k);
    }
    forall d | d in m0 && m0[d].previous in queue[..i + 1] ensures d in queue || d in left {
      if m0[d].previous == queue[i] && d in Elements(queue[..i + 1]) {
        var k :| 0 <= k < i + 1 && queue[..i + 1][k] == d;
        assert queue[k] == d;
      }
    }
  }

  /** The queue holds exactly the block and what is built on it. */
  lemma {:induction false} QueueComplete(m0: BlockMap, id: BlockId, queue: seq<BlockId>, d: BlockId)
    requires Linked(m0) && RemovalQueue(m0, id, queue, |queue|) && (d == id || d in m0)
    ensures d in queue <==> DescendsFrom(m0, d, id)
    decreases Rank(m0, d)
  {
    assert queue[..|queue|] == queue;
    if d != id && DescendsFrom(m0, d, id) {
      assert DescendsFrom(m0, m0[d].previous, id);
      QueueComplete(m0, id, queue, m0[d].previous);
    }
  }

  ghost function Unqueued(m0: BlockMap, queue: seq<BlockId>): set<BlockId> {
    m0.Keys - Elements(queue)
  }

  /** Append the blocks built directly on queue[i]. */
  method AppendChildren(ghost m0: BlockMap, m: BlockMap, ghost id: BlockId, queue: seq<BlockId>, i: nat)
    returns (queue': seq<BlockId>)
    requires Linked(m0) && RemovalQueue(m0, id, queue, i) && i < |queue|
    requires m == m0 - Elements(queue[..i + 1])
    ensures RemovalQueue(m0, id, queue', i + 1) && queue <= queue'
    ensures queue' == queue || Unqueued(m0, queue') < Unqueued(m0, queue)
  {
    queue' := queue;
    StartAppending(m0, m, id, queue, i);
    var left := Children(m, queue[i]);
    while left != {}
      invariant Appending(m0, id, queue', i, left) && queue <= queue'
      invariant queue' == queue || Unqueued(m0, queue') < Unqueued(m0, queue)
      decreases left
    {
      var c :| c in left;
      AppendOne(m0, id, queue', i, left, c);
      ElementsSnoc(queue', c);
      assert c in Unqueued(m0, queue');
      queue' := queue' + [c];
      left := left - {c};
    }
  }

  ghost function WithoutFork(m0: BlockMap, id: BlockId): BlockMap
    requires Linked(m0)
  {
    map d | d in m0 && !DescendsFrom(m0, d, id) :: m0[d]
  }

  lemma RemovalDone(m0: BlockMap, id: BlockId, queue: seq<BlockId>)
    requires Linked(m0) && RemovalQueue(m0, id, queue, |queue|)
    ensures m0 - Elements(queue) == WithoutFork(m0, id)
  {
    forall d | d in m0 ensures d in Elements(queue) <==> DescendsFrom(m0, d, id) {
      QueueComplete(m0, id, queue, d);
    }
  }

  lemma ErasedOneMore(m0: BlockMap, queue: seq<BlockId>, more: seq<BlockId>, i: nat)
    requires i < |queue| && queue <= more
    ensures m0 - Elements(queue[..i]) - {queue[i]} == m0 - Elements(queue[..i + 1])
    ensures more[..i + 1] == queue[..i + 1]
  {
    assert queue[..i + 1] == queue[..i] + [queue[i]];
    ElementsSnoc(queue[..i], queue[i]);
  }

  /** Cut off a block with all forks built on it, using a growing work list. */
  method RemoveFork(m0: BlockMap, id: BlockId) returns (m: BlockMap)
    requires Linked(m0)
    ensures m == WithoutFork(m0, id)
  {
    m := m0;
    var queue := [id];
    var i := 0;
    assert RemovalQueue(m0, id, queue, 0);
    while i < |queue|
      invariant RemovalQueue(m0, id, queue, i)
      invariant m == m0 - Elements(queue[..i])
      decreases Unqueued(m0, queue), |queue| - i
    {
      ErasedOneMore(m0, queue, queue, i);
      m := m - {queue[i]};
      ghost var before := queue;
      queue := AppendChildren(m0, m, id, queue, i);
      ErasedOneMore(m0, before, queue, i);
      i := i + 1;
    }
    assert queue[..i] == queue;
    RemovalDone(m0, id, queue);
  }

  // ---------------------------------------------------------------------------
  // Splitting two forks at their base
  // ---------------------------------------------------------------------------

  /** A run of blocks, newest first, each built on the next. */
  ghost predicate Branch(m: BlockMap, from: BlockId, ids: seq<BlockId>, to: BlockId) {
    && (forall k :: 0 <= k < |ids| ==> ids[k] in m)
    && (forall k :: 0 <= k < |ids| - 1 ==> m[ids[k]].previous == ids[k + 1])
    && (if ids == [] then from == to else ids[0] == from && m[ids[|ids| - 1]].previous == to)
  }

  /** Blocks of the two forks at one height that are built on the same block. */
  ghost predicate Meet(m: BlockMap, first: BlockId, second: BlockId, a: BlockId, b: BlockId)
    requires Linked(m)
  {
    && a in m && b in m
    && DescendsFrom(m, first, a) && DescendsFrom(m, second, b)
    && m[a].blockNum == m[b].blockNum && m[a].previous == m[b].previous
  }

  /** No block of the branch is on the other fork. */
  ghost predicate OffFork(m: BlockMap, ids: seq<BlockId>, other: BlockId)
    requires Linked(m)
  {
    forall k :: 0 <= k < |ids| ==> !DescendsFrom(m, other, ids[k])
  }

  lemma SameHeight(m: BlockMap, d: BlockId, a: BlockId, b: BlockId)
    requires Linked(m) && a in m && b in m && d in m
    requires DescendsFrom(m, d, a) && DescendsFrom(m, d, b) && m[a].blockNum == m[b].blockNum
    ensures a == b
  {
    AncestorsComparable(m, d, a, b);
    if DescendsFrom(m, a, b) {
      DescendantIsLater(m, a, b);
    } else {
      DescendantIsLater(m, b, a);
    }
  }

  lemma BranchSnoc(m: BlockMap, from: BlockId, ids: seq<BlockId>, f: BlockId)
    requires Branch(m, from, ids, f) && f in m
    ensures Branch(m, from, ids + [f], m[f].previous)
  {
  }

  lemma OffForkSnoc(m: BlockMap, ids: seq<BlockId>, f: BlockId, other: BlockId)
    requires Linked(m) && OffFork(m, ids, other) && !DescendsFrom(m, other, f)
    ensures OffFork(m, ids + [f], other)
  {
  }

  lemma HigherIsOff(m: BlockMap, other: BlockId, f: BlockId)
    requires Linked(m) && f in m && other in m && m[f].blockNum > m[other].blockNum
    ensures !DescendsFrom(m, other, f)
  {
    if DescendsFrom(m, other, f) {
      DescendantIsLater(m, other, f);
    }
  }

  /** Both walks stand at the same height, f on the first fork and s on the second. */
  ghost predicate Abreast(m: BlockMap, first: BlockId, second: BlockId, f: BlockId, s: BlockId,
                          b1: seq<BlockId>, b2: seq<BlockId>)
    requires Linked(m)
  {
    && first in m && second in m && f in m && s in m
    && Branch(m, first, b1, f) && Branch(m, second, b2, s)
    && DescendsFrom(m, first, f) && DescendsFrom(m, second, s)
    && OffFork(m, b1, second) && OffFork(m, b2, first)
    && m[f].blockNum == m[s].blockNum
    && (b1 != [] && b2 != [] ==> f != s)
    && (forall a, b :: Meet(m, first, second, a, b) ==> m[a].blockNum <= m[f].blockNum)
  }

  /** One step down on both forks. */
  lemma StepAbreast(m: BlockMap, first: BlockId, second: BlockId, f: BlockId, s: BlockId,
                    b1: seq<BlockId>, b2: seq<BlockId>)
    requires Linked(m) && Abreast(m, first, second, f, s, b1, b2)
    requires m[f].previous != m[s].previous
    ensures forall a, b :: Meet(m, first, second, a, b) ==> m[a].blockNum < m[f].blockNum
    ensures m[f].previous in m && m[s].previous in m ==>
              Abreast(m, first, second, m[f].previous, m[s].previous, b1 + [f], b2 + [s])
  {
    forall a, b | Meet(m, first, second, a, b) ensures m[a].blockNum < m[f].blockNum {
      if m[a].blockNum == m[f].blockNum {
        SameHeight(m, first, a, f);
        SameHeight(m, second, b, s);
      }
    }
    if DescendsFrom(m, second, f) {
      SameHeight(m, second, f, s);
    }
    if DescendsFrom(m, first, s) {
      SameHeight(m, first, f, s);
    }
    OffForkSnoc(m, b1, f, second);
    OffForkSnoc(m, b2, s, first);
    BranchSnoc(m, first, b1, f);
    BranchSnoc(m, second, b2, s);
    if m[f].previous in m {
      DescentTransitive(m, first, f, m[f].previous);
    }
    if m[s].previous in m {
      DescentTransitive(m, second, s, m[s].previous);
    }
  }

  /** Where a walk ends there is nothing further down. */
  lemma NothingBelow(m: BlockMap, d: BlockId, f: BlockId, a: BlockId)
    requires Linked(m) && d in m && f in m && a in m
    requires DescendsFrom(m, d, f) && DescendsFrom(m, d, a) && m[a].blockNum < m[f].blockNum
    ensures m[f].previous in m
  {
    AncestorsComparable(m, d, f, a);
    if DescendsFrom(m, a, f) {
      DescendantIsLater(m, a, f);
    } else {
      DescendantIsLater(m, f, a);
    }
  }

  /** Walk down from a block to the given height; fails where a block is missing. */
  method WalkDown(m: BlockMap, from: BlockId, height: nat)
    returns (r: Result<(seq<BlockId>, BlockId), BlockId>)
    requires Linked(m) && from in m
    ensures r.Success? ==>
              var (ids, f) := r.value;
              && f in m && Branch(m, from, ids, f) && DescendsFrom(m, from, f)
              && (forall k :: 0 <= k < |ids| ==> m[ids[k]].blockNum > height)
              && (if m[from].blockNum <= height then ids == [] else m[f].blockNum == height)
    ensures r.Failure? ==>
              && m[from].blockNum > height
              && forall a :: a in m && DescendsFrom(m, from, a) ==> m[a].blockNum > height
  {
    var ids, f := [], from;
    while m[f].blockNum > height
      invariant f in m && Branch(m, from, ids, f) && DescendsFrom(m, from, f)
      invariant forall k :: 0 <= k < |ids| ==> m[ids[k]].blockNum > height
      invariant if m[from].blockNum <= height then ids == [] else m[f].blockNum >= height
      decreases Rank(m, f)
    {
      BranchSnoc(m, from, ids, f);
      ids := ids + [f];
      var p := m[f].previous;
      if p !in m {
        forall a | a in m && DescendsFrom(m, from, a) ensures m[a].blockNum > height {
          if m[a].blockNum < m[f].blockNum {
            NothingBelow(m, from, f, a);
          }
        }
        return Failure(p);
      }
      DescentTransitive(m, from, f, p);
      f := p;
    }
    r := Success((ids, f));
  }

  lemma StartAbreast(m: BlockMap, first: BlockId, second: BlockId, f: BlockId, s: BlockId,
                     b1: seq<BlockId>, b2: seq<BlockId>)
    requires Linked(m) && first in m && second in m && f in m && s in m
    requires Branch(m, first, b1, f) && Branch(m, second, b2, s)
    requires DescendsFrom(m, first, f) && DescendsFrom(m, second, s)
    requires forall k :: 0 <= k < |b1| ==> m[b1[k]].blockNum > m[second].blockNum
    requires forall k :: 0 <= k < |b2| ==> m[b2[k]].blockNum > m[first].blockNum
    requires m[f].blockNum == m[s].blockNum && (b1 == [] || b2 == [])
    ensures Abreast(m, first, second, f, s, b1, b2)
  {
    forall k | 0 <= k < |b1| ensures !DescendsFrom(m, second, b1[k]) {
      HigherIsOff(m, second, b1[k]);
    }
    forall k | 0 <= k < |b2| ensures !DescendsFrom(m, first, b2[k]) {
      HigherIsOff(m, first, b2[k]);
    }
    forall a, b | Meet(m, first, second, a, b) ensures m[a].blockNum <= m[f].blockNum {
      DescendantIsLater(m, first, a);
      DescendantIsLater(m, second, b);
    }
  }

  /** The two branches down to the blocks built on a common one. */
  ghost predicate SplitAt(m: BlockMap, first: BlockId, second: BlockId, b1: seq<BlockId>, b2: seq<BlockId>, base: BlockId)
    requires Linked(m)
  {
    && b1 != [] && b2 != []
    && Branch(m, first, b1, base) && Branch(m, second, b2, base)
    && OffFork(m, b1[..|b1| - 1], second) && OffFork(m, b2[..|b2| - 1], first)
    && var (e1, e2) := (b1[|b1| - 1], b2[|b2| - 1]);
       && m[e1].blockNum == m[e2].blockNum
       && (e1 == e2 <==> DescendsFrom(m, first, second) || DescendsFrom(m, second, first))
       && (e1 != e2 ==> !DescendsFrom(m, second, e1) && !DescendsFrom(m, first, e2))
  }

  lemma SplitFound(m: BlockMap, first: BlockId, second: BlockId, f: BlockId, s: BlockId,
                   b1: seq<BlockId>, b2: seq<BlockId>)
    requires Linked(m) && Abreast(m, first, second, f, s, b1, b2)
    requires m[f].previous == m[s].previous
    ensures SplitAt(m, first, second, b1 + [f], b2 + [s], m[f].previous)
  {
    BranchSnoc(m, first, b1, f);
    BranchSnoc(m, second, b2, s);
    assert (b1 + [f])[..|b1|] == b1 && (b2 + [s])[..|b2|] == b2;
    if f != s {
      if DescendsFrom(m, second, f) { SameHeight(m, second, f, s); }
      if DescendsFrom(m, first, s) { SameHeight(m, first, f, s); }
      if DescendsFrom(m, first, second) { DescentTransitive(m, first, second, s); }
      if DescendsFrom(m, second, first) { DescentTransitive(m, second, first, f); }
    }
  }

  /** Given two blocks, the branches that lead from them down to blocks with the same parent. */
  method FetchBranchFrom(m: BlockMap, first: BlockId, second: BlockId)
    returns (r: Result<(seq<BlockId>, seq<BlockId>), BlockId>)
    requires Linked(m) && first in m && second in m
    ensures r.Success? ==> exists base :: SplitAt(m, first, second, r.value.0, r.value.1, base)
    ensures r.Failure? ==> forall a, b :: !Meet(m, first, second, a, b)
  {
    var w1 := WalkDown(m, first, m[second].blockNum);
    if w1.Failure? {
      NoMeeting(m, first, second);
      return Failure(w1.error);
    }
    var (b1, f) := w1.value;
    var w2 := WalkDown(m, second, m[f].blockNum);
    if w2.Failure? {
      NoMeeting(m, second, first);
      return Failure(w2.error);
    }
    var (b2, s) := w2.value;
    StartAbreast(m, first, second, f, s, b1, b2);
    while m[f].previous != m[s].previous
      invariant Abreast(m, first, second, f, s, b1, b2)
      decreases Rank(m, f)
    {
      StepAbreast(m, first, second, f, s, b1, b2);
      if m[f].previous !in m || m[s].previous !in m {
        forall a, b | Meet(m, first, second, a, b) ensures false {
          NothingBelow(m, first, f, a);
          NothingBelow(m, second, s, b);
        }
        return Failure(if m[f].previous !in m then m[f].previous else m[s].previous);
      }
      b1, b2 := b1 + [f], b2 + [s];
      f, s := m[f].previous, m[s].previous;
    }
    SplitFound(m, first, second, f, s, b1, b2);
    r := Success((b1 + [f], b2 + [s]));
  }

  lemma NoMeeting(m: BlockMap, x: BlockId, y: BlockId)
    requires Linked(m) && x in m && y in m
    requires forall a :: a in m && DescendsFrom(m, x, a) ==> m[a].blockNum > m[y].blockNum
    ensures forall a, b :: !Meet(m, x, y, a, b) && !Meet(m, y, x, b, a)
  {
    forall a, b ensures !Meet(m, x, y, a, b) && !Meet(m, y, x, b, a) {
      if b in m && DescendsFrom(m, y, b) {
        DescendantIsLater(m, y, b);
      }
    }
  }
}
