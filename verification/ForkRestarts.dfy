/**
  * What happens to the numbers of a fork that is cut off and added again: every block of it starts
  * over at the number of the block the fork was built on.
  */
module ForkRestarts {
  import opened Wrappers
  import opened ChainTypes
  import opened BlockHeader
  import opened BlockTree
  import opened ForkSearch
  import opened ForkInvariants
  import opened ForkOperations
  import opened ForkRuns

  // ---------------------------------------------------------------------------
  // Links are kept
  // ---------------------------------------------------------------------------

  /** A header that is added, for the first time or again, leaves descent among the known blocks alone. */
  lemma {:induction false} DescentStays(known: BlockMap, n: HeaderState, d: BlockId, a: BlockId)
    requires Linked(known) && Linked(known[n.id := n]) && HashesFit(known, n.id, n.previous) && d in known
    ensures DescendsFrom(known[n.id := n], d, a) == DescendsFrom(known, d, a)
    decreases Rank(known, d)
  {
    var p := known[d].previous;
    assert known[n.id := n][d].previous == p;
    if p in known {
      DescentStays(known, n, p, a);
    } else {
      assert p !in known[n.id := n];
    }
  }

  // ---------------------------------------------------------------------------
  // Pruned for good
  // ---------------------------------------------------------------------------

  /** The block is gone, and with it everything below it down to the lowest level. */
  ghost predicate CutOff(known: BlockMap, index: BlockMap, floor: nat, e: BlockId)
    requires Linked(known)
    decreases Rank(known, e)
  {
    && e in known && e !in index
    && (known[e].blockNum <= floor || CutOff(known, index, floor, known[e].previous))
  }

  /** No addition brings such a block back. */
  lemma {:induction false} CutOffStays(db: Members, past: History, n: HeaderState, index': BlockMap, floor': nat, e: BlockId)
    requires Sound(db, past) && HashesFit(past.known, n.id, n.previous) && n.previous in db.index
    requires Linked(past.known[n.id := n]) && past.floor <= floor'
    requires forall d :: d in index' ==> d in db.index || d == n.id
    requires CutOff(past.known, db.index, past.floor, e)
    ensures e != n.id && CutOff(past.known[n.id := n], index', floor', e)
    decreases Rank(past.known, e)
  {
    var known := past.known;
    if known[e].blockNum > past.floor {
      CutOffStays(db, past, n, index', floor', known[e].previous);
    }
  }

  /** What pruning a lowest block takes away is gone for good. */
  lemma {:induction false} PrunedIsCutOff(added: BlockMap, known: BlockMap, floor: nat, o: BlockId, e: BlockId)
    requires Linked(added) && Linked(known) && Within(added, known) && Closed(added, floor)
    requires o in added && added[o].blockNum == floor && e in added && e !in StrictDescendants(added, o)
    ensures CutOff(known, StrictDescendants(added, o), floor + 1, e)
    decreases Rank(added, e)
  {
    var p := added[e].previous;
    if added[e].blockNum > floor + 1 {
      if p in StrictDescendants(added, o) {
        DescendantIsLater(added, p, o);
      }
      PrunedIsCutOff(added, known, floor, o, p);
    }
  }

  /** A filed block is filed unchanged after an addition, or gone for good. */
  lemma KeptOrCutOff(db: Members, past: History, n: HeaderState, best: BlockId, oldest: BlockId,
                     db': Members, past': History, e: BlockId)
    requires Sound(db, past) && HashesFit(past.known, n.id, n.previous)
    requires n.id !in db.index && n.previous in db.index && BuiltOn(n, db.index[n.previous], n.id)
    requires Adds(db, past, n, best, oldest, db', past') && Linked(past'.known) && e in db.index
    ensures if e in db'.index then db'.index[e] == db.index[e]
            else CutOff(past'.known, db'.index, past'.floor, e)
  {
    InsertKeeps(db.index, past.known, past.root, past.floor, n);
    var added, known := db.index[n.id := n], past.known[n.id := n];
    if Settled(added, best, oldest) && e !in db'.index {
      LowestIsFloor(added, known, past.root, past.floor, oldest);
      PrunedIsCutOff(added, known, past.floor, oldest, e);
    }
  }

  // ---------------------------------------------------------------------------
  // The fork on x after it was cut off
  // ---------------------------------------------------------------------------

  /**
    * The block p under the fork on x still has its number or is gone for good; if it was not filed
    * x itself is gone for good.
    */
  ghost predicate BaseKept(db: Members, past: History, x: BlockId, base: Option<nat>)
    requires Linked(past.known) && x in past.known
  {
    var p := past.known[x].previous;
    if base.None? then CutOff(past.known, db.index, past.floor, x)
    else if p in db.index then db.index[p].bftIrreversible == base.value
    else CutOff(past.known, db.index, past.floor, p)
  }

  /** Whatever is filed of the fork on x has the number of its base. */
  ghost predicate ForkRestarted(db: Members, past: History, x: BlockId, base: Option<nat>)
    requires Linked(past.known)
  {
    forall e :: e in db.index && DescendsFrom(past.known, e, x) ==> Some(db.index[e].bftIrreversible) == base
  }

  ghost predicate Restarted(s: Snapshot, x: BlockId, base: Option<nat>) {
    && Sound(s.db, s.past) && x in s.past.known
    && BaseKept(s.db, s.past, x, base) && ForkRestarted(s.db, s.past, x, base)
  }

  ghost function BaseNumber(index: BlockMap, x: BlockId): Option<nat>
    requires x in index
  {
    if index[x].previous in index then Some(index[index[x].previous].bftIrreversible) else None
  }

  lemma DropRestarts(s: Snapshot, x: BlockId, t: Snapshot)
    requires Sound(s.db, s.past) && x in s.db.index && Leads(s, Drop(x), t)
    ensures Restarted(t, x, BaseNumber(s.db.index, x)) && t.past == s.past
  {
    DropKeeps(s.db, s.past, x, t.db);
    var index, known, p := s.db.index, s.past.known, s.db.index[x].previous;
    if p in index {
      assert p in t.db.index by {
        if DescendsFrom(index, p, x) {
          DescendantIsLater(index, p, x);
        }
      }
    }
    forall e | e in t.db.index ensures !DescendsFrom(known, e, x) {
      IndexDescent(index, known, s.past.root, s.past.floor, e, x);
    }
  }

  lemma BaseStays(db: Members, past: History, n: HeaderState, best: BlockId, oldest: BlockId,
                  db': Members, past': History, x: BlockId, base: Option<nat>)
    requires Sound(db, past) && HashesFit(past.known, n.id, n.previous)
    requires n.id !in db.index && n.previous in db.index && BuiltOn(n, db.index[n.previous], n.id)
    requires Adds(db, past, n, best, oldest, db', past') && Linked(past'.known)
    requires x in past.known && BaseKept(db, past, x, base)
    ensures BaseKept(db', past', x, base)
  {
    var p := past.known[x].previous;
    assert past'.known[x].previous == p;
    if base.None? {
      CutOffStays(db, past, n, db'.index, past'.floor, x);
    } else if p in db.index {
      KeptOrCutOff(db, past, n, best, oldest, db', past', p);
    } else {
      CutOffStays(db, past, n, db'.index, past'.floor, p);
    }
  }

  /** A block of the fork that is added takes over the number of the base. */
  lemma NewTakesBase(db: Members, past: History, n: HeaderState, x: BlockId, base: Option<nat>)
    requires Sound(db, past) && HashesFit(past.known, n.id, n.previous)
    requires n.id !in db.index && n.previous in db.index && BuiltOn(n, db.index[n.previous], n.id)
    requires x in past.known && BaseKept(db, past, x, base) && ForkRestarted(db, past, x, base)
    requires Linked(past.known[n.id := n]) && DescendsFrom(past.known[n.id := n], n.id, x)
    ensures Some(n.bftIrreversible) == base
  {
    if n.id == x {
      assert n.previous == past.known[x].previous;
      if base.None? {
        CutOffStays(db, past, n, db.index, past.floor, x);
      }
    } else {
      DescentStays(past.known, n, n.previous, x);
    }
  }

  lemma AddRestarts(s: Snapshot, n: HeaderState, t: Snapshot, x: BlockId, base: Option<nat>)
    requires Restarted(s, x, base) && Sound(t.db, t.past) && HashesFit(s.past.known, n.id, n.previous)
    requires n.id !in s.db.index && n.previous in s.db.index && BuiltOn(n, s.db.index[n.previous], n.id)
    requires exists best, oldest :: Adds(s.db, s.past, n, best, oldest, t.db, t.past)
    ensures Restarted(t, x, base)
  {
    var best, oldest :| Adds(s.db, s.past, n, best, oldest, t.db, t.past);
    BaseStays(s.db, s.past, n, best, oldest, t.db, t.past, x, base);
    forall e | e in t.db.index && DescendsFrom(t.past.known, e, x)
      ensures Some(t.db.index[e].bftIrreversible) == base
    {
      if e == n.id {
        NewIsFiled(s.db, n, best, oldest, t.db);
        NewTakesBase(s.db, s.past, n, x, base);
      } else {
        AddLeaves(s.db, n, best, oldest, t.db, e);
        DescentStays(s.past.known, n, e, x);
      }
    }
  }

  lemma StepRestarts(s: Snapshot, op: Operation, t: Snapshot, x: BlockId, base: Option<nat>)
    requires Restarted(s, x, base) && Leads(s, op, t) && (op.AddBlock? || op.Mark?)
    ensures Restarted(t, x, base)
  {
    StepKeeps(s.db, s.past, op, t.db, t.past);
    if op.AddBlock? && AddOutcome(s.db.index, op.header, op.trust).Success? {
      AcceptedIsBuiltOn(s.db, s.past, op.header, op.trust);
      AddRestarts(s, AddOutcome(s.db.index, op.header, op.trust).value, t, x, base);
    }
  }

  ghost predicate BuiltAmong(known: BlockMap, d: BlockId, x: BlockId) {
    Linked(known) && d in known && DescendsFrom(known, d, x)
  }

  lemma StepDescent(s: Snapshot, op: Operation, t: Snapshot, d: BlockId, x: BlockId)
    requires Sound(s.db, s.past) && Leads(s, op, t) && (op.AddBlock? || op.Mark?) && BuiltAmong(s.past.known, d, x)
    ensures BuiltAmong(t.past.known, d, x)
  {
    StepKeeps(s.db, s.past, op, t.db, t.past);
    if op.AddBlock? && AddOutcome(s.db.index, op.header, op.trust).Success? {
      AcceptedIsBuiltOn(s.db, s.past, op.header, op.trust);
      DescentStays(s.past.known, AddOutcome(s.db.index, op.header, op.trust).value, d, x);
    }
  }

  // ---------------------------------------------------------------------------
  // Runs
  // ---------------------------------------------------------------------------

  /** After the first operation blocks are added and marked, in any order. */
  predicate OnlyAdditions(ops: seq<Operation>) {
    forall i :: 1 <= i < |ops| ==> ops[i].AddBlock? || ops[i].Mark?
  }

  /** The fork on x has restarted, and each of its blocks is still known as such. */
  ghost predicate RestartedAt(states: seq<Snapshot>, k: nat, x: BlockId, fork: set<BlockId>, base: Option<nat>)
    requires k < |states|
  {
    forall d :: d in fork ==> Restarted(states[k], x, base) && BuiltAmong(states[k].past.known, d, x)
  }

  lemma NextRestarted(states: seq<Snapshot>, ops: seq<Operation>, i: nat, x: BlockId, fork: set<BlockId>, base: Option<nat>)
    requires IsRun(states, ops) && i < |ops| && (ops[i].AddBlock? || ops[i].Mark?)
    requires RestartedAt(states, i, x, fork, base)
    ensures RestartedAt(states, i + 1, x, fork, base)
  {
    assert StepAt(states, ops, i);
    forall d | d in fork
      ensures Restarted(states[i + 1], x, base) && BuiltAmong(states[i + 1].past.known, d, x)
    {
      StepRestarts(states[i], ops[i], states[i + 1], x, base);
      StepDescent(states[i], ops[i], states[i + 1], d, x);
    }
  }

  lemma {:induction false} RunRestarts(states: seq<Snapshot>, ops: seq<Operation>, x: BlockId, fork: set<BlockId>,
                                       base: Option<nat>, k: nat)
    requires IsRun(states, ops) && 1 <= k <= |ops| && OnlyAdditions(ops)
    requires RestartedAt(states, 1, x, fork, base)
    ensures RestartedAt(states, k, x, fork, base)
    decreases k
  {
    if k > 1 {
      RunRestarts(states, ops, x, fork, base, k - 1);
      NextRestarted(states, ops, k - 1, x, fork, base);
    }
  }

  /** A block between x and d, both included, had a quorum. */
  ghost predicate QuorumBetween(index: BlockMap, x: BlockId, d: BlockId)
    requires Linked(index)
  {
    exists q :: q in index && DescendsFrom(index, d, q) && DescendsFrom(index, q, x) && QuorumConfirmed(index[q])
  }

  lemma {:induction false} QuorumReached(db: Members, past: History, x: BlockId, d: BlockId)
    requires Sound(db, past) && Linked(db.index) && x in db.index && d in db.index && DescendsFrom(db.index, d, x)
    requires db.index[x].previous in db.index
    requires db.index[db.index[x].previous].bftIrreversible < db.index[d].bftIrreversible
    ensures QuorumBetween(db.index, x, d)
    decreases Rank(db.index, d)
  {
    DescendantIsLater(db.index, d, x);
    var p := db.index[d].previous;
    if QuorumConfirmed(db.index[d]) {
      assert DescendsFrom(db.index, d, d);
    } else {
      OwnQuorumIff(db, past, d);
      QuorumReached(db, past, x, p);
      var q :| q in db.index && DescendsFrom(db.index, p, q) && DescendsFrom(db.index, q, x) && QuorumConfirmed(db.index[q]);
      assert DescendsFrom(db.index, d, q);
    }
  }

  /** The number of a block is above that of the block its fork is built on exactly by a quorum in between. */
  lemma AboveBaseIff(db: Members, past: History, x: BlockId, d: BlockId)
    requires Sound(db, past) && Linked(db.index) && x in db.index && d in db.index && DescendsFrom(db.index, d, x)
    requires db.index[x].previous in db.index
    ensures db.index[db.index[x].previous].bftIrreversible < db.index[d].bftIrreversible <==> QuorumBetween(db.index, x, d)
  {
    var index, p := db.index, db.index[x].previous;
    if QuorumBetween(index, x, d) {
      var q :| q in index && DescendsFrom(index, d, q) && DescendsFrom(index, q, x) && QuorumConfirmed(index[q]);
      IndexDescent(index, past.known, past.root, past.floor, d, q);
      FinalizedIsGreatest(past.known, d, q);
      DescendantIsLater(index, q, x);
      FinalizedBound(past.known, p);
    } else if index[p].bftIrreversible < index[d].bftIrreversible {
      QuorumReached(db, past, x, d);
    }
  }

  /**
    * A fork is cut off at x and blocks are added after that. Whatever of the fork is filed again
    * has the number of the block that x was built on, and that is lower than before exactly if some
    * block from x on up to it had a quorum.
    */
  lemma FiledAgain(states: seq<Snapshot>, ops: seq<Operation>, x: BlockId, d: BlockId)
    requires IsRun(states, ops) && Sound(states[0].db, states[0].past) && Linked(states[0].db.index)
    requires x in states[0].db.index && d in states[0].db.index && DescendsFrom(states[0].db.index, d, x)
    requires ops != [] && ops[0] == Drop(x) && OnlyAdditions(ops) && d in states[|ops|].db.index
    ensures var (before, after) := (states[0].db.index, states[|ops|].db.index);
            && before[x].previous in before
            && after[d].bftIrreversible == before[before[x].previous].bftIrreversible
            && (after[d].bftIrreversible < before[d].bftIrreversible <==> QuorumBetween(before, x, d))
  {
    var db, past := states[0].db, states[0].past;
    IndexDescent(db.index, past.known, past.root, past.floor, d, x);
    assert StepAt(states, ops, 0);
    DropRestarts(states[0], x, states[1]);
    RunRestarts(states, ops, x, {d}, BaseNumber(db.index, x), |ops|);
    assert d in {d};
    AboveBaseIff(db, past, x, d);
  }
}
