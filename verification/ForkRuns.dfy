/**
  * Whole runs of the fork database: what holds in every state that any sequence of blocks,
  * confirmations, marks and removals leads to.
  */
module ForkRuns {
  import opened Wrappers
  import opened ChainTypes
  import opened BlockHeader
  import opened BlockTree
  import opened FinalitySearch
  import opened ForkSearch
  import opened BftSafety
  import opened ForkInvariants
  import opened ForkOperations
  import opened OrderStatistic

  // ---------------------------------------------------------------------------
  // Runs
  // ---------------------------------------------------------------------------

  datatype Snapshot = Snapshot(db: Members, past: History)

  ghost predicate Leads(s: Snapshot, op: Operation, t: Snapshot) {
    Usable(s.db) && OperationFits(s.past, op) && Step(s.db, s.past, op, t.db, t.past)
  }

  ghost predicate StepAt(states: seq<Snapshot>, ops: seq<Operation>, i: nat)
    requires i < |ops| && |states| == |ops| + 1
  {
    Leads(states[i], ops[i], states[i + 1])
  }

  ghost predicate IsRun(states: seq<Snapshot>, ops: seq<Operation>) {
    |states| == |ops| + 1 && forall i :: 0 <= i < |ops| ==> StepAt(states, ops, i)
  }

  /** The invariant holds in every state of every run that starts from a state with it. */
  lemma {:induction false} RunSound(states: seq<Snapshot>, ops: seq<Operation>, i: nat)
    requires IsRun(states, ops) && Sound(states[0].db, states[0].past) && i <= |ops|
    ensures Sound(states[i].db, states[i].past)
  {
    if i > 0 {
      var k := i - 1;
      RunSound(states, ops, k);
      assert StepAt(states, ops, k);
      StepKeeps(states[k].db, states[k].past, ops[k], states[i].db, states[i].past);
    }
  }

  // ---------------------------------------------------------------------------
  // Numbers never fall
  // ---------------------------------------------------------------------------

  lemma AddLeaves(db: Members, n: HeaderState, best: BlockId, oldest: BlockId, db': Members, d: BlockId)
    requires Filed(db, n, best, oldest, db') && n.id !in db.index && d in db.index && d in db'.index
    ensures db'.index[d] == db.index[d]
  {
  }

  lemma AcceptedId(index: BlockMap, h: Header, trust: bool)
    requires h.previous in index ==> index[h.previous].active.producers != []
    requires AddOutcome(index, h, trust).Success?
    ensures AddOutcome(index, h, trust).value.id == h.id && h.id !in index
  {
  }

  lemma AddedLeaves(db: Members, past: History, n: HeaderState, db': Members, past': History, d: BlockId)
    requires exists best, oldest :: Adds(db, past, n, best, oldest, db', past')
    requires n.id !in db.index && d in db.index && d in db'.index
    ensures db'.index[d] == db.index[d]
  {
    var best, oldest :| Adds(db, past, n, best, oldest, db', past');
    AddLeaves(db, n, best, oldest, db', d);
  }

  lemma StepNeverLowers(db: Members, past: History, op: Operation, db': Members, past': History, d: BlockId)
    requires Usable(db) && Step(db, past, op, db', past') && d in db.index && d in db'.index
    ensures db.index[d].bftIrreversible <= db'.index[d].bftIrreversible
  {
    match op
    case AddBlock(h, trust) =>
      if AddOutcome(db.index, h, trust).Success? {
        AcceptedId(db.index, h, trust);
        AddedLeaves(db, past, AddOutcome(db.index, h, trust).value, db', past', d);
      }
    case Confirm(c) =>
      if ConfirmOutcome(db.index, c).Success? {
        ConfirmUpdates(db.index, c);
      }
    case Mark(_, _, _) =>
    case Drop(_) =>
  }

  /** Over any run, a block that stays filed never has its irreversible number lowered. */
  lemma {:induction false} NumberNeverFalls(states: seq<Snapshot>, ops: seq<Operation>, d: BlockId, i: nat, j: nat)
    requires IsRun(states, ops) && i <= j <= |ops|
    requires forall k :: i <= k <= j ==> d in states[k].db.index
    ensures states[i].db.index[d].bftIrreversible <= states[j].db.index[d].bftIrreversible
    decreases j
  {
    if i < j {
      var k := j - 1;
      NumberNeverFalls(states, ops, d, i, k);
      assert StepAt(states, ops, k);
      StepNeverLowers(states[k].db, states[k].past, ops[k], states[j].db, states[j].past, d);
    }
  }

  lemma NewIsFiled(db: Members, n: HeaderState, best: BlockId, oldest: BlockId, db': Members)
    requires Filed(db, n, best, oldest, db') && n.id in db'.index
    ensures db'.index[n.id] == n
  {
  }

  /** A block stands above its parent's number exactly by its own quorum. */
  lemma OwnQuorumIff(db: Members, past: History, d: BlockId)
    requires Sound(db, past) && d in db.index && db.index[d].previous in db.index
    ensures db.index[db.index[d].previous].bftIrreversible < db.index[d].bftIrreversible
       <==> QuorumConfirmed(db.index[d])
  {
    var p := db.index[d].previous;
    assert db.index[d].bftIrreversible == Finalized(past.known, d);
    assert db.index[p].bftIrreversible == Finalized(past.known, p);
    FinalizedBound(past.known, p);
  }

  // ---------------------------------------------------------------------------
  // What is kept when a block is added
  // ---------------------------------------------------------------------------

  lemma {:induction false} LowestBelow(index: BlockMap, floor: nat, d: BlockId) returns (a: BlockId)
    requires Linked(index) && Closed(index, floor) && d in index
    ensures a in index && index[a].blockNum == floor && DescendsFrom(index, d, a)
    decreases Rank(index, d)
  {
    if index[d].blockNum == floor {
      a := d;
    } else {
      a := LowestBelow(index, floor, index[d].previous);
    }
  }

  /**
    * After a block is added, everything is kept unless the oldest block lies below the irreversible
    * number of the best one; then a block is kept exactly if it is built on the oldest. So the oldest
    * goes exactly then, the best block survives exactly if the oldest is its ancestor, and the new
    * block exactly if the oldest is an ancestor of its parent.
    */
  lemma KeptAfterAdd(db: Members, past: History, n: HeaderState, best: BlockId, oldest: BlockId, db': Members)
    requires Sound(db, past) && HashesFit(past.known, n.id, n.previous)
    requires n.id !in db.index && n.previous in db.index && BuiltOn(n, db.index[n.previous], n.id)
    requires Filed(db, n, best, oldest, db')
    ensures var added := db.index[n.id := n];
            && (oldest !in db'.index <==> added[oldest].blockNum < added[best].irreversible)
            && (oldest in db'.index ==> db'.index == added)
            && (oldest !in db'.index ==>
                  && (best in db'.index <==> DescendsFrom(added, best, oldest))
                  && (n.id in db'.index <==> DescendsFrom(added, n.previous, oldest))
                  && (forall d :: d in added ==> (d in db'.index <==> d != oldest && DescendsFrom(added, d, oldest))))
  {
    var added := db.index[n.id := n];
    if added[oldest].blockNum < added[best].irreversible {
      BestIsNotOldest(db, past, n, best, oldest);
      assert n.id != oldest;
    }
    FiledKeeps(db, n, best, oldest, db');
  }

  lemma FiledKeeps(db: Members, n: HeaderState, best: BlockId, oldest: BlockId, db': Members)
    requires Filed(db, n, best, oldest, db')
    requires var added := db.index[n.id := n];
             added[oldest].blockNum < added[best].irreversible ==> best != oldest && n.id != oldest
    ensures var added := db.index[n.id := n];
            && (oldest !in db'.index <==> added[oldest].blockNum < added[best].irreversible)
            && (oldest in db'.index ==> db'.index == added)
            && (oldest !in db'.index ==>
                  && (best in db'.index <==> DescendsFrom(added, best, oldest))
                  && (n.id in db'.index <==> DescendsFrom(added, n.previous, oldest))
                  && (forall d :: d in added ==> (d in db'.index <==> d != oldest && DescendsFrom(added, d, oldest))))
  {
  }

  lemma BestIsNotOldest(db: Members, past: History, n: HeaderState, best: BlockId, oldest: BlockId)
    requires Sound(db, past) && InRange(n) && best in db.index[n.id := n] && oldest in db.index[n.id := n]
    requires db.index[n.id := n][oldest].blockNum < db.index[n.id := n][best].irreversible
    ensures best != oldest
  {
    var added := db.index[n.id := n];
    assert InRange(added[best]) by {
      assert best != n.id ==> InRange(db.index[best]);
    }
  }

  /** Some block of the index has an irreversible number above the level. */
  ghost predicate Outgrown(index: BlockMap, level: nat) {
    exists d :: d in index && index[d].irreversible > level
  }

  lemma BestIrreversible(index: BlockMap, best: BlockId, level: nat)
    requires IsBest(index, best)
    ensures index[best].irreversible > level <==> Outgrown(index, level)
  {
    if d :| d in index && index[d].irreversible > level {
      assert !Better(index[d], index[best]);
    }
  }

  /** An addition drops the lowest level, and that alone, exactly when some block then in the index has
      an irreversible number above it. */
  lemma FloorAfterAdd(db: Members, past: History, h: Header, trust: bool, db': Members, past': History)
    requires Sound(db, past) && Usable(db) && OperationFits(past, AddBlock(h, trust))
    requires AddOutcome(db.index, h, trust).Success? && Step(db, past, AddBlock(h, trust), db', past')
    ensures var added := db.index[h.id := AddOutcome(db.index, h, trust).value];
            && past'.floor == past.floor + (if Outgrown(added, past.floor) then 1 else 0)
            && (!Outgrown(added, past.floor) ==> db'.index == added)
            && (Outgrown(added, past.floor) ==> forall d :: d in db'.index ==> db'.index[d].blockNum > past.floor)
  {
    var n := AddOutcome(db.index, h, trust).value;
    AcceptedIsBuiltOn(db, past, h, trust);
    var best, oldest :| Adds(db, past, n, best, oldest, db', past');
    InsertKeeps(db.index, past.known, past.root, past.floor, n);
    LowestIsFloor(db.index[n.id := n], past.known[n.id := n], past.root, past.floor, oldest);
    BestIrreversible(db.index[n.id := n], best, past.floor);
    StepKeeps(db, past, AddBlock(h, trust), db', past');
  }

  /** The operation adds a block after which the lowest level is outgrown. */
  ghost predicate DropsLevel(s: Snapshot, op: Operation)
    requires Usable(s.db)
  {
    && op.AddBlock? && AddOutcome(s.db.index, op.header, op.trust).Success?
    && Outgrown(s.db.index[op.header.id := AddOutcome(s.db.index, op.header, op.trust).value], s.past.floor)
  }

  /** Over any run the lowest level rises by one exactly at such additions, and at no other operation. */
  lemma RunFloor(states: seq<Snapshot>, ops: seq<Operation>, i: nat)
    requires IsRun(states, ops) && Sound(states[0].db, states[0].past) && i < |ops|
    ensures Usable(states[i].db)
    ensures states[i + 1].past.floor == states[i].past.floor + if DropsLevel(states[i], ops[i]) then 1 else 0
  {
    RunSound(states, ops, i);
    assert StepAt(states, ops, i);
    var s, op, t := states[i], ops[i], states[i + 1];
    if op.AddBlock? && AddOutcome(s.db.index, op.header, op.trust).Success? {
      FloorAfterAdd(s.db, s.past, op.header, op.trust, t.db, t.past);
    }
  }

  /** Blocks that stay filed keep their marks, except the one that a mark operation is about; the rest
      have none. */
  lemma MarksStay(db: Members, past: History, op: Operation, db': Members, past': History, d: BlockId)
    requires Sound(db, past) && Usable(db) && OperationFits(past, op) && Step(db, past, op, db', past')
    requires op.Mark? ==> d != op.id
    ensures d in db'.current <==> d in db.current && d in db'.index
  {
    if op.AddBlock? && AddOutcome(db.index, op.header, op.trust).Success? {
      var n := AddOutcome(db.index, op.header, op.trust).value;
      assert exists best, oldest :: Adds(db, past, n, best, oldest, db', past');
    }
  }

  /** With one lowest block only, pruning keeps every other block. */
  lemma OneLowestKeepsAll(index: BlockMap, floor: nat, o: BlockId)
    requires Linked(index) && Closed(index, floor) && o in index
    requires forall d :: d in index && index[d].blockNum == floor ==> d == o
    ensures StrictDescendants(index, o) == index - {o}
  {
    forall d | d in index ensures DescendsFrom(index, d, o) {
      var a := LowestBelow(index, floor, d);
    }
  }

  // ---------------------------------------------------------------------------
  // When the head stays the best block
  // ---------------------------------------------------------------------------

  /** After the confirmation, d would be chosen over h: a higher number, or an equal one at greater height. */
  ghost predicate Overtakes(index: BlockMap, c: Confirmation, d: BlockId, h: BlockId)
    requires Linked(index) && c.blockId in index && d in index && h in index
  {
    || NumberAfter(index, c, d) > NumberAfter(index, c, h)
    || (NumberAfter(index, c, d) == NumberAfter(index, c, h) && index[d].blockNum > index[h].blockNum)
  }

  /**
    * A confirmation does not choose the head anew. A best head stays best exactly if the
    * confirmation completes no quorum, or no block built on the confirmed one, with the head's
    * irreversible number, overtakes the head.
    */
  lemma HeadStaysBestIff(index: BlockMap, c: Confirmation, h: BlockId)
    requires Linked(index) && c.blockId in index && IsBest(index, h)
    ensures IsBest(IndexAfter(index, c), h) <==>
              || !Completes(index, c)
              || (forall d :: d in index && DescendsFrom(index, d, c.blockId) ==>
                    index[d].irreversible == index[h].irreversible ==> !Overtakes(index, c, d, h))
  {
    var after := IndexAfter(index, c);
    forall d | d in index
      ensures Better(after[d], after[h]) <==>
                && Completes(index, c) && DescendsFrom(index, d, c.blockId)
                && index[d].irreversible == index[h].irreversible && Overtakes(index, c, d, h)
    {
      assert !Better(index[d], index[h]);
    }
  }

  // ---------------------------------------------------------------------------
  // What the invariant says to a caller, in every state of a run
  // ---------------------------------------------------------------------------

  /**
    * A block's irreversible number is at least that of each quorum-confirmed block below it, and
    * if it is not 0 it is the number of one of them.
    */
  lemma NumberMeansQuorum(db: Members, past: History, d: BlockId, a: BlockId) returns (b: BlockId)
    requires Sound(db, past) && d in db.index
    ensures a in past.known && DescendsFrom(past.known, d, a) && QuorumConfirmed(past.known[a]) ==>
              db.index[d].bftIrreversible >= past.known[a].blockNum
    ensures db.index[d].bftIrreversible > 0 ==>
              && b in past.known && DescendsFrom(past.known, d, b) && QuorumConfirmed(past.known[b])
              && past.known[b].blockNum == db.index[d].bftIrreversible
  {
    assert db.index[d].bftIrreversible == Finalized(past.known, d);
    if a in past.known && DescendsFrom(past.known, d, a) && QuorumConfirmed(past.known[a]) {
      FinalizedIsGreatest(past.known, d, a);
    }
    b := d;
    if Finalized(past.known, d) > 0 {
      b := FinalizedIsReached(past.known, d);
    }
  }

  lemma SameConfirmersSameQuorum(x: HeaderState, y: HeaderState)
    requires ConfirmationsValid(x) && ConfirmationsValid(y)
    requires x.active == y.active && ConfirmerSet(x) == ConfirmerSet(y)
    ensures QuorumConfirmed(x) == QuorumConfirmed(y)
  {
    ConfirmerCount(x);
    ConfirmerCount(y);
  }

  /**
    * The order of confirmations does not matter: two databases with the same blocks and the same
    * confirmers of each block agree on every irreversible number.
    */
  lemma OrderIrrelevant(db: Members, past: History, db': Members, past': History, d: BlockId)
    requires Sound(db, past) && Sound(db', past') && d in db.index && d in db'.index
    requires SameTree(past.known, past'.known)
    requires forall x :: x in past.known ==>
               past.known[x].active == past'.known[x].active
               && ConfirmerSet(past.known[x]) == ConfirmerSet(past'.known[x])
    ensures db.index[d].bftIrreversible == db'.index[d].bftIrreversible
  {
    forall x | x in past.known
      ensures QuorumConfirmed(past.known[x]) == QuorumConfirmed(past'.known[x])
    {
      SameConfirmersSameQuorum(past.known[x], past'.known[x]);
    }
    FinalizedDepends(past.known, past'.known, d);
    assert db.index[d].bftIrreversible == Finalized(past.known, d);
    assert db'.index[d].bftIrreversible == Finalized(past'.known, d);
  }

  /** More confirmers never lower an irreversible number. */
  lemma MoreConfirmersNeverLower(db: Members, past: History, db': Members, past': History, d: BlockId)
    requires Sound(db, past) && Sound(db', past') && d in db.index && d in db'.index
    requires SameTree(past.known, past'.known)
    requires forall x :: x in past.known ==>
               past.known[x].active == past'.known[x].active
               && ConfirmerSet(past.known[x]) <= ConfirmerSet(past'.known[x])
    ensures db.index[d].bftIrreversible <= db'.index[d].bftIrreversible
  {
    forall x | x in past.known && QuorumConfirmed(past.known[x])
      ensures QuorumConfirmed(past'.known[x])
    {
      ConfirmerCount(past.known[x]);
      ConfirmerCount(past'.known[x]);
      SubsetSize(ConfirmerSet(past.known[x]), ConfirmerSet(past'.known[x]));
    }
    FinalizedNeverFalls(past.known, past'.known, d);
    assert db.index[d].bftIrreversible == Finalized(past.known, d);
    assert db'.index[d].bftIrreversible == Finalized(past'.known, d);
  }

  /** The block that a number names for d: its ancestor with that number. */
  ghost predicate IsNumbered(m: BlockMap, d: BlockId, number: nat, x: BlockId)
    requires Linked(m)
  {
    x in m && DescendsFrom(m, d, x) && m[x].blockNum == number
  }

  /**
    * Two irreversible blocks never conflict as long as fewer than a third of the producers equivocate.
    * Only the two blocks that the irreversible numbers name have to be made under the same producers.
    */
  lemma IrreversibleNeverConflict(db: Members, past: History, producers: seq<ProducerKey>, d: BlockId, e: BlockId,
                                  a: BlockId, b: BlockId)
    requires Sound(db, past) && d in db.index && e in db.index && a in past.known && b in past.known
    requires forall x :: IsNumbered(past.known, d, db.index[d].bftIrreversible, x) ==>
               past.known[x].active.producers == producers
    requires forall y :: IsNumbered(past.known, e, db.index[e].bftIrreversible, y) ==>
               past.known[y].active.producers == producers
    requires 3 * |Equivocators(past.known, PrefixNames(producers, |producers|))| <= |producers| - 1
    requires DescendsFrom(past.known, d, a) && DescendsFrom(past.known, e, b)
    requires 0 < past.known[a].blockNum <= db.index[d].bftIrreversible
    requires 0 < past.known[b].blockNum <= db.index[e].bftIrreversible
    ensures !Conflict(past.known, a, b)
  {
    var x := NumberMeansQuorum(db, past, d, d);
    var y := NumberMeansQuorum(db, past, e, e);
    assert IsNumbered(past.known, d, db.index[d].bftIrreversible, x);
    assert IsNumbered(past.known, e, db.index[e].bftIrreversible, y);
    BelowIsAncestor(past.known, d, x, a);
    BelowIsAncestor(past.known, e, y, b);
    NoConflictingFinality(past.known, producers, a, b, x, y);
  }

  lemma BelowIsAncestor(m: BlockMap, d: BlockId, x: BlockId, a: BlockId)
    requires Linked(m) && DescendsFrom(m, d, x) && DescendsFrom(m, d, a)
    requires x in m && a in m && m[a].blockNum <= m[x].blockNum
    ensures DescendsFrom(m, x, a)
  {
    AncestorsComparable(m, d, x, a);
    if !DescendsFrom(m, x, a) {
      DescendantIsLater(m, a, x);
    }
  }
}
