/**
  * Two runs of the fork database from a genesis block, with one producer: after the first the head
  * is not the best block, and in the second an irreversible number falls.
  */
module ForkExamples {
  import opened Wrappers
  import opened ChainTypes
  import opened BlockHeader
  import opened BlockTree
  import opened ForkSearch
  import opened BftSafety
  import opened ForkInvariants
  import opened ForkOperations
  import opened ForkRuns
  import opened OrderStatistic
  import Dpos

  function Solo(): Schedule { Schedule(0, [ProducerKey(7, 1)]) }

  function Origin(): HeaderState {
    HeaderState(1, 0, 1, 0, 0, 0, 0, 0, 0, 0, Solo(), Solo(), map[], map[], 0, [], [])
  }

  /** Block 2 of the chain, made in a slot of its own. */
  function Second(id: BlockId, slot: nat): Header {
    Header(id, 1, slot, 7, 0, 0, None, 0, 1)
  }

  lemma SecondAccepted(id: BlockId, slot: nat) returns (n: HeaderState)
    requires slot > 0 && id != 1
    ensures Next(Origin(), Second(id, slot), false) == Success(n)
    ensures n.id == id && n.previous == 1 && n.blockNum == 2 && n.irreversible == 0 && n.bftIrreversible == 0
    ensures n.active == Solo() && n.confirmations == []
  {
    var s, h := Origin(), Second(id, slot);
    assert ScheduledProducer(Solo(), slot) == ProducerKey(7, 1);
    Dpos.HonestHeaderAccepted(s, slot, 0, id);
    n := Next(s, h, false).value;
    Dpos.AcceptedStages(s, h, false);
    var t := GenerateNext(s, slot);
    assert t.lastImplied == map[7 := 0];
    LastIrreversibleIsImplied(t.lastImplied);
  }

  function Start(): Snapshot {
    Snapshot(Members(map[1 := Origin()], Some(1), {}), History(map[1 := Origin()], 1, 1))
  }

  /** A database after a block was filed, nothing was settled and the head is the given one. */
  function Grown(s: Snapshot, n: HeaderState, head: BlockId): Snapshot {
    Snapshot(Members(s.db.index[n.id := n], Some(head), s.db.current), s.past.(known := s.past.known[n.id := n]))
  }

  /** The first blocks of the runs: the origin and blocks of number 2 on it. */
  ghost predicate Shallow(m: BlockMap) {
    && 1 in m && m[1] == Origin() && 0 !in m
    && forall d :: d in m && d != 1 ==>
         m[d].id == d && m[d].previous == 1 && m[d].blockNum == 2 && m[d].irreversible == 0
         && m[d].active.producers != []
  }

  lemma ShallowUsable(m: BlockMap, current: set<BlockId>)
    requires Shallow(m)
    ensures Linked(m) && IsOldest(m, current, 1)
    ensures forall d :: d in m ==> m[d].active.producers != []
  {
  }

  lemma AddLeads(s: Snapshot, h: Header, n: HeaderState, best: BlockId, oldest: BlockId, t: Snapshot)
    requires Usable(s.db) && HashesFit(s.past.known, h.id, h.previous)
    requires AddOutcome(s.db.index, h, false) == Success(n) && Adds(s.db, s.past, n, best, oldest, t.db, t.past)
    ensures Leads(s, AddBlock(h, false), t)
  {
  }

  /** A block of number 2 that nobody has confirmed. */
  predicate Untouched(n: HeaderState, id: BlockId) {
    && n.id == id && n.previous == 1 && n.blockNum == 2 && n.irreversible == 0 && n.bftIrreversible == 0
    && n.active == Solo() && n.confirmations == []
  }

  /** One more block of number 2 that does not replace the head. */
  lemma GrowLeads(s: Snapshot, id: BlockId, slot: nat, n: HeaderState, head: BlockId)
    requires Shallow(s.db.index) && HashesFit(s.past.known, id, 1) && s.db.current == {}
    requires id > 1 && id !in s.db.index && Untouched(n, id)
    requires Next(Origin(), Second(id, slot), false) == Success(n) && IsBest(s.db.index[id := n], head)
    ensures Shallow(Grown(s, n, head).db.index)
    ensures Leads(s, AddBlock(Second(id, slot), false), Grown(s, n, head))
  {
    var t := Grown(s, n, head);
    ShallowUsable(s.db.index, {});
    ShallowUsable(t.db.index, {});
    assert !Settled(t.db.index, head, 1);
    assert t.db.current == s.db.current * t.db.index.Keys;
    AddLeads(s, Second(id, slot), n, head, 1, t);
  }

  lemma RunSnoc(states: seq<Snapshot>, ops: seq<Operation>, op: Operation, t: Snapshot)
    requires IsRun(states, ops) && Leads(states[|ops|], op, t)
    ensures IsRun(states + [t], ops + [op])
  {
    var states', ops' := states + [t], ops + [op];
    forall i | 0 <= i < |ops'| ensures StepAt(states', ops', i) {
      var next := i + 1;
      if i < |ops| {
        assert StepAt(states, ops, i);
        assert states'[i] == states[i] && states'[next] == states[next] && ops'[i] == ops[i];
      } else {
        assert states'[i] == states[|ops|] && states'[next] == t && ops'[i] == op;
      }
    }
  }

  lemma ShallowBest(index: BlockMap, id: BlockId, n: HeaderState, head: BlockId)
    requires Shallow(index) && (forall d :: d in index ==> index[d].bftIrreversible == 0)
    requires Untouched(n, id) && id !in index && (head == id || (head in index && head != 1))
    ensures IsBest(index[id := n], head)
  {
  }

  /** One more block of number 2; it or a block of the same number is the head. */
  lemma GrowRun(states: seq<Snapshot>, ops: seq<Operation>, id: BlockId, slot: nat, head: BlockId)
    returns (n: HeaderState)
    requires IsRun(states, ops) && id > 1 && slot > 0
    requires var s := states[|ops|];
             && Shallow(s.db.index) && HashesFit(s.past.known, id, 1) && s.db.current == {} && id !in s.db.index
             && (forall d :: d in s.db.index ==> s.db.index[d].bftIrreversible == 0)
             && (head == id || (head in s.db.index && head != 1))
    ensures Untouched(n, id) && IsBest(states[|ops|].db.index[id := n], head)
    ensures IsRun(states + [Grown(states[|ops|], n, head)], ops + [AddBlock(Second(id, slot), false)])
    ensures Shallow(states[|ops|].db.index[id := n])
  {
    n := SecondAccepted(id, slot);
    ShallowBest(states[|ops|].db.index, id, n, head);
    GrowLeads(states[|ops|], id, slot, n, head);
    RunSnoc(states, ops, AddBlock(Second(id, slot), false), Grown(states[|ops|], n, head));
  }

  /** The sole producer's confirmation of a block. */
  function Approval(id: BlockId): Confirmation { Confirmation(id, 7, 1) }

  ghost function Approved(s: Snapshot, id: BlockId): Snapshot
    requires Linked(s.db.index) && id in s.db.index
  {
    var index := IndexAfter(s.db.index, Approval(id));
    Snapshot(s.db.(index := index), s.past.(known := s.past.known + index))
  }

  lemma ApprovalLifts(index: BlockMap, id: BlockId)
    requires Shallow(index) && id in index && id != 1 && Untouched(index[id], id)
    ensures Linked(index) && ConfirmOutcome(index, Approval(id)).Success?
    ensures forall d :: d in index ==> NumberAfter(index, Approval(id), d) == if d == id then 2 else index[d].bftIrreversible
  {
    ShallowUsable(index, {});
    assert ProducerKeyOf(Solo().producers, 7) == 1;
    assert Completes(index, Approval(id));
    forall d | d in index ensures DescendsFrom(index, d, id) <==> d == id {
      assert DescendsFrom(index, 1, id) ==> DescendsFrom(index, 0, id);
    }
  }

  lemma ApproveRun(states: seq<Snapshot>, ops: seq<Operation>, id: BlockId)
    requires IsRun(states, ops)
    requires var index := states[|ops|].db.index;
             Shallow(index) && id in index && id != 1 && Untouched(index[id], id)
    ensures Linked(states[|ops|].db.index)
    ensures IsRun(states + [Approved(states[|ops|], id)], ops + [Confirm(Approval(id))])
  {
    var s := states[|ops|];
    ShallowUsable(s.db.index, {});
    ApprovalLifts(s.db.index, id);
    RunSnoc(states, ops, Confirm(Approval(id)), Approved(s, id));
  }

  lemma OriginSound()
    ensures Sound(Start().db, Start().past)
  {
    var index := map[1 := Origin()];
    assert Linked(index);
    assert !QuorumConfirmed(Origin());
    assert Finalized(index, 1) == 0;
    assert ConfirmationsValid(Origin());
    assert InRange(Origin());
  }

  lemma OneSecond() returns (states: seq<Snapshot>, ops: seq<Operation>, a: HeaderState)
    ensures IsRun(states, ops) && ops == [AddBlock(Second(2, 1), false)]
    ensures Untouched(a, 2) && states == [Start(), Grown(Start(), a, 2)] && Shallow(states[1].db.index)
  {
    assert IsRun([Start()], []);
    a := GrowRun([Start()], [], 2, 1, 2);
    states, ops := [Start()] + [Grown(Start(), a, 2)], [] + [AddBlock(Second(2, 1), false)];
  }

  lemma TwoSeconds() returns (states: seq<Snapshot>, ops: seq<Operation>)
    ensures IsRun(states, ops) && |ops| == 2 && states[0] == Start()
    ensures var s := states[2].db;
            && s.head == Some(2) && s.index.Keys == {1, 2, 3} && Shallow(s.index)
            && Untouched(s.index[2], 2) && Untouched(s.index[3], 3) && IsBest(s.index, 2)
  {
    var a;
    states, ops, a := OneSecond();
    var s := states[1];
    assert s.db.index == map[1 := Origin(), 2 := a];
    var b := GrowRun(states, ops, 3, 2, 2);
    states, ops := states + [Grown(s, b, 2)], ops + [AddBlock(Second(3, 2), false)];
  }

  /**
    * After a confirmation the head need not be the best block: two blocks of the same number stand
    * on the genesis block, the first one is the head, and the second one is confirmed.
    */
  lemma HeadFallsBehind() returns (states: seq<Snapshot>, ops: seq<Operation>)
    ensures IsRun(states, ops) && |ops| == 3 && Sound(states[0].db, states[0].past) && ops[2] == Confirm(Approval(3))
    ensures states[2].db.head == states[3].db.head == Some(2)
    ensures IsBest(states[2].db.index, 2) && !IsBest(states[3].db.index, 2)
  {
    states, ops := TwoSeconds();
    var s := states[2];
    ApproveRun(states, ops, 3);
    ApprovalLifts(s.db.index, 3);
    var t := Approved(s, 3);
    assert Better(t.db.index[3], t.db.index[2]);
    states, ops := states + [t], ops + [Confirm(Approval(3))];
    OriginSound();
  }

  lemma DropRun(states: seq<Snapshot>, ops: seq<Operation>)
    requires IsRun(states, ops)
    requires var s := states[|ops|].db; Shallow(s.index) && s.index.Keys == {1, 2} && s.current == {}
    ensures IsRun(states + [Snapshot(Start().db, states[|ops|].past)], ops + [Drop(2)])
  {
    var s := states[|ops|];
    ShallowUsable(s.db.index, {});
    assert DescendsFrom(s.db.index, 1, 2) ==> DescendsFrom(s.db.index, 0, 2);
    assert WithoutFork(s.db.index, 2) == map[1 := Origin()];
    assert Drops(s.db, 2, Start().db) by {
      assert 1 in Start().db.index;
    }
    RunSnoc(states, ops, Drop(2), Snapshot(Start().db, s.past));
  }

  lemma ApprovedSecond() returns (states: seq<Snapshot>, ops: seq<Operation>)
    ensures IsRun(states, ops) && |ops| == 2 && states[0] == Start() && ops[0] == AddBlock(Second(2, 1), false)
    ensures var s := states[2];
            && Shallow(s.db.index) && s.db.index.Keys == {1, 2} && s.db.current == {}
            && s.db.index[2].bftIrreversible == 2 && HashesFit(s.past.known, 2, 1)
  {
    var a;
    states, ops, a := OneSecond();
    var s := states[1];
    assert s.db.index == s.past.known == map[1 := Origin(), 2 := a];
    ApproveRun(states, ops, 2);
    ApprovalLifts(s.db.index, 2);
    states, ops := states + [Approved(s, 2)], ops + [Confirm(Approval(2))];
  }

  /** A number falls when its block is removed and added again: from 2 to 0. */
  lemma NumberFallsWhenAddedAgain() returns (states: seq<Snapshot>, ops: seq<Operation>)
    ensures IsRun(states, ops) && |ops| == 4 && Sound(states[0].db, states[0].past)
    ensures ops[2] == Drop(2) && ops[3] == ops[0]
    ensures 2 in states[2].db.index && 2 in states[4].db.index
    ensures states[2].db.index[2].bftIrreversible == 2 && states[4].db.index[2].bftIrreversible == 0
  {
    states, ops := ApprovedSecond();
    DropRun(states, ops);
    var s := Snapshot(Start().db, states[2].past);
    states, ops := states + [s], ops + [Drop(2)];
    var a := GrowRun(states, ops, 2, 1, 2);
    states, ops := states + [Grown(s, a, 2)], ops + [AddBlock(Second(2, 1), false)];
    OriginSound();
  }
}
