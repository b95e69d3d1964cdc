/**
  * Delegated proof of stake over whole chains: every block that is proposed as irreversible, or
  * is irreversible, was confirmed by a quorum of different producers, across schedule changes, as
  * long as no producer with a block to its name confirms a range that reaches below the chain.
  */
module Dpos {
  import opened Wrappers
  import opened ChainTypes
  import opened OrderStatistic
  import opened BlockHeader

  // ---------------------------------------------------------------------------
  // Who confirmed what, read off the headers alone
  // ---------------------------------------------------------------------------

  /** A block's confirmation of itself and of the given number of blocks before it. */
  datatype Vote = Vote(blockNum: nat, producer: AccountName, confirmed: nat)

  predicate Covers(v: Vote, number: nat) {
    v.blockNum - v.confirmed <= number <= v.blockNum
  }

  ghost function Confirmers(votes: seq<Vote>, number: nat): set<AccountName> {
    set i | 0 <= i < |votes| && Covers(votes[i], number) :: votes[i].producer
  }

  lemma ConfirmersSnoc(votes: seq<Vote>, v: Vote, number: nat)
    ensures Confirmers(votes + [v], number)
         == Confirmers(votes, number) + (if Covers(v, number) then {v.producer} else {})
  {
    var more := votes + [v];
    assert more[|votes|] == v;
    forall p | p in Confirmers(votes, number) ensures p in Confirmers(more, number) {
      var i :| 0 <= i < |votes| && Covers(votes[i], number) && votes[i].producer == p;
      assert more[i] == votes[i];
    }
  }

  /** A block has the confirmations its schedule asks for; number 0 stands for no block. */
  ghost predicate HasQuorum(votes: seq<Vote>, need: map<nat, nat>, number: nat) {
    number == 0 || (number in need && |Confirmers(votes, number)| >= need[number])
  }

  // ---------------------------------------------------------------------------
  // What every header state of a chain keeps
  // ---------------------------------------------------------------------------

  /** The block number counted at position j of the confirmation counters. */
  function NumberAt(s: HeaderState, j: int): int {
    s.blockNum - |s.confirmCount| + 1 + j
  }

  ghost predicate Bounds(s: HeaderState) {
    && 1 <= |s.active.producers| <= MAX_PRODUCERS
    && |s.pending.producers| <= MAX_PRODUCERS
    && |s.confirmCount| <= MAX_TRACKED_CONFIRMATIONS
    && s.irreversible <= s.proposedIrreversible
    && s.proposedIrreversible + |s.confirmCount| <= s.blockNum
  }

  /** Each counter is what is left of its block's quorum, and is never spent. */
  ghost predicate Counters(s: HeaderState, votes: seq<Vote>, need: map<nat, nat>)
    requires |s.confirmCount| <= s.blockNum
  {
    forall j :: 0 <= j < |s.confirmCount| ==>
      && NumberAt(s, j) in need
      && s.confirmCount[j] >= 1
      && s.confirmCount[j] + |Confirmers(votes, NumberAt(s, j))| == need[NumberAt(s, j)]
  }

  /** A producer that confirmed the block is still remembered to have produced that late, or was
      voted out and cannot return before the block is settled. */
  ghost predicate Bound(s: HeaderState, p: AccountName, number: int) {
    if p in s.lastProduced then s.lastProduced[p] >= number
    else p !in s.active.Names() && (s.pending.producers != [] ==> number <= s.pendingLibNum)
  }

  ghost predicate Remembered(s: HeaderState, votes: seq<Vote>)
    requires |s.confirmCount| <= s.blockNum
  {
    forall j, p :: 0 <= j < |s.confirmCount| && p in Confirmers(votes, NumberAt(s, j)) ==>
      Bound(s, p, NumberAt(s, j))
  }

  ghost predicate ImpliedBacked(s: HeaderState, votes: seq<Vote>, need: map<nat, nat>) {
    && HasQuorum(votes, need, s.proposedIrreversible)
    && HasQuorum(votes, need, s.irreversible)
    && forall p :: p in s.lastImplied ==>
         && s.lastImplied[p] <= s.proposedIrreversible
         && HasQuorum(votes, need, s.lastImplied[p])
  }

  ghost predicate Tracked(s: HeaderState, votes: seq<Vote>, need: map<nat, nat>) {
    && Bounds(s)
    && (forall i :: 0 <= i < |votes| ==> votes[i].blockNum <= s.blockNum)
    && Counters(s, votes, need)
    && Remembered(s, votes)
    && ImpliedBacked(s, votes, need)
  }

  // ---------------------------------------------------------------------------
  // Step 1: the template for the next block
  // ---------------------------------------------------------------------------

  lemma NoVotesYet(votes: seq<Vote>, number: nat)
    requires forall i :: 0 <= i < |votes| ==> votes[i].blockNum < number
    ensures Confirmers(votes, number) == {}
  {
  }

  /** Growing the counters keeps every counter with its block, and adds one for the new block. */
  lemma GrownPosition(s: HeaderState, t: HeaderState, q: nat, j: nat) returns (k: nat)
    requires |s.confirmCount| <= MAX_TRACKED_CONFIRMATIONS
    requires t.blockNum == s.blockNum + 1 && t.confirmCount == GrowCounts(s.confirmCount, q)
    requires q < 256 && j < |t.confirmCount|
    ensures j == |t.confirmCount| - 1 ==> NumberAt(t, j) == t.blockNum && t.confirmCount[j] == q
    ensures j < |t.confirmCount| - 1 ==>
              k < |s.confirmCount| && NumberAt(t, j) == NumberAt(s, k) && t.confirmCount[j] == s.confirmCount[k]
  {
    k := if |s.confirmCount| < MAX_TRACKED_CONFIRMATIONS then j else j + 1;
  }

  lemma TemplateCounters(s: HeaderState, t: HeaderState, votes: seq<Vote>, need: map<nat, nat>, q: nat)
    requires Bounds(s) && Counters(s, votes, need)
    requires forall i :: 0 <= i < |votes| ==> votes[i].blockNum <= s.blockNum
    requires t.blockNum == s.blockNum + 1 && t.confirmCount == GrowCounts(s.confirmCount, q)
    requires 1 <= q < 256
    ensures |t.confirmCount| <= t.blockNum && Counters(t, votes, need[t.blockNum := q])
  {
    NoVotesYet(votes, t.blockNum);
    forall j | 0 <= j < |t.confirmCount|
      ensures NumberAt(t, j) in need[t.blockNum := q] && t.confirmCount[j] >= 1
      ensures t.confirmCount[j] + |Confirmers(votes, NumberAt(t, j))| == need[t.blockNum := q][NumberAt(t, j)]
    {
      var k := GrownPosition(s, t, q, j);
    }
  }

  lemma TemplateRemembered(s: HeaderState, t: HeaderState, votes: seq<Vote>, q: nat)
    requires Bounds(s) && Remembered(s, votes)
    requires forall i :: 0 <= i < |votes| ==> votes[i].blockNum <= s.blockNum
    requires t.blockNum == s.blockNum + 1 && t.confirmCount == GrowCounts(s.confirmCount, q) && q < 256
    requires t.active == s.active && t.pending == s.pending && t.pendingLibNum == s.pendingLibNum
    requires t.lastProduced == s.lastProduced[t.producer := t.blockNum]
    ensures |t.confirmCount| <= t.blockNum && Remembered(t, votes)
  {
    NoVotesYet(votes, t.blockNum);
    forall j, p | 0 <= j < |t.confirmCount| && p in Confirmers(votes, NumberAt(t, j))
      ensures Bound(t, p, NumberAt(t, j))
    {
      var k := GrownPosition(s, t, q, j);
      assert p in Confirmers(votes, NumberAt(s, k));
    }
  }

  lemma TemplateImplied(s: HeaderState, t: HeaderState, votes: seq<Vote>, need: map<nat, nat>, q: nat)
    requires Bounds(s) && ImpliedBacked(s, votes, need)
    requires t.blockNum == s.blockNum + 1 && t.proposedIrreversible == s.proposedIrreversible
    requires t.lastImplied == s.lastImplied[t.producer := s.proposedIrreversible]
    requires t.irreversible == LastIrreversible(t.lastImplied)
    ensures ImpliedBacked(t, votes, need[t.blockNum := q])
    ensures t.irreversible <= t.proposedIrreversible
  {
    assert t.producer in t.lastImplied;
    LastIrreversibleIsImplied(t.lastImplied);
  }

  lemma TemplateKeeps(s: HeaderState, votes: seq<Vote>, need: map<nat, nat>, slot: nat)
    requires Tracked(s, votes, need)
    ensures var t := GenerateNext(s, slot);
            Tracked(t, votes, need[t.blockNum := Quorum(|s.active.producers|)])
  {
    var t := GenerateNext(s, slot);
    var q := Quorum(|s.active.producers|);
    TemplateCounters(s, t, votes, need, q);
    TemplateRemembered(s, t, votes, q);
    TemplateImplied(s, t, votes, need, q);
  }

  // ---------------------------------------------------------------------------
  // Step 2: the producer's confirmations
  // ---------------------------------------------------------------------------

  /** The producer has not yet confirmed any counted block of the range it now confirms. */
  ghost predicate FreshVote(t: HeaderState, votes: seq<Vote>, v: Vote)
    requires |t.confirmCount| <= t.blockNum
  {
    && v.blockNum == t.blockNum
    && v.producer in t.lastProduced && t.lastProduced[v.producer] == t.blockNum
    && forall j :: 0 <= j < |t.confirmCount| && Covers(v, NumberAt(t, j)) ==>
         v.producer !in Confirmers(votes, NumberAt(t, j))
  }

  lemma CoveredPositions(t: HeaderState, v: Vote, j: nat)
    requires |t.confirmCount| <= t.blockNum && j < |t.confirmCount| && v.blockNum == t.blockNum
    ensures Covers(v, NumberAt(t, j)) <==> j >= FirstTouched(t.confirmCount, v.confirmed)
  {
  }

  lemma CountAfterVote(t: HeaderState, votes: seq<Vote>, need: map<nat, nat>, v: Vote, j: nat)
    requires |t.confirmCount| <= t.blockNum && j < |t.confirmCount|
    requires Counters(t, votes, need) && FreshVote(t, votes, v)
    ensures DecrementFrom(t.confirmCount, FirstTouched(t.confirmCount, v.confirmed))[j]
          + |Confirmers(votes + [v], NumberAt(t, j))| == need[NumberAt(t, j)]
  {
    CoveredPositions(t, v, j);
    ConfirmersSnoc(votes, v, NumberAt(t, j));
  }

  /** A counter that is left after the confirmations, with the position it had before. */
  lemma LeftPosition(t: HeaderState, n: nat, j: nat) returns (k: nat)
    requires |t.confirmCount| <= t.blockNum
    requires j < |Confirmed(t, n).confirmCount|
    ensures var r := Confirmed(t, n);
            && k < |t.confirmCount| && NumberAt(r, j) == NumberAt(t, k)
            && r.confirmCount[j] == DecrementFrom(t.confirmCount, FirstTouched(t.confirmCount, n))[k]
            && (t.confirmCount[k] >= 1 ==> r.confirmCount[j] >= 1)
  {
    var lo := FirstTouched(t.confirmCount, n);
    var ready := ReadyIndex(t.confirmCount, lo, |t.confirmCount|);
    var left := DecrementFrom(t.confirmCount, lo);
    k := j + 1 + ready;
    assert left[ready + 1..][j] == left[k];
    assert left[k] == if k < lo then t.confirmCount[k] else Dec8(t.confirmCount[k]);
  }

  lemma ConfirmedCounters(t: HeaderState, votes: seq<Vote>, need: map<nat, nat>, v: Vote)
    requires Bounds(t) && Counters(t, votes, need) && FreshVote(t, votes, v)
    requires Bounds(Confirmed(t, v.confirmed))
    ensures Counters(Confirmed(t, v.confirmed), votes + [v], need)
  {
    var r := Confirmed(t, v.confirmed);
    forall j | 0 <= j < |r.confirmCount|
      ensures NumberAt(r, j) in need && r.confirmCount[j] >= 1
      ensures r.confirmCount[j] + |Confirmers(votes + [v], NumberAt(r, j))| == need[NumberAt(r, j)]
    {
      var k := LeftPosition(t, v.confirmed, j);
      CountAfterVote(t, votes, need, v, k);
    }
  }

  /** A newly proposed block is the one that just got its last confirmation. */
  lemma ConfirmedProposal(t: HeaderState, votes: seq<Vote>, need: map<nat, nat>, v: Vote)
    requires Bounds(t) && Counters(t, votes, need) && FreshVote(t, votes, v)
    ensures var r := Confirmed(t, v.confirmed);
            && Bounds(r) && r.proposedIrreversible >= t.proposedIrreversible
            && (r.proposedIrreversible != t.proposedIrreversible ==>
                  HasQuorum(votes + [v], need, r.proposedIrreversible))
  {
    var lo := FirstTouched(t.confirmCount, v.confirmed);
    var ready := ReadyIndex(t.confirmCount, lo, |t.confirmCount|);
    if ready != -1 {
      CountAfterVote(t, votes, need, v, ready);
      assert Confirmed(t, v.confirmed).proposedIrreversible == NumberAt(t, ready);
    }
  }

  lemma ConfirmedRemembered(t: HeaderState, votes: seq<Vote>, v: Vote)
    requires Bounds(t) && Remembered(t, votes) && FreshVote(t, votes, v)
    requires Bounds(Confirmed(t, v.confirmed))
    ensures Remembered(Confirmed(t, v.confirmed), votes + [v])
  {
    var r := Confirmed(t, v.confirmed);
    forall j, p | 0 <= j < |r.confirmCount| && p in Confirmers(votes + [v], NumberAt(r, j))
      ensures Bound(r, p, NumberAt(r, j))
    {
      var k := LeftPosition(t, v.confirmed, j);
      ConfirmersSnoc(votes, v, NumberAt(t, k));
      assert p == v.producer || p in Confirmers(votes, NumberAt(t, k));
    }
  }

  lemma ConfirmedKeeps(t: HeaderState, votes: seq<Vote>, need: map<nat, nat>, v: Vote)
    requires Tracked(t, votes, need) && FreshVote(t, votes, v)
    ensures Tracked(Confirmed(t, v.confirmed), votes + [v], need)
    ensures Confirmed(t, v.confirmed).proposedIrreversible >= t.proposedIrreversible
  {
    var r := Confirmed(t, v.confirmed);
    ConfirmedProposal(t, votes, need, v);
    ConfirmedCounters(t, votes, need, v);
    ConfirmedRemembered(t, votes, v);
    forall number | HasQuorum(votes, need, number) ensures HasQuorum(votes + [v], need, number) {
      ConfirmersSnoc(votes, v, number);
      SubsetSize(Confirmers(votes, number), Confirmers(votes + [v], number));
    }
  }

  // ---------------------------------------------------------------------------
  // Step 3: a pending schedule takes over, or a new one is set
  // ---------------------------------------------------------------------------

  lemma PromotedRemembered(s: HeaderState, votes: seq<Vote>)
    requires Bounds(s) && Remembered(s, votes) && Promotes(s)
    requires s.producer in s.lastProduced && s.lastProduced[s.producer] == s.blockNum
    ensures Remembered(Promoted(s), votes)
  {
    var r := Promoted(s);
    forall j, p | 0 <= j < |r.confirmCount| && p in Confirmers(votes, NumberAt(r, j))
      ensures Bound(r, p, NumberAt(r, j))
    {
      assert NumberAt(r, j) == NumberAt(s, j) > s.proposedIrreversible;
      assert p in Confirmers(votes, NumberAt(s, j));
    }
  }

  lemma PromotedKeeps(s: HeaderState, votes: seq<Vote>, need: map<nat, nat>)
    requires Tracked(s, votes, need)
    requires s.producer in s.lastProduced && s.lastProduced[s.producer] == s.blockNum
    ensures Tracked(Promoted(s), votes, need)
  {
    if Promotes(s) {
      PromotedRemembered(s, votes);
      var r := Promoted(s);
      forall j | 0 <= j < |r.confirmCount| ensures NumberAt(r, j) == NumberAt(s, j) {
      }
    }
  }

  lemma NewProducersKeep(s: HeaderState, votes: seq<Vote>, need: map<nat, nat>, pending: Schedule)
    requires Tracked(s, votes, need) && |pending.producers| <= MAX_PRODUCERS
    requires WithNewProducers(s, pending).Success?
    ensures Tracked(WithNewProducers(s, pending).value, votes, need)
  {
    var r := WithNewProducers(s, pending).value;
    forall j | 0 <= j < |r.confirmCount| ensures NumberAt(r, j) == NumberAt(s, j) {
    }
  }

  lemma RenamedKeeps(s: HeaderState, votes: seq<Vote>, need: map<nat, nat>, id: BlockId)
    requires Tracked(s, votes, need)
    ensures Tracked(s.(id := id), votes, need)
  {
    var r := s.(id := id);
    forall j | 0 <= j < |r.confirmCount| ensures NumberAt(r, j) == NumberAt(s, j) {
    }
    forall j, p | 0 <= j < |r.confirmCount| && p in Confirmers(votes, NumberAt(r, j))
      ensures Bound(r, p, NumberAt(r, j))
    {
      assert Bound(s, p, NumberAt(s, j));
    }
  }

  // ---------------------------------------------------------------------------
  // The whole transition
  // ---------------------------------------------------------------------------

  /** The range a header confirms does not reach below block number 0. */
  predicate WithinChain(s: HeaderState, h: Header) {
    h.confirmed <= s.blockNum + 1
  }

  /** The range stays within the chain where it matters: for a producer with a block to its name. */
  predicate RangeWithin(s: HeaderState, h: Header) {
    h.producer in s.lastProduced ==> WithinChain(s, h)
  }

  predicate ScheduleFits(h: Header) {
    h.newProducers.Some? ==> |h.newProducers.value.producers| <= MAX_PRODUCERS
  }

  function VoteOf(s: HeaderState, h: Header): Vote {
    Vote(s.blockNum + 1, h.producer, h.confirmed)
  }

  lemma AcceptedVoteIsFresh(s: HeaderState, votes: seq<Vote>, need: map<nat, nat>, h: Header)
    requires Tracked(s, votes, need) && RangeWithin(s, h)
    requires GenerateNext(s, h.slot).producer == h.producer && !DoubleConfirms(s, h)
    ensures var t := GenerateNext(s, h.slot);
            |t.confirmCount| <= t.blockNum && FreshVote(t, votes, VoteOf(s, h))
  {
    var t, v, q := GenerateNext(s, h.slot), VoteOf(s, h), Quorum(|s.active.producers|);
    NoVotesYet(votes, t.blockNum);
    forall j | 0 <= j < |t.confirmCount| && Covers(v, NumberAt(t, j))
      ensures v.producer !in Confirmers(votes, NumberAt(t, j))
    {
      var k := GrownPosition(s, t, q, j);
    }
  }

  lemma ConfirmStage(s: HeaderState, votes: seq<Vote>, need: map<nat, nat>, h: Header)
    requires Tracked(s, votes, need) && RangeWithin(s, h)
    requires GenerateNext(s, h.slot).producer == h.producer && !DoubleConfirms(s, h)
    ensures var c := Confirmed(GenerateNext(s, h.slot), h.confirmed);
            && Tracked(c, votes + [VoteOf(s, h)], need[s.blockNum + 1 := Quorum(|s.active.producers|)])
            && c.producer in c.lastProduced && c.lastProduced[c.producer] == c.blockNum
            && c.proposedIrreversible >= s.proposedIrreversible
  {
    var t, need' := GenerateNext(s, h.slot), need[s.blockNum + 1 := Quorum(|s.active.producers|)];
    assert Tracked(t, votes, need') by { TemplateKeeps(s, votes, need, h.slot); }
    assert FreshVote(t, votes, VoteOf(s, h)) by { AcceptedVoteIsFresh(s, votes, need, h); }
    ConfirmedKeeps(t, votes, need', VoteOf(s, h));
  }

  function WithSchedule(c: HeaderState, h: Header): Result<HeaderState, HeaderError> {
    if h.newProducers.Some? then WithNewProducers(Promoted(c), h.newProducers.value) else Success(Promoted(c))
  }

  lemma ScheduleStage(c: HeaderState, votes: seq<Vote>, need: map<nat, nat>, h: Header)
    requires Tracked(c, votes, need) && ScheduleFits(h) && WithSchedule(c, h).Success?
    requires c.producer in c.lastProduced && c.lastProduced[c.producer] == c.blockNum
    ensures Tracked(WithSchedule(c, h).value.(id := h.id), votes, need)
    ensures WithSchedule(c, h).value.proposedIrreversible == c.proposedIrreversible
  {
    PromotedKeeps(c, votes, need);
    if h.newProducers.Some? {
      NewProducersKeep(Promoted(c), votes, need, h.newProducers.value);
    }
    RenamedKeeps(WithSchedule(c, h).value, votes, need, h.id);
  }

  /** An accepted header goes through the three stages. */
  lemma AcceptedStages(s: HeaderState, h: Header, trust: bool)
    requires s.active.producers != [] && Next(s, h, trust).Success?
    ensures GenerateNext(s, h.slot).producer == h.producer && !DoubleConfirms(s, h)
    ensures var c := Confirmed(GenerateNext(s, h.slot), h.confirmed);
            WithSchedule(c, h).Success? && Next(s, h, trust).value == WithSchedule(c, h).value.(id := h.id)
  {
  }

  /** One accepted block, its range within the chain, keeps everything, whatever schedule changes it carries. */
  lemma NextKeeps(s: HeaderState, votes: seq<Vote>, need: map<nat, nat>, h: Header, trust: bool)
    requires Tracked(s, votes, need) && RangeWithin(s, h) && ScheduleFits(h)
    requires Next(s, h, trust).Success?
    ensures Tracked(Next(s, h, trust).value, votes + [VoteOf(s, h)],
                    need[s.blockNum + 1 := Quorum(|s.active.producers|)])
    ensures Next(s, h, trust).value.proposedIrreversible >= s.proposedIrreversible
  {
    AcceptedStages(s, h, trust);
    ConfirmStage(s, votes, need, h);
    ScheduleStage(Confirmed(GenerateNext(s, h.slot), h.confirmed), votes + [VoteOf(s, h)],
                  need[s.blockNum + 1 := Quorum(|s.active.producers|)], h);
  }

  /** The check against double confirmation does its work exactly for ranges within the chain:
      the 32-bit subtraction wraps for a longer one, and the range then contains the block the
      producer made last. */
  lemma RangeCheckExact(s: HeaderState, h: Header)
    requires h.producer in s.lastProduced && s.lastProduced[h.producer] <= s.blockNum
    requires !DoubleConfirms(s, h)
    ensures !Covers(VoteOf(s, h), s.lastProduced[h.producer]) <==> WithinChain(s, h)
  {
  }

  // ---------------------------------------------------------------------------
  // Whole chains
  // ---------------------------------------------------------------------------

  datatype Chain =
    | Genesis(state: HeaderState)
    | Link(state: HeaderState, parent: Chain, header: Header, trust: bool)

  /** The state a new chain starts from: one schedule, active and pending at once, no history. */
  ghost predicate IsGenesis(s: HeaderState) {
    && s.blockNum == 1
    && s.proposedIrreversible == s.irreversible == s.bftIrreversible == s.pendingLibNum == 0
    && s.pending == s.active && 1 <= |s.active.producers| <= MAX_PRODUCERS
    && s.lastProduced == map[] && s.lastImplied == map[]
    && s.confirmCount == [] && s.confirmations == []
  }

  ghost predicate ValidChain(c: Chain) {
    match c
    case Genesis(s) => IsGenesis(s)
    case Link(s, parent, h, trust) =>
      && ValidChain(parent)
      && parent.state.active.producers != []
      && Next(parent.state, h, trust) == Success(s)
      && ScheduleFits(h)
  }

  ghost predicate RangesWithinChain(c: Chain) {
    c.Link? ==> RangesWithinChain(c.parent) && RangeWithin(c.parent.state, c.header)
  }

  /** The confirmations the headers of a chain carry. */
  function Votes(c: Chain): seq<Vote> {
    if c.Genesis? then [] else Votes(c.parent) + [VoteOf(c.parent.state, c.header)]
  }

  /** The quorum each block asks for: two thirds of the schedule it was made under, and one. */
  function Need(c: Chain): map<nat, nat> {
    if c.Genesis? then map[]
    else Need(c.parent)[c.parent.state.blockNum + 1 := Quorum(|c.parent.state.active.producers|)]
  }

  /** The header a scheduled producer signs for a slot on top of a state. */
  function HonestHeader(s: HeaderState, slot: nat, confirmed: nat, id: BlockId): Header
    requires s.active.producers != []
  {
    var key := ScheduledProducer(s.active, slot);
    Header(id, s.id, slot, key.producerName, confirmed, s.active.version, None, 0, key.signingKey)
  }

  lemma HonestHeaderAccepted(s: HeaderState, slot: nat, confirmed: nat, id: BlockId)
    requires s.active.producers != [] && slot > s.slot
    requires var p := ScheduledProducer(s.active, slot).producerName;
             p in s.lastProduced ==> s.lastProduced[p] + confirmed < s.blockNum + 1
    ensures Next(s, HonestHeader(s, slot, confirmed, id), false).Success?
  {
    var h := HonestHeader(s, slot, confirmed, id);
    var t := GenerateNext(s, slot);
    assert !DoubleConfirms(s, h);
    assert Confirmed(t, confirmed).signingKey == h.signer;
    assert Promoted(Confirmed(t, confirmed)).signingKey == h.signer;
  }

  /**
    * Every chain goes on: the scheduled producer of any later slot is accepted, signature checked,
    * when the range it confirms stays above the last block it made.
    */
  lemma HonestBlockAccepted(c: Chain, slot: nat, confirmed: nat, id: BlockId)
    requires ValidChain(c) && RangesWithinChain(c) && slot > c.state.slot && c.state.active.producers != []
    requires var p := ScheduledProducer(c.state.active, slot).producerName;
             p in c.state.lastProduced ==> c.state.lastProduced[p] + confirmed < c.state.blockNum + 1
    ensures var h := HonestHeader(c.state, slot, confirmed, id);
            && Next(c.state, h, false).Success?
            && ValidChain(Link(Next(c.state, h, false).value, c, h, false))
            && RangesWithinChain(Link(Next(c.state, h, false).value, c, h, false))
  {
    HonestHeaderAccepted(c.state, slot, confirmed, id);
    Extends(c, HonestHeader(c.state, slot, confirmed, id), Next(c.state, HonestHeader(c.state, slot, confirmed, id), false).value);
  }

  lemma Extends(c: Chain, h: Header, s: HeaderState)
    requires ValidChain(c) && RangesWithinChain(c) && c.state.active.producers != []
    requires Next(c.state, h, false) == Success(s) && ScheduleFits(h) && RangeWithin(c.state, h)
    ensures ValidChain(Link(s, c, h, false)) && RangesWithinChain(Link(s, c, h, false))
  {
  }

  lemma {:induction false} ChainTracked(c: Chain)
    requires ValidChain(c) && RangesWithinChain(c)
    ensures Tracked(c.state, Votes(c), Need(c))
  {
    if c.Link? {
      ChainTracked(c.parent);
      LinkTracked(c);
    } else {
      GenesisTracked(c.state);
    }
  }

  lemma GenesisTracked(s: HeaderState)
    requires IsGenesis(s)
    ensures Tracked(s, [], map[])
  {
  }

  lemma LinkTracked(c: Chain)
    requires c.Link? && ValidChain(c) && RangesWithinChain(c)
    requires Tracked(c.parent.state, Votes(c.parent), Need(c.parent))
    ensures Tracked(c.state, Votes(c), Need(c))
  {
    NextKeeps(c.parent.state, Votes(c.parent), Need(c.parent), c.header, c.trust);
  }

  /** On every chain whose ranges stay within it, the proposed and the irreversible block each have
      the confirmations of a quorum of different producers. */
  lemma IrreversibleHasQuorum(c: Chain)
    requires ValidChain(c) && RangesWithinChain(c)
    ensures HasQuorum(Votes(c), Need(c), c.state.proposedIrreversible)
    ensures HasQuorum(Votes(c), Need(c), c.state.irreversible)
    ensures c.state.irreversible <= c.state.proposedIrreversible <= c.state.blockNum
  {
    ChainTracked(c);
  }

  /** The 8-bit counters never run below zero: what a counter holds is what its block still needs. */
  lemma CounterMeaning(c: Chain, j: nat)
    requires ValidChain(c) && RangesWithinChain(c) && j < |c.state.confirmCount|
    ensures var number := NumberAt(c.state, j);
            && 0 < number && number in Need(c)
            && 1 <= c.state.confirmCount[j] == Need(c)[number] - |Confirmers(Votes(c), number)|
  {
    ChainTracked(c);
  }

  /** The proposed number never falls from one block to the next. */
  lemma ProposedNeverFalls(c: Chain)
    requires ValidChain(c) && RangesWithinChain(c) && c.Link?
    ensures c.parent.state.proposedIrreversible <= c.state.proposedIrreversible
  {
    ChainTracked(c.parent);
    NextKeeps(c.parent.state, Votes(c.parent), Need(c.parent), c.header, c.trust);
  }

  // ---------------------------------------------------------------------------
  // When the irreversible number can fall
  // ---------------------------------------------------------------------------

  /** A block's number stays at its parent's level exactly when two thirds of the producers counted
      for it imply that level. */
  lemma IrreversibleStaysIff(s: HeaderState, slot: nat)
    requires s.active.producers != []
    ensures var implied := GenerateNext(s, slot).lastImplied;
            (GenerateNext(s, slot).irreversible >= s.irreversible) <==>
            (Backing(implied, s.irreversible) >= Supermajority(|implied|))
  {
    var implied := GenerateNext(s, slot).lastImplied;
    assert GenerateNext(s, slot).producer in implied;
    ReachesIffBacked(implied, s.irreversible);
  }

  lemma RaisedEntry(implied: map<AccountName, nat>, p: AccountName, v: nat)
    requires implied != map[] && forall q :: q in implied ==> implied[q] <= v
    ensures LastIrreversible(implied[p := v]) >= LastIrreversible(implied)
  {
    var level, raised := LastIrreversible(implied), implied[p := v];
    LastIrreversibleIsImplied(implied);
    assert level <= v;
    ReachesIffBacked(implied, level);
    var before, after := Backers(implied, level), Backers(raised, level);
    if p in implied {
      assert raised.Keys == implied.Keys;
      assert |raised| == |raised.Keys| == |implied|;
      SubsetSize(before, after);
    } else {
      assert raised.Keys == implied.Keys + {p};
      assert |raised| == |raised.Keys| == |implied| + 1;
      SubsetSize(before + {p}, after);
    }
    assert p in raised;
    ReachesIffBacked(raised, level);
  }

  /** A block that no schedule took over in. */
  ghost predicate KeepsSchedule(c: Chain)
    requires ValidChain(c)
  {
    c.Genesis? || !Promotes(Confirmed(GenerateNext(c.parent.state, c.header.slot), c.header.confirmed))
  }

  lemma LevelOfKeptSchedule(c: Chain)
    requires ValidChain(c) && c.Link? && KeepsSchedule(c)
    ensures c.state.irreversible == LastIrreversible(c.state.lastImplied) && c.state.lastImplied != map[]
  {
    AcceptedStages(c.parent.state, c.header, c.trust);
    assert c.header.producer in GenerateNext(c.parent.state, c.header.slot).lastImplied;
  }

  lemma LevelOfLink(c: Chain)
    requires ValidChain(c) && c.Link?
    ensures var s := c.parent.state;
            c.state.irreversible == LastIrreversible(s.lastImplied[c.header.producer := s.proposedIrreversible])
  {
    AcceptedStages(c.parent.state, c.header, c.trust);
  }

  lemma ImpliedBelowProposed(c: Chain)
    requires ValidChain(c) && RangesWithinChain(c)
    ensures forall q :: q in c.state.lastImplied ==> c.state.lastImplied[q] <= c.state.proposedIrreversible
  {
    ChainTracked(c);
  }

  /** The irreversible number does not fall after a block that kept its schedule. */
  lemma IrreversibleNeverFalls(c: Chain)
    requires ValidChain(c) && RangesWithinChain(c) && c.Link?
    requires KeepsSchedule(c.parent)
    ensures c.parent.state.irreversible <= c.state.irreversible
  {
    if c.parent.Link? {
      var s := c.parent.state;
      LevelOfLink(c);
      LevelOfKeptSchedule(c.parent);
      ImpliedBelowProposed(c.parent);
      RaisedEntry(s.lastImplied, c.header.producer, s.proposedIrreversible);
    }
  }
}
