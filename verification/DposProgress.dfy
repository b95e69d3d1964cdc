/**
  * Progress of delegated proof of stake: while producers confirm back to their last block, a block
  * becomes irreversible once a quorum has built on it and a quorum has built on that.
  */
module DposProgress {
  import opened Wrappers
  import opened ChainTypes
  import opened OrderStatistic
  import opened BlockHeader
  import opened Dpos
  import opened BftSafety
  import opened Rotation
  import opened Words

  // ---------------------------------------------------------------------------
  // Links of a chain
  // ---------------------------------------------------------------------------

  /** A valid chain whose ranges stay within it; the quantifier keeps its links out of sight. */
  ghost predicate Regular(c: Chain) {
    forall d :: d == c ==> ValidChain(d) && RangesWithinChain(d)
  }

  /** The producer's own last block, or the given number where that is higher. */
  function LastOwn(s: HeaderState, p: AccountName, low: nat): nat {
    if p in s.lastProduced && s.lastProduced[p] > low then s.lastProduced[p] else low
  }

  /** Of the blocks above the given number, the range takes in every one since the producer's own last block. */
  predicate ConfirmsBack(s: HeaderState, h: Header, low: nat) {
    s.blockNum - h.confirmed <= LastOwn(s, h.producer, low)
  }

  /** The state after the producer's confirmations, before any schedule change. */
  ghost function Middle(c: Chain): HeaderState
    requires c.Link? && c.parent.state.active.producers != []
  {
    Confirmed(GenerateNext(c.parent.state, c.header.slot), c.header.confirmed)
  }

  /** No schedule takes over in this block. */
  ghost predicate NoTakeover(c: Chain)
    requires c.Link? && c.parent.state.active.producers != []
  {
    forall t :: t == Middle(c) ==> !Promotes(t)
  }

  lemma MiddleFields(s: HeaderState, slot: nat, n: nat)
    requires s.active.producers != []
    ensures var (t, p) := (Confirmed(GenerateNext(s, slot), n), GenerateNext(s, slot).producer);
            && t.blockNum == s.blockNum + 1 && t.active == s.active && t.pending == s.pending
            && t.pendingLibNum == s.pendingLibNum
            && t.lastProduced == s.lastProduced[p := t.blockNum]
            && t.lastImplied == s.lastImplied[p := s.proposedIrreversible]
            && t.irreversible == LastIrreversible(t.lastImplied)
  {
  }

  lemma LinkStages(c: Chain)
    requires ValidChain(c) && c.Link?
    ensures GenerateNext(c.parent.state, c.header.slot).producer == c.header.producer
    ensures WithSchedule(Middle(c), c.header).Success?
    ensures c.state == WithSchedule(Middle(c), c.header).value.(id := c.header.id)
  {
    AcceptedStages(c.parent.state, c.header, c.trust);
  }

  lemma ScheduleLeaves(t: HeaderState, h: Header)
    requires WithSchedule(t, h).Success?
    ensures var r := WithSchedule(t, h).value;
            && r.blockNum == t.blockNum && r.irreversible == t.irreversible && r.confirmCount == t.confirmCount
            && r.proposedIrreversible == t.proposedIrreversible
            && (!Promotes(t) ==>
                  r.active == t.active && r.lastProduced == t.lastProduced && r.lastImplied == t.lastImplied)
            && (Promotes(t) ==> r.lastImplied.Keys == r.active.Names())
  {
  }

  lemma LinkIs(c: Chain)
    requires ValidChain(c) && c.Link?
    ensures c.state.blockNum == c.parent.state.blockNum + 1 && c.state.irreversible == Middle(c).irreversible
    ensures c.state.confirmCount == Middle(c).confirmCount
    ensures c.state.proposedIrreversible == Middle(c).proposedIrreversible
  {
    LinkStages(c);
    MiddleFields(c.parent.state, c.header.slot, c.header.confirmed);
    ScheduleLeaves(Middle(c), c.header);
  }

  lemma ParentRegular(c: Chain)
    requires Regular(c) && c.Link?
    ensures Regular(c.parent) && c.parent.state.active.producers != []
    ensures c.state.blockNum == c.parent.state.blockNum + 1
  {
    assert ValidChain(c);
    LinkIs(c);
  }

  lemma FirstNumber(c: Chain)
    requires Regular(c) && c.Genesis?
    ensures c.state.blockNum == 1
  {
    assert ValidChain(c);
  }

  /** What a block without a takeover does to its parent's state. */
  lemma KeptLink(c: Chain)
    requires Regular(c) && c.Link? && c.parent.state.active.producers != [] && NoTakeover(c)
    ensures var (s, t) := (c.parent.state, c.state);
            && t.active == s.active
            && t.lastProduced == s.lastProduced[c.header.producer := s.blockNum + 1]
            && t.lastImplied == s.lastImplied[c.header.producer := s.proposedIrreversible]
            && t.irreversible == LastIrreversible(t.lastImplied)
  {
    assert ValidChain(c);
    LinkStages(c);
    MiddleFields(c.parent.state, c.header.slot, c.header.confirmed);
    ScheduleLeaves(Middle(c), c.header);
  }

  lemma BoundsOf(c: Chain)
    requires Regular(c)
    ensures Bounds(c.state)
  {
    assert ValidChain(c);
    ChainTracked(c);
  }

  lemma ProposedGrows(c: Chain)
    requires Regular(c) && c.Link?
    ensures c.parent.state.proposedIrreversible <= c.state.proposedIrreversible
  {
    assert ValidChain(c);
    ProposedNeverFalls(c);
  }

  // ---------------------------------------------------------------------------
  // Stretches of a chain
  // ---------------------------------------------------------------------------

  /** Above the given number no schedule took over and every producer confirmed back to its last block. */
  ghost predicate Steady(c: Chain, low: nat) {
    c.Link? && c.state.blockNum > low ==>
      c.parent.state.active.producers != [] && NoTakeover(c) && ConfirmsBack(c.parent.state, c.header, low)
      && Steady(c.parent, low)
  }

  /** The producers of the blocks above the given number. */
  function Makers(c: Chain, low: nat): set<AccountName> {
    if c.Genesis? || c.state.blockNum <= low then {} else Makers(c.parent, low) + {c.header.producer}
  }

  /** The chain up to the block with the given number. */
  function UpTo(c: Chain, number: nat): Chain {
    if c.Genesis? || c.state.blockNum <= number then c else UpTo(c.parent, number)
  }

  // ---------------------------------------------------------------------------
  // Those who built on a block confirmed it
  // ---------------------------------------------------------------------------

  ghost predicate ProducedUpTo(s: HeaderState) {
    s.irreversible <= s.blockNum && forall p :: p in s.lastProduced ==> s.lastProduced[p] <= s.blockNum
  }

  lemma ScheduleProduced(t: HeaderState, h: Header)
    requires ProducedUpTo(t) && WithSchedule(t, h).Success?
    ensures ProducedUpTo(WithSchedule(t, h).value)
  {
  }

  lemma LinkProduced(c: Chain)
    requires ValidChain(c) && c.Link? && ProducedUpTo(c.parent.state) && c.state.irreversible <= c.state.blockNum
    ensures ProducedUpTo(c.state)
  {
    LinkStages(c);
    MiddleFields(c.parent.state, c.header.slot, c.header.confirmed);
    ScheduleLeaves(Middle(c), c.header);
    ScheduleProduced(Middle(c), c.header);
  }

  lemma {:induction false} ProducedBefore(c: Chain)
    requires Regular(c)
    ensures ProducedUpTo(c.state)
    decreases c
  {
    BoundsOf(c);
    assert ValidChain(c);
    if c.Link? {
      ParentRegular(c);
      ProducedBefore(c.parent);
      LinkProduced(c);
    }
  }

  /** Who made no block above a number made its last one at or below it. */
  lemma {:induction false} IdleAbove(c: Chain, low: nat, p: AccountName)
    requires Regular(c) && Steady(c, low) && low >= 1 && p in c.state.lastProduced && p !in Makers(c, low)
    ensures c.state.lastProduced[p] <= low
    decreases c
  {
    if c.Link? && c.state.blockNum > low {
      ParentRegular(c);
      KeptLink(c);
      IdleAbove(c.parent, low, p);
    } else {
      ProducedBefore(c);
      if c.Genesis? {
        FirstNumber(c);
      }
    }
  }

  lemma RangeCovers(s: HeaderState, h: Header, low: nat)
    requires ConfirmsBack(s, h, low) && low <= s.blockNum
    requires h.producer in s.lastProduced ==> s.lastProduced[h.producer] <= low
    ensures Covers(VoteOf(s, h), low + 1)
  {
  }

  lemma NewMakerConfirms(c: Chain, low: nat)
    requires Regular(c) && c.Link? && Steady(c, low) && 1 <= low < c.state.blockNum
    requires c.header.producer !in Makers(c.parent, low)
    ensures Covers(VoteOf(c.parent.state, c.header), low + 1)
  {
    ParentRegular(c);
    if c.header.producer in c.parent.state.lastProduced {
      IdleAbove(c.parent, low, c.header.producer);
    }
    RangeCovers(c.parent.state, c.header, low);
  }

  /** The producers of the blocks above a number have all confirmed the first of these blocks. */
  lemma {:induction false} MakersConfirm(c: Chain, low: nat)
    requires Regular(c) && Steady(c, low) && low >= 1
    ensures Makers(c, low) <= Confirmers(Votes(c), low + 1)
    decreases c
  {
    if c.Link? && c.state.blockNum > low {
      ParentRegular(c);
      MakersConfirm(c.parent, low);
      ConfirmersSnoc(Votes(c.parent), VoteOf(c.parent.state, c.header), low + 1);
      if c.header.producer !in Makers(c.parent, low) {
        NewMakerConfirms(c, low);
      }
    }
  }

  // ---------------------------------------------------------------------------
  // A quorum of them gets the block proposed
  // ---------------------------------------------------------------------------

  /** Block b is still counted, or it or a later one is proposed. */
  ghost predicate Counted(s: HeaderState, b: nat) {
    s.proposedIrreversible >= b || |s.confirmCount| >= s.blockNum + 1 - b
  }

  lemma ConfirmedCounted(t: HeaderState, n: nat, b: nat)
    requires |t.confirmCount| <= t.blockNum && |t.confirmCount| >= t.blockNum + 1 - b
    ensures Counted(Confirmed(t, n), b)
  {
    var ready := ReadyIndex(t.confirmCount, FirstTouched(t.confirmCount, n), |t.confirmCount|);
    if ready != -1 {
      assert Confirmed(t, n).proposedIrreversible == t.blockNum - (|t.confirmCount| - 1 - ready);
    }
  }

  lemma GrownCounted(s: HeaderState, slot: nat, b: nat)
    requires s.active.producers != [] && Bounds(s) && |s.confirmCount| >= s.blockNum + 1 - b
    requires s.blockNum + 2 - b <= MAX_TRACKED_CONFIRMATIONS
    ensures var t := GenerateNext(s, slot);
            |t.confirmCount| <= t.blockNum && |t.confirmCount| >= t.blockNum + 1 - b
  {
  }

  lemma MiddleCounted(c: Chain, b: nat)
    requires ValidChain(c) && c.Link? && Bounds(c.parent.state)
    requires |c.parent.state.confirmCount| >= c.parent.state.blockNum + 1 - b
    requires c.parent.state.blockNum + 2 - b <= MAX_TRACKED_CONFIRMATIONS
    ensures Counted(c.state, b)
  {
    GrownCounted(c.parent.state, c.header.slot, b);
    ConfirmedCounted(GenerateNext(c.parent.state, c.header.slot), c.header.confirmed, b);
    MiddleFields(c.parent.state, c.header.slot, c.header.confirmed);
    LinkIs(c);
  }

  lemma LinkCounted(c: Chain, b: nat)
    requires Regular(c) && c.Link? && Counted(c.parent.state, b)
    requires c.parent.state.blockNum + 2 - b <= MAX_TRACKED_CONFIRMATIONS
    ensures Counted(c.state, b)
  {
    ParentRegular(c);
    if c.parent.state.proposedIrreversible >= b {
      ProposedGrows(c);
    } else {
      BoundsOf(c.parent);
      assert ValidChain(c);
      MiddleCounted(c, b);
    }
  }

  lemma {:induction false} StaysCounted(c: Chain, b: nat)
    requires Regular(c) && c.state.blockNum + 1 >= b && b >= 2
    requires c.state.blockNum + 1 - b <= MAX_TRACKED_CONFIRMATIONS
    ensures Counted(c.state, b)
    decreases c
  {
    if c.state.blockNum >= b {
      if c.Genesis? {
        FirstNumber(c);
      } else {
        ParentRegular(c);
        StaysCounted(c.parent, b);
        LinkCounted(c, b);
      }
    }
  }

  lemma {:induction false} NeedOf(c: Chain, low: nat)
    requires Regular(c) && 1 <= low < c.state.blockNum && Steady(c, low)
    ensures low + 1 in Need(c) && Need(c)[low + 1] == Quorum(|c.state.active.producers|)
    decreases c
  {
    if c.Genesis? {
      FirstNumber(c);
    } else {
      ParentRegular(c);
      KeptLink(c);
      if c.parent.state.blockNum > low {
        NeedOf(c.parent, low);
      }
    }
  }

  /** A block that is still counted has no quorum yet. */
  lemma CountedHasNoQuorum(c: Chain, b: nat)
    requires Regular(c) && 2 <= b <= c.state.blockNum && |c.state.confirmCount| >= c.state.blockNum + 1 - b
    ensures b in Need(c) && |Confirmers(Votes(c), b)| < Need(c)[b]
  {
    var j := |c.state.confirmCount| - (c.state.blockNum + 1 - b);
    assert NumberAt(c.state, j) == b;
    assert ValidChain(c);
    CounterMeaning(c, j);
  }

  lemma MakersReachNeed(c: Chain, low: nat)
    requires Regular(c) && 1 <= low < c.state.blockNum && Steady(c, low)
    requires |Makers(c, low)| >= Quorum(|c.state.active.producers|)
    ensures low + 1 in Need(c) && |Confirmers(Votes(c), low + 1)| >= Need(c)[low + 1]
  {
    NeedOf(c, low);
    MakersConfirm(c, low);
    SubsetSize(Makers(c, low), Confirmers(Votes(c), low + 1));
  }

  /** Once a quorum has made blocks above a number, within the counters' reach, one of these is proposed. */
  lemma QuorumProposes(c: Chain, low: nat)
    requires Regular(c) && 1 <= low < c.state.blockNum && Steady(c, low)
    requires c.state.blockNum - low <= MAX_TRACKED_CONFIRMATIONS
    requires |Makers(c, low)| >= Quorum(|c.state.active.producers|)
    ensures c.state.proposedIrreversible > low
  {
    StaysCounted(c, low + 1);
    MakersReachNeed(c, low);
    if c.state.proposedIrreversible <= low {
      CountedHasNoQuorum(c, low + 1);
    }
  }

  // ---------------------------------------------------------------------------
  // A quorum on top of the proposal makes it irreversible
  // ---------------------------------------------------------------------------

  lemma LinkImplied(c: Chain)
    requires ValidChain(c) && c.Link?
    requires c.parent.Link? ==> c.parent.state.lastImplied.Keys == c.parent.state.active.Names()
    ensures c.state.lastImplied.Keys == c.state.active.Names()
  {
    LinkStages(c);
    MiddleFields(c.parent.state, c.header.slot, c.header.confirmed);
    ScheduleLeaves(Middle(c), c.header);
    if c.parent.Genesis? {
      assert Promotes(Middle(c));
    }
  }

  /** After the first block the implied numbers are those of the active producers. */
  lemma {:induction false} ImpliedAreActive(c: Chain)
    requires Regular(c) && c.Link?
    ensures c.state.lastImplied.Keys == c.state.active.Names()
    decreases c
  {
    ParentRegular(c);
    if c.parent.Link? {
      ImpliedAreActive(c.parent);
    }
    assert ValidChain(c);
    LinkImplied(c);
  }

  /** Those who built on the proposal imply it. */
  lemma {:induction false} MakersImply(c: Chain, low: nat, b: nat)
    requires Regular(c) && Steady(c, low) && UpTo(c, low).state.proposedIrreversible >= b
    ensures c.state.proposedIrreversible >= b
    ensures Makers(c, low) <= Backers(c.state.lastImplied, b)
    decreases c
  {
    if c.Link? && c.state.blockNum > low {
      ParentRegular(c);
      KeptLink(c);
      MakersImply(c.parent, low, b);
      ProposedGrows(c);
    }
  }

  /** The two thresholds of the two stages agree. */
  lemma QuorumIsSupermajority(n: nat, k: nat)
    requires k <= n
    ensures Supermajority(k) <= Supermajority(n) && (n > 0 ==> Supermajority(n) == Quorum(n))
  {
  }

  lemma BackedReach(implied: map<AccountName, nat>, active: Schedule, makers: set<AccountName>, b: nat)
    requires implied != map[] && implied.Keys == active.Names() && makers <= Backers(implied, b)
    requires |makers| >= Quorum(|active.producers|)
    ensures LastIrreversible(implied) >= b
  {
    SubsetSize(makers, Backers(implied, b));
    NamesCount(active.producers, |active.producers|);
    assert active.Names() == PrefixNames(active.producers, |active.producers|);
    assert |implied| == |implied.Keys|;
    QuorumIsSupermajority(|active.producers|, |implied|);
    ReachesIffBacked(implied, b);
  }

  lemma QuorumDecides(c: Chain, low: nat, b: nat)
    requires Regular(c) && Steady(c, low) && 1 <= low < c.state.blockNum
    requires UpTo(c, low).state.proposedIrreversible >= b
    requires |Makers(c, low)| >= Quorum(|c.state.active.producers|)
    ensures c.state.irreversible >= b
  {
    if c.Genesis? {
      FirstNumber(c);
    } else {
      ParentRegular(c);
      KeptLink(c);
      MakersImply(c, low, b);
      ImpliedAreActive(c);
      assert c.header.producer in c.state.lastImplied;
      BackedReach(c.state.lastImplied, c.state.active, Makers(c, low), b);
    }
  }

  // ---------------------------------------------------------------------------
  // Both together
  // ---------------------------------------------------------------------------

  /** An earlier stage of the chain. */
  predicate StageOf(c: Chain, d: Chain) {
    1 <= d.state.blockNum < c.state.blockNum && d == UpTo(c, d.state.blockNum)
  }

  lemma {:induction false} StageKeeps(c: Chain, number: nat, low: nat)
    requires Regular(c) && Steady(c, low) && low <= number
    ensures var d := UpTo(c, number);
            Regular(d) && Steady(d, low) && Steady(c, number) && d.state.active == c.state.active
    decreases c
  {
    if c.Link? && c.state.blockNum > number {
      ParentRegular(c);
      KeptLink(c);
      StageKeeps(c.parent, number, low);
    }
  }

  /**
    * A block is irreversible once a quorum of the producers has made blocks from it on, up to some
    * stage of the chain within the reach of the counters, and a quorum has made blocks after that.
    * The block is the one after number low, and what is below it is irreversible with it.
    */
  lemma Progress(c: Chain, d: Chain, low: nat)
    requires ValidChain(c) && RangesWithinChain(c) && Steady(c, low)
    requires StageOf(c, d) && 1 <= low < d.state.blockNum <= low + MAX_TRACKED_CONFIRMATIONS
    requires |Makers(d, low)| >= Quorum(|c.state.active.producers|)
    requires |Makers(c, d.state.blockNum)| >= Quorum(|c.state.active.producers|)
    ensures c.state.irreversible > low
  {
    assert Regular(c);
    TwoQuorums(c, d, low);
  }

  lemma TwoQuorums(c: Chain, d: Chain, low: nat)
    requires Regular(c) && Steady(c, low)
    requires StageOf(c, d) && 1 <= low < d.state.blockNum <= low + MAX_TRACKED_CONFIRMATIONS
    requires |Makers(d, low)| >= Quorum(|c.state.active.producers|)
    requires |Makers(c, d.state.blockNum)| >= Quorum(|c.state.active.producers|)
    ensures c.state.irreversible > low
  {
    StageKeeps(c, d.state.blockNum, low);
    QuorumProposes(d, low);
    QuorumDecides(c, d.state.blockNum, low + 1);
  }

  // ---------------------------------------------------------------------------
  // When no slot is missed
  // ---------------------------------------------------------------------------

  predicate DistinctNames(active: Schedule) {
    forall i, j :: 0 <= i < j < |active.producers| ==> active.producers[i].producerName != active.producers[j].producerName
  }

  /** Every slot after the block with the given number has a block. */
  predicate NoSlotMissed(c: Chain, low: nat) {
    c.Link? && c.state.blockNum > low ==> c.state.slot == c.parent.state.slot + 1 && NoSlotMissed(c.parent, low)
  }

  lemma LinkSlot(c: Chain)
    requires Regular(c) && c.Link? && c.parent.state.active.producers != []
    ensures c.state.slot == c.header.slot
    ensures c.header.producer == ScheduledProducer(c.parent.state.active, c.state.slot).producerName
  {
    assert ValidChain(c);
    LinkStages(c);
  }

  lemma {:induction false} NumberUpTo(c: Chain, low: nat)
    requires Regular(c) && 1 <= low <= c.state.blockNum
    ensures UpTo(c, low).state.blockNum == low
    decreases c
  {
    if c.Genesis? {
      FirstNumber(c);
    } else {
      ParentRegular(c);
      if c.state.blockNum > low {
        NumberUpTo(c.parent, low);
      }
    }
  }

  /** The slots since the block with number low, and who made their blocks. */
  lemma {:induction false} MakersOfSlots(c: Chain, low: nat, k: nat)
    requires Regular(c) && Steady(c, low) && NoSlotMissed(c, low) && 1 <= low <= c.state.blockNum
    requires c.state.active.producers != []
    ensures UpTo(c, low).state.slot + (c.state.blockNum - low) == c.state.slot
    ensures 1 <= k <= c.state.blockNum - low ==>
              ScheduledProducer(c.state.active, UpTo(c, low).state.slot + k).producerName in Makers(c, low)
    decreases c
  {
    if c.Genesis? {
      FirstNumber(c);
    } else {
      ParentRegular(c);
      if c.state.blockNum > low {
        KeptLink(c);
        LinkSlot(c);
        MakersOfSlots(c.parent, low, k);
      }
    }
  }

  lemma PositionIs(n: nat, slot: nat)
    requires n > 0
    ensures Position(n, slot) == slot / PRODUCER_REPETITIONS % n
  {
    var turn, r := slot / PRODUCER_REPETITIONS, slot % PRODUCER_REPETITIONS;
    var round, k := turn / n, turn % n;
    DivMod(turn, n);
    DivMod(slot, PRODUCER_REPETITIONS);
    assert slot == round * (n * PRODUCER_REPETITIONS) + (k * PRODUCER_REPETITIONS + r) by {
      assert turn == round * n + k;
    }
    DivIs(slot, n * PRODUCER_REPETITIONS, round, k * PRODUCER_REPETITIONS + r);
  }

  lemma DistinctRemainders(a: nat, i: nat, j: nat, n: nat)
    requires i < j < i + n
    ensures (a + i) % n != (a + j) % n
  {
    var p, r := (a + i) / n, (a + i) % n;
    DivMod(a + i, n);
    if r + (j - i) < n {
      DivIs(a + j, n, p, r + (j - i));
    } else {
      Distribute(p, -1, n);
      DivIs(a + j, n, p + 1, r + (j - i) - n);
    }
  }

  /** The producers of q turns, read off in slots a turn apart. */
  function TurnNames(active: Schedule, start: nat, q: nat): (names: seq<AccountName>)
    requires active.producers != []
    ensures |names| == q
  {
    seq(q, i requires 0 <= i => ScheduledProducer(active, start + PRODUCER_REPETITIONS * i).producerName)
  }

  ghost function NamesIn(s: seq<AccountName>): set<AccountName> {
    set i | 0 <= i < |s| :: s[i]
  }

  lemma {:induction false} DistinctSize(s: seq<AccountName>)
    requires forall i, j :: 0 <= i < j < |s| ==> s[i] != s[j]
    ensures |NamesIn(s)| == |s|
    decreases |s|
  {
    if s != [] {
      var k := |s| - 1;
      DistinctSize(s[..k]);
      assert NamesIn(s) == NamesIn(s[..k]) + {s[k]};
    }
  }

  lemma TurnsDiffer(active: Schedule, start: nat, i: nat, j: nat)
    requires DistinctNames(active) && i < j < i + |active.producers|
    ensures ScheduledProducer(active, start + PRODUCER_REPETITIONS * i).producerName
         != ScheduledProducer(active, start + PRODUCER_REPETITIONS * j).producerName
  {
    var n, a := |active.producers|, start / PRODUCER_REPETITIONS;
    PositionIs(n, start + PRODUCER_REPETITIONS * i);
    PositionIs(n, start + PRODUCER_REPETITIONS * j);
    assert (start + PRODUCER_REPETITIONS * i) / PRODUCER_REPETITIONS == a + i;
    assert (start + PRODUCER_REPETITIONS * j) / PRODUCER_REPETITIONS == a + j;
    DistinctRemainders(a, i, j, n);
  }

  lemma TurnNamesSize(active: Schedule, start: nat, q: nat)
    requires active.producers != [] && DistinctNames(active) && q <= |active.producers|
    ensures |NamesIn(TurnNames(active, start, q))| == q
  {
    var names := TurnNames(active, start, q);
    forall i, j | 0 <= i < j < |names| ensures names[i] != names[j] {
      TurnsDiffer(active, start, i, j);
    }
    DistinctSize(names);
  }

  /** In q turns' worth of slots at least q producers make a block. */
  lemma TurnsMake(c: Chain, low: nat, q: nat)
    requires Regular(c) && Steady(c, low) && NoSlotMissed(c, low) && 1 <= low
    requires c.state.blockNum >= low + PRODUCER_REPETITIONS * q
    requires c.state.active.producers != [] && DistinctNames(c.state.active) && q <= |c.state.active.producers|
    ensures |Makers(c, low)| >= q
  {
    var start := UpTo(c, low).state.slot + 1;
    var names := TurnNames(c.state.active, start, q);
    forall i | 0 <= i < q ensures names[i] in Makers(c, low) {
      MakersOfSlots(c, low, 1 + PRODUCER_REPETITIONS * i);
    }
    TurnNamesSize(c.state.active, start, q);
    SubsetSize(NamesIn(names), Makers(c, low));
  }

  lemma {:induction false} StageSlots(c: Chain, number: nat, low: nat)
    requires NoSlotMissed(c, low) && low <= number
    ensures NoSlotMissed(c, number) && NoSlotMissed(UpTo(c, number), low)
    decreases c
  {
    if c.Link? && c.state.blockNum > number {
      StageSlots(c.parent, number, low);
    }
  }

  /**
    * When no slot is missed, every block is irreversible two quorums of turns later, whatever the
    * number of producers: the counters reach back far enough for the largest schedule.
    */
  lemma FullSlotsProgress(c: Chain, low: nat)
    requires ValidChain(c) && RangesWithinChain(c) && Steady(c, low) && NoSlotMissed(c, low) && low >= 1
    requires DistinctNames(c.state.active)
    requires c.state.blockNum >= low + 2 * PRODUCER_REPETITIONS * Quorum(|c.state.active.producers|)
    ensures c.state.irreversible > low
  {
    assert Regular(c);
    FullSlots(c, low);
  }

  lemma FullSlots(c: Chain, low: nat)
    requires Regular(c) && Steady(c, low) && NoSlotMissed(c, low) && low >= 1
    requires DistinctNames(c.state.active)
    requires c.state.blockNum >= low + 2 * PRODUCER_REPETITIONS * Quorum(|c.state.active.producers|)
    ensures c.state.irreversible > low
  {
    var q := Quorum(|c.state.active.producers|);
    assert 1 <= q <= |c.state.active.producers| && PRODUCER_REPETITIONS * q <= MAX_TRACKED_CONFIRMATIONS by {
      BoundsOf(c);
      QuorumInReach(|c.state.active.producers|);
    }
    TurnsTwice(c, low, low + PRODUCER_REPETITIONS * q, q);
  }

  lemma QuorumInReach(n: nat)
    requires 1 <= n <= MAX_PRODUCERS
    ensures 1 <= Quorum(n) <= n && PRODUCER_REPETITIONS * Quorum(n) <= MAX_TRACKED_CONFIRMATIONS
  {
  }

  lemma TurnsTwice(c: Chain, low: nat, number: nat, q: nat)
    requires Regular(c) && Steady(c, low) && NoSlotMissed(c, low) && 1 <= low < number <= low + MAX_TRACKED_CONFIRMATIONS
    requires DistinctNames(c.state.active) && q == Quorum(|c.state.active.producers|) <= |c.state.active.producers|
    requires number == low + PRODUCER_REPETITIONS * q && c.state.blockNum >= number + PRODUCER_REPETITIONS * q
    ensures c.state.irreversible > low
  {
    var d := UpTo(c, number);
    NumberUpTo(c, number);
    StageKeeps(c, number, low);
    StageSlots(c, number, low);
    TurnsMake(d, low, q);
    TurnsMake(c, number, q);
    TwoQuorums(c, d, low);
  }
}
