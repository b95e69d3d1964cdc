/** Why a number proposed on two chains of one schedule costs more than a third of its producers their word. */
module DposSafety {
  import opened Wrappers
  import opened ChainTypes
  import opened BlockHeader
  import opened Dpos
  import opened BftSafety

  /** The blocks from the given number on were all made under these producers. */
  ghost predicate UnderFrom(c: Chain, number: nat, producers: seq<ProducerKey>) {
    c.Link? && c.state.blockNum >= number ==>
      c.parent.state.active.producers == producers && UnderFrom(c.parent, number, producers)
  }

  /** A valid chain; the quantifier keeps its links out of sight. */
  ghost predicate Built(c: Chain) {
    forall d :: d == c ==> ValidChain(d)
  }

  ghost function NamesOf(producers: seq<ProducerKey>): set<AccountName> {
    PrefixNames(producers, |producers|)
  }

  lemma {:induction false} ScheduledVoter(c: Chain)
    requires c.Link? && ValidChain(c)
    ensures c.header.producer in NamesOf(c.parent.state.active.producers)
    ensures c.state.blockNum == c.parent.state.blockNum + 1
  {
    AcceptedStages(c.parent.state, c.header, c.trust);
    var key := ScheduledProducer(c.parent.state.active, c.header.slot);
    assert key in c.parent.state.active.producers;
  }

  lemma {:induction false} BuiltLink(c: Chain)
    requires c.Link? && Built(c)
    ensures Built(c.parent) && c.header.producer in NamesOf(c.parent.state.active.producers)
    ensures c.state.blockNum == c.parent.state.blockNum + 1
  {
    assert ValidChain(c);
    ScheduledVoter(c);
  }

  /** Nothing is known of blocks above the head. */
  lemma {:induction false} NothingAbove(c: Chain, number: nat)
    requires Built(c) && c.state.blockNum < number
    ensures Confirmers(Votes(c), number) == {} && number !in Need(c)
    decreases c
  {
    if c.Link? {
      BuiltLink(c);
      NothingAbove(c.parent, number);
      ConfirmersSnoc(Votes(c.parent), VoteOf(c.parent.state, c.header), number);
    }
  }

  /** Only producers of the schedule confirm a block made under it. */
  lemma {:induction false} ConfirmersScheduled(c: Chain, producers: seq<ProducerKey>, number: nat)
    requires Built(c) && UnderFrom(c, number, producers)
    ensures Confirmers(Votes(c), number) <= NamesOf(producers)
    decreases c
  {
    if c.Link? && c.state.blockNum >= number {
      BuiltLink(c);
      ConfirmersScheduled(c.parent, producers, number);
      ConfirmersSnoc(Votes(c.parent), VoteOf(c.parent.state, c.header), number);
    } else if c.Link? {
      NothingAbove(c, number);
    }
  }

  /** Such a block asks for more than two thirds of the schedule. */
  lemma {:induction false} NeedIsQuorum(c: Chain, producers: seq<ProducerKey>, number: nat)
    requires Built(c) && UnderFrom(c, number, producers) && number in Need(c)
    ensures Need(c)[number] == Quorum(|producers|)
    decreases c
  {
    BuiltLink(c);
    if c.state.blockNum < number {
      NothingAbove(c, number);
    } else if number != c.state.blockNum {
      NeedIsQuorum(c.parent, producers, number);
    }
  }

  lemma {:induction false} QuorumScheduled(c: Chain, producers: seq<ProducerKey>, number: nat)
    requires ValidChain(c) && UnderFrom(c, number, producers) && number > 0 && HasQuorum(Votes(c), Need(c), number)
    ensures Confirmers(Votes(c), number) <= NamesOf(producers)
    ensures |Confirmers(Votes(c), number)| >= Quorum(|producers|)
  {
    assert Built(c);
    NeedIsQuorum(c, producers, number);
    ConfirmersScheduled(c, producers, number);
  }

  /** Two numbers with a quorum, each on its chain, from there on under the same producers, were both
      confirmed by more than a third of them. */
  lemma {:induction false} QuorumsShareConfirmers(c: Chain, d: Chain, producers: seq<ProducerKey>, a: nat, b: nat)
    requires ValidChain(c) && UnderFrom(c, a, producers) && HasQuorum(Votes(c), Need(c), a)
    requires ValidChain(d) && UnderFrom(d, b, producers) && HasQuorum(Votes(d), Need(d), b)
    requires a > 0 && b > 0
    ensures 3 * |Confirmers(Votes(c), a) * Confirmers(Votes(d), b)| > |producers|
  {
    QuorumScheduled(c, producers, a);
    QuorumScheduled(d, producers, b);
    NamesCount(producers, |producers|);
    OverlapSize(Confirmers(Votes(c), a), Confirmers(Votes(d), b), NamesOf(producers));
  }

  /** The block of a chain with the given number. */
  function BlockAt(c: Chain, number: nat): Option<BlockId> {
    if c.state.blockNum == number then Some(c.state.id)
    else if c.Genesis? then None
    else BlockAt(c.parent, number)
  }

  /** Block a of chain c is not below block b of chain d, where a <= b. */
  predicate Conflicts(c: Chain, d: Chain, a: nat) {
    BlockAt(c, a) != BlockAt(d, a)
  }

  /** The producers that confirmed block a on one chain and, on the other, a block b that conflicts with it. */
  ghost function TwoFaced(c: Chain, d: Chain, a: nat, b: nat): set<AccountName> {
    if Conflicts(c, d, a) then Confirmers(Votes(c), a) * Confirmers(Votes(d), b) else {}
  }

  lemma {:induction false} NoConflictingQuorums(c: Chain, d: Chain, producers: seq<ProducerKey>, a: nat, b: nat)
    requires ValidChain(c) && UnderFrom(c, a, producers) && HasQuorum(Votes(c), Need(c), a)
    requires ValidChain(d) && UnderFrom(d, b, producers) && HasQuorum(Votes(d), Need(d), b)
    requires 0 < a <= b && 3 * |TwoFaced(c, d, a, b)| <= |producers| - 1
    ensures !Conflicts(c, d, a)
  {
    QuorumsShareConfirmers(c, d, producers, a, b);
  }

  lemma {:induction false} HasBlock(c: Chain, number: nat)
    requires ValidChain(c) && 1 <= number <= c.state.blockNum
    ensures BlockAt(c, number).Some?
    decreases c
  {
    if c.Link? {
      AcceptedStages(c.parent.state, c.header, c.trust);
      if number < c.state.blockNum {
        HasBlock(c.parent, number);
      }
    }
  }

  /**
    * While at most (n - 1) / 3 producers confirm conflicting blocks, the irreversible block of one
    * chain is a block of every other chain whose irreversible number is no lower, if both chains are
    * under the same producers from their irreversible blocks on.
    */
  lemma {:induction false} IrreversibleAgrees(c: Chain, d: Chain, producers: seq<ProducerKey>)
    requires ValidChain(c) && RangesWithinChain(c) && UnderFrom(c, c.state.irreversible, producers)
    requires ValidChain(d) && RangesWithinChain(d) && UnderFrom(d, d.state.irreversible, producers)
    requires 0 < c.state.irreversible <= d.state.irreversible
    requires 3 * |TwoFaced(c, d, c.state.irreversible, d.state.irreversible)| <= |producers| - 1
    ensures BlockAt(c, c.state.irreversible).Some?
    ensures BlockAt(d, c.state.irreversible) == BlockAt(c, c.state.irreversible)
  {
    IrreversibleHasQuorum(c);
    IrreversibleHasQuorum(d);
    HasBlock(c, c.state.irreversible);
    NoConflictingQuorums(c, d, producers, c.state.irreversible, d.state.irreversible);
  }

  /** The same for the proposed blocks. */
  lemma {:induction false} ProposedAgrees(c: Chain, d: Chain, producers: seq<ProducerKey>)
    requires ValidChain(c) && RangesWithinChain(c) && UnderFrom(c, c.state.proposedIrreversible, producers)
    requires ValidChain(d) && RangesWithinChain(d) && UnderFrom(d, d.state.proposedIrreversible, producers)
    requires 0 < c.state.proposedIrreversible <= d.state.proposedIrreversible
    requires 3 * |TwoFaced(c, d, c.state.proposedIrreversible, d.state.proposedIrreversible)| <= |producers| - 1
    ensures BlockAt(c, c.state.proposedIrreversible).Some?
    ensures BlockAt(d, c.state.proposedIrreversible) == BlockAt(c, c.state.proposedIrreversible)
  {
    IrreversibleHasQuorum(c);
    IrreversibleHasQuorum(d);
    HasBlock(c, c.state.proposedIrreversible);
    NoConflictingQuorums(c, d, producers, c.state.proposedIrreversible, d.state.proposedIrreversible);
  }
}
