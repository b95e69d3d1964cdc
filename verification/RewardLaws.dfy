/**
  * What the operations of producer pay do, in numbers of the ledgers before and after them: which
  * blocks are counted, how the inflation is split, who is paid how much, and who may claim when.
  */
module RewardLaws {
  import opened Words
  import opened Wrappers
  import opened Rewards

  // -------------------------------------------------------------------- blocks and registrations

  /** A block counts for its producer alone once 15% of the tokens vote, and the first one starts the fills. */
  lemma BlockCounts(l: Ledger, producer: Account, now: nat)
    ensures var m := AfterBlock(l, producer, now);
            && m == l.(lastFill := m.lastFill, totalUnpaid := m.totalUnpaid, producers := m.producers)
            && |m.producers| == |l.producers|
            && m.lastFill == (if l.activatedStake >= 1_500_000_000_000 && l.lastFill == 0 then now else l.lastFill)
            && (forall k :: 0 <= k < |l.producers| ==>
                  var counts := l.activatedStake >= 1_500_000_000_000 && k == Find(l.producers, producer);
                  m.producers[k] == l.producers[k].(unpaid := l.producers[k].unpaid + if counts then 1 else 0))
  {
  }

  /** Registering makes the account's row active, a new one with nothing to its name, and moves no other. */
  lemma RegisterActivates(l: Ledger, owner: Account)
    ensures var (m, i) := (AfterRegister(l, owner), Find(l.producers, owner));
            && m == l.(producers := m.producers) && Find(m.producers, owner) == i < |m.producers|
            && m.producers[i].active && |m.producers| == (if i < |l.producers| then |l.producers| else i + 1)
            && (i < |l.producers| ==> m.producers[i] == l.producers[i].(active := true))
            && (i == |l.producers| ==> m.producers[i] == Producer(owner, true, 0.0, 0, 0, 0))
            && (forall k :: 0 <= k < |l.producers| && k != i ==> m.producers[k] == l.producers[k])
  {
    var i, ps := Find(l.producers, owner), AfterRegister(l, owner).producers;
    assert forall k :: 0 <= k < i ==> ps[k].owner == l.producers[k].owner;
    assert ps[i].owner == owner;
  }

  /** A vote moves one producer's votes, never below zero, and the total weight. */
  lemma VoteMoves(l: Ledger, owner: Account, delta: real)
    ensures var (m, i) := (AfterVote(l, owner, delta), Find(l.producers, owner));
            && m == l.(producers := m.producers, voteWeight := m.voteWeight) && |m.producers| == |l.producers|
            && m.voteWeight == l.voteWeight + (if i < |l.producers| then delta else 0.0)
            && (forall k :: 0 <= k < |l.producers| && k != i ==> m.producers[k] == l.producers[k])
            && (i < |l.producers| ==>
                  var sum := l.producers[i].votes + delta;
                  m.producers[i] == l.producers[i].(votes := if sum >= 0.0 then sum else 0.0))
  {
  }

  // ------------------------------------------------------------------------------------- claims

  /** Time has passed since the last fill, and there was one. */
  predicate TimeToFill(l: Ledger, now: nat) {
    l.lastFill > 0 && (now - l.lastFill) % 0x1_0000_0000_0000_0000 > 0
  }

  /** Exactly who may claim when. */
  lemma ClaimAcceptedIff(l: Ledger, owner: Account, now: nat, minted: nat)
    ensures var i := Find(l.producers, owner);
            ClaimCheck(l, owner, now, minted).None? <==>
              && i < |l.producers| && l.producers[i].active && l.activatedStake >= 1_500_000_000_000
              && (now - l.producers[i].lastClaim) % 0x1_0000_0000_0000_0000 > 86_400_000_000
              && (TimeToFill(l, now) ==> minted >= 20)
  {
  }

  /** The inflation in parts: a twentieth to blocks, a fifth to producers in all, the rest to savings. */
  predicate Splits(minted: nat, toBlocks: int, toVotes: int, toSavings: int) {
    && 20 * toBlocks <= minted < 20 * (toBlocks + 1)
    && 5 * (toBlocks + toVotes) <= minted < 5 * (toBlocks + toVotes) + 5
    && toBlocks + toVotes + toSavings == minted
  }

  lemma FillSplits(l: Ledger, now: nat, minted: nat)
    ensures var m := Filled(l, now, minted);
            var (b, v, s) := (m.blockPay - l.blockPay, m.votePay - l.votePay, m.savings - l.savings);
            && m == l.(supply := l.supply + b + v + s, savings := l.savings + s, blockPay := l.blockPay + b,
                       votePay := l.votePay + v, perBlock := l.perBlock + b, perVote := l.perVote + v,
                       lastFill := if TimeToFill(l, now) then now else l.lastFill)
            && (if TimeToFill(l, now) then Splits(minted, b, v, s) else b == v == s == 0)
  {
  }

  /** Everything an accepted claim does: the split of the inflation, the two shares of the filled
      buckets, and the row of the claimant; nothing else moves. */
  lemma ClaimLaw(l: Ledger, owner: Account, now: nat, minted: nat)
    returns (b: int, v: int, s: int, forBlocks: int, forVotes: int)
    requires ClaimCheck(l, owner, now, minted).None?
    ensures if TimeToFill(l, now) then Splits(minted, b, v, s) else b == v == s == 0
    ensures var (m, i) := (AfterClaim(l, owner, now, minted), Find(l.producers, owner));
            var p := l.producers[i];
            && (if l.totalUnpaid > 0
                then forBlocks * l.totalUnpaid <= (l.perBlock + b) * p.unpaid < (forBlocks + 1) * l.totalUnpaid
                else forBlocks == 0)
            && (if l.voteWeight > 0.0 then IsVotePay(forVotes, l.perVote + v, p.votes, l.voteWeight) else forVotes == 0)
            && m == l.(supply := l.supply + b + v + s, savings := l.savings + s,
                       blockPay := l.blockPay + b - forBlocks, perBlock := l.perBlock + b - forBlocks,
                       votePay := l.votePay + v - forVotes, perVote := l.perVote + v - forVotes,
                       lastFill := if TimeToFill(l, now) then now else l.lastFill,
                       totalUnpaid := l.totalUnpaid - p.unpaid,
                       producers := l.producers[i := p.(lastClaim := now, unpaid := 0,
                                                        balance := p.balance + forBlocks + forVotes)])
  {
    var f := Filled(l, now, minted);
    FillSplits(l, now, minted);
    b, v, s := f.blockPay - l.blockPay, f.votePay - l.votePay, f.savings - l.savings;
    var p := l.producers[Find(l.producers, owner)];
    forBlocks, forVotes := BlockPayOf(f, p), VotePayOf(f, p);
    if l.totalUnpaid > 0 {
      BlockPayExact(f.perBlock * p.unpaid, l.totalUnpaid);
    }
    if l.voteWeight > 0.0 {
      VotePayExact(f.perVote, p.votes, l.voteWeight);
    }
  }

  // ------------------------------------------------------------------------------- once a day

  predicate ClaimedAt(l: Ledger, owner: Account, time: nat) {
    var i := Find(l.producers, owner);
    && i < |l.producers| && l.producers[i].active && l.producers[i].lastClaim == time
    && l.activatedStake >= 1_500_000_000_000
  }

  lemma ClaimIsRecorded(l: Ledger, owner: Account, now: nat, minted: nat)
    requires ClaimCheck(l, owner, now, minted).None?
    ensures ClaimedAt(AfterClaim(l, owner, now, minted), owner, now)
  {
    var b, v, s, forBlocks, forVotes := ClaimLaw(l, owner, now, minted);
    FindStays(l.producers, AfterClaim(l, owner, now, minted).producers, owner);
  }

  /** Nothing but the account's own claims touches the time of its last one. */
  lemma ClaimStaysRecorded(l: Ledger, e: Event, owner: Account, time: nat)
    requires ClaimedAt(l, owner, time) && (e.Claim? ==> e.owner != owner)
    ensures ClaimedAt(After(l, e), owner, time)
  {
    OwnersStay(l, e);
    FindStays(l.producers, After(l, e).producers, owner);
    match e
    case Block(producer, now) => BlockCounts(l, producer, now);
    case Claim(other, now, minted) =>
      if ClaimCheck(l, other, now, minted).None? {
        var b, v, s, forBlocks, forVotes := ClaimLaw(l, other, now, minted);
      }
    case Vote(other, delta) => VoteMoves(l, other, delta);
    case Register(other) => RegisterActivates(l, other);
  }

  lemma {:induction false} RunStaysRecorded(l: Ledger, es: seq<Event>, owner: Account, time: nat)
    requires ClaimedAt(l, owner, time) && NoClaimBy(es, owner)
    ensures ClaimedAt(Run(l, es), owner, time)
    decreases |es|
  {
    if es != [] {
      ClaimStaysRecorded(l, es[0], owner, time);
      RunStaysRecorded(After(l, es[0]), es[1..], owner, time);
    }
  }

  /** After an accepted claim, whatever blocks, votes, registrations and claims of others follow, the
      next claim of the account is refused as too early for a whole day. */
  lemma OnceADay(l: Ledger, owner: Account, now: nat, minted: nat, es: seq<Event>, later: nat, minted': nat)
    requires ClaimCheck(l, owner, now, minted).None? && NoClaimBy(es, owner)
    requires now <= later <= now + 86_400_000_000
    ensures ClaimCheck(Run(AfterClaim(l, owner, now, minted), es), owner, later, minted') == Some(TooEarly)
  {
    ClaimIsRecorded(l, owner, now, minted);
    RunStaysRecorded(AfterClaim(l, owner, now, minted), es, owner, now);
  }
}
