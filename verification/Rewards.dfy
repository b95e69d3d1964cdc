/**
  * Producer pay of the system contract: every produced block is counted as unpaid, and a
  * claim mints the inflation since the last fill, splits it over savings and two buckets and
  * pays the claimant's share of each bucket.  Amounts are whole token units; vote weights are
  * reals; the number of newly minted tokens and the time are inputs of a claim.
  */
module Rewards {
  import opened Words
  import opened Wrappers

  type Account = nat

  const MIN_PERVOTE_DAILY_PAY: int := 1_000_000
  const MIN_ACTIVATED_STAKE: int := 1_500_000_000_000
  const USECONDS_PER_DAY: int := 24 * 3600 * 1_000_000
  const TWO64: int := 0x1_0000_0000_0000_0000

  /** A registered producer, with the token balance of its account. */
  datatype Producer = Producer(
    owner: Account, active: bool, votes: real, unpaid: nat, lastClaim: nat, balance: int)

  datatype Ledger = Ledger(
    producers: seq<Producer>,
    activatedStake: int,
    lastFill: nat,
    totalUnpaid: int,
    voteWeight: real,
    perBlock: int,
    perVote: int,
    supply: int,
    system: int,
    savings: int,
    blockPay: int,
    votePay: int)

  datatype ClaimError = NotRegistered | NotActive | NotActivated | TooEarly | NotPositive

  /** Microseconds from t to now in unsigned 64-bit arithmetic. */
  function Since(now: nat, t: nat): (d: nat)
    ensures d < TWO64
  {
    (now - t) % TWO64
  }

  /** The row of an account, or the length of the table. */
  function Find(ps: seq<Producer>, owner: Account): (i: nat)
    ensures i <= |ps|
    ensures i < |ps| ==> ps[i].owner == owner
    ensures forall k :: 0 <= k < i ==> ps[k].owner != owner
  {
    if ps == [] || ps[0].owner == owner then 0 else 1 + Find(ps[1..], owner)
  }

  // -------------------------------------------------------------------- totals

  datatype Totals = Totals(unpaid: int, votes: real, balance: int)

  function Sum(ps: seq<Producer>): Totals {
    if ps == [] then Totals(0, 0.0, 0)
    else
      var rest := Sum(ps[..|ps| - 1]);
      var last := ps[|ps| - 1];
      Totals(rest.unpaid + last.unpaid, rest.votes + last.votes, rest.balance + last.balance)
  }

  lemma {:induction false} SumUpdate(ps: seq<Producer>, i: nat, p: Producer)
    requires i < |ps|
    ensures Sum(ps[i := p]).unpaid == Sum(ps).unpaid - ps[i].unpaid + p.unpaid
    ensures Sum(ps[i := p]).votes == Sum(ps).votes - ps[i].votes + p.votes
    ensures Sum(ps[i := p]).balance == Sum(ps).balance - ps[i].balance + p.balance
  {
    var k := |ps| - 1;
    if i == k {
      assert ps[i := p][..k] == ps[..k];
    } else {
      assert ps[i := p][..k] == ps[..k][i := p];
      SumUpdate(ps[..k], i, p);
    }
  }

  predicate VotesPositive(ps: seq<Producer>) {
    forall i :: 0 <= i < |ps| ==> ps[i].votes >= 0.0
  }

  /** No producer has more unpaid blocks, or more votes, than there are in all. */
  lemma {:induction false} PartOfSum(ps: seq<Producer>, i: nat)
    requires i < |ps| && VotesPositive(ps)
    ensures 0 <= ps[i].unpaid <= Sum(ps).unpaid
    ensures 0.0 <= ps[i].votes <= Sum(ps).votes
  {
    var k := |ps| - 1;
    if i < k {
      PartOfSum(ps[..k], i);
    } else {
      SumPositive(ps[..k]);
    }
  }

  lemma {:induction false} SumPositive(ps: seq<Producer>)
    requires VotesPositive(ps)
    ensures Sum(ps).unpaid >= 0 && Sum(ps).votes >= 0.0
  {
    if ps != [] {
      SumPositive(ps[..|ps| - 1]);
    }
  }

  // ----------------------------------------------------------------- invariant

  /**
    * What every operation keeps: the global counters are the sums over the producers, and
    * each bucket is backed, unit for unit, by the account that pays it out.
    */
  ghost predicate Sound(l: Ledger) {
    && VotesPositive(l.producers)
    && l.totalUnpaid == Sum(l.producers).unpaid
    && l.voteWeight == Sum(l.producers).votes
    && 0 <= l.perBlock == l.blockPay
    && 0 <= l.perVote == l.votePay
  }

  /** All tokens in the accounts that the contract moves tokens between. */
  function Held(l: Ledger): int {
    l.system + l.savings + l.blockPay + l.votePay + Sum(l.producers).balance
  }

  // ------------------------------------------------------------------- payouts

  function BlockShare(bucket: int, unpaid: int, total: int): int {
    if total > 0 then bucket * unpaid / total else 0
  }

  function VoteFraction(bucket: int, votes: real, weight: real): int
    requires weight > 0.0
  {
    (bucket as real * votes / weight).Floor
  }

  function VoteShare(bucket: int, votes: real, weight: real): int {
    var pay := if weight > 0.0 then VoteFraction(bucket, votes, weight) else 0;
    if pay < MIN_PERVOTE_DAILY_PAY then 0 else pay
  }

  lemma BlockShareBounds(bucket: int, unpaid: int, total: int)
    requires bucket >= 0 && 0 <= unpaid <= total
    ensures 0 <= BlockShare(bucket, unpaid, total) <= bucket
    ensures total > 0 && unpaid == total ==> BlockShare(bucket, unpaid, total) == bucket
    ensures BlockShare(bucket, unpaid, total) * total <= bucket * unpaid
  {
    if total > 0 {
      var x := bucket * unpaid;
      assert 0 <= x <= bucket * total by {
        ProductMonotone(bucket, unpaid, total);
      }
      Quotient(x, total);
      Cancel(x / total, bucket, total);
      if unpaid == total {
        DivIs(x, total, bucket, 0);
      }
    }
  }

  lemma ProductMonotone(b: int, x: int, y: int)
    requires b >= 0 && 0 <= x <= y
    ensures 0 <= b * x <= b * y
  {
  }

  lemma Quotient(x: int, d: int)
    requires x >= 0 && d > 0
    ensures x / d * d <= x < x / d * d + d && x / d >= 0
  {
  }

  lemma Cancel(x: int, y: int, d: int)
    requires x * d <= y * d && d > 0
    ensures x <= y
  {
    if x > y {
      MulAtLeast(x - y, d);
      Distribute(x, y, d);
    }
  }

  lemma VoteShareBounds(bucket: int, votes: real, weight: real)
    requires bucket >= 0 && 0.0 <= votes <= weight
    ensures 0 <= VoteShare(bucket, votes, weight) <= bucket
  {
    if weight > 0.0 {
      RealShare(bucket as real, votes, weight);
    }
  }

  lemma RealShare(b: real, votes: real, weight: real)
    requires b >= 0.0 && 0.0 <= votes <= weight && weight > 0.0
    ensures 0.0 <= b * votes / weight <= b
  {
    var share := b * votes / weight;
    assert share * weight == b * votes;
    RealProduct(b, votes, weight);
    if share > b {
      RealTimes(share, b, weight);
      assert false;
    }
    if share < 0.0 {
      RealTimes(0.0, share, weight);
      assert false;
    }
  }

  lemma RealProduct(b: real, votes: real, weight: real)
    requires b >= 0.0 && 0.0 <= votes <= weight
    ensures 0.0 <= b * votes <= b * weight
  {
  }

  lemma RealTimes(x: real, y: real, w: real)
    requires x > y && w > 0.0
    ensures x * w > y * w
  {
  }

  // ---------------------------------------------------------------- operations

  function AfterBlock(l: Ledger, producer: Account, now: nat): Ledger {
    if l.activatedStake < MIN_ACTIVATED_STAKE then l
    else
      var started := l.(lastFill := if l.lastFill == 0 then now else l.lastFill);
      var i := Find(l.producers, producer);
      if i == |l.producers| then started
      else
        var p := l.producers[i];
        started.(totalUnpaid := l.totalUnpaid + 1, producers := l.producers[i := p.(unpaid := p.unpaid + 1)])
  }

  /** A claim mints only when time has passed since the first counted block. */
  predicate Fills(l: Ledger, now: nat) {
    Since(now, l.lastFill) > 0 && l.lastFill > 0
  }

  /** The least amount of which every part is at least one unit. */
  const MIN_MINTED: nat := 20

  /** The inflation since the last fill: four fifths to savings, a twentieth to blocks, the rest to votes. */
  function Filled(l: Ledger, now: nat, minted: nat): Ledger {
    if Fills(l, now) then
      var toProducers := minted / 5;
      var toBlocks := toProducers / 4;
      l.(supply := l.supply + minted,
         savings := l.savings + (minted - toProducers),
         blockPay := l.blockPay + toBlocks,
         votePay := l.votePay + (toProducers - toBlocks),
         perBlock := l.perBlock + toBlocks,
         perVote := l.perVote + (toProducers - toBlocks),
         lastFill := now)
    else l
  }

  function BlockPayOf(l: Ledger, p: Producer): int {
    BlockShare(l.perBlock, p.unpaid, l.totalUnpaid)
  }

  function VotePayOf(l: Ledger, p: Producer): int {
    VoteShare(l.perVote, p.votes, l.voteWeight)
  }

  function PaidOut(l: Ledger, i: nat, now: nat): Ledger
    requires i < |l.producers|
  {
    var p := l.producers[i];
    var forBlocks, forVotes := BlockPayOf(l, p), VotePayOf(l, p);
    l.(perBlock := l.perBlock - forBlocks,
       perVote := l.perVote - forVotes,
       blockPay := l.blockPay - forBlocks,
       votePay := l.votePay - forVotes,
       totalUnpaid := l.totalUnpaid - p.unpaid,
       producers := l.producers[i := p.(lastClaim := now, unpaid := 0, balance := p.balance + forBlocks + forVotes)])
  }

  function ClaimCheck(l: Ledger, owner: Account, now: nat, minted: nat): Option<ClaimError> {
    var i := Find(l.producers, owner);
    if i == |l.producers| then Some(NotRegistered)
    else if !l.producers[i].active then Some(NotActive)
    else if l.activatedStake < MIN_ACTIVATED_STAKE then Some(NotActivated)
    else if Since(now, l.producers[i].lastClaim) <= USECONDS_PER_DAY then Some(TooEarly)
    else if Fills(l, now) && minted < MIN_MINTED then Some(NotPositive)
    else None
  }

  function AfterClaim(l: Ledger, owner: Account, now: nat, minted: nat): Ledger {
    if ClaimCheck(l, owner, now, minted).Some? then l
    else PaidOut(Filled(l, now, minted), Find(l.producers, owner), now)
  }

  /** A change of the votes for a producer; what would fall below zero is taken for rounding dust. */
  function AfterVote(l: Ledger, owner: Account, delta: real): Ledger {
    var i := Find(l.producers, owner);
    if i == |l.producers| then l
    else
      var p := l.producers[i];
      var votes := if p.votes + delta < 0.0 then 0.0 else p.votes + delta;
      l.(producers := l.producers[i := p.(votes := votes)], voteWeight := l.voteWeight + delta)
  }

  function AfterRegister(l: Ledger, owner: Account): Ledger {
    var i := Find(l.producers, owner);
    if i == |l.producers| then l.(producers := l.producers + [Producer(owner, true, 0.0, 0, 0, 0)])
    else l.(producers := l.producers[i := l.producers[i].(active := true)])
  }

  /** The exact share of the votes, or nothing when its whole units stay below the daily minimum. */
  ghost predicate IsVotePay(pay: int, bucket: int, votes: real, weight: real) {
    var exact := bucket as real * votes;
    if pay == 0 then exact < MIN_PERVOTE_DAILY_PAY as real * weight
    else pay >= MIN_PERVOTE_DAILY_PAY && pay as real * weight <= exact < (pay + 1) as real * weight
  }

  lemma VotePayExact(bucket: int, votes: real, weight: real)
    requires weight > 0.0
    ensures IsVotePay(VoteShare(bucket, votes, weight), bucket, votes, weight)
  {
    var exact, pay := bucket as real * votes, VoteFraction(bucket, votes, weight);
    Between(pay as real, exact / weight, (pay + 1) as real, weight, exact);
    if pay < MIN_PERVOTE_DAILY_PAY {
      RealBelow(exact, (pay + 1) as real, MIN_PERVOTE_DAILY_PAY as real, weight);
    }
  }

  lemma Between(low: real, share: real, high: real, weight: real, exact: real)
    requires weight > 0.0 && share * weight == exact && low <= share < high
    ensures low * weight <= exact < high * weight
  {
    RealScale(low, share, weight);
    RealTimes(high, share, weight);
  }

  lemma RealBelow(exact: real, x: real, y: real, w: real)
    requires exact < x * w && x <= y && w > 0.0
    ensures exact < y * w
  {
    RealScale(x, y, w);
  }

  lemma RealScale(x: real, y: real, w: real)
    requires x <= y && w > 0.0
    ensures x * w <= y * w
  {
  }

  lemma BlockPayExact(x: int, d: int)
    requires d > 0
    ensures x / d * d <= x < (x / d + 1) * d
  {
    Distribute(x / d, -1, d);
  }

  method Shares(l: Ledger, prod: Producer) returns (forBlocks: int, forVotes: int)
    ensures if l.totalUnpaid > 0
            then forBlocks * l.totalUnpaid <= l.perBlock * prod.unpaid < (forBlocks + 1) * l.totalUnpaid
            else forBlocks == 0
    ensures if l.voteWeight > 0.0 then IsVotePay(forVotes, l.perVote, prod.votes, l.voteWeight) else forVotes == 0
    ensures forBlocks == BlockPayOf(l, prod) && forVotes == VotePayOf(l, prod)
  {
    if l.totalUnpaid > 0 {
      BlockPayExact(l.perBlock * prod.unpaid, l.totalUnpaid);
    }
    if l.voteWeight > 0.0 {
      VotePayExact(l.perVote, prod.votes, l.voteWeight);
    }
    forBlocks := 0;
    if l.totalUnpaid > 0 {
      forBlocks := l.perBlock * prod.unpaid / l.totalUnpaid;
    }
    forVotes := 0;
    if l.voteWeight > 0.0 {
      forVotes := VoteFraction(l.perVote, prod.votes, l.voteWeight);
    }
    if forVotes < MIN_PERVOTE_DAILY_PAY {
      forVotes := 0;
    }
  }

  class SystemContract {
    var ledger: Ledger

    constructor (start: Ledger)
      ensures ledger == start
    {
      ledger := start;
    }

    method OnBlock(producer: Account, now: nat)
      modifies this
      ensures ledger == AfterBlock(old(ledger), producer, now)
      ensures old(ledger).activatedStake >= MIN_ACTIVATED_STAKE ==>
                ledger.lastFill == if old(ledger).lastFill == 0 then now else old(ledger).lastFill
      ensures old(Sound(ledger)) ==> Sound(ledger)
    {
      BlockKeeps(ledger, producer, now);
      if ledger.activatedStake < MIN_ACTIVATED_STAKE {
        return;
      }
      if ledger.lastFill == 0 {
        ledger := ledger.(lastFill := now);
      }
      var i := Find(ledger.producers, producer);
      if i < |ledger.producers| {
        ledger := ledger.(totalUnpaid := ledger.totalUnpaid + 1);
        var p := ledger.producers[i];
        ledger := ledger.(producers := ledger.producers[i := p.(unpaid := p.unpaid + 1)]);
      }
    }

    /**
      * Mints the inflation, hands it to the system account and from there to the three others. The
      * token contract issues and transfers only positive amounts; refused, it undoes the whole claim.
      */
    method Fill(now: nat, minted: nat) returns (done: bool)
      modifies this
      ensures done <==> (Fills(old(ledger), now) ==> minted >= MIN_MINTED)
      ensures ledger == if done then Filled(old(ledger), now, minted) else old(ledger)
      ensures done && Fills(old(ledger), now) ==>
                var (b, v, s) := (ledger.blockPay - old(ledger.blockPay), ledger.votePay - old(ledger.votePay),
                                  ledger.savings - old(ledger.savings));
                && 20 * b <= minted < 20 * (b + 1) && 5 * (b + v) <= minted < 5 * (b + v) + 5 && b + v + s == minted
                && ledger.perBlock == old(ledger.perBlock) + b && ledger.perVote == old(ledger.perVote) + v
                && ledger.lastFill == now
    {
      if Since(now, ledger.lastFill) > 0 && ledger.lastFill > 0 {
        var toProducers := minted / 5;
        var toSavings := minted - toProducers;
        var toBlocks := toProducers / 4;
        var toVotes := toProducers - toBlocks;
        if minted <= 0 || toSavings <= 0 || toBlocks <= 0 || toVotes <= 0 {
          return false;
        }
        ledger := ledger.(supply := ledger.supply + minted, system := ledger.system + minted);
        ledger := ledger.(system := ledger.system - toSavings, savings := ledger.savings + toSavings);
        ledger := ledger.(system := ledger.system - toBlocks, blockPay := ledger.blockPay + toBlocks);
        ledger := ledger.(system := ledger.system - toVotes, votePay := ledger.votePay + toVotes);
        ledger := ledger.(perVote := ledger.perVote + toVotes, perBlock := ledger.perBlock + toBlocks);
        ledger := ledger.(lastFill := now);
      }
      return true;
    }

    /** Pays the producer in row i its share of both buckets. */
    method Pay(i: nat, now: nat) returns (forBlocks: int, forVotes: int)
      requires i < |ledger.producers|
      modifies this
      ensures ledger == PaidOut(old(ledger), i, now)
      ensures forBlocks == old(ledger.perBlock) - ledger.perBlock
      ensures forVotes == old(ledger.perVote) - ledger.perVote
    {
      var prod := ledger.producers[i];
      forBlocks, forVotes := Shares(ledger, prod);
      ledger := ledger.(perVote := ledger.perVote - forVotes, perBlock := ledger.perBlock - forBlocks);
      ledger := ledger.(totalUnpaid := ledger.totalUnpaid - prod.unpaid);
      prod := prod.(lastClaim := now, unpaid := 0, balance := prod.balance + forBlocks + forVotes);
      ledger := ledger.(producers := ledger.producers[i := prod]);
      ledger := ledger.(blockPay := ledger.blockPay - forBlocks, votePay := ledger.votePay - forVotes);
    }

    method ClaimRewards(owner: Account, now: nat, minted: nat) returns (r: Result<int, ClaimError>)
      modifies this
      ensures ledger == AfterClaim(old(ledger), owner, now, minted)
      ensures ClaimCheck(old(ledger), owner, now, minted) == if r.Failure? then Some(r.error) else None
      ensures r.Success? ==>
                var i := Find(old(ledger).producers, owner);
                && i < |ledger.producers| == |old(ledger).producers|
                && ledger.producers[i].balance == old(ledger).producers[i].balance + r.value
      ensures old(Sound(ledger)) ==> Sound(ledger)
      ensures Conserves(old(ledger), ledger)
    {
      ClaimKeeps(ledger, owner, now, minted);
      var i := Find(ledger.producers, owner);
      if i == |ledger.producers| {
        return Failure(NotRegistered);
      }
      if !ledger.producers[i].active {
        return Failure(NotActive);
      }
      if ledger.activatedStake < MIN_ACTIVATED_STAKE {
        return Failure(NotActivated);
      }
      if Since(now, ledger.producers[i].lastClaim) <= USECONDS_PER_DAY {
        return Failure(TooEarly);
      }
      var filled := Fill(now, minted);
      if !filled {
        return Failure(NotPositive);
      }
      var forBlocks, forVotes := Pay(i, now);
      return Success(forBlocks + forVotes);
    }

    /** A change of the votes for one producer, as the voting code makes it. */
    method UpdateVotes(owner: Account, delta: real)
      modifies this
      ensures ledger == AfterVote(old(ledger), owner, delta)
    {
      var i := Find(ledger.producers, owner);
      if i < |ledger.producers| {
        var p := ledger.producers[i];
        p := p.(votes := p.votes + delta);
        if p.votes < 0.0 {
          p := p.(votes := 0.0);
        }
        ledger := ledger.(producers := ledger.producers[i := p]);
        ledger := ledger.(voteWeight := ledger.voteWeight + delta);
      }
    }

    method RegisterProducer(owner: Account)
      modifies this
      ensures ledger == AfterRegister(old(ledger), owner)
      ensures old(Sound(ledger)) ==> Sound(ledger)
    {
      RegisterKeeps(ledger, owner);
      var i := Find(ledger.producers, owner);
      if i < |ledger.producers| {
        ledger := ledger.(producers := ledger.producers[i := ledger.producers[i].(active := true)]);
      } else {
        ledger := ledger.(producers := ledger.producers + [Producer(owner, true, 0.0, 0, 0, 0)]);
      }
    }
  }

  // --------------------------------------------------------------- each step

  /** What a step may do to the tokens: nothing is created beside the supply, nothing is lost. */
  ghost predicate Conserves(l: Ledger, m: Ledger) {
    && m.system == l.system
    && m.supply - l.supply == Held(m) - Held(l)
  }

  lemma BlockKeeps(l: Ledger, producer: Account, now: nat)
    ensures Sound(l) ==> Sound(AfterBlock(l, producer, now))
    ensures Conserves(l, AfterBlock(l, producer, now))
  {
    var i := Find(l.producers, producer);
    if i < |l.producers| {
      var p := l.producers[i];
      SumUpdate(l.producers, i, p.(unpaid := p.unpaid + 1));
    }
  }

  lemma FillKeeps(l: Ledger, now: nat, minted: nat)
    ensures Sound(l) ==> Sound(Filled(l, now, minted))
    ensures Conserves(l, Filled(l, now, minted))
    ensures Filled(l, now, minted).perBlock >= l.perBlock && Filled(l, now, minted).perVote >= l.perVote
  {
  }

  lemma PayKeeps(l: Ledger, i: nat, now: nat)
    requires i < |l.producers|
    ensures Sound(l) ==> Sound(PaidOut(l, i, now))
    ensures Conserves(l, PaidOut(l, i, now)) && PaidOut(l, i, now).supply == l.supply
  {
    var p := l.producers[i];
    var forBlocks, forVotes := BlockPayOf(l, p), VotePayOf(l, p);
    SumUpdate(l.producers, i, p.(lastClaim := now, unpaid := 0, balance := p.balance + forBlocks + forVotes));
    if Sound(l) {
      PartOfSum(l.producers, i);
      BlockShareBounds(l.perBlock, p.unpaid, l.totalUnpaid);
      VoteShareBounds(l.perVote, p.votes, l.voteWeight);
    }
  }

  lemma ClaimKeeps(l: Ledger, owner: Account, now: nat, minted: nat)
    ensures Sound(l) ==> Sound(AfterClaim(l, owner, now, minted))
    ensures Conserves(l, AfterClaim(l, owner, now, minted))
  {
    if ClaimCheck(l, owner, now, minted).None? {
      FillKeeps(l, now, minted);
      PayKeeps(Filled(l, now, minted), Find(l.producers, owner), now);
    }
  }

  /** The weight stays the sum of the votes exactly when no more votes are taken away than there are. */
  lemma VoteKeepsIff(l: Ledger, owner: Account, delta: real)
    requires Sound(l)
    ensures var i := Find(l.producers, owner);
            Sound(AfterVote(l, owner, delta)) <==> (i == |l.producers| || l.producers[i].votes + delta >= 0.0)
    ensures Conserves(l, AfterVote(l, owner, delta))
  {
    var i := Find(l.producers, owner);
    if i < |l.producers| {
      var p := l.producers[i];
      SumUpdate(l.producers, i, p.(votes := if p.votes + delta < 0.0 then 0.0 else p.votes + delta));
    }
  }

  lemma RegisterKeeps(l: Ledger, owner: Account)
    ensures Sound(l) ==> Sound(AfterRegister(l, owner))
    ensures Conserves(l, AfterRegister(l, owner))
  {
    var i := Find(l.producers, owner);
    if i < |l.producers| {
      SumUpdate(l.producers, i, l.producers[i].(active := true));
    } else {
      var ps := AfterRegister(l, owner).producers;
      assert ps[..|ps| - 1] == l.producers;
    }
  }

  // ----------------------------------------------------------------- whole runs

  datatype Event =
    | Block(producer: Account, now: nat)
    | Claim(owner: Account, now: nat, minted: nat)
    | Vote(owner: Account, delta: real)
    | Register(owner: Account)

  function After(l: Ledger, e: Event): Ledger {
    match e
    case Block(producer, now) => AfterBlock(l, producer, now)
    case Claim(owner, now, minted) => AfterClaim(l, owner, now, minted)
    case Vote(owner, delta) => AfterVote(l, owner, delta)
    case Register(owner) => AfterRegister(l, owner)
  }

  /** A vote takes no more away than the producer has. */
  predicate Allowed(l: Ledger, e: Event) {
    e.Vote? ==>
      var i := Find(l.producers, e.owner);
      i == |l.producers| || l.producers[i].votes + e.delta >= 0.0
  }

  function Run(l: Ledger, es: seq<Event>): Ledger
    decreases |es|
  {
    if es == [] then l else Run(After(l, es[0]), es[1..])
  }

  predicate AllAllowed(l: Ledger, es: seq<Event>)
    decreases |es|
  {
    es == [] || (Allowed(l, es[0]) && AllAllowed(After(l, es[0]), es[1..]))
  }

  lemma StepKeeps(l: Ledger, e: Event)
    requires Sound(l) && Allowed(l, e)
    ensures Sound(After(l, e)) && Conserves(l, After(l, e))
  {
    match e
    case Block(producer, now) => BlockKeeps(l, producer, now);
    case Claim(owner, now, minted) => ClaimKeeps(l, owner, now, minted);
    case Vote(owner, delta) => VoteKeepsIff(l, owner, delta);
    case Register(owner) => RegisterKeeps(l, owner);
  }

  lemma {:induction false} RunSound(l: Ledger, es: seq<Event>)
    requires Sound(l) && AllAllowed(l, es)
    ensures Sound(Run(l, es)) && Conserves(l, Run(l, es))
    decreases |es|
  {
    if es != [] {
      StepKeeps(l, es[0]);
      RunSound(After(l, es[0]), es[1..]);
    }
  }

  /**
    * Over any run the supply grows by exactly what savings, the two buckets and the producers'
    * balances gain together; no bucket ever goes below zero; unpaid blocks add up.
    */
  lemma RunConserves(l: Ledger, es: seq<Event>)
    requires Sound(l) && AllAllowed(l, es)
    ensures var m := Run(l, es);
      && m.supply - l.supply
         == (m.savings - l.savings) + (m.perBlock - l.perBlock) + (m.perVote - l.perVote)
            + (Sum(m.producers).balance - Sum(l.producers).balance)
      && m.perBlock >= 0 && m.perVote >= 0
      && m.totalUnpaid == Sum(m.producers).unpaid
  {
    RunSound(l, es);
  }

  /** A claim by the only producer with unpaid blocks takes the whole per-block bucket. */
  lemma SoleClaimEmptiesBucket(l: Ledger, owner: Account, now: nat, minted: nat)
    requires Sound(l) && ClaimCheck(l, owner, now, minted).None?
    requires 0 < l.totalUnpaid == l.producers[Find(l.producers, owner)].unpaid
    ensures AfterClaim(l, owner, now, minted).perBlock == 0
    ensures AfterClaim(l, owner, now, minted).totalUnpaid == 0
  {
    FillKeeps(l, now, minted);
    var filled := Filled(l, now, minted);
    BlockShareBounds(filled.perBlock, l.totalUnpaid, l.totalUnpaid);
  }

  // ----------------------------------------------------------------- fair shares

  /** The bucket per unpaid block is no smaller in m than in l. */
  ghost predicate RateKept(l: Ledger, m: Ledger) {
    m.perBlock * l.totalUnpaid >= l.perBlock * m.totalUnpaid && 0 <= m.totalUnpaid <= l.totalUnpaid
  }

  lemma RateAfterPay(bucket: int, filled: int, pay: int, unpaid: int, total: int)
    requires 0 <= bucket <= filled && 0 <= unpaid <= total && pay * total <= filled * unpaid
    ensures (filled - pay) * total >= bucket * (total - unpaid)
  {
    Distribute(filled, pay, total);
    Distribute(total, unpaid, filled);
    assert filled * (total - unpaid) >= bucket * (total - unpaid);
  }

  lemma ClaimKeepsRate(l: Ledger, owner: Account, now: nat, minted: nat)
    requires Sound(l)
    ensures RateKept(l, AfterClaim(l, owner, now, minted))
  {
    SumPositive(l.producers);
    if ClaimCheck(l, owner, now, minted).None? {
      FillKeeps(l, now, minted);
      var filled, i := Filled(l, now, minted), Find(l.producers, owner);
      var unpaid := l.producers[i].unpaid;
      PartOfSum(l.producers, i);
      BlockShareBounds(filled.perBlock, unpaid, l.totalUnpaid);
      RateAfterPay(l.perBlock, filled.perBlock, BlockPayOf(filled, l.producers[i]), unpaid, l.totalUnpaid);
    }
  }

  lemma RateTransitive(b0: int, t0: int, b1: int, t1: int, b2: int, t2: int)
    requires b0 >= 0 && b1 >= 0 && b2 >= 0 && 0 <= t2 <= t1 <= t0
    requires b1 * t0 >= b0 * t1 && b2 * t1 >= b1 * t2
    ensures b2 * t0 >= b0 * t2
  {
    if t1 > 0 {
      Scale(b0 * t1, b1 * t0, t2);
      Scale(b1 * t2, b2 * t1, t0);
      Rearrange(b0, t1, t2);
      Rearrange(b1, t0, t2);
      Rearrange(b2, t1, t0);
      Cancel(b0 * t2, b2 * t0, t1);
    }
  }

  lemma Scale(x: int, y: int, d: int)
    requires x <= y && d >= 0
    ensures x * d <= y * d
  {
  }

  lemma Rearrange(b: int, t: int, s: int)
    ensures b * t * s == b * s * t
  {
  }

  predicate NoBlocks(es: seq<Event>) {
    forall i :: 0 <= i < |es| ==> !es[i].Block?
  }

  lemma {:induction false} RunKeepsRate(l: Ledger, es: seq<Event>)
    requires Sound(l) && AllAllowed(l, es) && NoBlocks(es)
    ensures RateKept(l, Run(l, es))
    decreases |es|
  {
    SumPositive(l.producers);
    if es != [] {
      var m := After(l, es[0]);
      StepKeeps(l, es[0]);
      assert RateKept(l, m) by {
        if es[0].Claim? {
          ClaimKeepsRate(l, es[0].owner, es[0].now, es[0].minted);
        }
      }
      RunKeepsRate(m, es[1..]);
      RunSound(m, es[1..]);
      var n := Run(m, es[1..]);
      RateTransitive(l.perBlock, l.totalUnpaid, m.perBlock, m.totalUnpaid, n.perBlock, n.totalUnpaid);
    }
  }

  lemma ShareKept(l: Ledger, es: seq<Event>, unpaid: nat)
    requires Sound(l) && AllAllowed(l, es) && NoBlocks(es) && unpaid <= Run(l, es).totalUnpaid
    ensures var m := Run(l, es);
      BlockShare(m.perBlock, unpaid, m.totalUnpaid) >= BlockShare(l.perBlock, unpaid, l.totalUnpaid)
  {
    RunKeepsRate(l, es);
    RunSound(l, es);
    var m := Run(l, es);
    if m.totalUnpaid > 0 {
      ShareGrows(l.perBlock, l.totalUnpaid, m.perBlock, m.totalUnpaid, unpaid);
    } else {
      BlockShareBounds(l.perBlock, unpaid, l.totalUnpaid);
      assert l.totalUnpaid > 0 ==> l.perBlock * unpaid == 0;
    }
  }

  predicate NoClaimBy(es: seq<Event>, owner: Account) {
    forall i :: 0 <= i < |es| && es[i].Claim? ==> es[i].owner != owner
  }

  lemma FindStays(ps: seq<Producer>, ps': seq<Producer>, owner: Account)
    requires |ps| <= |ps'| && forall k :: 0 <= k < |ps| ==> ps'[k].owner == ps[k].owner
    requires Find(ps, owner) < |ps|
    ensures Find(ps', owner) == Find(ps, owner)
  {
  }

  /** No event removes a row or hands it to another account. */
  lemma OwnersStay(l: Ledger, e: Event)
    ensures |l.producers| <= |After(l, e).producers|
    ensures forall k :: 0 <= k < |l.producers| ==> After(l, e).producers[k].owner == l.producers[k].owner
  {
  }

  /** An account keeps its row, and its unpaid blocks, while others act. */
  lemma RowKept(l: Ledger, e: Event, owner: Account)
    requires Find(l.producers, owner) < |l.producers| && !e.Block? && (e.Claim? ==> e.owner != owner)
    ensures var (i, ps) := (Find(l.producers, owner), After(l, e).producers);
            Find(ps, owner) == i < |ps| && ps[i].unpaid == l.producers[i].unpaid
  {
    OwnersStay(l, e);
    FindStays(l.producers, After(l, e).producers, owner);
  }

  lemma {:induction false} RunRowKept(l: Ledger, es: seq<Event>, owner: Account)
    requires Find(l.producers, owner) < |l.producers| && NoBlocks(es) && NoClaimBy(es, owner)
    ensures var (i, ps) := (Find(l.producers, owner), Run(l, es).producers);
            Find(ps, owner) == i < |ps| && ps[i].unpaid == l.producers[i].unpaid
    decreases |es|
  {
    if es != [] {
      RowKept(l, es[0], owner);
      RunRowKept(After(l, es[0]), es[1..], owner);
    }
  }

  /**
    * Until the next block, letting others claim first costs a producer nothing: the block pay of a
    * registered account that does not claim itself is at least what it was before them.
    */
  lemma WaitingCostsNothing(l: Ledger, es: seq<Event>, owner: Account)
    requires Sound(l) && AllAllowed(l, es) && NoBlocks(es) && NoClaimBy(es, owner)
    requires Find(l.producers, owner) < |l.producers|
    ensures var (m, i) := (Run(l, es), Find(l.producers, owner));
            && Find(m.producers, owner) == i < |m.producers|
            && BlockPayOf(m, m.producers[i]) >= BlockPayOf(l, l.producers[i])
  {
    var m, i := Run(l, es), Find(l.producers, owner);
    RunRowKept(l, es, owner);
    RunSound(l, es);
    PartOfSum(m.producers, i);
    ShareKept(l, es, l.producers[i].unpaid);
  }

  lemma ShareGrows(b0: int, t0: int, b1: int, t1: int, u: int)
    requires b0 >= 0 && b1 >= 0 && 0 < t1 <= t0 && u >= 0 && b1 * t0 >= b0 * t1
    ensures b1 * u / t1 >= b0 * u / t0
  {
    var q := b0 * u / t0;
    ProductMonotone(b0, 0, u);
    Quotient(b0 * u, t0);
    Scale(q * t0, b0 * u, t1);
    Scale(b0 * t1, b1 * t0, u);
    Rearrange(b0, u, t1);
    Rearrange(b1, t0, u);
    Rearrange(q, t0, t1);
    Cancel(q * t1, b1 * u, t0);
    AtMostQuotient(q, b1 * u, t1);
  }

  lemma AtMostQuotient(q: int, x: int, d: int)
    requires d > 0 && q * d <= x
    ensures q <= x / d
  {
    if q > x / d {
      MulAtLeast(q - x / d, d);
      Distribute(q, x / d, d);
    }
  }
}
