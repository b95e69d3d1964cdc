/**
  * Producer rotation: which position of the schedule owns a slot, how often in any window,
  * where the next round starts, how two producers' forks share the slots, and the estimate of
  * the last irreversible block that follows from whole rounds.
  */
module Rotation {
  import opened Words
  import opened ChainTypes
  import opened BlockHeader

  /** The schedule position that owns a slot, out of n. */
  function Position(n: nat, slot: nat): (k: nat)
    requires n > 0
    ensures k < n
  {
    SlotIndexInRange(slot, n);
    slot % (n * PRODUCER_REPETITIONS) / PRODUCER_REPETITIONS
  }

  // --------------------------------------------------------------- turns in a window

  /** How many of the len slots from start on belong to a marked position. */
  function Turns(marked: seq<bool>, start: nat, len: nat): nat
    requires marked != []
    decreases len
  {
    if len == 0 then 0
    else Turns(marked, start, len - 1) + (if marked[Position(|marked|, start + len - 1)] then 1 else 0)
  }

  function Marks(marked: seq<bool>): nat {
    if marked == [] then 0
    else Marks(marked[..|marked| - 1]) + (if marked[|marked| - 1] then 1 else 0)
  }

  lemma Period(n: nat, slot: nat)
    requires n > 0
    ensures Position(n, slot + n * PRODUCER_REPETITIONS) == Position(n, slot)
  {
    var m := n * PRODUCER_REPETITIONS;
    DivMod(slot, m);
    DivIs(slot + m, m, slot / m + 1, slot % m);
  }

  /** A turn taken from the front of a window. */
  lemma {:induction false} TurnsFront(marked: seq<bool>, start: nat, len: nat)
    requires marked != [] && len > 0
    ensures Turns(marked, start, len)
         == (if marked[Position(|marked|, start)] then 1 else 0) + Turns(marked, start + 1, len - 1)
    decreases len
  {
    if len > 1 {
      TurnsFront(marked, start, len - 1);
    }
  }

  /** A round has the same turns wherever it starts. */
  lemma {:induction false} RoundAnywhere(marked: seq<bool>, start: nat)
    requires marked != []
    ensures Turns(marked, start, |marked| * PRODUCER_REPETITIONS)
         == Turns(marked, 0, |marked| * PRODUCER_REPETITIONS)
  {
    if start > 0 {
      var len := |marked| * PRODUCER_REPETITIONS;
      RoundAnywhere(marked, start - 1);
      TurnsFront(marked, start - 1, len);
      Period(|marked|, start - 1);
    }
  }

  lemma FirstRound(n: nat, m: nat, j: nat)
    requires m < n && j < PRODUCER_REPETITIONS
    ensures Position(n, m * PRODUCER_REPETITIONS + j) == m
  {
    var slot := m * PRODUCER_REPETITIONS + j;
    SmallRemainder(slot, n * PRODUCER_REPETITIONS);
  }

  lemma {:induction false} PartOfTurn(marked: seq<bool>, m: nat, j: nat)
    requires m < |marked| && j <= PRODUCER_REPETITIONS
    requires Turns(marked, 0, m * PRODUCER_REPETITIONS) == PRODUCER_REPETITIONS * Marks(marked[..m])
    ensures Turns(marked, 0, m * PRODUCER_REPETITIONS + j)
         == PRODUCER_REPETITIONS * Marks(marked[..m]) + (if marked[m] then j else 0)
    decreases j
  {
    if j > 0 {
      PartOfTurn(marked, m, j - 1);
      FirstRound(|marked|, m, j - 1);
    }
  }

  lemma {:induction false} FirstTurns(marked: seq<bool>, m: nat)
    requires 0 < |marked| && m <= |marked|
    ensures Turns(marked, 0, m * PRODUCER_REPETITIONS) == PRODUCER_REPETITIONS * Marks(marked[..m])
  {
    if m > 0 {
      FirstTurns(marked, m - 1);
      PartOfTurn(marked, m - 1, PRODUCER_REPETITIONS);
      assert marked[..m][..m - 1] == marked[..m - 1];
    }
  }

  /** In a round that starts anywhere, every marked position gets all its repetitions. */
  lemma RoundTurns(marked: seq<bool>, start: nat)
    requires marked != []
    ensures Turns(marked, start, |marked| * PRODUCER_REPETITIONS) == PRODUCER_REPETITIONS * Marks(marked)
  {
    RoundAnywhere(marked, start);
    FirstTurns(marked, |marked|);
    assert marked[..|marked|] == marked;
  }

  lemma {:induction false} TurnsSplit(marked: seq<bool>, start: nat, len: nat, more: nat)
    requires marked != []
    ensures Turns(marked, start, len + more) == Turns(marked, start, len) + Turns(marked, start + len, more)
    decreases more
  {
    if more > 0 {
      TurnsSplit(marked, start, len, more - 1);
    }
  }

  lemma AnotherRound(marked: seq<bool>, start: nat, len: nat, round: nat)
    requires marked != [] && round == |marked| * PRODUCER_REPETITIONS
    ensures Turns(marked, start, len + round) == Turns(marked, start, len) + PRODUCER_REPETITIONS * Marks(marked)
  {
    RoundTurns(marked, start + len);
    TurnsSplit(marked, start, len, round);
  }

  lemma {:induction false} RepeatedTurns(marked: seq<bool>, start: nat, rounds: nat, round: nat, turns: nat)
    requires marked != [] && round == |marked| * PRODUCER_REPETITIONS && turns == PRODUCER_REPETITIONS * Marks(marked)
    ensures Turns(marked, start, rounds * round) == rounds * turns
    decreases rounds
  {
    if rounds > 0 {
      RepeatedTurns(marked, start, rounds - 1, round, turns);
      OneMore(rounds, round);
      OneMore(rounds, turns);
      AnotherRound(marked, start, (rounds - 1) * round, round);
    }
  }

  /** Over whole rounds, producers times repetitions per round. */
  lemma RoundsTurns(marked: seq<bool>, start: nat, rounds: nat)
    requires marked != []
    ensures Turns(marked, start, rounds * (|marked| * PRODUCER_REPETITIONS))
         == rounds * (PRODUCER_REPETITIONS * Marks(marked))
  {
    RepeatedTurns(marked, start, rounds, |marked| * PRODUCER_REPETITIONS, PRODUCER_REPETITIONS * Marks(marked));
  }

  lemma OneMore(rounds: nat, round: nat)
    requires rounds > 0
    ensures (rounds - 1) * round >= 0 && rounds * round == (rounds - 1) * round + round
  {
    Distribute(rounds, 1, round);
  }

  function Only(n: nat, k: nat): (marked: seq<bool>)
    ensures |marked| == n
  {
    seq(n, i => i == k)
  }

  lemma {:induction false} OneMark(n: nat, k: nat, m: nat)
    requires k < n && m <= n
    ensures Marks(Only(n, k)[..m]) == if k < m then 1 else 0
    decreases m
  {
    if m > 0 {
      OneMark(n, k, m - 1);
      assert Only(n, k)[..m][..m - 1] == Only(n, k)[..m - 1];
    }
  }

  /** In any window of one round, every position is chosen exactly `repetitions` times. */
  lemma EveryPositionTurns(n: nat, k: nat, start: nat)
    requires k < n
    ensures Turns(Only(n, k), start, n * PRODUCER_REPETITIONS) == PRODUCER_REPETITIONS
  {
    RoundTurns(Only(n, k), start);
    OneMark(n, k, n);
    assert Only(n, k)[..n] == Only(n, k);
  }

  /** The positions that belong to a set of producers. */
  function MarkedBy(schedule: seq<AccountName>, names: set<AccountName>): (marked: seq<bool>)
    ensures |marked| == |schedule|
  {
    seq(|schedule|, k requires 0 <= k < |schedule| => schedule[k] in names)
  }

  /** The slots of a window in which a schedule lets one of the given producers sign. */
  ghost function OwnedSlots(active: Schedule, names: set<AccountName>, start: nat, len: nat): set<nat>
    requires active.producers != []
  {
    set s: nat | start <= s < start + len && ScheduledProducer(active, s).producerName in names
  }

  function NamesInOrder(active: Schedule): (names: seq<AccountName>)
    ensures |names| == |active.producers|
  {
    seq(|active.producers|, k requires 0 <= k < |active.producers| => active.producers[k].producerName)
  }

  lemma OwnedGrow(active: Schedule, names: set<AccountName>, start: nat, len: nat)
    requires active.producers != []
    ensures |OwnedSlots(active, names, start, len + 1)| == |OwnedSlots(active, names, start, len)|
         + (if ScheduledProducer(active, start + len).producerName in names then 1 else 0)
  {
    var before, slot := OwnedSlots(active, names, start, len), start + len;
    assert slot !in before;
    var mine := if ScheduledProducer(active, slot).producerName in names then {slot} else {};
    assert OwnedSlots(active, names, start, len + 1) == before + mine;
  }

  lemma {:induction false} OwnedAreTurns(active: Schedule, names: set<AccountName>, start: nat, len: nat)
    requires active.producers != []
    ensures |OwnedSlots(active, names, start, len)| == Turns(MarkedBy(NamesInOrder(active), names), start, len)
    decreases len
  {
    if len == 0 {
      assert OwnedSlots(active, names, start, 0) == {};
    } else {
      OwnedAreTurns(active, names, start, len - 1);
      OwnedGrow(active, names, start, len - 1);
    }
  }

  /** Over whole rounds, wherever they start, producers own repetitions slots per round for every
      position they hold. */
  lemma ScheduledRounds(active: Schedule, names: set<AccountName>, start: nat, rounds: nat)
    requires active.producers != []
    ensures |OwnedSlots(active, names, start, rounds * (|active.producers| * PRODUCER_REPETITIONS))|
         == rounds * (PRODUCER_REPETITIONS * Marks(MarkedBy(NamesInOrder(active), names)))
  {
    OwnedAreTurns(active, names, start, rounds * (|active.producers| * PRODUCER_REPETITIONS));
    RoundsTurns(MarkedBy(NamesInOrder(active), names), start, rounds);
  }

  /** Under a schedule without repeated names every producer signs exactly `repetitions` slots of
      any window of one round. */
  lemma EveryProducerTurns(active: Schedule, k: nat, start: nat)
    requires k < |active.producers|
    requires forall i :: 0 <= i < |active.producers| && i != k
               ==> active.producers[i].producerName != active.producers[k].producerName
    ensures |OwnedSlots(active, {active.producers[k].producerName}, start, |active.producers| * PRODUCER_REPETITIONS)|
         == PRODUCER_REPETITIONS
  {
    var n, names := |active.producers|, {active.producers[k].producerName};
    OwnedAreTurns(active, names, start, n * PRODUCER_REPETITIONS);
    assert MarkedBy(NamesInOrder(active), names) == Only(n, k);
    EveryPositionTurns(n, k, start);
  }

  // -------------------------------------------------------------- schedules and rounds

  method IsScheduleEqual(first: seq<ProducerKey>, second: seq<ProducerKey>) returns (equal: bool)
    ensures equal <==> first == second
  {
    equal := |first| == |second|;
    for i := 0 to |first|
      invariant equal <==> |first| == |second| && first[..i] == second[..i]
    {
      equal := equal && first[i] == second[i];
    }
  }

  /** The least block number after the head that starts a round; its slot belongs to position 0. */
  method NextRoundFirstBlock(head: nat, n: nat) returns (res: nat)
    requires n > 0
    ensures head < res <= head + n * PRODUCER_REPETITIONS
    ensures res % (n * PRODUCER_REPETITIONS) == 0
    ensures forall b :: head < b < res ==> b % (n * PRODUCER_REPETITIONS) != 0
    ensures Position(n, res) == 0
  {
    var round := n * PRODUCER_REPETITIONS;
    ghost var next := (head / round + 1) * round;
    NextMultiple(head, round);
    res := head + 1;
    while res % round != 0
      invariant head < res <= next
      invariant forall b :: head < b < res ==> b % round != 0
      decreases next - res
    {
      res := res + 1;
    }
  }

  lemma NextMultiple(head: nat, round: nat)
    requires round > 0
    ensures head < (head / round + 1) * round <= head + round
    ensures (head / round + 1) * round % round == 0
  {
    DivMod(head, round);
    Distribute(head / round, -1, round);
    DivIs((head / round + 1) * round, round, head / round + 1, 0);
  }

  // ------------------------------------------------------------------- two forks

  /** The slots among the len after start that belong to a marked position, in order. */
  function Slots(marked: seq<bool>, start: nat, len: nat): seq<nat>
    requires marked != []
    decreases len
  {
    if len == 0 then []
    else
      var slot := start + len;
      Slots(marked, start, len - 1) + (if marked[Position(|marked|, slot)] then [slot] else [])
  }

  function Head(start: nat, slots: seq<nat>): nat {
    if slots == [] then start else slots[|slots| - 1]
  }

  /**
    * Two chains from one head: in every turn each chain asks who owns the slot `skip` after its
    * own head, produces there if it is one of its producers, and otherwise skips one more.
    */
  method TwoForks(schedule: seq<AccountName>, ours: set<AccountName>, theirs: set<AccountName>, start: nat, turns: nat)
    returns (chain1: seq<nat>, chain2: seq<nat>, skip1: nat, skip2: nat)
    requires schedule != []
    ensures chain1 == Slots(MarkedBy(schedule, ours), start, turns)
    ensures chain2 == Slots(MarkedBy(schedule, theirs), start, turns)
    ensures Head(start, chain1) + skip1 == Head(start, chain2) + skip2 == start + turns + 1
  {
    chain1, chain2, skip1, skip2 := [], [], 1, 1;
    for i := 0 to turns
      invariant chain1 == Slots(MarkedBy(schedule, ours), start, i)
      invariant chain2 == Slots(MarkedBy(schedule, theirs), start, i)
      invariant Head(start, chain1) + skip1 == Head(start, chain2) + skip2 == start + i + 1
    {
      var next1 := Head(start, chain1) + skip1;
      if schedule[Position(|schedule|, next1)] in ours {
        chain1, skip1 := chain1 + [next1], 1;
      } else {
        skip1 := skip1 + 1;
      }
      var next2 := Head(start, chain2) + skip2;
      if schedule[Position(|schedule|, next2)] in theirs {
        chain2, skip2 := chain2 + [next2], 1;
      } else {
        skip2 := skip2 + 1;
      }
    }
  }

  lemma {:induction false} SlotsAre(marked: seq<bool>, start: nat, len: nat)
    requires marked != []
    ensures |Slots(marked, start, len)| == Turns(marked, start + 1, len)
    ensures forall s :: s in Slots(marked, start, len)
              <==> start < s <= start + len && marked[Position(|marked|, s)]
    decreases len
  {
    if len > 0 {
      SlotsAre(marked, start, len - 1);
    }
  }

  /** Forks of different producers never use the same slot. */
  lemma ForksDisjoint(schedule: seq<AccountName>, ours: set<AccountName>, theirs: set<AccountName>,
                      start: nat, turns: nat, slot: nat)
    requires schedule != [] && ours !! theirs && slot in Slots(MarkedBy(schedule, ours), start, turns)
    ensures slot !in Slots(MarkedBy(schedule, theirs), start, turns)
  {
    SlotsAre(MarkedBy(schedule, ours), start, turns);
    SlotsAre(MarkedBy(schedule, theirs), start, turns);
  }

  /** A fork gains producers times repetitions blocks in every round. */
  lemma ForkGain(marked: seq<bool>, start: nat, rounds: nat)
    requires marked != []
    ensures |Slots(marked, start, rounds * (|marked| * PRODUCER_REPETITIONS))|
         == rounds * (PRODUCER_REPETITIONS * Marks(marked))
  {
    var len := rounds * (|marked| * PRODUCER_REPETITIONS);
    SlotsAre(marked, start, len);
    RoundsTurns(marked, start + 1, rounds);
  }

  // -------------------------------------------------- estimate of the irreversible block

  const PERCENT_100: nat := 10000
  const IRREVERSIBLE_THRESHOLD_PERCENT: nat := 7000
  const TWO32: nat := 0x1_0000_0000
  const TWO64: nat := 0x1_0000_0000_0000_0000

  function ReversibleRounds(producers: nat): nat {
    producers * (PERCENT_100 - IRREVERSIBLE_THRESHOLD_PERCENT) / PERCENT_100
  }

  /** Three tenths of the producers, rounded down, have rounds that may still be reversed. */
  lemma ReversibleIs(producers: nat)
    ensures 10 * ReversibleRounds(producers) <= 3 * producers < 10 * (ReversibleRounds(producers) + 1)
  {
  }

  /** In unsigned arithmetic: 64 bits inside, 32 for the result. */
  function Estimate(rounds: nat, head: nat): nat {
    if rounds == 0 then head
    else
      var irreversibleRound := (head / PRODUCER_REPETITIONS - rounds) % TWO64;
      ((irreversibleRound + 1) * PRODUCER_REPETITIONS - 1) % TWO64 % TWO32
  }

  function ExpectedIrreversible(producers: nat, head: nat): nat {
    Estimate(ReversibleRounds(producers), head)
  }

  lemma ReversibleBound(producers: nat)
    requires producers <= MAX_PRODUCERS
    ensures ReversibleRounds(producers) <= 37
  {
  }

  lemma EnoughRounds(rounds: nat, head: nat)
    requires 1 <= rounds <= head / PRODUCER_REPETITIONS && head < TWO32
    ensures Estimate(rounds, head) == (head / PRODUCER_REPETITIONS - rounds + 1) * PRODUCER_REPETITIONS - 1
  {
  }

  lemma TooFewRounds(rounds: nat, head: nat)
    requires head / PRODUCER_REPETITIONS < rounds <= 37
    ensures Estimate(rounds, head) > head
  {
    var below := (head / PRODUCER_REPETITIONS - rounds + 1) * PRODUCER_REPETITIONS - 1;
    assert (head / PRODUCER_REPETITIONS - rounds) % TWO64 == TWO64 + head / PRODUCER_REPETITIONS - rounds;
    assert Estimate(rounds, head) == (12 * TWO64 + below) % TWO64 % TWO32;
    assert (12 * TWO64 + below) % TWO64 == TWO64 + below;
    assert (TWO64 + below) % TWO32 == TWO32 + below;
  }

  /** Exactly when enough rounds have passed, the estimate is a block of the chain. */
  lemma EstimateWithinChain(producers: nat, head: nat)
    requires producers <= MAX_PRODUCERS && head < TWO32
    ensures ExpectedIrreversible(producers, head) <= head
       <==> ReversibleRounds(producers) <= head / PRODUCER_REPETITIONS
  {
    var rounds := ReversibleRounds(producers);
    ReversibleBound(producers);
    if rounds > head / PRODUCER_REPETITIONS {
      TooFewRounds(rounds, head);
    } else if rounds > 0 {
      EnoughRounds(rounds, head);
    }
  }

  /** Then it ends a round and lags by less than one round more than the reversible ones. */
  lemma EstimateLag(producers: nat, head: nat)
    requires producers <= MAX_PRODUCERS && head < TWO32
    requires 1 <= ReversibleRounds(producers) <= head / PRODUCER_REPETITIONS
    ensures var rounds, lag := ReversibleRounds(producers), head - ExpectedIrreversible(producers, head);
      (rounds - 1) * PRODUCER_REPETITIONS + 1 <= lag <= rounds * PRODUCER_REPETITIONS
    ensures (ExpectedIrreversible(producers, head) + 1) % PRODUCER_REPETITIONS == 0
  {
    EnoughRounds(ReversibleRounds(producers), head);
  }

  lemma EstimateNeverFalls(producers: nat, head: nat, later: nat)
    requires producers <= MAX_PRODUCERS && head <= later < TWO32
    requires ReversibleRounds(producers) <= head / PRODUCER_REPETITIONS
    ensures ExpectedIrreversible(producers, head) <= ExpectedIrreversible(producers, later)
  {
    var rounds := ReversibleRounds(producers);
    if rounds > 0 {
      EnoughRounds(rounds, head);
      EnoughRounds(rounds, later);
    }
  }
}
