/**
  * Two chains from a genesis block with the one initial producer, whose blocks 2 to 4 install a
  * schedule of four. On the first, one producer alone gets a block proposed as irreversible, with
  * ranges that wrap around. On the second, the irreversible number falls after a new schedule has
  * taken over. Each chain is a table with a row per block.
  */
module DposExamples {
  import opened Wrappers
  import opened ChainTypes
  import opened OrderStatistic
  import opened BlockHeader
  import opened Dpos

  // ---------------------------------------------------------------------------
  // Steps of the header state
  // ---------------------------------------------------------------------------

  /** The state after a header, from the numbers the header leads to. */
  function Advanced(s: HeaderState, h: Header, irreversible: nat, proposed: nat, counts: seq<nat>): HeaderState {
    var a := s.(id := h.id, previous := s.id, blockNum := s.blockNum + 1, slot := h.slot, producer := h.producer,
                confirmed := h.confirmed, proposedIrreversible := proposed, irreversible := irreversible,
                lastProduced := s.lastProduced[h.producer := s.blockNum + 1],
                lastImplied := s.lastImplied[h.producer := s.proposedIrreversible],
                signingKey := 1, confirmCount := counts, confirmations := []);
    if h.newProducers.None? then a else a.(pending := h.newProducers.value, pendingLibNum := s.blockNum + 1)
  }

  /** The header is one that the scheduled producer may send. */
  predicate InTurn(s: HeaderState, h: Header) {
    && s.active.producers != [] && ScheduledProducer(s.active, h.slot) == ProducerKey(h.producer, 1)
    && h.slot > s.slot && h.previous == s.id && h.extensions == 0 && h.scheduleVersion == s.active.version
    && !DoubleConfirms(s, h)
  }

  /** What the confirmations of a header make of the grown counters, and the block they propose. */
  ghost predicate CountsTo(grown: seq<nat>, blockNum: nat, confirmed: nat, prior: nat, proposed: nat, counts: seq<nat>) {
    var lo := FirstTouched(grown, confirmed);
    var ready := ReadyIndex(grown, lo, |grown|);
    && counts == DecrementFrom(grown, lo)[ready + 1..]
    && proposed == if ready == -1 then prior else Sub32(blockNum, |grown| - 1 - ready)
  }

  lemma Stages(s: HeaderState, h: Header, irreversible: nat, proposed: nat, counts: seq<nat>)
    requires InTurn(s, h) && LastIrreversible(s.lastImplied[h.producer := s.proposedIrreversible]) == irreversible
    requires CountsTo(GrowCounts(s.confirmCount, Quorum(|s.active.producers|)), s.blockNum + 1, h.confirmed,
                      s.proposedIrreversible, proposed, counts)
    ensures var c := Confirmed(GenerateNext(s, h.slot), h.confirmed);
            c.(id := h.id) == Advanced(s, h.(newProducers := None), irreversible, proposed, counts)
  {
  }

  /** The header is one that the scheduled producer may send, and what it leads to. */
  ghost predicate Plain(s: HeaderState, h: Header, irreversible: nat, proposed: nat, counts: seq<nat>) {
    && InTurn(s, h) && ScheduleFits(h) && h.signer == 1
    && LastIrreversible(s.lastImplied[h.producer := s.proposedIrreversible]) == irreversible
    && CountsTo(GrowCounts(s.confirmCount, Quorum(|s.active.producers|)), s.blockNum + 1, h.confirmed,
                s.proposedIrreversible, proposed, counts)
  }

  lemma NextUnpromoted(s: HeaderState, h: Header, c: HeaderState)
    requires InTurn(s, h) && c == Confirmed(GenerateNext(s, h.slot), h.confirmed)
    requires !Promotes(c) && c.signingKey == h.signer
    requires h.newProducers.Some? ==> c.pending.producers == [] && h.newProducers.value.version == c.active.version + 1
    ensures Next(s, h, false)
         == Success((if h.newProducers.None? then c
                     else c.(pending := h.newProducers.value, pendingLibNum := c.blockNum)).(id := h.id))
  {
  }

  lemma PlainNext(s: HeaderState, h: Header, irreversible: nat, proposed: nat, counts: seq<nat>)
    requires Plain(s, h, irreversible, proposed, counts)
    requires s.pending.producers == [] || irreversible < s.pendingLibNum
    requires h.newProducers.Some? ==> s.pending.producers == [] && h.newProducers.value.version == s.active.version + 1
    ensures Next(s, h, false) == Success(Advanced(s, h, irreversible, proposed, counts))
  {
    Stages(s, h, irreversible, proposed, counts);
    var c := Confirmed(GenerateNext(s, h.slot), h.confirmed);
    assert !Promotes(c) && c.signingKey == h.signer;
    NextUnpromoted(s, h, c);
  }

  /** A step with a takeover. */
  lemma NextPromoted(s: HeaderState, h: Header, c: HeaderState)
    requires InTurn(s, h) && c == Confirmed(GenerateNext(s, h.slot), h.confirmed)
    requires h.newProducers.None? && c.signingKey == h.signer
    ensures Next(s, h, false) == Success(Promoted(c).(id := h.id))
  {
  }

  lemma PromotedNext(s: HeaderState, h: Header, irreversible: nat, proposed: nat, counts: seq<nat>)
    requires Plain(s, h, irreversible, proposed, counts) && h.newProducers.None?
    ensures Next(s, h, false) == Success(Promoted(Advanced(s, h, irreversible, proposed, counts)))
  {
    Stages(s, h, irreversible, proposed, counts);
    var c := Confirmed(GenerateNext(s, h.slot), h.confirmed);
    assert Promoted(c).(id := h.id) == Promoted(c.(id := h.id));
    NextPromoted(s, h, c);
  }

  // ---------------------------------------------------------------------------
  // Rows
  // ---------------------------------------------------------------------------

  /** The producers of the three schedules of the examples. */
  function Names(version: nat): (names: seq<AccountName>)
    ensures 1 <= |names| <= 4 && Distinct(names)
  {
    if version == 0 then [1] else if version == 1 then [1, 2, 3, 4] else [1, 4]
  }

  predicate Distinct(names: seq<AccountName>) {
    forall i, j :: 0 <= i < j < |names| ==> names[i] != names[j]
  }

  /** All producers have the same key. */
  function Crew(version: nat): (s: Schedule)
    ensures |s.producers| == |Names(version)|
  {
    Schedule(version, seq(|Names(version)|, i requires 0 <= i < |Names(version)| => ProducerKey(Names(version)[i], 1)))
  }

  /** A block: who made it in which slot, what it confirmed, the numbers after it, the schedules, and
      for each active producer the last block it made and the number it implies. */
  datatype Row = Row(
    num: nat, slot: nat, producer: AccountName, confirmed: nat, proposed: nat, irreversible: nat,
    pending: Schedule, lib: nat, version: nat, produced: seq<nat>, implied: seq<nat>, counts: seq<nat>)

  predicate Shaped(r: Row) {
    r.num > 0 && |r.produced| == |r.implied| == |Names(r.version)|
  }

  function Table(names: seq<AccountName>, v: seq<nat>): map<AccountName, nat>
    requires |v| == |names| && Distinct(names)
  {
    map i | 0 <= i < |names| :: names[i] := v[i]
  }

  /** The state of a row; ids are block numbers, and the first block has no tables yet. */
  function StateOf(r: Row): HeaderState
    requires Shaped(r)
  {
    HeaderState(r.num, r.num - 1, r.num, r.slot, r.producer, r.confirmed, r.proposed, r.irreversible, 0, r.lib,
                r.pending, Crew(r.version),
                if r.num == 1 then map[] else Table(Names(r.version), r.produced),
                if r.num == 1 then map[] else Table(Names(r.version), r.implied),
                if r.num == 1 then 0 else 1, r.counts, [])
  }

  /** The header of row b on top of row a; it announces the schedule that b has pending and a has not. */
  function HeaderOf(a: Row, b: Row): Header
    requires a.num > 0
  {
    Header(b.num, a.num, b.slot, b.producer, b.confirmed, a.version,
           if b.pending == a.pending then None else Some(b.pending), 0, 1)
  }

  // ---------------------------------------------------------------------------
  // Levels
  // ---------------------------------------------------------------------------

  function Reaches(v: seq<nat>, x: nat, i: nat): nat {
    if i < |v| && v[i] >= x then 1 else 0
  }

  function Count(v: seq<nat>, x: nat): nat {
    Reaches(v, x, 0) + Reaches(v, x, 1) + Reaches(v, x, 2) + Reaches(v, x, 3)
  }

  predicate IsLevel(v: seq<nat>, x: nat) {
    Count(v, x) >= Supermajority(|v|) > Count(v, x + 1)
  }

  ghost function BackersBelow(names: seq<AccountName>, v: seq<nat>, x: nat, k: nat): set<AccountName>
    requires |v| == |names|
  {
    set i | 0 <= i < |v| && i < k && v[i] >= x :: names[i]
  }

  lemma OneMoreBacker(names: seq<AccountName>, v: seq<nat>, x: nat, k: nat)
    requires |v| == |names| && Distinct(names)
    ensures |BackersBelow(names, v, x, k + 1)| == |BackersBelow(names, v, x, k)| + Reaches(v, x, k)
  {
    var more := if k < |v| && v[k] >= x then {names[k]} else {};
    assert BackersBelow(names, v, x, k + 1) == BackersBelow(names, v, x, k) + more;
  }

  lemma BackingIs(names: seq<AccountName>, v: seq<nat>, x: nat)
    requires |v| == |names| <= 4 && Distinct(names)
    ensures Backing(Table(names, v), x) == Count(v, x) && |Table(names, v)| == |v|
  {
    assert Backers(Table(names, v), x) == BackersBelow(names, v, x, 4);
    assert Table(names, v).Keys == BackersBelow(names, v, 0, 4);
    assert |Table(names, v)| == |Table(names, v).Keys|;
    assert BackersBelow(names, v, x, 0) == {} == BackersBelow(names, v, 0, 0);
    for k := 0 to 4
      invariant |BackersBelow(names, v, x, k)| == (if k > 0 then Reaches(v, x, 0) else 0)
                + (if k > 1 then Reaches(v, x, 1) else 0) + (if k > 2 then Reaches(v, x, 2) else 0)
                + (if k > 3 then Reaches(v, x, 3) else 0)
      invariant |BackersBelow(names, v, 0, k)| == if k < |v| then k else |v|
    {
      OneMoreBacker(names, v, x, k);
      OneMoreBacker(names, v, 0, k);
    }
  }

  lemma LevelIs(names: seq<AccountName>, v: seq<nat>, x: nat)
    requires 1 <= |v| == |names| <= 4 && IsLevel(v, x)
    requires Distinct(names)
    ensures LastIrreversible(Table(names, v)) == x
  {
    BackingIs(names, v, x);
    BackingIs(names, v, x + 1);
    assert names[0] in Table(names, v);
    LastIrreversibleIs(Table(names, v), x);
  }

  // ---------------------------------------------------------------------------
  // From row to row
  // ---------------------------------------------------------------------------

  function Turn(names: seq<AccountName>, slot: nat): (k: nat)
    requires names != []
    ensures k < |names|
  {
    SlotIndexInRange(slot, |names|);
    slot % (|names| * PRODUCER_REPETITIONS) / PRODUCER_REPETITIONS
  }

  /** Row b is the next block after row a, by the producer whose turn it is. */
  ghost predicate Follows(a: Row, b: Row) {
    && Shaped(a) && Shaped(b) && (a.num == 1 ==> |Names(a.version)| == 1)
    && b.num == a.num + 1 && b.slot > a.slot && b.version == a.version
    && var k := Turn(Names(b.version), b.slot);
    && b.producer == Names(b.version)[k] && a.produced[k] < Sub32(b.num, b.confirmed)
    && b.produced == a.produced[k := b.num] && b.implied == a.implied[k := a.proposed]
    && IsLevel(b.implied, b.irreversible)
    && CountsTo(GrowCounts(a.counts, Quorum(|Names(a.version)|)), b.num, b.confirmed, a.proposed, b.proposed, b.counts)
  }

  /** No schedule takes over; one may be announced. */
  predicate Quiet(a: Row, b: Row) {
    && (a.pending.producers == [] || b.irreversible < a.lib)
    && if b.pending == a.pending then b.lib == a.lib
       else a.pending.producers == [] && b.pending.version == a.version + 1 && b.lib == b.num
            && |b.pending.producers| <= MAX_PRODUCERS
  }

  lemma TableSet(names: seq<AccountName>, v: seq<nat>, k: nat, x: nat)
    requires |v| == |names| && k < |names| && Distinct(names)
    ensures Table(names, v)[names[k] := x] == Table(names, v[k := x])
    ensures |names| == 1 ==> map[][names[k] := x] == Table(names, v[k := x])
  {
  }

  lemma RowTables(a: Row, b: Row)
    requires Follows(a, b)
    ensures var s := StateOf(a);
            && s.lastProduced[b.producer := b.num] == StateOf(b).lastProduced
            && s.lastImplied[b.producer := a.proposed] == StateOf(b).lastImplied
            && LastIrreversible(StateOf(b).lastImplied) == b.irreversible
            && (b.producer in s.lastProduced ==> s.lastProduced[b.producer] < Sub32(b.num, b.confirmed))
  {
    var k := Turn(Names(b.version), b.slot);
    TableSet(Names(a.version), a.produced, k, b.num);
    TableSet(Names(a.version), a.implied, k, a.proposed);
    LevelIs(Names(b.version), b.implied, b.irreversible);
  }

  lemma CrewTurn(version: nat, slot: nat)
    ensures ScheduledProducer(Crew(version), slot) == ProducerKey(Names(version)[Turn(Names(version), slot)], 1)
  {
  }

  /** The entries of the new producers: those at the given places of the old table, newcomers at the start. */
  predicate CarriedFrom(names: seq<AccountName>, v: seq<nat>, places: seq<int>, start: nat,
                        names': seq<AccountName>, v': seq<nat>)
  {
    && |v| == |names| && |v'| == |names'| == |places|
    && forall i :: 0 <= i < |names'| ==>
         if 0 <= places[i] < |names| then names'[i] == names[places[i]] && v'[i] == v[places[i]]
         else names'[i] !in names && v'[i] == start
  }

  lemma CrewNames(version: nat)
    ensures Crew(version).Names() == set i | 0 <= i < |Names(version)| :: Names(version)[i]
  {
    forall i | 0 <= i < |Names(version)| ensures Names(version)[i] in Crew(version).Names() {
      assert Crew(version).producers[i].producerName == Names(version)[i];
    }
  }

  lemma TableCarried(names: seq<AccountName>, v: seq<nat>, places: seq<int>, start: nat, all: set<AccountName>,
                     names': seq<AccountName>, v': seq<nat>)
    requires Distinct(names) && Distinct(names') && CarriedFrom(names, v, places, start, names', v')
    requires all == set i | 0 <= i < |names'| :: names'[i]
    ensures Carried(Table(names, v), all, start) == Table(names', v')
  {
    var carried := Carried(Table(names, v), all, start);
    forall i | 0 <= i < |names'| ensures names'[i] in carried && carried[names'[i]] == v'[i] {
      assert names'[i] in all;
      if 0 <= places[i] < |names| {
        assert names[places[i]] in Table(names, v);
      }
    }
    assert carried.Keys == all == Table(names', v').Keys;
  }

  /** Row c is row b after the pending schedule took over, its producer the k-th of the new ones. */
  predicate TakesOver(b: Row, c: Row, places: seq<int>, k: nat) {
    && Shaped(b) && Shaped(c) && b.num > 1 && b.pending == Crew(c.version) && b.lib <= b.irreversible
    && c == b.(pending := Schedule(c.version, []), version := c.version,
               produced := c.produced, implied := c.implied)
    && CarriedFrom(Names(b.version), b.produced, places, b.irreversible, Names(c.version), c.produced)
    && CarriedFrom(Names(b.version), b.implied, places, b.irreversible, Names(c.version), c.implied)
    && k < |Names(c.version)| && Names(c.version)[k] == b.producer && c.produced[k] == b.num
  }

  lemma TakenIs(b: Row, c: Row, places: seq<int>, k: nat)
    requires TakesOver(b, c, places, k)
    ensures Promoted(StateOf(b)) == StateOf(c)
  {
    CrewNames(c.version);
    TableCarried(Names(b.version), b.produced, places, b.irreversible, Crew(c.version).Names(), Names(c.version), c.produced);
    TableCarried(Names(b.version), b.implied, places, b.irreversible, Crew(c.version).Names(), Names(c.version), c.implied);
    TableSet(Names(c.version), c.produced, k, b.num);
    assert c.produced[k := b.num] == c.produced;
  }

  lemma RowInTurn(a: Row, b: Row)
    requires Follows(a, b)
    ensures InTurn(StateOf(a), HeaderOf(a, b))
  {
    RowTables(a, b);
    CrewTurn(a.version, b.slot);
  }

  lemma RowPlain(a: Row, b: Row)
    requires Follows(a, b) && (b.pending == a.pending || |b.pending.producers| <= MAX_PRODUCERS)
    ensures Plain(StateOf(a), HeaderOf(a, b), b.irreversible, b.proposed, b.counts)
  {
    RowInTurn(a, b);
    assert LastIrreversible(StateOf(a).lastImplied[b.producer := a.proposed]) == b.irreversible by {
      RowTables(a, b);
    }
  }

  lemma RowAdvanced(a: Row, b: Row)
    requires Follows(a, b) && (if b.pending == a.pending then b.lib == a.lib else b.lib == b.num)
    ensures Advanced(StateOf(a), HeaderOf(a, b), b.irreversible, b.proposed, b.counts) == StateOf(b)
  {
    RowTables(a, b);
  }

  // ---------------------------------------------------------------------------
  // Chains of rows
  // ---------------------------------------------------------------------------

  /** A valid chain that ends in the row; the quantifier keeps its links out of sight. */
  ghost predicate Ends(c: Chain, r: Row) {
    Shaped(r) && forall d :: d == c ==> ValidChain(d) && d.state == StateOf(r)
  }

  /** The block of row b on top of row a is accepted and leaves row r. */
  ghost predicate Leads(a: Row, b: Row, r: Row) {
    && Shaped(a) && Shaped(r)
    && forall x :: x == a ==>
         Follows(x, b) && ScheduleFits(HeaderOf(x, b)) && Next(StateOf(x), HeaderOf(x, b), false) == Success(StateOf(r))
  }

  lemma Quietly(a: Row, b: Row)
    requires Follows(a, b) && Quiet(a, b)
    ensures Leads(a, b, b)
  {
    RowPlain(a, b);
    RowAdvanced(a, b);
    PlainNext(StateOf(a), HeaderOf(a, b), b.irreversible, b.proposed, b.counts);
  }

  lemma Takeover(a: Row, b: Row, r: Row, places: seq<int>, k: nat)
    requires Follows(a, b) && b.pending == a.pending && b.lib == a.lib && TakesOver(b, r, places, k)
    ensures Leads(a, b, r)
  {
    RowPlain(a, b);
    RowAdvanced(a, b);
    TakenIs(b, r, places, k);
    PromotedNext(StateOf(a), HeaderOf(a, b), b.irreversible, b.proposed, b.counts);
  }

  lemma {:induction false} LinkIsValid(c: Chain, s: HeaderState, h: Header)
    requires ValidChain(c) && c.state.active.producers != [] && ScheduleFits(h) && Next(c.state, h, false) == Success(s)
    ensures ValidChain(Link(s, c, h, false))
  {
  }

  /** All blocks are producer 1's, and the fifth, once there, asks for three confirmers. */
  ghost predicate ByOne(c: Chain, num: nat) {
    forall d :: d == c ==>
      && (forall i :: 0 <= i < |Votes(d)| ==> Votes(d)[i].producer == 1)
      && (num >= 5 ==> Vote(5, 1, 0) in Votes(d) && 5 in Need(d) && Need(d)[5] == 3)
  }

  lemma {:induction false} LinkByOne(c: Chain, s: HeaderState, h: Header, num: nat)
    requires ByOne(c, num) && c.state.blockNum == num && h.producer == 1
    requires num == 4 ==> h.confirmed == 0 && |c.state.active.producers| == 4
    ensures ByOne(Link(s, c, h, false), num + 1)
  {
    var d := Link(s, c, h, false);
    assert Votes(d)[|Votes(c)|] == VoteOf(c.state, h);
  }

  /** The chain goes on with the block of row b. */
  lemma {:induction false} Extend(c: Chain, a: Row, b: Row, r: Row) returns (d: Chain)
    requires Ends(c, a) && Leads(a, b, r)
    ensures Ends(d, r) && d.Link? && d.parent == c
    ensures RangesWithinChain(c) && b.confirmed <= b.num ==> RangesWithinChain(d)
    ensures a.num > 1 && b.confirmed > b.num ==> !RangesWithinChain(d)
    ensures ByOne(c, a.num) && b.producer == 1 && (b.num == 5 ==> b.confirmed == 0 && a.version == 1) ==> ByOne(d, b.num)
  {
    assert ValidChain(c) && Follows(a, b);
    LinkIsValid(c, StateOf(r), HeaderOf(a, b));
    d := Link(StateOf(r), c, HeaderOf(a, b), false);
    if ByOne(c, a.num) && b.producer == 1 && (b.num == 5 ==> b.confirmed == 0 && a.version == 1) {
      LinkByOne(c, StateOf(r), HeaderOf(a, b), a.num);
    }
  }

  // ---------------------------------------------------------------------------
  // Counters
  // ---------------------------------------------------------------------------

  lemma Grown()
    ensures Quorum(1) == 1 && Quorum(2) == 2 && Quorum(4) == 3
    ensures GrowCounts([], 1) == [1] && GrowCounts([], 3) == [3] && GrowCounts([2], 3) == [2, 3]
    ensures GrowCounts([1, 2], 3) == [1, 2, 3] && GrowCounts([1, 2], 2) == [1, 2, 2]
  {
  }

  /** Alone, a producer's block is proposed at once. */
  lemma SoloCounts(blockNum: nat, prior: nat)
    ensures CountsTo(GrowCounts([], Quorum(1)), blockNum, 0, prior, blockNum, [])
  {
    Grown();
    assert ReadyIndex([1], 0, 1) == 0;
    assert DecrementFrom([1], 0)[1..] == [];
  }

  /** The first block of the four, and the second. */
  lemma FirstCounts()
    ensures CountsTo(GrowCounts([], Quorum(4)), 5, 0, 4, 4, [2])
  {
    Grown();
    assert ReadyIndex([3], 0, 1) == -1;
    assert DecrementFrom([3], 0) == [2];
  }

  lemma SecondCounts(confirmed: nat)
    requires confirmed >= 1
    ensures CountsTo(GrowCounts([2], Quorum(4)), 6, confirmed, 4, 4, [1, 2])
  {
    Grown();
    assert ReadyIndex([2, 3], 0, 2) == -1;
    assert DecrementFrom([2, 3], 0) == [1, 2];
  }

  lemma SteadyList(blockNum: nat, confirmed: nat, prior: nat)
    requires blockNum >= 2 && confirmed >= 2
    ensures CountsTo([1, 2, 3], blockNum, confirmed, prior, blockNum - 2, [1, 2])
  {
    assert ReadyIndex([1, 2, 3], 0, 3) == 0 by {
      ReadyIndexIs([1, 2, 3], 0, 3, 0);
    }
    assert DecrementFrom([1, 2, 3], 0) == [0, 1, 2];
  }

  /** From two open counters, all confirming, the block before last is proposed. */
  lemma SteadyCounts(blockNum: nat, confirmed: nat, prior: nat)
    requires blockNum >= 2 && confirmed >= 2
    ensures CountsTo(GrowCounts([1, 2], Quorum(4)), blockNum, confirmed, prior, blockNum - 2, [1, 2])
  {
    Grown();
    SteadyList(blockNum, confirmed, prior);
  }

  lemma LastCounts()
    ensures CountsTo(GrowCounts([1, 2], Quorum(2)), 12, 0, 9, 9, [1, 2, 1])
  {
    Grown();
    assert FirstTouched([1, 2, 2], 0) == 2 && ReadyIndex([1, 2, 2], 2, 3) == -1;
    assert DecrementFrom([1, 2, 2], 2) == [1, 2, 1];
  }

  // ---------------------------------------------------------------------------
  // The initial producer installs the four
  // ---------------------------------------------------------------------------

  function Row1(): Row { Row(1, 0, 0, 0, 0, 0, Crew(0), 0, 0, [0], [0], []) }
  function Full2(): Row { Row(2, 1, 1, 0, 2, 0, Crew(0), 0, 0, [2], [0], []) }
  function Row2(): Row { Row(2, 1, 1, 0, 2, 0, Schedule(0, []), 0, 0, [2], [0], []) }
  function Row3(): Row { Row(3, 2, 1, 0, 3, 2, Crew(1), 3, 0, [3], [2], []) }
  function Full4(): Row { Row(4, 3, 1, 0, 4, 3, Crew(1), 3, 0, [4], [3], []) }

  /** A row under the four, before a new schedule is announced. */
  function Early(num: nat, slot: nat, confirmed: nat, proposed: nat, produced: seq<nat>, implied: seq<nat>,
                 counts: seq<nat>): Row
  {
    Row(num, slot, 1, confirmed, proposed, 3, Schedule(1, []), 3, 1, produced, implied, counts)
  }

  function Row4(): Row { Early(4, 3, 0, 4, [4, 3, 3, 3], [3, 3, 3, 3], []) }
  function Row5(): Row { Early(5, 48, 0, 4, [5, 3, 3, 3], [4, 3, 3, 3], [2]) }

  lemma Block2()
    ensures Leads(Row1(), Full2(), Row2())
  {
    SoloCounts(2, 0);
    Takeover(Row1(), Full2(), Row2(), [0], 0);
  }

  lemma Block3()
    ensures Leads(Row2(), Row3(), Row3())
  {
    SoloCounts(3, 2);
    Quietly(Row2(), Row3());
  }

  lemma Block4()
    ensures Leads(Row3(), Full4(), Row4())
  {
    SoloCounts(4, 3);
    Takeover(Row3(), Full4(), Row4(), [0, -1, -1, -1], 0);
  }

  lemma Block5()
    ensures Leads(Row4(), Row5(), Row5())
  {
    FirstCounts();
    Quietly(Row4(), Row5());
  }

  lemma Origin() returns (c: Chain)
    ensures Ends(c, Row1()) && RangesWithinChain(c) && ByOne(c, 1)
  {
    c := Genesis(StateOf(Row1()));
    assert ValidChain(c);
  }

  /** The chain of the first five blocks. */
  lemma Installed() returns (c: Chain)
    ensures Ends(c, Row5()) && RangesWithinChain(c) && ByOne(c, 5)
  {
    var c1 := Origin();
    Block2();
    var c2 := Extend(c1, Row1(), Full2(), Row2());
    Block3();
    var c3 := Extend(c2, Row2(), Row3(), Row3());
    Block4();
    var c4 := Extend(c3, Row3(), Full4(), Row4());
    Block5();
    c := Extend(c4, Row4(), Row5(), Row5());
  }

  // ---------------------------------------------------------------------------
  // One producer alone
  // ---------------------------------------------------------------------------

  function Alone6(): Row { Early(6, 49, 7, 4, [6, 3, 3, 3], [4, 3, 3, 3], [1, 2]) }
  function Alone7(): Row { Early(7, 50, 8, 5, [7, 3, 3, 3], [4, 3, 3, 3], [1, 2]) }

  lemma AloneBlock6()
    ensures Leads(Row5(), Alone6(), Alone6())
  {
    SecondCounts(7);
    assert Sub32(6, 7) == 0xFFFF_FFFF;
    Quietly(Row5(), Alone6());
  }

  lemma AloneBlock7()
    ensures Leads(Alone6(), Alone7(), Alone7())
  {
    SteadyCounts(7, 8, 4);
    assert Sub32(7, 8) == 0xFFFF_FFFF;
    Quietly(Alone6(), Alone7());
  }

  lemma {:induction false} OneConfirms(c: Chain)
    requires ByOne(c, 7)
    ensures Confirmers(Votes(c), 5) == {1} && !HasQuorum(Votes(c), Need(c), 5)
  {
    var votes := Votes(c);
    var i :| 0 <= i < |votes| && votes[i] == Vote(5, 1, 0);
    assert Covers(votes[i], 5);
    assert Confirmers(votes, 5) == {1};
    assert |{1}| == 1;
  }

  /**
    * Without the bound on ranges a block is proposed on one producer's word: producer 1 makes blocks
    * 5, 6 and 7, the last two with ranges that reach below block 0, and block 5 is proposed with one
    * confirmer where three are needed.
    */
  lemma WrappedRangesPropose() returns (c: Chain)
    ensures ValidChain(c) && !RangesWithinChain(c) && c.state.proposedIrreversible == 5
    ensures Confirmers(Votes(c), 5) == {1} && !HasQuorum(Votes(c), Need(c), 5)
  {
    var c5 := Installed();
    AloneBlock6();
    var c6 := Extend(c5, Row5(), Alone6(), Alone6());
    AloneBlock7();
    c := Extend(c6, Alone6(), Alone7(), Alone7());
    OneConfirms(c);
    assert ValidChain(c);
  }

  // ---------------------------------------------------------------------------
  // A takeover
  // ---------------------------------------------------------------------------

  /** A row under the four while the schedule of two is pending, from block 6 on. */
  function Waiting(num: nat, slot: nat, producer: AccountName, confirmed: nat, proposed: nat, irreversible: nat,
                   produced: seq<nat>, implied: seq<nat>): Row
  {
    Row(num, slot, producer, confirmed, proposed, irreversible, Crew(2), 6, 1, produced, implied, [1, 2])
  }

  /** A row under the two, of whom producer 4 never makes a block. */
  function Late(num: nat, slot: nat, confirmed: nat, irreversible: nat, produced: nat, implied: nat, counts: seq<nat>): Row {
    Row(num, slot, 1, confirmed, 9, irreversible, Schedule(2, []), 6, 2, [produced, 3], [implied, 3], counts)
  }

  function Row6(): Row { Waiting(6, 60, 2, 1, 4, 3, [5, 6, 3, 3], [4, 4, 3, 3]) }
  function Row7(): Row { Waiting(7, 72, 3, 2, 5, 4, [5, 6, 7, 3], [4, 4, 4, 3]) }
  function Row8(): Row { Waiting(8, 96, 1, 2, 6, 4, [8, 6, 7, 3], [5, 4, 4, 3]) }
  function Row9(): Row { Waiting(9, 108, 2, 2, 7, 4, [8, 9, 7, 3], [5, 6, 4, 3]) }
  function Row10(): Row { Waiting(10, 120, 3, 2, 8, 5, [8, 9, 10, 3], [5, 6, 7, 3]) }
  function Full11(): Row { Waiting(11, 144, 1, 2, 9, 6, [11, 9, 10, 3], [8, 6, 7, 3]) }
  function Row11(): Row { Late(11, 144, 2, 6, 11, 8, [1, 2]) }
  function Row12(): Row { Late(12, 168, 0, 3, 12, 9, [1, 2, 1]) }

  lemma Block6()
    ensures Leads(Row5(), Row6(), Row6())
  {
    SecondCounts(1);
    Quietly(Row5(), Row6());
  }

  lemma Block7()
    ensures Leads(Row6(), Row7(), Row7())
  {
    SteadyCounts(7, 2, 4);
    Quietly(Row6(), Row7());
  }

  lemma Block8()
    ensures Leads(Row7(), Row8(), Row8())
  {
    SteadyCounts(8, 2, 5);
    Quietly(Row7(), Row8());
  }

  lemma Block9()
    ensures Leads(Row8(), Row9(), Row9())
  {
    SteadyCounts(9, 2, 6);
    Quietly(Row8(), Row9());
  }

  lemma Block10()
    ensures Leads(Row9(), Row10(), Row10())
  {
    SteadyCounts(10, 2, 7);
    Quietly(Row9(), Row10());
  }

  lemma Block11()
    ensures Leads(Row10(), Full11(), Row11())
  {
    SteadyCounts(11, 2, 8);
    Takeover(Row10(), Full11(), Row11(), [0, 3], 0);
  }

  lemma Block12()
    ensures Leads(Row11(), Row12(), Row12())
  {
    LastCounts();
    Quietly(Row11(), Row12());
  }

  /** The chain of all twelve blocks. */
  lemma TakenOver() returns (c: Chain)
    ensures Ends(c, Row12()) && RangesWithinChain(c) && c.Link? && Ends(c.parent, Row11())
  {
    var c5 := Installed();
    Block6();
    var c6 := Extend(c5, Row5(), Row6(), Row6());
    Block7();
    var c7 := Extend(c6, Row6(), Row7(), Row7());
    Block8();
    var c8 := Extend(c7, Row7(), Row8(), Row8());
    Block9();
    var c9 := Extend(c8, Row8(), Row9(), Row9());
    Block10();
    var c10 := Extend(c9, Row9(), Row10(), Row10());
    Block11();
    var c11 := Extend(c10, Row10(), Full11(), Row11());
    Block12();
    c := Extend(c11, Row11(), Row12(), Row12());
  }

  /**
    * After a schedule took over, the irreversible number can fall. Of four producers three make blocks
    * 5 to 11 and bring the number to 6; then the first of them takes over together with the one who
    * never made a block, and with block 12 the number is back at 3.
    */
  lemma TakeoverLowersIrreversible() returns (c: Chain)
    ensures ValidChain(c) && RangesWithinChain(c) && c.Link? && !KeepsSchedule(c.parent)
    ensures c.parent.state.irreversible == 6 && c.state.irreversible == 3
  {
    c := TakenOver();
    assert ValidChain(c) && ValidChain(c.parent);
    if KeepsSchedule(c.parent) {
      IrreversibleNeverFalls(c);
    }
  }
}
