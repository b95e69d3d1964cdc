/**
  * The header state of a block and its transition to the next one: producer rotation, the
  * confirmation counters behind delegated proof of stake, and schedule changes.
  */
module BlockHeader {
  import opened Wrappers
  import opened ChainTypes
  import opened OrderStatistic

  datatype HeaderState = HeaderState(
    id: BlockId,
    previous: BlockId,
    blockNum: nat,
    slot: nat,
    producer: AccountName,
    confirmed: nat,
    proposedIrreversible: nat,
    irreversible: nat,
    bftIrreversible: nat,
    pendingLibNum: nat,
    pending: Schedule,
    active: Schedule,
    lastProduced: map<AccountName, nat>,
    lastImplied: map<AccountName, nat>,
    signingKey: PublicKey,
    confirmCount: seq<nat>,
    confirmations: seq<Confirmation>)

  datatype HeaderError =
    | NoTimestamp
    | UnsupportedExtension
    | NotLaterInTime
    | Unlinkable
    | WrongProducer
    | WrongScheduleVersion
    | DoubleConfirm
    | PendingJustPromoted
    | WrongPendingVersion
    | PendingNotConfirmed
    | WrongSigningKey

  // ---------------------------------------------------------------------------
  // Machine arithmetic of the counters
  // ---------------------------------------------------------------------------

  /** Subtraction of unsigned 32-bit numbers. */
  function Sub32(a: nat, b: nat): nat {
    if b <= a then a - b else (a - b) % 0x1_0000_0000
  }

  /** Decrement of an unsigned 8-bit number. */
  function Dec8(x: nat): nat {
    if x == 0 then 255 else x - 1
  }

  // ---------------------------------------------------------------------------
  // generate_next
  // ---------------------------------------------------------------------------

  function ScheduledProducer(active: Schedule, slot: nat): (key: ProducerKey)
    requires active.producers != []
    ensures key.producerName in active.Names()
  {
    var n := |active.producers|;
    var index := slot % (n * PRODUCER_REPETITIONS) / PRODUCER_REPETITIONS;
    assert index < n by { SlotIndexInRange(slot, n); }
    active.producers[index]
  }

  lemma SlotIndexInRange(slot: nat, n: nat)
    requires n > 0
    ensures 0 <= slot % (n * PRODUCER_REPETITIONS) / PRODUCER_REPETITIONS < n
  {
  }

  /** The counters with room for one more block, the oldest dropped at the tracking limit. */
  function GrowCounts(counts: seq<nat>, required: nat): seq<nat> {
    if |counts| < MAX_TRACKED_CONFIRMATIONS then counts + [required % 256]
    else counts[1..] + [required % 256]
  }

  ghost function GenerateNext(s: HeaderState, slot: nat): HeaderState
    requires s.active.producers != []
  {
    var key := ScheduledProducer(s.active, slot);
    var implied := s.lastImplied[key.producerName := s.proposedIrreversible];
    s.(previous := s.id,
       blockNum := s.blockNum + 1,
       slot := slot,
       producer := key.producerName,
       confirmed := 0,
       irreversible := LastIrreversible(implied),
       lastProduced := s.lastProduced[key.producerName := s.blockNum + 1],
       lastImplied := implied,
       signingKey := key.signingKey,
       confirmCount := GrowCounts(s.confirmCount, Quorum(|s.active.producers|)),
       confirmations := [])
  }

  // ---------------------------------------------------------------------------
  // set_confirmed
  // ---------------------------------------------------------------------------

  /** The greatest index of [lo, hi) whose counter is down to its last confirmation, or -1. */
  function ReadyIndex(counts: seq<nat>, lo: nat, hi: nat): (r: int)
    requires lo <= hi <= |counts|
    ensures r == -1 || (lo <= r < hi && counts[r] == 1)
    ensures forall i :: lo <= i < hi && r < i ==> counts[i] != 1
    decreases hi
  {
    if lo == hi then -1 else if counts[hi - 1] == 1 then hi - 1 else ReadyIndex(counts, lo, hi - 1)
  }

  /** Every counter from `lo` on, one lower. */
  function DecrementFrom(counts: seq<nat>, lo: nat): seq<nat> {
    seq(|counts|, i requires 0 <= i < |counts| => if i < lo then counts[i] else Dec8(counts[i]))
  }

  function FirstTouched(counts: seq<nat>, previousBlocks: nat): nat {
    if previousBlocks + 1 <= |counts| then |counts| - (previousBlocks + 1) else 0
  }

  /** Confirm this block and the given number before it; the newest one to get its last vote is proposed. */
  function Confirmed(s: HeaderState, previousBlocks: nat): HeaderState {
    var lo := FirstTouched(s.confirmCount, previousBlocks);
    var ready := ReadyIndex(s.confirmCount, lo, |s.confirmCount|);
    if ready == -1 then
      s.(confirmed := previousBlocks, confirmCount := DecrementFrom(s.confirmCount, lo))
    else
      s.(confirmed := previousBlocks,
         proposedIrreversible := Sub32(s.blockNum, |s.confirmCount| - 1 - ready),
         confirmCount := DecrementFrom(s.confirmCount, lo)[ready + 1..])
  }

  lemma {:induction false} ReadyIndexIs(counts: seq<nat>, lo: nat, hi: nat, i: int)
    requires lo <= hi <= |counts|
    requires i == -1 || (lo <= i < hi && counts[i] == 1)
    requires forall j :: lo <= j < hi && i < j ==> counts[j] != 1
    ensures ReadyIndex(counts, lo, hi) == i
    decreases hi
  {
    if lo < hi && counts[hi - 1] != 1 {
      ReadyIndexIs(counts, lo, hi - 1, i);
    }
  }

  lemma DecrementOneMore(counts: seq<nat>, i: nat)
    requires i < |counts|
    ensures DecrementFrom(counts, i + 1)[i := Dec8(counts[i])] == DecrementFrom(counts, i)
  {
  }

  /** The loop over the counters, newest first, stopping at the first that reaches zero. */
  method ConfirmCounts(counts: seq<nat>, previousBlocks: nat) returns (left: seq<nat>, ready: int)
    ensures var lo := FirstTouched(counts, previousBlocks);
            && ready == ReadyIndex(counts, lo, |counts|)
            && left == DecrementFrom(counts, lo)[ready + 1..]
  {
    left := counts;
    var i := |counts| - 1;
    var blocksToConfirm := previousBlocks + 1;
    ghost var lo := FirstTouched(counts, previousBlocks);
    assert left == DecrementFrom(counts, |counts|);
    while i >= 0 && blocksToConfirm > 0
      invariant -1 <= i < |counts| && 0 <= blocksToConfirm
      invariant i + 1 >= lo && i - blocksToConfirm == |counts| - 1 - (previousBlocks + 1)
      invariant left == DecrementFrom(counts, i + 1)
      invariant forall j :: i < j < |counts| ==> counts[j] != 1
      decreases i
    {
      DecrementOneMore(counts, i);
      left := left[i := Dec8(left[i])];
      if left[i] == 0 {
        ready := i;
        ReadyIndexIs(counts, lo, |counts|, i);
        left := left[i + 1..];
        return;
      }
      i := i - 1;
      blocksToConfirm := blocksToConfirm - 1;
    }
    ready := -1;
    ReadyIndexIs(counts, lo, |counts|, -1);
  }

  method SetConfirmed(s: HeaderState, previousBlocks: nat) returns (r: HeaderState)
    ensures r == Confirmed(s, previousBlocks)
  {
    var counts, ready := ConfirmCounts(s.confirmCount, previousBlocks);
    r := s.(confirmed := previousBlocks, confirmCount := counts);
    if ready != -1 {
      r := r.(proposedIrreversible := Sub32(s.blockNum, |s.confirmCount| - 1 - ready));
    }
  }

  // ---------------------------------------------------------------------------
  // maybe_promote_pending, set_new_producers, next
  // ---------------------------------------------------------------------------

  /** The entries of a producer map for a new schedule; newcomers start at the irreversible block. */
  function Carried(prior: map<AccountName, nat>, names: set<AccountName>, start: nat): map<AccountName, nat> {
    map p | p in names :: if p in prior then prior[p] else start
  }

  predicate Promotes(s: HeaderState) {
    s.pending.producers != [] && s.irreversible >= s.pendingLibNum
  }

  function Promoted(s: HeaderState): HeaderState {
    if Promotes(s) then
      s.(active := s.pending,
         pending := Schedule(s.pending.version, []),
         lastProduced := Carried(s.lastProduced, s.pending.Names(), s.irreversible)[s.producer := s.blockNum],
         lastImplied := Carried(s.lastImplied, s.pending.Names(), s.irreversible))
    else s
  }

  lemma NamesOfOneMore(producers: seq<ProducerKey>, i: nat)
    requires i < |producers|
    ensures Schedule(0, producers[..i + 1]).Names()
         == Schedule(0, producers[..i]).Names() + {producers[i].producerName}
  {
    var more, less := Schedule(0, producers[..i + 1]), Schedule(0, producers[..i]);
    forall p | p in less.Names() ensures p in more.Names() {
      var j :| 0 <= j < i && producers[..i][j].producerName == p;
      assert more.producers[j].producerName == p;
    }
    forall p | p in more.Names() ensures p in less.Names() + {producers[i].producerName} {
      var j :| 0 <= j <= i && more.producers[j].producerName == p;
      assert j < i ==> less.producers[j].producerName == p;
    }
    assert more.producers[i].producerName == producers[i].producerName;
  }

  method CarryOver(prior: map<AccountName, nat>, schedule: Schedule, start: nat) returns (r: map<AccountName, nat>)
    ensures r == Carried(prior, schedule.Names(), start)
  {
    r := map[];
    ghost var names: set<AccountName> := {};
    for i := 0 to |schedule.producers|
      invariant names == Schedule(0, schedule.producers[..i]).Names()
      invariant r == Carried(prior, names, start)
    {
      var p := schedule.producers[i].producerName;
      r := r[p := if p in prior then prior[p] else start];
      NamesOfOneMore(schedule.producers, i);
      names := names + {p};
    }
    assert schedule.producers[..|schedule.producers|] == schedule.producers;
    assert names == schedule.Names();
  }

  method MaybePromotePending(s: HeaderState) returns (r: HeaderState, promoted: bool)
    ensures r == Promoted(s) && promoted == Promotes(s)
  {
    if s.pending.producers != [] && s.irreversible >= s.pendingLibNum {
      var produced := CarryOver(s.lastProduced, s.pending, s.irreversible);
      var implied := CarryOver(s.lastImplied, s.pending, s.irreversible);
      r := s.(active := s.pending,
              pending := Schedule(s.pending.version, []),
              lastProduced := produced[s.producer := s.blockNum],
              lastImplied := implied);
      promoted := true;
    } else {
      r, promoted := s, false;
    }
  }

  function WithNewProducers(s: HeaderState, pending: Schedule): Result<HeaderState, HeaderError> {
    if pending.version != s.active.version + 1 then Failure(WrongPendingVersion)
    else if s.pending.producers != [] then Failure(PendingNotConfirmed)
    else Success(s.(pending := pending, pendingLibNum := s.blockNum))
  }

  /** The check against a producer that confirms a range twice. */
  predicate DoubleConfirms(s: HeaderState, h: Header) {
    h.producer in s.lastProduced && s.lastProduced[h.producer] >= Sub32(s.blockNum + 1, h.confirmed)
  }

  /** The header state after the given signed header, or the reason it is rejected. */
  ghost function Next(s: HeaderState, h: Header, trust: bool): Result<HeaderState, HeaderError>
    requires s.active.producers != []
  {
    if h.slot == 0 then Failure(NoTimestamp)
    else if h.extensions != 0 then Failure(UnsupportedExtension)
    else if h.slot <= s.slot then Failure(NotLaterInTime)
    else if h.previous != s.id then Failure(Unlinkable)
    else
      var template := GenerateNext(s, h.slot);
      if template.producer != h.producer then Failure(WrongProducer)
      else if s.active.version != h.scheduleVersion then Failure(WrongScheduleVersion)
      else if DoubleConfirms(s, h) then Failure(DoubleConfirm)
      else
        var confirmed := Confirmed(template, h.confirmed);
        var promoted := Promoted(confirmed);
        if h.newProducers.Some? && Promotes(confirmed) then Failure(PendingJustPromoted)
        else
          var result :- if h.newProducers.Some? then WithNewProducers(promoted, h.newProducers.value)
                        else Success(promoted);
          if !trust && result.signingKey != h.signer then Failure(WrongSigningKey)
          else Success(result.(id := h.id))
  }

  method NextState(s: HeaderState, h: Header, trust: bool) returns (r: Result<HeaderState, HeaderError>)
    requires s.active.producers != []
    ensures r == Next(s, h, trust)
  {
    if h.slot == 0 { return Failure(NoTimestamp); }
    if h.extensions != 0 { return Failure(UnsupportedExtension); }
    if h.slot <= s.slot { return Failure(NotLaterInTime); }
    if h.previous != s.id { return Failure(Unlinkable); }
    var result := GenerateTemplate(s, h.slot);
    if result.producer != h.producer { return Failure(WrongProducer); }
    if s.active.version != h.scheduleVersion { return Failure(WrongScheduleVersion); }
    if DoubleConfirms(s, h) { return Failure(DoubleConfirm); }
    result := SetConfirmed(result, h.confirmed);
    var promoted;
    result, promoted := MaybePromotePending(result);
    if h.newProducers.Some? {
      if promoted { return Failure(PendingJustPromoted); }
      result :- WithNewProducers(result, h.newProducers.value);
    }
    if !trust && result.signingKey != h.signer { return Failure(WrongSigningKey); }
    r := Success(result.(id := h.id));
  }

  method GenerateTemplate(s: HeaderState, slot: nat) returns (r: HeaderState)
    requires s.active.producers != []
    ensures r == GenerateNext(s, slot)
  {
    var key := ScheduledProducer(s.active, slot);
    var implied := s.lastImplied[key.producerName := s.proposedIrreversible];
    var irreversible := CalcLastIrreversible(implied);
    r := s.(previous := s.id,
            blockNum := s.blockNum + 1,
            slot := slot,
            producer := key.producerName,
            confirmed := 0,
            irreversible := irreversible,
            lastProduced := s.lastProduced[key.producerName := s.blockNum + 1],
            lastImplied := implied,
            signingKey := key.signingKey,
            confirmCount := GrowCounts(s.confirmCount, Quorum(|s.active.producers|)),
            confirmations := []);
  }
}
