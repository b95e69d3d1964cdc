/** Which headers are accepted on top of a state, why others are refused, and who signed the blocks of a chain. */
module HeaderLaws {
  import opened Wrappers
  import opened ChainTypes
  import opened OrderStatistic
  import opened BlockHeader
  import opened Dpos

  /** The header is the next one after the state: later, without extensions, on top of it. */
  predicate ComesNext(s: HeaderState, h: Header) {
    h.slot != 0 && h.extensions == 0 && h.slot > s.slot && h.previous == s.id
  }

  /** Its producer owns the slot under the active schedule, named by its version. */
  predicate OwnsSlot(s: HeaderState, h: Header)
    requires s.active.producers != []
  {
    h.producer == ScheduledProducer(s.active, h.slot).producerName && h.scheduleVersion == s.active.version
  }

  /** The first block of the confirmed range, in unsigned 32-bit arithmetic. */
  function RangeStart(s: HeaderState, h: Header): int {
    if h.confirmed <= s.blockNum + 1 then s.blockNum + 1 - h.confirmed
    else (s.blockNum + 1 - h.confirmed) % 0x1_0000_0000
  }

  /** The range starts above the last block its producer made. */
  predicate ConfirmsAnew(s: HeaderState, h: Header) {
    h.producer in s.lastProduced ==> s.lastProduced[h.producer] < RangeStart(s, h)
  }

  /** A new schedule is the next version, and none is waiting. */
  predicate MayAnnounce(s: HeaderState, h: Header) {
    h.newProducers.Some? ==> s.pending.producers == [] && h.newProducers.value.version == s.active.version + 1
  }

  /** The signature is by the key that the schedule gives the producer of the slot. */
  predicate SignedInTurn(s: HeaderState, h: Header)
    requires s.active.producers != []
  {
    h.signer == ScheduledProducer(s.active, h.slot).signingKey
  }

  /** What the stages before the last check leave of the state. */
  lemma StagesLeave(s: HeaderState, h: Header)
    requires s.active.producers != []
    ensures var c := Confirmed(GenerateNext(s, h.slot), h.confirmed);
            && c.pending == s.pending && c.active == s.active
            && c.signingKey == Promoted(c).signingKey == ScheduledProducer(s.active, h.slot).signingKey
            && GenerateNext(s, h.slot).producer == ScheduledProducer(s.active, h.slot).producerName
            && c.blockNum == s.blockNum + 1 && c.slot == h.slot && c.confirmed == h.confirmed && c.previous == s.id
            && c.pendingLibNum == s.pendingLibNum && c.bftIrreversible == s.bftIrreversible && c.confirmations == []
            && c.irreversible == LastIrreversible(s.lastImplied[c.producer := s.proposedIrreversible])
  {
  }

  /** The irreversible number that the producers imply once this block's producer implies what is proposed. */
  ghost function NewLevel(s: HeaderState, h: Header): nat {
    LastIrreversible(s.lastImplied[h.producer := s.proposedIrreversible])
  }

  /** The pending schedule becomes active with this block. */
  ghost predicate TakesOver(s: HeaderState, h: Header) {
    s.pending.producers != [] && NewLevel(s, h) >= s.pendingLibNum
  }

  /** The first reason to refuse a header, in the order of the checks. */
  ghost function Refusal(s: HeaderState, h: Header, trust: bool): Option<HeaderError>
    requires s.active.producers != []
  {
    var key := ScheduledProducer(s.active, h.slot);
    if h.slot == 0 then Some(NoTimestamp)
    else if h.extensions != 0 then Some(UnsupportedExtension)
    else if h.slot <= s.slot then Some(NotLaterInTime)
    else if h.previous != s.id then Some(Unlinkable)
    else if h.producer != key.producerName then Some(WrongProducer)
    else if h.scheduleVersion != s.active.version then Some(WrongScheduleVersion)
    else if !ConfirmsAnew(s, h) then Some(DoubleConfirm)
    else if h.newProducers.Some? && TakesOver(s, h) then Some(PendingJustPromoted)
    else if h.newProducers.Some? && h.newProducers.value.version != s.active.version + 1 then Some(WrongPendingVersion)
    else if h.newProducers.Some? && s.pending.producers != [] then Some(PendingNotConfirmed)
    else if !trust && h.signer != key.signingKey then Some(WrongSigningKey)
    else None
  }

  lemma ChecksAgree(s: HeaderState, h: Header)
    requires s.active.producers != []
    ensures DoubleConfirms(s, h) <==> !ConfirmsAnew(s, h)
    ensures var c := Confirmed(GenerateNext(s, h.slot), h.confirmed);
            h.producer == GenerateNext(s, h.slot).producer ==> (Promotes(c) <==> TakesOver(s, h))
  {
    StagesLeave(s, h);
  }

  lemma LastChecks(s: HeaderState, h: Header, trust: bool, c: HeaderState)
    requires s.active.producers != [] && c == Confirmed(GenerateNext(s, h.slot), h.confirmed)
    requires ComesNext(s, h) && OwnsSlot(s, h) && !DoubleConfirms(s, h)
    ensures var r := Next(s, h, trust);
            if h.newProducers.Some? && Promotes(c) then r == Failure(PendingJustPromoted)
            else if h.newProducers.Some? && h.newProducers.value.version != c.active.version + 1
            then r == Failure(WrongPendingVersion)
            else if h.newProducers.Some? && c.pending.producers != [] then r == Failure(PendingNotConfirmed)
            else if !trust && Promoted(c).signingKey != h.signer then r == Failure(WrongSigningKey)
            else r.Success?
  {
    StagesLeave(s, h);
  }

  lemma RefusalNamed(s: HeaderState, h: Header, trust: bool)
    requires s.active.producers != []
    ensures Refusal(s, h, trust) == match Next(s, h, trust) case Success(_) => None case Failure(e) => Some(e)
  {
    StagesLeave(s, h);
    ChecksAgree(s, h);
    if ComesNext(s, h) && OwnsSlot(s, h) && !DoubleConfirms(s, h) {
      LastChecks(s, h, trust, Confirmed(GenerateNext(s, h.slot), h.confirmed));
    }
  }

  /** Exactly the headers that are accepted. Whoever trusts a block takes any signature. */
  lemma NextSucceedsIff(s: HeaderState, h: Header, trust: bool)
    requires s.active.producers != []
    ensures Next(s, h, trust).Success? <==>
              && ComesNext(s, h) && OwnsSlot(s, h) && ConfirmsAnew(s, h) && MayAnnounce(s, h)
              && (trust || SignedInTurn(s, h))
  {
    RefusalNamed(s, h, trust);
  }

  /** The accepted state: what it takes from the header and the state before, and which schedules it has. */
  lemma AcceptedState(s: HeaderState, h: Header, trust: bool)
    requires s.active.producers != [] && Next(s, h, trust).Success?
    ensures var r := Next(s, h, trust).value;
            && r.id == h.id && r.previous == s.id && r.blockNum == s.blockNum + 1 && r.slot == h.slot
            && r.producer == h.producer && r.confirmed == h.confirmed
            && r.signingKey == ScheduledProducer(s.active, h.slot).signingKey
            && r.irreversible == NewLevel(s, h) && r.bftIrreversible == s.bftIrreversible && r.confirmations == []
            && r.active == (if TakesOver(s, h) then s.pending else s.active)
            && r.pending == (if h.newProducers.Some? then h.newProducers.value
                             else if TakesOver(s, h) then Schedule(s.pending.version, []) else s.pending)
            && r.pendingLibNum == (if h.newProducers.Some? then s.blockNum + 1 else s.pendingLibNum)
  {
    AcceptedStages(s, h, trust);
    StagesLeave(s, h);
  }

  /** What the two tables say of a producer after the block. A takeover keeps the entries of the new
      producers, starts the others at the irreversible number, and drops the rest, save the block's own
      producer among the last blocks. */
  lemma TablesAfter(s: HeaderState, h: Header, trust: bool, p: AccountName)
    requires s.active.producers != [] && Next(s, h, trust).Success?
    ensures var r := Next(s, h, trust).value;
            var made := s.lastProduced[h.producer := s.blockNum + 1];
            var implied := s.lastImplied[h.producer := s.proposedIrreversible];
            var joins := exists k :: 0 <= k < |s.pending.producers| && s.pending.producers[k].producerName == p;
            if !TakesOver(s, h) then r.lastProduced == made && r.lastImplied == implied
            else
              && (p in r.lastImplied <==> joins)
              && (joins ==> r.lastImplied[p] == if p in implied then implied[p] else NewLevel(s, h))
              && (p in r.lastProduced <==> joins || p == h.producer)
              && (p in r.lastProduced ==> r.lastProduced[p] == if p in made then made[p] else NewLevel(s, h))
  {
    AcceptedStages(s, h, trust);
    StagesLeave(s, h);
  }

  /** Every block of the chain was made by the producer whose slot it was, and was signed with the key
      of that producer unless it was taken on trust. */
  ghost predicate WellSigned(c: Chain) {
    c.Link? ==>
      && c.parent.state.active.producers != []
      && c.header.producer == ScheduledProducer(c.parent.state.active, c.header.slot).producerName
      && (c.trust || c.header.signer == ScheduledProducer(c.parent.state.active, c.header.slot).signingKey)
      && WellSigned(c.parent)
  }

  lemma {:induction false} ChainsAreSigned(c: Chain)
    requires ValidChain(c)
    ensures WellSigned(c)
    decreases c
  {
    if c.Link? {
      NextSucceedsIff(c.parent.state, c.header, c.trust);
      ChainsAreSigned(c.parent);
    }
  }
}
