/**
  * The fork database: every unconfirmed fork, the best head, and the irreversible numbers that
  * confirmations give its blocks.
  */
module ForkDatabase {
  import opened Wrappers
  import opened ChainTypes
  import opened BlockHeader
  import opened BlockTree
  import opened FinalitySearch
  import opened ForkSearch
  import opened BftSafety
  import opened ForkInvariants
  import opened ForkOperations

  // ---------------------------------------------------------------------------
  // The operations on the index
  // ---------------------------------------------------------------------------

  method BestHead(m: BlockMap) returns (best: Option<BlockId>)
    ensures BestOf(m, best)
  {
    best := None;
    var left := m.Keys;
    while left != {}
      invariant left <= m.Keys
      invariant best.None? ==> left == m.Keys
      invariant best.Some? ==>
                  best.value in m && forall d :: d in m && d !in left ==> !Better(m[d], m[best.value])
      decreases left
    {
      var d :| d in left;
      if best.None? || Better(m[d], m[best.value]) {
        best := Some(d);
      }
      left := left - {d};
    }
  }

  /** A lowest block; of several, one on the current chain when there is any. */
  method OldestBlock(m: BlockMap, current: set<BlockId>) returns (oldest: BlockId)
    requires m != map[]
    ensures IsOldest(m, current, oldest)
    ensures oldest in m && forall d :: d in m ==> m[oldest].blockNum <= m[d].blockNum
    ensures oldest !in current ==> forall d :: d in m && d in current ==> m[oldest].blockNum < m[d].blockNum
  {
    var left := m.Keys;
    oldest :| oldest in left;
    left := left - {oldest};
    while left != {}
      invariant left <= m.Keys && oldest in m
      invariant forall d :: d in m && d !in left ==> m[oldest].blockNum <= m[d].blockNum
      invariant forall d :: d in m && d !in left && d in current && m[d].blockNum == m[oldest].blockNum ==> oldest in current
      decreases left
    {
      var d :| d in left;
      if m[d].blockNum < m[oldest].blockNum || (m[d].blockNum == m[oldest].blockNum && oldest !in current) {
        oldest := d;
      }
      left := left - {d};
    }
  }

  /** Drop everything beside h at its level, with the forks built on it, and h itself. */
  method PruneLevel(index: BlockMap, floor: nat, h: BlockId) returns (m: BlockMap, removed: bool)
    requires Linked(index) && Closed(index, floor) && h in index && index[h].blockNum == floor
    ensures m == StrictDescendants(index, h) && Closed(m, floor + 1)
    ensures !removed ==> m == index - {h}
  {
    m, removed := index - {h}, false;
    PruneStarts(index, floor, h);
    var left := set d | d in m && m[d].blockNum == floor;
    while left != {}
      invariant Pruning(index, floor, h, m)
      invariant forall d :: d in m && m[d].blockNum == floor ==> d in left
      invariant left <= m.Keys && forall x :: x in left ==> m[x].blockNum == floor
      invariant !removed ==> m == index - {h}
      decreases left
    {
      var x :| x in left;
      PruneBeside(index, floor, h, m, x);
      m := RemoveFork(m, x);
      removed := true;
      left := set d | d in left && d in m;
    }
    PruneDone(index, floor, h, m);
  }

  lemma BestRemains(index: BlockMap, h: BlockId, best: BlockId)
    requires IsBest(index, best) && best != h
    ensures IsBest(index - {h}, best)
  {
  }

  /** Drop a lowest block as settled, and all forks that do not build on it. */
  method PruneIndex(index: BlockMap, head: BlockId, h: BlockId) returns (m: BlockMap, head': Option<BlockId>)
    requires Linked(index) && IsBest(index, head) && h in index && h != head
    requires Closed(index, index[h].blockNum)
    ensures m == StrictDescendants(index, h) && BestOf(m, head')
  {
    var removed;
    m, removed := PruneLevel(index, index[h].blockNum, h);
    if removed {
      head' := BestHead(m);
    } else {
      BestRemains(index, h, head);
      head' := Some(head);
    }
  }

  /** File a new block, choose the head anew, and drop what is settled. */
  method Store(db: Members, n: HeaderState, ghost floor: nat)
    returns (db': Members, ghost best: BlockId, ghost oldest: BlockId)
    requires var added := db.index[n.id := n];
             && Linked(added) && Closed(added, floor)
             && forall d :: d in added ==> added[d].irreversible <= added[d].blockNum
    ensures Filed(db, n, best, oldest, db')
    ensures var added := db.index[n.id := n];
            oldest !in db'.index <==> added[oldest].blockNum < added[best].irreversible
  {
    var added := db.index[n.id := n];
    var head := BestHead(added);
    assert n.id in added;
    var o := OldestBlock(added, db.current);
    best, oldest := head.value, o;
    db' := Members(added, head, db.current * added.Keys);
    if added[o].blockNum < added[head.value].irreversible {
      OldestClosed(added, floor, o);
      var m, head' := PruneIndex(added, head.value, o);
      db' := Members(m, head', db.current * m.Keys);
    }
  }

  lemma OldestClosed(index: BlockMap, floor: nat, o: BlockId)
    requires Closed(index, floor) && o in index && Linked(index)
    requires forall d :: d in index ==> index[o].blockNum <= index[d].blockNum
    ensures Closed(index, index[o].blockNum)
  {
  }

  /** Count a confirmation of a block; a completed quorum is spread over all forks. */
  method ConfirmIndex(index: BlockMap, c: Confirmation, b': HeaderState) returns (index': BlockMap)
    requires Linked(index) && c.blockId in index && WithConfirmation(index[c.blockId], c) == Success(b')
    requires Linked(index[c.blockId := b']) && Monotone(index[c.blockId := b']) && b'.bftIrreversible <= b'.blockNum
    ensures index' == IndexAfter(index, c)
  {
    var id := c.blockId;
    if index[id].bftIrreversible < index[id].blockNum && |b'.confirmations| >= Quorum(|b'.active.producers|) {
      index' := LiftDescendants(index[id := b'], id);
      forall d | d in index ensures index'[d] == BlockAfter(index, c, d) {
        LiftedIsAfter(index, c, b', d);
      }
    } else {
      QuietIsAfter(index, c);
      index' := index[id := b'];
    }
  }

  /** What filing a new block asks of the index. */
  lemma StoreReady(db: Members, past: History, n: HeaderState)
    requires Sound(db, past) && HashesFit(past.known, n.id, n.previous)
    requires n.id !in db.index && n.previous in db.index && BuiltOn(n, db.index[n.previous], n.id)
    ensures var added := db.index[n.id := n];
            && Linked(added) && Closed(added, past.floor)
            && forall d :: d in added ==> added[d].irreversible <= added[d].blockNum
  {
    InsertKeeps(db.index, past.known, past.root, past.floor, n);
    var added := db.index[n.id := n];
    IndexLinked(added, past.known[n.id := n], past.root, past.floor);
    forall d | d in added ensures added[d].irreversible <= added[d].blockNum {
      assert InRange(added[d]);
    }
  }

  lemma GenesisSound(genesis: HeaderState)
    requires InRange(genesis) && genesis.bftIrreversible == 0 && genesis.confirmations == []
    requires genesis.previous != genesis.id
    ensures var index := map[genesis.id := genesis];
            Sound(Members(index, Some(genesis.id), {}), History(index, genesis.id, genesis.blockNum))
  {
    var index := map[genesis.id := genesis];
    assert Linked(index);
    assert !QuorumConfirmed(genesis);
    assert Finalized(index, genesis.id) == 0;
    assert ConfirmationsValid(genesis);
    assert Closed(index, genesis.blockNum);
    assert Rooted(index, genesis.id);
  }

  // ---------------------------------------------------------------------------
  // The database
  // ---------------------------------------------------------------------------

  class ForkDatabase {
    var my: Members
    ghost var past: History

    ghost predicate Valid()
      reads this
    {
      Sound(my, past)
    }

    constructor (genesis: HeaderState)
      requires InRange(genesis) && genesis.bftIrreversible == 0 && genesis.confirmations == []
      requires genesis.previous != genesis.id
      ensures Valid()
      ensures my == Members(map[genesis.id := genesis], Some(genesis.id), {})
      ensures past == History(my.index, genesis.id, genesis.blockNum)
    {
      GenesisSound(genesis);
      my := Members(map[genesis.id := genesis], Some(genesis.id), {});
      past := History(map[genesis.id := genesis], genesis.id, genesis.blockNum);
    }

    /** Set or clear the mark of a block whose copy at the caller's carries the mark `marked`. */
    method MarkInCurrentChain(id: BlockId, marked: bool, inCurrentChain: bool) returns (r: Option<ForkError>)
      requires Valid()
      modifies this
      ensures Valid() && Usable(old(my)) && Step(old(my), old(past), Mark(id, marked, inCurrentChain), my, past)
      ensures r == if marked != inCurrentChain && id !in old(my).index then Some(UnknownBlock) else None
      ensures my == old(my).(current := my.current) && my.current - {id} == old(my).current - {id}
      ensures r.None? && marked != inCurrentChain ==> (id in my.current <==> inCurrentChain)
      ensures r.Some? || marked == inCurrentChain ==> my == old(my)
    {
      SoundIsUsable(my, past);
      if marked == inCurrentChain { return None; }
      if id !in my.index { return Some(UnknownBlock); }
      my := my.(current := if inCurrentChain then my.current + {id} else my.current - {id});
      return None;
    }

    /** Append a block to a filed one; the new head is the best block of all forks. */
    method Add(h: Header, trust: bool) returns (r: Result<HeaderState, ForkError>)
      requires Valid() && HashesFit(past.known, h.id, h.previous)
      modifies this
      ensures Valid() && Usable(old(my)) && r == AddOutcome(old(my).index, h, trust)
      ensures Step(old(my), old(past), AddBlock(h, trust), my, past)
      ensures old(my).index == map[] <==> r == Failure(NoHead)
      ensures h.id in old(my).index <==> r == Failure(AlreadyKnown)
      ensures old(my).index != map[] && h.id !in old(my).index && h.previous !in old(my).index <==>
                r == Failure(UnlinkableBlock)
    {
      SoundIsUsable(my, past);
      if my.head.None? { return Failure(NoHead); }
      if h.id in my.index { return Failure(AlreadyKnown); }
      if h.previous !in my.index { return Failure(UnlinkableBlock); }
      var next := NextState(my.index[h.previous], h, trust);
      if next.Failure? { return Failure(BadHeader(next.error)); }
      r := Success(next.value);
      my, past := Append(my, h, trust, next.value, past);
    }

    /** Cut off an invalid block with everything built on it. */
    method Remove(id: BlockId)
      requires Valid()
      modifies this
      ensures Valid() && Usable(old(my)) && Step(old(my), old(past), Drop(id), my, past)
    {
      SoundIsUsable(my, past);
      var m := RemoveFork(my.index, id);
      var best := BestHead(m);
      ghost var before := my;
      my := Members(m, best, my.current * m.Keys);
      DropKeeps(before, past, id, my);
    }

    /** Count a producer's confirmation; a completed quorum is spread over all forks. */
    method AddConfirmation(c: Confirmation) returns (r: Result<HeaderState, ForkError>)
      requires Valid()
      modifies this
      ensures Valid() && Usable(old(my)) && r == ConfirmOutcome(old(my).index, c)
      ensures Step(old(my), old(past), Confirm(c), my, past) && Updated(old(my).index, my.index)
    {
      SoundIsUsable(my, past);
      if c.blockId !in my.index { return Failure(UnknownBlock); }
      r := AddToBlock(my.index[c.blockId], c);
      if r.Success? {
        my, past := Count(my, c, r.value, past);
      }
    }
  }

  lemma AppendReady(db: Members, past: History, h: Header, trust: bool, n: HeaderState)
    requires Sound(db, past) && Usable(db) && HashesFit(past.known, h.id, h.previous)
    requires AddOutcome(db.index, h, trust) == Success(n)
    ensures var added := db.index[n.id := n];
            && Linked(added) && Closed(added, past.floor)
            && forall d :: d in added ==> added[d].irreversible <= added[d].blockNum
  {
    AcceptedIsBuiltOn(db, past, h, trust);
    StoreReady(db, past, n);
  }

  lemma AppendDone(db: Members, past: History, h: Header, trust: bool, n: HeaderState,
                   best: BlockId, oldest: BlockId, db': Members, past': History)
    requires Sound(db, past) && Usable(db) && HashesFit(past.known, h.id, h.previous)
    requires AddOutcome(db.index, h, trust) == Success(n) && Adds(db, past, n, best, oldest, db', past')
    ensures Sound(db', past') && Step(db, past, AddBlock(h, trust), db', past')
  {
    AcceptedIsBuiltOn(db, past, h, trust);
    AddKeeps(db, past, n, best, oldest, db', past');
  }

  /** The part of adding a block that follows its header check. */
  method Append(db: Members, h: Header, trust: bool, n: HeaderState, ghost past: History)
    returns (db': Members, ghost past': History)
    requires Sound(db, past) && Usable(db) && HashesFit(past.known, h.id, h.previous)
    requires AddOutcome(db.index, h, trust) == Success(n)
    ensures Sound(db', past') && Step(db, past, AddBlock(h, trust), db', past')
  {
    AppendReady(db, past, h, trust, n);
    ghost var best, oldest;
    db', best, oldest := Store(db, n, past.floor);
    past' := past.(known := past.known[n.id := n],
                   floor := if Settled(db.index[n.id := n], best, oldest) then past.floor + 1 else past.floor);
    AppendDone(db, past, h, trust, n, best, oldest, db', past');
  }

  lemma CountDone(db: Members, past: History, c: Confirmation, db': Members, past': History)
    requires Sound(db, past) && Usable(db) && ConfirmOutcome(db.index, c).Success?
    requires Confirms(db, past, c, db', past')
    ensures Sound(db', past') && Step(db, past, Confirm(c), db', past') && Updated(db.index, db'.index)
  {
    ConfirmKeeps(db.index, past.known, past.root, past.floor, c);
    ConfirmUpdates(db.index, c);
  }

  /** The part of adding a confirmation that follows its check. */
  method Count(db: Members, c: Confirmation, b': HeaderState, ghost past: History)
    returns (db': Members, ghost past': History)
    requires Sound(db, past) && Usable(db) && ConfirmOutcome(db.index, c) == Success(b')
    ensures Sound(db', past') && Step(db, past, Confirm(c), db', past') && Updated(db.index, db'.index)
  {
    LiftReady(db.index, past.known, past.root, past.floor, c.blockId, b');
    var m := ConfirmIndex(db.index, c, b');
    db' := db.(index := m);
    past' := past.(known := past.known + m);
    CountDone(db, past, c, db', past');
  }
}
