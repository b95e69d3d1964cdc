/**
  * What each operation of the fork database may do, as a relation between the states before and
  * after it, and what every operation keeps.
  */
module ForkOperations {
  import opened Wrappers
  import opened ChainTypes
  import opened BlockHeader
  import opened BlockTree
  import opened FinalitySearch
  import opened ForkSearch
  import opened BftSafety
  import opened ForkInvariants

  // ---------------------------------------------------------------------------
  // The database
  // ---------------------------------------------------------------------------

  /** The members of the database: the block index, the head, and the filed blocks marked as current. */
  datatype Members = Members(index: BlockMap, head: Option<BlockId>, current: set<BlockId>)

  /** Every block ever added, as it last stood in the index, and how far the index was pruned. */
  datatype History = History(known: BlockMap, root: BlockId, floor: nat)

  /** The head is missing exactly when there is no block, and is one of the blocks. */
  ghost predicate HeadIn(index: BlockMap, head: Option<BlockId>) {
    (head.None? <==> index == map[]) && (head.Some? ==> head.value in index)
  }

  ghost predicate Sound(db: Members, past: History) {
    && Consistent(db.index, past.known, past.root, past.floor)
    && HeadIn(db.index, db.head) && db.current <= db.index.Keys
  }

  /** What the operations are defined on. */
  ghost predicate Usable(db: Members) {
    Linked(db.index) && forall d :: d in db.index ==> db.index[d].active.producers != []
  }

  lemma SoundIsUsable(db: Members, past: History)
    requires Sound(db, past)
    ensures Usable(db)
  {
    IndexLinked(db.index, past.known, past.root, past.floor);
    forall d | d in db.index ensures db.index[d].active.producers != [] {
      assert InRange(db.index[d]);
    }
  }

  // ---------------------------------------------------------------------------
  // Fork choice and pruning
  // ---------------------------------------------------------------------------

  /** The higher irreversible number wins, then the higher confirmed one, then the longer fork. */
  predicate Better(a: HeaderState, b: HeaderState) {
    || a.irreversible > b.irreversible
    || (a.irreversible == b.irreversible && a.bftIrreversible > b.bftIrreversible)
    || (a.irreversible == b.irreversible && a.bftIrreversible == b.bftIrreversible && a.blockNum > b.blockNum)
  }

  ghost predicate IsBest(m: BlockMap, h: BlockId) {
    h in m && forall d :: d in m ==> !Better(m[d], m[h])
  }

  /** The head to choose: none of no blocks, otherwise a best one. */
  ghost predicate BestOf(m: BlockMap, head: Option<BlockId>) {
    (head.None? <==> m == map[]) && (head.Some? ==> IsBest(m, head.value))
  }

  /** A lowest block, on the current chain if one of that height is. */
  ghost predicate IsOldest(m: BlockMap, current: set<BlockId>, o: BlockId) {
    && o in m && (forall d :: d in m ==> m[o].blockNum <= m[d].blockNum)
    && (forall d :: d in m && d in current && m[d].blockNum == m[o].blockNum ==> o in current)
  }

  /** The lowest block is below what the best fork calls irreversible. */
  predicate Settled(m: BlockMap, best: BlockId, oldest: BlockId)
    requires best in m && oldest in m
  {
    m[oldest].blockNum < m[best].irreversible
  }

  /**
    * A new block is filed, and if the oldest block is settled then, only what is built on that one
    * is kept.
    */
  ghost predicate Filed(db: Members, n: HeaderState, best: BlockId, oldest: BlockId, db': Members) {
    var added := db.index[n.id := n];
    && Linked(added) && IsBest(added, best) && IsOldest(added, db.current, oldest)
    && db'.index == (if Settled(added, best, oldest) then StrictDescendants(added, oldest) else added)
    && BestOf(db'.index, db'.head)
    && db'.current == db.current * db'.index.Keys
  }

  /** What adding a block returns. */
  ghost function AddOutcome(index: BlockMap, h: Header, trust: bool): Result<HeaderState, ForkError>
    requires h.previous in index ==> index[h.previous].active.producers != []
  {
    if index == map[] then Failure(NoHead)
    else if h.id in index then Failure(AlreadyKnown)
    else if h.previous !in index then Failure(UnlinkableBlock)
    else
      match Next(index[h.previous], h, trust)
      case Success(n) => Success(n)
      case Failure(e) => Failure(BadHeader(e))
  }

  // ---------------------------------------------------------------------------
  // Confirmations
  // ---------------------------------------------------------------------------

  ghost function ConfirmOutcome(index: BlockMap, c: Confirmation): Result<HeaderState, ForkError> {
    if c.blockId !in index then Failure(UnknownBlock) else WithConfirmation(index[c.blockId], c)
  }

  /** The confirmation is the one that makes its block irreversible. */
  predicate Completes(index: BlockMap, c: Confirmation)
    requires c.blockId in index
  {
    var b := index[c.blockId];
    b.bftIrreversible < b.blockNum && |b.confirmations| + 1 >= Quorum(|b.active.producers|)
  }

  /** The irreversible number a block has after a confirmation. */
  ghost function NumberAfter(index: BlockMap, c: Confirmation, d: BlockId): nat
    requires Linked(index) && c.blockId in index && d in index
  {
    if Completes(index, c) && DescendsFrom(index, d, c.blockId)
    then Max(index[d].bftIrreversible, index[c.blockId].blockNum)
    else index[d].bftIrreversible
  }

  ghost function BlockAfter(index: BlockMap, c: Confirmation, d: BlockId): HeaderState
    requires Linked(index) && c.blockId in index && d in index
  {
    index[d].(confirmations := if d == c.blockId then index[d].confirmations + [c] else index[d].confirmations,
              bftIrreversible := NumberAfter(index, c, d))
  }

  /** The whole index after an accepted confirmation. */
  ghost function IndexAfter(index: BlockMap, c: Confirmation): BlockMap
    requires Linked(index) && c.blockId in index
  {
    map d | d in index :: BlockAfter(index, c, d)
  }

  // ---------------------------------------------------------------------------
  // Operations
  // ---------------------------------------------------------------------------

  /** `Mark` gets the mark its caller's copy of the block carries. */
  datatype Operation =
    | AddBlock(header: Header, trust: bool)
    | Confirm(confirmation: Confirmation)
    | Mark(id: BlockId, marked: bool, inCurrentChain: bool)
    | Drop(id: BlockId)

  /** A block is added: what the history becomes, and how the block is filed. */
  ghost predicate Adds(db: Members, past: History, n: HeaderState, best: BlockId, oldest: BlockId,
                       db': Members, past': History)
  {
    && Filed(db, n, best, oldest, db')
    && past' == past.(known := past.known[n.id := n],
                      floor := if Settled(db.index[n.id := n], best, oldest) then past.floor + 1 else past.floor)
  }

  ghost predicate Confirms(db: Members, past: History, c: Confirmation, db': Members, past': History)
    requires Linked(db.index) && c.blockId in db.index
  {
    && db' == db.(index := IndexAfter(db.index, c))
    && past' == past.(known := past.known + db'.index)
  }

  function Marked(db: Members, id: BlockId, marked: bool, inCurrentChain: bool): Members {
    if marked == inCurrentChain || id !in db.index then db
    else db.(current := if inCurrentChain then db.current + {id} else db.current - {id})
  }

  ghost predicate Drops(db: Members, id: BlockId, db': Members)
    requires Linked(db.index)
  {
    && db'.index == WithoutFork(db.index, id) && BestOf(db'.index, db'.head)
    && db'.current == db.current * db'.index.Keys
  }

  ghost predicate Step(db: Members, past: History, op: Operation, db': Members, past': History)
    requires Usable(db)
  {
    match op
    case AddBlock(h, trust) =>
      (match AddOutcome(db.index, h, trust)
       case Failure(_) => db' == db && past' == past
       case Success(n) => exists best, oldest :: Adds(db, past, n, best, oldest, db', past'))
    case Confirm(c) =>
      if ConfirmOutcome(db.index, c).Failure? then db' == db && past' == past
      else Confirms(db, past, c, db', past')
    case Mark(id, marked, inCurrentChain) => db' == Marked(db, id, marked, inCurrentChain) && past' == past
    case Drop(id) => Drops(db, id, db') && past' == past
  }

  // ---------------------------------------------------------------------------
  // What every operation keeps
  // ---------------------------------------------------------------------------

  lemma PrunedClosed(index: BlockMap, floor: nat, o: BlockId)
    requires Linked(index) && Closed(index, floor) && o in index && index[o].blockNum == floor
    ensures Closed(StrictDescendants(index, o), floor + 1)
  {
    var m := StrictDescendants(index, o);
    forall d | d in m
      ensures m[d].blockNum >= floor + 1
      ensures m[d].blockNum > floor + 1 ==> m[d].previous in m
    {
      DescendantIsLater(index, d, o);
    }
  }

  lemma LowestIsFloor(index: BlockMap, known: BlockMap, root: BlockId, floor: nat, h: BlockId)
    requires Consistent(index, known, root, floor) && h in index
    requires forall d :: d in index ==> index[h].blockNum <= index[d].blockNum
    ensures index[h].blockNum == floor
  {
  }

  lemma AddKeeps(db: Members, past: History, n: HeaderState, best: BlockId, oldest: BlockId,
                 db': Members, past': History)
    requires Sound(db, past) && HashesFit(past.known, n.id, n.previous)
    requires n.id !in db.index && n.previous in db.index && BuiltOn(n, db.index[n.previous], n.id)
    requires Adds(db, past, n, best, oldest, db', past')
    ensures Sound(db', past')
  {
    InsertKeeps(db.index, past.known, past.root, past.floor, n);
    var added, known := db.index[n.id := n], past.known[n.id := n];
    if Settled(added, best, oldest) {
      LowestIsFloor(added, known, past.root, past.floor, oldest);
      PrunedClosed(added, past.floor, oldest);
      SmallerKeeps(db'.index, added, known, past.root, past.floor, past.floor + 1);
    }
  }

  lemma AcceptedKeeps(db: Members, past: History, n: HeaderState, db': Members, past': History)
    requires Sound(db, past) && HashesFit(past.known, n.id, n.previous)
    requires n.id !in db.index && n.previous in db.index && BuiltOn(n, db.index[n.previous], n.id)
    requires exists best, oldest :: Adds(db, past, n, best, oldest, db', past')
    ensures Sound(db', past')
  {
    var best, oldest :| Adds(db, past, n, best, oldest, db', past');
    AddKeeps(db, past, n, best, oldest, db', past');
  }

  lemma AcceptedIsBuiltOn(db: Members, past: History, h: Header, trust: bool)
    requires Sound(db, past) && Usable(db) && AddOutcome(db.index, h, trust).Success?
    ensures var n := AddOutcome(db.index, h, trust).value;
            && n.id == h.id && n.previous == h.previous && n.id !in db.index && n.previous in db.index
            && BuiltOn(n, db.index[n.previous], n.id)
  {
    var s := db.index[h.previous];
    assert past.known[h.previous].id == h.previous;
    assert InRange(s);
    NextIsBuiltOn(s, h, trust);
  }

  /** The confirmed block and its index meet what the search asks for. */
  lemma LiftReady(index: BlockMap, known: BlockMap, root: BlockId, floor: nat, id: BlockId, b': HeaderState)
    requires Consistent(index, known, root, floor) && id in index
    requires b' == index[id].(confirmations := b'.confirmations)
    ensures Linked(index) && Linked(index[id := b']) && Monotone(index[id := b'])
    ensures b'.bftIrreversible <= b'.blockNum
  {
    IndexLinked(index, known, root, floor);
    IndexMonotone(index, known, root, floor);
    ReplacedUpdates(index, id, b');
    UpdatedTree(index, index[id := b']);
    SameTreeDescent(index, index[id := b'], id, id);
    FinalizedBound(known, id);
  }

  /** Without a new quorum at an unmarked block, nothing changed about quorums. */
  lemma QuietQuorum(index: BlockMap, known: BlockMap, root: BlockId, floor: nat, id: BlockId, b': HeaderState)
    requires Consistent(index, known, root, floor) && id in index
    requires b'.active == index[id].active && |b'.confirmations| == |index[id].confirmations| + 1
    requires index[id].bftIrreversible >= index[id].blockNum || !QuorumConfirmed(b')
    ensures QuorumConfirmed(b') == QuorumConfirmed(index[id])
  {
    if index[id].bftIrreversible >= index[id].blockNum {
      MarkedHasQuorum(known, id);
    }
  }

  /** A completed quorum: the index after it is what the search produces. */
  lemma LiftedIsAfter(index: BlockMap, c: Confirmation, b': HeaderState, d: BlockId)
    requires Linked(index) && c.blockId in index && d in index && Completes(index, c)
    requires b' == index[c.blockId].(confirmations := index[c.blockId].confirmations + [c])
    requires Linked(index[c.blockId := b'])
    ensures Lifted(index[c.blockId := b'], c.blockId, d) == BlockAfter(index, c, d)
  {
    ReplacedUpdates(index, c.blockId, b');
    UpdatedTree(index, index[c.blockId := b']);
    SameTreeDescent(index, index[c.blockId := b'], d, c.blockId);
  }

  lemma QuietIsAfter(index: BlockMap, c: Confirmation)
    requires Linked(index) && c.blockId in index && !Completes(index, c)
    ensures IndexAfter(index, c)
         == index[c.blockId := index[c.blockId].(confirmations := index[c.blockId].confirmations + [c])]
  {
  }

  lemma ConfirmKeeps(index: BlockMap, known: BlockMap, root: BlockId, floor: nat, c: Confirmation)
    requires Consistent(index, known, root, floor) && ConfirmOutcome(index, c).Success?
    ensures Linked(index) && Consistent(IndexAfter(index, c), known + IndexAfter(index, c), root, floor)
  {
    var id, b' := c.blockId, ConfirmOutcome(index, c).value;
    ConfirmationStaysValid(index[id], c);
    LiftReady(index, known, root, floor, id, b');
    if Completes(index, c) {
      var index' := IndexAfter(index, c);
      forall d | d in index ensures index'[d] == Lifted(index[id := b'], id, d) {
        LiftedIsAfter(index, c, b', d);
      }
      QuorumConfirmKeeps(index, known, root, floor, id, b', index');
    } else {
      QuietQuorum(index, known, root, floor, id, b');
      QuietConfirmKeeps(index, known, root, floor, id, b');
      QuietIsAfter(index, c);
    }
  }

  /** An accepted confirmation changes confirmations and irreversible numbers and nothing else. */
  lemma ConfirmUpdates(index: BlockMap, c: Confirmation)
    requires Linked(index) && c.blockId in index
    ensures Updated(index, IndexAfter(index, c))
    ensures forall d :: d in index ==> IndexAfter(index, c)[d].bftIrreversible >= index[d].bftIrreversible
  {
  }

  lemma DropKeeps(db: Members, past: History, id: BlockId, db': Members)
    requires Sound(db, past) && Linked(db.index) && Drops(db, id, db')
    ensures Sound(db', past)
  {
    RemoveKeeps(db.index, past.known, past.root, past.floor, id);
  }

  /** Ids are hashes: a header that is added fits what is known. */
  ghost predicate OperationFits(past: History, op: Operation) {
    op.AddBlock? ==> HashesFit(past.known, op.header.id, op.header.previous)
  }

  lemma StepKeeps(db: Members, past: History, op: Operation, db': Members, past': History)
    requires Sound(db, past) && Usable(db) && OperationFits(past, op) && Step(db, past, op, db', past')
    ensures Sound(db', past')
  {
    match op
    case AddBlock(h, trust) =>
      if AddOutcome(db.index, h, trust).Success? {
        AcceptedIsBuiltOn(db, past, h, trust);
        AcceptedKeeps(db, past, AddOutcome(db.index, h, trust).value, db', past');
      }
    case Confirm(c) =>
      if ConfirmOutcome(db.index, c).Success? {
        ConfirmKeeps(db.index, past.known, past.root, past.floor, c);
      }
    case Mark(_, _, _) =>
    case Drop(id) =>
      DropKeeps(db, past, id, db');
  }
}
