/** What the fork database keeps through every operation, as facts about its block index. */
module ForkInvariants {
  import opened Wrappers
  import opened ChainTypes
  import opened OrderStatistic
  import opened BlockHeader
  import opened BlockTree
  import opened FinalitySearch
  import opened ForkSearch
  import opened BftSafety
  import Dpos

  // ---------------------------------------------------------------------------
  // What the database keeps
  // ---------------------------------------------------------------------------

  /** Numbers in a header state lie below its block number. */
  ghost predicate InRange(s: HeaderState) {
    && s.active.producers != [] && s.blockNum > 0
    && s.irreversible <= s.blockNum && s.proposedIrreversible <= s.blockNum
    && |s.confirmCount| <= s.blockNum
    && forall p :: p in s.lastImplied ==> s.lastImplied[p] <= s.blockNum
  }

  /** The blocks of the index hang together down to the lowest level. */
  ghost predicate Closed(index: BlockMap, floor: nat) {
    && (forall d {:trigger index[d].blockNum} :: d in index ==> index[d].blockNum >= floor)
    && (forall d {:trigger index[d].previous} :: d in index && index[d].blockNum > floor ==> index[d].previous in index)
  }

  ghost predicate Stored(index: BlockMap, known: BlockMap) {
    forall d :: d in index ==> d in known && index[d] == known[d] && InRange(index[d])
  }

  /** Only the first block has an unknown parent. */
  ghost predicate Rooted(known: BlockMap, root: BlockId) {
    forall d {:trigger known[d].previous} :: d in known ==> known[d].previous in known || d == root
  }

  ghost predicate Voted(known: BlockMap) {
    forall d :: d in known ==> ConfirmationsValid(known[d])
  }

  /** Each block carries exactly the number of the latest quorum among itself and its ancestors. */
  ghost predicate FinalityExact(index: BlockMap, known: BlockMap)
    requires Linked(known) && Stored(index, known)
  {
    forall d {:trigger index[d].bftIrreversible} :: d in index ==> index[d].bftIrreversible == Finalized(known, d)
  }

  /** The index, against everything ever added to it, blocks no longer in the index included. */
  ghost predicate Consistent(index: BlockMap, known: BlockMap, root: BlockId, floor: nat) {
    && Linked(known)
    && Stored(index, known)
    && Closed(index, floor)
    && Rooted(known, root)
    && Voted(known)
    && FinalityExact(index, known)
  }

  lemma IndexLinked(index: BlockMap, known: BlockMap, root: BlockId, floor: nat)
    requires Consistent(index, known, root, floor)
    ensures Linked(index)
  {
  }

  lemma {:induction false} IndexAncestor(index: BlockMap, known: BlockMap, root: BlockId, floor: nat, d: BlockId, x: BlockId)
    requires Consistent(index, known, root, floor)
    requires d in index && x in known && DescendsFrom(known, d, x) && known[x].blockNum >= floor
    ensures x in index
    decreases Rank(known, d)
  {
    if d != x {
      DescendantIsLater(known, d, x);
      DescendantIsLater(known, index[d].previous, x);
      IndexAncestor(index, known, root, floor, index[d].previous, x);
    }
  }

  /** Descent within the index is descent among all known blocks. */
  lemma {:induction false} IndexDescent(index: BlockMap, known: BlockMap, root: BlockId, floor: nat, d: BlockId, x: BlockId)
    requires Consistent(index, known, root, floor)
    requires d in index && x in index
    ensures Linked(index) && DescendsFrom(index, d, x) == DescendsFrom(known, d, x)
    decreases Rank(known, d)
  {
    IndexLinked(index, known, root, floor);
    var p := index[d].previous;
    if d != x {
      if p in index {
        IndexDescent(index, known, root, floor, p, x);
      } else if DescendsFrom(known, d, x) {
        DescendantIsLater(known, d, x);
        DescendantIsLater(known, p, x);
        assert false;
      }
    }
  }

  // ---------------------------------------------------------------------------
  // Adding a block
  // ---------------------------------------------------------------------------

  lemma TemplateInRange(s: HeaderState, slot: nat)
    requires InRange(s)
    ensures InRange(GenerateNext(s, slot))
  {
    var t := GenerateNext(s, slot);
    assert t.producer in t.lastImplied;
    LastIrreversibleIsImplied(t.lastImplied);
  }

  lemma LaterStagesInRange(t: HeaderState, h: Header)
    requires InRange(t)
    ensures InRange(Confirmed(t, h.confirmed))
    ensures InRange(Promoted(t))
    ensures h.newProducers.Some? && WithNewProducers(t, h.newProducers.value).Success? ==>
              InRange(WithNewProducers(t, h.newProducers.value).value)
  {
  }

  /** A block built on another: next number, inherited irreversible number, no confirmations. */
  ghost predicate BuiltOn(n: HeaderState, s: HeaderState, id: BlockId) {
    && InRange(n) && n.id == id && n.previous == s.id && n.blockNum == s.blockNum + 1
    && n.bftIrreversible == s.bftIrreversible && n.confirmations == []
  }

  lemma NextIsBuiltOn(s: HeaderState, h: Header, trust: bool)
    requires InRange(s) && Next(s, h, trust).Success?
    ensures BuiltOn(Next(s, h, trust).value, s, h.id)
  {
    Dpos.AcceptedStages(s, h, trust);
    TemplateInRange(s, h.slot);
    var c := Confirmed(GenerateNext(s, h.slot), h.confirmed);
    LaterStagesInRange(GenerateNext(s, h.slot), h);
    LaterStagesInRange(c, h);
    LaterStagesInRange(Promoted(c), h);
  }

  /** A block id is the hash of one header, and no header refers to the hash of one not yet made. */
  ghost predicate HashesFit(known: BlockMap, id: BlockId, previous: BlockId) {
    && (id in known ==> known[id].previous == previous)
    && forall d :: d in known && known[d].previous == id ==> id in known
  }

  lemma {:induction false} UnknownIsNoAncestor(known: BlockMap, d: BlockId, x: BlockId)
    requires Linked(known) && d in known && x !in known
    requires forall e :: e in known ==> known[e].previous != x
    ensures !DescendsFrom(known, d, x)
    decreases Rank(known, d)
  {
    if known[d].previous in known {
      UnknownIsNoAncestor(known, known[d].previous, x);
    }
  }

  lemma {:induction false} FinalizedElsewhere(known: BlockMap, known': BlockMap, n: HeaderState, x: BlockId, d: BlockId)
    requires Linked(known) && Linked(known') && known' == known[x := n]
    requires d in known && !DescendsFrom(known, d, x)
    ensures Finalized(known', d) == Finalized(known, d)
    decreases Rank(known, d)
  {
    if known[d].previous in known {
      FinalizedElsewhere(known, known', n, x, known[d].previous);
    }
  }

  lemma NewIsNoAncestor(index: BlockMap, known: BlockMap, root: BlockId, floor: nat, n: HeaderState, d: BlockId)
    requires Consistent(index, known, root, floor) && HashesFit(known, n.id, n.previous)
    requires n.id !in index && n.previous in index && d in index
    ensures !DescendsFrom(known, d, n.id)
  {
    if n.id in known {
      if DescendsFrom(known, d, n.id) {
        IndexAncestor(index, known, root, floor, d, n.id);
      }
    } else {
      UnknownIsNoAncestor(known, d, n.id);
    }
  }

  lemma InsertLinked(index: BlockMap, known: BlockMap, root: BlockId, floor: nat, n: HeaderState)
    requires Consistent(index, known, root, floor) && HashesFit(known, n.id, n.previous)
    requires n.id !in index && n.previous in index && BuiltOn(n, index[n.previous], n.id)
    ensures Linked(known[n.id := n])
  {
  }

  lemma InsertFinalized(index: BlockMap, known: BlockMap, root: BlockId, floor: nat, n: HeaderState)
    requires Consistent(index, known, root, floor) && HashesFit(known, n.id, n.previous)
    requires n.id !in index && n.previous in index && BuiltOn(n, index[n.previous], n.id)
    ensures Linked(known[n.id := n])
    ensures forall d :: d in index ==> Finalized(known[n.id := n], d) == Finalized(known, d)
    ensures Finalized(known[n.id := n], n.id) == n.bftIrreversible
  {
    InsertLinked(index, known, root, floor, n);
    forall d | d in index ensures Finalized(known[n.id := n], d) == Finalized(known, d) {
      NewIsNoAncestor(index, known, root, floor, n, d);
      FinalizedElsewhere(known, known[n.id := n], n, n.id, d);
    }
  }

  lemma InsertStored(index: BlockMap, known: BlockMap, n: HeaderState)
    requires Stored(index, known) && InRange(n)
    ensures Stored(index[n.id := n], known[n.id := n])
  {
    var index' := index[n.id := n];
    forall d | d in index' ensures InRange(index'[d]) {
      assert d != n.id ==> index'[d] == index[d];
    }
  }

  lemma InsertClosed(index: BlockMap, floor: nat, n: HeaderState)
    requires Closed(index, floor) && n.previous in index && n.blockNum == index[n.previous].blockNum + 1
    ensures Closed(index[n.id := n], floor)
  {
  }

  lemma InsertVoted(known: BlockMap, n: HeaderState)
    requires Voted(known) && ConfirmationsValid(n)
    ensures Voted(known[n.id := n])
  {
    var known' := known[n.id := n];
    forall d | d in known' ensures ConfirmationsValid(known'[d]) {
      assert d != n.id ==> known'[d] == known[d];
    }
  }

  lemma InsertKeeps(index: BlockMap, known: BlockMap, root: BlockId, floor: nat, n: HeaderState)
    requires Consistent(index, known, root, floor) && HashesFit(known, n.id, n.previous)
    requires n.id !in index && n.previous in index && BuiltOn(n, index[n.previous], n.id)
    ensures Consistent(index[n.id := n], known[n.id := n], root, floor)
  {
    InsertFinalized(index, known, root, floor, n);
    InsertStored(index, known, n);
    InsertClosed(index, floor, n);
    InsertVoted(known, n);
  }

  // ---------------------------------------------------------------------------
  // Adding a confirmation
  // ---------------------------------------------------------------------------

  datatype ForkError =
    | NoHead
    | AlreadyKnown
    | UnlinkableBlock
    | BadHeader(error: HeaderError)
    | UnknownBlock
    | AlreadyConfirmed
    | NotInSchedule
    | WrongKey

  /** The key of a producer in a schedule, or the default key. */
  function ProducerKeyOf(producers: seq<ProducerKey>, p: AccountName): PublicKey {
    if producers == [] then DEFAULT_KEY
    else if producers[0].producerName == p then producers[0].signingKey
    else ProducerKeyOf(producers[1..], p)
  }

  /** The key found is the one that the schedule gives the producer, and the default key if it gives none. */
  lemma {:induction false} KeyIsHeld(producers: seq<ProducerKey>, p: AccountName, key: PublicKey)
    ensures HoldsKey(producers, p, key) ==> ProducerKeyOf(producers, p) == key
    ensures ProducerKeyOf(producers, p) == key != DEFAULT_KEY ==> HoldsKey(producers, p, key)
    ensures (forall i :: 0 <= i < |producers| ==> producers[i].producerName != p) ==>
              ProducerKeyOf(producers, p) == DEFAULT_KEY
    decreases |producers|
  {
    if producers != [] && producers[0].producerName != p {
      var rest := producers[1..];
      KeyIsHeld(rest, p, key);
      if HoldsKey(producers, p, key) {
        var i :| 0 <= i < |producers| && producers[i] == ProducerKey(p, key)
                 && forall j :: 0 <= j < i ==> producers[j].producerName != p;
        assert rest[i - 1] == ProducerKey(p, key);
      }
      if HoldsKey(rest, p, key) {
        var i :| 0 <= i < |rest| && rest[i] == ProducerKey(p, key) && forall j :: 0 <= j < i ==> rest[j].producerName != p;
        assert producers[i + 1] == ProducerKey(p, key);
        assert forall j :: 0 < j < i + 1 ==> producers[j] == rest[j - 1];
      }
    }
  }

  predicate HasConfirmed(b: HeaderState, p: AccountName) {
    exists i :: 0 <= i < |b.confirmations| && b.confirmations[i].producer == p
  }

  /** A block with one more confirmation, or the reason it is rejected. */
  function WithConfirmation(b: HeaderState, c: Confirmation): Result<HeaderState, ForkError> {
    var key := ProducerKeyOf(b.active.producers, c.producer);
    if HasConfirmed(b, c.producer) then Failure(AlreadyConfirmed)
    else if key == DEFAULT_KEY then Failure(NotInSchedule)
    else if c.signer != key then Failure(WrongKey)
    else Success(b.(confirmations := b.confirmations + [c]))
  }

  /** Exactly the confirmations that are accepted: by a producer who has not confirmed the block yet,
      signed with the key that the block's schedule gives that producer. */
  lemma ConfirmedIff(b: HeaderState, c: Confirmation)
    ensures WithConfirmation(b, c).Success? <==>
              && (forall i :: 0 <= i < |b.confirmations| ==> b.confirmations[i].producer != c.producer)
              && HoldsKey(b.active.producers, c.producer, c.signer) && c.signer != DEFAULT_KEY
    ensures WithConfirmation(b, c).Success? ==>
              WithConfirmation(b, c).value == b.(confirmations := b.confirmations + [c])
    ensures WithConfirmation(b, c) == Failure(AlreadyConfirmed) <==>
              exists i :: 0 <= i < |b.confirmations| && b.confirmations[i].producer == c.producer
    ensures (forall i :: 0 <= i < |b.active.producers| ==> b.active.producers[i].producerName != c.producer) ==>
              WithConfirmation(b, c) == Failure(AlreadyConfirmed) || WithConfirmation(b, c) == Failure(NotInSchedule)
  {
    KeyIsHeld(b.active.producers, c.producer, c.signer);
  }

  method AddToBlock(b: HeaderState, c: Confirmation) returns (r: Result<HeaderState, ForkError>)
    ensures r == WithConfirmation(b, c)
    ensures r.Success? <==>
              && (forall i :: 0 <= i < |b.confirmations| ==> b.confirmations[i].producer != c.producer)
              && HoldsKey(b.active.producers, c.producer, c.signer) && c.signer != DEFAULT_KEY
  {
    ConfirmedIff(b, c);
    for i := 0 to |b.confirmations|
      invariant forall j :: 0 <= j < i ==> b.confirmations[j].producer != c.producer
    {
      if b.confirmations[i].producer == c.producer {
        return Failure(AlreadyConfirmed);
      }
    }
    var key := FindKey(b.active.producers, c.producer);
    if key == DEFAULT_KEY { return Failure(NotInSchedule); }
    if c.signer != key { return Failure(WrongKey); }
    r := Success(b.(confirmations := b.confirmations + [c]));
  }

  method FindKey(producers: seq<ProducerKey>, p: AccountName) returns (key: PublicKey)
    ensures key == ProducerKeyOf(producers, p)
    ensures HoldsKey(producers, p, key) ||
            (key == DEFAULT_KEY && forall i :: 0 <= i < |producers| ==> producers[i].producerName != p)
  {
    for i := 0 to |producers|
      invariant ProducerKeyOf(producers, p) == ProducerKeyOf(producers[i..], p)
      invariant forall j :: 0 <= j < i ==> producers[j].producerName != p
    {
      if producers[i].producerName == p {
        assert producers[i] == ProducerKey(p, producers[i].signingKey);
        return producers[i].signingKey;
      }
      assert producers[i..][1..] == producers[i + 1..];
    }
    key := DEFAULT_KEY;
  }

  lemma ConfirmationStaysValid(b: HeaderState, c: Confirmation)
    requires ConfirmationsValid(b) && WithConfirmation(b, c).Success?
    ensures ConfirmationsValid(WithConfirmation(b, c).value)
  {
    ConfirmedIff(b, c);
    var b' := WithConfirmation(b, c).value;
    forall i | 0 <= i < |b'.confirmations|
      ensures HoldsKey(b.active.producers, b'.confirmations[i].producer, b'.confirmations[i].signer)
      ensures b'.confirmations[i].producer in b.active.Names()
    {
      if i == |b.confirmations| {
        HeldIsScheduled(b.active, c.producer, c.signer);
      }
    }
  }

  lemma HeldIsScheduled(active: Schedule, p: AccountName, key: PublicKey)
    requires HoldsKey(active.producers, p, key)
    ensures p in active.Names()
  {
  }

  lemma FinalizedGrowsUpward(known: BlockMap, d: BlockId)
    requires Linked(known) && d in known && known[d].previous in known
    ensures Finalized(known, known[d].previous) <= Finalized(known, d)
  {
    FinalizedBound(known, known[d].previous);
  }

  lemma IndexMonotone(index: BlockMap, known: BlockMap, root: BlockId, floor: nat)
    requires Consistent(index, known, root, floor)
    ensures Monotone(index)
  {
    forall d | d in index && index[d].previous in index
      ensures index[index[d].previous].bftIrreversible <= index[d].bftIrreversible
    {
      FinalizedGrowsUpward(known, d);
    }
  }

  /** A block already marked irreversible itself has its quorum. */
  lemma MarkedHasQuorum(known: BlockMap, b: BlockId)
    requires Linked(known) && b in known && known[b].blockNum > 0
    requires Finalized(known, b) >= known[b].blockNum
    ensures QuorumConfirmed(known[b])
  {
    if known[b].previous in known {
      FinalizedBound(known, known[b].previous);
    }
  }

  /** The same blocks, except for their confirmations and irreversible numbers. */
  ghost predicate Updated(m: BlockMap, m': BlockMap) {
    && m'.Keys == m.Keys
    && forall d :: d in m ==>
         m'[d] == m[d].(confirmations := m'[d].confirmations, bftIrreversible := m'[d].bftIrreversible)
  }

  lemma UpdatedTree(m: BlockMap, m': BlockMap)
    requires Updated(m, m')
    ensures SameTree(m, m')
  {
  }

  lemma UpdatedStored(index: BlockMap, known: BlockMap, index': BlockMap, known': BlockMap)
    requires Stored(index, known) && Updated(index, index') && Updated(known, known')
    requires forall d :: d in index' ==> index'[d] == known'[d]
    ensures Stored(index', known')
  {
    forall d | d in index' ensures InRange(index'[d]) {
      assert InRange(index[d]);
    }
  }

  lemma UpdatedClosed(index: BlockMap, index': BlockMap, floor: nat)
    requires Closed(index, floor) && SameTree(index, index')
    ensures Closed(index', floor)
  {
  }

  lemma UpdatedRooted(known: BlockMap, known': BlockMap, root: BlockId)
    requires Rooted(known, root) && SameTree(known, known')
    ensures Rooted(known', root)
  {
  }

  /** What is left to show for an update: the confirmations and the finality. */
  lemma UpdateKeeps(index: BlockMap, known: BlockMap, root: BlockId, floor: nat, index': BlockMap, known': BlockMap)
    requires Consistent(index, known, root, floor)
    requires Updated(index, index') && Updated(known, known') && Voted(known')
    requires forall d :: d in index' ==> index'[d] == known'[d]
    requires Linked(known') && forall d :: d in index ==> index'[d].bftIrreversible == Finalized(known', d)
    ensures Consistent(index', known', root, floor)
  {
    UpdatedTree(index, index');
    UpdatedTree(known, known');
    UpdatedStored(index, known, index', known');
    UpdatedClosed(index, index', floor);
    UpdatedRooted(known, known', root);
  }

  lemma ReplacedUpdates(m: BlockMap, id: BlockId, b': HeaderState)
    requires id in m && b' == m[id].(confirmations := b'.confirmations)
    ensures Updated(m, m[id := b'])
  {
  }

  lemma LiftedUpdates(m: BlockMap, m': BlockMap, root: BlockId)
    requires Linked(m) && root in m && m'.Keys == m.Keys
    requires forall d :: d in m ==> m'[d] == Lifted(m, root, d)
    ensures Updated(m, m')
    ensures forall d :: d in m ==> m'[d].confirmations == m[d].confirmations
  {
  }

  lemma UpdatedTwice(m: BlockMap, m1: BlockMap, m2: BlockMap)
    requires Updated(m, m1) && Updated(m1, m2)
    ensures Updated(m, m2)
  {
  }

  lemma MergeUpdates(index: BlockMap, known: BlockMap, index': BlockMap)
    requires Stored(index, known) && Updated(index, index')
    ensures Updated(known, known + index')
  {
    var known' := known + index';
    assert known'.Keys == known.Keys;
    forall d | d in known
      ensures known'[d] == known[d].(confirmations := known'[d].confirmations, bftIrreversible := known'[d].bftIrreversible)
    {
      assert d in index' ==> known'[d] == index'[d] && known[d] == index[d];
    }
  }

  lemma MergeVotes(index: BlockMap, known: BlockMap, index': BlockMap, id: BlockId, b': HeaderState)
    requires Stored(index, known) && Voted(known) && Updated(index, index') && id in index
    requires ConfirmationsValid(b') && b'.active == index[id].active
    requires forall d :: d in index ==> index'[d].confirmations == (if d == id then b' else index[d]).confirmations
    ensures Voted(known + index')
    ensures QuorumConfirmed((known + index')[id]) == QuorumConfirmed(b')
    ensures forall x :: x in known && x != id ==> QuorumConfirmed((known + index')[x]) == QuorumConfirmed(known[x])
  {
    var known' := known + index';
    forall d | d in known'
      ensures ConfirmationsValid(known'[d])
      ensures QuorumConfirmed(known'[d]) == QuorumConfirmed(if d == id then b' else known[d])
    {
      var b := if d == id then b' else known[d];
      assert known'[d].confirmations == b.confirmations && known'[d].active == b.active;
      assert ConfirmationsValid(b);
    }
  }

  /** A confirmation that completes no quorum changes no irreversible number. */
  lemma QuietConfirmKeeps(index: BlockMap, known: BlockMap, root: BlockId, floor: nat, id: BlockId, b': HeaderState)
    requires Consistent(index, known, root, floor) && id in index
    requires b' == index[id].(confirmations := b'.confirmations) && ConfirmationsValid(b')
    requires QuorumConfirmed(b') == QuorumConfirmed(index[id])
    ensures Consistent(index[id := b'], known + index[id := b'], root, floor)
  {
    var index' := index[id := b'];
    var known' := known + index';
    QuietConfirmUpdates(index, known, id, b');
    QuietFinality(index, known, known');
    UpdateKeeps(index, known, root, floor, index', known');
  }

  lemma QuietConfirmUpdates(index: BlockMap, known: BlockMap, id: BlockId, b': HeaderState)
    requires Stored(index, known) && Voted(known) && id in index
    requires b' == index[id].(confirmations := b'.confirmations) && ConfirmationsValid(b')
    requires QuorumConfirmed(b') == QuorumConfirmed(index[id])
    ensures var index' := index[id := b'];
            && Updated(index, index') && Updated(known, known + index') && Voted(known + index')
            && (forall x :: x in known ==> QuorumConfirmed((known + index')[x]) == QuorumConfirmed(known[x]))
  {
    var index' := index[id := b'];
    ReplacedUpdates(index, id, b');
    MergeUpdates(index, known, index');
    MergeVotes(index, known, index', id, b');
  }

  lemma QuietFinality(index: BlockMap, known: BlockMap, known': BlockMap)
    requires Linked(known) && Stored(index, known) && Updated(known, known')
    requires forall x :: x in known ==> QuorumConfirmed(known'[x]) == QuorumConfirmed(known[x])
    ensures Linked(known') && forall d :: d in index ==> Finalized(known', d) == Finalized(known, d)
  {
    UpdatedTree(known, known');
    if known == map[] {
    } else {
      var any :| any in known;
      SameTreeDescent(known, known', any, any);
    }
    forall d | d in index ensures Finalized(known', d) == Finalized(known, d) {
      FinalizedDepends(known, known', d);
    }
  }

  lemma QuorumFinality(index: BlockMap, known: BlockMap, root: BlockId, floor: nat, id: BlockId, index1: BlockMap,
                       known': BlockMap, d: BlockId)
    requires Consistent(index, known, root, floor) && id in index && d in index
    requires SameTree(known, known') && SameTree(index, index1)
    requires QuorumConfirmed(known'[id])
    requires forall x :: x in known && x != id ==> QuorumConfirmed(known'[x]) == QuorumConfirmed(known[x])
    requires index1[d].bftIrreversible == index[d].bftIrreversible
    ensures Linked(known') && Linked(index1)
    ensures Lifted(index1, id, d).bftIrreversible == Finalized(known', d)
  {
    FinalizedAfterQuorum(known, known', id, d);
    IndexDescent(index, known, root, floor, d, id);
    SameTreeDescent(index, index1, d, id);
  }

  lemma LiftedIndex(index: BlockMap, id: BlockId, b': HeaderState, index1: BlockMap, index': BlockMap)
    requires id in index && b' == index[id].(confirmations := b'.confirmations)
    requires index1 == index[id := b'] && Linked(index1) && index'.Keys == index.Keys
    requires forall d :: d in index ==> index'[d] == Lifted(index1, id, d)
    ensures Updated(index, index') && SameTree(index, index1)
    ensures forall d :: d in index ==>
              && index1[d].bftIrreversible == index[d].bftIrreversible
              && index'[d].confirmations == (if d == id then b' else index[d]).confirmations
  {
    ReplacedUpdates(index, id, b');
    LiftedUpdates(index1, index', id);
    UpdatedTwice(index, index1, index');
    UpdatedTree(index, index1);
  }

  lemma QuorumConfirmUpdates(index: BlockMap, known: BlockMap, id: BlockId, b': HeaderState, index1: BlockMap,
                             index': BlockMap, known': BlockMap)
    requires Stored(index, known) && Voted(known) && id in index
    requires b' == index[id].(confirmations := b'.confirmations) && ConfirmationsValid(b') && QuorumConfirmed(b')
    requires index1 == index[id := b'] && Linked(index1) && index'.Keys == index.Keys
    requires forall d :: d in index ==> index'[d] == Lifted(index1, id, d)
    requires known' == known + index'
    ensures Updated(index, index') && SameTree(index, index1)
    ensures forall d :: d in index ==> index1[d].bftIrreversible == index[d].bftIrreversible && index'[d] == known'[d]
    ensures Updated(known, known') && SameTree(known, known') && Voted(known')
    ensures QuorumConfirmed(known'[id])
    ensures forall x :: x in known && x != id ==> QuorumConfirmed(known'[x]) == QuorumConfirmed(known[x])
  {
    LiftedIndex(index, id, b', index1, index');
    MergeUpdates(index, known, index');
    MergeVotes(index, known, index', id, b');
    UpdatedTree(known, known');
  }

  /** A confirmation that completes a quorum, followed by the search through all forks. */
  lemma QuorumConfirmKeeps(index: BlockMap, known: BlockMap, root: BlockId, floor: nat, id: BlockId, b': HeaderState,
                           index': BlockMap)
    requires Consistent(index, known, root, floor) && id in index
    requires b' == index[id].(confirmations := b'.confirmations) && ConfirmationsValid(b')
    requires QuorumConfirmed(b') && Linked(index[id := b'])
    requires index'.Keys == index.Keys
    requires forall d :: d in index ==> index'[d] == Lifted(index[id := b'], id, d)
    ensures Consistent(index', known + index', root, floor)
  {
    var index1, known' := index[id := b'], known + index';
    QuorumConfirmUpdates(index, known, id, b', index1, index', known');
    forall d | d in index ensures Linked(known') && index'[d].bftIrreversible == Finalized(known', d) {
      QuorumFinality(index, known, root, floor, id, index1, known', d);
    }
    UpdateKeeps(index, known, root, floor, index', known');
  }

  // ---------------------------------------------------------------------------
  // Removing forks
  // ---------------------------------------------------------------------------

  ghost predicate Within(m: BlockMap, index: BlockMap) {
    forall d :: d in m ==> d in index && m[d] == index[d]
  }

  lemma WithinLinked(m: BlockMap, index: BlockMap)
    requires Linked(index) && Within(m, index)
    ensures Linked(m)
  {
  }

  lemma {:induction false} WithinDescent(m: BlockMap, index: BlockMap, d: BlockId, a: BlockId)
    requires Linked(index) && Within(m, index) && Linked(m) && DescendsFrom(m, d, a)
    ensures DescendsFrom(index, d, a)
    decreases Rank(m, d)
  {
    if d != a {
      WithinDescent(m, index, m[d].previous, a);
    }
  }

  lemma SmallerKeeps(m: BlockMap, index: BlockMap, known: BlockMap, root: BlockId, floor: nat, floor': nat)
    requires Consistent(index, known, root, floor) && Within(m, index) && Closed(m, floor')
    ensures Consistent(m, known, root, floor')
  {
    forall d | d in m ensures InRange(m[d]) {
      assert InRange(index[d]);
    }
  }

  /** A fork that is cut off takes no block of another fork with it. */
  lemma RemoveKeeps(index: BlockMap, known: BlockMap, root: BlockId, floor: nat, id: BlockId)
    requires Consistent(index, known, root, floor)
    ensures Linked(index) && Consistent(WithoutFork(index, id), known, root, floor)
  {
    IndexLinked(index, known, root, floor);
    var m := WithoutFork(index, id);
    SmallerKeeps(m, index, known, root, floor, floor);
  }

  ghost function StrictDescendants(index: BlockMap, h: BlockId): BlockMap
    requires Linked(index)
  {
    map d | d in index && d != h && DescendsFrom(index, d, h) :: index[d]
  }

  /** While the blocks beside h are cut off one by one. */
  ghost predicate Pruning(index: BlockMap, floor: nat, h: BlockId, m: BlockMap)
    requires Linked(index)
  {
    && h in index && index[h].blockNum == floor && Closed(index, floor)
    && Within(m, index) && h !in m
    && (forall d :: d in m && m[d].blockNum > floor ==> m[d].previous in m || m[d].previous == h)
    && (forall d :: d in StrictDescendants(index, h) ==> d in m)
  }

  lemma PruneStarts(index: BlockMap, floor: nat, h: BlockId)
    requires Linked(index) && Closed(index, floor) && h in index && index[h].blockNum == floor
    ensures Pruning(index, floor, h, index - {h})
  {
  }

  lemma PruneBeside(index: BlockMap, floor: nat, h: BlockId, m: BlockMap, x: BlockId)
    requires Linked(index) && Pruning(index, floor, h, m) && x in m && m[x].blockNum == floor
    ensures Linked(m) && Pruning(index, floor, h, WithoutFork(m, x))
  {
    WithinLinked(m, index);
    forall d | d in StrictDescendants(index, h) ensures d in WithoutFork(m, x) {
      if DescendsFrom(m, d, x) {
        WithinDescent(m, index, d, x);
        SameHeight(index, d, x, h);
      }
    }
  }

  lemma {:induction false} AboveIsDescendant(index: BlockMap, floor: nat, h: BlockId, m: BlockMap, d: BlockId)
    requires Linked(index) && Pruning(index, floor, h, m) && d in m
    requires forall x :: x in m ==> m[x].blockNum > floor
    ensures DescendsFrom(index, d, h)
    decreases Rank(index, d)
  {
    if m[d].previous != h {
      AboveIsDescendant(index, floor, h, m, m[d].previous);
    }
  }

  lemma PruneDone(index: BlockMap, floor: nat, h: BlockId, m: BlockMap)
    requires Linked(index) && Pruning(index, floor, h, m)
    requires forall x :: x in m ==> m[x].blockNum > floor
    ensures m == StrictDescendants(index, h) && Closed(m, floor + 1)
  {
    forall d | d in m ensures d in StrictDescendants(index, h) {
      AboveIsDescendant(index, floor, h, m, d);
    }
  }
}
