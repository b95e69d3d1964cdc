/**
  * Merkle roots of block ids: the batch algorithm, the incremental one that a block header
  * carries along its chain, and the proof that the two always agree.
  *
  * The algorithms take any digest type and any way to hash a pair; what a root commits to is shown for
  * the chain's own pairs, whose digests are marked with their side.
  */
module Merkle {
  import opened MerkleDepth
  import opened Words

  // ---------------------------------------------------------------------------
  // Reference: level by level, the last node paired with itself when left alone
  // ---------------------------------------------------------------------------

  function Level<D>(pair: (D, D) -> D, ids: seq<D>): (up: seq<D>)
    ensures |up| == (|ids| + 1) / 2
  {
    seq((|ids| + 1) / 2, i requires 0 <= i < (|ids| + 1) / 2 =>
      pair(ids[2 * i], if 2 * i + 1 < |ids| then ids[2 * i + 1] else ids[2 * i]))
  }

  function Root<D>(pair: (D, D) -> D, ids: seq<D>): D
    requires ids != []
    decreases |ids|
  {
    if |ids| == 1 then ids[0] else Root(pair, Level(pair, ids))
  }

  lemma LevelOfPadded<D>(pair: (D, D) -> D, ids: seq<D>, padded: seq<D>, up: seq<D>)
    requires |ids| > 1
    requires padded == if |ids| % 2 == 1 then ids + [ids[|ids| - 1]] else ids
    requires |up| == |padded| / 2
    requires forall k :: 0 <= k < |up| ==> up[k] == pair(padded[2 * k], padded[2 * k + 1])
    ensures up == Level(pair, ids)
  {
    forall k | 0 <= k < |up| ensures up[k] == Level(pair, ids)[k] {
      assert padded[2 * k] == ids[2 * k];
    }
  }

  /** One round of the batch algorithm: pad to an even length, fold the pairs in place, halve. */
  method FoldLevel<D>(pair: (D, D) -> D, input: seq<D>) returns (ids: seq<D>)
    requires |input| > 1
    ensures ids == Level(pair, input)
  {
    ids := input;
    if |ids| % 2 == 1 {
      ids := ids + [ids[|ids| - 1]];
    }
    var half := |ids| / 2;
    ghost var padded := ids;
    for i := 0 to half
      invariant |ids| == |padded|
      invariant forall k :: 0 <= k < i ==> ids[k] == pair(padded[2 * k], padded[2 * k + 1])
      invariant forall k :: i <= k < |ids| ==> ids[k] == padded[k]
    {
      ids := ids[i := pair(ids[2 * i], ids[2 * i + 1])];
    }
    ids := ids[..half];
    LevelOfPadded(pair, input, padded, ids);
  }

  method BatchRoot<D>(pair: (D, D) -> D, empty: D, input: seq<D>) returns (root: D)
    ensures root == if input == [] then empty else Root(pair, input)
  {
    if input == [] {
      return empty;
    }
    var ids := input;
    while |ids| > 1
      invariant ids != []
      invariant Root(pair, ids) == Root(pair, input)
      decreases |ids|
    {
      ids := FoldLevel(pair, ids);
    }
    root := ids[0];
  }

  // ---------------------------------------------------------------------------
  // What a root commits to
  // ---------------------------------------------------------------------------

  /** A digest: the bit that tells its side in a pair, and all other bits. */
  datatype Digest = Digest(side: bool, rest: nat)

  function CanonicalLeft(d: Digest): Digest { d.(side := false) }

  function CanonicalRight(d: Digest): Digest { d.(side := true) }

  /** The pair function of the chain: both digests are marked with their side before they are hashed. */
  function CanonicalPair(hash: (Digest, Digest) -> Digest): (Digest, Digest) -> Digest {
    (l, r) => hash(CanonicalLeft(l), CanonicalRight(r))
  }

  /** No two inputs have hashes that agree but for the side bit, which the next level overwrites. */
  ghost predicate CollisionFree(hash: (Digest, Digest) -> Digest) {
    forall a, b, c, d :: hash(a, b).rest == hash(c, d).rest ==> a == c && b == d
  }

  /** What is left of a sequence of leaves once each is marked with a side. */
  predicate AgreeWhenMarked(x: seq<Digest>, y: seq<Digest>) {
    |x| == |y| && forall k :: 0 <= k < |x| ==> CanonicalLeft(x[k]) == CanonicalLeft(y[k])
  }

  /** Either marking loses the same bit, so that it does not matter which side a leaf is on. */
  lemma MarkingsAgree(a: Digest, b: Digest)
    ensures CanonicalLeft(a) == CanonicalLeft(b) <==> CanonicalRight(a) == CanonicalRight(b)
    ensures CanonicalLeft(a) == CanonicalLeft(b) <==> a.rest == b.rest
  {
  }

  lemma LevelForgets(hash: (Digest, Digest) -> Digest, x: seq<Digest>, y: seq<Digest>)
    requires AgreeWhenMarked(x, y)
    ensures Level(CanonicalPair(hash), x) == Level(CanonicalPair(hash), y)
  {
    var pair := CanonicalPair(hash);
    forall k | 0 <= k < |Level(pair, x)| ensures Level(pair, x)[k] == Level(pair, y)[k] {
      var i := if 2 * k + 1 < |x| then 2 * k + 1 else 2 * k;
      MarkingsAgree(x[2 * k], y[2 * k]);
      MarkingsAgree(x[i], y[i]);
    }
  }

  /** The marked pair (a, b) is hashed on the way from the leaves to their root. */
  ghost predicate Hashed(hash: (Digest, Digest) -> Digest, ids: seq<Digest>, a: Digest, b: Digest)
    decreases |ids|
  {
    && |ids| > 1
    && (|| (exists k: nat :: 2 * k < |ids| && PairAt(ids, k) == (a, b))
        || Hashed(hash, Level(CanonicalPair(hash), ids), a, b))
  }

  /** The k-th marked pair of a level. */
  function PairAt(ids: seq<Digest>, k: nat): (Digest, Digest)
    requires 2 * k < |ids|
  {
    (CanonicalLeft(ids[2 * k]), CanonicalRight(if 2 * k + 1 < |ids| then ids[2 * k + 1] else ids[2 * k]))
  }

  /** Levels that agree over leaves that do not: a pair on which the hash collides. */
  lemma LevelCollision(hash: (Digest, Digest) -> Digest, x: seq<Digest>, y: seq<Digest>) returns (k: nat)
    requires |x| == |y| && !AgreeWhenMarked(x, y)
    requires AgreeWhenMarked(Level(CanonicalPair(hash), x), Level(CanonicalPair(hash), y))
    ensures 2 * k < |x| && PairAt(x, k) != PairAt(y, k)
    ensures hash(PairAt(x, k).0, PairAt(x, k).1).rest == hash(PairAt(y, k).0, PairAt(y, k).1).rest
  {
    var u, v := Level(CanonicalPair(hash), x), Level(CanonicalPair(hash), y);
    var leaf :| 0 <= leaf < |x| && CanonicalLeft(x[leaf]) != CanonicalLeft(y[leaf]);
    k := leaf / 2;
    MarkingsAgree(x[leaf], y[leaf]);
    MarkingsAgree(u[k], v[k]);
  }

  /**
    * Whatever the hash: from two lists of the same length with the same root, whose leaves do not
    * agree but for the side bit, two different pairs can be read off that were both hashed on the way
    * to the root, with hashes that agree but for the side bit.
    */
  lemma {:induction false} RootCollision(hash: (Digest, Digest) -> Digest, x: seq<Digest>, y: seq<Digest>)
    returns (p: (Digest, Digest), q: (Digest, Digest))
    requires |x| == |y| > 1 && !AgreeWhenMarked(x, y)
    requires Root(CanonicalPair(hash), x) == Root(CanonicalPair(hash), y)
    ensures Hashed(hash, x, p.0, p.1) && Hashed(hash, y, q.0, q.1)
    ensures p != q && hash(p.0, p.1).rest == hash(q.0, q.1).rest
    decreases |x|
  {
    var u, v := Level(CanonicalPair(hash), x), Level(CanonicalPair(hash), y);
    if AgreeWhenMarked(u, v) {
      var k := LevelCollision(hash, x, y);
      p, q := PairAt(x, k), PairAt(y, k);
      assert PairAt(x, k) == (p.0, p.1) && PairAt(y, k) == (q.0, q.1);
    } else {
      p, q := RootCollision(hash, u, v);
    }
  }

  /**
    * Without hash collisions, two lists of more than one leaf and of the same length have the same
    * root exactly if their leaves agree but for the side bit.
    */
  lemma RootBinds(hash: (Digest, Digest) -> Digest, x: seq<Digest>, y: seq<Digest>)
    requires CollisionFree(hash) && |x| == |y| > 1
    ensures Root(CanonicalPair(hash), x) == Root(CanonicalPair(hash), y) <==> AgreeWhenMarked(x, y)
  {
    if AgreeWhenMarked(x, y) {
      LevelForgets(hash, x, y);
    } else if Root(CanonicalPair(hash), x) == Root(CanonicalPair(hash), y) {
      var p, q := RootCollision(hash, x, y);
      assert false;
    }
  }

  /** Whatever the hash, a leaf and its copy with the other side bit give the same root. */
  lemma SideBitIsLost(hash: (Digest, Digest) -> Digest, a: Digest, c: Digest)
    ensures var a' := a.(side := !a.side);
            a != a' && Root(CanonicalPair(hash), [a, c]) == Root(CanonicalPair(hash), [a', c])
  {
    LevelForgets(hash, [a, c], [a.(side := !a.side), c]);
  }

  /** The number of leaves is needed: repeating the last of an odd list leaves the root as it was. */
  lemma RepeatedLastLeaf<D>(pair: (D, D) -> D, ids: seq<D>)
    requires |ids| > 1 && |ids| % 2 == 1
    ensures Root(pair, ids + [ids[|ids| - 1]]) == Root(pair, ids)
  {
    var padded := ids + [ids[|ids| - 1]];
    LevelOfPadded(pair, ids, padded, Level(pair, padded));
  }

  // ---------------------------------------------------------------------------
  // What the incremental tree keeps: the roots of the maximal complete subtrees
  // ---------------------------------------------------------------------------

  function PairUp<D>(pair: (D, D) -> D, c: seq<D>): (up: seq<D>)
    ensures |up| == |c| / 2
  {
    seq(|c| / 2, i requires 0 <= i < |c| / 2 => pair(c[2 * i], c[2 * i + 1]))
  }

  /** Lowest level first: at every level with an odd number of complete nodes, the last one. */
  function CompleteRoots<D>(pair: (D, D) -> D, c: seq<D>): seq<D>
    decreases |c|
  {
    if c == [] then []
    else if |c| % 2 == 1 then [c[|c| - 1]] + CompleteRoots(pair, PairUp(pair, c))
    else CompleteRoots(pair, PairUp(pair, c))
  }

  lemma HeightStep(n: nat)
    ensures n > 0 ==> Height(n + 1) == Height(n / 2 + 1) + 1
    ensures n == 0 ==> Height(n + 1) == 0
  {
    assert (n + 2) / 2 == n / 2 + 1;
  }

  /** True when every level of a tree with n leaves is fully realised. */
  predicate IsPowerOf2(n: nat)
    decreases n
  {
    n == 1 || (n > 1 && n % 2 == 0 && IsPowerOf2(n / 2))
  }

  /** The stored node list for the given leaves: complete roots, and the tree root last. */
  function ActiveNodes<D>(pair: (D, D) -> D, leaves: seq<D>): seq<D>
  {
    if leaves == [] then []
    else if IsPowerOf2(|leaves|) then CompleteRoots(pair, leaves)
    else CompleteRoots(pair, leaves) + [Root(pair, leaves)]
  }

  lemma {:induction false} PowerOf2Complete<D>(pair: (D, D) -> D, leaves: seq<D>)
    requires IsPowerOf2(|leaves|)
    ensures CompleteRoots(pair, leaves) == [Root(pair, leaves)]
    decreases |leaves|
  {
    if |leaves| == 1 {
      assert CompleteRoots(pair, PairUp(pair, leaves)) == [];
    } else {
      assert PairUp(pair, leaves) == Level(pair, leaves);
      PowerOf2Complete(pair, PairUp(pair, leaves));
    }
  }

  lemma ActiveNodesLast<D>(pair: (D, D) -> D, leaves: seq<D>)
    requires leaves != []
    ensures ActiveNodes(pair, leaves) != []
    ensures var a := ActiveNodes(pair, leaves); a[|a| - 1] == Root(pair, leaves)
  {
    if IsPowerOf2(|leaves|) {
      PowerOf2Complete(pair, leaves);
    }
  }

  // ---------------------------------------------------------------------------
  // One level of an append: `c` are the complete nodes to the left of the node being carried up
  // ---------------------------------------------------------------------------

  lemma LevelCarryLeft<D>(pair: (D, D) -> D, c: seq<D>, top: D)
    requires |c| % 2 == 0
    ensures Level(pair, c + [top]) == PairUp(pair, c) + [pair(top, top)]
  {
    var n := |c| / 2;
    forall i | 0 <= i < n ensures Level(pair, c + [top])[i] == PairUp(pair, c)[i] {
      assert (c + [top])[2 * i] == c[2 * i] && (c + [top])[2 * i + 1] == c[2 * i + 1];
    }
    assert (c + [top])[2 * n] == top;
  }

  lemma LevelCarryRight<D>(pair: (D, D) -> D, c: seq<D>, top: D)
    requires |c| % 2 == 1
    ensures Level(pair, c + [top]) == PairUp(pair, c + [top]) == PairUp(pair, c) + [pair(c[|c| - 1], top)]
  {
    var n := |c| / 2;
    forall i | 0 <= i < n ensures Level(pair, c + [top])[i] == PairUp(pair, c)[i] {
      assert (c + [top])[2 * i] == c[2 * i] && (c + [top])[2 * i + 1] == c[2 * i + 1];
    }
    assert (c + [top])[2 * n] == c[|c| - 1] && (c + [top])[2 * n + 1] == top;
  }

  lemma PairUpDropsOdd<D>(pair: (D, D) -> D, c: seq<D>, top: D)
    requires |c| % 2 == 0
    ensures PairUp(pair, c + [top]) == PairUp(pair, c)
  {
    forall i | 0 <= i < |c| / 2 ensures PairUp(pair, c + [top])[i] == PairUp(pair, c)[i] {
      assert (c + [top])[2 * i] == c[2 * i] && (c + [top])[2 * i + 1] == c[2 * i + 1];
    }
  }

  lemma CarryLeft<D>(pair: (D, D) -> D, c: seq<D>, top: D)
    requires |c| % 2 == 0 && c != []
    ensures Root(pair, c + [top]) == Root(pair, PairUp(pair, c) + [pair(top, top)])
    ensures CompleteRoots(pair, c + [top]) == [top] + CompleteRoots(pair, PairUp(pair, c))
    ensures CompleteRoots(pair, c) == CompleteRoots(pair, PairUp(pair, c))
    ensures !IsPowerOf2(|c| + 1)
  {
    LevelCarryLeft(pair, c, top);
    PairUpDropsOdd(pair, c, top);
    assert (c + [top])[|c|] == top;
  }

  lemma CarryRight<D>(pair: (D, D) -> D, c: seq<D>, top: D)
    requires |c| % 2 == 1
    ensures var up := PairUp(pair, c) + [pair(c[|c| - 1], top)];
            && Root(pair, c + [top]) == Root(pair, up)
            && CompleteRoots(pair, c + [top]) == CompleteRoots(pair, up)
    ensures CompleteRoots(pair, c) == [c[|c| - 1]] + CompleteRoots(pair, PairUp(pair, c))
    ensures IsPowerOf2(|c| + 1) == IsPowerOf2(|c| / 2 + 1)
  {
    LevelCarryRight(pair, c, top);
  }

  /**
    * Half-way through an append of the last leaf of `all`: the carried node `top` stands to the
    * right of the complete nodes `c`, `updated` is written, and `unread` is left of the old nodes.
    */
  ghost predicate Carrying<D>(pair: (D, D) -> D, all: seq<D>, c: seq<D>, top: D, partial: bool,
                              updated: seq<D>, unread: seq<D>)
  {
    && all != []
    && CompleteRoots(pair, c) <= unread
    && Root(pair, c + [top]) == Root(pair, all)
    && (!partial ==>
          && updated + CompleteRoots(pair, c + [top]) == CompleteRoots(pair, all)
          && IsPowerOf2(|c| + 1) == IsPowerOf2(|all|))
    && (partial ==>
          && updated + CompleteRoots(pair, c) == CompleteRoots(pair, all)
          && !IsPowerOf2(|all|))
  }

  lemma TakeHead<D>(left: D, rest: seq<D>, updated: seq<D>, unread: seq<D>)
    requires [left] + rest <= unread
    ensures unread != [] && unread[0] == left
    ensures rest <= unread[1..]
    ensures updated + ([left] + rest) == (updated + [left]) + rest
  {
    assert unread[0] == ([left] + rest)[0];
    assert unread[1..][..|rest|] == unread[..|rest| + 1][1..];
    assert ([left] + rest)[1..] == rest;
  }

  lemma CarryStepLeft<D>(pair: (D, D) -> D, all: seq<D>, c: seq<D>, top: D, partial: bool,
                         updated: seq<D>, unread: seq<D>)
    requires Carrying(pair, all, c, top, partial, updated, unread)
    requires c != [] && |c| % 2 == 0
    ensures Carrying(pair, all, PairUp(pair, c), pair(top, top), true,
                     if partial then updated else updated + [top], unread)
  {
    CarryLeft(pair, c, top);
    var rest := CompleteRoots(pair, PairUp(pair, c));
    assert updated + ([top] + rest) == (updated + [top]) + rest;
  }

  lemma CarryStepRight<D>(pair: (D, D) -> D, all: seq<D>, c: seq<D>, top: D, partial: bool,
                          updated: seq<D>, unread: seq<D>)
    requires Carrying(pair, all, c, top, partial, updated, unread)
    requires |c| % 2 == 1
    ensures unread != []
    ensures Carrying(pair, all, PairUp(pair, c), pair(unread[0], top), partial,
                     if partial then updated + [unread[0]] else updated, unread[1..])
  {
    var left, up := c[|c| - 1], PairUp(pair, c);
    assert && Root(pair, c + [top]) == Root(pair, up + [pair(left, top)])
           && CompleteRoots(pair, c + [top]) == CompleteRoots(pair, up + [pair(left, top)])
           && CompleteRoots(pair, c) == [left] + CompleteRoots(pair, up)
           && IsPowerOf2(|c| + 1) == IsPowerOf2(|up| + 1) by {
      CarryRight(pair, c, top);
    }
    TakeHead(left, CompleteRoots(pair, up), updated, unread);
  }

  lemma CarryDone<D>(pair: (D, D) -> D, all: seq<D>, top: D, partial: bool, updated: seq<D>, unread: seq<D>)
    requires Carrying(pair, all, [], top, partial, updated, unread)
    ensures updated + [top] == ActiveNodes(pair, all) && top == Root(pair, all)
  {
    assert [] + [top] == [top];
    assert CompleteRoots(pair, PairUp(pair, [top])) == [];
    assert updated + [] == updated;
  }

  lemma CarryStart<D>(pair: (D, D) -> D, leaves: seq<D>, digest: D)
    ensures Carrying(pair, leaves + [digest], leaves, digest, false, [], ActiveNodes(pair, leaves))
  {
    assert [] + CompleteRoots(pair, leaves + [digest]) == CompleteRoots(pair, leaves + [digest]);
  }

  /** One level of the walk: combine with the stored left sibling, or with an implied copy. */
  method CarryUp<D>(pair: (D, D) -> D, index: nat, top: D, partial: bool, updated: seq<D>, unread: seq<D>,
                    ghost all: seq<D>, ghost c: seq<D>)
    returns (top': D, partial': bool, updated': seq<D>, unread': seq<D>)
    requires index == |c| > 0
    requires Carrying(pair, all, c, top, partial, updated, unread)
    ensures Carrying(pair, all, PairUp(pair, c), top', partial', updated', unread')
  {
    if index % 2 == 0 {
      CarryStepLeft(pair, all, c, top, partial, updated, unread);
      updated' := if partial then updated else updated + [top];
      top', partial', unread' := pair(top, top), true, unread;
    } else {
      CarryStepRight(pair, all, c, top, partial, updated, unread);
      var left := unread[0];
      updated' := if partial then updated + [left] else updated;
      top', partial', unread' := pair(left, top), partial, unread[1..];
    }
  }

  /** The walk of one append from the new leaf up to the root, returning the new node list. */
  method Collapse<D>(pair: (D, D) -> D, activeNodes: seq<D>, nodeCount: nat, maxDepth: int, digest: D,
                     ghost leaves: seq<D>)
    returns (updated: seq<D>)
    requires nodeCount == |leaves| && maxDepth == MaxDepth(nodeCount + 1)
    requires activeNodes == ActiveNodes(pair, leaves)
    ensures updated == ActiveNodes(pair, leaves + [digest])
  {
    var partial := false;
    var depth := maxDepth - 1;
    var index := nodeCount;
    var top := digest;
    var unread := activeNodes;
    updated := [];
    ghost var c := leaves;
    CarryStart(pair, leaves, digest);
    HeightStep(|c|);
    while depth > 0
      invariant index == |c| && depth == Height(|c| + 1) && (depth == 0 <==> c == [])
      invariant Carrying(pair, leaves + [digest], c, top, partial, updated, unread)
    {
      HeightStep(|c|);
      HeightStep(|c| / 2);
      top, partial, updated, unread := CarryUp(pair, index, top, partial, updated, unread, leaves + [digest], c);
      c := PairUp(pair, c);
      depth := depth - 1;
      index := index / 2;
    }
    CarryDone(pair, leaves + [digest], top, partial, updated, unread);
    updated := updated + [top];
  }

  /** The append-only tree: a leaf count and the nodes needed by the next append. */
  class IncrementalMerkle<D> {
    const pair: (D, D) -> D
    const empty: D
    var nodeCount: nat
    var activeNodes: seq<D>
    ghost var leaves: seq<D>

    ghost predicate Valid()
      reads this
    {
      && nodeCount == |leaves|
      && activeNodes == ActiveNodes(pair, leaves)
    }

    constructor (pair: (D, D) -> D, empty: D)
      ensures Valid() && leaves == []
      ensures this.pair == pair && this.empty == empty
    {
      this.pair, this.empty := pair, empty;
      nodeCount, activeNodes, leaves := 0, [], [];
    }

    /** The stored root is the batch root of everything appended so far. */
    method GetRoot() returns (root: D)
      requires Valid()
      ensures root == if leaves == [] then empty else Root(pair, leaves)
    {
      if nodeCount > 0 {
        ActiveNodesLast(pair, leaves);
        root := activeNodes[|activeNodes| - 1];
      } else {
        root := empty;
      }
    }

    /** The count of nodes must fit the word that holds it. */
    method Append(digest: D) returns (root: D)
      requires Valid() && IsWord(|leaves| + 1)
      modifies this
      ensures Valid() && leaves == old(leaves) + [digest]
      ensures root == Root(pair, leaves)
    {
      var maxDepth := CalculateMaxDepth(nodeCount + 1);
      var updated := Collapse(pair, activeNodes, nodeCount, maxDepth, digest, leaves);
      ActiveNodesLast(pair, leaves + [digest]);
      activeNodes := updated;
      nodeCount := nodeCount + 1;
      leaves := leaves + [digest];
      root := activeNodes[|activeNodes| - 1];
    }
  }
}
