/**
  * Building corrupted forks of an honest run of blocks: fork j copies the honest blocks up to
  * block j, corrupts that one, and re-links and re-signs every later block to its own chain.
  */
module ForkBuilder {
  type Id = nat

  /** What a block id is computed from; the signature is not part of it. */
  datatype Block = Block(previous: Id, actionRoot: nat, payload: nat)

  /** A fork: its blocks, the ids its block Merkle tree holds, and what each block's signature covers. */
  datatype Fork = Fork(blocks: seq<Block>, merkle: seq<Id>, signedOver: seq<seq<Id>>)

  ghost predicate Injective(id: Block -> Id) {
    forall a, b :: id(a) == id(b) ==> a == b
  }

  /** Each block names the one before it. */
  predicate Linked(id: Block -> Id, blocks: seq<Block>) {
    forall p :: 0 < p < |blocks| ==> blocks[p].previous == id(blocks[p - 1])
  }

  /** Flips the lowest bit. */
  function Flip(x: nat): nat {
    if x % 2 == 0 then x + 1 else x - 1
  }

  function Corrupt(b: Block): Block {
    b.(actionRoot := Flip(b.actionRoot))
  }

  function Ids(id: Block -> Id, blocks: seq<Block>): (ids: seq<Id>)
    ensures |ids| == |blocks|
  {
    seq(|blocks|, p requires 0 <= p < |blocks| => id(blocks[p]))
  }

  /** The first i blocks of fork j. */
  function ForkBlocks(id: Block -> Id, honest: seq<Block>, j: nat, i: nat): (blocks: seq<Block>)
    requires i <= |honest|
    ensures |blocks| == i
    decreases i
  {
    if i == 0 then []
    else
      var before := ForkBlocks(id, honest, j, i - 1);
      var b := honest[i - 1];
      before + [if i - 1 < j then b
                else if i - 1 == j then Corrupt(b)
                else b.(previous := id(before[i - 2]))]
  }

  lemma {:induction false} ForkPrefix(id: Block -> Id, honest: seq<Block>, j: nat, p: nat, i: nat)
    requires p <= i <= |honest|
    ensures ForkBlocks(id, honest, j, i)[..p] == ForkBlocks(id, honest, j, p)
    decreases i
  {
    var blocks := ForkBlocks(id, honest, j, i);
    if p < i {
      ForkPrefix(id, honest, j, p, i - 1);
      assert blocks[..p] == blocks[..i - 1][..p];
    }
  }

  /** Block p of fork j. */
  function BlockOf(id: Block -> Id, honest: seq<Block>, j: nat, p: nat): Block
    requires p < |honest|
  {
    ForkBlocks(id, honest, j, p + 1)[p]
  }

  lemma BlockOfIs(id: Block -> Id, honest: seq<Block>, j: nat, p: nat, i: nat)
    requires p < i <= |honest|
    ensures ForkBlocks(id, honest, j, i)[p] == BlockOf(id, honest, j, p)
  {
    ForkPrefix(id, honest, j, p + 1, i);
  }

  lemma BlockOfCases(id: Block -> Id, honest: seq<Block>, j: nat, p: nat)
    requires p < |honest|
    ensures p < j ==> BlockOf(id, honest, j, p) == honest[p]
    ensures p == j ==> BlockOf(id, honest, j, p) == Corrupt(honest[p])
    ensures p > j ==> BlockOf(id, honest, j, p) == honest[p].(previous := id(BlockOf(id, honest, j, p - 1)))
  {
  }

  // ------------------------------------------------------------- what is shared

  /** Fork j agrees with the honest chain on its first j blocks and nowhere after. */
  lemma {:induction false} SharesExactly(id: Block -> Id, honest: seq<Block>, j: nat, p: nat)
    requires Injective(id) && Linked(id, honest) && p < |honest|
    ensures BlockOf(id, honest, j, p) == honest[p] <==> p < j
    decreases p
  {
    BlockOfCases(id, honest, j, p);
    if p > j {
      SharesExactly(id, honest, j, p - 1);
    }
  }

  /** Two forks agree on exactly the blocks before both corruptions. */
  lemma {:induction false} ForksShareExactly(id: Block -> Id, honest: seq<Block>, j: nat, k: nat, p: nat)
    requires Injective(id) && Linked(id, honest) && p < |honest| && j != k
    ensures BlockOf(id, honest, j, p) == BlockOf(id, honest, k, p) <==> p < j && p < k
    decreases p
  {
    BlockOfCases(id, honest, j, p);
    BlockOfCases(id, honest, k, p);
    if p > j && p > k {
      ForksShareExactly(id, honest, j, k, p - 1);
    } else if p > j {
      SharesExactly(id, honest, j, p - 1);
      SharesExactly(id, honest, j, p);
    } else if p > k {
      SharesExactly(id, honest, k, p - 1);
      SharesExactly(id, honest, k, p);
    }
  }

  lemma ForkLinked(id: Block -> Id, honest: seq<Block>, j: nat)
    requires Linked(id, honest)
    ensures Linked(id, ForkBlocks(id, honest, j, |honest|))
  {
    var blocks := ForkBlocks(id, honest, j, |honest|);
    forall p | 0 < p < |honest|
      ensures blocks[p].previous == id(blocks[p - 1])
    {
      BlockOfIs(id, honest, j, p, |honest|);
      BlockOfIs(id, honest, j, p - 1, |honest|);
      BlockOfCases(id, honest, j, p);
      BlockOfCases(id, honest, j, p - 1);
    }
  }

  // ---------------------------------------------------------------- the builder

  /** The ids of everything before block p of a chain that starts after `base`. */
  function Before(id: Block -> Id, base: seq<Id>, blocks: seq<Block>, p: nat): seq<Id>
    requires p <= |blocks|
  {
    base + Ids(id, blocks[..p])
  }

  /** What the builder has made of fork j after i honest blocks. */
  ghost predicate Built(id: Block -> Id, base: seq<Id>, honest: seq<Block>, fork: Fork, j: nat, i: nat)
    requires i <= |honest|
  {
    && fork.blocks == ForkBlocks(id, honest, j, i)
    && |fork.signedOver| == i
    && (forall p :: 0 <= p < i ==> fork.signedOver[p] == Before(id, base, fork.blocks, p))
    && (i > j ==> fork.merkle == Before(id, base, fork.blocks, i))
  }

  /** One honest block handed to fork j. */
  method Extend(id: Block -> Id, base: seq<Id>, honest: seq<Block>, fork: Fork, j: nat, i: nat) returns (r: Fork)
    requires i < |honest| && Built(id, base, honest, fork, j, i)
    ensures Built(id, base, honest, r, j, i + 1)
  {
    var b := honest[i];
    r := fork;
    if j <= i {
      var copy := b;
      if j == i {
        r := r.(merkle := Before(id, base, honest, i));
        copy := Corrupt(copy);
      } else {
        copy := copy.(previous := id(r.blocks[|r.blocks| - 1]));
      }
      r := r.(signedOver := r.signedOver + [r.merkle]);
      r := r.(merkle := r.merkle + [id(copy)], blocks := r.blocks + [copy]);
    } else {
      r := r.(blocks := r.blocks + [b], signedOver := r.signedOver + [Before(id, base, honest, i)]);
    }
    ExtendBuilt(id, base, honest, fork, r, j, i);
  }

  lemma {:induction false} HonestPrefix(id: Block -> Id, honest: seq<Block>, j: nat, i: nat)
    requires i <= j && i <= |honest|
    ensures ForkBlocks(id, honest, j, i) == honest[..i]
    decreases i
  {
    if i > 0 {
      HonestPrefix(id, honest, j, i - 1);
    }
  }

  lemma ExtendBuilt(id: Block -> Id, base: seq<Id>, honest: seq<Block>, fork: Fork, r: Fork, j: nat, i: nat)
    requires i < |honest| && Built(id, base, honest, fork, j, i)
    requires r.blocks == ForkBlocks(id, honest, j, i + 1)
    requires r.signedOver == fork.signedOver + [if i > j then fork.merkle else Before(id, base, honest, i)]
    requires i >= j ==> r.merkle == (if i > j then fork.merkle else Before(id, base, honest, i)) + [id(r.blocks[i])]
    ensures Built(id, base, honest, r, j, i + 1)
  {
    assert r.blocks[..i] == fork.blocks;
    if i <= j {
      HonestPrefix(id, honest, j, i);
      assert honest[..i][..i] == honest[..i];
    }
    forall p | 0 <= p <= i
      ensures r.signedOver[p] == Before(id, base, r.blocks, p)
    {
      assert r.blocks[..p] == fork.blocks[..p];
    }
    assert r.blocks[..i + 1] == r.blocks[..i] + [r.blocks[i]];
    assert Ids(id, r.blocks[..i + 1]) == Ids(id, r.blocks[..i]) + [id(r.blocks[i])];
  }

  /** The builder's two loops: every honest block, as it is produced, goes into every fork. */
  method BuildForks(id: Block -> Id, base: seq<Id>, honest: seq<Block>, count: nat) returns (forks: seq<Fork>)
    ensures |forks| == count
    ensures forall j :: 0 <= j < count ==> Built(id, base, honest, forks[j], j, |honest|)
  {
    forks := seq(count, _ => Fork([], [], []));
    for i := 0 to |honest|
      invariant |forks| == count
      invariant forall j :: 0 <= j < count ==> Built(id, base, honest, forks[j], j, i)
    {
      for j := 0 to count
        invariant |forks| == count
        invariant forall k :: 0 <= k < j ==> Built(id, base, honest, forks[k], k, i + 1)
        invariant forall k :: j <= k < count ==> Built(id, base, honest, forks[k], k, i)
      {
        var fork := Extend(id, base, honest, forks[j], j, i);
        forks := forks[j := fork];
      }
    }
  }
}
