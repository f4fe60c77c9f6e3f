/** Building forks of an honest chain, each corrupted from another position on. The id of a block
    is a digest of its previous id and its body; a signature covers the block and the Merkle tree
    of all ids before it, which is represented by the list of these ids. */
module Forks {

  datatype Block<D, S> = Block(previous: D, body: int, signature: S)

  datatype Crypto<!D, !S> = Crypto(digest: (D, int) -> D, sign: (D, seq<D>) -> S, corrupt: int -> int)

  function Id<D, S>(c: Crypto<D, S>, b: Block<D, S>): D {
    (c.digest)(b.previous, b.body)
  }

  function Ids<D, S>(c: Crypto<D, S>, blocks: seq<Block<D, S>>): (r: seq<D>)
    ensures |r| == |blocks|
  {
    seq(|blocks|, i requires 0 <= i < |blocks| => Id(c, blocks[i]))
  }

  /** Each block names the id of the one before it. */
  ghost predicate Linked<D(!new), S(!new)>(c: Crypto<D, S>, blocks: seq<Block<D, S>>) {
    forall k :: 0 < k < |blocks| ==> blocks[k].previous == Id(c, blocks[k - 1])
  }

  /** The block at `k` is signed over all ids before it. */
  ghost predicate SignedAt<D(!new), S(!new)>(c: Crypto<D, S>, base: seq<D>, blocks: seq<Block<D, S>>, k: nat)
    requires k < |blocks|
  {
    blocks[k].signature == (c.sign)(Id(c, blocks[k]), base + Ids(c, blocks[..k]))
  }

  /** A fork that shares its first `j` blocks with the honest chain and then goes its own way. */
  ghost predicate IsFork<D(!new), S(!new)>(c: Crypto<D, S>, base: seq<D>, honest: seq<Block<D, S>>, f: seq<Block<D, S>>, j: nat) {
    && |f| <= |honest|
    && (forall k :: 0 <= k < j && k < |f| ==> f[k] == honest[k])
    && (j < |f| ==> f[j].body == (c.corrupt)(honest[j].body) && f[j].previous == honest[j].previous)
    && Linked(c, f)
    && (forall k :: j <= k < |f| ==> SignedAt(c, base, f, k))
  }

  datatype Tracker<D, S> = Tracker(blocks: seq<Block<D, S>>, merkle: seq<D>)

  /** The state of one fork after `i` blocks. */
  ghost predicate Tracks<D(!new), S(!new)>(c: Crypto<D, S>, base: seq<D>, honest: seq<Block<D, S>>, t: Tracker<D, S>, j: nat, i: nat) {
    && |t.blocks| == i && IsFork(c, base, honest, t.blocks, j)
    && (j < i ==> t.merkle == base + Ids(c, t.blocks))
  }

  /** Adds the next honest block to one fork, corrupted or linked to corrupted blocks as its
      position asks for. */
  method Extend<D(!new), S(!new)>(c: Crypto<D, S>, ghost base: seq<D>, honest: seq<Block<D, S>>, merkle: seq<D>, t: Tracker<D, S>,
                                  j: nat, i: nat)
    returns (t': Tracker<D, S>)
    requires i < |honest| && Linked(c, honest) && merkle == base + Ids(c, honest[..i]) && Tracks(c, base, honest, t, j, i)
    ensures Tracks(c, base, honest, t', j, i + 1)
  {
    hide SignedAt;
    var b := honest[i];
    if j <= i {
      var tree := t.merkle;
      if j == i {
        tree := merkle;
        b := b.(body := (c.corrupt)(b.body));
        assert t.blocks == honest[..i];
      } else {
        b := b.(previous := Id(c, t.blocks[i - 1]));
      }
      b := b.(signature := (c.sign)(Id(c, b), tree));
      t' := Tracker(t.blocks + [b], tree + [Id(c, b)]);
      ExtendSigned(c, base, t.blocks, b, tree, j);
      assert Ids(c, t'.blocks) == Ids(c, t.blocks) + [Id(c, b)];
    } else {
      t' := t.(blocks := t.blocks + [b]);
    }
  }

  lemma ExtendSigned<D(!new), S(!new)>(c: Crypto<D, S>, base: seq<D>, blocks: seq<Block<D, S>>, b: Block<D, S>, tree: seq<D>, j: nat)
    requires tree == base + Ids(c, blocks) && b.signature == (c.sign)(Id(c, b), tree)
    requires forall k :: j <= k < |blocks| ==> SignedAt(c, base, blocks, k)
    ensures forall k :: j <= k < |blocks| + 1 ==> SignedAt(c, base, blocks + [b], k)
  {
    var blocks' := blocks + [b];
    forall k | j <= k < |blocks'| ensures SignedAt(c, base, blocks', k) {
      if k < |blocks| {
        assert SignedAt(c, base, blocks, k);
        assert blocks'[..k] == blocks[..k];
      } else {
        assert blocks'[..k] == blocks;
      }
    }
  }

  /** As many forks as the honest chain has blocks; fork `j` is corrupted from block `j` on. */
  method Build<D(!new), S(!new)>(c: Crypto<D, S>, base: seq<D>, honest: seq<Block<D, S>>) returns (forks: seq<Tracker<D, S>>)
    requires Linked(c, honest)
    ensures |forks| == |honest|
    ensures forall j :: 0 <= j < |forks| ==> |forks[j].blocks| == |honest| && IsFork(c, base, honest, forks[j].blocks, j)
  {
    hide IsFork;
    var n := |honest|;
    forks := seq(n, j => Tracker([], []));
    forall j | 0 <= j < n ensures Tracks(c, base, honest, forks[j], j, 0) {
      NothingYet(c, base, honest, j);
    }
    for i := 0 to n
      invariant |forks| == n && forall j :: 0 <= j < n ==> Tracks(c, base, honest, forks[j], j, i)
    {
      var merkle := base + Ids(c, honest[..i]);
      for j := 0 to n
        invariant |forks| == n
        invariant forall k :: 0 <= k < j ==> Tracks(c, base, honest, forks[k], k, i + 1)
        invariant forall k :: j <= k < n ==> Tracks(c, base, honest, forks[k], k, i)
      {
        var t := Extend(c, base, honest, merkle, forks[j], j, i);
        forks := forks[j := t];
      }
    }
  }

  lemma NothingYet<D(!new), S(!new)>(c: Crypto<D, S>, base: seq<D>, honest: seq<Block<D, S>>, j: nat)
    ensures Tracks(c, base, honest, Tracker([], []), j, 0)
  {
  }

  /** With digests that do not collide a fork differs from the honest chain from its position on. */
  lemma {:induction false} ForkDiffers<D(!new), S(!new)>(c: Crypto<D, S>, base: seq<D>, honest: seq<Block<D, S>>, f: seq<Block<D, S>>,
                                                         j: nat, k: nat)
    requires forall p, x, q, y :: (c.digest)(p, x) == (c.digest)(q, y) ==> p == q && x == y
    requires forall x :: (c.corrupt)(x) != x
    requires Linked(c, honest) && IsFork(c, base, honest, f, j) && j <= k < |f|
    ensures f[k].previous != honest[k].previous || f[k].body != honest[k].body
    ensures Id(c, f[k]) != Id(c, honest[k])
  {
    if k > j {
      ForkDiffers(c, base, honest, f, j, k - 1);
    }
  }
}
