/** The buffer for incoming messages: a chain of blocks of one size that behaves as a queue of
    bytes. Blocks are added at the end when the writer needs room and dropped at the front when
    the reader has passed them. The implementation belongs to a library that is not part of the
    repository; the operations follow what its tests fix. */
module MessageBuffer {

  type Byte = n: nat | n < 0x100

  type Bytes = seq<Byte>

  datatype Index = Index(block: nat, offset: nat)

  // ----- the bytes of a chain -----

  ghost predicate Chain(blocks: seq<Bytes>, size: nat) {
    forall b :: b in blocks ==> |b| == size
  }

  ghost function Flat(blocks: seq<Bytes>): Bytes {
    if blocks == [] then [] else blocks[0] + Flat(blocks[1..])
  }

  ghost function Between(s: Bytes, i: nat, j: nat): Bytes {
    if i <= j <= |s| then s[i..j] else []
  }

  function Times(n: nat, size: nat): nat {
    n * size
  }

  lemma TimesOne(n: nat, size: nat)
    ensures Times(n + 1, size) == Times(n, size) + size && Times(0, size) == 0 && Times(1, size) == size
  {
  }

  lemma TimesRises(n: nat, m: nat, size: nat)
    requires n <= m
    ensures Times(n, size) <= Times(m, size) && Times(m - n, size) == Times(m, size) - Times(n, size)
  {
  }

  lemma {:induction false} FlatSize(blocks: seq<Bytes>, size: nat)
    requires Chain(blocks, size)
    ensures |Flat(blocks)| == Times(|blocks|, size)
  {
    hide Times;
    TimesOne(0, size);
    if blocks != [] {
      FlatSize(blocks[1..], size);
      TimesOne(|blocks| - 1, size);
    }
  }

  lemma {:induction false} FlatAppend(blocks: seq<Bytes>, more: seq<Bytes>)
    ensures Flat(blocks + more) == Flat(blocks) + Flat(more)
  {
    if blocks == [] {
      assert blocks + more == more;
    } else {
      FlatAppend(blocks[1..], more);
      assert (blocks + more)[1..] == blocks[1..] + more && (blocks + more)[0] == blocks[0];
      assert blocks[0] + (Flat(blocks[1..]) + Flat(more)) == blocks[0] + Flat(blocks[1..]) + Flat(more);
    }
  }

  lemma FlatOne(b: Bytes)
    ensures Flat([b]) == b
  {
    assert [b][1..] == [] && b + [] == b;
  }

  lemma Slices(a: Bytes, b: Bytes, c: Bytes, s: Bytes)
    requires s == a + b + c
    ensures s[..|a|] == a && s[|a|..|a| + |b|] == b && s[|a| + |b|..] == c
  {
  }

  lemma {:induction false} FlatThree(blocks: seq<Bytes>, k: nat)
    requires k < |blocks|
    ensures Flat(blocks) == Flat(blocks[..k]) + blocks[k] + Flat(blocks[k + 1..])
  {
    if k == 0 {
      assert blocks[..0] == [];
    } else {
      var rest := blocks[1..];
      FlatThree(rest, k - 1);
      assert rest[..k - 1] == blocks[..k][1..] && rest[k..] == blocks[k + 1..];
      assert blocks[..k][0] == blocks[0];
    }
  }

  /** One block in the middle of a chain. */
  lemma FlatAround(blocks: seq<Bytes>, size: nat, k: nat)
    requires Chain(blocks, size) && k < |blocks|
    ensures Times(k + 1, size) <= |Flat(blocks)| && Times(k, size) + size == Times(k + 1, size)
    ensures Flat(blocks)[..Times(k, size)] == Flat(blocks[..k]) && Flat(blocks)[Times(k + 1, size)..] == Flat(blocks[k + 1..])
    ensures Flat(blocks)[Times(k, size)..Times(k + 1, size)] == blocks[k]
  {
    hide Times, Flat;
    FlatThree(blocks, k);
    FlatSize(blocks[..k], size);
    TimesOne(k, size);
    Slices(Flat(blocks[..k]), blocks[k], Flat(blocks[k + 1..]), Flat(blocks));
  }

  // ----- the buffer -----

  class Buffer {
    const size: nat
    var blocks: seq<Bytes>
    var read: Index
    var write: Index

    function At(i: Index): nat {
      Times(i.block, size) + i.offset
    }

    ghost predicate Valid()
      reads this
    {
      && size > 0 && Chain(blocks, size) && read.block == 0 && read.offset < size
      && write.block < |blocks| && write.offset < size && At(read) <= At(write)
      && (At(read) == At(write) ==> read == Index(0, 0) == write)
    }

    /** The bytes written and not yet read. */
    ghost function Contents(): Bytes
      reads this
    {
      Between(Flat(blocks), At(read), At(write))
    }

    /** What the next `n` bytes after the write position hold. */
    ghost function Ahead(n: nat): Bytes
      reads this
    {
      Between(Flat(blocks), At(write), At(write) + n)
    }

    lemma Bounds()
      requires Valid()
      ensures |Flat(blocks)| == Times(|blocks|, size) && At(read) <= At(write) < Times(|blocks|, size)
    {
      hide Times;
      FlatSize(blocks, size);
      TimesOne(write.block, size);
      TimesRises(write.block + 1, |blocks|, size);
    }

    function TotalBytes(): nat
      reads this
    {
      Times(|blocks|, size)
    }

    function BytesToRead(): nat
      requires Valid()
      reads this
    {
      At(write) - At(read)
    }

    function BytesToWrite(): (n: nat)
      requires Valid()
      reads this
      ensures At(read) + BytesToRead() + n == TotalBytes()
    {
      Bounds();
      TotalBytes() - At(write)
    }

    constructor (size: nat)
      requires size > 0
      ensures Valid() && this.size == size && Contents() == [] && TotalBytes() == size
    {
      this.size := size;
      blocks := [seq(size, i => 0)];
      read, write := Index(0, 0), Index(0, 0);
      new;
      TimesOne(0, size);
    }

    /** Adds one block at the end. */
    method AddBlock()
      requires Valid()
      modifies this`blocks
      ensures Valid() && Contents() == old(Contents()) && TotalBytes() == old(TotalBytes()) + size
      ensures Flat(old(blocks)) <= Flat(blocks)
    {
      hide Times, Flat;
      Bounds();
      ghost var flat := Flat(blocks);
      var b := seq(size, i => 0);
      FlatAppend(blocks, [b]);
      FlatOne(b);
      TimesOne(|blocks|, size);
      assert Between(flat + b, At(read), At(write)) == Between(flat, At(read), At(write));
      blocks := blocks + [b];
    }

    /** Adds room for at least `n` more bytes. */
    method AddSpace(n: nat)
      requires Valid()
      modifies this`blocks
      ensures Valid() && Contents() == old(Contents())
      ensures n < TotalBytes() - old(TotalBytes()) <= n + size
      ensures BytesToWrite() - old(BytesToWrite()) == TotalBytes() - old(TotalBytes())
    {
      hide Times;
      var count := BlocksFor(n, size);
      TimesOne(0, size);
      for i := 0 to count
        invariant Valid() && Contents() == old(Contents())
        invariant TotalBytes() == old(TotalBytes()) + Times(i, size)
      {
        AddBlock();
        TimesOne(i, size);
      }
      EnoughBlocks(n, size);
    }

    /** Moves the write position on; the chain grows until the position lies in it. */
    method AdvanceWrite(n: nat)
      requires Valid()
      modifies this`blocks, this`write
      ensures Valid() && old(Contents()) <= Contents() && |Contents()| == |old(Contents())| + n
      ensures n <= old(BytesToWrite()) ==>
                Contents() == old(Contents()) + old(Ahead(n))
      ensures write == Advance(old(write), n, size)
      ensures |blocks| == if write.block < |old(blocks)| then |old(blocks)| else write.block + 1
    {
      hide Times, Flat, Advance, Between;
      Bounds();
      ghost var flat := Flat(blocks);
      AdvanceMoves(write, n, size);
      write := Advance(write, n, size);
      ghost var target := write;
      while write.block >= |blocks|
        invariant Chain(blocks, size) && flat <= Flat(blocks) && write == target
        invariant |old(blocks)| <= |blocks| && (|blocks| > |old(blocks)| ==> |blocks| <= target.block + 1)
      {
        var b := seq(size, i => 0);
        FlatAppend(blocks, [b]);
        blocks := blocks + [b];
      }
      FlatSize(blocks, size);
      TimesOne(write.block, size);
      TimesRises(write.block + 1, |blocks|, size);
      Grown(flat, Flat(blocks), At(read), old(At(write)), n);
    }

    /** Copies bytes to the write position, within its block, and moves the position on. */
    method Store(bytes: Bytes)
      requires Valid() && |bytes| <= size - write.offset
      modifies this`blocks, this`write
      ensures Valid() && Contents() == old(Contents()) + bytes
    {
      hide Times, Flat, Between;
      Bounds();
      var b, o := blocks[write.block], write.offset;
      var b' := b[..o] + bytes + b[o + |bytes|..];
      StoreEffect(blocks, size, write.block, o, bytes, At(read));
      TimesOne(write.block, size);
      TimesRises(write.block + 1, |blocks|, size);
      blocks := blocks[write.block := b'];
      Bounds();
      AdvanceWrite(|bytes|);
    }

    /** Writes any number of bytes, block by block. */
    method Append(bytes: Bytes)
      requires Valid()
      modifies this`blocks, this`write
      ensures Valid() && Contents() == old(Contents()) + bytes
    {
      hide Times, Flat, Between, Chain;
      var i := 0;
      assert bytes[..0] == [];
      while i < |bytes|
        invariant i <= |bytes| && Valid() && Contents() == old(Contents()) + bytes[..i]
      {
        var n := if |bytes| - i < size - write.offset then |bytes| - i else size - write.offset;
        Store(bytes[i..i + n]);
        assert bytes[..i] + bytes[i..i + n] == bytes[..i + n];
        i := i + n;
      }
      assert bytes[..|bytes|] == bytes;
    }

    /** Copies `n` bytes from a position between the read and the write position and moves that
        position on; nothing is copied when there are fewer. */
    method Peek(n: nat, index: Index) returns (ok: bool, data: Bytes, next: Index)
      requires Valid() && index.offset < size && At(read) <= At(index) <= At(write)
      ensures ok <==> At(index) + n <= At(write)
      ensures ok ==> data == Between(Flat(blocks), At(index), At(index) + n) && At(next) == At(index) + n && next.offset < size
      ensures !ok ==> data == [] && next == index
    {
      hide Times, Flat, Chain, Advance;
      Bounds();
      data, next := [], index;
      ok := At(index) + n <= At(write);
      if ok {
        var left := n;
        while left > 0
          invariant 0 <= left <= n && next.offset < size && At(next) + left == At(index) + n
          invariant data == Between(Flat(blocks), At(index), At(next))
        {
          InsideChain(next, |blocks|, size);
          var k := if left < size - next.offset then left else size - next.offset;
          ghost var flat := Flat(blocks);
          FlatAround(blocks, size, next.block);
          OneBlock(flat, Times(next.block, size), blocks[next.block], next.offset, k, At(index));
          AdvanceMoves(next, k, size);
          data := data + blocks[next.block][next.offset..next.offset + k];
          next := Advance(next, k, size);
          left := left - k;
        }
      }
    }

    /** Drops `n` unread bytes: blocks the reader has passed are given up, and an emptied buffer
        keeps one block and starts again at its beginning. */
    method AdvanceRead(n: nat)
      requires Valid() && n <= |Contents()|
      modifies this
      ensures Valid() && Contents() == old(Contents())[n..]
      ensures Contents() == [] ==> TotalBytes() == size && read == write == Index(0, 0)
      ensures Contents() != [] ==> |blocks| == |old(blocks)| - Advance(old(read), n, size).block && read.block == 0
    {
      hide Times, Flat, Advance, Between;
      Bounds();
      ghost var flat, w := Flat(blocks), At(write);
      Sized(flat, At(read), w);
      Shortened(flat, At(read), w, n);
      AdvanceMoves(read, n, size);
      read := Advance(read, n, size);
      SameIndex(read, write, size);
      TimesOne(0, size);
      Sized(flat, At(read), w);
      if read == write {
        NothingBetween(Flat(blocks[..1]), 0);
        read, write := Index(0, 0), Index(0, 0);
        blocks := blocks[..1];
      } else {
        BlockOrder(read, write, size);
        var k := read.block;
        Dropped(blocks, size, k, read, write);
        blocks := blocks[k..];
        write := Index(write.block - k, write.offset);
        read := Index(0, read.offset);
      }
    }

    /** Takes `n` bytes out of the buffer; an attempt to take more than there are changes nothing. */
    method Read(n: nat) returns (ok: bool, data: Bytes)
      requires Valid()
      modifies this
      ensures Valid() && (ok <==> n <= |old(Contents())|)
      ensures ok ==> data == old(Contents())[..n] && Contents() == old(Contents())[n..]
      ensures ok && Contents() == [] ==> TotalBytes() == size
      ensures !ok ==> data == [] && unchanged(this)
    {
      hide Times, Flat, Advance;
      Bounds();
      var next;
      ok, data, next := Peek(n, read);
      if ok {
        AdvanceRead(n);
      }
    }
  }

  lemma InsideChain(i: Index, n: nat, size: nat)
    requires Times(i.block, size) + i.offset < Times(n, size)
    ensures i.block < n
  {
    if i.block >= n {
      TimesRises(n, i.block, size);
    }
  }

  lemma OneBlock(flat: Bytes, start: nat, b: Bytes, o: nat, k: nat, from: nat)
    requires start + |b| <= |flat| && flat[start..start + |b|] == b && o + k <= |b| && from <= start + o
    ensures Between(flat, from, start + o) + b[o..o + k] == Between(flat, from, start + o + k)
  {
    var part := flat[start + o..start + o + k];
    assert part == b[o..o + k] by {
      forall i | 0 <= i < k ensures part[i] == b[o + i] {
        assert flat[start..start + |b|][o + i] == flat[start + o + i];
      }
    }
    assert flat[from..start + o] + part == flat[from..start + o + k];
  }

  lemma SameIndex(i: Index, j: Index, size: nat)
    requires i.offset < size && j.offset < size
    ensures Times(i.block, size) + i.offset == Times(j.block, size) + j.offset <==> i == j
  {
    if i.block < j.block {
      TimesOne(i.block, size);
      TimesRises(i.block + 1, j.block, size);
    } else if j.block < i.block {
      TimesOne(j.block, size);
      TimesRises(j.block + 1, i.block, size);
    }
  }

  lemma BlockOrder(i: Index, j: Index, size: nat)
    requires i.offset < size && j.offset < size && Times(i.block, size) + i.offset <= Times(j.block, size) + j.offset
    ensures i.block <= j.block
  {
    if j.block < i.block {
      TimesOne(j.block, size);
      TimesRises(j.block + 1, i.block, size);
    }
  }

  /** Dropping blocks before both positions changes nothing between them. */
  lemma Dropped(blocks: seq<Bytes>, size: nat, k: nat, r: Index, w: Index)
    requires Chain(blocks, size) && k == r.block <= w.block < |blocks| && r.offset < size && w.offset < size
    ensures Chain(blocks[k..], size)
    ensures Times(w.block - k, size) == Times(w.block, size) - Times(k, size)
    ensures Between(Flat(blocks[k..]), r.offset, Times(w.block - k, size) + w.offset) ==
              Between(Flat(blocks), Times(k, size) + r.offset, Times(w.block, size) + w.offset)
  {
    hide Times, Flat, Between;
    FlatSplit(blocks, k);
    FlatSize(blocks[..k], size);
    TimesRises(k, w.block, size);
    Shifted(Flat(blocks[..k]), Flat(blocks[k..]), r.offset, Times(w.block - k, size) + w.offset);
  }

  lemma FlatSplit(blocks: seq<Bytes>, k: nat)
    requires k <= |blocks|
    ensures Flat(blocks) == Flat(blocks[..k]) + Flat(blocks[k..])
  {
    hide Flat;
    FlatAppend(blocks[..k], blocks[k..]);
    assert blocks == blocks[..k] + blocks[k..];
  }

  lemma Sized(flat: Bytes, r: nat, w: nat)
    requires r <= w <= |flat|
    ensures |Between(flat, r, w)| == w - r
  {
  }

  lemma NothingBetween(flat: Bytes, i: nat)
    ensures Between(flat, i, i) == []
  {
  }

  lemma Shortened(flat: Bytes, r: nat, w: nat, n: nat)
    requires r + n <= w <= |flat|
    ensures Between(flat, r, w)[n..] == Between(flat, r + n, w) && |Between(flat, r, w)| == w - r
  {
  }

  lemma Shifted(a: Bytes, b: Bytes, i: nat, j: nat)
    ensures Between(a + b, |a| + i, |a| + j) == Between(b, i, j)
  {
    if i <= j <= |b| {
      assert (a + b)[|a| + i..|a| + j] == b[i..j];
    }
  }

  /** The position `n` bytes further on. */
  function Advance(i: Index, n: nat, size: nat): Index
    requires size > 0
  {
    Index(i.block + (i.offset + n) / size, (i.offset + n) % size)
  }

  lemma AdvanceMoves(i: Index, n: nat, size: nat)
    requires size > 0
    ensures var j := Advance(i, n, size);
            j.offset < size && Times(j.block, size) + j.offset == Times(i.block, size) + i.offset + n
    ensures n == 0 && i.offset < size ==> Advance(i, n, size) == i
  {
    var q := (i.offset + n) / size;
    assert (i.block + q) * size == i.block * size + q * size;
  }

  lemma Grown(flat: Bytes, flat': Bytes, r: nat, w: nat, n: nat)
    requires r <= w <= |flat| && flat <= flat' && w + n <= |flat'|
    ensures Between(flat, r, w) <= Between(flat', r, w + n) && |Between(flat', r, w + n)| == |Between(flat, r, w)| + n
    ensures w + n <= |flat| ==> Between(flat', r, w + n) == Between(flat, r, w) + Between(flat, w, w + n)
  {
    assert flat'[r..w + n][..w - r] == flat[r..w];
  }

  lemma {:induction false} FlatUpdate(blocks: seq<Bytes>, size: nat, k: nat, b: Bytes)
    requires Chain(blocks, size) && k < |blocks| && |b| == size
    ensures Chain(blocks[k := b], size) && Times(k, size) + size <= |Flat(blocks)|
    ensures Flat(blocks[k := b]) == Flat(blocks)[..Times(k, size)] + b + Flat(blocks)[Times(k, size) + size..]
  {
    hide Times, Flat;
    FlatAround(blocks, size, k);
    var blocks' := blocks[k := b];
    FlatThree(blocks', k);
    assert blocks'[..k] == blocks[..k] && blocks'[k + 1..] == blocks[k + 1..];
  }

  lemma StoreEffect(blocks: seq<Bytes>, size: nat, k: nat, o: nat, bytes: Bytes, r: nat)
    requires Chain(blocks, size) && k < |blocks| && o + |bytes| <= size && r <= Times(k, size) + o
    ensures var b := blocks[k];
            var blocks' := blocks[k := b[..o] + bytes + b[o + |bytes|..]];
            var w := Times(k, size) + o;
            && Chain(blocks', size) && |Flat(blocks')| == |Flat(blocks)|
            && Between(Flat(blocks'), r, w) == Between(Flat(blocks), r, w)
            && Between(Flat(blocks'), w, w + |bytes|) == bytes
  {
    hide Times, Flat, Between;
    var b := blocks[k];
    assert |b| == size;
    FlatAround(blocks, size, k);
    FlatUpdate(blocks, size, k, b[..o] + bytes + b[o + |bytes|..]);
    Overwritten(Flat(blocks), Times(k, size), b, bytes, o, r);
  }

  lemma Overwritten(flat: Bytes, start: nat, b: Bytes, bytes: Bytes, o: nat, r: nat)
    requires start + |b| <= |flat| && flat[start..start + |b|] == b && o + |bytes| <= |b| && r <= start + o
    ensures var flat' := flat[..start] + (b[..o] + bytes + b[o + |bytes|..]) + flat[start + |b|..];
            && |flat'| == |flat| && Between(flat', r, start + o) == Between(flat, r, start + o)
            && Between(flat', start + o, start + o + |bytes|) == bytes
  {
    var flat' := flat[..start] + (b[..o] + bytes + b[o + |bytes|..]) + flat[start + |b|..];
    assert flat'[..start + o] == flat[..start + o];
    assert flat'[start + o..start + o + |bytes|] == bytes;
    assert flat'[r..start + o] == flat'[..start + o][r..];
  }

  function BlocksFor(n: nat, size: nat): nat
    requires size > 0
  {
    n / size + 1
  }

  lemma EnoughBlocks(n: nat, size: nat)
    requires size > 0
    ensures n < Times(BlocksFor(n, size), size) <= n + size
  {
  }
}
