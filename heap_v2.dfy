/**
 * The first-fit allocator with explicit coalescing, over a 128-byte static
 * heap. Every block starts with a three-byte header (size, is_free, next,
 * each a `uint8_t`); `next` is the offset of the following header, 0 at the
 * end of the chain. `my_malloc` is first fit along the chain and splits a
 * block when more than a header's worth is left over; `my_free` only marks
 * a block free; `coalesce_memory` walks the chain once and merges every run
 * of free neighbours into its first block.
 *
 * The heap array is modelled by the headers written into it, by offset: no
 * payload byte is ever read or written, and a header never written reads as
 * the zero bytes of static storage.
 */
module HeapV2 {
  import opened Wrappers
  import opened HeapBlocks

  const HeapSize := 128
  /** `sizeof(BlockHeader)`: three `uint8_t` fields. */
  const HeaderSize := 3
  /** `free_list`: the chain always starts at the first byte. */
  const FreeList: u8 := 0

  datatype Header = Header(size: u8, isFree: bool, next: u8)

  /** What an unwritten header reads as. */
  const Zeroed := Header(0, false, 0)

  function HeaderAt(m: map<int, Header>, off: int): Header {
    if off in m then m[off] else Zeroed
  }

  function View(off: int, h: Header): Block {
    Block(off, h.size as int, h.isFree, 0)
  }

  /**
   * The blocks met by following `next` from the header at `off`, or None
   * unless they lie end to end up to the end of the heap, each `next`
   * pointing just past its block's payload and the last one being 0.
   */
  function Chain(m: map<int, Header>, off: nat): Option<seq<Block>>
    decreases HeapSize - off
  {
    if off >= HeapSize then None
    else
      var h := HeaderAt(m, off);
      var e := off + HeaderSize + h.size as int;
      if h.next == 0 then
        if e == HeapSize then Some([View(off, h)]) else None
      else if h.next as int == e && e < HeapSize then
        match Chain(m, e)
        case None => None
        case Some(rest) => Some([View(off, h)] + rest)
      else None
  }

  /** The `next` field that block `i` of a chain must hold. */
  function Next(bs: seq<Block>, i: nat): int
    requires i < |bs|
  {
    if i + 1 < |bs| then bs[i + 1].offset else 0
  }

  predicate Describes(h: Header, bs: seq<Block>, i: nat)
    requires i < |bs|
  {
    h.size as int == bs[i].size && h.isFree == bs[i].free && h.next as int == Next(bs, i) && bs[i].refs == 0
  }

  /** The header at each block's offset describes that block. */
  predicate Agrees(m: map<int, Header>, bs: seq<Block>) {
    forall i :: 0 <= i < |bs| ==> Describes(HeaderAt(m, bs[i].offset), bs, i)
  }

  lemma AgreesTail(m: map<int, Header>, bs: seq<Block>)
    requires Agrees(m, bs) && |bs| > 0
    ensures Agrees(m, bs[1..])
  {
    var t := bs[1..];
    forall i | 0 <= i < |t|
      ensures Describes(HeaderAt(m, t[i].offset), t, i)
    {
      assert t[i] == bs[i + 1];
      assert Describes(HeaderAt(m, bs[i + 1].offset), bs, i + 1);
    }
  }

  /** A chain read from the headers tiles the heap from `off`, and its headers describe its blocks. */
  lemma {:induction false} ChainSound(m: map<int, Header>, off: nat, bs: seq<Block>)
    requires Chain(m, off) == Some(bs)
    ensures Tiles(bs, off, HeaderSize, HeapSize) && Agrees(m, bs)
    decreases HeapSize - off
  {
    var h := HeaderAt(m, off);
    var e := off + HeaderSize + h.size as int;
    if h.next != 0 {
      var rest := Chain(m, e).value;
      ChainSound(m, e, rest);
      TilesCons(View(off, h), rest, HeaderSize, HeapSize);
      assert bs == [View(off, h)] + rest;
      forall i | 0 <= i < |bs|
        ensures Describes(HeaderAt(m, bs[i].offset), bs, i)
      {
        if i > 0 {
          assert bs[i] == rest[i - 1];
          assert Describes(HeaderAt(m, rest[i - 1].offset), rest, i - 1);
        }
      }
    }
  }

  /** The last header of a chain: `next` is 0 and the payload runs to the end of the heap. */
  lemma ChainLast(m: map<int, Header>, off: nat)
    requires off < HeapSize && HeaderAt(m, off).next == 0
    requires off + HeaderSize + HeaderAt(m, off).size as int == HeapSize
    ensures Chain(m, off) == Some([View(off, HeaderAt(m, off))])
  {
  }

  /** A header whose `next` points just past its payload, at a chain, heads a chain one block longer. */
  lemma ChainLink(m: map<int, Header>, off: nat, rest: seq<Block>)
    requires off < HeapSize && HeaderAt(m, off).next != 0
    requires HeaderAt(m, off).next as int == off + HeaderSize + HeaderAt(m, off).size as int
    requires Chain(m, HeaderAt(m, off).next as nat) == Some(rest)
    ensures Chain(m, off) == Some([View(off, HeaderAt(m, off))] + rest)
  {
  }

  /** Conversely, headers that describe a tiling are read back as that tiling. */
  lemma {:induction false} ChainComplete(m: map<int, Header>, off: nat, bs: seq<Block>)
    requires Tiles(bs, off, HeaderSize, HeapSize) && Agrees(m, bs)
    ensures Chain(m, off) == Some(bs)
    decreases |bs|
  {
    var h := HeaderAt(m, off);
    assert Describes(h, bs, 0);
    assert View(off, h) == bs[0];
    if |bs| == 1 {
      ChainLast(m, off);
      assert bs == [bs[0]];
    } else {
      TilesTail(bs, off, HeaderSize, HeapSize);
      AgreesTail(m, bs);
      ChainComplete(m, bs[1].offset, bs[1..]);
      ChainLink(m, off, bs[1..]);
      assert bs == [bs[0]] + bs[1..];
    }
  }

  // The allocator's operations on the block list.

  /**
   * `my_malloc(size)`: the first free block with at least `size` bytes is
   * carved and handed out, and the pointer is its payload; NULL, with
   * nothing changed, when there is none.
   */
  function Allocate(bs: seq<Block>, req: nat): (r: (seq<Block>, Ptr))
    ensures r.1 == Null <==> forall j :: 0 <= j < |bs| ==> !Fits(bs[j], req)
    ensures r.1 == Null ==> r.0 == bs
  {
    match FirstFit(bs, req)
    case None => (bs, Null)
    case Some(i) => (Carve(bs, i, req, HeaderSize, 0), Addr(bs[i].offset + HeaderSize))
  }

  /** Allocation carves the first block that fits and hands out the address just past its header. */
  lemma AllocateFirstFit(bs: seq<Block>, req: nat, i: nat)
    requires FirstFit(bs, req) == Some(i)
    ensures Allocate(bs, req) == (Carve(bs, i, req, HeaderSize, 0), Addr(bs[i].offset + HeaderSize))
  {
  }

  /** Block `i` marked free. */
  function Freed(bs: seq<Block>, i: nat): seq<Block>
    requires i < |bs|
  {
    bs[i := bs[i].(free := true)]
  }

  /** `my_free(ptr)`: the block is marked free, whatever it was; nothing is merged. */
  function Release(bs: seq<Block>, p: Ptr): (r: seq<Block>)
    requires Payload(bs, HeaderSize, p)
    ensures |r| == |bs|
    ensures forall j :: 0 <= j < |bs| ==> r[j].offset == bs[j].offset && r[j].size == bs[j].size && r[j].refs == bs[j].refs
    ensures p.Addr? ==> r[BlockOf(bs, HeaderSize, p.index)].free
  {
    if p.Null? then bs else Freed(bs, BlockOf(bs, HeaderSize, p.index))
  }

  /**
   * The loop of `coalesce_memory` from block `i`: at the last block it
   * stops; a free block followed by a free block swallows it and is looked
   * at again; otherwise it moves on to the next block.
   */
  function CoalesceFrom(bs: seq<Block>, i: nat): (r: seq<Block>)
    requires i < |bs|
    ensures 0 < |r| <= |bs|
    decreases |bs|, |bs| - i
  {
    if i + 1 == |bs| then bs
    else if bs[i].free && bs[i + 1].free then CoalesceFrom(Absorb(bs, i, HeaderSize), i)
    else CoalesceFrom(bs, i + 1)
  }

  /** `coalesce_memory()`: the walk starts at the first block; a heap with no block is left alone. */
  function Coalesce(bs: seq<Block>): (r: seq<Block>)
    ensures |r| <= |bs| && (|bs| > 0 ==> |r| > 0)
  {
    if |bs| == 0 then bs else CoalesceFrom(bs, 0)
  }

  /** Freeing a block carved off the front of block `i` and coalescing merges the two halves back into block `i`. */
  lemma SplitUndone(bs: seq<Block>, i: nat, req: nat)
    requires NoFreeNeighbours(bs) && i < |bs| && Fits(bs[i], req) && bs[i].refs == 0
    requires bs[i].size - req > HeaderSize
    ensures Coalesce(Freed(Carve(bs, i, req, HeaderSize, 0), i)) == bs
  {
    var r := Carve(bs, i, req, HeaderSize, 0);
    CarveShape(bs, i, req, HeaderSize, 0);
    var f := Freed(r, i);
    forall l | 0 <= l < i
      ensures !(f[l].free && f[l + 1].free)
    {
      assert f[l] == bs[l];
      if l + 1 < i {
        assert f[l + 1] == bs[l + 1];
      } else {
        assert bs[l + 1].free;
      }
    }
    CoalesceFromSkip(f, 0, i);
    var a := Absorb(f, i, HeaderSize);
    assert CoalesceFrom(f, i) == CoalesceFrom(a, i);
    AbsorbShape(f, i, HeaderSize);
    assert a == bs by {
      forall k | 0 <= k < |bs|
        ensures a[k] == bs[k]
      {
        if k > i {
          assert a[k] == f[k + 1] == r[k + 1];
        }
      }
    }
    CoalesceFromSettled(bs, i);
  }

  /** Freeing a block handed out whole gives back the heap it was taken from. */
  lemma TakeUndone(bs: seq<Block>, i: nat, req: nat)
    requires i < |bs| && Fits(bs[i], req) && bs[i].refs == 0
    requires bs[i].size - req <= HeaderSize
    ensures Freed(Carve(bs, i, req, HeaderSize, 0), i) == bs
  {
    var f := Freed(Carve(bs, i, req, HeaderSize, 0), i);
    CarveShape(bs, i, req, HeaderSize, 0);
    forall k | 0 <= k < |bs|
      ensures f[k] == bs[k]
    {
    }
  }

  /**
   * Allocating and then freeing what was handed out, followed by
   * `coalesce_memory`, gives back the heap as it was, when it had no two
   * free neighbours to begin with: a split block is merged back together.
   */
  lemma AllocateReleaseCoalesce(bs: seq<Block>, req: nat)
    requires Tiles(bs, 0, HeaderSize, HeapSize) && NoFreeNeighbours(bs)
    requires forall j :: 0 <= j < |bs| ==> bs[j].refs == 0
    ensures var (r, p) := Allocate(bs, req);
      Payload(r, HeaderSize, p) && Coalesce(Release(r, p)) == bs
  {
    match FirstFit(bs, req)
    case None =>
      CoalesceFromSettled(bs, 0);
    case Some(i) =>
      var r := Carve(bs, i, req, HeaderSize, 0);
      CarveTiles(bs, 0, HeaderSize, HeapSize, i, req, 0);
      BlockOfTiling(r, i);
      CarveShape(bs, i, req, HeaderSize, 0);
      assert Release(r, Addr(bs[i].offset + HeaderSize)) == Freed(r, i);
      if bs[i].size - req > HeaderSize {
        SplitUndone(bs, i, req);
      } else {
        TakeUndone(bs, i, req);
        CoalesceFromSettled(bs, 0);
      }
  }

  /** The block at payload address `p` of a tiling is the one whose header sits just before it. */
  lemma BlockOfTiling(bs: seq<Block>, k: nat)
    requires Tiles(bs, 0, HeaderSize, HeapSize) && k < |bs|
    ensures Payload(bs, HeaderSize, Addr(bs[k].offset + HeaderSize))
    ensures BlockOf(bs, HeaderSize, bs[k].offset + HeaderSize) == k
  {
    TilesOrdered(bs, 0, HeaderSize, HeapSize);
    var j := BlockOf(bs, HeaderSize, bs[k].offset + HeaderSize);
    assert !(j < k) && !(k < j);
  }

  /** Allocation keeps the chain covering the heap. */
  lemma AllocateTiles(bs: seq<Block>, req: nat)
    requires Tiles(bs, 0, HeaderSize, HeapSize)
    ensures Tiles(Allocate(bs, req).0, 0, HeaderSize, HeapSize)
  {
    if FirstFit(bs, req).Some? {
      CarveTiles(bs, 0, HeaderSize, HeapSize, FirstFit(bs, req).value, req, 0);
    }
  }

  /**
   * A pointer handed out addresses an allocated block of at least the
   * requested size, and no block earlier in the heap could have served the
   * request.
   */
  lemma AllocateGrants(bs: seq<Block>, req: nat)
    requires Tiles(bs, 0, HeaderSize, HeapSize)
    ensures var (r, p) := Allocate(bs, req);
      p.Addr? ==>
        && Payload(r, HeaderSize, p)
        && var k := BlockOf(r, HeaderSize, p.index);
        && !r[k].free && r[k].size >= req
        && (forall j :: 0 <= j < |bs| && bs[j].offset < r[k].offset ==> !Fits(bs[j], req))
  {
    if FirstFit(bs, req).Some? {
      var i := FirstFit(bs, req).value;
      var r := Carve(bs, i, req, HeaderSize, 0);
      CarveTiles(bs, 0, HeaderSize, HeapSize, i, req, 0);
      CarveShape(bs, i, req, HeaderSize, 0);
      BlockOfTiling(r, i);
      TilesOrdered(bs, 0, HeaderSize, HeapSize);
      forall j | 0 <= j < |bs| && bs[j].offset < r[i].offset
        ensures !Fits(bs[j], req)
      {
        assert j < i;
      }
    }
  }

  /** Freeing keeps the chain covering the heap, and frees the block the pointer addresses. */
  lemma ReleaseFrees(bs: seq<Block>, p: Ptr)
    requires Tiles(bs, 0, HeaderSize, HeapSize) && Payload(bs, HeaderSize, p)
    ensures Tiles(Release(bs, p), 0, HeaderSize, HeapSize)
    ensures p.Addr? ==> var k := BlockOf(bs, HeaderSize, p.index);
      Release(bs, p)[k].free && |Release(bs, p)| == |bs|
      && forall j :: 0 <= j < |bs| && j != k ==> Release(bs, p)[j] == bs[j]
  {
    if p.Addr? {
      var i := BlockOf(bs, HeaderSize, p.index);
      RelabelTiles(bs, 0, HeaderSize, HeapSize, i, bs[i].(free := true));
    }
  }

  // Coalescing.

  /** No two neighbours among the first `n + 1` blocks are both free. */
  predicate MergedBefore(bs: seq<Block>, n: nat) {
    forall k :: 0 <= k < n && k + 1 < |bs| ==> !(bs[k].free && bs[k + 1].free)
  }

  /** Coalescing keeps the chain covering the heap. */
  lemma {:induction false} CoalesceFromTiles(bs: seq<Block>, i: nat)
    requires Tiles(bs, 0, HeaderSize, HeapSize) && i < |bs|
    ensures Tiles(CoalesceFrom(bs, i), 0, HeaderSize, HeapSize)
    decreases |bs|, |bs| - i
  {
    if i + 1 < |bs| {
      if bs[i].free && bs[i + 1].free {
        AbsorbTiles(bs, 0, HeaderSize, HeapSize, i);
        CoalesceFromTiles(Absorb(bs, i, HeaderSize), i);
      } else {
        CoalesceFromTiles(bs, i + 1);
      }
    }
  }

  /** Coalescing leaves the allocated blocks, in order, as they were. */
  lemma {:induction false} CoalesceFromKeepsAllocated(bs: seq<Block>, i: nat)
    requires i < |bs|
    ensures Allocated(CoalesceFrom(bs, i)) == Allocated(bs)
    decreases |bs|, |bs| - i
  {
    if i + 1 < |bs| {
      if bs[i].free && bs[i + 1].free {
        AbsorbKeepsAllocated(bs, i, HeaderSize);
        CoalesceFromKeepsAllocated(Absorb(bs, i, HeaderSize), i);
      } else {
        CoalesceFromKeepsAllocated(bs, i + 1);
      }
    }
  }

  /** Once the walk has passed block `i` with no free pair behind it, none is left when it ends. */
  lemma {:induction false} CoalesceFromMerges(bs: seq<Block>, i: nat)
    requires i < |bs| && MergedBefore(bs, i)
    ensures NoFreeNeighbours(CoalesceFrom(bs, i))
    decreases |bs|, |bs| - i
  {
    if i + 1 < |bs| {
      if bs[i].free && bs[i + 1].free {
        var r := Absorb(bs, i, HeaderSize);
        AbsorbShape(bs, i, HeaderSize);
        assert MergedBefore(r, i) by {
          forall k | 0 <= k < i && k + 1 < |r|
            ensures !(r[k].free && r[k + 1].free)
          {
            if k + 1 < i {
              assert r[k] == bs[k] && r[k + 1] == bs[k + 1];
            } else {
              assert r[k] == bs[k] && r[k + 1].free == bs[k + 1].free;
            }
          }
        }
        CoalesceFromMerges(r, i);
      } else {
        CoalesceFromMerges(bs, i + 1);
      }
    }
  }

  /** From block `i` on no two neighbours are free: the walk changes nothing. */
  lemma {:induction false} CoalesceFromSettled(bs: seq<Block>, i: nat)
    requires i < |bs|
    requires forall k :: i <= k < |bs| - 1 ==> !(bs[k].free && bs[k + 1].free)
    ensures CoalesceFrom(bs, i) == bs
    decreases |bs| - i
  {
    if i + 1 < |bs| {
      CoalesceFromSettled(bs, i + 1);
    }
  }

  /** Where the walk passes no free pair between block `k` and block `j`, starting at `k` is starting at `j`. */
  lemma {:induction false} CoalesceFromSkip(bs: seq<Block>, k: nat, j: nat)
    requires k <= j < |bs|
    requires forall l :: k <= l < j ==> !(bs[l].free && bs[l + 1].free)
    ensures CoalesceFrom(bs, k) == CoalesceFrom(bs, j)
    decreases j - k
  {
    if k < j {
      CoalesceFromSkip(bs, k + 1, j);
    }
  }

  /** After coalescing no two neighbours are free, the heap is still covered, and no allocated block has moved or changed. */
  lemma CoalesceMerges(bs: seq<Block>)
    requires Tiles(bs, 0, HeaderSize, HeapSize)
    ensures var r := Coalesce(bs);
      Tiles(r, 0, HeaderSize, HeapSize) && NoFreeNeighbours(r) && Allocated(r) == Allocated(bs)
  {
    CoalesceFromTiles(bs, 0);
    CoalesceFromMerges(bs, 0);
    CoalesceFromKeepsAllocated(bs, 0);
  }

  /** A heap with no two free neighbours is left alone, so coalescing twice is coalescing once. */
  lemma CoalesceIdempotent(bs: seq<Block>)
    requires Tiles(bs, 0, HeaderSize, HeapSize)
    ensures NoFreeNeighbours(bs) ==> Coalesce(bs) == bs
    ensures Coalesce(Coalesce(bs)) == Coalesce(bs)
  {
    if NoFreeNeighbours(bs) {
      CoalesceFromSettled(bs, 0);
    }
    CoalesceMerges(bs);
    CoalesceFromSettled(Coalesce(bs), 0);
  }

  // From header writes to the block list.

  /** Offsets strictly increase along the list, so no two blocks share a header. */
  predicate Increasing(bs: seq<Block>) {
    forall j, k :: 0 <= j < k < |bs| ==> bs[j].offset < bs[k].offset
  }

  /** A block kept from the old list, with the same successor, is still described by its unchanged header. */
  lemma Keeps(m: map<int, Header>, m': map<int, Header>, bs: seq<Block>, j: nat, r: seq<Block>, k: nat)
    requires j < |bs| && k < |r| && Describes(HeaderAt(m, bs[j].offset), bs, j)
    requires r[k] == bs[j] && Next(r, k) == Next(bs, j)
    requires HeaderAt(m', r[k].offset) == HeaderAt(m, bs[j].offset)
    ensures Describes(HeaderAt(m', r[k].offset), r, k)
  {
  }

  lemma RelabelAgrees(m: map<int, Header>, m': map<int, Header>, bs: seq<Block>, i: nat, b: Block)
    requires Agrees(m, bs) && Increasing(bs) && i < |bs|
    requires b.offset == bs[i].offset
    requires Describes(HeaderAt(m', b.offset), bs[i := b], i)
    requires forall o :: o != b.offset ==> HeaderAt(m', o) == HeaderAt(m, o)
    ensures Agrees(m', bs[i := b])
  {
    var r := bs[i := b];
    forall k | 0 <= k < |r| && k != i
      ensures Describes(HeaderAt(m', r[k].offset), r, k)
    {
      assert bs[k].offset != b.offset;
      Keeps(m, m', bs, k, r, k);
    }
  }

  /** Writing the header of block `i` with new flags or count relabels that block. */
  lemma RelabelChain(m: map<int, Header>, m': map<int, Header>, bs: seq<Block>, i: nat, b: Block)
    requires Chain(m, 0) == Some(bs) && i < |bs|
    requires b.offset == bs[i].offset && b.size == bs[i].size
    requires Describes(HeaderAt(m', b.offset), bs[i := b], i)
    requires forall o :: o != b.offset ==> HeaderAt(m', o) == HeaderAt(m, o)
    ensures Chain(m', 0) == Some(bs[i := b])
  {
    ChainSound(m, 0, bs);
    TilesOrdered(bs, 0, HeaderSize, HeapSize);
    RelabelTiles(bs, 0, HeaderSize, HeapSize, i, b);
    RelabelAgrees(m, m', bs, i, b);
    ChainComplete(m', 0, bs[i := b]);
  }

  /** The headers a carve writes: the carved block's, and that of the block cut from it, if any. */
  ghost predicate CarveWrites(m: map<int, Header>, m': map<int, Header>, bs: seq<Block>, i: nat, req: int)
    requires i < |bs|
  {
    forall o :: o != bs[i].offset && (bs[i].size - req <= HeaderSize || o != bs[i].offset + HeaderSize + req) ==>
      HeaderAt(m', o) == HeaderAt(m, o)
  }

  /** Carving keeps every other block, and its successor, only shifting the ones after it. */
  lemma CarveMoves(bs: seq<Block>, i: nat, req: int, refs: int, k: nat)
    requires i < |bs| && 0 <= req <= bs[i].size
    requires var d := if bs[i].size - req > HeaderSize then 1 else 0;
      k < |Carve(bs, i, req, HeaderSize, refs)| && (k < i || k > i + d)
    ensures var r := Carve(bs, i, req, HeaderSize, refs);
      var d := if bs[i].size - req > HeaderSize then 1 else 0;
      var j := if k < i then k else k - d;
      0 <= j < |bs| && (j < i || j > i) && r[k] == bs[j] && Next(r, k) == Next(bs, j)
  {
    var r := Carve(bs, i, req, HeaderSize, refs);
    var d := if bs[i].size - req > HeaderSize then 1 else 0;
    CarveShape(bs, i, req, HeaderSize, refs);
    if k + 1 < i {
      assert r[k + 1] == bs[k + 1];
    } else if k + 1 == i {
      assert r[k + 1].offset == bs[k + 1].offset;
    } else if k > i + d && k + 1 < |r| {
      assert r[k + 1] == bs[k + 1 - d];
    }
  }

  lemma CarveAgrees(m: map<int, Header>, m': map<int, Header>, bs: seq<Block>, i: nat, req: int, refs: int)
    requires Agrees(m, bs) && Increasing(bs) && i < |bs| && 0 <= req <= bs[i].size
    requires var r := Carve(bs, i, req, HeaderSize, refs);
      && Describes(HeaderAt(m', bs[i].offset), r, i)
      && (bs[i].size - req > HeaderSize ==> Describes(HeaderAt(m', bs[i].offset + HeaderSize + req), r, i + 1))
    requires CarveWrites(m, m', bs, i, req)
    requires bs[i].size - req > HeaderSize && i + 1 < |bs| ==> bs[i].offset + HeaderSize + req < bs[i + 1].offset
    ensures Agrees(m', Carve(bs, i, req, HeaderSize, refs))
  {
    var r := Carve(bs, i, req, HeaderSize, refs);
    var d := if bs[i].size - req > HeaderSize then 1 else 0;
    CarveShape(bs, i, req, HeaderSize, refs);
    forall k | 0 <= k < |r|
      ensures Describes(HeaderAt(m', r[k].offset), r, k)
    {
      if k < i || k > i + d {
        CarveMoves(bs, i, req, refs, k);
        var j := if k < i then k else k - d;
        assert bs[j].offset != bs[i].offset;
        if d == 1 && j > i + 1 {
          assert bs[j].offset > bs[i + 1].offset;
        }
        Keeps(m, m', bs, j, r, k);
      }
    }
  }

  /** Writing the headers of a carved block, and of the block cut from it, gives the carved chain. */
  lemma CarveChain(m: map<int, Header>, m': map<int, Header>, bs: seq<Block>, i: nat, req: int, refs: int)
    requires Chain(m, 0) == Some(bs) && i < |bs| && 0 <= req <= bs[i].size
    requires var r := Carve(bs, i, req, HeaderSize, refs);
      && Describes(HeaderAt(m', bs[i].offset), r, i)
      && (bs[i].size - req > HeaderSize ==> Describes(HeaderAt(m', bs[i].offset + HeaderSize + req), r, i + 1))
    requires CarveWrites(m, m', bs, i, req)
    ensures Chain(m', 0) == Some(Carve(bs, i, req, HeaderSize, refs))
  {
    ChainSound(m, 0, bs);
    TilesOrdered(bs, 0, HeaderSize, HeapSize);
    CarveTiles(bs, 0, HeaderSize, HeapSize, i, req, refs);
    if i + 1 < |bs| {
      assert bs[i + 1].offset == End(bs[i], HeaderSize);
    }
    CarveAgrees(m, m', bs, i, req, refs);
    ChainComplete(m', 0, Carve(bs, i, req, HeaderSize, refs));
  }

  lemma AbsorbAgrees(m: map<int, Header>, m': map<int, Header>, bs: seq<Block>, i: nat)
    requires Agrees(m, bs) && Increasing(bs) && i + 1 < |bs|
    requires Describes(HeaderAt(m', bs[i].offset), Absorb(bs, i, HeaderSize), i)
    requires forall o :: o != bs[i].offset ==> HeaderAt(m', o) == HeaderAt(m, o)
    ensures Agrees(m', Absorb(bs, i, HeaderSize))
  {
    var r := Absorb(bs, i, HeaderSize);
    AbsorbShape(bs, i, HeaderSize);
    forall k | 0 <= k < |r| && k != i
      ensures Describes(HeaderAt(m', r[k].offset), r, k)
    {
      if k < i {
        assert bs[k].offset < bs[i].offset;
        if k + 1 < i {
          assert Next(r, k) == Next(bs, k);
        }
        Keeps(m, m', bs, k, r, k);
      } else {
        assert bs[k + 1].offset > bs[i].offset;
        if k + 1 < |r| {
          assert r[k + 1] == bs[k + 2];
        }
        Keeps(m, m', bs, k + 1, r, k);
      }
    }
  }

  /** Rewriting the header of block `i` to span the block after it gives the merged chain. */
  lemma AbsorbChain(m: map<int, Header>, m': map<int, Header>, bs: seq<Block>, i: nat)
    requires Chain(m, 0) == Some(bs) && i + 1 < |bs|
    requires Describes(HeaderAt(m', bs[i].offset), Absorb(bs, i, HeaderSize), i)
    requires forall o :: o != bs[i].offset ==> HeaderAt(m', o) == HeaderAt(m, o)
    ensures Chain(m', 0) == Some(Absorb(bs, i, HeaderSize))
  {
    ChainSound(m, 0, bs);
    TilesOrdered(bs, 0, HeaderSize, HeapSize);
    AbsorbTiles(bs, 0, HeaderSize, HeapSize, i);
    AbsorbAgrees(m, m', bs, i);
    ChainComplete(m', 0, Absorb(bs, i, HeaderSize));
  }

  // What each step of the allocator reads, and what each of its writes does to the chain.

  /** The header of block `i` describes it, and its `next` is 0 exactly at the last block. */
  lemma HeaderOfBlock(m: map<int, Header>, bs: seq<Block>, i: nat)
    requires Chain(m, 0) == Some(bs) && i < |bs|
    ensures Describes(HeaderAt(m, bs[i].offset), bs, i)
    ensures 0 <= bs[i].offset && bs[i].size >= 0 && End(bs[i], HeaderSize) <= HeapSize
    ensures i + 1 < |bs| ==> bs[i + 1].offset == End(bs[i], HeaderSize)
    ensures HeaderAt(m, bs[i].offset).next == 0 <==> i + 1 == |bs|
  {
    ChainSound(m, 0, bs);
    TilesOrdered(bs, 0, HeaderSize, HeapSize);
  }

  /** What the search loop of `my_malloc` reads from the header of block `i`. */
  lemma SearchStep(m: map<int, Header>, bs: seq<Block>, i: nat, size: u8)
    requires Chain(m, 0) == Some(bs) && i < |bs|
    ensures var h := HeaderAt(m, bs[i].offset);
      && (h.isFree && h.size >= size <==> Fits(bs[i], size as int))
      && (h.next == 0 <==> i + 1 == |bs|)
      && (i + 1 < |bs| ==> h.next as int == bs[i + 1].offset < HeapSize)
  {
    HeaderOfBlock(m, bs, i);
    if i + 1 < |bs| {
      HeaderOfBlock(m, bs, i + 1);
    }
  }

  /** The header at `ptr - sizeof(BlockHeader)` is that of the block the pointer addresses. */
  lemma HeaderOfPayload(m: map<int, Header>, bs: seq<Block>, p: Ptr)
    requires p.Addr? && Chain(m, 0) == Some(bs) && Payload(bs, HeaderSize, p)
    ensures var i := BlockOf(bs, HeaderSize, p.index); var h := HeaderAt(m, p.index - HeaderSize);
      && Describes(h, bs, i)
      && (h.next == 0 <==> i + 1 == |bs|)
      && (i + 1 < |bs| ==> h.next as int > p.index - HeaderSize && Describes(HeaderAt(m, h.next as int), bs, i + 1))
      && (i + 1 < |bs| ==> bs[i].size + HeaderSize + bs[i + 1].size < HeapSize)
  {
    var i := BlockOf(bs, HeaderSize, p.index);
    HeaderOfBlock(m, bs, i);
    if i + 1 < |bs| {
      HeaderOfBlock(m, bs, i + 1);
    }
  }

  /** `block->is_free = 1` on the block a pointer addresses. */
  lemma MarkWrite(m: map<int, Header>, bs: seq<Block>, p: Ptr, off: int, h: Header)
    requires p.Addr? && Chain(m, 0) == Some(bs) && Payload(bs, HeaderSize, p)
    requires off == p.index - HeaderSize && h == HeaderAt(m, off).(isFree := true)
    ensures Chain(m[off := h], 0) == Some(Freed(bs, BlockOf(bs, HeaderSize, p.index)))
  {
    HeaderOfPayload(m, bs, p);
    var i := BlockOf(bs, HeaderSize, p.index);
    RelabelChain(m, m[off := h], bs, i, Freed(bs, i)[i]);
  }

  /**
   * What one turn of `coalesce_memory`'s loop reads at block `i`, not the
   * last: the header after it is that of block `i + 1`, whether to merge is
   * whether both are free, and the merged size fits in the heap.
   */
  lemma CoalesceRead(m: map<int, Header>, bs: seq<Block>, i: nat)
    requires Chain(m, 0) == Some(bs) && i < |bs| && HeaderAt(m, bs[i].offset).next != 0
    ensures var h := HeaderAt(m, bs[i].offset); var n := HeaderAt(m, h.next as int);
      && i + 1 < |bs| && h.next as int == bs[i + 1].offset
      && (h.isFree && n.isFree <==> bs[i].free && bs[i + 1].free)
      && h.size as int + HeaderSize + n.size as int < HeapSize
      && CoalesceFrom(bs, i) == if bs[i].free && bs[i + 1].free then CoalesceFrom(Absorb(bs, i, HeaderSize), i) else CoalesceFrom(bs, i + 1)
  {
    HeaderOfBlock(m, bs, i);
    HeaderOfBlock(m, bs, i + 1);
  }

  /** `block->size += sizeof(BlockHeader) + next_block->size; block->next = next_block->next`. */
  lemma MergeWrite(m: map<int, Header>, bs: seq<Block>, i: nat, off: int, h: Header)
    requires Chain(m, 0) == Some(bs) && i + 1 < |bs| && off == bs[i].offset
    requires var b := HeaderAt(m, off); var n := HeaderAt(m, b.next as int);
      b.size as int + HeaderSize + n.size as int < HeapSize
      && h == b.(size := (b.size as int + HeaderSize + n.size as int) as u8, next := n.next)
    ensures Chain(m[off := h], 0) == Some(Absorb(bs, i, HeaderSize))
  {
    HeaderOfBlock(m, bs, i);
    HeaderOfBlock(m, bs, i + 1);
    AbsorbShape(bs, i, HeaderSize);
    if i + 2 < |bs| {
      assert Next(Absorb(bs, i, HeaderSize), i) == Next(bs, i + 1);
    }
    AbsorbChain(m, m[off := h], bs, i);
  }

  /** The whole block handed out: `is_free = 0`. */
  lemma TakeWrite(m: map<int, Header>, bs: seq<Block>, i: nat, req: int, off: int, h: Header)
    requires Chain(m, 0) == Some(bs) && i < |bs| && off == bs[i].offset
    requires 0 <= req <= bs[i].size && bs[i].size - req <= HeaderSize
    requires h == HeaderAt(m, off).(isFree := false)
    ensures Chain(m[off := h], 0) == Some(Carve(bs, i, req, HeaderSize, 0))
  {
    HeaderOfBlock(m, bs, i);
    CarveShape(bs, i, req, HeaderSize, 0);
    if i + 1 < |bs| {
      assert Next(Carve(bs, i, req, HeaderSize, 0), i) == Next(bs, i);
    }
    CarveChain(m, m[off := h], bs, i, req, 0);
  }

  /**
   * The block split: the new free header at `off + 3 + req` takes the rest
   * of the payload and the old `next`; the carved header then gets the
   * request as its size, the new header as its `next`, and `is_free = 0`.
   */
  lemma SplitWrite(m: map<int, Header>, bs: seq<Block>, i: nat, req: int, off: int, newOff: int, hNew: Header, h: Header)
    requires Chain(m, 0) == Some(bs) && i < |bs| && off == bs[i].offset
    requires 0 <= req <= bs[i].size && bs[i].size - req > HeaderSize && newOff == off + HeaderSize + req
    requires var b := HeaderAt(m, off);
      && hNew.size as int == b.size as int - req - HeaderSize && hNew.isFree && hNew.next == b.next
      && h.next as int == newOff && h.size as int == req && !h.isFree
    ensures Chain(m[newOff := hNew][off := h], 0) == Some(Carve(bs, i, req, HeaderSize, 0))
  {
    HeaderOfBlock(m, bs, i);
    CarveShape(bs, i, req, HeaderSize, 0);
    var r := Carve(bs, i, req, HeaderSize, 0);
    var m' := m[newOff := hNew][off := h];
    assert HeaderAt(m', off) == h && HeaderAt(m', newOff) == hNew;
    if i + 1 < |bs| {
      assert Next(r, i + 1) == Next(bs, i);
    }
    CarveChain(m, m', bs, i, req, 0);
  }

  class Heap {
    /** The headers written into `heap`, by offset. */
    var headers: map<int, Header>

    /** The heap as static storage leaves it: all zero, no header written. */
    constructor ()
      ensures headers == map[]
    {
      headers := map[];
    }

    /** Either nothing has been written yet, or the chain from `free_list` tiles the heap. */
    predicate Valid()
      reads this
    {
      |headers| == 0 || Chain(headers, 0).Some?
    }

    /** The blocks along the chain; none before `init_heap`. */
    function Blocks(): seq<Block>
      reads this
    {
      match Chain(headers, 0)
      case Some(bs) => bs
      case None => []
    }

    /** `init_heap()`: one free block spanning the heap after its header. */
    method InitHeap()
      modifies this
      ensures Valid() && Blocks() == [Block(0, HeapSize - HeaderSize, true, 0)]
      ensures headers == old(headers)[FreeList as int := Header((HeapSize - HeaderSize) as u8, true, 0)]
    {
      headers := headers[FreeList as int := Header((HeapSize - HeaderSize) as u8, true, 0)];
      ChainLast(headers, 0);
    }

    /**
     * The body of `my_malloc`'s `if` once block `i`, at `offset`, fits: split
     * it when more than a header's worth is left over, mark it allocated,
     * and return its payload.
     */
    method Place(offset: u8, size: u8, ghost bs: seq<Block>, ghost i: nat) returns (p: Ptr)
      requires Chain(headers, 0) == Some(bs) && i < |bs| && offset as int == bs[i].offset && Fits(bs[i], size as int)
      modifies this
      ensures Valid() && Blocks() == Carve(bs, i, size as int, HeaderSize, 0)
      ensures p == Addr(offset as int + HeaderSize)
    {
      ghost var m := headers;
      HeaderOfBlock(m, bs, i);
      var current := HeaderAt(headers, offset as int);
      var remaining := current.size - size;
      var updated := current;
      if remaining as int > HeaderSize {
        var newOffset := offset + HeaderSize as u8 + size;
        var newBlock := Header(remaining - HeaderSize as u8, true, current.next);
        headers := headers[newOffset as int := newBlock];
        updated := updated.(next := newOffset, size := size);
        updated := updated.(isFree := false);
        SplitWrite(m, bs, i, size as int, offset as int, newOffset as int, newBlock, updated);
      } else {
        updated := updated.(isFree := false);
        TakeWrite(m, bs, i, size as int, offset as int, updated);
      }
      headers := headers[offset as int := updated];
      return Addr(offset as int + HeaderSize);
    }

    /** The search loop of `my_malloc(size)`: walks the chain to the first free block big enough. */
    method FindFit(size: u8) returns (found: bool, offset: u8, ghost i: nat)
      requires Valid()
      ensures found <==> FirstFit(Blocks(), size as int).Some?
      ensures found ==> Chain(headers, 0) == Some(Blocks()) && FirstFit(Blocks(), size as int) == Some(i)
      ensures found ==> offset as int == Blocks()[i].offset
    {
      ghost var bs := Blocks();
      ghost var m := headers;
      var currentOffset := FreeList;
      if bs != [] {
        HeaderOfBlock(m, bs, 0);
      }
      i := 0;
      while currentOffset as int < HeapSize
        invariant bs == [] ==> |m| == 0 && currentOffset == 0
        invariant bs != [] ==> Chain(m, 0) == Some(bs) && i < |bs| && currentOffset as int == bs[i].offset < HeapSize
        invariant NoneFitBefore(bs, i, size as int)
        decreases |bs| - i
      {
        var current := HeaderAt(headers, currentOffset as int);
        if bs != [] {
          SearchStep(m, bs, i, size);
        }
        if current.isFree && current.size >= size {
          FirstFitAt(bs, i, size as int);
          return true, currentOffset, i;
        }
        assert NoneFitBefore(bs, i + 1, size as int);
        currentOffset := current.next;
        i := i + 1;
        if currentOffset == 0 {
          break;
        }
      }
      assert NoneFitBefore(bs, |bs|, size as int);
      return false, 0, 0;
    }

    /** `my_malloc(size)`: first fit, split when the rest can hold a header and a byte. */
    method Malloc(size: u8) returns (p: Ptr)
      requires Valid()
      modifies this
      ensures Valid()
      ensures (Blocks(), p) == Allocate(old(Blocks()), size as nat)
    {
      ghost var bs := Blocks();
      var found, offset, i := FindFit(size);
      if found {
        p := Place(offset, size, bs, i);
        AllocateFirstFit(bs, size as nat, i);
        assert Blocks() == Carve(bs, i, size as nat, HeaderSize, 0);
        assert p == Addr(bs[i].offset + HeaderSize);
        ghost var after := Blocks();
        assert (after, p) == Allocate(bs, size as nat);
      } else {
        p := Null;
        assert Blocks() == bs;
        assert (bs, p) == Allocate(bs, size as nat);
      }
    }

    /** `my_free(ptr)`. */
    method Free(ptr: Ptr)
      requires Valid() && Payload(Blocks(), HeaderSize, ptr)
      modifies this
      ensures Valid() && Blocks() == Release(old(Blocks()), ptr)
    {
      if ptr.Null? {
        return;
      }
      var blockOffset := ptr.index - HeaderSize;
      var block := HeaderAt(headers, blockOffset);
      var marked := block.(isFree := true);
      MarkWrite(headers, Blocks(), ptr, blockOffset, marked);
      headers := headers[blockOffset := marked];
    }

    /** `coalesce_memory()`. */
    method CoalesceMemory()
      requires Valid()
      modifies this
      ensures Valid() && Blocks() == Coalesce(old(Blocks()))
    {
      ghost var bs := Blocks();
      var blockOffset: u8 := 0;
      ghost var i: nat := 0;
      if bs != [] {
        HeaderOfBlock(headers, bs, 0);
      }
      while HeaderAt(headers, blockOffset as int).next != 0
        invariant bs == [] ==> headers == old(headers) && old(Blocks()) == [] && |headers| == 0 && blockOffset == 0
        invariant bs != [] ==> Chain(headers, 0) == Some(bs) && i < |bs| && blockOffset as int == bs[i].offset
        invariant bs != [] ==> CoalesceFrom(bs, i) == Coalesce(old(Blocks()))
        decreases |bs|, |bs| - i
      {
        var block := HeaderAt(headers, blockOffset as int);
        var nextBlock := HeaderAt(headers, block.next as int);
        CoalesceRead(headers, bs, i);
        if block.isFree && nextBlock.isFree {
          var merged := block.(size := block.size + HeaderSize as u8 + nextBlock.size, next := nextBlock.next);
          MergeWrite(headers, bs, i, blockOffset as int, merged);
          headers := headers[blockOffset as int := merged];
          bs := Absorb(bs, i, HeaderSize);
        } else {
          blockOffset := block.next;
          i := i + 1;
        }
      }
      if bs != [] {
        HeaderOfBlock(headers, bs, i);
        assert CoalesceFrom(bs, i) == bs;
      } else {
        assert Blocks() == [];
      }
    }
  }
}
