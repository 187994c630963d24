/**
 * The reference-counting allocator over a 64-byte static heap. Every block
 * starts with a four-byte header (size, is_free, next, ref_count, each a
 * `uint8_t`); `next` is the offset of the following header, 0 at the end of
 * the chain. `my_malloc` is first fit along the chain and splits a block
 * when more than a header's worth is left over; `my_free` marks a block
 * free and merges it with the block right after it when that one is free;
 * `decrement_ref` frees a block when its count drops to zero.
 *
 * The heap array is modelled by the headers written into it, by offset: no
 * payload byte is ever read or written, and a header never written reads as
 * the zero bytes of static storage.
 */
module HeapV3 {
  import opened Wrappers
  import opened HeapBlocks

  const HeapSize := 64
  /** `sizeof(BlockHeader)`: four `uint8_t` fields. */
  const HeaderSize := 4
  /** `free_list`: the chain always starts at the first byte. */
  const FreeList: u8 := 0

  datatype Header = Header(size: u8, isFree: bool, next: u8, refCount: u8)

  /** What an unwritten header reads as. */
  const Zeroed := Header(0, false, 0, 0)

  function HeaderAt(m: map<int, Header>, off: int): Header {
    if off in m then m[off] else Zeroed
  }

  function View(off: int, h: Header): Block {
    Block(off, h.size as int, h.isFree, h.refCount as int)
  }

  /**
   * The blocks met by following `next` from the header at `off`, or None
   * unless they lie end to end up to the end of the heap, each `next`
   * pointing just past its block's payload and the last one being 0.
   */
  function Chain(m: map<int, Header>, off: nat): Option<seq<Block>>
    decreases HeapSize - off
  {
    if off >= HeapSize then None
    else
      var h := HeaderAt(m, off);
      var e := off + HeaderSize + h.size as int;
      if h.next == 0 then
        if e == HeapSize then Some([View(off, h)]) else None
      else if h.next as int == e && e < HeapSize then
        match Chain(m, e)
        case None => None
        case Some(rest) => Some([View(off, h)] + rest)
      else None
  }

  /** The `next` field that block `i` of a chain must hold. */
  function Next(bs: seq<Block>, i: nat): int
    requires i < |bs|
  {
    if i + 1 < |bs| then bs[i + 1].offset else 0
  }

  predicate Describes(h: Header, bs: seq<Block>, i: nat)
    requires i < |bs|
  {
    h.size as int == bs[i].size && h.isFree == bs[i].free && h.next as int == Next(bs, i) && h.refCount as int == bs[i].refs
  }

  /** The header at each block's offset describes that block. */
  predicate Agrees(m: map<int, Header>, bs: seq<Block>) {
    forall i :: 0 <= i < |bs| ==> Describes(HeaderAt(m, bs[i].offset), bs, i)
  }

  lemma AgreesTail(m: map<int, Header>, bs: seq<Block>)
    requires Agrees(m, bs) && |bs| > 0
    ensures Agrees(m, bs[1..])
  {
    var t := bs[1..];
    forall i | 0 <= i < |t|
      ensures Describes(HeaderAt(m, t[i].offset), t, i)
    {
      assert t[i] == bs[i + 1];
      assert Describes(HeaderAt(m, bs[i + 1].offset), bs, i + 1);
    }
  }

  /** A chain read from the headers tiles the heap from `off`, and its headers describe its blocks. */
  lemma {:induction false} ChainSound(m: map<int, Header>, off: nat, bs: seq<Block>)
    requires Chain(m, off) == Some(bs)
    ensures Tiles(bs, off, HeaderSize, HeapSize) && Agrees(m, bs)
    decreases HeapSize - off
  {
    var h := HeaderAt(m, off);
    var e := off + HeaderSize + h.size as int;
    if h.next != 0 {
      var rest := Chain(m, e).value;
      ChainSound(m, e, rest);
      TilesCons(View(off, h), rest, HeaderSize, HeapSize);
      assert bs == [View(off, h)] + rest;
      forall i | 0 <= i < |bs|
        ensures Describes(HeaderAt(m, bs[i].offset), bs, i)
      {
        if i > 0 {
          assert bs[i] == rest[i - 1];
          assert Describes(HeaderAt(m, rest[i - 1].offset), rest, i - 1);
        }
      }
    }
  }

  /** The last header of a chain: `next` is 0 and the payload runs to the end of the heap. */
  lemma ChainLast(m: map<int, Header>, off: nat)
    requires off < HeapSize && HeaderAt(m, off).next == 0
    requires off + HeaderSize + HeaderAt(m, off).size as int == HeapSize
    ensures Chain(m, off) == Some([View(off, HeaderAt(m, off))])
  {
  }

  /** A header whose `next` points just past its payload, at a chain, heads a chain one block longer. */
  lemma ChainLink(m: map<int, Header>, off: nat, rest: seq<Block>)
    requires off < HeapSize && HeaderAt(m, off).next != 0
    requires HeaderAt(m, off).next as int == off + HeaderSize + HeaderAt(m, off).size as int
    requires Chain(m, HeaderAt(m, off).next as nat) == Some(rest)
    ensures Chain(m, off) == Some([View(off, HeaderAt(m, off))] + rest)
  {
  }

  /** Conversely, headers that describe a tiling are read back as that tiling. */
  lemma {:induction false} ChainComplete(m: map<int, Header>, off: nat, bs: seq<Block>)
    requires Tiles(bs, off, HeaderSize, HeapSize) && Agrees(m, bs)
    ensures Chain(m, off) == Some(bs)
    decreases |bs|
  {
    var h := HeaderAt(m, off);
    assert Describes(h, bs, 0);
    assert View(off, h) == bs[0];
    if |bs| == 1 {
      ChainLast(m, off);
      assert bs == [bs[0]];
    } else {
      TilesTail(bs, off, HeaderSize, HeapSize);
      AgreesTail(m, bs);
      ChainComplete(m, bs[1].offset, bs[1..]);
      ChainLink(m, off, bs[1..]);
      assert bs == [bs[0]] + bs[1..];
    }
  }

  // The allocator's operations on the block list.

  /** `x++` on a `uint8_t`: 255 wraps around to 0. */
  function Succ8(x: int): int {
    if x == 255 then 0 else x + 1
  }

  /**
   * `my_malloc(size)`: the first free block with at least `size` bytes is
   * carved and handed out with a reference count of 1, and the pointer is
   * its payload; NULL, with nothing changed, when there is none.
   */
  function Allocate(bs: seq<Block>, req: nat): (r: (seq<Block>, Ptr))
    ensures r.1 == Null <==> forall j :: 0 <= j < |bs| ==> !Fits(bs[j], req)
    ensures r.1 == Null ==> r.0 == bs
  {
    match FirstFit(bs, req)
    case None => (bs, Null)
    case Some(i) => (Carve(bs, i, req, HeaderSize, 1), Addr(bs[i].offset + HeaderSize))
  }

  /** Allocation carves the first block that fits and hands out the address just past its header. */
  lemma AllocateFirstFit(bs: seq<Block>, req: nat, i: nat)
    requires FirstFit(bs, req) == Some(i)
    ensures Allocate(bs, req) == (Carve(bs, i, req, HeaderSize, 1), Addr(bs[i].offset + HeaderSize))
  {
  }

  /** Block `i` marked free, with nothing merged yet. */
  function Freed(bs: seq<Block>, i: nat): seq<Block>
    requires i < |bs|
  {
    bs[i := bs[i].(free := true)]
  }

  /**
   * `my_free(ptr)`: NULL and free blocks are left alone; otherwise the block
   * is marked free and swallows the block after it if that one is free.
   */
  function Release(bs: seq<Block>, p: Ptr): (r: seq<Block>)
    requires Payload(bs, HeaderSize, p)
    ensures |bs| - 1 <= |r| <= |bs|
    ensures p.Addr? ==> var i := BlockOf(bs, HeaderSize, p.index); i < |r| && r[..i] == bs[..i] && r[i].free
  {
    if p.Null? then bs
    else
      var i := BlockOf(bs, HeaderSize, p.index);
      if bs[i].free then bs
      else if i + 1 < |bs| && bs[i + 1].free then Absorb(Freed(bs, i), i, HeaderSize)
      else Freed(bs, i)
  }

  /** `increment_ref(ptr)`: the count goes up by one, wrapping around at 256. */
  function Retain(bs: seq<Block>, p: Ptr): (r: seq<Block>)
    requires Payload(bs, HeaderSize, p)
    ensures |r| == |bs|
    ensures forall j :: 0 <= j < |bs| ==> r[j].offset == bs[j].offset && r[j].size == bs[j].size && r[j].free == bs[j].free
  {
    if p.Null? then bs
    else
      var i := BlockOf(bs, HeaderSize, p.index);
      bs[i := bs[i].(refs := Succ8(bs[i].refs))]
  }

  /** Block `i` with its count one lower. */
  function Lowered(bs: seq<Block>, i: nat): seq<Block>
    requires i < |bs|
  {
    bs[i := bs[i].(refs := bs[i].refs - 1)]
  }

  /** `decrement_ref(ptr)`: a count above zero goes down by one, and the block is freed when it reaches zero. */
  function Drop(bs: seq<Block>, p: Ptr): (r: seq<Block>)
    requires Payload(bs, HeaderSize, p)
    ensures |bs| - 1 <= |r| <= |bs|
    ensures p.Addr? ==> var i := BlockOf(bs, HeaderSize, p.index); r[..i] == bs[..i]
  {
    if p.Null? then bs
    else
      var i := BlockOf(bs, HeaderSize, p.index);
      if bs[i].refs > 0 then
        assert Lowered(bs, i)[i].offset + HeaderSize == p.index;
        if bs[i].refs == 1 then Release(Lowered(bs, i), p) else Lowered(bs, i)
      else bs
  }

  /** The block at payload address `p` of a tiling is the one whose header sits just before it. */
  lemma BlockOfTiling(bs: seq<Block>, k: nat)
    requires Tiles(bs, 0, HeaderSize, HeapSize) && k < |bs|
    ensures Payload(bs, HeaderSize, Addr(bs[k].offset + HeaderSize))
    ensures BlockOf(bs, HeaderSize, bs[k].offset + HeaderSize) == k
  {
    TilesOrdered(bs, 0, HeaderSize, HeapSize);
    var j := BlockOf(bs, HeaderSize, bs[k].offset + HeaderSize);
    assert !(j < k) && !(k < j);
  }

  /** Allocation keeps the chain covering the heap. */
  lemma AllocateTiles(bs: seq<Block>, req: nat)
    requires Tiles(bs, 0, HeaderSize, HeapSize)
    ensures Tiles(Allocate(bs, req).0, 0, HeaderSize, HeapSize)
  {
    if FirstFit(bs, req).Some? {
      CarveTiles(bs, 0, HeaderSize, HeapSize, FirstFit(bs, req).value, req, 1);
    }
  }

  /**
   * A pointer handed out addresses an allocated block of at least the
   * requested size with a count of 1, and no block earlier in the heap
   * could have served the request.
   */
  lemma AllocateGrants(bs: seq<Block>, req: nat)
    requires Tiles(bs, 0, HeaderSize, HeapSize)
    ensures var (r, p) := Allocate(bs, req);
      p.Addr? ==>
        && Payload(r, HeaderSize, p)
        && var k := BlockOf(r, HeaderSize, p.index);
        && !r[k].free && r[k].refs == 1 && r[k].size >= req
        && (forall j :: 0 <= j < |bs| && bs[j].offset < r[k].offset ==> !Fits(bs[j], req))
  {
    if FirstFit(bs, req).Some? {
      var i := FirstFit(bs, req).value;
      var r := Carve(bs, i, req, HeaderSize, 1);
      CarveTiles(bs, 0, HeaderSize, HeapSize, i, req, 1);
      CarveShape(bs, i, req, HeaderSize, 1);
      BlockOfTiling(r, i);
      TilesOrdered(bs, 0, HeaderSize, HeapSize);
      forall j | 0 <= j < |bs| && bs[j].offset < r[i].offset
        ensures !Fits(bs[j], req)
      {
        assert j < i;
      }
    }
  }

  /** Freeing keeps the chain covering the heap. */
  lemma ReleaseTiles(bs: seq<Block>, p: Ptr)
    requires Tiles(bs, 0, HeaderSize, HeapSize) && Payload(bs, HeaderSize, p)
    ensures Tiles(Release(bs, p), 0, HeaderSize, HeapSize)
  {
    if p.Addr? {
      var i := BlockOf(bs, HeaderSize, p.index);
      RelabelTiles(bs, 0, HeaderSize, HeapSize, i, bs[i].(free := true));
      if i + 1 < |bs| {
        AbsorbTiles(Freed(bs, i), 0, HeaderSize, HeapSize, i);
      }
    }
  }

  /** Changing counts keeps the chain covering the heap. */
  lemma DropTiles(bs: seq<Block>, p: Ptr)
    requires Tiles(bs, 0, HeaderSize, HeapSize) && Payload(bs, HeaderSize, p)
    ensures Tiles(Retain(bs, p), 0, HeaderSize, HeapSize)
    ensures Tiles(Drop(bs, p), 0, HeaderSize, HeapSize)
  {
    if p.Addr? {
      var i := BlockOf(bs, HeaderSize, p.index);
      RelabelTiles(bs, 0, HeaderSize, HeapSize, i, bs[i].(refs := Succ8(bs[i].refs)));
      RelabelTiles(bs, 0, HeaderSize, HeapSize, i, Lowered(bs, i)[i]);
      assert Lowered(bs, i)[i].offset + HeaderSize == p.index;
      ReleaseTiles(Lowered(bs, i), p);
    }
  }

  /** `increment_ref` on the payload of block `i` of a tiling. */
  lemma RetainAt(bs: seq<Block>, i: nat)
    requires Tiles(bs, 0, HeaderSize, HeapSize) && i < |bs|
    ensures Payload(bs, HeaderSize, Addr(bs[i].offset + HeaderSize))
    ensures Retain(bs, Addr(bs[i].offset + HeaderSize)) == bs[i := bs[i].(refs := Succ8(bs[i].refs))]
  {
    BlockOfTiling(bs, i);
  }

  /** `my_free` on the payload of block `i` of a tiling. */
  lemma ReleaseAt(bs: seq<Block>, i: nat)
    requires Tiles(bs, 0, HeaderSize, HeapSize) && i < |bs|
    ensures Payload(bs, HeaderSize, Addr(bs[i].offset + HeaderSize))
    ensures Release(bs, Addr(bs[i].offset + HeaderSize)) ==
      if bs[i].free then bs else if i + 1 < |bs| && bs[i + 1].free then Absorb(Freed(bs, i), i, HeaderSize) else Freed(bs, i)
  {
    BlockOfTiling(bs, i);
  }

  /** `decrement_ref` on the payload of block `i` of a tiling. */
  lemma DropAt(bs: seq<Block>, i: nat)
    requires Tiles(bs, 0, HeaderSize, HeapSize) && i < |bs|
    ensures Payload(bs, HeaderSize, Addr(bs[i].offset + HeaderSize))
    ensures Payload(Lowered(bs, i), HeaderSize, Addr(bs[i].offset + HeaderSize))
    ensures Drop(bs, Addr(bs[i].offset + HeaderSize)) ==
      if bs[i].refs <= 0 then bs
      else if bs[i].refs == 1 then Release(Lowered(bs, i), Addr(bs[i].offset + HeaderSize))
      else Lowered(bs, i)
  {
    BlockOfTiling(bs, i);
    assert Lowered(bs, i)[i].offset == bs[i].offset;
  }

  /** Raising a count below the wrap-around and lowering it again is no change. */
  lemma LoweredRetained(bs: seq<Block>, i: nat)
    requires i < |bs| && 0 <= bs[i].refs < 255
    ensures Lowered(bs[i := bs[i].(refs := Succ8(bs[i].refs))], i) == bs
  {
    var l := Lowered(bs[i := bs[i].(refs := Succ8(bs[i].refs))], i);
    assert |l| == |bs|;
    forall k | 0 <= k < |l|
      ensures l[k] == bs[k]
    {
    }
  }

  /** Dropping the count just taken on block `i` of a tiling restores the tiling. */
  lemma DropRetained(bs: seq<Block>, i: nat, r: seq<Block>)
    requires Tiles(bs, 0, HeaderSize, HeapSize) && i < |bs| && 1 <= bs[i].refs < 255
    requires r == bs[i := bs[i].(refs := Succ8(bs[i].refs))]
    ensures Payload(r, HeaderSize, Addr(bs[i].offset + HeaderSize))
    ensures Drop(r, Addr(bs[i].offset + HeaderSize)) == bs
  {
    RelabelTiles(bs, 0, HeaderSize, HeapSize, i, r[i]);
    DropAt(r, i);
    assert r[i].refs > 1 && r[i].offset == bs[i].offset;
    LoweredRetained(bs, i);
  }

  /** A count taken and given back, on a block already counted once and below the wrap-around, leaves the heap as it was. */
  lemma RetainThenDrop(bs: seq<Block>, p: Ptr)
    requires Tiles(bs, 0, HeaderSize, HeapSize) && Payload(bs, HeaderSize, p) && p.Addr?
    requires 1 <= bs[BlockOf(bs, HeaderSize, p.index)].refs < 255
    ensures Payload(Retain(bs, p), HeaderSize, p)
    ensures Drop(Retain(bs, p), p) == bs
  {
    var i := BlockOf(bs, HeaderSize, p.index);
    RetainAt(bs, i);
    DropRetained(bs, i, Retain(bs, p));
  }

  /** No free block carries a count. */
  predicate FreeUncounted(bs: seq<Block>) {
    forall k :: 0 <= k < |bs| && bs[k].free ==> bs[k].refs == 0
  }

  /** Lowering a count to zero and freeing the block is one rewrite of it. */
  lemma FreedLowered(r: seq<Block>, i: nat)
    requires i < |r| && r[i].refs == 1
    ensures Freed(Lowered(r, i), i) == r[i := r[i].(free := true, refs := 0)]
  {
    var f := Freed(Lowered(r, i), i);
    var g := r[i := r[i].(free := true, refs := 0)];
    assert |f| == |g|;
    forall k | 0 <= k < |f|
      ensures f[k] == g[k]
    {
    }
  }

  /** A free, uncounted block carved with a split, then freed again with its count dropped, merges back into itself. */
  lemma SplitUndone(bs: seq<Block>, i: nat, req: int)
    requires i < |bs| && 0 <= req <= bs[i].size && bs[i].size - req > HeaderSize
    requires bs[i].free && bs[i].refs == 0
    ensures var r := Carve(bs, i, req, HeaderSize, 1);
      Absorb(r[i := r[i].(free := true, refs := 0)], i, HeaderSize) == bs
  {
    var r := Carve(bs, i, req, HeaderSize, 1);
    var f := r[i := r[i].(free := true, refs := 0)];
    CarveShape(bs, i, req, HeaderSize, 1);
    AbsorbShape(f, i, HeaderSize);
    var a := Absorb(f, i, HeaderSize);
    assert |a| == |bs|;
    forall k | 0 <= k < |a|
      ensures a[k] == bs[k]
    {
      if k > i {
        assert a[k] == f[k + 1] == r[k + 1];
      }
    }
  }

  /** A free, uncounted block handed out whole, then freed again with its count dropped, is as it was. */
  lemma TakeUndone(bs: seq<Block>, i: nat, req: int)
    requires i < |bs| && 0 <= req <= bs[i].size && bs[i].size - req <= HeaderSize
    requires bs[i].free && bs[i].refs == 0
    ensures var r := Carve(bs, i, req, HeaderSize, 1);
      r[i := r[i].(free := true, refs := 0)] == bs
  {
    var r := Carve(bs, i, req, HeaderSize, 1);
    CarveShape(bs, i, req, HeaderSize, 1);
    var f := r[i := r[i].(free := true, refs := 0)];
    assert |f| == |bs|;
    forall k | 0 <= k < |f|
      ensures f[k] == bs[k]
    {
    }
  }

  /** Dropping the last count on block `i` of a tiling frees the lowered block, and the lowered list still tiles. */
  lemma DropLastAt(r: seq<Block>, i: nat, p: Ptr)
    requires Tiles(r, 0, HeaderSize, HeapSize) && i < |r| && r[i].refs == 1
    requires p == Addr(r[i].offset + HeaderSize)
    ensures Payload(r, HeaderSize, p)
    ensures Tiles(Lowered(r, i), 0, HeaderSize, HeapSize)
    ensures Payload(Lowered(r, i), HeaderSize, p)
    ensures Drop(r, p) == Release(Lowered(r, i), p)
  {
    DropAt(r, i);
    RelabelTiles(r, 0, HeaderSize, HeapSize, i, Lowered(r, i)[i]);
  }

  /** Dropping the only count of a block just carved from free block `i` of a tiling, with no split. */
  lemma DropTaken(bs: seq<Block>, i: nat, req: int, r: seq<Block>)
    requires Tiles(bs, 0, HeaderSize, HeapSize) && i < |bs| && 0 <= req <= bs[i].size
    requires bs[i].free && bs[i].refs == 0 && bs[i].size - req <= HeaderSize
    requires i + 1 < |bs| ==> !bs[i + 1].free
    requires r == Carve(bs, i, req, HeaderSize, 1)
    ensures Payload(r, HeaderSize, Addr(bs[i].offset + HeaderSize))
    ensures Drop(r, Addr(bs[i].offset + HeaderSize)) == bs
  {
    CarveTiles(bs, 0, HeaderSize, HeapSize, i, req, 1);
    CarveShape(bs, i, req, HeaderSize, 1);
    var p := Addr(bs[i].offset + HeaderSize);
    DropLastAt(r, i, p);
    var lowered := Lowered(r, i);
    assert !lowered[i].free && lowered[i].offset == bs[i].offset && |lowered| == |bs|;
    if i + 1 < |bs| {
      assert lowered[i + 1] == bs[i + 1];
    }
    ReleaseAlone(lowered, i, p);
    FreedLowered(r, i);
    TakeUndone(bs, i, req);
  }

  /** Freeing allocated block `i` of a tiling whose successor, if any, is allocated only marks it. */
  lemma ReleaseAlone(bs: seq<Block>, i: nat, p: Ptr)
    requires Tiles(bs, 0, HeaderSize, HeapSize) && i < |bs| && !bs[i].free
    requires i + 1 < |bs| ==> !bs[i + 1].free
    requires p == Addr(bs[i].offset + HeaderSize)
    ensures Payload(bs, HeaderSize, p)
    ensures Release(bs, p) == Freed(bs, i)
  {
    ReleaseAt(bs, i);
  }

  /** Dropping the only count of a block just split off free block `i` of a tiling. */
  lemma DropSplit(bs: seq<Block>, i: nat, req: int, r: seq<Block>)
    requires Tiles(bs, 0, HeaderSize, HeapSize) && i < |bs| && 0 <= req <= bs[i].size
    requires bs[i].free && bs[i].refs == 0 && bs[i].size - req > HeaderSize
    requires r == Carve(bs, i, req, HeaderSize, 1)
    ensures Payload(r, HeaderSize, Addr(bs[i].offset + HeaderSize))
    ensures Drop(r, Addr(bs[i].offset + HeaderSize)) == bs
  {
    CarveTiles(bs, 0, HeaderSize, HeapSize, i, req, 1);
    CarveShape(bs, i, req, HeaderSize, 1);
    var p := Addr(bs[i].offset + HeaderSize);
    DropLastAt(r, i, p);
    var lowered := Lowered(r, i);
    assert !lowered[i].free && lowered[i].offset == bs[i].offset;
    assert i + 1 < |lowered| && lowered[i + 1] == r[i + 1] && lowered[i + 1].free;
    ReleaseMerging(lowered, i, p);
    FreedLowered(r, i);
    SplitUndone(bs, i, req);
  }

  /** Freeing allocated block `i` of a tiling whose successor is free merges the two. */
  lemma ReleaseMerging(bs: seq<Block>, i: nat, p: Ptr)
    requires Tiles(bs, 0, HeaderSize, HeapSize) && i + 1 < |bs| && !bs[i].free && bs[i + 1].free
    requires p == Addr(bs[i].offset + HeaderSize)
    ensures Payload(bs, HeaderSize, p)
    ensures Release(bs, p) == Absorb(Freed(bs, i), i, HeaderSize)
  {
    ReleaseAt(bs, i);
  }

  /**
   * Allocating and then dropping the only reference gives the heap back as
   * it was, provided no two free blocks were neighbours and no free block
   * carried a count.
   */
  lemma AllocateThenDrop(bs: seq<Block>, req: nat)
    requires Tiles(bs, 0, HeaderSize, HeapSize) && NoFreeNeighbours(bs) && FreeUncounted(bs)
    ensures var (r, p) := Allocate(bs, req);
      Payload(r, HeaderSize, p) && Drop(r, p) == bs
  {
    if FirstFit(bs, req).Some? {
      var i := FirstFit(bs, req).value;
      var r := Carve(bs, i, req, HeaderSize, 1);
      assert Allocate(bs, req) == (r, Addr(bs[i].offset + HeaderSize));
      if bs[i].size - req > HeaderSize {
        DropSplit(bs, i, req, r);
      } else {
        DropTaken(bs, i, req, r);
      }
    }
  }

  /** Carving 20 bytes from the fresh heap splits it. */
  lemma ExampleFirstAllocation()
    ensures Allocate([Block(0, HeapSize - HeaderSize, true, 0)], 20) ==
      ([Block(0, 20, false, 1), Block(24, 36, true, 0)], Addr(4))
  {
    var s0 := [Block(0, HeapSize - HeaderSize, true, 0)];
    assert FirstFit(s0, 20) == Some(0);
    CarveShape(s0, 0, 20, HeaderSize, 1);
    var r := Carve(s0, 0, 20, HeaderSize, 1);
    assert |r| == 2 && r[0] == Block(0, 20, false, 1) && r[1] == Block(24, 36, true, 0);
    assert r == [Block(0, 20, false, 1), Block(24, 36, true, 0)];
  }

  /** Carving 10 bytes skips the allocated block and splits the free one after it. */
  lemma ExampleSecondAllocation()
    ensures Allocate([Block(0, 20, false, 2), Block(24, 36, true, 0)], 10) ==
      ([Block(0, 20, false, 2), Block(24, 10, false, 1), Block(38, 22, true, 0)], Addr(28))
  {
    var s := [Block(0, 20, false, 2), Block(24, 36, true, 0)];
    assert FirstFit(s[1..], 10) == Some(0);
    assert FirstFit(s, 10) == Some(1);
    CarveShape(s, 1, 10, HeaderSize, 1);
    var r := Carve(s, 1, 10, HeaderSize, 1);
    assert |r| == 3 && r[0] == s[0] && r[1] == Block(24, 10, false, 1) && r[2] == Block(38, 22, true, 0);
    assert r == [Block(0, 20, false, 2), Block(24, 10, false, 1), Block(38, 22, true, 0)];
  }

  /**
   * The example run of the program: `a` takes 20 bytes, `b` shares it, `c`
   * takes 10 bytes; dropping `c`, `b` and then `a` leaves one free block
   * spanning the heap again.
   */
  lemma ExampleRun()
    ensures var s0 := [Block(0, HeapSize - HeaderSize, true, 0)];
      var (s1, a) := Allocate(s0, 20);
      && a == Addr(4) && s1 == [Block(0, 20, false, 1), Block(24, 36, true, 0)]
      && Payload(s1, HeaderSize, a)
      && var s2 := Retain(s1, a);
      && s2 == [Block(0, 20, false, 2), Block(24, 36, true, 0)]
      && var (s3, c) := Allocate(s2, 10);
      && c == Addr(28) && s3 == [Block(0, 20, false, 2), Block(24, 10, false, 1), Block(38, 22, true, 0)]
      && Payload(s3, HeaderSize, c)
      && var s4 := Drop(s3, c);
      && s4 == [Block(0, 20, false, 2), Block(24, 36, true, 0)]
      && Payload(s4, HeaderSize, a)
      && var s5 := Drop(s4, a);
      && s5 == [Block(0, 20, false, 1), Block(24, 36, true, 0)]
      && Payload(s5, HeaderSize, a)
      && Drop(s5, a) == s0
  {
    var s0 := [Block(0, HeapSize - HeaderSize, true, 0)];
    var s1 := [Block(0, 20, false, 1), Block(24, 36, true, 0)];
    var s2 := [Block(0, 20, false, 2), Block(24, 36, true, 0)];
    var s3 := [Block(0, 20, false, 2), Block(24, 10, false, 1), Block(38, 22, true, 0)];
    ExampleFirstAllocation();
    ExampleSecondAllocation();
    ExampleRetain(s1, s2);
    ExampleDropSplit(s2, s3);
    ExampleDropShared(s1, s2);
    ExampleDropLast(s0, s1);
  }

  /** Sharing `a` counts its block twice. */
  lemma ExampleRetain(s1: seq<Block>, s2: seq<Block>)
    requires s1 == [Block(0, 20, false, 1), Block(24, 36, true, 0)]
    requires s2 == [Block(0, 20, false, 2), Block(24, 36, true, 0)]
    ensures Payload(s1, HeaderSize, Addr(4)) && Retain(s1, Addr(4)) == s2
  {
    assert Tiles(s1, 0, HeaderSize, HeapSize);
    RetainAt(s1, 0);
    assert s1[0 := s1[0].(refs := 2)] == s2;
  }

  /** Dropping the only count of `c` frees it, and it merges with the free block after it. */
  lemma ExampleDropSplit(s2: seq<Block>, s3: seq<Block>)
    requires s2 == [Block(0, 20, false, 2), Block(24, 36, true, 0)]
    requires s3 == [Block(0, 20, false, 2), Block(24, 10, false, 1), Block(38, 22, true, 0)]
    ensures Payload(s3, HeaderSize, Addr(28)) && Drop(s3, Addr(28)) == s2
  {
    assert Tiles(s3, 0, HeaderSize, HeapSize);
    DropAt(s3, 1);
    var l3 := Lowered(s3, 1);
    assert l3 == [Block(0, 20, false, 2), Block(24, 10, false, 0), Block(38, 22, true, 0)];
    assert Tiles(l3, 0, HeaderSize, HeapSize);
    ReleaseAt(l3, 1);
    var f := Freed(l3, 1);
    assert f == [Block(0, 20, false, 2), Block(24, 10, true, 0), Block(38, 22, true, 0)];
    AbsorbShape(f, 1, HeaderSize);
    var r := Absorb(f, 1, HeaderSize);
    assert |r| == 2 && r[0] == s2[0] && r[1] == s2[1];
  }

  /** Dropping one of the two counts of `a` leaves it allocated. */
  lemma ExampleDropShared(s1: seq<Block>, s2: seq<Block>)
    requires s1 == [Block(0, 20, false, 1), Block(24, 36, true, 0)]
    requires s2 == [Block(0, 20, false, 2), Block(24, 36, true, 0)]
    ensures Payload(s2, HeaderSize, Addr(4)) && Drop(s2, Addr(4)) == s1
  {
    assert Tiles(s2, 0, HeaderSize, HeapSize);
    DropAt(s2, 0);
    assert Lowered(s2, 0) == s1;
  }

  /** Dropping the last count of `a` frees it, and it merges with the rest of the heap. */
  lemma ExampleDropLast(s0: seq<Block>, s1: seq<Block>)
    requires s0 == [Block(0, HeapSize - HeaderSize, true, 0)]
    requires s1 == [Block(0, 20, false, 1), Block(24, 36, true, 0)]
    ensures Payload(s1, HeaderSize, Addr(4)) && Drop(s1, Addr(4)) == s0
  {
    assert Tiles(s1, 0, HeaderSize, HeapSize);
    DropAt(s1, 0);
    var l1 := Lowered(s1, 0);
    assert l1 == [Block(0, 20, false, 0), Block(24, 36, true, 0)];
    assert Tiles(l1, 0, HeaderSize, HeapSize);
    ReleaseAt(l1, 0);
    var f := Freed(l1, 0);
    assert f == [Block(0, 20, true, 0), Block(24, 36, true, 0)];
    AbsorbShape(f, 0, HeaderSize);
    var r := Absorb(f, 0, HeaderSize);
    assert |r| == 1 && r[0] == s0[0];
  }

  // From header writes to the block list.

  /** Offsets strictly increase along the list, so no two blocks share a header. */
  predicate Increasing(bs: seq<Block>) {
    forall j, k :: 0 <= j < k < |bs| ==> bs[j].offset < bs[k].offset
  }

  /** A block kept from the old list, with the same successor, is still described by its unchanged header. */
  lemma Keeps(m: map<int, Header>, m': map<int, Header>, bs: seq<Block>, j: nat, r: seq<Block>, k: nat)
    requires j < |bs| && k < |r| && Describes(HeaderAt(m, bs[j].offset), bs, j)
    requires r[k] == bs[j] && Next(r, k) == Next(bs, j)
    requires HeaderAt(m', r[k].offset) == HeaderAt(m, bs[j].offset)
    ensures Describes(HeaderAt(m', r[k].offset), r, k)
  {
  }

  lemma RelabelAgrees(m: map<int, Header>, m': map<int, Header>, bs: seq<Block>, i: nat, b: Block)
    requires Agrees(m, bs) && Increasing(bs) && i < |bs|
    requires b.offset == bs[i].offset
    requires Describes(HeaderAt(m', b.offset), bs[i := b], i)
    requires forall o :: o != b.offset ==> HeaderAt(m', o) == HeaderAt(m, o)
    ensures Agrees(m', bs[i := b])
  {
    var r := bs[i := b];
    forall k | 0 <= k < |r| && k != i
      ensures Describes(HeaderAt(m', r[k].offset), r, k)
    {
      assert bs[k].offset != b.offset;
      Keeps(m, m', bs, k, r, k);
    }
  }

  /** Writing the header of block `i` with new flags or count relabels that block. */
  lemma RelabelChain(m: map<int, Header>, m': map<int, Header>, bs: seq<Block>, i: nat, b: Block)
    requires Chain(m, 0) == Some(bs) && i < |bs|
    requires b.offset == bs[i].offset && b.size == bs[i].size
    requires Describes(HeaderAt(m', b.offset), bs[i := b], i)
    requires forall o :: o != b.offset ==> HeaderAt(m', o) == HeaderAt(m, o)
    ensures Chain(m', 0) == Some(bs[i := b])
  {
    ChainSound(m, 0, bs);
    TilesOrdered(bs, 0, HeaderSize, HeapSize);
    RelabelTiles(bs, 0, HeaderSize, HeapSize, i, b);
    RelabelAgrees(m, m', bs, i, b);
    ChainComplete(m', 0, bs[i := b]);
  }

  /** The headers a carve writes: the carved block's, and that of the block cut from it, if any. */
  ghost predicate CarveWrites(m: map<int, Header>, m': map<int, Header>, bs: seq<Block>, i: nat, req: int)
    requires i < |bs|
  {
    forall o :: o != bs[i].offset && (bs[i].size - req <= HeaderSize || o != bs[i].offset + HeaderSize + req) ==>
      HeaderAt(m', o) == HeaderAt(m, o)
  }

  /** Carving keeps every other block, and its successor, only shifting the ones after it. */
  lemma CarveMoves(bs: seq<Block>, i: nat, req: int, refs: int, k: nat)
    requires i < |bs| && 0 <= req <= bs[i].size
    requires var d := if bs[i].size - req > HeaderSize then 1 else 0;
      k < |Carve(bs, i, req, HeaderSize, refs)| && (k < i || k > i + d)
    ensures var r := Carve(bs, i, req, HeaderSize, refs);
      var d := if bs[i].size - req > HeaderSize then 1 else 0;
      var j := if k < i then k else k - d;
      0 <= j < |bs| && (j < i || j > i) && r[k] == bs[j] && Next(r, k) == Next(bs, j)
  {
    var r := Carve(bs, i, req, HeaderSize, refs);
    var d := if bs[i].size - req > HeaderSize then 1 else 0;
    CarveShape(bs, i, req, HeaderSize, refs);
    if k + 1 < i {
      assert r[k + 1] == bs[k + 1];
    } else if k + 1 == i {
      assert r[k + 1].offset == bs[k + 1].offset;
    } else if k > i + d && k + 1 < |r| {
      assert r[k + 1] == bs[k + 1 - d];
    }
  }

  lemma CarveAgrees(m: map<int, Header>, m': map<int, Header>, bs: seq<Block>, i: nat, req: int, refs: int)
    requires Agrees(m, bs) && Increasing(bs) && i < |bs| && 0 <= req <= bs[i].size
    requires var r := Carve(bs, i, req, HeaderSize, refs);
      && Describes(HeaderAt(m', bs[i].offset), r, i)
      && (bs[i].size - req > HeaderSize ==> Describes(HeaderAt(m', bs[i].offset + HeaderSize + req), r, i + 1))
    requires CarveWrites(m, m', bs, i, req)
    requires bs[i].size - req > HeaderSize && i + 1 < |bs| ==> bs[i].offset + HeaderSize + req < bs[i + 1].offset
    ensures Agrees(m', Carve(bs, i, req, HeaderSize, refs))
  {
    var r := Carve(bs, i, req, HeaderSize, refs);
    var d := if bs[i].size - req > HeaderSize then 1 else 0;
    CarveShape(bs, i, req, HeaderSize, refs);
    forall k | 0 <= k < |r|
      ensures Describes(HeaderAt(m', r[k].offset), r, k)
    {
      if k < i || k > i + d {
        CarveMoves(bs, i, req, refs, k);
        var j := if k < i then k else k - d;
        assert bs[j].offset != bs[i].offset;
        if d == 1 && j > i + 1 {
          assert bs[j].offset > bs[i + 1].offset;
        }
        Keeps(m, m', bs, j, r, k);
      }
    }
  }

  /** Writing the headers of a carved block, and of the block cut from it, gives the carved chain. */
  lemma CarveChain(m: map<int, Header>, m': map<int, Header>, bs: seq<Block>, i: nat, req: int, refs: int)
    requires Chain(m, 0) == Some(bs) && i < |bs| && 0 <= req <= bs[i].size
    requires var r := Carve(bs, i, req, HeaderSize, refs);
      && Describes(HeaderAt(m', bs[i].offset), r, i)
      && (bs[i].size - req > HeaderSize ==> Describes(HeaderAt(m', bs[i].offset + HeaderSize + req), r, i + 1))
    requires CarveWrites(m, m', bs, i, req)
    ensures Chain(m', 0) == Some(Carve(bs, i, req, HeaderSize, refs))
  {
    ChainSound(m, 0, bs);
    TilesOrdered(bs, 0, HeaderSize, HeapSize);
    CarveTiles(bs, 0, HeaderSize, HeapSize, i, req, refs);
    if i + 1 < |bs| {
      assert bs[i + 1].offset == End(bs[i], HeaderSize);
    }
    CarveAgrees(m, m', bs, i, req, refs);
    ChainComplete(m', 0, Carve(bs, i, req, HeaderSize, refs));
  }

  lemma AbsorbAgrees(m: map<int, Header>, m': map<int, Header>, bs: seq<Block>, i: nat)
    requires Agrees(m, bs) && Increasing(bs) && i + 1 < |bs|
    requires Describes(HeaderAt(m', bs[i].offset), Absorb(bs, i, HeaderSize), i)
    requires forall o :: o != bs[i].offset ==> HeaderAt(m', o) == HeaderAt(m, o)
    ensures Agrees(m', Absorb(bs, i, HeaderSize))
  {
    var r := Absorb(bs, i, HeaderSize);
    AbsorbShape(bs, i, HeaderSize);
    forall k | 0 <= k < |r| && k != i
      ensures Describes(HeaderAt(m', r[k].offset), r, k)
    {
      if k < i {
        assert bs[k].offset < bs[i].offset;
        if k + 1 < i {
          assert Next(r, k) == Next(bs, k);
        }
        Keeps(m, m', bs, k, r, k);
      } else {
        assert bs[k + 1].offset > bs[i].offset;
        if k + 1 < |r| {
          assert r[k + 1] == bs[k + 2];
        }
        Keeps(m, m', bs, k + 1, r, k);
      }
    }
  }

  /** Rewriting the header of block `i` to span the block after it gives the merged chain. */
  lemma AbsorbChain(m: map<int, Header>, m': map<int, Header>, bs: seq<Block>, i: nat)
    requires Chain(m, 0) == Some(bs) && i + 1 < |bs|
    requires Describes(HeaderAt(m', bs[i].offset), Absorb(bs, i, HeaderSize), i)
    requires forall o :: o != bs[i].offset ==> HeaderAt(m', o) == HeaderAt(m, o)
    ensures Chain(m', 0) == Some(Absorb(bs, i, HeaderSize))
  {
    ChainSound(m, 0, bs);
    TilesOrdered(bs, 0, HeaderSize, HeapSize);
    AbsorbTiles(bs, 0, HeaderSize, HeapSize, i);
    AbsorbAgrees(m, m', bs, i);
    ChainComplete(m', 0, Absorb(bs, i, HeaderSize));
  }

  // What each step of the allocator reads, and what each of its writes does to the chain.

  /** The header of block `i` describes it, and its `next` is 0 exactly at the last block. */
  lemma HeaderOfBlock(m: map<int, Header>, bs: seq<Block>, i: nat)
    requires Chain(m, 0) == Some(bs) && i < |bs|
    ensures Describes(HeaderAt(m, bs[i].offset), bs, i)
    ensures 0 <= bs[i].offset && bs[i].size >= 0 && End(bs[i], HeaderSize) <= HeapSize
    ensures i + 1 < |bs| ==> bs[i + 1].offset == End(bs[i], HeaderSize)
    ensures HeaderAt(m, bs[i].offset).next == 0 <==> i + 1 == |bs|
  {
    ChainSound(m, 0, bs);
    TilesOrdered(bs, 0, HeaderSize, HeapSize);
  }

  /** What the search loop of `my_malloc` reads from the header of block `i`. */
  lemma SearchStep(m: map<int, Header>, bs: seq<Block>, i: nat, size: u8)
    requires Chain(m, 0) == Some(bs) && i < |bs|
    ensures var h := HeaderAt(m, bs[i].offset);
      && (h.isFree && h.size >= size <==> Fits(bs[i], size as int))
      && (h.next == 0 <==> i + 1 == |bs|)
      && (i + 1 < |bs| ==> h.next as int == bs[i + 1].offset < HeapSize)
  {
    HeaderOfBlock(m, bs, i);
    if i + 1 < |bs| {
      HeaderOfBlock(m, bs, i + 1);
    }
  }

  /**
   * The header at `ptr - sizeof(BlockHeader)` is that of the block the
   * pointer addresses; when that block is not the last, its `next` leads
   * to the header of the block after it, which fits with it in the heap.
   */
  lemma HeaderOfPayload(m: map<int, Header>, bs: seq<Block>, p: Ptr)
    requires p.Addr? && Chain(m, 0) == Some(bs) && Payload(bs, HeaderSize, p)
    ensures var i := BlockOf(bs, HeaderSize, p.index); var h := HeaderAt(m, p.index - HeaderSize);
      && Describes(h, bs, i)
      && (h.next == 0 <==> i + 1 == |bs|)
      && (i + 1 < |bs| ==> h.next as int > p.index - HeaderSize && Describes(HeaderAt(m, h.next as int), bs, i + 1))
      && (i + 1 < |bs| ==> bs[i].size + HeaderSize + bs[i + 1].size < HeapSize)
  {
    var i := BlockOf(bs, HeaderSize, p.index);
    HeaderOfBlock(m, bs, i);
    if i + 1 < |bs| {
      HeaderOfBlock(m, bs, i + 1);
    }
  }

  /** `block->ref_count++`. */
  lemma RetainWrite(m: map<int, Header>, bs: seq<Block>, p: Ptr, off: int, h: Header)
    requires p.Addr? && Chain(m, 0) == Some(bs) && Payload(bs, HeaderSize, p)
    requires off == p.index - HeaderSize && h == HeaderAt(m, off).(refCount := Succ8(HeaderAt(m, off).refCount as int) as u8)
    ensures Chain(m[off := h], 0) == Some(Retain(bs, p))
  {
    HeaderOfPayload(m, bs, p);
    var i := BlockOf(bs, HeaderSize, p.index);
    RelabelChain(m, m[off := h], bs, i, bs[i].(refs := Succ8(bs[i].refs)));
  }

  /** `block->ref_count--` on a count above zero. */
  lemma LowerWrite(m: map<int, Header>, bs: seq<Block>, p: Ptr, off: int, h: Header)
    requires p.Addr? && Chain(m, 0) == Some(bs) && Payload(bs, HeaderSize, p)
    requires off == p.index - HeaderSize && HeaderAt(m, off).refCount > 0
    requires h == HeaderAt(m, off).(refCount := HeaderAt(m, off).refCount - 1)
    ensures var i := BlockOf(bs, HeaderSize, p.index);
      bs[i].refs > 0 && Chain(m[off := h], 0) == Some(Lowered(bs, i))
  {
    HeaderOfPayload(m, bs, p);
    var i := BlockOf(bs, HeaderSize, p.index);
    RelabelChain(m, m[off := h], bs, i, Lowered(bs, i)[i]);
  }

  /** `block->is_free = 1` on an allocated block. */
  lemma MarkWrite(m: map<int, Header>, bs: seq<Block>, p: Ptr, off: int, h: Header)
    requires p.Addr? && Chain(m, 0) == Some(bs) && Payload(bs, HeaderSize, p)
    requires off == p.index - HeaderSize && h == HeaderAt(m, off).(isFree := true)
    ensures Chain(m[off := h], 0) == Some(Freed(bs, BlockOf(bs, HeaderSize, p.index)))
  {
    HeaderOfPayload(m, bs, p);
    var i := BlockOf(bs, HeaderSize, p.index);
    RelabelChain(m, m[off := h], bs, i, Freed(bs, i)[i]);
  }

  /** Which of the three outcomes of `my_free` the headers select. */
  lemma FreeCases(m: map<int, Header>, bs: seq<Block>, p: Ptr)
    requires p.Addr? && Chain(m, 0) == Some(bs) && Payload(bs, HeaderSize, p)
    ensures var i := BlockOf(bs, HeaderSize, p.index);
      var h := HeaderAt(m, p.index - HeaderSize);
      var merge := h.next != 0 && HeaderAt(m, h.next as int).isFree;
      && (h.isFree ==> Release(bs, p) == bs)
      && (!h.isFree && merge ==> i + 1 < |bs| && Release(bs, p) == Absorb(Freed(bs, i), i, HeaderSize))
      && (!h.isFree && !merge ==> Release(bs, p) == Freed(bs, i))
  {
    var i := BlockOf(bs, HeaderSize, p.index);
    HeaderOfPayload(m, bs, p);
    ChainSound(m, 0, bs);
    assert p == Addr(bs[i].offset + HeaderSize);
    ReleaseAt(bs, i);
  }

  /** `block->size += sizeof(BlockHeader) + next_block->size; block->next = next_block->next`. */
  lemma MergeWrite(m: map<int, Header>, bs: seq<Block>, i: nat, off: int, h: Header)
    requires Chain(m, 0) == Some(bs) && i + 1 < |bs| && off == bs[i].offset
    requires var b := HeaderAt(m, off); var n := HeaderAt(m, b.next as int);
      b.size as int + HeaderSize + n.size as int < HeapSize
      && h == b.(size := (b.size as int + HeaderSize + n.size as int) as u8, next := n.next)
    ensures Chain(m[off := h], 0) == Some(Absorb(bs, i, HeaderSize))
  {
    HeaderOfBlock(m, bs, i);
    HeaderOfBlock(m, bs, i + 1);
    AbsorbShape(bs, i, HeaderSize);
    if i + 2 < |bs| {
      assert Next(Absorb(bs, i, HeaderSize), i) == Next(bs, i + 1);
    }
    AbsorbChain(m, m[off := h], bs, i);
  }

  /** The whole block handed out: `is_free = 0`, `ref_count = 1`. */
  lemma TakeWrite(m: map<int, Header>, bs: seq<Block>, i: nat, req: int, off: int, h: Header)
    requires Chain(m, 0) == Some(bs) && i < |bs| && off == bs[i].offset
    requires 0 <= req <= bs[i].size && bs[i].size - req <= HeaderSize
    requires h == HeaderAt(m, off).(isFree := false, refCount := 1)
    ensures Chain(m[off := h], 0) == Some(Carve(bs, i, req, HeaderSize, 1))
  {
    HeaderOfBlock(m, bs, i);
    CarveShape(bs, i, req, HeaderSize, 1);
    if i + 1 < |bs| {
      assert Next(Carve(bs, i, req, HeaderSize, 1), i) == Next(bs, i);
    }
    CarveChain(m, m[off := h], bs, i, req, 1);
  }

  /**
   * The block split: the new free header at `off + 4 + req` takes the rest
   * of the payload and the old `next`; the carved header then gets the
   * request as its size, the new header as its `next`, `is_free = 0` and
   * `ref_count = 1`.
   */
  lemma SplitWrite(m: map<int, Header>, bs: seq<Block>, i: nat, req: int, off: int, newOff: int, hNew: Header, h: Header)
    requires Chain(m, 0) == Some(bs) && i < |bs| && off == bs[i].offset
    requires 0 <= req <= bs[i].size && bs[i].size - req > HeaderSize && newOff == off + HeaderSize + req
    requires var b := HeaderAt(m, off);
      && hNew.size as int == b.size as int - req - HeaderSize && hNew.isFree && hNew.next == b.next && hNew.refCount == 0
      && h.next as int == newOff && h.size as int == req && !h.isFree && h.refCount == 1
    ensures Chain(m[newOff := hNew][off := h], 0) == Some(Carve(bs, i, req, HeaderSize, 1))
  {
    HeaderOfBlock(m, bs, i);
    CarveShape(bs, i, req, HeaderSize, 1);
    var r := Carve(bs, i, req, HeaderSize, 1);
    var m' := m[newOff := hNew][off := h];
    assert HeaderAt(m', off) == h && HeaderAt(m', newOff) == hNew;
    if i + 1 < |bs| {
      assert Next(r, i + 1) == Next(bs, i);
    }
    CarveChain(m, m', bs, i, req, 1);
  }

  class Heap {
    /** The headers written into `heap`, by offset. */
    var headers: map<int, Header>

    /** The heap as static storage leaves it: all zero, no header written. */
    constructor ()
      ensures headers == map[]
    {
      headers := map[];
    }

    /** Either nothing has been written yet, or the chain from `free_list` tiles the heap. */
    predicate Valid()
      reads this
    {
      |headers| == 0 || Chain(headers, 0).Some?
    }

    /** The blocks along the chain; none before `init_heap`. */
    function Blocks(): seq<Block>
      reads this
    {
      match Chain(headers, 0)
      case Some(bs) => bs
      case None => []
    }

    /** `init_heap()`: one free block spanning the heap after its header. */
    method InitHeap()
      modifies this
      ensures Valid() && Blocks() == [Block(0, HeapSize - HeaderSize, true, 0)]
      ensures headers == old(headers)[FreeList as int := Header((HeapSize - HeaderSize) as u8, true, 0, 0)]
    {
      headers := headers[FreeList as int := Header((HeapSize - HeaderSize) as u8, true, 0, 0)];
      ChainLast(headers, 0);
    }

    /**
     * The body of `my_malloc`'s `if` once block `i`, at `offset`, fits: split
     * it when more than a header's worth is left over, mark it allocated
     * with a count of 1, and return its payload.
     */
    method Place(offset: u8, size: u8, ghost bs: seq<Block>, ghost i: nat) returns (p: Ptr)
      requires Chain(headers, 0) == Some(bs) && i < |bs| && offset as int == bs[i].offset && Fits(bs[i], size as int)
      modifies this
      ensures Chain(headers, 0) == Some(Carve(bs, i, size as int, HeaderSize, 1))
      ensures Valid() && Blocks() == Carve(bs, i, size as int, HeaderSize, 1)
      ensures p == Addr(offset as int + HeaderSize)
    {
      ghost var m := headers;
      HeaderOfBlock(m, bs, i);
      var current := HeaderAt(headers, offset as int);
      var remaining := current.size - size;
      var updated := current;
      if remaining as int > HeaderSize {
        var newOffset := offset + HeaderSize as u8 + size;
        var newBlock := Header(remaining - HeaderSize as u8, true, current.next, 0);
        headers := headers[newOffset as int := newBlock];
        updated := updated.(next := newOffset, size := size);
        updated := updated.(isFree := false, refCount := 1);
        SplitWrite(m, bs, i, size as int, offset as int, newOffset as int, newBlock, updated);
      } else {
        updated := updated.(isFree := false, refCount := 1);
        TakeWrite(m, bs, i, size as int, offset as int, updated);
      }
      headers := headers[offset as int := updated];
      return Addr(offset as int + HeaderSize);
    }

    /** The search loop of `my_malloc(size)`: walks the chain to the first free block big enough. */
    method FindFit(size: u8) returns (found: bool, offset: u8, ghost i: nat)
      requires Valid()
      ensures found <==> FirstFit(Blocks(), size as int).Some?
      ensures found ==> Chain(headers, 0) == Some(Blocks()) && FirstFit(Blocks(), size as int) == Some(i)
      ensures found ==> offset as int == Blocks()[i].offset
    {
      ghost var bs := Blocks();
      ghost var m := headers;
      var currentOffset := FreeList;
      if bs != [] {
        SearchStep(m, bs, 0, size);
        HeaderOfBlock(m, bs, 0);
      }
      i := 0;
      while currentOffset as int < HeapSize
        invariant bs == [] ==> |m| == 0 && currentOffset == 0
        invariant bs != [] ==> Chain(m, 0) == Some(bs) && i < |bs| && currentOffset as int == bs[i].offset < HeapSize
        invariant NoneFitBefore(bs, i, size as int)
        decreases |bs| - i
      {
        var current := HeaderAt(headers, currentOffset as int);
        if bs != [] {
          SearchStep(m, bs, i, size);
        }
        if current.isFree && current.size >= size {
          FirstFitAt(bs, i, size as int);
          return true, currentOffset, i;
        }
        assert NoneFitBefore(bs, i + 1, size as int);
        currentOffset := current.next;
        i := i + 1;
        if currentOffset == 0 {
          break;
        }
      }
      assert NoneFitBefore(bs, |bs|, size as int);
      return false, 0, 0;
    }

    /** `my_malloc(size)`: first fit, split when the rest can hold a header and a byte. */
    method Malloc(size: u8) returns (p: Ptr)
      requires Valid()
      modifies this
      ensures Valid()
      ensures (Blocks(), p) == Allocate(old(Blocks()), size as nat)
    {
      ghost var bs := Blocks();
      var found, offset, i := FindFit(size);
      if found {
        p := Place(offset, size, bs, i);
        AllocateFirstFit(bs, size as nat, i);
        assert Blocks() == Carve(bs, i, size as nat, HeaderSize, 1);
        assert p == Addr(bs[i].offset + HeaderSize);
        ghost var after := Blocks();
        assert (after, p) == Allocate(bs, size as nat);
      } else {
        p := Null;
        assert Blocks() == bs;
        assert (bs, p) == Allocate(bs, size as nat);
      }
    }

    /** `my_free(ptr)`. */
    method Free(ptr: Ptr)
      requires Valid() && Payload(Blocks(), HeaderSize, ptr)
      modifies this
      ensures Valid() && Blocks() == Release(old(Blocks()), ptr)
    {
      if ptr.Null? {
        return;
      }
      ghost var bs := Blocks();
      ghost var m := headers;
      ghost var i := BlockOf(bs, HeaderSize, ptr.index);
      var blockOffset := ptr.index - HeaderSize;
      var block := HeaderAt(headers, blockOffset);
      HeaderOfPayload(headers, bs, ptr);
      FreeCases(headers, bs, ptr);
      if !block.isFree {
        var marked := block.(isFree := true);
        MarkWrite(headers, bs, ptr, blockOffset, marked);
        headers := headers[blockOffset := marked];
        if marked.next != 0 {
          var nextBlock := HeaderAt(headers, marked.next as int);
          assert nextBlock == HeaderAt(m, block.next as int);
          if nextBlock.isFree {
            var merged := marked.(size := marked.size + HeaderSize as u8 + nextBlock.size, next := nextBlock.next);
            MergeWrite(headers, Freed(bs, i), i, blockOffset, merged);
            headers := headers[blockOffset := merged];
          }
        }
      }
    }

    /** `increment_ref(ptr)`. */
    method IncrementRef(ptr: Ptr)
      requires Valid() && Payload(Blocks(), HeaderSize, ptr)
      modifies this
      ensures Valid() && Blocks() == Retain(old(Blocks()), ptr)
    {
      if ptr.Null? {
        return;
      }
      var blockOffset := ptr.index - HeaderSize;
      var block := HeaderAt(headers, blockOffset);
      var updated := block.(refCount := if block.refCount == 255 then 0 else block.refCount + 1);
      RetainWrite(headers, Blocks(), ptr, blockOffset, updated);
      headers := headers[blockOffset := updated];
    }

    /** `decrement_ref(ptr)`. */
    method DecrementRef(ptr: Ptr)
      requires Valid() && Payload(Blocks(), HeaderSize, ptr)
      modifies this
      ensures Valid() && Blocks() == Drop(old(Blocks()), ptr)
    {
      if ptr.Null? {
        return;
      }
      ghost var bs := Blocks();
      ghost var i := BlockOf(bs, HeaderSize, ptr.index);
      var blockOffset := ptr.index - HeaderSize;
      var block := HeaderAt(headers, blockOffset);
      HeaderOfPayload(headers, bs, ptr);
      if block.refCount > 0 {
        var updated := block.(refCount := block.refCount - 1);
        LowerWrite(headers, bs, ptr, blockOffset, updated);
        headers := headers[blockOffset := updated];
        assert Lowered(bs, i)[i].offset + HeaderSize == ptr.index;
        if updated.refCount == 0 {
          Free(ptr);
        }
      }
    }
  }
}
