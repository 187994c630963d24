/**
 * The first-fit allocator over a 1024-byte static heap, the first of the
 * three versions. Each block starts with a `BlockHeader` (a `size_t` size,
 * an `int` free flag and a pointer to the next header, 24 bytes on an LP64
 * target); `free_list` points at the first header once `init_heap` has
 * run. `my_malloc` rounds the request up to a multiple of 8, takes the
 * first free block big enough and splits it when more than a header is
 * left over; `my_free` only marks a block free.
 *
 * The heap array is modelled by the headers written into it, by offset;
 * a pointer into the heap is `Addr(offset)`, and a header never written
 * reads as the zero bytes of static storage.
 */
module HeapV1 {
  import opened Wrappers
  import opened HeapBlocks

  const HeapSize := 1024
  /** `sizeof(BlockHeader)` on LP64: 8 (size) + 4 (is_free) + 4 (padding) + 8 (next). */
  const HeaderSize := 24
  const Alignment := 8
  /** Values of `size_t` are taken modulo 2^64. */
  const Word := 0x1_0000_0000_0000_0000

  type Size = x: int | 0 <= x < Word

  datatype Header = Header(size: Size, isFree: bool, next: Ptr)

  /** Zero bytes read as a header: size 0, allocated, `next` NULL. */
  const Zeroed := Header(0, false, Null)

  function HeaderAt(m: map<int, Header>, off: int): Header {
    if off in m then m[off] else Zeroed
  }

  function View(off: int, h: Header): Block {
    Block(off, h.size, h.isFree, 0)
  }

  /**
   * The blocks met by following `next` from the header at `off`, or None
   * unless they lie end to end up to the end of the heap, each `next`
   * pointing just past its block's payload and the last one being NULL.
   */
  function Chain(m: map<int, Header>, off: nat): Option<seq<Block>>
    decreases HeapSize - off
  {
    if off >= HeapSize then None
    else
      var h := HeaderAt(m, off);
      var e := off + HeaderSize + h.size;
      if h.next.Null? then
        if e == HeapSize then Some([View(off, h)]) else None
      else if h.next == Addr(e) && e < HeapSize then
        match Chain(m, e)
        case None => None
        case Some(rest) => Some([View(off, h)] + rest)
      else None
  }

  /** The `next` field that block `i` of a chain must hold. */
  function Next(bs: seq<Block>, i: nat): Ptr
    requires i < |bs|
  {
    if i + 1 < |bs| then Addr(bs[i + 1].offset) else Null
  }

  predicate Describes(h: Header, bs: seq<Block>, i: nat)
    requires i < |bs|
  {
    h.size == bs[i].size && h.isFree == bs[i].free && h.next == Next(bs, i) && bs[i].refs == 0
  }

  /** The header at each block's offset describes that block. */
  predicate Agrees(m: map<int, Header>, bs: seq<Block>) {
    forall i :: 0 <= i < |bs| ==> Describes(HeaderAt(m, bs[i].offset), bs, i)
  }

  lemma AgreesTail(m: map<int, Header>, bs: seq<Block>)
    requires Agrees(m, bs) && |bs| > 0
    ensures Agrees(m, bs[1..])
  {
    var t := bs[1..];
    forall i | 0 <= i < |t|
      ensures Describes(HeaderAt(m, t[i].offset), t, i)
    {
      assert t[i] == bs[i + 1];
      assert Describes(HeaderAt(m, bs[i + 1].offset), bs, i + 1);
    }
  }

  /** A chain read from the headers tiles the heap from `off`, and its headers describe its blocks. */
  lemma {:induction false} ChainSound(m: map<int, Header>, off: nat, bs: seq<Block>)
    requires Chain(m, off) == Some(bs)
    ensures Tiles(bs, off, HeaderSize, HeapSize) && Agrees(m, bs)
    decreases HeapSize - off
  {
    var h := HeaderAt(m, off);
    var e := off + HeaderSize + h.size;
    if h.next.Addr? {
      var rest := Chain(m, e).value;
      ChainSound(m, e, rest);
      TilesCons(View(off, h), rest, HeaderSize, HeapSize);
      assert bs == [View(off, h)] + rest;
      forall i | 0 <= i < |bs|
        ensures Describes(HeaderAt(m, bs[i].offset), bs, i)
      {
        if i > 0 {
          assert bs[i] == rest[i - 1];
          assert Describes(HeaderAt(m, rest[i - 1].offset), rest, i - 1);
        }
      }
    }
  }

  /** The last header of a chain: `next` is NULL and the payload runs to the end of the heap. */
  lemma ChainLast(m: map<int, Header>, off: nat)
    requires off < HeapSize && HeaderAt(m, off).next.Null?
    requires off + HeaderSize + HeaderAt(m, off).size == HeapSize
    ensures Chain(m, off) == Some([View(off, HeaderAt(m, off))])
  {
  }

  /** A header whose `next` points just past its payload, at a chain, heads a chain one block longer. */
  lemma ChainLink(m: map<int, Header>, off: nat, rest: seq<Block>)
    requires off < HeapSize && HeaderAt(m, off).next == Addr(off + HeaderSize + HeaderAt(m, off).size)
    requires Chain(m, HeaderAt(m, off).next.index) == Some(rest)
    ensures Chain(m, off) == Some([View(off, HeaderAt(m, off))] + rest)
  {
  }

  /** Conversely, headers that describe a tiling are read back as that tiling. */
  lemma {:induction false} ChainComplete(m: map<int, Header>, off: nat, bs: seq<Block>)
    requires Tiles(bs, off, HeaderSize, HeapSize) && Agrees(m, bs)
    ensures Chain(m, off) == Some(bs)
    decreases |bs|
  {
    var h := HeaderAt(m, off);
    assert Describes(h, bs, 0);
    assert View(off, h) == bs[0];
    if |bs| == 1 {
      ChainLast(m, off);
      assert bs == [bs[0]];
    } else {
      TilesTail(bs, off, HeaderSize, HeapSize);
      AgreesTail(m, bs);
      ChainComplete(m, bs[1].offset, bs[1..]);
      ChainLink(m, off, bs[1..]);
      assert bs == [bs[0]] + bs[1..];
    }
  }

  // `ALIGN` and the allocator's operations on the block list.

  /**
   * The `ALIGN` macro on a 64-bit `size_t`: adding 7 wraps around, and
   * masking with `~7` clears the low three bits, which is taking away the
   * remainder by 8.
   */
  function AlignMask(s: bv64): (r: bv64)
    ensures r == (s + 7) - (s + 7) % 8
  {
    (s + 7) & !7
  }

  /** `ALIGN(size)` as written, on the values of `size_t`: the sum wraps modulo 2^64 before the low bits are cleared. */
  function AlignWrapped(s: Size): (r: Size)
    ensures r % Alignment == 0
  {
    var t := (s + Alignment - 1) % Word;
    t - t % Alignment
  }

  /** The rounding `ALIGN` is meant to do: the least multiple of 8 not below `s`, when that fits in a `size_t`. */
  function Align(s: Size): (r: Size)
    requires s <= Word - Alignment
    ensures r % Alignment == 0 && s <= r < s + Alignment
  {
    var t := s + Alignment - 1;
    t - t % Alignment
  }

  /** Except on the top seven values of `size_t` the macro does round up, and agrees with `Align`. */
  lemma AlignWrappedAgrees(s: Size)
    requires s <= Word - Alignment
    ensures AlignWrapped(s) == Align(s)
  {
  }

  /**
   * The first free block with at least `req` bytes is carved and handed
   * out, and the pointer is its payload; NULL, with nothing changed, when
   * there is none.
   */
  function Allocate(bs: seq<Block>, req: nat): (r: (seq<Block>, Ptr))
    ensures r.1 == Null <==> forall j :: 0 <= j < |bs| ==> !Fits(bs[j], req)
    ensures r.1 == Null ==> r.0 == bs
  {
    match FirstFit(bs, req)
    case None => (bs, Null)
    case Some(i) => (Carve(bs, i, req, HeaderSize, 0), Addr(bs[i].offset + HeaderSize))
  }

  /** Allocation carves the first block that fits and hands out the address just past its header. */
  lemma AllocateFirstFit(bs: seq<Block>, req: nat, i: nat)
    requires FirstFit(bs, req) == Some(i)
    ensures Allocate(bs, req) == (Carve(bs, i, req, HeaderSize, 0), Addr(bs[i].offset + HeaderSize))
  {
  }

  /** `my_malloc(size)` as written: NULL for 0, otherwise first fit for `ALIGN(size)`, wrapping included. */
  function AllocateAsWritten(bs: seq<Block>, size: Size): (r: (seq<Block>, Ptr))
    ensures r.1 == Null <==> size == 0 || forall j :: 0 <= j < |bs| ==> !Fits(bs[j], AlignWrapped(size))
    ensures r.1 == Null ==> r.0 == bs
  {
    if size == 0 then (bs, Null) else Allocate(bs, AlignWrapped(size))
  }

  /**
   * `my_malloc(size)` with the rounding guarded: a request too big to be
   * rounded within a `size_t` is refused with NULL, like one of 0 bytes.
   */
  function Request(bs: seq<Block>, size: Size): (r: (seq<Block>, Ptr))
    ensures r.1 == Null <==>
      size == 0 || size > Word - Alignment || forall j :: 0 <= j < |bs| ==> !Fits(bs[j], Align(size))
    ensures r.1 == Null ==> r.0 == bs
  {
    if size == 0 || size > Word - Alignment then (bs, Null) else Allocate(bs, Align(size))
  }

  /** The two agree on every request but the seven largest. */
  lemma RequestAgrees(bs: seq<Block>, size: Size)
    requires size <= Word - Alignment
    ensures Request(bs, size) == AllocateAsWritten(bs, size)
  {
    AlignWrappedAgrees(size);
  }

  /**
   * A pointer `my_malloc` hands out addresses an allocated block with room
   * for the request rounded up to a multiple of 8, and no earlier block
   * could have served it.
   */
  lemma RequestGrants(bs: seq<Block>, size: Size)
    requires Tiles(bs, 0, HeaderSize, HeapSize)
    ensures var (r, p) := Request(bs, size);
      && Tiles(r, 0, HeaderSize, HeapSize)
      && (p.Addr? ==>
        && size > 0
        && Payload(r, HeaderSize, p)
        && var k := BlockOf(r, HeaderSize, p.index);
        && !r[k].free && r[k].size >= Align(size) >= size
        && (forall j :: 0 <= j < |bs| && bs[j].offset < r[k].offset ==> !Fits(bs[j], Align(size))))
  {
    if size != 0 && size <= Word - Alignment {
      AllocateTiles(bs, Align(size));
      AllocateGrants(bs, Align(size));
    }
  }

  /**
   * The request of `SIZE_MAX` bytes, on a freshly initialised heap: `ALIGN`
   * wraps it to 0, so the code as written hands out a block of no bytes at
   * all, where the guarded version answers NULL.
   */
  lemma AlignOverflowExample()
    ensures var bs := [Block(0, HeapSize - HeaderSize, true, 0)];
      var (r, p) := AllocateAsWritten(bs, Word - 1);
      && p == Addr(HeaderSize) && Payload(r, HeaderSize, p)
      && r[BlockOf(r, HeaderSize, p.index)].size == 0
      && Request(bs, Word - 1) == (bs, Null)
  {
    var bs := [Block(0, HeapSize - HeaderSize, true, 0)];
    assert AlignWrapped(Word - 1) == 0;
    assert FirstFit(bs, 0) == Some(0);
    var r := Carve(bs, 0, 0, HeaderSize, 0);
    CarveShape(bs, 0, 0, HeaderSize, 0);
    assert r[0] == Block(0, 0, false, 0);
    assert BlockOf(r, HeaderSize, HeaderSize) == 0;
  }

  /** Block `i` marked free. */
  function Freed(bs: seq<Block>, i: nat): seq<Block>
    requires i < |bs|
  {
    bs[i := bs[i].(free := true)]
  }

  /** `my_free(ptr)`: the block is marked free, whatever it was; nothing is merged. */
  function Release(bs: seq<Block>, p: Ptr): (r: seq<Block>)
    requires Payload(bs, HeaderSize, p)
    ensures |r| == |bs|
    ensures forall j :: 0 <= j < |bs| ==> r[j].offset == bs[j].offset && r[j].size == bs[j].size && r[j].refs == bs[j].refs
    ensures p.Addr? ==> r[BlockOf(bs, HeaderSize, p.index)].free
  {
    if p.Null? then bs else Freed(bs, BlockOf(bs, HeaderSize, p.index))
  }

  /** The block at payload address `p` of a tiling is the one whose header sits just before it. */
  lemma BlockOfTiling(bs: seq<Block>, k: nat)
    requires Tiles(bs, 0, HeaderSize, HeapSize) && k < |bs|
    ensures Payload(bs, HeaderSize, Addr(bs[k].offset + HeaderSize))
    ensures BlockOf(bs, HeaderSize, bs[k].offset + HeaderSize) == k
  {
    TilesOrdered(bs, 0, HeaderSize, HeapSize);
    var j := BlockOf(bs, HeaderSize, bs[k].offset + HeaderSize);
    assert !(j < k) && !(k < j);
  }

  /** Allocation keeps the chain covering the heap. */
  lemma AllocateTiles(bs: seq<Block>, req: nat)
    requires Tiles(bs, 0, HeaderSize, HeapSize)
    ensures Tiles(Allocate(bs, req).0, 0, HeaderSize, HeapSize)
  {
    if FirstFit(bs, req).Some? {
      CarveTiles(bs, 0, HeaderSize, HeapSize, FirstFit(bs, req).value, req, 0);
    }
  }

  /**
   * A pointer handed out addresses an allocated block of at least the
   * requested size, and no block earlier in the heap could have served the
   * request.
   */
  lemma AllocateGrants(bs: seq<Block>, req: nat)
    requires Tiles(bs, 0, HeaderSize, HeapSize)
    ensures var (r, p) := Allocate(bs, req);
      p.Addr? ==>
        && Payload(r, HeaderSize, p)
        && var k := BlockOf(r, HeaderSize, p.index);
        && !r[k].free && r[k].size >= req
        && (forall j :: 0 <= j < |bs| && bs[j].offset < r[k].offset ==> !Fits(bs[j], req))
  {
    if FirstFit(bs, req).Some? {
      var i := FirstFit(bs, req).value;
      var r := Carve(bs, i, req, HeaderSize, 0);
      CarveTiles(bs, 0, HeaderSize, HeapSize, i, req, 0);
      CarveShape(bs, i, req, HeaderSize, 0);
      BlockOfTiling(r, i);
      TilesOrdered(bs, 0, HeaderSize, HeapSize);
      forall j | 0 <= j < |bs| && bs[j].offset < r[i].offset
        ensures !Fits(bs[j], req)
      {
        assert j < i;
      }
    }
  }

  /** Freeing keeps the chain covering the heap, and frees the block the pointer addresses and no other. */
  lemma ReleaseFrees(bs: seq<Block>, p: Ptr)
    requires Tiles(bs, 0, HeaderSize, HeapSize) && Payload(bs, HeaderSize, p)
    ensures Tiles(Release(bs, p), 0, HeaderSize, HeapSize)
    ensures p.Addr? ==> var k := BlockOf(bs, HeaderSize, p.index);
      Release(bs, p)[k].free && |Release(bs, p)| == |bs|
      && forall j :: 0 <= j < |bs| && j != k ==> Release(bs, p)[j] == bs[j]
  {
    if p.Addr? {
      var i := BlockOf(bs, HeaderSize, p.index);
      RelabelTiles(bs, 0, HeaderSize, HeapSize, i, bs[i].(free := true));
    }
  }

  /** Freeing a block handed out whole gives back the heap it was taken from. */
  lemma TakeUndone(bs: seq<Block>, i: nat, req: nat)
    requires i < |bs| && Fits(bs[i], req) && bs[i].refs == 0
    requires bs[i].size - req <= HeaderSize
    ensures Freed(Carve(bs, i, req, HeaderSize, 0), i) == bs
  {
    var f := Freed(Carve(bs, i, req, HeaderSize, 0), i);
    CarveShape(bs, i, req, HeaderSize, 0);
    forall k | 0 <= k < |bs|
      ensures f[k] == bs[k]
    {
    }
  }

  /**
   * Freeing what was just handed out gives back the heap it was taken from
   * when the block was handed out whole; a split block stays split, since
   * nothing in this version merges.
   */
  lemma AllocateRelease(bs: seq<Block>, req: nat)
    requires Tiles(bs, 0, HeaderSize, HeapSize) && forall j :: 0 <= j < |bs| ==> bs[j].refs == 0
    ensures var (r, p) := Allocate(bs, req);
      && Payload(r, HeaderSize, p)
      && (|r| == |bs| ==> Release(r, p) == bs)
      && (|r| == |bs| + 1 ==> |Release(r, p)| == |bs| + 1)
  {
    match FirstFit(bs, req)
    case None =>
    case Some(i) =>
      var r := Carve(bs, i, req, HeaderSize, 0);
      CarveTiles(bs, 0, HeaderSize, HeapSize, i, req, 0);
      BlockOfTiling(r, i);
      CarveShape(bs, i, req, HeaderSize, 0);
      assert Release(r, Addr(bs[i].offset + HeaderSize)) == Freed(r, i);
      if bs[i].size - req <= HeaderSize {
        TakeUndone(bs, i, req);
      }
  }

  /** Offsets strictly increase along the list, so no two blocks share a header. */
  predicate Increasing(bs: seq<Block>) {
    forall j, k :: 0 <= j < k < |bs| ==> bs[j].offset < bs[k].offset
  }

  /** A block kept from the old list, with the same successor, is still described by its unchanged header. */
  lemma Keeps(m: map<int, Header>, m': map<int, Header>, bs: seq<Block>, j: nat, r: seq<Block>, k: nat)
    requires j < |bs| && k < |r| && Describes(HeaderAt(m, bs[j].offset), bs, j)
    requires r[k] == bs[j] && Next(r, k) == Next(bs, j)
    requires HeaderAt(m', r[k].offset) == HeaderAt(m, bs[j].offset)
    ensures Describes(HeaderAt(m', r[k].offset), r, k)
  {
  }

  lemma RelabelAgrees(m: map<int, Header>, m': map<int, Header>, bs: seq<Block>, i: nat, b: Block)
    requires Agrees(m, bs) && Increasing(bs) && i < |bs|
    requires b.offset == bs[i].offset
    requires Describes(HeaderAt(m', b.offset), bs[i := b], i)
    requires forall o :: o != b.offset ==> HeaderAt(m', o) == HeaderAt(m, o)
    ensures Agrees(m', bs[i := b])
  {
    var r := bs[i := b];
    forall k | 0 <= k < |r| && k != i
      ensures Describes(HeaderAt(m', r[k].offset), r, k)
    {
      assert bs[k].offset != b.offset;
      Keeps(m, m', bs, k, r, k);
    }
  }

  /** Writing the header of block `i` with new flags or count relabels that block. */
  lemma RelabelChain(m: map<int, Header>, m': map<int, Header>, bs: seq<Block>, i: nat, b: Block)
    requires Chain(m, 0) == Some(bs) && i < |bs|
    requires b.offset == bs[i].offset && b.size == bs[i].size
    requires Describes(HeaderAt(m', b.offset), bs[i := b], i)
    requires forall o :: o != b.offset ==> HeaderAt(m', o) == HeaderAt(m, o)
    ensures Chain(m', 0) == Some(bs[i := b])
  {
    ChainSound(m, 0, bs);
    TilesOrdered(bs, 0, HeaderSize, HeapSize);
    RelabelTiles(bs, 0, HeaderSize, HeapSize, i, b);
    RelabelAgrees(m, m', bs, i, b);
    ChainComplete(m', 0, bs[i := b]);
  }

  /** The headers a carve writes: the carved block's, and that of the block cut from it, if any. */
  ghost predicate CarveWrites(m: map<int, Header>, m': map<int, Header>, bs: seq<Block>, i: nat, req: int)
    requires i < |bs|
  {
    forall o :: o != bs[i].offset && (bs[i].size - req <= HeaderSize || o != bs[i].offset + HeaderSize + req) ==>
      HeaderAt(m', o) == HeaderAt(m, o)
  }

  /** Carving keeps every other block, and its successor, only shifting the ones after it. */
  lemma CarveMoves(bs: seq<Block>, i: nat, req: int, refs: int, k: nat)
    requires i < |bs| && 0 <= req <= bs[i].size
    requires var d := if bs[i].size - req > HeaderSize then 1 else 0;
      k < |Carve(bs, i, req, HeaderSize, refs)| && (k < i || k > i + d)
    ensures var r := Carve(bs, i, req, HeaderSize, refs);
      var d := if bs[i].size - req > HeaderSize then 1 else 0;
      var j := if k < i then k else k - d;
      0 <= j < |bs| && (j < i || j > i) && r[k] == bs[j] && Next(r, k) == Next(bs, j)
  {
    var r := Carve(bs, i, req, HeaderSize, refs);
    var d := if bs[i].size - req > HeaderSize then 1 else 0;
    CarveShape(bs, i, req, HeaderSize, refs);
    if k + 1 < i {
      assert r[k + 1] == bs[k + 1];
    } else if k + 1 == i {
      assert r[k + 1].offset == bs[k + 1].offset;
    } else if k > i + d && k + 1 < |r| {
      assert r[k + 1] == bs[k + 1 - d];
    }
  }

  lemma CarveAgrees(m: map<int, Header>, m': map<int, Header>, bs: seq<Block>, i: nat, req: int, refs: int)
    requires Agrees(m, bs) && Increasing(bs) && i < |bs| && 0 <= req <= bs[i].size
    requires var r := Carve(bs, i, req, HeaderSize, refs);
      && Describes(HeaderAt(m', bs[i].offset), r, i)
      && (bs[i].size - req > HeaderSize ==> Describes(HeaderAt(m', bs[i].offset + HeaderSize + req), r, i + 1))
    requires CarveWrites(m, m', bs, i, req)
    requires bs[i].size - req > HeaderSize && i + 1 < |bs| ==> bs[i].offset + HeaderSize + req < bs[i + 1].offset
    ensures Agrees(m', Carve(bs, i, req, HeaderSize, refs))
  {
    var r := Carve(bs, i, req, HeaderSize, refs);
    var d := if bs[i].size - req > HeaderSize then 1 else 0;
    CarveShape(bs, i, req, HeaderSize, refs);
    forall k | 0 <= k < |r|
      ensures Describes(HeaderAt(m', r[k].offset), r, k)
    {
      if k < i || k > i + d {
        CarveMoves(bs, i, req, refs, k);
        var j := if k < i then k else k - d;
        assert bs[j].offset != bs[i].offset;
        if d == 1 && j > i + 1 {
          assert bs[j].offset > bs[i + 1].offset;
        }
        Keeps(m, m', bs, j, r, k);
      }
    }
  }

  /** Writing the headers of a carved block, and of the block cut from it, gives the carved chain. */
  lemma CarveChain(m: map<int, Header>, m': map<int, Header>, bs: seq<Block>, i: nat, req: int, refs: int)
    requires Chain(m, 0) == Some(bs) && i < |bs| && 0 <= req <= bs[i].size
    requires var r := Carve(bs, i, req, HeaderSize, refs);
      && Describes(HeaderAt(m', bs[i].offset), r, i)
      && (bs[i].size - req > HeaderSize ==> Describes(HeaderAt(m', bs[i].offset + HeaderSize + req), r, i + 1))
    requires CarveWrites(m, m', bs, i, req)
    ensures Chain(m', 0) == Some(Carve(bs, i, req, HeaderSize, refs))
  {
    ChainSound(m, 0, bs);
    TilesOrdered(bs, 0, HeaderSize, HeapSize);
    CarveTiles(bs, 0, HeaderSize, HeapSize, i, req, refs);
    if i + 1 < |bs| {
      assert bs[i + 1].offset == End(bs[i], HeaderSize);
    }
    CarveAgrees(m, m', bs, i, req, refs);
    ChainComplete(m', 0, Carve(bs, i, req, HeaderSize, refs));
  }

  // What each step of the allocator reads, and what each of its writes does to the chain.

  /** The header of block `i` describes it, and its `next` is NULL exactly at the last block. */
  lemma HeaderOfBlock(m: map<int, Header>, bs: seq<Block>, i: nat)
    requires Chain(m, 0) == Some(bs) && i < |bs|
    ensures Describes(HeaderAt(m, bs[i].offset), bs, i)
    ensures 0 <= bs[i].offset && bs[i].size >= 0 && End(bs[i], HeaderSize) <= HeapSize
    ensures i + 1 < |bs| ==> bs[i + 1].offset == End(bs[i], HeaderSize)
    ensures HeaderAt(m, bs[i].offset).next.Null? <==> i + 1 == |bs|
  {
    ChainSound(m, 0, bs);
    TilesOrdered(bs, 0, HeaderSize, HeapSize);
  }

  /** What the search loop of `my_malloc` reads from the header of block `i`. */
  lemma SearchStep(m: map<int, Header>, bs: seq<Block>, i: nat, size: Size)
    requires Chain(m, 0) == Some(bs) && i < |bs|
    ensures var h := HeaderAt(m, bs[i].offset);
      && (h.isFree && h.size >= size <==> Fits(bs[i], size))
      && (h.next.Null? <==> i + 1 == |bs|)
      && (i + 1 < |bs| ==> h.next == Addr(bs[i + 1].offset))
  {
    HeaderOfBlock(m, bs, i);
  }

  /** `block->is_free = 1` on the block a pointer addresses. */
  lemma MarkWrite(m: map<int, Header>, bs: seq<Block>, p: Ptr, off: int, h: Header)
    requires p.Addr? && Chain(m, 0) == Some(bs) && Payload(bs, HeaderSize, p)
    requires off == p.index - HeaderSize && h == HeaderAt(m, off).(isFree := true)
    ensures Chain(m[off := h], 0) == Some(Freed(bs, BlockOf(bs, HeaderSize, p.index)))
  {
    var i := BlockOf(bs, HeaderSize, p.index);
    HeaderOfBlock(m, bs, i);
    RelabelChain(m, m[off := h], bs, i, Freed(bs, i)[i]);
  }

  /** The whole block handed out: `is_free = 0`. */
  lemma TakeWrite(m: map<int, Header>, bs: seq<Block>, i: nat, req: int, off: int, h: Header)
    requires Chain(m, 0) == Some(bs) && i < |bs| && off == bs[i].offset
    requires 0 <= req <= bs[i].size && bs[i].size - req <= HeaderSize
    requires h == HeaderAt(m, off).(isFree := false)
    ensures Chain(m[off := h], 0) == Some(Carve(bs, i, req, HeaderSize, 0))
  {
    HeaderOfBlock(m, bs, i);
    CarveShape(bs, i, req, HeaderSize, 0);
    if i + 1 < |bs| {
      assert Next(Carve(bs, i, req, HeaderSize, 0), i) == Next(bs, i);
    }
    CarveChain(m, m[off := h], bs, i, req, 0);
  }

  /**
   * The block split: the new free header at `current + 24 + size` takes the
   * rest of the payload and the old `next`; the carved header then gets the
   * request as its size, the new header as its `next`, and `is_free = 0`.
   */
  lemma SplitWrite(m: map<int, Header>, bs: seq<Block>, i: nat, req: int, off: int, newOff: int, hNew: Header, h: Header)
    requires Chain(m, 0) == Some(bs) && i < |bs| && off == bs[i].offset
    requires 0 <= req <= bs[i].size && bs[i].size - req > HeaderSize && newOff == off + HeaderSize + req
    requires var b := HeaderAt(m, off);
      && hNew.size == b.size - req - HeaderSize && hNew.isFree && hNew.next == b.next
      && h.next == Addr(newOff) && h.size == req && !h.isFree
    ensures Chain(m[newOff := hNew][off := h], 0) == Some(Carve(bs, i, req, HeaderSize, 0))
  {
    HeaderOfBlock(m, bs, i);
    CarveShape(bs, i, req, HeaderSize, 0);
    var r := Carve(bs, i, req, HeaderSize, 0);
    var m' := m[newOff := hNew][off := h];
    assert HeaderAt(m', off) == h && HeaderAt(m', newOff) == hNew;
    if i + 1 < |bs| {
      assert Next(r, i + 1) == Next(bs, i);
    }
    CarveChain(m, m', bs, i, req, 0);
  }

  class Heap {
    /** The headers written into `heap`, by offset. */
    var headers: map<int, Header>
    /** `free_list`: NULL until `init_heap`, then the first byte of the heap. */
    var freeList: Ptr

    /** The heap as static storage leaves it: all zero, `free_list` NULL. */
    constructor ()
      ensures headers == map[] && freeList == Null
    {
      headers := map[];
      freeList := Null;
    }

    /** Either `init_heap` has not run, or the chain from `free_list` tiles the heap. */
    predicate Valid()
      reads this
    {
      freeList.Null? || (freeList == Addr(0) && Chain(headers, 0).Some?)
    }

    /** The blocks along the chain from `free_list`; none before `init_heap`. */
    function Blocks(): seq<Block>
      reads this
    {
      if freeList.Null? then []
      else match Chain(headers, 0)
        case Some(bs) => bs
        case None => []
    }

    /** `init_heap()`: one free block spanning the heap after its header. */
    method InitHeap()
      modifies this
      ensures Valid() && Blocks() == [Block(0, HeapSize - HeaderSize, true, 0)]
      ensures freeList == Addr(0) && headers == old(headers)[0 := Header(HeapSize - HeaderSize, true, Null)]
    {
      freeList := Addr(0);
      headers := headers[freeList.index := Header(HeapSize - HeaderSize, true, Null)];
      ChainLast(headers, 0);
    }

    /**
     * The body of `my_malloc`'s `if` once block `i`, at `current`, fits:
     * split it when more than a header is left over, mark it allocated, and
     * return its payload.
     */
    method Place(current: Ptr, size: Size, ghost bs: seq<Block>, ghost i: nat) returns (p: Ptr)
      requires freeList == Addr(0) && Chain(headers, 0) == Some(bs) && i < |bs|
      requires current == Addr(bs[i].offset) && Fits(bs[i], size)
      modifies this
      ensures Valid() && Blocks() == Carve(bs, i, size, HeaderSize, 0)
      ensures p == Addr(current.index + HeaderSize)
    {
      ghost var m := headers;
      HeaderOfBlock(m, bs, i);
      var block := HeaderAt(headers, current.index);
      var remaining := block.size - size;
      if remaining > HeaderSize {
        var newBlock := Addr(current.index + HeaderSize + size);
        var created := Header(remaining - HeaderSize, true, block.next);
        headers := headers[newBlock.index := created];
        block := block.(next := newBlock, size := size);
        block := block.(isFree := false);
        SplitWrite(m, bs, i, size, current.index, newBlock.index, created, block);
      } else {
        block := block.(isFree := false);
        TakeWrite(m, bs, i, size, current.index, block);
      }
      headers := headers[current.index := block];
      return Addr(current.index + HeaderSize);
    }

    /** The search loop of `my_malloc(size)`: walks the list from `free_list` to the first free block big enough. */
    method FindFit(size: Size) returns (current: Ptr, ghost i: nat)
      requires Valid()
      ensures current.Addr? <==> FirstFit(Blocks(), size).Some?
      ensures current.Addr? ==> freeList == Addr(0) && Chain(headers, 0) == Some(Blocks())
      ensures current.Addr? ==> FirstFit(Blocks(), size) == Some(i) && current == Addr(Blocks()[i].offset)
    {
      ghost var bs := Blocks();
      ghost var m := headers;
      current := freeList;
      i := 0;
      while current.Addr?
        invariant bs == [] ==> current.Null?
        invariant bs != [] ==> freeList == Addr(0) && Chain(m, 0) == Some(bs) && i <= |bs|
        invariant bs != [] ==> (i < |bs| <==> current.Addr?) && (i < |bs| ==> current == Addr(bs[i].offset))
        invariant NoneFitBefore(bs, i, size)
        decreases |bs| - i
      {
        SearchStep(m, bs, i, size);
        var block := HeaderAt(headers, current.index);
        if block.isFree && block.size >= size {
          FirstFitAt(bs, i, size);
          return;
        }
        assert NoneFitBefore(bs, i + 1, size);
        current := block.next;
        i := i + 1;
      }
      assert NoneFitBefore(bs, |bs|, size);
    }

    /**
     * `my_malloc(size)`: NULL for 0 bytes, otherwise first fit for the
     * request rounded up to a multiple of 8, split when the rest can hold
     * a header and more. A request too big to round within a `size_t` is
     * refused with NULL rather than wrapped.
     */
    method Malloc(size: Size) returns (p: Ptr)
      requires Valid()
      modifies this
      ensures Valid()
      ensures (Blocks(), p) == Request(old(Blocks()), size)
    {
      if size == 0 || size > Word - Alignment {
        return Null;
      }
      ghost var bs := Blocks();
      var aligned := Align(size);
      var current, i := FindFit(aligned);
      if current.Addr? {
        p := Place(current, aligned, bs, i);
        AllocateFirstFit(bs, aligned, i);
        assert Blocks() == Carve(bs, i, aligned, HeaderSize, 0);
        assert p == Addr(bs[i].offset + HeaderSize);
        ghost var after := Blocks();
        assert (after, p) == Allocate(bs, aligned);
      } else {
        p := Null;
        assert Blocks() == bs;
        assert (bs, p) == Allocate(bs, aligned);
      }
    }

    /** `my_free(ptr)`. */
    method Free(ptr: Ptr)
      requires Valid() && Payload(Blocks(), HeaderSize, ptr)
      modifies this
      ensures Valid() && Blocks() == Release(old(Blocks()), ptr)
    {
      if ptr.Null? {
        return;
      }
      var block := Addr(ptr.index - HeaderSize);
      var marked := HeaderAt(headers, block.index).(isFree := true);
      MarkWrite(headers, Blocks(), ptr, block.index, marked);
      headers := headers[block.index := marked];
    }
  }
}
