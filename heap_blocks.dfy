/**
 * The block layout shared by the three simulated heap allocators. Each of
 * them carves a fixed byte array into blocks, every block a header followed
 * by its payload, and chains the headers through their `next` fields. Here a
 * heap is seen as the list of its blocks in chain order; the allocators'
 * own header maps are read into such a list by their `Chain` functions.
 */
module HeapBlocks {
  import opened Wrappers

  /** `uint8_t`. */
  newtype u8 = x: int | 0 <= x < 256

  /** A pointer into the heap array, `&heap[index]`, or NULL. */
  datatype Ptr = Null | Addr(index: int)

  /**
   * A block as its header describes it: the offset of the header, the size
   * of the payload after it, whether it is free, and its reference count
   * (0 for allocators whose headers have none).
   */
  datatype Block = Block(offset: int, size: int, free: bool, refs: int)

  /** The offset just past the block's payload. */
  function End(b: Block, hdr: int): int {
    b.offset + hdr + b.size
  }

  /**
   * The blocks lie end to end: the first header is at `start`, each block's
   * payload ends where the next header begins, and the last one ends at
   * `total`, the size of the heap.
   */
  predicate Tiles(bs: seq<Block>, start: int, hdr: nat, total: int) {
    && |bs| > 0
    && bs[0].offset == start
    && (forall k :: 0 <= k < |bs| ==> bs[k].size >= 0)
    && (forall k :: 0 <= k < |bs| - 1 ==> End(bs[k], hdr) == bs[k + 1].offset)
    && End(bs[|bs| - 1], hdr) == total
  }

  /** The bytes the blocks take up, headers included. */
  function Footprint(bs: seq<Block>, hdr: nat): int {
    if |bs| == 0 then 0 else hdr + bs[0].size + Footprint(bs[1..], hdr)
  }

  /** Dropping the first block of a tiling leaves a tiling from where that block ends. */
  lemma TilesTail(bs: seq<Block>, start: int, hdr: nat, total: int)
    requires Tiles(bs, start, hdr, total) && |bs| > 1
    ensures Tiles(bs[1..], End(bs[0], hdr), hdr, total)
  {
    var t := bs[1..];
    forall k | 0 <= k < |t| - 1
      ensures End(t[k], hdr) == t[k + 1].offset
    {
      assert t[k] == bs[k + 1] && t[k + 1] == bs[k + 2];
    }
  }

  /** A block followed by a tiling from its end is a tiling. */
  lemma TilesCons(b: Block, rest: seq<Block>, hdr: nat, total: int)
    requires b.size >= 0 && Tiles(rest, End(b, hdr), hdr, total)
    ensures Tiles([b] + rest, b.offset, hdr, total)
  {
    var bs := [b] + rest;
    forall k | 0 <= k < |bs| - 1
      ensures End(bs[k], hdr) == bs[k + 1].offset
    {
      if k > 0 {
        assert bs[k] == rest[k - 1] && bs[k + 1] == rest[k];
      }
    }
    assert bs[|bs| - 1] == rest[|rest| - 1];
  }

  /** The chain covers the heap exactly: the blocks and their headers add up to the bytes from `start` to `total`. */
  lemma {:induction false} TilesCover(bs: seq<Block>, start: int, hdr: nat, total: int)
    requires Tiles(bs, start, hdr, total)
    ensures start + Footprint(bs, hdr) == total
    decreases |bs|
  {
    if |bs| > 1 {
      TilesTail(bs, start, hdr, total);
      TilesCover(bs[1..], End(bs[0], hdr), hdr, total);
    }
  }

  /** Offsets strictly increase along the chain, and every block lies inside the heap. */
  lemma {:induction false} TilesOrdered(bs: seq<Block>, start: int, hdr: nat, total: int)
    requires Tiles(bs, start, hdr, total) && hdr > 0
    ensures forall j, k :: 0 <= j < k < |bs| ==> bs[j].offset < bs[k].offset
    ensures forall k :: 0 <= k < |bs| ==> start <= bs[k].offset && End(bs[k], hdr) <= total
    decreases |bs|
  {
    if |bs| > 1 {
      TilesTail(bs, start, hdr, total);
      TilesOrdered(bs[1..], End(bs[0], hdr), hdr, total);
      forall k | 1 <= k < |bs|
        ensures start < bs[k].offset && End(bs[k], hdr) <= total
      {
        assert bs[k] == bs[1..][k - 1];
      }
      forall j, k | 0 <= j < k < |bs|
        ensures bs[j].offset < bs[k].offset
      {
        if j > 0 {
          assert bs[j] == bs[1..][j - 1] && bs[k] == bs[1..][k - 1];
        }
      }
    }
  }

  /** A block can serve a request: it is free and its payload is large enough. */
  predicate Fits(b: Block, req: int) {
    b.free && b.size >= req
  }

  /** The first block along the chain that can serve the request. */
  function FirstFit(bs: seq<Block>, req: int): (r: Option<nat>)
    ensures r.Some? ==> r.value < |bs| && Fits(bs[r.value], req)
    ensures r.Some? ==> forall j :: 0 <= j < r.value ==> !Fits(bs[j], req)
    ensures r.None? <==> forall j :: 0 <= j < |bs| ==> !Fits(bs[j], req)
  {
    if |bs| == 0 then None
    else if Fits(bs[0], req) then Some(0)
    else
      match FirstFit(bs[1..], req)
      case None => None
      case Some(k) => Some(k + 1)
  }

  /** None of the first `n` blocks fits `req` bytes. */
  predicate NoneFitBefore(bs: seq<Block>, n: nat, req: int) {
    forall j :: 0 <= j < n && j < |bs| ==> !Fits(bs[j], req)
  }

  /** A block that fits with none fitting before it is the first fit. */
  lemma FirstFitAt(bs: seq<Block>, i: nat, req: int)
    requires i < |bs| && Fits(bs[i], req) && NoneFitBefore(bs, i, req)
    ensures FirstFit(bs, req) == Some(i)
  {
    var r := FirstFit(bs, req);
    assert r.Some?;
    assert !(r.value < i) && !(i < r.value);
  }

  /**
   * Block `i` is handed out for `req` bytes with reference count `refs`:
   * when more than a header's worth is left over, a new free block is cut
   * from the tail of its payload; otherwise the whole block is handed out.
   */
  function Carve(bs: seq<Block>, i: nat, req: int, hdr: nat, refs: int): seq<Block>
    requires i < |bs| && 0 <= req <= bs[i].size
  {
    var b := bs[i];
    var rest := b.size - req;
    if rest > hdr then bs[..i] + [Block(b.offset, req, false, refs), Block(b.offset + hdr + req, rest - hdr, true, 0)] + bs[i + 1..]
    else bs[..i] + [b.(free := false, refs := refs)] + bs[i + 1..]
  }

  /** Carving leaves the blocks before `i` as they were and shifts the ones after it by the block it adds, if any. */
  lemma CarveShape(bs: seq<Block>, i: nat, req: int, hdr: nat, refs: int)
    requires i < |bs| && 0 <= req <= bs[i].size
    ensures var r := Carve(bs, i, req, hdr, refs);
      var d := if bs[i].size - req > hdr then 1 else 0;
      && |r| == |bs| + d
      && (forall k :: 0 <= k < i ==> r[k] == bs[k])
      && r[i].offset == bs[i].offset && !r[i].free && r[i].refs == refs
      && r[i].size == (if d == 1 then req else bs[i].size)
      && (d == 1 ==> r[i + 1] == Block(bs[i].offset + hdr + req, bs[i].size - req - hdr, true, 0))
      && (forall k :: i < k < |bs| ==> r[k + d] == bs[k])
  {
  }

  /** Carving a block keeps the tiling. */
  lemma CarveTiles(bs: seq<Block>, start: int, hdr: nat, total: int, i: nat, req: int, refs: int)
    requires Tiles(bs, start, hdr, total)
    requires i < |bs| && 0 <= req <= bs[i].size
    ensures Tiles(Carve(bs, i, req, hdr, refs), start, hdr, total)
  {
    var r := Carve(bs, i, req, hdr, refs);
    var d := if bs[i].size - req > hdr then 1 else 0;
    CarveShape(bs, i, req, hdr, refs);
    forall k | 0 <= k < |r| - 1
      ensures End(r[k], hdr) == r[k + 1].offset
    {
      if k == i + d {
        assert End(r[k], hdr) == End(bs[i], hdr) && r[k + 1] == bs[i + 1];
      } else if k > i + d {
        assert r[k] == bs[k - d] && r[k + 1] == bs[k + 1 - d];
      }
    }
    if |bs| - 1 > i {
      assert r[|r| - 1] == bs[|bs| - 1];
    }
  }

  /** Block `i` swallows the block after it: its payload grows by that block's header and payload. */
  function Absorb(bs: seq<Block>, i: nat, hdr: nat): seq<Block>
    requires i + 1 < |bs|
  {
    bs[..i] + [bs[i].(size := bs[i].size + hdr + bs[i + 1].size)] + bs[i + 2..]
  }

  lemma AbsorbShape(bs: seq<Block>, i: nat, hdr: nat)
    requires i + 1 < |bs|
    ensures var r := Absorb(bs, i, hdr);
      && |r| == |bs| - 1
      && (forall k :: 0 <= k < i ==> r[k] == bs[k])
      && r[i] == bs[i].(size := bs[i].size + hdr + bs[i + 1].size)
      && (forall k :: i + 1 < k < |bs| ==> r[k - 1] == bs[k])
  {
  }

  /** Merging two neighbours keeps the tiling, and so the bytes the chain covers. */
  lemma AbsorbTiles(bs: seq<Block>, start: int, hdr: nat, total: int, i: nat)
    requires Tiles(bs, start, hdr, total) && i + 1 < |bs|
    ensures Tiles(Absorb(bs, i, hdr), start, hdr, total)
  {
    var r := Absorb(bs, i, hdr);
    AbsorbShape(bs, i, hdr);
    forall k | 0 <= k < |r| - 1
      ensures End(r[k], hdr) == r[k + 1].offset
    {
      if k > i {
        assert r[k] == bs[k + 1] && r[k + 1] == bs[k + 2];
      } else if k == i {
        assert r[k + 1] == bs[k + 2];
      }
    }
    if i < |r| - 1 {
      assert r[|r| - 1] == bs[|bs| - 1];
    }
  }

  /** Rewriting the flags or the count of a block, not where it lies, keeps the tiling. */
  lemma RelabelTiles(bs: seq<Block>, start: int, hdr: nat, total: int, i: nat, b: Block)
    requires Tiles(bs, start, hdr, total) && i < |bs|
    requires b.offset == bs[i].offset && b.size == bs[i].size
    ensures Tiles(bs[i := b], start, hdr, total)
  {
    var r := bs[i := b];
    forall k | 0 <= k < |r| - 1
      ensures End(r[k], hdr) == r[k + 1].offset
    {
      assert End(r[k], hdr) == End(bs[k], hdr);
    }
  }

  /** `p` is NULL or the payload address of a block on the chain. */
  predicate Payload(bs: seq<Block>, hdr: nat, p: Ptr) {
    p.Null? || exists k :: 0 <= k < |bs| && bs[k].offset + hdr == p.index
  }

  /** The first block whose payload starts at `index`. */
  function BlockOf(bs: seq<Block>, hdr: nat, index: int): (k: nat)
    requires exists k :: 0 <= k < |bs| && bs[k].offset + hdr == index
    ensures k < |bs| && bs[k].offset + hdr == index
    ensures forall j :: 0 <= j < k ==> bs[j].offset + hdr != index
  {
    if bs[0].offset + hdr == index then 0
    else
      var k :| 0 <= k < |bs| && bs[k].offset + hdr == index;
      assert bs[1..][k - 1] == bs[k];
      BlockOf(bs[1..], hdr, index) + 1
  }

  /** No two blocks next to each other are both free. */
  predicate NoFreeNeighbours(bs: seq<Block>) {
    forall k :: 0 <= k < |bs| - 1 ==> !(bs[k].free && bs[k + 1].free)
  }

  /** The allocated blocks, in chain order. */
  function Allocated(bs: seq<Block>): seq<Block> {
    if |bs| == 0 then []
    else (if bs[0].free then [] else [bs[0]]) + Allocated(bs[1..])
  }

  /** Merging two free neighbours leaves the allocated blocks as they were. */
  lemma {:induction false} AbsorbKeepsAllocated(bs: seq<Block>, i: nat, hdr: nat)
    requires i + 1 < |bs| && bs[i].free && bs[i + 1].free
    ensures Allocated(Absorb(bs, i, hdr)) == Allocated(bs)
    decreases i
  {
    var r := Absorb(bs, i, hdr);
    AbsorbShape(bs, i, hdr);
    if i == 0 {
      assert r[1..] == bs[2..] && bs[1..][1..] == bs[2..];
    } else {
      AbsorbShape(bs[1..], i - 1, hdr);
      assert r[1..] == Absorb(bs[1..], i - 1, hdr);
      AbsorbKeepsAllocated(bs[1..], i - 1, hdr);
    }
  }
}
