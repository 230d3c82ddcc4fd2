/**
 Re-chunking on resume: the ranges still missing are cut into scheduling blocks
 (pkg/sched/download.go, chunkBlocks) of an adaptive size (pkg/transfer/downloader.go).
 */
module Chunking {
  import opened Base
  import opened Intervals

  datatype Block = Block(idx: int, offset: int, length: int) {
    function End(): int { offset + length }
  }

  function Cut(start: int, end: int, blockSize: int, idx: int): seq<Block>
    requires blockSize > 0
    decreases end - start
  {
    if start >= end then [] else
      var e := Min(start + blockSize, end);
      [Block(idx, start, e - start)] + Cut(e, end, blockSize, idx + 1)
  }

  function ChunkBlocks(bounds: seq<Interval>, blockSize: int, idx: int): seq<Block>
    requires blockSize > 0
  {
    if bounds == [] then [] else
      var first := Cut(bounds[0].start, bounds[0].end, blockSize, idx);
      first + ChunkBlocks(bounds[1..], blockSize, idx + |first|)
  }

  function Ranges(blocks: seq<Block>): seq<Interval> {
    if blocks == [] then []
    else [Interval(blocks[0].offset, blocks[0].End())] + Ranges(blocks[1..])
  }

  function Lengths(blocks: seq<Block>): int {
    if blocks == [] then 0 else blocks[0].length + Lengths(blocks[1..])
  }

  /** Non-empty, at most blockSize long, numbered consecutively, in order without overlap. */
  predicate Layout(blocks: seq<Block>, blockSize: int, idx: int, floor: int) {
    blocks == [] ||
    (&& blocks[0].idx == idx
     && 0 < blocks[0].length <= blockSize
     && floor <= blocks[0].offset
     && Layout(blocks[1..], blockSize, idx + 1, blocks[0].End()))
  }

  lemma {:induction false} RangesConcat(a: seq<Block>, b: seq<Block>)
    ensures Ranges(a + b) == Ranges(a) + Ranges(b)
    ensures Lengths(a + b) == Lengths(a) + Lengths(b)
  {
    if a == [] {
      assert a + b == b;
    } else {
      assert (a + b)[1..] == a[1..] + b;
      RangesConcat(a[1..], b);
    }
  }

  lemma BlockBytesConcat(a: seq<Block>, b: seq<Block>)
    ensures Bytes(Ranges(a + b)) == Bytes(Ranges(a)) + Bytes(Ranges(b))
  {
    RangesConcat(a, b);
    BytesConcat(Ranges(a), Ranges(b));
  }

  lemma OneBlockBytes(b: Block)
    ensures Bytes(Ranges([b])) == Range(b.offset, b.End())
  {
  }

  lemma {:induction false} CutPartition(start: int, end: int, blockSize: int, idx: int)
    requires blockSize > 0
    ensures Bytes(Ranges(Cut(start, end, blockSize, idx))) == Range(start, end)
    ensures Lengths(Cut(start, end, blockSize, idx)) == Max(end - start, 0)
    decreases end - start
  {
    if start < end {
      var e := Min(start + blockSize, end);
      var rest := Cut(e, end, blockSize, idx + 1);
      CutPartition(e, end, blockSize, idx + 1);
      var b := Block(idx, start, e - start);
      BlockBytesConcat([b], rest);
      OneBlockBytes(b);
      assert Range(start, end) == Range(start, e) + Range(e, end);
    }
  }

  /** Blocks of one range come before `end`; the rest of the list may start there. */
  lemma {:induction false} CutLayout(start: int, end: int, blockSize: int, idx: int, floor: int, rest: seq<Block>)
    requires blockSize > 0 && floor <= start <= end
    requires Layout(rest, blockSize, idx + |Cut(start, end, blockSize, idx)|, end)
    ensures Layout(Cut(start, end, blockSize, idx) + rest, blockSize, idx, floor)
    decreases end - start
  {
    var cut := Cut(start, end, blockSize, idx);
    if start < end {
      var e := Min(start + blockSize, end);
      CutLayout(e, end, blockSize, idx + 1, e, rest);
      assert (cut + rest)[1..] == Cut(e, end, blockSize, idx + 1) + rest;
    } else {
      assert cut + rest == rest;
      LayoutFloor(rest, blockSize, idx, end, floor);
    }
  }

  lemma LayoutFloor(blocks: seq<Block>, blockSize: int, idx: int, floor: int, lower: int)
    requires Layout(blocks, blockSize, idx, floor) && lower <= floor
    ensures Layout(blocks, blockSize, idx, lower)
  {
  }

  lemma {:induction false} ChunkBytes(bounds: seq<Interval>, blockSize: int, idx: int)
    requires blockSize > 0
    ensures Bytes(Ranges(ChunkBlocks(bounds, blockSize, idx))) == Bytes(bounds)
  {
    if bounds != [] {
      var first := Cut(bounds[0].start, bounds[0].end, blockSize, idx);
      ChunkBytes(bounds[1..], blockSize, idx + |first|);
      assert ChunkBlocks(bounds, blockSize, idx) == first + ChunkBlocks(bounds[1..], blockSize, idx + |first|);
      CutThenBytes(first, ChunkBlocks(bounds[1..], blockSize, idx + |first|), bounds[0], blockSize, idx);
    }
  }

  lemma CutThenBytes(first: seq<Block>, rest: seq<Block>, iv: Interval, blockSize: int, idx: int)
    requires blockSize > 0 && first == Cut(iv.start, iv.end, blockSize, idx)
    ensures Bytes(Ranges(first + rest)) == Range(iv.start, iv.end) + Bytes(Ranges(rest))
  {
    CutPartition(iv.start, iv.end, blockSize, idx);
    BlockBytesConcat(first, rest);
  }

  lemma {:induction false} ChunkLengths(bounds: seq<Interval>, blockSize: int, idx: int)
    requires blockSize > 0 && Canonical(bounds)
    ensures Lengths(ChunkBlocks(bounds, blockSize, idx)) == Total(bounds)
  {
    if bounds != [] {
      var first := Cut(bounds[0].start, bounds[0].end, blockSize, idx);
      CutPartition(bounds[0].start, bounds[0].end, blockSize, idx);
      ChunkLengths(bounds[1..], blockSize, idx + |first|);
      RangesConcat(first, ChunkBlocks(bounds[1..], blockSize, idx + |first|));
    }
  }

  lemma {:induction false} ChunkLayout(bounds: seq<Interval>, blockSize: int, idx: int, floor: int)
    requires blockSize > 0 && Canonical(bounds)
    requires bounds != [] ==> floor <= bounds[0].start
    ensures Layout(ChunkBlocks(bounds, blockSize, idx), blockSize, idx, floor)
  {
    if bounds != [] {
      var first := Cut(bounds[0].start, bounds[0].end, blockSize, idx);
      ChunkLayout(bounds[1..], blockSize, idx + |first|, bounds[0].end);
      CutLayout(bounds[0].start, bounds[0].end, blockSize, idx, floor,
                ChunkBlocks(bounds[1..], blockSize, idx + |first|));
    }
  }

  /** What a layout means position by position: sizes, numbering, and pairwise disjointness. */
  lemma {:induction false} LayoutPairwise(blocks: seq<Block>, blockSize: int, idx: int, floor: int, i: int, j: int)
    requires Layout(blocks, blockSize, idx, floor) && 0 <= i <= j < |blocks|
    ensures floor <= blocks[i].offset && 0 < blocks[j].length <= blockSize && blocks[j].idx == idx + j
    ensures i < j ==> blocks[i].End() <= blocks[j].offset
    decreases j
  {
    if 0 < i {
      LayoutPairwise(blocks[1..], blockSize, idx + 1, blocks[0].End(), i - 1, j - 1);
    } else if 0 < j {
      LayoutPairwise(blocks[1..], blockSize, idx + 1, blocks[0].End(), 0, j - 1);
      LayoutPairwise(blocks[1..], blockSize, idx + 1, blocks[0].End(), j - 1, j - 1);
    }
  }

  /** One range: every block is full but the last, which ends with the range, and no block is wasted. */
  lemma {:induction false} CutFull(start: int, end: int, blockSize: int, idx: int)
    requires blockSize > 0
    ensures var cut := Cut(start, end, blockSize, idx);
            && Numbered(cut, idx)
            && (forall i | 0 <= i < |cut| ::
                  cut[i].length == blockSize || (i == |cut| - 1 && cut[i].End() == end))
            && (if start < end then (|cut| - 1) * blockSize < end - start <= |cut| * blockSize else cut == [])
    decreases end - start
  {
    if start < end {
      var e := Min(start + blockSize, end);
      CutFull(e, end, blockSize, idx + 1);
      var cut, rest := Cut(start, end, blockSize, idx), Cut(e, end, blockSize, idx + 1);
      assert cut[1..] == rest && |cut| * blockSize == |rest| * blockSize + blockSize;
      assert forall i | 1 <= i < |cut| :: cut[i] == rest[i - 1];
      assert (|rest| - 1) * blockSize == |rest| * blockSize - blockSize;
    }
  }

  predicate Numbered(blocks: seq<Block>, idx: int) { forall i | 0 <= i < |blocks| :: blocks[i].idx == idx + i }

  lemma {:induction false} ChunkNumbered(bounds: seq<Interval>, blockSize: int, idx: int)
    requires blockSize > 0
    ensures Numbered(ChunkBlocks(bounds, blockSize, idx), idx)
  {
    if bounds != [] {
      var first := Cut(bounds[0].start, bounds[0].end, blockSize, idx);
      CutFull(bounds[0].start, bounds[0].end, blockSize, idx);
      ChunkNumbered(bounds[1..], blockSize, idx + |first|);
    }
  }

  /** One of the missing ranges ends at x. */
  predicate EndsRange(bounds: seq<Interval>, x: int) { exists k | 0 <= k < |bounds| :: bounds[k].end == x }

  /** The fewest blocks of at most blockSize bytes that can hold n bytes. */
  function Fewest(n: int, blockSize: int): (k: nat)
    requires blockSize > 0
    ensures n <= 0 ==> k == 0
    ensures 0 < n ==> (k - 1) * blockSize < n <= k * blockSize
  {
    if n <= 0 then 0 else CeilDiv(n, blockSize); (n + blockSize - 1) / blockSize
  }

  lemma CeilDiv(n: int, d: int)
    requires 0 < n && 0 < d
    ensures var k := (n + d - 1) / d; 0 <= k && (k - 1) * d < n <= k * d
  {
    var k := (n + d - 1) / d;
    assert n + d - 1 == k * d + (n + d - 1) % d;
    assert (k - 1) * d == k * d - d;
  }

  function FewestFor(bounds: seq<Interval>, blockSize: int): nat
    requires blockSize > 0
  {
    if bounds == [] then 0
    else Fewest(bounds[0].end - bounds[0].start, blockSize) + FewestFor(bounds[1..], blockSize)
  }

  lemma TimesOrdered(a: int, b: int, d: int)
    requires 0 < d
    ensures a <= b ==> a * d <= b * d
  {
    if a <= b { assert (b - a) * d == b * d - a * d; }
  }

  lemma SameCeil(a: int, b: int, n: int, d: int)
    requires 0 < d && (a - 1) * d < n <= a * d && (b - 1) * d < n <= b * d
    ensures a == b
  {
    TimesOrdered(a, b - 1, d);
    TimesOrdered(b, a - 1, d);
  }

  /** Only a block that ends one of the ranges may be short, and each range has as few blocks as it can. */
  lemma {:induction false} ChunkFull(bounds: seq<Interval>, blockSize: int, idx: int)
    requires blockSize > 0
    ensures var blocks := ChunkBlocks(bounds, blockSize, idx);
            && (forall i | 0 <= i < |blocks| :: blocks[i].length == blockSize || EndsRange(bounds, blocks[i].End()))
            && |blocks| == FewestFor(bounds, blockSize)
  {
    if bounds != [] {
      var iv := bounds[0];
      var first := Cut(iv.start, iv.end, blockSize, idx);
      var rest := ChunkBlocks(bounds[1..], blockSize, idx + |first|);
      CutFull(iv.start, iv.end, blockSize, idx);
      if iv.start < iv.end { SameCeil(|first|, Fewest(iv.end - iv.start, blockSize), iv.end - iv.start, blockSize); }
      ChunkFull(bounds[1..], blockSize, idx + |first|);
      var blocks: seq<Block> := first + rest;
      forall i | 0 <= i < |blocks| && blocks[i].length != blockSize ensures EndsRange(bounds, blocks[i].End())
      {
        if |first| <= i {
          var k :| 0 <= k < |bounds[1..]| && bounds[1..][k].end == rest[i - |first|].End();
          assert bounds[k + 1].end == blocks[i].End();
        } else {
          assert bounds[0].end == blocks[i].End();
        }
      }
    }
  }

  /** The ranges cut up: the same bytes in as few blocks as can be, numbered in order, short only at a range's end. */
  predicate Chunked(bounds: seq<Interval>, blockSize: int, idx: int, blocks: seq<Block>)
    requires blockSize > 0
  {
    && Bytes(Ranges(blocks)) == Bytes(bounds) && |blocks| == FewestFor(bounds, blockSize)
    && Numbered(blocks, idx)
    && (forall i | 0 <= i < |blocks| :: blocks[i].length == blockSize || EndsRange(bounds, blocks[i].End()))
  }

  lemma ChunkMeaning(bounds: seq<Interval>, blockSize: int, idx: int)
    requires blockSize > 0
    ensures Chunked(bounds, blockSize, idx, ChunkBlocks(bounds, blockSize, idx))
  {
    ChunkBytes(bounds, blockSize, idx);
    ChunkFull(bounds, blockSize, idx);
    ChunkNumbered(bounds, blockSize, idx);
  }

  /**
   Resume partition: the recorded bytes and the new blocks split [0, total) exactly, byte for
   byte and in total length, and writing the blocks leaves nothing missing.
   */
  lemma ResumePartition(iv: seq<Interval>, total: int, blockSize: int, idx: int)
    requires Canonical(iv) && Within(iv, total) && total > 0 && blockSize > 0
    ensures var blocks := ChunkBlocks(Complement(iv, 0, total), blockSize, idx);
            && Bytes(Ranges(blocks)) == Range(0, total) - Bytes(iv)
            && Bytes(Ranges(blocks)) + Bytes(iv) == Range(0, total)
            && Total(iv) + Lengths(blocks) == total
            && Layout(blocks, blockSize, idx, 0)
            && Complement(InsertAll(iv, Ranges(blocks)), 0, total) == []
  {
    var missing := Complement(iv, 0, total);
    MissingMeaning(iv, total);
    WithinBytes(iv, total);
    ChunkBytes(missing, blockSize, idx);
    ChunkLengths(missing, blockSize, idx);
    ChunkLayout(missing, blockSize, idx, 0);
    ComplementTotal(iv, total);
    NothingMissing(iv, Ranges(ChunkBlocks(missing, blockSize, idx)), total);
  }

  lemma ComplementTotal(iv: seq<Interval>, total: int)
    requires Canonical(iv) && Within(iv, total) && total > 0
    ensures Total(iv) + Total(Complement(iv, 0, total)) == total
  {
    var missing := Complement(iv, 0, total);
    MissingMeaning(iv, total);
    WithinBytes(iv, total);
    TotalIsCardinality(iv);
    TotalIsCardinality(missing);
    RangeSize(0, total);
    assert Bytes(iv) + Bytes(missing) == Range(0, total);
    assert |Bytes(iv) + Bytes(missing)| == |Bytes(iv)| + |Bytes(missing)|;
  }

  lemma NothingMissing(iv: seq<Interval>, adds: seq<Interval>, total: int)
    requires Canonical(iv) && total > 0 && Bytes(iv) + Bytes(adds) == Range(0, total)
    ensures Complement(InsertAll(iv, adds), 0, total) == []
  {
    InsertAllSound(iv, adds);
    MissingMeaning(InsertAll(iv, adds), total);
  }

  /** Cut the missing ranges into block rows numbered from startIdx. */
  method ChunkRanges(bounds: seq<Interval>, blockSize: int, startIdx: int) returns (out: seq<Block>)
    requires blockSize > 0
    ensures out == ChunkBlocks(bounds, blockSize, startIdx) && Chunked(bounds, blockSize, startIdx, out)
  {
    ChunkMeaning(bounds, blockSize, startIdx);
    out := [];
    var idx := startIdx;
    var k := 0;
    while k < |bounds|
      invariant 0 <= k <= |bounds|
      invariant out + ChunkBlocks(bounds[k..], blockSize, idx) == ChunkBlocks(bounds, blockSize, startIdx)
    {
      assert bounds[k..][1..] == bounds[k + 1..] && bounds[k..][0] == bounds[k];
      var cut := CutRange(bounds[k], blockSize, idx);
      assert out + (cut + ChunkBlocks(bounds[k + 1..], blockSize, idx + |cut|))
          == out + cut + ChunkBlocks(bounds[k + 1..], blockSize, idx + |cut|);
      out, idx := out + cut, idx + |cut|;
      k := k + 1;
    }
  }

  /** The inner loop: one missing range, cut at blockSize. */
  method CutRange(iv: Interval, blockSize: int, startIdx: int) returns (out: seq<Block>)
    requires blockSize > 0
    ensures out == Cut(iv.start, iv.end, blockSize, startIdx)
  {
    out := [];
    var idx, start := startIdx, iv.start;
    while start < iv.end
      invariant out + Cut(start, iv.end, blockSize, idx) == Cut(iv.start, iv.end, blockSize, startIdx)
      decreases iv.end - start
    {
      var end := Min(start + blockSize, iv.end);
      out := out + [Block(idx, start, end - start)];
      idx := idx + 1;
      start := end;
    }
  }

  // ---------------------------------------------------------------- block size

  const MIN_BLOCK_SIZE: int := 0x40_0000
  const MAX_BLOCK_SIZE: int := 0x400_0000

  /** The block sizes the doubling loop can stop at: 4, 8, 16, 32 or 64 MiB. */
  predicate IsBlockSize(p: int) {
    p == MIN_BLOCK_SIZE || p == 2 * MIN_BLOCK_SIZE || p == 4 * MIN_BLOCK_SIZE
    || p == 8 * MIN_BLOCK_SIZE || p == MAX_BLOCK_SIZE
  }

  /** The smallest such size that reaches the per-connection share, capped at 64 MiB. */
  method AdaptiveBlockSize(size: int, conns: int) returns (p: int)
    requires size >= 0
    ensures IsBlockSize(p)
    ensures var share := size / Max(conns, 1);
            && (p < share ==> p == MAX_BLOCK_SIZE)
            && (forall q | IsBlockSize(q) && q < p :: q < share)
  {
    var c := if conns < 1 then 1 else conns;
    var v := size / c;
    if v < MIN_BLOCK_SIZE {
      return MIN_BLOCK_SIZE;
    }
    p := MIN_BLOCK_SIZE;
    while p < v && p < MAX_BLOCK_SIZE
      invariant IsBlockSize(p)
      invariant forall q | IsBlockSize(q) && q < p :: q < v
      decreases MAX_BLOCK_SIZE - p
    {
      p := 2 * p;
    }
    p := Min(p, MAX_BLOCK_SIZE);
  }
}
