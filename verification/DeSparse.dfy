/**
 The hole walk of pkg/verify/desparse.go: zeros are written over every gap between data extents,
 in chunks whose size may change at every write, and the bytes written are counted.
 */
module DeSparse {
  import opened Base
  import opened Intervals

  /** Extents as the file system reports them: by start, none inverted; they may overlap or be empty. */
  predicate Sorted(ex: seq<Interval>)
  {
    ex != [] ==>
      && ex[0].start <= ex[0].end
      && (forall i | 0 <= i < |ex| :: ex[0].start <= ex[i].start)
      && Sorted(ex[1..])
  }

  /** What one zero write does. */
  datatype Write = Works | Unaligned(buffered: bool) | Breaks(done: nat) // buffered: the second, unaligned try works

  /** The file being made dense: every byte it was zero-written at, with multiplicity. */
  class HoleFile {
    var zeroed: multiset<int>
    var outcomes: seq<Write>
    var chunks: seq<nat>   // what the duty limiter answers; its full size once exhausted
    var stops: seq<bool>   // whether a duty checkpoint is cancelled

    constructor (outcomes: seq<Write>, chunks: seq<nat>, stops: seq<bool>)
      ensures zeroed == multiset{} && this.outcomes == outcomes && this.chunks == chunks && this.stops == stops
    {
      zeroed, this.outcomes, this.chunks, this.stops := multiset{}, outcomes, chunks, stops;
    }

    /** Write zeros over [off, off + n), falling back to a buffered write when unaligned. */
    method WriteZeros(off: int, n: nat) returns (ok: bool, ghost done: nat)
      modifies this`zeroed, this`outcomes
      ensures done <= n && (ok ==> done == n) && zeroed == old(zeroed) + multiset(Range(off, off + done))
      ensures old(outcomes) == [] ==> ok && outcomes == []
    {
      var w := Works;
      if |outcomes| > 0 {
        w := outcomes[0];
        outcomes := outcomes[1..];
      }
      var bytes := match w case Works => n case Unaligned(b) => if b then n else 0 case Breaks(k) => Min(k, n);
      zeroed := zeroed + multiset(Range(off, off + bytes));
      return w == Works || w == Unaligned(true), bytes;
    }

    /** The chunk for the next write: any positive size up to the slab. */
    method NextChunk(slab: nat) returns (n: nat)
      requires slab > 0
      modifies this`chunks
      ensures 0 < n <= slab
    {
      n := slab;
      if |chunks| > 0 {
        if 0 < chunks[0] < slab { n := chunks[0]; }
        chunks := chunks[1..];
      }
    }

    /** A duty checkpoint after a write. */
    method Checkpoint() returns (ok: bool)
      modifies this`stops
      ensures old(stops) == [] ==> ok && stops == []
    {
      ok := true;
      if |stops| > 0 {
        ok := !stops[0];
        stops := stops[1..];
      }
    }

    /** Zero [start, end) chunk by chunk, each byte once. */
    method Fill(start: int, end: int, slab: nat) returns (ok: bool, n: int, ghost upto: int)
      requires slab > 0 && start <= end
      modifies this
      ensures start <= upto <= end && zeroed == old(zeroed) + multiset(Range(start, upto))
      ensures ok ==> upto == end && n == end - start
      ensures old(outcomes) == [] && old(stops) == [] ==> ok && outcomes == [] && stops == []
    {
      var off := start;
      n := 0;
      assert multiset(Range(start, start)) == multiset{};
      while off < end
        invariant start <= off <= end && n == off - start && zeroed == old(zeroed) + multiset(Range(start, off))
        invariant old(outcomes) == [] && old(stops) == [] ==> outcomes == [] && stops == []
        decreases end - off
      {
        var chunk := NextChunk(slab);
        var size := Min(chunk, end - off);
        var wrote, done := WriteZeros(off, size);
        Adjoin(start, off, off + done);
        assert zeroed == old(zeroed) + (multiset(Range(start, off)) + multiset(Range(off, off + done)));
        upto := off + done;
        if !wrote {
          return false, 0, upto;
        }
        n := n + size;
        off := off + size;
        var go := Checkpoint();
        if !go {
          return false, 0, upto;
        }
      }
      return true, n, end;
    }

    /**
     Walk the extents. Every byte of [0, size) outside them is zeroed exactly once, no byte inside
     them ever, and the count reported is the number of bytes zeroed; if a write or a checkpoint
     fails the bytes zeroed so far are still holes, each zeroed once.
     */
    method Walk(extents: seq<Interval>, size: int, slab: nat) returns (ok: bool, holeBytes: int)
      requires slab > 0 && Sorted(extents) && zeroed == multiset{}
      modifies this
      ensures ok ==>
                && zeroed == multiset(Range(0, size) - Bytes(extents))
                && holeBytes == |Range(0, size) - Bytes(extents)|
      ensures !ok ==> zeroed <= multiset(Range(0, size) - Bytes(extents)) && holeBytes == 0
      ensures old(outcomes) == [] && old(stops) == [] ==> ok
    {
      var pos, total := 0, 0;
      var k := 0;
      assert multiset(Range(0, 0) - Bytes(extents)) == multiset{};
      assert Range(0, Min(0, size)) == {};
      while k < |extents| && pos < size
        invariant 0 <= k <= |extents| && 0 <= pos && Sorted(extents[k..])
        invariant zeroed == multiset(Holes(extents, pos, size)) && total == |Holes(extents, pos, size)|
        invariant Ahead(extents, extents[k..], pos)
        invariant old(outcomes) == [] && old(stops) == [] ==> outcomes == [] && stops == []
        decreases |extents| - k
      {
        var ex := extents[k];
        assert extents[k..][0] == ex && extents[k..][1..] == extents[k + 1..];
        if ex.start > pos {
          var end := Min(ex.start, size);
          GapIsHole(extents, extents[k..], pos, end);
          var done, n, upto := Fill(pos, end, slab);
          PartIsHole(extents, pos, upto, end, size);
          if !done {
            return false, 0;
          }
          total := total + n;
        }
        SkipExtent(extents, extents[k..], pos, size);
        if ex.end > pos { pos := ex.end; }
        k := k + 1;
      }
      if pos < size {
        assert extents[k..] == [];
        GapIsHole(extents, extents[k..], pos, size);
        var done, n, upto := Fill(pos, size, slab);
        PartIsHole(extents, pos, upto, size, size);
        if !done {
          return false, 0;
        }
        total := total + n;
      }
      return true, total;
    }
  }

  lemma Adjoin(a: int, b: int, c: int)
    requires a <= b <= c
    ensures multiset(Range(a, b)) + multiset(Range(b, c)) == multiset(Range(a, c))
  {
  }

  /** The hole bytes below pos. */
  function Holes(extents: seq<Interval>, pos: int, size: int): set<int> { Range(0, Min(pos, size)) - Bytes(extents) }

  /** From pos on, only the extents still to come hold data. */
  ghost predicate Ahead(extents: seq<Interval>, rest: seq<Interval>, pos: int) {
    forall x | pos <= x :: x in Bytes(extents) <==> x in Bytes(rest)
  }

  lemma {:induction false} SortedAbove(ex: seq<Interval>, lo: int)
    requires Sorted(ex) && (ex != [] ==> lo <= ex[0].start)
    ensures forall x | x in Bytes(ex) :: lo <= x
  {
    if |ex| > 1 {
      assert ex[1..][0] == ex[1];
      SortedAbove(ex[1..], lo);
    }
  }

  /** Up to the next extent nothing is data. */
  lemma GapIsHole(extents: seq<Interval>, rest: seq<Interval>, pos: int, end: int)
    requires Sorted(rest) && Ahead(extents, rest, pos) && (rest != [] ==> end <= rest[0].start)
    ensures Range(pos, end) !! Bytes(extents)
  {
    SortedAbove(rest, end);
  }

  /** Filling part of a gap adds exactly those hole bytes. */
  lemma PartIsHole(extents: seq<Interval>, pos: int, upto: int, end: int, size: int)
    requires 0 <= pos <= upto <= end <= size && Range(pos, end) !! Bytes(extents)
    ensures multiset(Holes(extents, pos, size)) + multiset(Range(pos, upto)) == multiset(Holes(extents, upto, size))
    ensures |Holes(extents, upto, size)| == |Holes(extents, pos, size)| + (upto - pos)
    ensures multiset(Holes(extents, upto, size)) <= multiset(Range(0, size) - Bytes(extents))
  {
    HolesGrow(extents, pos, upto, end, size);
    RangeSize(pos, upto);
    Apart(Holes(extents, pos, size), Range(pos, upto));
    Part(Holes(extents, upto, size), Range(0, size) - Bytes(extents));
  }

  lemma HolesGrow(extents: seq<Interval>, pos: int, upto: int, end: int, size: int)
    requires 0 <= pos <= upto <= end <= size && Range(pos, end) !! Bytes(extents)
    ensures Holes(extents, upto, size) == Holes(extents, pos, size) + Range(pos, upto)
    ensures Holes(extents, pos, size) !! Range(pos, upto)
         && Holes(extents, upto, size) <= Range(0, size) - Bytes(extents)
  {
  }

  lemma Apart(a: set<int>, b: set<int>)
    requires a !! b
    ensures multiset(a) + multiset(b) == multiset(a + b) && |a + b| == |a| + |b|
  {
  }

  lemma Part(a: set<int>, b: set<int>)
    requires a <= b
    ensures multiset(a) <= multiset(b)
  {
  }

  /** Past an extent there are no new holes, and only the later extents are ahead. */
  lemma SkipExtent(extents: seq<Interval>, rest: seq<Interval>, pos: int, size: int)
    requires rest != [] && Sorted(rest) && Ahead(extents, rest, pos) && 0 <= pos < size
    ensures var next := Max(pos, rest[0].end);
            && Holes(extents, next, size)
            == Holes(extents, if rest[0].start > pos then Min(rest[0].start, size) else pos, size)
            && Ahead(extents, rest[1..], next)
  {
  }
}
