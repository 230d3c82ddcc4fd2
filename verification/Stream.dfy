/**
 One streaming attempt at a block (pkg/transfer/worker.go streamBlock): the body is read into a
 slab, full slabs are flushed aligned, heads and tails as fragments, and every flushed range is
 recorded. The body may arrive in any pieces, end early, fail, or be too long, and any write may
 fail part way.
 */
module Stream {
  import opened Base

  const ALIGN: int := 4096

  function AlignUp(off: int): int { (off + ALIGN - 1) / ALIGN * ALIGN }

  /** The next boundary: aligned, not before off, and less than one unit away. */
  lemma AlignUpLeast(off: int)
    ensures AlignUp(off) % ALIGN == 0 && off <= AlignUp(off) < off + ALIGN
    ensures off % ALIGN == 0 <==> AlignUp(off) == off
  {
  }

  // ---------------------------------------------------------------- the body

  /** A reader that still holds `rest`, hands out `sizes` at a time, and ends with EOF or an error. */
  class Body {
    var rest: seq<Byte>
    var sizes: seq<nat>
    const eager: bool // reports the end together with the last bytes
    const fails: bool

    constructor (rest: seq<Byte>, sizes: seq<nat>, eager: bool, fails: bool)
      ensures this.rest == rest && this.sizes == sizes && this.eager == eager && this.fails == fails
    {
      this.rest, this.sizes, this.eager, this.fails := rest, sizes, eager, fails;
    }

    /** Fill space[from..] with some of the next bytes. */
    method Read(space: array<Byte>, from: nat) returns (n: nat, end: bool)
      requires from < space.Length
      modifies this`rest, this`sizes, space
      ensures n <= |old(rest)| && from + n <= space.Length
      ensures space[..from] == old(space[..from]) && space[from..from + n] == old(rest)[..n]
      ensures rest == old(rest)[n..] && (end ==> rest == [])
      ensures !end ==> |rest| + |sizes| < |old(rest)| + |old(sizes)|
    {
      var want := space.Length - from;
      if |sizes| > 0 {
        want := Min(want, sizes[0]);
        sizes := sizes[1..];
      }
      n := Min(want, |rest|);
      forall j | from <= j < from + n { space[j] := rest[j - from]; }
      assert forall j | from <= j < from + n :: space[j] == rest[j - from];
      assert space[from..from + n] == rest[..n];
      end := n == |rest| && (eager || n == 0);
      rest := rest[n..];
    }

    /** Drop the next n bytes, or fail if there are fewer. */
    method Discard(n: nat) returns (ok: bool)
      modifies this`rest
      ensures ok == (n <= |old(rest)|) && (ok ==> rest == old(rest)[n..])
    {
      ok := n <= |rest|;
      if ok { rest := rest[n..]; }
    }
  }

  // ---------------------------------------------------------------- the sink

  datatype Io = Io(off: int, len: nat, direct: bool)

  /** What the next write does: it works, is refused at the commit gate, or breaks off after `done` bytes. */
  datatype Fault = Works | Refused | BreaksOff(done: nat)

  function Overlay(content: map<int, Byte>, p: seq<Byte>, off: int): map<int, Byte> {
    map x | x in content.Keys + Range(off, off + |p|) :: if off <= x < off + |p| then p[x - off] else content[x]
  }

  class Sink {
    var content: map<int, Byte>
    var flushed: set<int>
    var log: seq<Io>
    var faults: seq<Fault>

    constructor (content: map<int, Byte>, flushed: set<int>, faults: seq<Fault>)
      ensures this.content == content && this.flushed == flushed && this.faults == faults && log == []
    {
      this.content, this.flushed, this.faults, log := content, flushed, faults, [];
    }

    /** Write p at off; nothing is recorded here. */
    method Put(p: seq<Byte>, off: int, direct: bool) returns (ok: bool, ghost done: nat)
      modifies this`content, this`log, this`faults
      ensures done <= |p| && content == Overlay(old(content), p[..done], off) && (ok ==> done == |p|)
      ensures log == old(log) || log == old(log) + [Io(off, |p|, direct)]
      ensures old(faults) == [] ==> ok && faults == []
    {
      var f := Works;
      if |faults| > 0 {
        f := faults[0];
        faults := faults[1..];
      }
      match f {
        case Refused =>
          done := 0;
          assert Overlay(content, p[..0], off) == content;
          return false, 0;
        case Works =>
          log := log + [Io(off, |p|, direct)];
          content := Overlay(content, p, off);
          assert p[..|p|] == p;
          return true, |p|;
        case BreaksOff(k) =>
          log := log + [Io(off, |p|, direct)];
          content := Overlay(content, p[..Min(k, |p|)], off);
          return false, Min(k, |p|);
      }
    }

    /** Write and, if it worked, record the range as flushed. */
    method Commit(p: seq<Byte>, off: int, direct: bool) returns (ok: bool, ghost done: nat)
      modifies this
      ensures done <= |p| && content == Overlay(old(content), p[..done], off) && (ok ==> done == |p|)
      ensures log == old(log) || log == old(log) + [Io(off, |p|, direct)]
      ensures flushed == if ok then old(flushed) + Range(off, off + |p|) else old(flushed)
      ensures old(faults) == [] ==> ok && faults == []
    {
      if |p| == 0 && !direct {
        assert Overlay(content, p[..0], off) == content && Range(off, off) == {};
        return true, 0;
      }
      ok, done := Put(p, off, direct);
      if ok { flushed := flushed + Range(off, off + |p|); }
    }
  }

  // ---------------------------------------------------------------- one attempt

  predicate IoOk(io: Io, lo: int, hi: int) {
    lo <= io.off && io.off + io.len <= hi && (io.direct ==> io.off % ALIGN == 0 && io.len % ALIGN == 0)
  }

  /** Outside [lo, hi) nothing has changed. */
  ghost predicate SameOutside(c0: map<int, Byte>, c: map<int, Byte>, lo: int, hi: int) {
    forall x | x < lo || hi <= x :: (x in c <==> x in c0) && (x in c ==> c[x] == c0[x])
  }

  /** The file holds data at offset `at`. */
  predicate Holds(c: map<int, Byte>, data: seq<Byte>, at: int) {
    forall x | at <= x < at + |data| :: x in c && c[x] == data[x - at]
  }

  datatype Before = Before(content: map<int, Byte>, flushed: set<int>, log: seq<Io>)

  predicate LogOk(log0: seq<Io>, log: seq<Io>, lo: int, hi: int) {
    |log0| <= |log| && log[..|log0|] == log0 && forall k | |log0| <= k < |log| :: IoOk(log[k], lo, hi)
  }

  /** So far: exactly [start, base) flushed and recorded, holding the body's bytes, and no other byte touched
      outside the block. */
  ghost predicate Progressed(was: Before, content: map<int, Byte>, flushed: set<int>, log: seq<Io>,
                             start: int, base: int, end: int, data: seq<Byte>)
  {
    && start <= base <= end && base - start <= |data|
    && flushed == was.flushed + Range(start, base)
    && Holds(content, data[..base - start], start)
    && SameOutside(was.content, content, start, end)
    && LogOk(was.log, log, start, end)
  }

  lemma HoldsMore(c: map<int, Byte>, data: seq<Byte>, start: int, base: int, p: seq<Byte>, done: nat)
    requires 0 <= base - start && base - start + |p| <= |data| && p == data[base - start..base - start + |p|]
          && done <= |p|
    requires Holds(c, data[..base - start], start)
    ensures Holds(Overlay(c, p[..done], base), data[..base - start], start)
    ensures done == |p| ==> Holds(Overlay(c, p[..done], base), data[..base - start + |p|], start)
  {
  }

  lemma OutsideStill(c0: map<int, Byte>, c: map<int, Byte>, lo: int, hi: int, p: seq<Byte>, off: int)
    requires SameOutside(c0, c, lo, hi) && lo <= off && off + |p| <= hi
    ensures SameOutside(c0, Overlay(c, p, off), lo, hi)
  {
  }

  lemma LogStill(log0: seq<Io>, log: seq<Io>, log': seq<Io>, lo: int, hi: int, io: Io)
    requires LogOk(log0, log, lo, hi) && IoOk(io, lo, hi) && (log' == log || log' == log + [io])
    ensures LogOk(log0, log', lo, hi)
  {
  }

  /** A write of the next bytes at base, whole or broken off. */
  lemma WriteStep(was: Before, c: map<int, Byte>, flushed: set<int>, log: seq<Io>, log': seq<Io>,
                  start: int, base: int, end: int, data: seq<Byte>, p: seq<Byte>, done: nat, direct: bool)
    requires Progressed(was, c, flushed, log, start, base, end, data)
    requires base + |p| <= end && base - start + |p| <= |data| && p == data[base - start..base - start + |p|]
          && done <= |p|
    requires log' == log || log' == log + [Io(base, |p|, direct)]
    requires direct ==> base % ALIGN == 0 && |p| % ALIGN == 0
    ensures Progressed(was, Overlay(c, p[..done], base), flushed, log', start, base, end, data)
    ensures done == |p| ==>
              Progressed(was, Overlay(c, p[..done], base), flushed + Range(base, base + |p|), log', start, base + |p|,
                end, data)
  {
    HoldsMore(c, data, start, base, p, done);
    OutsideStill(was.content, c, start, end, p[..done], base);
    LogStill(was.log, log, log', start, end, Io(base, |p|, direct));
    assert Range(start, base) + Range(base, base + |p|) == Range(start, base + |p|);
  }

  /** Padding after base touches only the block's own unwritten part. */
  lemma PadStep(was: Before, c: map<int, Byte>, flushed: set<int>, log: seq<Io>, log': seq<Io>,
                start: int, base: int, end: int, data: seq<Byte>, p: seq<Byte>, done: nat)
    requires Progressed(was, c, flushed, log, start, base, end, data) && base + |p| <= end && done <= |p|
    requires log' == log || log' == log + [Io(base, |p|, false)]
    ensures Progressed(was, Overlay(c, p[..done], base), flushed, log', start, base, end, data)
  {
  }

  /** The slab holds the body's bytes just after what is flushed. */
  ghost predicate Buffered(space: array<Byte>, fill: int, start: int, base: int, data: seq<Byte>)
    reads space
  {
    && 0 <= fill <= space.Length && 0 <= base - start && base - start + fill <= |data|
    && space[..fill] == data[base - start..base - start + fill]
  }

  /** Write the next bytes of the body at base and record them. */
  method CommitNext(sink: Sink, p: seq<Byte>, base: int, direct: bool, ghost was: Before, ghost start: int,
                    ghost end: int, ghost data: seq<Byte>)
    returns (ok: bool)
    requires Progressed(was, sink.content, sink.flushed, sink.log, start, base, end, data)
    requires base + |p| <= end && base - start + |p| <= |data| && p == data[base - start..base - start + |p|]
    requires direct ==> base % ALIGN == 0 && |p| % ALIGN == 0
    modifies sink
    ensures Progressed(was, sink.content, sink.flushed, sink.log, start, if ok then base + |p| else base, end, data)
    ensures ok ==> SameOutside(old(sink.content), sink.content, base, base + |p|)
    ensures sink.log == old(sink.log) || sink.log == old(sink.log) + [Io(base, |p|, direct)]
    ensures old(sink.faults) == [] ==> ok && sink.faults == []
  {
    ghost var c, flushed, log := sink.content, sink.flushed, sink.log;
    ghost var done;
    ok, done := sink.Commit(p, base, direct);
    WriteStep(was, c, flushed, log, sink.log, start, base, end, data, p, done, direct);
  }

  /** Move the bytes after `head` to the front of the slab. */
  method ShiftDown(space: array<Byte>, head: nat, ghost full: seq<Byte>)
    requires head <= space.Length && full == space[..]
    modifies space
    ensures space[..space.Length - head] == full[head..]
  {
    forall i | 0 <= i < space.Length - head { space[i] := space[head + i]; }
  }

  /** The write a full slab comes to: all of it direct, or its head up to the next boundary. */
  function SlabIo(base: int, slab: nat): Io {
    if base % ALIGN == 0 then Io(base, slab, true) else AlignUpLeast(base); Io(base, AlignUp(base) - base, false)
  }

  /** Flush a full slab: whole when aligned, else only its head, so that the rest realigns. */
  method FlushFullSlab(sink: Sink, space: array<Byte>, base0: int, ghost was: Before, ghost start: int, ghost end: int,
                       ghost data: seq<Byte>)
    returns (ok: bool, base: int, fill: int)
    requires 0 < space.Length && space.Length % ALIGN == 0 && base0 + space.Length <= end
    requires Progressed(was, sink.content, sink.flushed, sink.log, start, base0, end, data)
    requires Buffered(space, space.Length, start, base0, data)
    modifies sink, space
    ensures Progressed(was, sink.content, sink.flushed, sink.log, start, base, end, data)
    ensures ok ==>
              && Buffered(space, fill, start, base, data) && fill < space.Length && base + fill == base0 + space.Length
              && base == (if base0 % ALIGN == 0 then base0 + space.Length else AlignUp(base0))
    ensures !ok ==> base == base0
    ensures sink.log == old(sink.log) || sink.log == old(sink.log) + [SlabIo(base0, space.Length)]
    ensures old(sink.faults) == [] ==> ok && sink.faults == []
  {
    base, fill := base0, space.Length;
    if base % ALIGN == 0 {
      assert space[..fill] == space[..];
      ok := CommitNext(sink, space[..], base, true, was, start, end, data);
      if ok { base, fill := base + fill, 0; }
    } else {
      AlignUpLeast(base);
      var head := AlignUp(base) - base;
      ok := FlushHead(sink, space, base, head, was, start, end, data);
      if ok { base, fill := base + head, fill - head; }
    }
  }

  /** Write the first bytes of a full slab and move the rest to its front. */
  method FlushHead(sink: Sink, space: array<Byte>, base: int, head: nat, ghost was: Before, ghost start: int,
                   ghost end: int, ghost data: seq<Byte>)
    returns (ok: bool)
    requires head <= space.Length && base + space.Length <= end
    requires Progressed(was, sink.content, sink.flushed, sink.log, start, base, end, data)
    requires Buffered(space, space.Length, start, base, data)
    modifies sink, space
    ensures Progressed(was, sink.content, sink.flushed, sink.log, start, if ok then base + head else base, end, data)
    ensures ok ==> Buffered(space, space.Length - head, start, base + head, data)
    ensures sink.log == old(sink.log) || sink.log == old(sink.log) + [Io(base, head, false)]
    ensures old(sink.faults) == [] ==> ok && sink.faults == []
  {
    ghost var full := space[..];
    assert full == space[..space.Length];
    HeadOf(full, data, base - start, head);
    var p := space[..head];
    assert p == full[..head];
    ok := CommitNext(sink, p, base, false, was, start, end, data);
    if ok { ShiftDown(space, head, full); }
  }

  lemma HeadOf(full: seq<Byte>, data: seq<Byte>, at: int, head: nat)
    requires 0 <= at && at + |full| <= |data| && full == data[at..at + |full|] && head <= |full|
    ensures full[..head] == data[at..at + head] && full[head..] == data[at + head..at + |full|]
  {
  }

  datatype Outcome = Complete | TooLong | ReadError | ShortBody | WriteError

  /** What an attempt comes to when every write works. */
  function Verdict(want: int, got: int, fails: bool): Outcome {
    if got > want then TooLong else if fails then ReadError else if got < want then ShortBody else Complete
  }

  /** Where padding ends: the next boundary, if it is inside the block. */
  function PadEnd(stop: int, end: int): int { if AlignUp(stop) <= end then AlignUp(stop) else stop }

  lemma PadEndInside(stop: int, end: int)
    requires stop <= end
    ensures stop <= PadEnd(stop, end) <= end
  {
    AlignUpLeast(stop);
  }

  /** The file holds zeros from stop to there. */
  predicate Padded(c: map<int, Byte>, stop: int, end: int) {
    forall x | stop <= x < PadEnd(stop, end) :: x in c && c[x] == 0
  }

  /** Save the partial buffer of an aborted attempt, then pad it to alignment inside the block. */
  method FlushAbort(sink: Sink, space: array<Byte>, base: int, fill: int, end: int, ghost was: Before, ghost start: int,
                    ghost data: seq<Byte>)
    returns (ghost upto: int)
    requires Progressed(was, sink.content, sink.flushed, sink.log, start, base, end, data)
    requires Buffered(space, fill, start, base, data) && base + fill <= end
    modifies sink
    ensures Progressed(was, sink.content, sink.flushed, sink.log, start, upto, end, data)
    ensures upto == base || upto == base + fill
    ensures old(sink.faults) == [] ==> upto == base + fill && (fill > 0 ==> Padded(sink.content, upto, end))
    ensures old(sink.faults) == [] ==> SameOutside(old(sink.content), sink.content, base, PadEnd(upto, end))
  {
    upto := base;
    PadEndInside(base + fill, end);
    if fill == 0 {
      return;
    }
    var ok := CommitNext(sink, space[..fill], base, false, was, start, end, data);
    if !ok {
      return;
    }
    upto := base + fill;
    PadOut(sink, base + fill, end, was, start, data);
  }

  /** Write zeros from the end of an aborted fragment to the next boundary, if that is inside the block. */
  method PadOut(sink: Sink, stop: int, end: int, ghost was: Before, ghost start: int, ghost data: seq<Byte>)
    requires Progressed(was, sink.content, sink.flushed, sink.log, start, stop, end, data)
    modifies sink
    ensures Progressed(was, sink.content, sink.flushed, sink.log, start, stop, end, data)
    ensures old(sink.faults) == [] ==> Padded(sink.content, stop, end)
    ensures SameOutside(old(sink.content), sink.content, stop, PadEnd(stop, end))
  {
    AlignUpLeast(stop);
    var pad := AlignUp(stop) - stop;
    if pad > 0 && stop + pad <= end {
      ghost var c, log := sink.content, sink.log;
      var zeros: seq<Byte> := seq(pad, _ => 0);
      var padded, put := sink.Put(zeros, stop, false);
      PadStep(was, c, sink.flushed, log, sink.log, start, stop, end, data, zeros, put);
    }
  }

  /** Append the next piece of the body to the slab. */
  method ReadMore(body: Body, space: array<Byte>, fill: nat, read: int, ghost start: int, ghost base: int,
                  ghost data: seq<Byte>)
    returns (n: nat, last: bool)
    requires fill < space.Length && Buffered(space, fill, start, base, data)
    requires read == base - start + fill && body.rest == data[read..]
    modifies body, space
    ensures Buffered(space, fill + n, start, base, data) && read + n <= |data| && body.rest == data[read + n..]
    ensures (last ==> read + n == |data|) && (!last ==> |body.rest| + |body.sizes| < old(|body.rest| + |body.sizes|))
  {
    n, last := body.Read(space, fill);
    assert space[..fill + n] == space[..fill] + space[fill..fill + n];
  }

  /** Why the read loop ended. */
  datatype Stop = Eof | Failed | Excess | NoWrite

  /** While the body is read, only full slabs are written, all direct but for one head at the very start. */
  predicate SlabsOnly(log0: seq<Io>, log: seq<Io>, start: int, slab: nat) {
    && |log0| <= |log| && log[..|log0|] == log0
    && forall k | |log0| <= k < |log| ::
         (log[k].direct && log[k].len == slab) || (k == |log0| && log[k] == SlabIo(start, slab))
  }

  /** As long as writes work, the slab's base is on a boundary from the first write on. */
  predicate Slabbed(log0: seq<Io>, log: seq<Io>, start: int, base: int, slab: nat) {
    SlabsOnly(log0, log, start, slab) && (base % ALIGN == 0 || (base == start && log == log0))
  }

  lemma SlabLogged(log0: seq<Io>, log: seq<Io>, log1: seq<Io>, start: int, base: int, slab: nat)
    requires Slabbed(log0, log, start, base, slab)
    requires log1 == log || log1 == log + [SlabIo(base, slab)]
    ensures SlabsOnly(log0, log1, start, slab)
  {
  }

  lemma SlabEnds(base: int, slab: nat)
    requires slab % ALIGN == 0
    ensures AlignUp(base) % ALIGN == 0 && (base % ALIGN == 0 ==> (base + slab) % ALIGN == 0)
  {
  }

  /** Make room for the next read: flush the slab if it is full. */
  method MakeRoom(sink: Sink, space: array<Byte>, base0: int, fill0: int, ghost was: Before, ghost start: int,
                  ghost end: int, ghost data: seq<Byte>, ghost log0: seq<Io>)
    returns (ok: bool, base: int, fill: int)
    requires 0 < space.Length && space.Length % ALIGN == 0
    requires Progressed(was, sink.content, sink.flushed, sink.log, start, base0, end, data)
    requires Buffered(space, fill0, start, base0, data) && base0 + fill0 <= end
    requires Slabbed(log0, sink.log, start, base0, space.Length)
    modifies sink, space
    ensures Progressed(was, sink.content, sink.flushed, sink.log, start, base, end, data)
    ensures ok ==> Buffered(space, fill, start, base, data) && fill < space.Length && base + fill == base0 + fill0
    ensures SlabsOnly(log0, sink.log, start, space.Length)
    ensures ok ==> Slabbed(log0, sink.log, start, base, space.Length)
    ensures !ok ==> base == base0
    ensures old(sink.faults) == [] ==> ok && sink.faults == []
  {
    ok, base, fill := true, base0, fill0;
    if fill == space.Length {
      ghost var log := sink.log;
      ok, base, fill := FlushFullSlab(sink, space, base0, was, start, end, data);
      SlabEnds(base0, space.Length);
      SlabLogged(log0, log, sink.log, start, base0, space.Length);
    }
  }

  /** The read loop: fill the slab, flush it whenever it is full, until the body ends or overruns the block. */
  method Fetch(body: Body, sink: Sink, space: array<Byte>, start: int, end: int, ghost was: Before,
               ghost data: seq<Byte>)
    returns (stop: Stop, base: int, fill: int)
    requires 0 < space.Length && space.Length % ALIGN == 0 && data == body.rest
    requires Progressed(was, sink.content, sink.flushed, sink.log, start, start, end, data)
    modifies body, sink, space
    ensures Progressed(was, sink.content, sink.flushed, sink.log, start, base, end, data)
    ensures stop.Eof? || stop.Failed? ==>
              && Buffered(space, fill, start, base, data) && base + fill <= end && body.fails == stop.Failed?
              && base - start + fill == |data|
    ensures stop.Excess? ==> end < base + fill <= start + |data|
    ensures SlabsOnly(old(sink.log), sink.log, start, space.Length) && (base == start || base % ALIGN == 0)
    ensures old(sink.faults) == [] ==> !stop.NoWrite? && sink.faults == []
  {
    base, fill := start, 0;
    while true
      invariant Progressed(was, sink.content, sink.flushed, sink.log, start, base, end, data)
      invariant Buffered(space, fill, start, base, data) && base + fill <= end
      invariant body.rest == data[base - start + fill..]
      invariant Slabbed(old(sink.log), sink.log, start, base, space.Length)
      invariant old(sink.faults) == [] ==> sink.faults == []
      decreases |body.rest| + |body.sizes|
    {
      var ok;
      ok, base, fill := MakeRoom(sink, space, base, fill, was, start, end, data, old(sink.log));
      if !ok {
        return NoWrite, base, fill;
      }
      var n, last := ReadMore(body, space, fill, base - start + fill, start, base, data);
      fill := fill + n;
      if base + fill > end {
        return Excess, base, fill;
      }
      if last {
        return if body.fails then Failed else Eof, base, fill;
      }
    }
  }

  /**
   Stream a body into [start, end). However it is delivered and whatever fails, only the block
   is written, what is recorded is one run from start, and it holds the body's own bytes; the
   attempt completes only when the whole block does.
   */
  method StreamBody(body: Body, sink: Sink, space: array<Byte>, start: int, end: int)
    returns (r: Outcome, ghost upto: int)
    requires 0 < space.Length && space.Length % ALIGN == 0 && start <= end
    modifies body, sink, space
    ensures var was := Before(old(sink.content), old(sink.flushed), old(sink.log));
            Progressed(was, sink.content, sink.flushed, sink.log, start, upto, end, old(body.rest))
    ensures r.Complete? ==> upto == end && |old(body.rest)| == end - start && !body.fails
    ensures old(sink.faults) == [] ==> r == Verdict(end - start, |old(body.rest)|, body.fails)
    ensures old(sink.faults) == [] && (r.ShortBody? || r.ReadError?) ==>
              && upto == start + |old(body.rest)|
              && (start < upto && upto % ALIGN != 0 ==> Padded(sink.content, upto, end))
  {
    ghost var was := Before(sink.content, sink.flushed, sink.log);
    ghost var data := body.rest;
    assert Range(start, start) == {};
    var stop, base, fill := Fetch(body, sink, space, start, end, was, data);
    upto := base;
    match stop {
      case NoWrite =>
        return WriteError, upto;
      case Excess =>
        return TooLong, upto;
      case Failed =>
        upto := FlushAbort(sink, space, base, fill, end, was, start, data);
        return ReadError, upto;
      case Eof =>
        if base + fill != end {
          upto := FlushAbort(sink, space, base, fill, end, was, start, data);
          return ShortBody, upto;
        }
        var ok := CommitTail(sink, space, base, fill, was, start, end, data);
        return if ok then Complete else WriteError, if ok then end else base;
    }
  }

  /** The last bytes of the block. */
  method CommitTail(sink: Sink, space: array<Byte>, base: int, fill: int, ghost was: Before, ghost start: int,
                    ghost end: int, ghost data: seq<Byte>)
    returns (ok: bool)
    requires Progressed(was, sink.content, sink.flushed, sink.log, start, base, end, data)
    requires Buffered(space, fill, start, base, data) && base + fill == end
    modifies sink
    ensures Progressed(was, sink.content, sink.flushed, sink.log, start, if ok then end else base, end, data)
    ensures old(sink.faults) == [] ==> ok && sink.faults == []
  {
    ok := CommitNext(sink, space[..fill], base, false, was, start, end, data);
  }

  /**
   One attempt at the block [off, off + length). A sequential re-attempt first drops the prefix
   already flushed from the body; if that is the whole block there is nothing to do.
   */
  method StreamBlock(body: Body, sink: Sink, space: array<Byte>, off: int, length: nat, covered: nat)
    returns (r: Outcome, ghost start: int, ghost upto: int)
    requires 0 < space.Length && space.Length % ALIGN == 0
    requires Range(off, off + covered) <= sink.flushed
    modifies body, sink, space
    ensures start == off + Min(covered, length) <= upto <= off + length
    ensures sink.flushed == old(sink.flushed) + Range(start, upto)
    ensures SameOutside(old(sink.content), sink.content, start, off + length)
    ensures LogOk(old(sink.log), sink.log, start, off + length)
    ensures covered <= |old(body.rest)| ==>
              upto - start <= |old(body.rest)| - covered
                && Holds(sink.content, old(body.rest)[covered..covered + (upto - start)], start)
    ensures r.Complete? ==> Range(off, off + length) <= sink.flushed
    ensures r.Complete? && covered < length ==> |old(body.rest)| == length && !body.fails && upto == off + length
    ensures old(sink.faults) == [] && covered < length ==>
              r == if |old(body.rest)| < covered then ReadError else Verdict(length, |old(body.rest)|, body.fails)
    ensures length <= covered ==> r.Complete?
    ensures length <= covered || |old(body.rest)| < covered ==> upto == start && sink.content == old(sink.content)
    ensures old(sink.faults) == [] && covered < length && covered <= |old(body.rest)|
            && (r.ShortBody? || r.ReadError?) ==>
              && upto == off + |old(body.rest)|
              && (start < upto && upto % ALIGN != 0 ==> Padded(sink.content, upto, off + length))
  {
    start, upto := off + Min(covered, length), off + Min(covered, length);
    assert Range(start, start) == {};
    if covered >= length {
      return Complete, start, upto;
    }
    if covered > 0 {
      var ok := body.Discard(covered);
      if !ok {
        return ReadError, start, upto;
      }
    }
    ghost var data := body.rest;
    r, upto := StreamBody(body, sink, space, off + covered, off + length);
    assert old(body.rest)[covered..] == data;
    assert old(body.rest)[covered..covered + (upto - start)] == data[..upto - start];
    assert upto == off + length ==> Range(off, off + length) <= Range(off, off + covered) + Range(start, upto);
  }
}
