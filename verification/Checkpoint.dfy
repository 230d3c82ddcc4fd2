/**
 The tracker of flushed ranges and the checkpointer of pkg/transfer/checkpoint.go as objects,
 over a staging file with a page cache. Between its snapshot and its fsync a checkpoint lets
 other workers run: `raced` is whatever they write and record meanwhile.
 */
module Checkpoint {
  import opened Base
  import opened Intervals
  import opened Serde

  /** The bytes of a staging file: written, and surviving a crash. */
  class StagingFile {
    var page: set<int>
    var stable: set<int>

    constructor (resumed: set<int>)
      ensures page == stable == resumed
    {
      page, stable := resumed, resumed;
    }

    method WriteAt(from: int, to: int)
      modifies this`page
      ensures page == old(page) + Range(from, to)
    {
      page := page + Range(from, to);
    }

    /** Everything written so far becomes durable, unless the disk reports an error. */
    method Fsync(works: bool) returns (ok: bool)
      modifies this`stable
      ensures ok == works && stable == if works then page else old(stable)
    {
      if works { stable := page; }
      return works;
    }
  }

  /** The live set of flushed ranges, with a counter of its changes. */
  class IntervalTracker {
    var ranges: IntervalSet
    var changes: nat

    ghost predicate Valid()
      reads this, ranges
    {
      ranges.Valid() && Within(ranges.iv, ranges.size) && 0 <= ranges.size <= MAX_INT64
    }

    ghost function Flushed(): set<int>
      reads this, ranges
    {
      Bytes(ranges.iv)
    }

    constructor (seed: IntervalSet)
      requires seed.Valid() && Within(seed.iv, seed.size) && 0 <= seed.size <= MAX_INT64
      ensures Valid() && ranges == seed && changes == 0
    {
      ranges, changes := seed, 0;
    }

    method Add(start: int, end: int)
      requires Valid() && 0 <= start && end <= ranges.size
      modifies this`changes, ranges`iv
      ensures Valid() && Flushed() == old(Flushed()) + Range(start, end)
      ensures changes == old(changes) + 1
    {
      InsertWithin(ranges.iv, start, end, ranges.size);
      ranges.Add(start, end);
      changes := changes + 1;
    }

    /** A fresh empty set: the snapshots taken before keep their contents. */
    method Reset(size: int)
      requires Valid() && 0 <= size <= MAX_INT64
      modifies this
      ensures Valid() && fresh(ranges) && ranges.size == size && Flushed() == {}
      ensures changes == old(changes) + 1
    {
      ranges := new IntervalSet(size);
      changes := changes + 1;
    }

    method Snapshot() returns (snap: IntervalSet, at: nat)
      requires Valid()
      ensures fresh(snap) && snap.iv == ranges.iv && snap.size == ranges.size && at == changes
    {
      snap := ranges.Clone();
      at := changes;
    }

    /** Whether the file is complete: every byte of [0, total) flushed. */
    method CoversAll(total: int) returns (r: bool)
      requires Valid()
      ensures r <==> Range(0, total) <= Flushed()
    {
      r := ranges.Contains(0, total);
    }
  }

  /** A range written and recorded by another worker. */
  datatype Flush = Flush(start: int, end: int)

  /** What becomes of a blob handed on: stored, dropped without an error by the fence, or refused. */
  datatype Sink = Stored | Swallowed | Refused

  datatype Outcome = Skipped | Persisted(total: int) | FsyncError | PersistError

  class Checkpointer {
    const tracker: IntervalTracker
    const file: StagingFile
    var stored: Option<seq<Byte>> // the progress column of the file's row
    var lastChanges: nat
    var haveLast: bool
    var fenced: bool // the last blob handed on was swallowed

    constructor (tracker: IntervalTracker, file: StagingFile, stored: Option<seq<Byte>>)
      requires tracker.Valid() && tracker.Flushed() <= file.page && file.stable <= file.page
      requires stored.Some? ==> Decode(stored.value).Ok? && Bytes(Decode(stored.value).value.iv) <= file.stable
      ensures Valid() && this.tracker == tracker && this.file == file && this.stored == stored
    {
      this.tracker, this.file, this.stored := tracker, file, stored;
      lastChanges, haveLast, fenced := 0, false, false;
    }

    /** The durable record only ever lists fsynced bytes. */
    ghost predicate Durable()
      reads this, file
    {
      stored.Some? ==> Decode(stored.value).Ok? && Bytes(Decode(stored.value).value.iv) <= file.stable
    }

    /** An unchanged counter means the stored blob encodes the current set, unless the fence swallowed it. */
    ghost predicate Current()
      reads this, tracker, tracker.ranges
    {
      haveLast ==>
        && lastChanges <= tracker.changes
        && (lastChanges == tracker.changes ==>
              && 0 <= tracker.ranges.size && Ordered(tracker.ranges.iv, 0, tracker.ranges.size)
              && (fenced || stored == Some(Encode(Progress(tracker.ranges.size, tracker.ranges.iv)))))
    }

    ghost predicate Valid()
      reads this, tracker, tracker.ranges, file
    {
      && tracker.Valid() && tracker.Flushed() <= file.page && file.stable <= file.page
      && Durable() && Current()
    }

    /** Flush first, record after: the order every worker keeps. */
    method FlushAll(raced: seq<Flush>)
      requires Valid() && forall f | f in raced :: 0 <= f.start && f.end <= tracker.ranges.size
      modifies tracker`changes, tracker.ranges`iv, file`page
      ensures Valid() && old(file.page) <= file.page && old(tracker.Flushed()) <= tracker.Flushed()
      ensures tracker.changes == old(tracker.changes) + |raced|
      ensures raced == [] ==> tracker.ranges.iv == old(tracker.ranges.iv)
    {
      var i := 0;
      while i < |raced|
        invariant 0 <= i <= |raced| && tracker.Valid() && Durable()
        invariant tracker.Flushed() <= file.page && file.stable <= file.page
        invariant old(file.page) <= file.page && old(tracker.Flushed()) <= tracker.Flushed()
        invariant tracker.changes == old(tracker.changes) + i
        invariant i == 0 ==> tracker.ranges.iv == old(tracker.ranges.iv)
      {
        file.WriteAt(raced[i].start, raced[i].end);
        tracker.Add(raced[i].start, raced[i].end);
        i := i + 1;
      }
    }

    /**
     Snapshot, fsync, persist. Whatever is flushed in between, the blob written lists exactly
     the ranges of the snapshot, all of them durable; a checkpoint that is skipped would have
     written the blob already stored; a failed one leaves the stored blob alone. One the fence
     swallows succeeds too, and what it leaves stored is still all durable.
     */
    method TakeCheckpoint(force: bool, raced: seq<Flush>, fsyncWorks: bool, sink: Sink) returns (r: Outcome)
      requires Valid() && forall f | f in raced :: 0 <= f.start && f.end <= tracker.ranges.size
      modifies this`stored, this`lastChanges, this`haveLast, this`fenced
      modifies tracker`changes, tracker.ranges`iv, file
      ensures Valid()
      ensures r.Skipped? <==> !force && old(haveLast) && old(tracker.changes) == old(lastChanges)
      ensures r.Persisted? <==> !r.Skipped? && fsyncWorks && !sink.Refused?
      ensures r.FsyncError? <==> !r.Skipped? && !fsyncWorks
      ensures r.Persisted? ==> fenced == sink.Swallowed? && haveLast && lastChanges == old(tracker.changes)
      ensures !r.Persisted? ==> fenced == old(fenced)
      ensures !r.Persisted? || fenced ==> stored == old(stored)
      ensures (r.Persisted? || r.Skipped?) && !fenced ==>
                && 0 <= old(tracker.ranges.size) && Ordered(old(tracker.ranges.iv), 0, old(tracker.ranges.size))
                && stored == Some(Encode(Progress(old(tracker.ranges.size), old(tracker.ranges.iv))))
      ensures r.Persisted? ==> r.total == |old(tracker.Flushed())| && old(tracker.Flushed()) <= file.stable
      ensures old(file.page) <= file.page && old(file.stable) <= file.stable
    {
      var snap, changes := tracker.Snapshot();
      CanonicalOrdered(snap.iv, 0, snap.size);
      if !force && haveLast && changes == lastChanges {
        return Skipped;
      }
      ghost var iv := snap.iv;
      FlushAll(raced);
      assert snap.iv == iv == old(tracker.ranges.iv);
      r := SyncAndPersist(snap, changes, fsyncWorks, sink);
    }

    /** The second half: fsync, then persist a snapshot taken earlier. */
    method SyncAndPersist(snap: IntervalSet, changes: nat, fsyncWorks: bool, sink: Sink) returns (r: Outcome)
      requires Valid() && snap.Valid() && Within(snap.iv, snap.size) && 0 <= snap.size <= MAX_INT64
      requires Bytes(snap.iv) <= file.page && snap != tracker.ranges && changes <= tracker.changes
      requires changes == tracker.changes ==> snap.iv == tracker.ranges.iv && snap.size == tracker.ranges.size
      modifies this`stored, this`lastChanges, this`haveLast, this`fenced, file`stable
      ensures Valid() && old(file.stable) <= file.stable
      ensures !r.Skipped? && (r.Persisted? <==> fsyncWorks && !sink.Refused?) && (r.FsyncError? <==> !fsyncWorks)
      ensures r.Persisted? ==> fenced == sink.Swallowed? && haveLast && lastChanges == changes
      ensures !r.Persisted? ==> fenced == old(fenced)
      ensures !r.Persisted? || fenced ==> stored == old(stored)
      ensures r.Persisted? ==>
                && Ordered(snap.iv, 0, snap.size) && r.total == |Bytes(snap.iv)| && Bytes(snap.iv) <= file.stable
                && (!fenced ==> stored == Some(Encode(Progress(snap.size, snap.iv))))
    {
      var synced := Sync(fsyncWorks);
      if !synced {
        return FsyncError;
      }
      CanonicalOrdered(snap.iv, 0, snap.size);
      var blob := MarshalBinary(snap);
      if sink.Refused? {
        return PersistError;
      }
      HandOn(snap, changes, blob.value, sink);
      var total := snap.CoveredBytes();
      return Persisted(total);
    }

    method Sync(works: bool) returns (ok: bool)
      requires Valid()
      modifies file`stable
      ensures Valid() && ok == works && old(file.stable) <= file.stable && (ok ==> file.stable == file.page)
    {
      ok := file.Fsync(works);
    }

    /** The row takes the blob of a synced snapshot, or keeps what it had. */
    method HandOn(snap: IntervalSet, changes: nat, blob: seq<Byte>, sink: Sink)
      requires Valid() && !sink.Refused? && snap.Valid() && Within(snap.iv, snap.size)
      requires 0 <= snap.size <= MAX_INT64 && Ordered(snap.iv, 0, snap.size)
      requires blob == Encode(Progress(snap.size, snap.iv)) && Bytes(snap.iv) <= file.stable
      requires changes <= tracker.changes
      requires changes == tracker.changes ==> snap.iv == tracker.ranges.iv && snap.size == tracker.ranges.size
      modifies this`stored, this`lastChanges, this`haveLast, this`fenced
      ensures Valid() && fenced == sink.Swallowed? && haveLast && lastChanges == changes
      ensures stored == if fenced then old(stored) else Some(blob)
    {
      fenced := sink.Swallowed?;
      lastChanges, haveLast := changes, true;
      if !fenced {
        RoundTrip(Progress(snap.size, snap.iv));
        stored := Some(blob);
      }
    }
  }
}
