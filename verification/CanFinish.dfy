/**
 The protocol never locks a file out: whatever has happened, and whoever is still about, a file
 that is cached or queued can be downloaded from there; and a run whose blocks fail can fall back
 to one stream and leave a record of the whole file behind.
 */
module CanFinish {
  import opened Base
  import opened Intervals
  import opened Serde
  import opened Rows
  import opened Fencing
  import opened Resume
  import opened ResumeInv
  import opened ResumeProof
  import opened ResumeTheorems
  import opened ForcedRedownload

  /** A byte that is not in the page and that no file has. */
  lemma {:induction false} NoSuchByte(page: set<int>) returns (x: int)
    ensures x < 0 && forall y | y in page :: x < y
    decreases |page|
  {
    if y :| y in page {
      var z := NoSuchByte(page - {y});
      x := Min(z, y - 1);
      assert forall w | w in page :: w == y || w in page - {y};
    } else {
      x := -1;
    }
  }

  /** From the queue an empty file takes a lease, a cleared record and the byte-complete finish. */
  lemma EmptyFileFinishes(s: Sys, f: int) returns (steps: seq<Step>)
    requires StatusIs(s.db, f, Queued) && f !in s.blobs && Settled(s.db, f) && s.db.files[f].size == 0
    ensures Quiet(steps) && StatusIs(Steps(s, steps).db, f, Downloading)
    ensures StatusIs(Next(Steps(s, steps), FinishEarly(s.db.nextToken)).db, f, Downloaded)
  {
    var tok := s.db.nextToken;
    var start, clear, load := Start(f, 0, "", false), Call(Op.Save(f, Some(tok), None)), Load(tok);
    steps := [start, clear, load];
    assert steps == [start] + ([clear] + ([load] + []));
    OneStep(s, start, [clear] + ([load] + []));
    var s1 := Next(s, start);
    Leases(s, f);
    OneStep(s1, clear, [load] + []);
    var s2 := Next(s1, clear);
    OneStep(s2, load, []);
    LoadsNothing(s2, tok);
    assert Complement([], 0, 0) == [];
    EarlyFinish(Next(s2, load), tok);
  }

  lemma LoadsNothing(s: Sys, tok: nat)
    requires Live(s, tok) && s.runs[tok] == FreshRun(s.runs[tok].fid, 0)
    requires s.db.files[s.runs[tok].fid].progress.None?
    ensures var s' := Next(s, Load(tok));
            s'.db == s.db && Live(s', tok) && s'.runs[tok] == s.runs[tok].(phase := Loaded)
  {
  }

  /**
   In every reachable state, for every file that is cached or queued, there is a run from there,
   with no unlink on the way, in which it is declared downloaded.
   */
  lemma EveryFileCanFinish(steps: seq<Step>, f: int) returns (more: seq<Step>, step: Step)
    requires Requeueable(Steps(START, steps).db, f)
    ensures Quiet(more) && Finishes(Steps(START, steps), more, step, f)
  {
    var s := Steps(START, steps);
    ReachableInv(steps);
    assert FileAt(Doubts(steps), s, f);
    if 0 < s.db.files[f].size {
      var x := NoSuchByte(At(s.page, f));
      more, step := EndsWithoutByte(s, f, 0, x);
    } else {
      var force, s1 := ForcedIn(s, f);
      var rest := EmptyFileFinishes(s1, f);
      more, step := force + rest, FinishEarly(s1.db.nextToken);
      StepsConcat(s, force, rest);
      QuietUnlinksNothing(s, more);
    }
  }

  // ---------------------------------------------------------------- the single-stream fallback

  /** What a run does once its blocks have failed: stream it all, then the final checkpoint. */
  function Fallback(tok: nat, size: int): seq<Step> {
    [StartFallback(tok), FallbackWrite(tok, 0, size), FallbackDone(tok)]
    + [Snapshot(tok), Fsync(tok), Persist(tok)]
  }

  /** Three steps whose effects are known. */
  lemma ThreeTo(s: Sys, a: Step, s1: Sys, b: Step, s2: Sys, c: Step, s3: Sys)
    requires s1 == Next(s, a) && s2 == Next(s1, b) && s3 == Next(s2, c)
    ensures Steps(s, [a, b, c]) == s3
  {
    assert [a, b, c] == [a] + ([b] + ([c] + []));
    OneStep(s, a, [b] + ([c] + []));
    OneStep(s1, b, [c] + []);
    OneStep(s2, c, []);
  }

  /** A run that streams, with the bytes it has. */
  function Streaming(r: RunState, got: set<int>): RunState {
    r.(phase := FallingBack(got), tracker := [], changes := r.changes + 1)
  }

  lemma FallsBack(s: Sys, tok: nat)
    requires tok in s.runs && s.runs[tok].phase == Running && s.runs[tok].ckpt.Idle?
    ensures Next(s, StartFallback(tok)) == SetRun(s, tok, Streaming(s.runs[tok], {}))
  {
  }

  lemma StreamsOn(s: Sys, tok: nat)
    requires tok in s.runs && s.runs[tok].phase == FallingBack({}) && 0 <= s.runs[tok].size
    requires s.runs[tok].inode == Inode(s, s.runs[tok].fid)
    ensures var r := s.runs[tok];
            Next(s, FallbackWrite(tok, 0, r.size))
              == SetRun(s.(page := Grow(s.page, r.fid, Range(0, r.size))), tok,
                        r.(phase := FallingBack(Range(0, r.size))))
  {
    assert {} + Range(0, s.runs[tok].size) == Range(0, s.runs[tok].size);
  }

  lemma StreamEnds(s: Sys, tok: nat)
    requires tok in s.runs && s.runs[tok].phase == FallingBack(Range(0, s.runs[tok].size)) && s.runs[tok].ckpt.Idle?
    ensures var r := s.runs[tok];
            Next(s, FallbackDone(tok))
              == SetRun(s, tok, r.(phase := Fallen, tracker := Intervals.Insert(r.tracker, 0, r.size),
                                   changes := r.changes + 1))
  {
  }

  /** The stream: the whole file is in the staging file and the tracker knows it. */
  lemma StreamsAll(s: Sys, tok: nat)
    requires Live(s, tok) && s.runs[tok].phase == Running && s.runs[tok].ckpt.Idle? && 0 <= s.runs[tok].size
    requires s.runs[tok].inode == Inode(s, s.runs[tok].fid)
    ensures var r := s.runs[tok];
            var s' := Steps(s, [StartFallback(tok), FallbackWrite(tok, 0, r.size), FallbackDone(tok)]);
            && s'.db == s.db && s'.inodes == s.inodes && tok in s'.runs
            && At(s'.page, r.fid) == At(s.page, r.fid) + Range(0, r.size)
            && s'.runs[tok] == r.(phase := Fallen, tracker := Intervals.Insert([], 0, r.size), changes := r.changes + 2)
  {
    var r := s.runs[tok];
    var s1 := SetRun(s, tok, Streaming(r, {}));
    var s2 := SetRun(s1.(page := Grow(s.page, r.fid, Range(0, r.size))), tok, Streaming(r, Range(0, r.size)));
    FallsBack(s, tok);
    StreamsOn(s1, tok);
    StreamEnds(s2, tok);
    ThreeTo(s, StartFallback(tok), s1, FallbackWrite(tok, 0, r.size), s2, FallbackDone(tok),
            Next(s2, FallbackDone(tok)));
  }

  lemma Snaps(s: Sys, tok: nat)
    requires tok in s.runs && Checkpoints(s.runs[tok].phase) && s.runs[tok].ckpt.Idle?
    ensures var r := s.runs[tok];
            Next(s, Snapshot(tok)) == SetRun(s, tok, r.(ckpt := Snapped(r.tracker, r.changes)))
  {
  }

  lemma Syncs(s: Sys, tok: nat)
    requires tok in s.runs && s.runs[tok].ckpt.Snapped? && s.runs[tok].inode == Inode(s, s.runs[tok].fid)
    ensures var r := s.runs[tok];
            Next(s, Fsync(tok)) == SetRun(s.(stable := s.stable[r.fid := At(s.page, r.fid)]), tok,
                                          r.(ckpt := Synced(r.ckpt.snap, r.ckpt.at)))
  {
  }

  lemma Persists(s: Sys, tok: nat)
    requires Live(s, tok) && s.runs[tok].ckpt.Synced? && Encodable(s.runs[tok].ckpt.snap, s.runs[tok].size)
    ensures var r, s' := s.runs[tok], Next(s, Persist(tok));
            && Live(s', tok) && s'.runs[tok].fid == r.fid && s'.stable == s.stable
            && s'.db.files[r.fid].progress == Some(Encode(Progress(r.size, r.ckpt.snap)))
  {
  }

  /** The final checkpoint: the record lists what the tracker held, and all of it is stable. */
  lemma ChecksPoint(s: Sys, tok: nat)
    requires Live(s, tok) && Checkpoints(s.runs[tok].phase) && s.runs[tok].ckpt.Idle?
    requires Encodable(s.runs[tok].tracker, s.runs[tok].size) && s.runs[tok].inode == Inode(s, s.runs[tok].fid)
    ensures var r := s.runs[tok];
            var s' := Steps(s, [Snapshot(tok), Fsync(tok), Persist(tok)]);
            && Live(s', tok) && s'.runs[tok].fid == r.fid && At(s'.stable, r.fid) == At(s.page, r.fid)
            && s'.db.files[r.fid].progress == Some(Encode(Progress(r.size, r.tracker)))
  {
    var r := s.runs[tok];
    var s1 := SetRun(s, tok, r.(ckpt := Snapped(r.tracker, r.changes)));
    var s2 := SetRun(s1.(stable := s.stable[r.fid := At(s.page, r.fid)]), tok,
                     r.(ckpt := Synced(r.tracker, r.changes)));
    Snaps(s, tok);
    Syncs(s1, tok);
    Persists(s2, tok);
    ThreeTo(s, Snapshot(tok), s1, Fsync(tok), s2, Persist(tok), Next(s2, Persist(tok)));
  }

  /**
   A live run whose staging file is the current one, and that is between two checkpoints, can
   always fall back to one stream. It then leaves every byte on stable storage and a record that
   claims exactly those.
   */
  lemma FallbackSavesAll(s: Sys, tok: nat)
    requires Live(s, tok) && s.runs[tok].phase == Running && s.runs[tok].ckpt.Idle?
    requires 0 < s.runs[tok].size <= MAX_INT64 && s.runs[tok].inode == Inode(s, s.runs[tok].fid)
    ensures var r := s.runs[tok];
            var s' := Steps(s, Fallback(tok, r.size));
            && Live(s', tok) && s'.runs[tok].fid == r.fid
            && Recorded(s'.db.files[r.fid]) == Range(0, r.size) <= At(s'.stable, r.fid)
  {
    var r := s.runs[tok];
    var stream, save :=
      [StartFallback(tok), FallbackWrite(tok, 0, r.size), FallbackDone(tok)], [Snapshot(tok), Fsync(tok), Persist(tok)];
    StepsConcat(s, stream, save);
    StreamsAll(s, tok);
    var whole := Intervals.Insert([], 0, r.size);
    assert whole == [Interval(0, r.size)];
    assert Ordered(whole, 0, r.size);
    ChecksPoint(Steps(s, stream), tok);
    RoundTrip(Progress(r.size, whole));
    assert Bytes(whole) == Range(0, r.size);
  }
}
