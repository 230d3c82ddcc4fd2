/**
 When "downloaded means written" holds for a file that is, or is about to be, in the queue again. A
 forced re-download (cached to queued) keeps the resume record although publication unlinked the
 staging file; a rejection clears it. Whether every download of the file from then on, up to the
 next unlink, writes all of it is decided by what is there at that moment: whether the bytes the
 kept record claims are on stable storage, and whether a run that lost its lease could still
 complete blocks into a staging file that is no longer the current one.
 */
module ForcedRedownload {
  import opened Base
  import opened Intervals
  import opened Chunking
  import opened Serde
  import opened Rows
  import opened Fencing
  import opened Resume
  import opened ResumeInv
  import opened ResumeProof
  import opened ResumeTheorems

  // ---------------------------------------------------------------- the warm-blob gate

  /** Steps that open the gate for f: its blob is evicted, or marking it cached fails. */
  predicate OpensGate(step: Step, f: int) {
    (step.Evict? && step.fid == f) || (step.Start? && step.fid == f && step.storeError)
  }

  /** Only a lease of a queued file makes it downloading. */
  lemma OnlyLeasesDownload(db: Db, op: Op, f: int)
    requires Legal(db, op) && f in db.files && db.files[f].status != Downloading
    requires !(op.Lease? && op.id == f && db.files[f].status == Queued)
    ensures f in Apply(db, op).files && Apply(db, op).files[f].status != Downloading
  {
    if op.Sweep? {
      RecoverUnfold(db, op.now);
    } else if BlockCall(op) {
      BlockCallFiles(db, op);
    } else {
      FileCallDownloads(db, op, Apply(db, op), f);
    }
  }

  lemma FileCallDownloads(db: Db, op: Op, db': Db, f: int)
    requires !BlockCall(op) && !op.Sweep? && db' == Apply(db, op)
    requires Legal(db, op) && f in db.files && db.files[f].status != Downloading
    requires !(op.Lease? && op.id == f && db.files[f].status == Queued)
    ensures f in db'.files && db'.files[f].status != Downloading
  {
  }

  lemma GateKept(s: Sys, step: Step, f: int)
    requires f in s.blobs && f in s.db.files && s.db.files[f].status != Downloading && !OpensGate(step, f)
    ensures var s' := Next(s, step); f in s'.blobs && f in s'.db.files && s'.db.files[f].status != Downloading
  {
    BlobStays(s, step, f);
    StepCalls(s, step);
    CallIsLegal(s, step, CallOf(s, step));
    LeaseOnlyPastGate(s, step, CallOf(s, step), f);
    if CallOf(s, step).Some? { OnlyLeasesDownload(s.db, CallOf(s, step).value, f); }
  }

  lemma BlobStays(s: Sys, step: Step, f: int)
    requires f in s.blobs && !OpensGate(step, f)
    ensures f in Next(s, step).blobs
  {
    if RunningStep(step) {
      RunFrame(s, step, Next(s, step));
    } else if OpeningStep(step) {
      OpenFrame(s, step, Next(s, step));
    }
  }

  lemma LeaseOnlyPastGate(s: Sys, step: Step, call: Option<Op>, f: int)
    requires f in s.blobs && f in s.db.files && !OpensGate(step, f) && call == CallOf(s, step)
    ensures !(call.Some? && call.value.Lease? && call.value.id == f && s.db.files[f].status == Queued)
  {
  }

  /** While its blob is in the store and can be marked, a forced file is never downloaded again. */
  lemma {:induction false} WarmBlobBlocksDownload(s: Sys, steps: seq<Step>, f: int)
    requires f in s.blobs && f in s.db.files && s.db.files[f].status != Downloading
    requires forall i | 0 <= i < |steps| :: !OpensGate(steps[i], f)
    ensures f in Steps(s, steps).db.files && Steps(s, steps).db.files[f].status != Downloading
    decreases |steps|
  {
    if steps != [] {
      GateKept(s, steps[0], f);
      WarmBlobBlocksDownload(Next(s, steps[0]), steps[1..], f);
    }
  }

  // ---------------------------------------------------------------- the exact condition

  /** A run from s in which f, its staging file not unlinked meanwhile, is declared downloaded by `step`. */
  ghost predicate Finishes(s: Sys, steps: seq<Step>, step: Step, f: int) {
    && f !in UnlinkedBy(s, steps)
    && StatusIs(Steps(s, steps).db, f, Downloading) && StatusIs(Next(Steps(s, steps), step).db, f, Downloaded)
  }

  /** Whenever that happens, every byte is in the staging file. */
  ghost predicate AlwaysWritten(s: Sys, f: int)
    requires f in s.db.files
  {
    forall steps: seq<Step>, step: Step | Finishes(s, steps, step, f) ::
      Range(0, s.db.files[f].size) <= At(Steps(s, steps).page, f)
  }

  /** In the queue, or one forced re-download away from it. */
  predicate Requeueable(db: Db, f: int) { StatusIs(db, f, Cached) || StatusIs(db, f, Queued) }

  /** Nobody is working on the file. */
  predicate Idle(s: Sys, f: int) {
    (forall t | t in s.runs :: s.runs[t].fid != f) && (forall t | t in s.salvages :: s.salvages[t].fid != f)
  }

  lemma {:induction false} SizeStays(s: Sys, steps: seq<Step>, f: int)
    requires f in s.db.files
    ensures f in Steps(s, steps).db.files && Steps(s, steps).db.files[f].size == s.db.files[f].size
    decreases |steps|
  {
    if steps != [] {
      StepCalls(s, steps[0]);
      if CallOf(s, steps[0]).Some? { FileStays(s.db, CallOf(s, steps[0]).value, f); }
      SizeStays(Next(s, steps[0]), steps[1..], f);
    }
  }

  /** A page shrinks only when its file is unlinked or the power fails. */
  lemma PageGrows(s: Sys, step: Step, f: int)
    requires f !in Unlinked(s, step) && !step.Crash?
    ensures At(s.page, f) <= At(Next(s, step).page, f)
  {
    if RunningStep(step) {
      RunPageGrows(s, step, Next(s, step), f);
    } else if OpeningStep(step) {
      OpenFrame(s, step, Next(s, step));
    } else {
      OtherPageGrows(s, step, Next(s, step), f);
    }
  }

  lemma RunPageGrows(s: Sys, step: Step, s': Sys, f: int)
    requires s' == Next(s, step) && RunningStep(step)
    ensures At(s.page, f) <= At(s'.page, f)
  {
    if step.Write? {
      WriteGrows(s, step.tok, step.bid, step.from, step.to, f);
    } else if WorkerStep(step) {
      WorkerPage(s, step, s');
    } else {
      CheckpointPage(s, step, s');
    }
  }

  lemma WriteGrows(s: Sys, tok: nat, bid: int, from: int, to: int, f: int)
    ensures At(s.page, f) <= At(WriteForRun(s, tok, bid, from, to).page, f)
  {
  }

  lemma WorkerPage(s: Sys, step: Step, s': Sys)
    requires s' == Next(s, step) && WorkerStep(step) && !step.Write?
    ensures s'.page == s.page
  {
  }

  lemma CheckpointPage(s: Sys, step: Step, s': Sys)
    requires s' == Next(s, step) && RunningStep(step) && !WorkerStep(step)
    ensures s'.page == s.page
  {
  }

  lemma OtherPageGrows(s: Sys, step: Step, s': Sys, f: int)
    requires s' == Next(s, step) && !RunningStep(step) && !OpeningStep(step) && f !in Unlinked(s, step)
    ensures At(s.page, f) <= At(s'.page, f)
  {
  }

  /** A whole staging file stays whole, or a power failure leaves nothing that could spoil its blocks. */
  lemma {:induction false} StaysWritten(doubt: Doubt, s: Sys, steps: seq<Step>, f: int)
    requires f in s.db.files && AllWritten(s, f) && f !in doubt.records && f !in UnlinkedBy(s, steps)
    ensures f in Steps(s, steps).db.files && (AllWritten(Steps(s, steps), f) || f !in DoubtAfter(doubt, s,
            steps).blocks)
    decreases |steps|
  {
    SizeStays(s, steps, f);
    if steps != [] {
      var s', doubt' := Next(s, steps[0]), NextDoubt(doubt, s, steps[0]);
      SizeStays(s, [steps[0]], f);
      assert Steps(s, [steps[0]]) == s';
      if steps[0].Crash? && !AllWritten(s', f) {
        CrashLeavesNobody(doubt, s, steps[0].left, f);
        DoubtNeedsUnlink(doubt', s', steps[1..], f);
      } else {
        if !steps[0].Crash? { PageGrows(s, steps[0], f); }
        StaysWritten(doubt', s', steps[1..], f);
      }
    }
  }

  lemma CrashLeavesNobody(doubt: Doubt, s: Sys, left: map<int, set<int>>, f: int)
    requires f !in doubt.records && Next(s, Crash(left)) != s
    ensures f !in NextDoubt(doubt, s, Crash(left)).records && f !in NextDoubt(doubt, s, Crash(left)).blocks
  {
    var s' := Next(s, Crash(left));
    assert s'.runs == map[] && s'.salvages == map[];
    assert RunsSound(s', f);
  }

  /** A stable record, with a whole staging file or only sound runs about, makes every later run safe. */
  lemma StableRecordIsSafe(doubt: Doubt, s: Sys, f: int, steps: seq<Step>, step: Step)
    requires SysInv(doubt, s) && RecordStable(s, f) && (AllWritten(s, f) || RunsSound(s, f))
    requires Finishes(s, steps, step, f)
    ensures Range(0, s.db.files[f].size) <= At(Steps(s, steps).page, f)
  {
    var now := Relieved(doubt, s);
    TrustRestored(doubt, s);
    StepsKeep(now, s, steps);
    DoubtNeedsUnlink(now, s, steps, f);
    SizeStays(s, steps, f);
    if AllWritten(s, f) { StaysWritten(now, s, steps, f); }
    FinishedIsAccounted(DoubtAfter(now, s, steps), Steps(s, steps), step, f);
  }

  // ---------------------------------------------------------------- the other direction: a run that fails

  predicate Quiet(steps: seq<Step>) { forall i | 0 <= i < |steps| :: !steps[i].Unlink? }

  lemma {:induction false} QuietUnlinksNothing(s: Sys, steps: seq<Step>)
    requires Quiet(steps)
    ensures UnlinkedBy(s, steps) == {}
    decreases |steps|
  {
    if steps != [] {
      assert !steps[0].Unlink?;
      QuietUnlinksNothing(Next(s, steps[0]), steps[1..]);
    }
  }

  lemma {:induction false} StepsConcat(s: Sys, a: seq<Step>, b: seq<Step>)
    ensures Steps(s, a + b) == Steps(Steps(s, a), b)
    decreases |a|
  {
    if a == [] {
      assert a + b == b;
    } else {
      assert (a + b)[1..] == a[1..] + b;
      StepsConcat(Next(s, a[0]), a[1..], b);
    }
  }

  lemma OneStep(s: Sys, a: Step, rest: seq<Step>)
    ensures Steps(s, [a] + rest) == Steps(Next(s, a), rest)
  {
    assert ([a] + rest)[1..] == rest;
  }

  lemma FourSteps(s: Sys, a: Step, b: Step, c: Step, d: Step)
    ensures Steps(s, [a, b, c, d]) == Next(Next(Next(Next(s, a), b), c), d)
  {
    assert [a, b, c, d] == [a] + ([b] + ([c] + ([d] + [])));
    OneStep(s, a, [b] + ([c] + ([d] + [])));
    OneStep(Next(s, a), b, [c] + ([d] + []));
    OneStep(Next(Next(s, a), b), c, [d] + []);
    OneStep(Next(Next(Next(s, a), b), c), d, []);
  }

  /** The i-th row of the run's pass, as inserted, with the given status. */
  predicate Row(db: Db, r: RunState, i: nat, status: BlockStatus)
    requires i < |r.pass|
  {
    var b := r.firstId + i;
    && b in db.blocks && db.blocks[b].fileId == r.fid && db.blocks[b].status == status
    && db.blocks[b].offset == r.pass[i].offset && db.blocks[b].length == r.pass[i].length
  }

  /** A run that lost its lease and can still complete the byte x of its file without writing it there. */
  predicate Stray(s: Sys, t: nat, f: int, x: int) {
    && t in s.runs && s.runs[t].fid == f && s.runs[t].phase == Running
    && (s.runs[t].inode != Inode(s, f) || x in Bytes(s.runs[t].tracker) || x in s.runs[t].flushed)
  }

  /**
   A live run that has served the first k blocks of its pass, one byte each. Byte x is not in the
   file, and if a block for it is still to come, the run t is there to complete it.
   */
  ghost predicate Serving(s: Sys, tok: nat, t: nat, x: int, k: nat) {
    && Live(s, tok) && s.runs[tok].phase == Running && k <= |s.runs[tok].pass|
    && var r := s.runs[tok];
    && (forall i: nat | i < k :: Row(s.db, r, i, Done))
    && (forall i: nat | k <= i < |r.pass| :: Row(s.db, r, i, Pending))
    && (forall b | b in s.db.blocks && s.db.blocks[b].fileId == r.fid ::
          s.db.blocks[b].status == Done || r.firstId + k <= b < r.firstId + |r.pass|)
    && (forall i | 0 <= i < |r.pass| ::
          r.pass[i].length == 1 && (r.pass[i].offset == x ==> t != tok && Stray(s, t, r.fid, x)))
    && x !in At(s.page, r.fid)
  }

  /** Claim, write if need be, record and complete the next block. */
  function ServeSteps(t: nat, b: int, x: int, write: bool): seq<Step> {
    [ClaimBlk(t, b, 0)] + (if write then [Write(t, b, x, x + 1)] else []) + [Record(t, x, x + 1), CompleteBlk(t, b)]
  }

  /** The state those steps lead to. */
  function ServedState(s: Sys, t: nat, b: int, x: int, write: bool): Sys {
    var s1 := ClaimForRun(s, t, b, 0);
    var s2 := if write then WriteForRun(s1, t, b, x, x + 1) else s1;
    CompleteForRun(RecordForRun(s2, t, x, x + 1), t, b)
  }

  /** What completing the pending block b = [x, x + 1) does to rows, runs and file. */
  predicate Served(s: Sys, s': Sys, t: nat, b: int, x: int, write: bool)
    requires t in s.runs && b in s.db.blocks
  {
    && s'.db.files == s.db.files && s'.db.blocks == s.db.blocks[b := s.db.blocks[b].(status := Done, lease := None)]
    && t in s'.runs && s'.runs == s.runs[t := s'.runs[t]] && SamePlan(s.runs[t], s'.runs[t])
    && s'.inodes == s.inodes
    && At(s'.page, s.runs[t].fid) <= At(s.page, s.runs[t].fid)
         + (if write && s.runs[t].inode == Inode(s, s.runs[t].fid) then {x} else {})
  }

  predicate SamePlan(r: RunState, r': RunState) {
    && r'.fid == r.fid && r'.phase == r.phase && r'.pass == r.pass && r'.firstId == r.firstId && r'.inode == r.inode
    && Bytes(r.tracker) <= Bytes(r'.tracker) && r.flushed <= r'.flushed
  }

  /** What a successful claim leaves the run with. */
  predicate Claimed(s: Sys, s': Sys, t: nat, b: int, x: int)
    requires t in s.runs && b in s.db.blocks
  {
    && s'.db.files == s.db.files && s'.page == s.page && s'.inodes == s.inodes
    && t in s'.runs && s'.runs == s.runs[t := s'.runs[t]]
    && s'.runs[t] == s.runs[t].(held := s'.runs[t].held)
    && b in s'.runs[t].held && s'.runs[t].held[b].offset == x && s'.runs[t].held[b].length == 1
    && b in s'.db.blocks && s'.db.blocks == s.db.blocks[b := s'.db.blocks[b]]
    && s'.db.blocks[b] == s.db.blocks[b].(status := Active, lease := s'.db.blocks[b].lease)
    && OwnsBlock(s'.db, b, Some(s'.runs[t].held[b].token))
  }

  /** A pending one-byte block of a downloading file, which the running t may claim. */
  predicate Unserved(s: Sys, t: nat, b: int, x: int) {
    && t in s.runs && s.runs[t].phase == Running && StatusIs(s.db, s.runs[t].fid, Downloading)
    && b in s.db.blocks && s.db.blocks[b].fileId == s.runs[t].fid && s.db.blocks[b].status == Pending
    && s.db.blocks[b].offset == x && s.db.blocks[b].length == 1
  }

  lemma Claims(s: Sys, t: nat, b: int, x: int)
    requires Unserved(s, t, b, x)
    ensures Claimed(s, ClaimForRun(s, t, b, 0), t, b, x)
  {
  }

  /** A held byte that is flushed or already recorded can be recorded and completed. */
  lemma RecordsAndCompletes(s: Sys, t: nat, b: int, x: int)
    requires t in s.runs && s.runs[t].phase == Running && b in s.runs[t].held
    requires s.runs[t].held[b].offset == x && s.runs[t].held[b].length == 1
    requires OwnsBlock(s.db, b, Some(s.runs[t].held[b].token))
    requires x in s.runs[t].flushed || x in Bytes(s.runs[t].tracker)
    ensures Served(s, CompleteForRun(RecordForRun(s, t, x, x + 1), t, b), t, b, x, false)
  {
    assert Range(x, x + 1) == {x};
    InsertBytes(s.runs[t].tracker, x, x + 1);
  }

  lemma WritesByte(s: Sys, t: nat, b: int, x: int)
    requires t in s.runs && s.runs[t].phase == Running && b in s.runs[t].held
    requires s.runs[t].held[b].offset == x && s.runs[t].held[b].length == 1
    ensures var s' := WriteForRun(s, t, b, x, x + 1);
            && s'.db == s.db && s'.inodes == s.inodes && t in s'.runs && s'.runs == s.runs[t := s'.runs[t]]
            && s'.runs[t] == s.runs[t].(flushed := s.runs[t].flushed + {x})
            && At(s'.page, s.runs[t].fid) <= At(s.page, s.runs[t].fid)
                 + (if s.runs[t].inode == Inode(s, s.runs[t].fid) then {x} else {})
  {
    assert Range(x, x + 1) == {x};
  }

  lemma ServesOne(s: Sys, t: nat, b: int, x: int, write: bool)
    requires Unserved(s, t, b, x) && (write || x in s.runs[t].flushed || x in Bytes(s.runs[t].tracker))
    ensures Served(s, ServedState(s, t, b, x, write), t, b, x, write)
  {
    var s1 := ClaimForRun(s, t, b, 0);
    Claims(s, t, b, x);
    var s2 := if write then WriteForRun(s1, t, b, x, x + 1) else s1;
    if write { WritesByte(s1, t, b, x); }
    RecordsAndCompletes(s2, t, b, x);
    ServedFromClaim(s, s1, s2, ServedState(s, t, b, x, write), t, b, x, write);
  }

  lemma ServedFromClaim(s: Sys, s1: Sys, s2: Sys, s': Sys, t: nat, b: int, x: int, write: bool)
    requires t in s.runs && b in s.db.blocks && Claimed(s, s1, t, b, x)
    requires s2.db == s1.db && s2.inodes == s1.inodes && t in s2.runs && s2.runs == s1.runs[t := s2.runs[t]]
    requires s2.runs[t] == s1.runs[t].(flushed := s2.runs[t].flushed) && s1.runs[t].flushed <= s2.runs[t].flushed
    requires At(s2.page, s.runs[t].fid) <= At(s1.page, s.runs[t].fid)
               + (if write && s.runs[t].inode == Inode(s, s.runs[t].fid) then {x} else {})
    requires Served(s2, s', t, b, x, false)
    ensures Served(s, s', t, b, x, write)
  {
    assert s'.db.blocks == s.db.blocks[b := s.db.blocks[b].(status := Done, lease := None)];
    assert s'.runs == s.runs[t := s'.runs[t]];
  }

  lemma ServeStepsAre(s: Sys, t: nat, b: int, x: int, write: bool)
    ensures Steps(s, ServeSteps(t, b, x, write)) == ServedState(s, t, b, x, write)
  {
    var s1 := ClaimForRun(s, t, b, 0);
    var rest := [Record(t, x, x + 1), CompleteBlk(t, b)];
    var mid := if write then [Write(t, b, x, x + 1)] else [];
    assert ServeSteps(t, b, x, write) == [ClaimBlk(t, b, 0)] + (mid + rest);
    ClaimFirst(s, t, b, mid + rest);
    if write {
      WriteNext(s1, t, b, x, rest);
      RecordAndComplete(WriteForRun(s1, t, b, x, x + 1), t, b, x);
    } else {
      assert mid + rest == rest;
      RecordAndComplete(s1, t, b, x);
    }
  }

  lemma ClaimFirst(s: Sys, t: nat, b: int, rest: seq<Step>)
    ensures Steps(s, [ClaimBlk(t, b, 0)] + rest) == Steps(ClaimForRun(s, t, b, 0), rest)
  {
    OneStep(s, ClaimBlk(t, b, 0), rest);
  }

  lemma WriteNext(s: Sys, t: nat, b: int, x: int, rest: seq<Step>)
    ensures Steps(s, [Write(t, b, x, x + 1)] + rest) == Steps(WriteForRun(s, t, b, x, x + 1), rest)
  {
    OneStep(s, Write(t, b, x, x + 1), rest);
  }

  lemma RecordAndComplete(s: Sys, t: nat, b: int, x: int)
    ensures Steps(s, [Record(t, x, x + 1), CompleteBlk(t, b)]) == CompleteForRun(RecordForRun(s, t, x, x + 1), t, b)
  {
    var s1 := RecordForRun(s, t, x, x + 1);
    assert [Record(t, x, x + 1), CompleteBlk(t, b)] == [Record(t, x, x + 1)] + [CompleteBlk(t, b)];
    OneStep(s, Record(t, x, x + 1), [CompleteBlk(t, b)]);
    assert [CompleteBlk(t, b)] == [CompleteBlk(t, b)] + [];
    OneStep(s1, CompleteBlk(t, b), []);
  }

  /** The next block goes to the live run itself, the block of byte x to the stray one. */
  lemma ServeOne(s: Sys, tok: nat, t: nat, x: int, k: nat) returns (steps: seq<Step>)
    requires Serving(s, tok, t, x, k) && k < |s.runs[tok].pass|
    ensures Quiet(steps)
    ensures var s' := Steps(s, steps);
            tok in s'.runs && Serving(s', tok, t, x, k + 1) && SamePlan(s.runs[tok], s'.runs[tok])
  {
    var b, y := s.runs[tok].firstId + k, s.runs[tok].pass[k].offset;
    assert Row(s.db, s.runs[tok], k, Pending);
    var server := if y == x then t else tok;
    var write := y == x ==> s.runs[t].inode != Inode(s, s.runs[tok].fid);
    steps := ServeSteps(server, b, y, write);
    StepsServe(s, server, b, y, write);
    ServedOn(s, Steps(s, steps), tok, t, x, k, server, write);
  }

  lemma StepsServe(s: Sys, t: nat, b: int, x: int, write: bool)
    requires Unserved(s, t, b, x) && (write || x in s.runs[t].flushed || x in Bytes(s.runs[t].tracker))
    ensures Served(s, Steps(s, ServeSteps(t, b, x, write)), t, b, x, write)
  {
    ServeStepsAre(s, t, b, x, write);
    ServesOne(s, t, b, x, write);
  }

  lemma ServedOn(s: Sys, s': Sys, tok: nat, t: nat, x: int, k: nat, server: nat, write: bool)
    requires Serving(s, tok, t, x, k) && k < |s.runs[tok].pass| && s.runs[tok].firstId + k in s.db.blocks
    requires var y := s.runs[tok].pass[k].offset;
             && server == (if y == x then t else tok) && server in s.runs
             && (y == x && write ==> s.runs[t].inode != Inode(s, s.runs[tok].fid))
             && Served(s, s', server, s.runs[tok].firstId + k, y, write)
    ensures tok in s'.runs && Serving(s', tok, t, x, k + 1) && SamePlan(s.runs[tok], s'.runs[tok])
  {
    var r, r' := s.runs[tok], s'.runs[tok];
    forall i: nat | i < k + 1 ensures Row(s'.db, r', i, Done) {
      if i < k { assert Row(s.db, r, i, Done); } else { assert Row(s.db, r, k, Pending); }
    }
    forall i: nat | k + 1 <= i < |r'.pass| ensures Row(s'.db, r', i, Pending) { assert Row(s.db, r, i, Pending); }
    if Stray(s, t, r.fid, x) { StrayStill(s, s', t, r.fid, x, server); }
  }

  lemma StrayStill(s: Sys, s': Sys, t: nat, f: int, x: int, server: nat)
    requires Stray(s, t, f, x) && server in s.runs && server in s'.runs && s'.inodes == s.inodes
    requires s'.runs == s.runs[server := s'.runs[server]] && SamePlan(s.runs[server], s'.runs[server])
    ensures Stray(s', t, f, x)
  {
  }

  /** Serve the rest of the pass. */
  lemma {:induction false} ServeAll(s: Sys, tok: nat, t: nat, x: int, k: nat) returns (steps: seq<Step>)
    requires Serving(s, tok, t, x, k)
    ensures Quiet(steps)
    ensures var s' := Steps(s, steps);
            tok in s'.runs && Serving(s', tok, t, x, |s.runs[tok].pass|) && SamePlan(s.runs[tok], s'.runs[tok])
    decreases |s.runs[tok].pass| - k
  {
    var r := s.runs[tok];
    if k == |r.pass| {
      steps := [];
    } else {
      var first := ServeOne(s, tok, t, x, k);
      var rest := ServeAll(Steps(s, first), tok, t, x, k + 1);
      steps := first + rest;
      StepsConcat(s, first, rest);
    }
  }

  /** With every block of the file done, the last transition goes through. */
  lemma SettleFinishes(s: Sys, tok: nat, t: nat, x: int)
    requires tok in s.runs && Serving(s, tok, t, x, |s.runs[tok].pass|)
    ensures StatusIs(Next(s, Settle(tok, 0)).db, s.runs[tok].fid, Downloaded)
  {
    var f := s.runs[tok].fid;
    assert !HasUnfinishedBlock(s.db, f) && !HasLiveBlock(s.db, f, 0);
  }

  // ---------------------------------------------------------------- from the queue to the first block

  /** A number above every id and index in the table, and at or after every lease's end. */
  lemma {:induction false} Above(blocks: map<int, BlockRow>) returns (n: int)
    ensures forall b | b in blocks ::
              b < n && blocks[b].idx < n && (blocks[b].lease.Some? ==> blocks[b].lease.value.until <= n)
    decreases |blocks|
  {
    if k :| k in blocks {
      var m := Above(blocks - {k});
      n := Max(Max(m, k + 1), blocks[k].idx + 1);
      if blocks[k].lease.Some? { n := Max(n, blocks[k].lease.value.until); }
      forall b | b in blocks
        ensures b < n && blocks[b].idx < n && (blocks[b].lease.Some? ==> blocks[b].lease.value.until <= n)
      {
        if b != k { assert b in blocks - {k}; }
      }
    } else {
      n := 0;
    }
  }

  /** The rows of the file once every lease ran out: none is active. */
  predicate Settled(db: Db, f: int) {
    forall b | b in db.blocks && db.blocks[b].fileId == f :: db.blocks[b].status != Active
  }

  lemma SweptRows(db: Db, f: int, late: int)
    requires Inv(db) && Requeueable(db, f)
    requires forall b | b in db.blocks && db.blocks[b].lease.Some? :: db.blocks[b].lease.value.until <= late
    ensures f in Recover(db, late).files && Recover(db, late).files[f] == db.files[f] && db.files[f].lease.None?
    ensures Settled(Recover(db, late), f)
  {
    RecoverUnfold(db, late);
    forall b | b in db.blocks ensures db.blocks[b].status == Active ==> Expired(db.blocks[b].lease, late) {
      assert BlockOk(db.blocks[b], db.files.Keys, db.nextToken);
    }
    assert FileOk(db.files[f], db.nextToken);
  }

  lemma PowerFails(s: Sys)
    requires forall g :: At(s.stable, g) <= At(s.page, g)
    ensures Next(s, Crash(s.stable)) == s.(page := s.stable, runs := map[], salvages := map[])
  {
  }

  /** Leases run out, the blob is evicted, the file is forced; a file in the queue stays there. */
  function ForceSteps(f: int, late: int): seq<Step> {
    [Call(Op.Sweep(late)), Evict(f), Call(Op.Transition(f, None, Cached, Queued, 0))]
  }

  lemma ForceRow(db: Db, f: int)
    requires Requeueable(db, f) && db.files[f].lease.None?
    ensures TransitionFile(db, f, None, Cached, Queued, 0).0 == SetFile(db, f, db.files[f].(status := Queued))
  {
    if StatusIs(db, f, Queued) { assert db.files[f := db.files[f].(status := Queued)] == db.files; }
  }

  lemma LeasesRunOut(s: Sys, late: int)
    ensures Next(s, Call(Op.Sweep(late))) == s.(db := Recover(s.db, late))
  {
  }

  /** One step whose effect is known. */
  lemma StepTo(s: Sys, a: Step, s': Sys, rest: seq<Step>)
    requires s' == Next(s, a)
    ensures Steps(s, [a] + rest) == Steps(s', rest)
  {
    OneStep(s, a, rest);
  }

  lemma Evicts(s: Sys, f: int)
    ensures Next(s, Evict(f)) == s.(blobs := s.blobs - {f})
  {
  }

  lemma EvictedAndForced(s: Sys, f: int)
    requires Requeueable(s.db, f) && s.db.files[f].lease.None?
    ensures Steps(s, [Evict(f), Call(Op.Transition(f, None, Cached, Queued, 0))])
         == s.(db := SetFile(s.db, f, s.db.files[f].(status := Queued)), blobs := s.blobs - {f})
  {
    var force := Call(Op.Transition(f, None, Cached, Queued, 0));
    var s1 := s.(blobs := s.blobs - {f});
    assert [Evict(f), force] == [Evict(f)] + [force] && [force] == [force] + [];
    Evicts(s, f);
    StepTo(s, Evict(f), s1, [force]);
    ForcedNow(s1, f);
    StepTo(s1, force, s1.(db := SetFile(s1.db, f, s1.db.files[f].(status := Queued))), []);
  }

  lemma ForcedNow(s: Sys, f: int)
    requires Requeueable(s.db, f) && s.db.files[f].lease.None?
    ensures Next(s, Call(Op.Transition(f, None, Cached, Queued, 0)))
         == s.(db := SetFile(s.db, f, s.db.files[f].(status := Queued)))
  {
    ForceRow(s.db, f);
  }

  lemma ForcedIn(s: Sys, f: int) returns (steps: seq<Step>, s': Sys)
    requires Inv(s.db) && Requeueable(s.db, f)
    ensures Quiet(steps) && s' == Steps(s, steps) && s' == s.(db := s'.db, blobs := s'.blobs)
    ensures f !in s'.blobs && Settled(s'.db, f) && s'.db.nextToken == s.db.nextToken
    ensures f in s'.db.files && s'.db.files[f] == s.db.files[f].(status := Queued)
  {
    var late := Above(s.db.blocks);
    steps := ForceSteps(f, late);
    SweptRows(s.db, f, late);
    var rest := [Evict(f), Call(Op.Transition(f, None, Cached, Queued, 0))];
    assert steps == [Call(Op.Sweep(late))] + rest;
    LeasesRunOut(s, late);
    StepTo(s, Call(Op.Sweep(late)), s.(db := Recover(s.db, late)), rest);
    EvictedAndForced(s.(db := Recover(s.db, late)), f);
    RecoverUnfold(s.db, late);
    s' := Steps(s, steps);
  }

  lemma Leases(s: Sys, f: int)
    requires StatusIs(s.db, f, Queued) && f !in s.blobs && Settled(s.db, f)
    ensures var s' := Next(s, Start(f, 0, "", false));
            var tok := s.db.nextToken;
            && Live(s', tok) && s'.runs == s.runs[tok := FreshRun(f, s.db.files[f].size)]
            && s'.page == s.page && s'.inodes == s.inodes
            && s'.db.files[f].progress == s.db.files[f].progress && s'.db.files[f].size == s.db.files[f].size
            && Settled(s'.db, f)
  {
  }

  /**
   The resumed run, loaded. Byte x is not in the file: it is no byte of it, the record the run
   resumes from claims it, or the run t is there to complete it.
   */
  ghost predicate Resumed(s: Sys, tok: nat, t: nat, x: int) {
    && Live(s, tok) && s.runs[tok].phase == Loaded && s.runs[tok].seedSize == s.runs[tok].size
    && Canonical(s.runs[tok].seed) && Within(s.runs[tok].seed, s.runs[tok].size)
    && x !in At(s.page, s.runs[tok].fid) && Settled(s.db, s.runs[tok].fid)
    && (x in Range(0, s.runs[tok].size) ==>
          x in Bytes(s.runs[tok].seed) || (t != tok && Stray(s, t, s.runs[tok].fid, x)))
  }

  /** A download of f can end without byte x: it is not needed, or something makes it look written. */
  predicate Spared(s: Sys, f: int, t: nat, x: int) {
    && f in s.db.files && 0 < s.db.files[f].size && x !in At(s.page, f)
    && (x in Range(0, s.db.files[f].size) ==>
          x in Recorded(s.db.files[f]) || (t < s.db.nextToken && Stray(s, t, f, x)))
  }

  /** Byte x of f is not in the staging file, and something makes it look as if it were. */
  predicate Misled(s: Sys, f: int, t: nat, x: int) {
    && f in s.db.files && x in Range(0, s.db.files[f].size) && x !in At(s.page, f)
    && (x in Recorded(s.db.files[f]) || (t < s.db.nextToken && Stray(s, t, f, x)))
  }

  lemma ForcedThenLoaded(s: Sys, f: int, t: nat, x: int) returns (steps: seq<Step>, tok: nat)
    requires Inv(s.db) && Requeueable(s.db, f) && RecordShape(s.db.files[f]) && Spared(s, f, t, x)
    ensures Quiet(steps) && Resumed(Steps(s, steps), tok, t, x) && Steps(s, steps).runs[tok].fid == f
  {
    var force, s1 := ForcedIn(s, f);
    tok := s1.db.nextToken;
    StartsAndLoads(s1, f, t, x);
    var load := [Start(f, 0, "", false), Load(tok)];
    steps := force + load;
    StepsConcat(s, force, load);
  }

  lemma StartsAndLoads(s: Sys, f: int, t: nat, x: int)
    requires StatusIs(s.db, f, Queued) && f !in s.blobs && Settled(s.db, f) && RecordShape(s.db.files[f])
    requires Spared(s, f, t, x)
    ensures var s' := Steps(s, [Start(f, 0, "", false), Load(s.db.nextToken)]);
            Resumed(s', s.db.nextToken, t, x) && s'.runs[s.db.nextToken].fid == f
  {
    var tok := s.db.nextToken;
    assert [Start(f, 0, "", false), Load(tok)] == [Start(f, 0, "", false)] + ([Load(tok)] + []);
    OneStep(s, Start(f, 0, "", false), [Load(tok)] + []);
    var s2 := Next(s, Start(f, 0, "", false));
    OneStep(s2, Load(tok), []);
    Leases(s, f);
    LoadsOne(s2, tok);
    LoadedSpared(s, s2, Next(s2, Load(tok)), f, t, x);
  }

  lemma LoadsOne(s: Sys, tok: nat)
    requires tok in s.runs && s.runs[tok].phase.Leased? && s.runs[tok].fid in s.db.files
    requires s.runs[tok] == FreshRun(s.runs[tok].fid, s.runs[tok].size) && s.runs[tok].size > 0
    requires RecordShape(s.db.files[s.runs[tok].fid]) && s.runs[tok].size == s.db.files[s.runs[tok].fid].size
    ensures var s' := Next(s, Load(tok));
            && tok in s'.runs && s' == SetRun(s, tok, s'.runs[tok])
            && s'.runs[tok].fid == s.runs[tok].fid && s'.runs[tok].size == s.runs[tok].size
            && s'.runs[tok].phase == Loaded && s'.runs[tok].seedSize == s.runs[tok].size
            && Canonical(s'.runs[tok].seed) && Within(s'.runs[tok].seed, s.runs[tok].size)
            && Bytes(s'.runs[tok].seed) == Recorded(s.db.files[s.runs[tok].fid])
  {
    LoadDecodes(s, tok);
    LoadedCanonical(s, tok);
  }

  lemma LoadedCanonical(s: Sys, tok: nat)
    requires tok in s.runs && s.runs[tok].phase.Leased? && s.runs[tok].fid in s.db.files
          && tok in LoadRecord(s, tok).runs
    requires s.runs[tok].seed == [] && RecordShape(s.db.files[s.runs[tok].fid])
    requires s.runs[tok].size == s.db.files[s.runs[tok].fid].size
    ensures var r := LoadRecord(s, tok).runs[tok]; Canonical(r.seed) && Within(r.seed, r.size)
  {
    var p := s.db.files[s.runs[tok].fid].progress;
    if p.Some? && Decode(p.value).Ok? { AcceptedIsCanonical(p.value); }
  }

  lemma LoadedSpared(s: Sys, s2: Sys, s': Sys, f: int, t: nat, x: int)
    requires Spared(s, f, t, x) && f in s2.db.files && s2.page == s.page && s2.inodes == s.inodes
    requires var tok := s.db.nextToken;
             && Live(s2, tok) && s2.runs == s.runs[tok := FreshRun(f, s.db.files[f].size)] && Settled(s2.db, f)
             && s2.db.files[f].progress == s.db.files[f].progress && s2.db.files[f].size == s.db.files[f].size
             && tok in s'.runs && s' == SetRun(s2, tok, s'.runs[tok])
             && s'.runs[tok].fid == f && s'.runs[tok].size == s.db.files[f].size
             && s'.runs[tok].phase == Loaded && s'.runs[tok].seedSize == s'.runs[tok].size
             && Canonical(s'.runs[tok].seed) && Within(s'.runs[tok].seed, s'.runs[tok].size)
             && Bytes(s'.runs[tok].seed) == Recorded(s2.db.files[f])
    ensures Resumed(s', s.db.nextToken, t, x)
  {
    assert Recorded(s2.db.files[f]) == Recorded(s.db.files[f]);
  }

  /** Something is missing: the re-chunk inserts the whole pass, pending, beside done rows only. */
  lemma Rechunks(s: Sys, tok: nat, t: nat, x: int, n: int)
    requires Resumed(s, tok, t, x) && Complement(s.runs[tok].seed, 0, s.runs[tok].size) != []
    requires forall b | b in s.db.blocks :: b < n && s.db.blocks[b].idx < n
    ensures var s' := Next(s, Step.Rechunk(tok, 1, n, n));
            tok in s'.runs && Serving(s', tok, t, x, 0) && s'.runs[tok].fid == s.runs[tok].fid
  {
    var r := s.runs[tok];
    FreshIndicesFree(s.db, r.fid, r.seed, r.size, 1, n);
    RechunkServes(s, tok, t, x, n);
  }

  lemma RechunkServes(s: Sys, tok: nat, t: nat, x: int, n: int)
    requires Resumed(s, tok, t, x) && CanRechunk(s, tok, 1, n)
    requires IdxFree(WithoutPending(s.db, s.runs[tok].fid), s.runs[tok].fid, NewBlocks(s.runs[tok], 1, n))
    ensures var s' := RechunkRun(s, tok, 1, n, n);
            tok in s'.runs && Serving(s', tok, t, x, 0) && s'.runs[tok].fid == s.runs[tok].fid
  {
    var r := s.runs[tok];
    var blocks := NewBlocks(r, 1, n);
    var s' := RechunkRun(s, tok, 1, n, n);
    var r' := s'.runs[tok];
    ResumePartition(r.seed, r.size, 1, n);
    PendingRows(WithoutPending(s.db, r.fid), s'.db, r');
    UnitBlocks(blocks, n);
    forall i | 0 <= i < |blocks| && blocks[i].offset == x ensures t != tok && Stray(s', t, r.fid, x) {
      assert x in Bytes(Ranges(blocks));
    }
  }

  lemma PendingRows(rows: map<int, BlockRow>, db: Db, r: RunState)
    requires db.blocks == InsertBlocks(rows, r.fid, r.pass, r.firstId)
    requires forall b | b in rows && rows[b].fileId == r.fid :: rows[b].status == Done
    ensures forall i: nat | i < |r.pass| :: Row(db, r, i, Pending)
    ensures forall b | b in db.blocks && db.blocks[b].fileId == r.fid ::
              db.blocks[b].status == Done || r.firstId <= b < r.firstId + |r.pass|
  {
    InsertedBlocks(rows, r.fid, r.pass, r.firstId);
    forall i: nat | i < |r.pass| ensures Row(db, r, i, Pending) {
      InsertedAt(rows, r.fid, r.pass, r.firstId, i);
    }
  }

  /** Cut to size one, every block is one byte of the missing ranges. */
  lemma UnitBlocks(blocks: seq<Block>, n: int)
    requires Layout(blocks, 1, n, 0)
    ensures forall i | 0 <= i < |blocks| :: blocks[i].length == 1 && blocks[i].offset in Bytes(Ranges(blocks))
  {
    forall i | 0 <= i < |blocks| ensures blocks[i].length == 1 && blocks[i].offset in Bytes(Ranges(blocks)) {
      LayoutPairwise(blocks, 1, n, 0, i, i);
      InRanges(blocks, i);
    }
  }

  /** A resumed run that can do without byte x finishes without it. */
  lemma ResumedFinishes(s: Sys, tok: nat, t: nat, x: int) returns (steps: seq<Step>, step: Step)
    requires Resumed(s, tok, t, x)
    ensures Quiet(steps)
    ensures var s', f := Steps(s, steps), s.runs[tok].fid;
            && StatusIs(s'.db, f, Downloading) && StatusIs(Next(s', step).db, f, Downloaded)
            && x !in At(s'.page, f)
  {
    if Complement(s.runs[tok].seed, 0, s.runs[tok].size) == [] {
      steps, step := [], FinishEarly(tok);
      EarlyFinish(s, tok);
    } else {
      steps := RechunkedAndServed(s, tok, t, x);
      step := Settle(tok, 0);
      SettleFinishes(Steps(s, steps), tok, t, x);
    }
  }

  lemma EarlyFinish(s: Sys, tok: nat)
    requires Live(s, tok) && s.runs[tok].phase == Loaded && Complement(s.runs[tok].seed, 0, s.runs[tok].size) == []
    ensures StatusIs(Next(s, FinishEarly(tok)).db, s.runs[tok].fid, Downloaded)
  {
  }

  lemma RechunkedAndServed(s: Sys, tok: nat, t: nat, x: int) returns (steps: seq<Step>)
    requires Resumed(s, tok, t, x) && Complement(s.runs[tok].seed, 0, s.runs[tok].size) != []
    ensures Quiet(steps)
    ensures var s' := Steps(s, steps);
            && tok in s'.runs && s'.runs[tok].fid == s.runs[tok].fid
            && Serving(s', tok, t, x, |s'.runs[tok].pass|)
  {
    var n := Above(s.db.blocks);
    var open := Step.Rechunk(tok, 1, n, n);
    Rechunks(s, tok, t, x, n);
    var rest := ServeAll(Next(s, open), tok, t, x, 0);
    steps := [open] + rest;
    OneStep(s, open, rest);
  }

  /** From any state, some download of the file ends without a byte it can do without. */
  lemma EndsWithoutByte(s: Sys, f: int, t: nat, x: int) returns (steps: seq<Step>, step: Step)
    requires Inv(s.db) && Requeueable(s.db, f) && RecordShape(s.db.files[f]) && Spared(s, f, t, x)
    ensures Quiet(steps) && Finishes(s, steps, step, f) && x !in At(Steps(s, steps).page, f)
  {
    var first, tok := ForcedThenLoaded(s, f, t, x);
    var rest;
    rest, step := ResumedFinishes(Steps(s, first), tok, t, x);
    steps := first + rest;
    StepsConcat(s, first, rest);
    QuietUnlinksNothing(s, steps);
  }

  /** A record with a byte that is not stable leads, after a power failure, to a download without it. */
  lemma LostByteStaysLost(doubt: Doubt, s: Sys, f: int, x: int) returns (steps: seq<Step>, step: Step)
    requires SysInv(doubt, s) && Requeueable(s.db, f) && x in Recorded(s.db.files[f]) && x !in At(s.stable, f)
    ensures Finishes(s, steps, step, f) && x !in At(Steps(s, steps).page, f)
  {
    assert FileAt(doubt, s, f);
    RecordedInside(s.db.files[f]);
    PowerFails(s);
    var rest;
    rest, step := EndsWithoutByte(Next(s, Crash(s.stable)), f, 0, x);
    steps := [Crash(s.stable)] + rest;
    OneStep(s, Crash(s.stable), rest);
    QuietUnlinksNothing(s, steps);
  }

  /** A run that is not sound leads, if the staging file is not whole, to a download without some byte. */
  lemma StraySpoils(doubt: Doubt, s: Sys, f: int) returns (x: int, steps: seq<Step>, step: Step)
    requires SysInv(doubt, s) && Requeueable(s.db, f) && !AllWritten(s, f) && !RunsSound(s, f)
    ensures x in Range(0, s.db.files[f].size) && Finishes(s, steps, step, f) && x !in At(Steps(s, steps).page, f)
  {
    assert FileAt(doubt, s, f);
    var t :| t in s.runs && s.runs[t].fid == f && s.runs[t].phase.Running? && !Sound(s.runs[t], DiskAt(NONE, s, f));
    assert RunAt(doubt, s, t);
    x := Spoiled(s, f, t);
    steps, step := EndsWithoutByte(s, f, t, x);
  }

  lemma Spoiled(s: Sys, f: int, t: nat) returns (x: int)
    requires f in s.db.files && !AllWritten(s, f) && t in s.runs && t < s.db.nextToken
    requires s.runs[t].fid == f && s.runs[t].phase.Running? && Shape(s.runs[t]) && s.runs[t].size == s.db.files[f].size
    requires !Sound(s.runs[t], DiskAt(NONE, s, f))
    ensures Misled(s, f, t, x)
  {
    var r := s.runs[t];
    if r.inode != Inode(s, f) {
      x := OutsideOf(Range(0, s.db.files[f].size), At(s.page, f));
    } else if !(Bytes(r.tracker) <= At(s.page, f)) {
      x := OutsideOf(Bytes(r.tracker), At(s.page, f));
      WithinBytes(r.tracker, r.size);
    } else {
      x := OutsideOf(r.flushed, At(s.page, f));
    }
  }

  /**
   The exact condition. In any reachable state, for a file that is cached or queued: every download
   of it that ends before its staging file is next unlinked finds all its bytes there, if and only
   if the bytes its record claims are on stable storage, and its staging file is whole or every run
   that could still complete a block of it writes to that staging file and claims only what is in it.
   */
  lemma SafeIffRecordStable(steps: seq<Step>, f: int)
    requires Requeueable(Steps(START, steps).db, f)
    ensures var s := Steps(START, steps);
            AlwaysWritten(s, f) <==>
              Recorded(s.db.files[f]) <= At(s.stable, f) && (AllWritten(s, f) || RunsSound(s, f))
  {
    var s := Steps(START, steps);
    var doubt := Doubts(steps);
    ReachableInv(steps);
    assert FileAt(doubt, s, f);
    if !(Recorded(s.db.files[f]) <= At(s.stable, f)) {
      var x := OutsideOf(Recorded(s.db.files[f]), At(s.stable, f));
      var more, step := LostByteStaysLost(doubt, s, f, x);
      RecordedInside(s.db.files[f]);
      assert x in Range(0, s.db.files[f].size);
    } else if AllWritten(s, f) || RunsSound(s, f) {
      forall more: seq<Step>, step: Step | Finishes(s, more, step, f)
        ensures Range(0, s.db.files[f].size) <= At(Steps(s, more).page, f)
      {
        StableRecordIsSafe(doubt, s, f, more, step);
      }
    } else {
      var x, more, step := StraySpoils(doubt, s, f);
    }
  }

  /** For a file nobody is working on the record decides alone. */
  lemma IdleSafeIffRecordStable(steps: seq<Step>, f: int)
    requires var s := Steps(START, steps); Requeueable(s.db, f) && Idle(s, f)
    ensures var s := Steps(START, steps); AlwaysWritten(s, f) <==> Recorded(s.db.files[f]) <= At(s.stable, f)
  {
    SafeIffRecordStable(steps, f);
    assert RunsSound(Steps(START, steps), f);
  }

  /** Right after a publication, whose unlink leaves nothing on disk, that means: an empty record. */
  lemma PublishedSafeIffRecordEmpty(steps: seq<Step>, f: int)
    requires var s := Steps(START, steps); Requeueable(s.db, f) && Idle(s, f) && At(s.stable, f) == {}
    ensures var s := Steps(START, steps); AlwaysWritten(s, f) <==> Recorded(s.db.files[f]) == {}
  {
    IdleSafeIffRecordStable(steps, f);
  }

  /**
   A file whose publication was cut short, or whose content is wrong, comes back to the queue with no
   record. From there it is downloaded whole, whatever its staging file holds, if and only if no run
   that lost its lease can still complete its blocks elsewhere.
   */
  lemma RejectedSafeIff(steps: seq<Step>, tok: nat, f: int)
    requires var s := Steps(START, steps);
             OwnsFile(s.db, f, Verifying, Some(tok)) && StatusIs(Next(s, VerifyFails(f, tok)).db, f, Queued)
    ensures var s' := Next(Steps(START, steps), VerifyFails(f, tok));
            AlwaysWritten(s', f) <==> AllWritten(s', f) || RunsSound(s', f)
  {
    var s, reject := Steps(START, steps), VerifyFails(f, tok);
    StepsConcat(START, steps, [reject]);
    assert [reject] == [reject] + [];
    StepTo(s, reject, Next(s, reject), []);
    SafeIffRecordStable(steps + [reject], f);
    RejectionClears(s, f, tok);
  }

  lemma RejectionClears(s: Sys, f: int, tok: nat)
    requires OwnsFile(s.db, f, Verifying, Some(tok)) && StatusIs(Next(s, VerifyFails(f, tok)).db, f, Queued)
    ensures Recorded(Next(s, VerifyFails(f, tok)).db.files[f]) == {}
  {
  }
}
