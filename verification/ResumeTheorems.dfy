/** What the resume protocol guarantees in every state that any run of it reaches. */
module ResumeTheorems {
  import opened Base
  import opened Intervals
  import opened Chunking
  import opened Serde
  import opened Rows
  import opened Fencing
  import opened Resume
  import opened ResumeInv
  import opened ResumeProof

  // ---------------------------------------------------------------- which records are in doubt

  /** The inode counters say exactly which staging files were unlinked. */
  lemma {:induction false} UnlinkedAreCounted(s: Sys, steps: seq<Step>)
    ensures Steps(s, steps).inodes.Keys == s.inodes.Keys + UnlinkedBy(s, steps)
    decreases |steps|
  {
    if steps != [] {
      InodesNext(s, steps[0], Next(s, steps[0]));
      UnlinkedAreCounted(Next(s, steps[0]), steps[1..]);
    }
  }

  lemma InodesNext(s: Sys, step: Step, s': Sys)
    requires s' == Next(s, step)
    ensures s'.inodes.Keys == s.inodes.Keys + Unlinked(s, step)
    ensures !step.Unlink? ==> s'.inodes == s.inodes
  {
    if RunningStep(step) {
      RunFrame(s, step, s');
    } else if OpeningStep(step) {
      OpenFrame(s, step, s');
    } else {
      OtherInodes(s, step, s');
    }
  }

  lemma OtherInodes(s: Sys, step: Step, s': Sys)
    requires s' == Next(s, step) && !RunningStep(step) && !OpeningStep(step)
    ensures s'.inodes.Keys == s.inodes.Keys + Unlinked(s, step)
    ensures !step.Unlink? ==> s'.inodes == s.inodes
  {
  }

  /** What a step of a run leaves alone. */
  lemma RunFrame(s: Sys, step: Step, s': Sys)
    requires s' == Next(s, step) && RunningStep(step)
    ensures s' == s.(db := s'.db, page := s'.page, stable := s'.stable, runs := s'.runs)
  {
  }

  /** What opening and ending runs, store calls and crashes leave alone. */
  lemma OpenFrame(s: Sys, step: Step, s': Sys)
    requires s' == Next(s, step) && OpeningStep(step)
    ensures if step.Crash? then s' == s.(page := s'.page, stable := s'.stable, runs := s'.runs, salvages := s'.salvages)
            else s' == s.(db := s'.db, runs := s'.runs, gone := s'.gone)
  {
    match step
    case Rechunk(tok, bs, idx, first) => RechunkFrame(s, tok, bs, idx, first);
    case Start(fid, now, path, storeError) => StartFrame(s, fid, now, path, storeError);
    case Load(tok) => LoadFrame(s, tok);
    case _ =>
  }

  lemma LoadFrame(s: Sys, tok: nat)
    ensures var s' := LoadRecord(s, tok); s' == s.(runs := s'.runs)
  {
  }

  lemma StartFrame(s: Sys, fid: int, now: int, path: string, storeError: bool)
    ensures var s' := Admitted(s, fid, now, path, storeError); s' == s.(db := s'.db, runs := s'.runs)
  {
  }

  lemma RechunkFrame(s: Sys, tok: nat, blockSize: int, startIdx: int, firstId: int)
    ensures var s' := RechunkRun(s, tok, blockSize, startIdx, firstId);
            s' == s.(db := s'.db, runs := s'.runs, gone := s'.gone)
  {
  }

  /** What is in doubt after a run from the beginning. */
  function Doubts(steps: seq<Step>): Doubt { DoubtAfter(NONE, START, steps) }

  lemma ReachableInv(steps: seq<Step>)
    ensures SysInv(Doubts(steps), Steps(START, steps))
  {
    StepsKeep(NONE, START, steps);
  }

  /** A staging file never unlinked is never in doubt. */
  lemma NeverUnlinked(steps: seq<Step>, f: int)
    requires f !in Steps(START, steps).inodes
    ensures f !in Doubts(steps).records && f !in Doubts(steps).blocks
  {
    UnlinkedAreCounted(START, steps);
    DoubtNeedsUnlink(NONE, START, steps, f);
  }

  // ---------------------------------------------------------------- downloaded means written

  predicate StatusIs(db: Db, f: int, status: FileStatus) { f in db.files && db.files[f].status == status }

  /** The i-th block of the run's own pass is done and holds this byte. */
  predicate DoneIn(db: Db, r: RunState, i: nat, x: int)
    requires i < |r.pass|
  {
    var b := r.firstId + i;
    && b in db.blocks && db.blocks[b].fileId == r.fid && db.blocks[b].status == Done
    && db.blocks[b].offset <= x < db.blocks[b].End()
  }

  /** A run's resume record and the done blocks of its own pass hold every byte between them. */
  predicate AllAccounted(db: Db, r: RunState) {
    forall x | x in Range(0, r.size) ::
      x in Bytes(r.seed) || exists i: nat | i < |r.pass| :: DoneIn(db, r, i, x)
  }

  /** A file leaves downloading for downloaded only in these two store calls. */
  lemma OnlyTwoCallsFinish(db: Db, op: Op, f: int)
    requires StatusIs(db, f, Downloading) && StatusIs(Apply(db, op), f, Downloaded)
    ensures (op.Finish? && op.id == f && OwnsFile(db, f, Downloading, op.tok))
            || (op.Transition? && op.id == f && op.from == Downloading && op.to == Downloaded
                && !HasUnfinishedBlock(db, f))
  {
    if op.Sweep? {
      RecoverUnfold(db, op.now);
    } else if BlockCall(op) {
      BlockCallFiles(db, op);
    } else {
      FileCallFinishes(db, op, Apply(db, op), f);
    }
  }

  lemma FileCallFinishes(db: Db, op: Op, db': Db, f: int)
    requires !BlockCall(op) && !op.Sweep? && db' == Apply(db, op)
    requires StatusIs(db, f, Downloading) && StatusIs(db', f, Downloaded)
    ensures (op.Finish? && op.id == f && OwnsFile(db, f, Downloading, op.tok))
            || (op.Transition? && op.id == f && op.from == Downloading && op.to == Downloaded
                && !HasUnfinishedBlock(db, f))
  {
  }

  /** The store call a step makes, if any. */
  function CallOf(s: Sys, step: Step): Option<Op> {
    match step
    case Call(op) => if Ambient(op) then Some(op) else None
    case Start(fid, now, path, storeError) => Some(StartCall(s, fid, now, path, storeError))
    case SalvageStart(now) => Some(Op.ClaimSalvage(now))
    case VerifyFails(fid, tok) =>
      if fid in s.gone || MatchesBlank(s, fid) then None else Some(Op.RejectVerify(fid, Some(tok)))
    case SalvageSave(tok) => SalvageCall(s, tok)
    case FinishEarly(tok) => FinishCall(s, tok)
    case Rechunk(tok, bs, idx, first) => RechunkCall(s, tok, bs, idx, first)
    case ClaimBlk(tok, bid, now) => ClaimCall(s, tok, bid, now)
    case CompleteBlk(tok, bid) => CompleteCall(s, tok, bid)
    case Settle(tok, now) => SettleCall(s, tok, now)
    case Persist(tok) => PersistCall(s, tok)
    case _ => None
  }

  function StartCall(s: Sys, fid: int, now: int, path: string, storeError: bool): Op {
    if fid in s.blobs && !storeError && MarkCachedFromBlob(s.db, fid, path).1.Ok? then Op.ReuseBlob(fid, path)
    else Op.Lease(fid, now)
  }

  function SalvageCall(s: Sys, tok: nat): Option<Op> {
    if SaveSalvage(s, tok).db == s.db then None
    else Some(Op.Save(s.salvages[tok].fid, Some(tok), Some(FullBlob(s.salvages[tok].size))))
  }

  function FinishCall(s: Sys, tok: nat): Option<Op> {
    if FinishLoaded(s, tok).db == s.db then None else Some(Op.Finish(s.runs[tok].fid, Some(tok)))
  }

  function RechunkCall(s: Sys, tok: nat, blockSize: int, startIdx: int, firstId: int): Option<Op> {
    if !CanRechunk(s, tok, blockSize, firstId) then None
    else Some(Op.Rechunk(s.runs[tok].fid, Some(tok), NewBlocks(s.runs[tok], blockSize, startIdx), firstId))
  }

  function ClaimCall(s: Sys, tok: nat, bid: int, now: int): Option<Op> {
    if ClaimForRun(s, tok, bid, now).db == s.db then None else Some(Op.Claim(bid, now))
  }

  function CompleteCall(s: Sys, tok: nat, bid: int): Option<Op> {
    if CompleteForRun(s, tok, bid).db == s.db then None
    else Some(Op.Complete(bid, Some(s.runs[tok].held[bid].token)))
  }

  function SettleCall(s: Sys, tok: nat, now: int): Option<Op> {
    if SettleRun(s, tok, now).db == s.db then None
    else Some(Op.Transition(s.runs[tok].fid, Some(tok), Downloading, Downloaded, now))
  }

  function PersistCall(s: Sys, tok: nat): Option<Op> {
    if PersistRun(s, tok).db == s.db then None
    else Some(Op.Save(s.runs[tok].fid, Some(tok), Some(Encode(Progress(s.runs[tok].size, s.runs[tok].ckpt.snap)))))
  }

  function After(db: Db, op: Option<Op>): Db { if op.Some? then Apply(db, op.value) else db }

  lemma StartedDb(s: Sys, fid: int, now: int)
    ensures StartRun(s, fid, now).db == LeaseFileForDownload(s.db, fid, now).0
  {
  }

  lemma LoadedDb(s: Sys, tok: nat)
    ensures LoadRecord(s, tok).db == s.db
  {
  }

  lemma CrashedDb(s: Sys, left: map<int, set<int>>)
    ensures CrashTo(s, left).db == s.db
  {
  }

  lemma SalvageStartedDb(s: Sys, now: int)
    ensures StartSalvageCopy(s, now).db == LeaseSalvage(s.db, now).0
  {
  }

  lemma StartCalls(s: Sys, fid: int, now: int, path: string, storeError: bool)
    ensures Admitted(s, fid, now, path, storeError).db == Apply(s.db, StartCall(s, fid, now, path, storeError))
  {
    StartedDb(s, fid, now);
  }

  lemma FinishCalls(s: Sys, tok: nat)
    ensures FinishLoaded(s, tok).db == After(s.db, FinishCall(s, tok))
  {
  }

  lemma SalvageCalls(s: Sys, tok: nat)
    ensures SaveSalvage(s, tok).db == After(s.db, SalvageCall(s, tok))
  {
  }

  lemma RechunkCalls(s: Sys, tok: nat, blockSize: int, startIdx: int, firstId: int)
    ensures RechunkRun(s, tok, blockSize, startIdx, firstId).db
         == After(s.db, RechunkCall(s, tok, blockSize, startIdx, firstId))
  {
  }

  lemma ClaimCalls(s: Sys, tok: nat, bid: int, now: int)
    ensures ClaimForRun(s, tok, bid, now).db == After(s.db, ClaimCall(s, tok, bid, now))
  {
  }

  lemma CompleteCalls(s: Sys, tok: nat, bid: int)
    ensures CompleteForRun(s, tok, bid).db == After(s.db, CompleteCall(s, tok, bid))
  {
  }

  lemma SettleCalls(s: Sys, tok: nat, now: int)
    ensures SettleRun(s, tok, now).db == After(s.db, SettleCall(s, tok, now))
  {
  }

  lemma PersistCalls(s: Sys, tok: nat)
    ensures PersistRun(s, tok).db == After(s.db, PersistCall(s, tok))
  {
  }

  lemma StepCalls(s: Sys, step: Step)
    ensures Next(s, step).db == After(s.db, CallOf(s, step))
  {
    if RunningStep(step) {
      RunStepCalls(s, step, Next(s, step));
    } else if OpeningStep(step) {
      OpenStepCalls(s, step, Next(s, step));
    } else {
      OtherStepCalls(s, step, Next(s, step));
    }
  }

  lemma OtherStepCalls(s: Sys, step: Step, s': Sys)
    requires s' == Next(s, step) && !RunningStep(step) && !OpeningStep(step)
    ensures s'.db == After(s.db, CallOf(s, step))
  {
    match step
    case SalvageSave(tok) => SalvageCalls(s, tok);
    case SalvageStart(now) => SalvageStartedDb(s, now);
    case _ =>
  }

  lemma OpenStepCalls(s: Sys, step: Step, s': Sys)
    requires s' == Next(s, step) && OpeningStep(step)
    ensures s'.db == After(s.db, CallOf(s, step))
  {
    match step
    case Start(fid, now, path, storeError) => StartCalls(s, fid, now, path, storeError);
    case FinishEarly(tok) => FinishCalls(s, tok);
    case Rechunk(tok, bs, idx, first) => RechunkCalls(s, tok, bs, idx, first);
    case Load(tok) => LoadedDb(s, tok);
    case Crash(left) => CrashedDb(s, left);
    case _ =>
  }

  lemma RunStepCalls(s: Sys, step: Step, s': Sys)
    requires s' == Next(s, step) && RunningStep(step)
    ensures s'.db == After(s.db, CallOf(s, step))
  {
    match step
    case ClaimBlk(tok, bid, now) => ClaimCalls(s, tok, bid, now);
    case CompleteBlk(tok, bid) => CompleteCalls(s, tok, bid);
    case Settle(tok, now) => SettleCalls(s, tok, now);
    case Persist(tok) => PersistCalls(s, tok);
    case _ =>
  }

  /** Only two steps move a file from downloading to downloaded, and each accounts for every byte. */
  lemma FinishingStep(s: Sys, step: Step, f: int)
    requires StatusIs(s.db, f, Downloading) && StatusIs(Next(s, step).db, f, Downloaded)
    ensures step.FinishEarly? || step.Settle?
    ensures Live(s, step.tok) && s.runs[step.tok].fid == f
    ensures step.FinishEarly? ==> Complement(s.runs[step.tok].seed, 0, s.runs[step.tok].size) == []
    ensures step.Settle? ==> s.runs[step.tok].phase == Running && !HasUnfinishedBlock(s.db, f)
  {
    StepCalls(s, step);
    var op := CallOf(s, step).value;
    OnlyTwoCallsFinish(s.db, op, f);
  }

  /** Every byte of a finishing file is in the record its run resumed from or in a done block of its pass. */
  lemma FinishedIsAccounted(doubt: Doubt, s: Sys, step: Step, f: int)
    requires SysInv(doubt, s) && StatusIs(s.db, f, Downloading) && StatusIs(Next(s, step).db, f, Downloaded)
    ensures (step.FinishEarly? || step.Settle?) && step.tok in s.runs && s.runs[step.tok].fid == f
    ensures s.runs[step.tok].size == s.db.files[f].size && AllAccounted(s.db, s.runs[step.tok])
    ensures f !in doubt.records && (step.FinishEarly? || f !in doubt.blocks) ==> AllWritten(s, f)
  {
    FinishingStep(s, step, f);
    var r := s.runs[step.tok];
    assert RunAt(doubt, s, step.tok);
    if step.FinishEarly? {
      ComplementBytes(r.seed, 0, r.size);
    } else {
      forall x | x in Range(0, r.size)
        ensures x in Bytes(r.seed) || exists i: nat | i < |r.pass| :: DoneIn(s.db, r, i, x)
        ensures DiskAt(doubt, s, f).solid ==> x in At(s.page, f)
      {
        if x !in Bytes(r.seed) { var i := PassByteDone(s.db, DiskAt(doubt, s, f), step.tok, r, x); }
      }
    }
  }

  lemma PassByteDone(db: Db, disk: Disk, tok: nat, r: RunState, x: int) returns (i: nat)
    requires PassOk(db, disk, tok, r) && Owner(db, tok, r) && r.phase.Running? && !HasUnfinishedBlock(db, r.fid)
    requires x in Range(0, r.size) && x !in Bytes(r.seed)
    ensures i < |r.pass| && DoneIn(db, r, i, x)
    ensures disk.solid ==> x in disk.page
  {
    i := BlockOf(r.pass, x);
    assert PassRow(db, disk, r, i);
    var b := r.firstId + i;
    assert b in db.blocks && db.blocks[b].fileId == r.fid && db.blocks[b].status == Done;
    assert x in Range(r.pass[i].offset, r.pass[i].End());
  }

  lemma {:induction false} BlockOf(blocks: seq<Block>, x: int) returns (i: nat)
    requires x in Bytes(Ranges(blocks))
    ensures i < |blocks| && x in Range(blocks[i].offset, blocks[i].End())
  {
    assert Ranges(blocks)[1..] == Ranges(blocks[1..]);
    if x in Range(blocks[0].offset, blocks[0].End()) {
      i := 0;
    } else {
      var j := BlockOf(blocks[1..], x);
      i := j + 1;
    }
  }

  /** Every byte of the file is in its staging file. */
  predicate AllWritten(s: Sys, f: int)
    requires f in s.db.files
  {
    Range(0, s.db.files[f].size) <= At(s.page, f)
  }

  /**
   The promise of the whole protocol. In every run of leases, re-chunks, claims, writes,
   checkpoints, completions, fallbacks, recoveries, salvages, publications, rejections, crashes and
   stale workers, a file goes from downloading to downloaded only when the record decoded at lease
   time and the done blocks of the run's own pass hold all of [0, size). Then every byte is in its
   staging file if that was never unlinked, or if nothing about it is in doubt any more; an early
   finish needs only a record that is not in doubt, which for a row without a cache path is so.
   */
  lemma DownloadedMeansWritten(steps: seq<Step>, step: Step, f: int)
    requires var s := Steps(START, steps);
             StatusIs(s.db, f, Downloading) && StatusIs(Next(s, step).db, f, Downloaded)
    ensures var s := Steps(START, steps);
            && (step.FinishEarly? || step.Settle?) && Live(s, step.tok) && s.runs[step.tok].fid == f
            && (step.FinishEarly? ==> Complement(s.runs[step.tok].seed, 0, s.db.files[f].size) == [])
            && AllAccounted(s.db, s.runs[step.tok])
            && (f !in s.inodes ==> AllWritten(s, f))
            && (f !in Doubts(steps).records && f !in Doubts(steps).blocks ==> AllWritten(s, f))
            && (step.FinishEarly? && s.db.files[f].cachePath.None? && f !in StrayUnlinks(START, steps) ==>
                  AllWritten(s, f))
  {
    var s := Steps(START, steps);
    ReachableInv(steps);
    FinishedWhole(Doubts(steps), s, step, f);
    TrustedWhenDownloading(steps, f);
  }

  /** What of a downloading file is not in doubt. */
  lemma TrustedWhenDownloading(steps: seq<Step>, f: int)
    requires StatusIs(Steps(START, steps).db, f, Downloading)
    ensures var s, doubt := Steps(START, steps), Doubts(steps);
            && (f !in s.inodes ==> f !in doubt.records && f !in doubt.blocks)
            && (s.db.files[f].cachePath.None? && f !in StrayUnlinks(START, steps) ==> f !in doubt.records)
  {
    var s := Steps(START, steps);
    if f !in s.inodes { NeverUnlinked(steps, f); }
    if s.db.files[f].cachePath.None? && f !in StrayUnlinks(START, steps) { UnpublishedTrusted(steps, f); }
  }

  lemma FinishedWhole(doubt: Doubt, s: Sys, step: Step, f: int)
    requires SysInv(doubt, s) && StatusIs(s.db, f, Downloading) && StatusIs(Next(s, step).db, f, Downloaded)
    ensures (step.FinishEarly? || step.Settle?) && Live(s, step.tok) && s.runs[step.tok].fid == f
    ensures step.FinishEarly? ==> Complement(s.runs[step.tok].seed, 0, s.db.files[f].size) == []
    ensures AllAccounted(s.db, s.runs[step.tok])
    ensures f !in doubt.records && (step.FinishEarly? || f !in doubt.blocks) ==> AllWritten(s, f)
  {
    FinishingStep(s, step, f);
    FinishedIsAccounted(doubt, s, step, f);
  }

  /** Numbered past every row of the file, the new blocks never collide with a surviving one. */
  lemma FreshIndicesFree(db: Db, f: int, iv: seq<Interval>, size: int, blockSize: int, startIdx: int)
    requires Canonical(iv) && Within(iv, size) && size > 0 && blockSize > 0
    requires forall b | b in db.blocks && db.blocks[b].fileId == f :: db.blocks[b].idx < startIdx
    ensures IdxFree(WithoutPending(db, f), f, ChunkBlocks(Complement(iv, 0, size), blockSize, startIdx))
  {
    var blocks := ChunkBlocks(Complement(iv, 0, size), blockSize, startIdx);
    ResumePartition(iv, size, blockSize, startIdx);
    forall i | 0 <= i < |blocks| ensures blocks[i].idx == startIdx + i {
      LayoutPairwise(blocks, blockSize, startIdx, 0, i, i);
    }
  }

  // ---------------------------------------------------------------- durability

  /**
   At any moment a crash keeps every byte a stored record claims, unless the staging file was
   unlinked. A row without a cache path that may still be downloaded or salvaged is never in that
   case, unless a verifier unlinked the file after losing its lease: a process that dies between
   unlinking and committing leaves the row with the verifier, and a rejection clears the record.
   */
  lemma RecordsAreDurable(steps: seq<Step>, f: int, left: map<int, set<int>>)
    requires var s := Steps(START, steps);
             f in s.db.files && (f !in s.inodes || (f !in StrayUnlinks(START, steps) && !Excused(s.db, f)))
    ensures var s := Steps(START, steps);
            && Recorded(s.db.files[f]) <= At(s.stable, f) <= At(s.page, f)
            && Next(s, Crash(left)).db == s.db
            && Recorded(s.db.files[f]) <= At(Next(s, Crash(left)).page, f)
  {
    var s := Steps(START, steps);
    ReachableInv(steps);
    if f !in s.inodes { NeverUnlinked(steps, f); } else { UnpublishedTrusted(steps, f); }
    assert FileAt(Doubts(steps), s, f);
    DurableIn(s, f, left);
  }

  lemma DurableIn(s: Sys, f: int, left: map<int, set<int>>)
    requires f in s.db.files && Recorded(s.db.files[f]) <= At(s.stable, f) <= At(s.page, f)
    ensures var s' := Next(s, Crash(left)); s'.db == s.db && Recorded(s.db.files[f]) <= At(s'.page, f)
  {
    CrashedDb(s, left);
    CrashedPage(s, left, f);
  }

  lemma CrashedPage(s: Sys, left: map<int, set<int>>, f: int)
    requires At(s.stable, f) <= At(s.page, f)
    ensures At(s.stable, f) <= At(CrashTo(s, left).page, f)
  {
  }

  // ---------------------------------------------------------------- whose records are in doubt

  predicate AtVerifier(status: FileStatus) { status == Downloaded || status == Verifying }

  /** Rows that publication has reached: with a cache path, with the verifier, or given up. */
  predicate Excused(db: Db, f: int)
    requires f in db.files
  {
    db.files[f].cachePath.Some? || AtVerifier(db.files[f].status) || db.files[f].status == FileError
  }

  /** The file a step unlinks on behalf of a verifier that no longer holds the lease. */
  function StrayUnlink(s: Sys, step: Step): set<int> {
    if step.Unlink? && !OwnsFile(s.db, step.fid, Verifying, Some(step.tok)) then Unlinked(s, step) else {}
  }

  function StrayUnlinks(s: Sys, steps: seq<Step>): set<int>
    decreases |steps|
  {
    if steps == [] then {} else StrayUnlink(s, steps[0]) + StrayUnlinks(Next(s, steps[0]), steps[1..])
  }

  /** No call but a rejection takes a file from its verifier without a cache path, and none clears a path. */
  lemma WaitingRow(db: Db, op: Op, f: int)
    requires Legal(db, op) && f in db.files && !op.RejectVerify?
    ensures f in Apply(db, op).files
    ensures db.files[f].cachePath.Some? ==> Apply(db, op).files[f].cachePath.Some?
    ensures AtVerifier(db.files[f].status) && Apply(db, op).files[f].cachePath.None? ==>
              AtVerifier(Apply(db, op).files[f].status)
  {
    if op.Sweep? {
      RecoverUnfold(db, op.now);
    } else if BlockCall(op) {
      BlockCallFiles(db, op);
    } else {
      FileCallWaits(db, op, Apply(db, op), f);
    }
  }

  lemma FileCallWaits(db: Db, op: Op, db': Db, f: int)
    requires !BlockCall(op) && !op.Sweep? && db' == Apply(db, op)
    requires Legal(db, op) && f in db.files && !op.RejectVerify?
    ensures f in db'.files && (db.files[f].cachePath.Some? ==> db'.files[f].cachePath.Some?)
    ensures AtVerifier(db.files[f].status) && db'.files[f].cachePath.None? ==> AtVerifier(db'.files[f].status)
  {
  }

  /** A rejection keeps the cache path, and a file it puts back in the queue has no record. */
  lemma RejectedRow(db: Db, g: int, tok: Option<nat>, f: int)
    requires f in db.files
    ensures var db' := FailVerify(db, g, tok).0;
            && f in db'.files && db'.files[f].cachePath == db.files[f].cachePath
            && (db'.files[f] == db.files[f]
                || db'.files[f].status == FileError
                || (db'.files[f].status == Queued && db'.files[f].progress.None?))
  {
  }

  lemma ExcusedNext(db: Db, op: Op, f: int)
    requires Legal(db, op) && f in db.files && Excused(db, f)
    ensures f in Apply(db, op).files
    ensures Excused(Apply(db, op), f)
         || (Apply(db, op).files[f].status == Queued && Apply(db, op).files[f].progress.None?)
  {
    if op.RejectVerify? {
      RejectedRow(db, op.id, op.tok, f);
    } else {
      WaitingRow(db, op, f);
      OnlyMachineEdges(db, op, f);
    }
  }

  lemma CallIsLegal(s: Sys, step: Step, call: Option<Op>)
    requires call == CallOf(s, step)
    ensures call.Some? ==> Legal(s.db, call.value)
  {
  }

  /** Records in doubt belong to files that publication has reached, stray unlinks apart. */
  predicate OnlyExcused(doubt: Doubt, stray: set<int>, db: Db) {
    forall f | f in doubt.records :: f in stray || (f in db.files && Excused(db, f))
  }

  lemma NextExcused(doubt: Doubt, stray: set<int>, s: Sys, step: Step)
    requires OnlyExcused(doubt, stray, s.db)
    ensures OnlyExcused(NextDoubt(doubt, s, step), stray + StrayUnlink(s, step), Next(s, step).db)
  {
    var s' := Next(s, step);
    StepCalls(s, step);
    CallIsLegal(s, step, CallOf(s, step));
    forall f | f in NextDoubt(doubt, s, step).records && f !in stray + StrayUnlink(s, step)
      ensures f in s'.db.files && Excused(s'.db, f)
    {
      RowExcused(s, s', CallOf(s, step), f);
      ClearedIsStable(s', f);
    }
  }

  /** A queued file without a record has nothing in doubt. */
  lemma ClearedIsStable(s: Sys, f: int)
    ensures StatusIs(s.db, f, Queued) && s.db.files[f].progress.None? ==> RecordStable(s, f)
  {
  }

  lemma RowExcused(s: Sys, s': Sys, call: Option<Op>, f: int)
    requires s'.db == After(s.db, call) && (call.Some? ==> Legal(s.db, call.value))
    requires f in s.db.files && Excused(s.db, f)
    ensures f in s'.db.files
    ensures Excused(s'.db, f) || (s'.db.files[f].status == Queued && s'.db.files[f].progress.None?)
  {
    if call.Some? { ExcusedNext(s.db, call.value, f); }
  }

  lemma {:induction false} StepsExcused(doubt: Doubt, stray: set<int>, s: Sys, steps: seq<Step>)
    requires OnlyExcused(doubt, stray, s.db)
    ensures OnlyExcused(DoubtAfter(doubt, s, steps), stray + StrayUnlinks(s, steps), Steps(s, steps).db)
    decreases |steps|
  {
    if steps == [] {
      assert stray + {} == stray;
    } else {
      var more := stray + StrayUnlink(s, steps[0]);
      NextExcused(doubt, stray, s, steps[0]);
      StepsExcused(NextDoubt(doubt, s, steps[0]), more, Next(s, steps[0]), steps[1..]);
      assert more + StrayUnlinks(Next(s, steps[0]), steps[1..]) == stray + StrayUnlinks(s, steps);
    }
  }

  /**
   In every reachable state, stray unlinks apart, a row whose record may speak about a staging file
   that is gone has a cache path, or waits for its verifier, or is in error.
   */
  lemma DoubtedRows(steps: seq<Step>)
    ensures OnlyExcused(Doubts(steps), StrayUnlinks(START, steps), Steps(START, steps).db)
  {
    StepsExcused(NONE, {}, START, steps);
    assert {} + StrayUnlinks(START, steps) == StrayUnlinks(START, steps);
  }

  lemma UnpublishedTrusted(steps: seq<Step>, f: int)
    requires var s := Steps(START, steps);
             f in s.db.files && !Excused(s.db, f) && f !in StrayUnlinks(START, steps)
    ensures f !in Doubts(steps).records
  {
    DoubtedRows(steps);
  }

  // ---------------------------------------------------------------- growth

  /** The three ways a record may lose bytes: cleared, rejected by the verifier, or a fallback that failed. */
  predicate MayShrink(s: Sys, step: Step) {
    || (step.Call? && step.op.Save?)
    || step.VerifyFails?
    || (step.Persist? && step.tok in s.runs && s.runs[step.tok].phase.FallingBack?)
  }

  /** Otherwise successive records only grow, whoever writes them. */
  lemma RecordsGrow(steps: seq<Step>, step: Step, f: int)
    requires var s := Steps(START, steps); f in s.db.files && !MayShrink(s, step)
    ensures var s := Steps(START, steps);
            f in Next(s, step).db.files && Recorded(s.db.files[f]) <= Recorded(Next(s, step).db.files[f])
  {
    ReachableInv(steps);
    RecordGrows(Doubts(steps), Steps(START, steps), step, f);
  }

  lemma RecordGrows(doubt: Doubt, s: Sys, step: Step, f: int)
    requires SysInv(doubt, s) && f in s.db.files && !MayShrink(s, step)
    ensures f in Next(s, step).db.files && Recorded(s.db.files[f]) <= Recorded(Next(s, step).db.files[f])
  {
    match step
    case Persist(tok) => PersistStepGrows(doubt, s, tok, f);
    case SalvageSave(tok) => SalvageStepGrows(doubt, s, tok, f);
    case _ => OtherStepsKeepRecord(s, step, f);
  }

  lemma PersistStepGrows(doubt: Doubt, s: Sys, tok: nat, f: int)
    requires SysInv(doubt, s) && f in s.db.files && !MayShrink(s, Persist(tok))
    ensures var s' := Next(s, Persist(tok));
            f in s'.db.files && Recorded(s.db.files[f]) <= Recorded(s'.db.files[f])
  {
    PersistGrows(doubt, s, tok, f);
  }

  lemma SalvageStepGrows(doubt: Doubt, s: Sys, tok: nat, f: int)
    requires SysInv(doubt, s) && f in s.db.files
    ensures var s' := Next(s, SalvageSave(tok));
            f in s'.db.files && Recorded(s.db.files[f]) <= Recorded(s'.db.files[f])
  {
    SalvageGrows(doubt, s, tok, f);
  }

  lemma OtherStepsKeepRecord(s: Sys, step: Step, f: int)
    requires f in s.db.files && !MayShrink(s, step) && !step.Persist? && !step.SalvageSave?
    ensures f in Next(s, step).db.files && Next(s, step).db.files[f].progress == s.db.files[f].progress
  {
    StepCalls(s, step);
    if CallOf(s, step).Some? { OtherCallsKeepRecord(s.db, CallOf(s, step).value, f); }
  }

  lemma OtherCallsKeepRecord(db: Db, op: Op, f: int)
    requires f in db.files && !op.Save? && !op.RejectVerify?
    ensures f in Apply(db, op).files && Apply(db, op).files[f].progress == db.files[f].progress
  {
    if op.Sweep? {
      SweptFile(db, op.now, f);
    } else if BlockCall(op) {
      BlockCallFiles(db, op);
    } else {
      FileCallKeepsRecord(db, op, Apply(db, op), f);
    }
  }

  lemma FileCallKeepsRecord(db: Db, op: Op, db': Db, f: int)
    requires !BlockCall(op) && !op.Sweep? && db' == Apply(db, op)
    requires f in db.files && !op.Save? && !op.RejectVerify?
    ensures f in db'.files && db'.files[f].progress == db.files[f].progress
  {
  }

  /** What a decodable record claims lies inside the file. */
  lemma RecordedInside(row: FileRow)
    requires RecordShape(row)
    ensures Recorded(row) <= Range(0, row.size)
  {
    if row.progress.Some? && Decode(row.progress.value).Ok? {
      AcceptedIsCanonical(row.progress.value);
      WithinBytes(Decode(row.progress.value).value.iv, row.size);
    }
  }

  lemma PersistGrows(doubt: Doubt, s: Sys, tok: nat, f: int)
    requires SysInv(doubt, s) && f in s.db.files && (tok in s.runs ==> !s.runs[tok].phase.FallingBack?)
    ensures var db' := PersistRun(s, tok).db; f in db'.files && Recorded(s.db.files[f]) <= Recorded(db'.files[f])
  {
    if tok in s.runs && s.runs[tok].ckpt.Synced? {
      assert RunAt(doubt, s, tok) && FileAt(doubt, s, s.runs[tok].fid);
      PersistedGrows(s.db, tok, s.runs[tok], f);
    }
  }

  lemma SalvageGrows(doubt: Doubt, s: Sys, tok: nat, f: int)
    requires SysInv(doubt, s) && f in s.db.files
    ensures var db' := SaveSalvage(s, tok).db; f in db'.files && Recorded(s.db.files[f]) <= Recorded(db'.files[f])
  {
    if tok in s.salvages {
      assert SalvageAt(doubt, s, tok) && FileAt(doubt, s, s.salvages[tok].fid);
      SalvagedGrows(s.db, tok, s.salvages[tok], f);
    }
  }

  lemma PersistedGrows(db: Db, tok: nat, r: RunState, f: int)
    requires f in db.files && r.fid in db.files && r.size == db.files[r.fid].size && OnlyOn(db, tok, r.fid, Downloading)
    requires Shape(r) && RecordShape(db.files[r.fid]) && RecordBehind(db, tok, r)
    requires !r.phase.FallingBack? && r.ckpt.Synced?
    ensures Encodable(r.ckpt.snap, r.size)
    ensures var db' := SaveProgress(db, r.fid, Some(tok), Some(Encode(Progress(r.size, r.ckpt.snap)))).0;
            f in db'.files && Recorded(db.files[f]) <= Recorded(db'.files[f])
  {
    RoundTrip(Progress(r.size, r.ckpt.snap));
    RecordedInside(db.files[r.fid]);
  }

  lemma SalvagedGrows(db: Db, tok: nat, v: Salvage, f: int)
    requires f in db.files && v.fid in db.files && v.size == db.files[v.fid].size && RecordShape(db.files[v.fid])
    ensures var db' := SaveProgress(db, v.fid, Some(tok), Some(FullBlob(v.size))).0;
            f in db'.files && Recorded(db.files[f]) <= Recorded(db'.files[f])
  {
    FullBlobMeaning(v.size);
    RecordedInside(db.files[v.fid]);
  }

  /** A checkpoint skipped because nothing changed would have written the very blob it last wrote. */
  lemma SkippedCheckpointSame(steps: seq<Step>, tok: nat)
    requires var s := Steps(START, steps);
             tok in s.runs && s.runs[tok].last.Some? && s.runs[tok].last.value.0 == s.runs[tok].changes
    ensures var r := Steps(START, steps).runs[tok];
            && Encodable(r.tracker, r.size) && Encodable(r.last.value.1, r.size)
            && Encode(Progress(r.size, r.tracker)) == Encode(Progress(r.size, r.last.value.1))
  {
    ReachableInv(steps);
    var r := Steps(START, steps).runs[tok];
    assert RunAt(Doubts(steps), Steps(START, steps), tok);
    CanonicalOrdered(r.tracker, 0, r.size);
  }

  /** A stored record of a non-empty file always decodes: the corrupt-record branch is dead for it. */
  lemma RecordsDecode(steps: seq<Step>, tok: nat)
    requires var s := Steps(START, steps);
             tok in s.runs && s.runs[tok].phase.Leased? && s.runs[tok].size > 0
    ensures var s' := LoadRecord(Steps(START, steps), tok);
            tok in s'.runs && s'.runs[tok].phase.Loaded? && s'.runs[tok].seedSize == s'.runs[tok].size
            && Bytes(s'.runs[tok].seed) == Recorded(s'.db.files[s'.runs[tok].fid])
  {
    var s := Steps(START, steps);
    ReachableInv(steps);
    assert RunAt(Doubts(steps), s, tok) && FileAt(Doubts(steps), s, s.runs[tok].fid);
    LoadDecodes(s, tok);
  }

  lemma LoadDecodes(s: Sys, tok: nat)
    requires tok in s.runs && s.runs[tok].phase.Leased? && s.runs[tok].size > 0 && Shape(s.runs[tok])
    requires var r := s.runs[tok];
             r.fid in s.db.files && r.size == s.db.files[r.fid].size && RecordShape(s.db.files[r.fid])
    ensures var s' := LoadRecord(s, tok);
            && s'.db == s.db && s'.page == s.page && tok in s'.runs
            && s'.runs[tok].fid == s.runs[tok].fid && s'.runs[tok].size == s.runs[tok].size
            && s'.runs[tok].phase.Loaded? && s'.runs[tok].seedSize == s'.runs[tok].size
            && Bytes(s'.runs[tok].seed) == Recorded(s'.db.files[s'.runs[tok].fid])
  {
  }
}
