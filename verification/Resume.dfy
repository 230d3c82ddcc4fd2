/**
 The lease, resume and checkpoint protocol as one transition system: the store's rows, the bytes
 each staging file holds in the page cache and on stable storage, the published blobs, and any
 number of download runs and salvage copies, current or stale, interleaved in any order with
 recovery, heartbeats, verification, publication, forced re-downloads and crashes.

 A run is keyed by the file token it was granted. It follows pkg/sched/download.go startDownload
 (lease, load, complement, re-chunk) and pkg/transfer (claim, write, record, checkpoint,
 complete, single-stream fallback). Each store call is one step, and so is each of the three
 parts of a checkpoint: snapshot, fsync, persist.
 */
module Resume {
  import opened Base
  import opened Intervals
  import opened Chunking
  import opened Serde
  import opened Rows
  import opened Fencing

  // ---------------------------------------------------------------- state

  datatype Phase =
    | Leased                      // holds the file lease, nothing read yet
    | Loaded                      // resume record decoded
    | Running                     // blocks re-chunked; workers, checkpoints
    | FallingBack(got: set<int>)  // single-stream fallback, bytes fetched so far
    | Fallen                      // fallback complete

  datatype Checkpoint =
    | Idle
    | Snapped(snap: seq<Interval>, at: nat)
    | Synced(snap: seq<Interval>, at: nat)

  datatype Held = Held(token: nat, offset: int, length: int)

  datatype RunState = RunState(
    fid: int, size: int, phase: Phase,
    seed: seq<Interval>, seedSize: int,     // the decoded resume record
    pass: seq<Block>, firstId: int,         // blocks this run inserted, as rows firstId + i
    inode: nat,                             // the staging file this run opened
    held: map<int, Held>,                   // leased blocks and their tokens
    flushed: set<int>,                      // bytes written to the file by this run
    tracker: seq<Interval>, changes: nat,   // recorded bytes and the mutation counter
    ckpt: Checkpoint, last: Option<(nat, seq<Interval>)>)

  /** A salvage copy: the staging file it opened, the bytes copied into it, whether it has fsynced. */
  datatype Salvage = Salvage(fid: int, size: int, inode: Option<nat>, got: set<int>, synced: bool)

  datatype Sys = Sys(
    db: Db,
    page: map<int, set<int>>,    // bytes of each staging file as a reader sees them
    stable: map<int, set<int>>,  // bytes that survive a crash
    inodes: map<int, nat>,       // how often each staging file has been unlinked, if ever
    gone: set<int>,              // unlinked and not created again
    blobs: set<int>,             // files whose blob is in the store
    blank: set<int>,             // files whose listed hash is that of zeros
    runs: map<nat, RunState>,
    salvages: map<nat, Salvage>)

  function At(m: map<int, set<int>>, f: int): set<int> { if f in m then m[f] else {} }

  function Grow(m: map<int, set<int>>, f: int, more: set<int>): map<int, set<int>> { m[f := At(m, f) + more] }

  const START: Sys := Sys(EMPTY, map[], map[], map[], {}, {}, {}, map[], map[])

  /** The identity of a file's current staging file. */
  function Inode(s: Sys, f: int): nat { if f in s.inodes then s.inodes[f] else 0 }

  /** The run still owns its file: its token is on the row and the row is downloading. */
  predicate Live(s: Sys, tok: nat) {
    tok in s.runs && OwnsFile(s.db, s.runs[tok].fid, Downloading, Some(tok))
  }

  // ---------------------------------------------------------------- steps

  /**
   Store calls that any caller may make at any time, with any token. EndVerify is the commit of a
   publication, and the offline completion that leaves the staging file alone.
   */
  predicate Ambient(op: Op) {
    match op
    case Insert(_, size) => size <= MAX_INT64
    case Transition(_, tok, from, to, _) => CallerEdge(tok, from, to) && !(from == Downloading && to == Downloaded)
    case Save(_, _, blob) => blob.None?
    case BumpRetries(_, _) => true
    case ClaimVerify(_) => true
    case EndVerify(_, _, _) => true
    case ReuseBlob(_, _) => true
    case StartSalvage(_) => true
    case Requeue(_, _, _) => true
    case RenewFile(_, _, _, _) => true
    case RenewBlock(_, _, _, _) => true
    case Sweep(_) => true
    case _ => false
  }

  datatype Step =
    | Call(op: Op)
    | Start(fid: int, now: int, path: string, storeError: bool)
    | Load(tok: nat)
    | FinishEarly(tok: nat)
    | Rechunk(tok: nat, blockSize: int, startIdx: int, firstId: int)
    | ClaimBlk(tok: nat, bid: int, now: int)
    | Write(tok: nat, bid: int, from: int, to: int)
    | Record(tok: nat, from: int, to: int)
    | CompleteBlk(tok: nat, bid: int)
    | Settle(tok: nat, now: int)
    | Snapshot(tok: nat)
    | Fsync(tok: nat)
    | FsyncFailed(tok: nat)
    | Persist(tok: nat)
    | StartFallback(tok: nat)
    | FallbackWrite(tok: nat, from: int, to: int)
    | FallbackDone(tok: nat)
    | End(tok: nat)
    | SalvageStart(now: int)
    | SalvageOpen(tok: nat)
    | SalvageCopy(tok: nat, from: int, to: int)
    | SalvageSync(tok: nat)
    | SalvageSave(tok: nat)
    | Listed(fid: int, zeros: bool)
    | VerifyOpen(fid: int)
    | VerifyFails(fid: int, tok: nat)
    | Unlink(fid: int, tok: nat)
    | BlobAppears(fid: int)
    | Evict(fid: int)
    | Crash(left: map<int, set<int>>)

  function FreshRun(fid: int, size: int): RunState {
    RunState(fid, size, Leased, [], size, [], 0, 0, map[], {}, [], 0, Idle, None)
  }

  function SetRun(s: Sys, tok: nat, r: RunState): Sys { s.(runs := s.runs[tok := r]) }

  /**
   A queued file whose blob is in the store is marked cached instead of downloaded; only when
   that mark fails with a store error does the download start all the same.
   */
  function Admitted(s: Sys, fid: int, now: int, path: string, storeError: bool): Sys {
    if fid in s.blobs && !storeError && MarkCachedFromBlob(s.db, fid, path).1.Ok? then
      s.(db := MarkCachedFromBlob(s.db, fid, path).0)
    else StartRun(s, fid, now)
  }

  function StartRun(s: Sys, fid: int, now: int): Sys {
    var (db, r) := LeaseFileForDownload(s.db, fid, now);
    var s1 := s.(db := db);
    if r.Ok? then SetRun(s1, r.value, FreshRun(fid, s.db.files[fid].size)) else s1
  }

  /** Read and decode the resume record; a corrupt one ends the run. */
  function LoadRecord(s: Sys, tok: nat): Sys {
    if tok !in s.runs || s.runs[tok].phase != Leased then s else
      var r := s.runs[tok];
      if r.fid !in s.db.files then s.(runs := s.runs - {tok}) else
      match s.db.files[r.fid].progress
      case None => SetRun(s, tok, r.(phase := Loaded))
      case Some(blob) =>
        if blob == [] then SetRun(s, tok, r.(phase := Loaded)) else
        match Decode(blob)
        case Err(_) => s.(runs := s.runs - {tok})
        case Ok(p) => SetRun(s, tok, r.(phase := Loaded, seed := p.iv, seedSize := p.size, tracker := p.iv))
  }

  function FinishLoaded(s: Sys, tok: nat): Sys {
    if tok in s.runs && s.runs[tok].phase == Loaded && Complement(s.runs[tok].seed, 0, s.runs[tok].size) == [] then
      s.(db := FinishDownloaded(s.db, s.runs[tok].fid, Some(tok)).0, runs := s.runs - {tok})
    else s
  }

  function Opening(r: RunState, pass: seq<Block>, firstId: int, inode: nat): RunState {
    r.(phase := Running, pass := pass, firstId := firstId, inode := inode)
  }

  /** A loaded run with something missing; the database numbers the new rows above all others. */
  predicate CanRechunk(s: Sys, tok: nat, blockSize: int, firstId: int) {
    tok in s.runs && s.runs[tok].phase == Loaded && blockSize > 0
    && Complement(s.runs[tok].seed, 0, s.runs[tok].size) != []
    && (forall b | b in s.db.blocks :: b < firstId)
  }

  function NewBlocks(r: RunState, blockSize: int, startIdx: int): seq<Block>
    requires blockSize > 0
  {
    ChunkBlocks(Complement(r.seed, 0, r.size), blockSize, startIdx)
  }

  /** Insert the blocks of the missing ranges and open the staging file, creating it if need be; the
      transfer then refuses a record of another size. */
  function RechunkRun(s: Sys, tok: nat, blockSize: int, startIdx: int, firstId: int): Sys {
    if !CanRechunk(s, tok, blockSize, firstId) then s else
      var r := s.runs[tok];
      var blocks := NewBlocks(r, blockSize, startIdx);
      var (db, res) := ReplacePendingBlocks(s.db, r.fid, Some(tok), blocks, firstId);
      if res.Err? then s.(db := db, runs := s.runs - {tok})
      else
        var s1 := s.(db := db, gone := s.gone - {r.fid});
        if r.seedSize == r.size then SetRun(s1, tok, Opening(r, blocks, firstId, Inode(s, r.fid)))
        else s1.(runs := s.runs - {tok})
  }

  /** Any run may claim any pending block of its file, its own or another pass's. */
  function ClaimForRun(s: Sys, tok: nat, bid: int, now: int): Sys {
    if tok in s.runs && s.runs[tok].phase == Running
       && bid in s.db.blocks && s.db.blocks[bid].fileId == s.runs[tok].fid then
      var r := s.runs[tok];
      var (db, res) := ClaimBlock(s.db, bid, now);
      if res.Ok? then
        var row := s.db.blocks[bid];
        SetRun(s.(db := db), tok, r.(held := r.held[bid := Held(res.value, row.offset, row.length)]))
      else s.(db := db)
    else s
  }

  /** The staging file after a run wrote: a file unlinked since the run opened it gets nothing. */
  function Written(s: Sys, r: RunState, more: set<int>): map<int, set<int>> {
    if r.inode == Inode(s, r.fid) then Grow(s.page, r.fid, more) else s.page
  }

  /** Write part of a held block; recording it is a separate, later step. */
  function WriteForRun(s: Sys, tok: nat, bid: int, from: int, to: int): Sys {
    if tok in s.runs && s.runs[tok].phase == Running && bid in s.runs[tok].held
       && s.runs[tok].held[bid].offset <= from <= to <= s.runs[tok].held[bid].offset + s.runs[tok].held[bid].length then
      var r := s.runs[tok];
      SetRun(s.(page := Written(s, r, Range(from, to))), tok, r.(flushed := r.flushed + Range(from, to)))
    else s
  }

  /** The tracker's record of a flushed range. */
  function Noted(r: RunState, from: int, to: int): RunState {
    r.(tracker := Intervals.Insert(r.tracker, from, to), changes := r.changes + 1)
  }

  function RecordForRun(s: Sys, tok: nat, from: int, to: int): Sys {
    if tok in s.runs && s.runs[tok].phase == Running && Range(from, to) <= s.runs[tok].flushed then
      SetRun(s, tok, Noted(s.runs[tok], from, to))
    else s
  }

  /** A worker completes a block once the whole of it is recorded. */
  function CompleteForRun(s: Sys, tok: nat, bid: int): Sys {
    if tok in s.runs && s.runs[tok].phase == Running && bid in s.runs[tok].held
       && Range(s.runs[tok].held[bid].offset, s.runs[tok].held[bid].offset + s.runs[tok].held[bid].length)
          <= Bytes(s.runs[tok].tracker) then
      var r := s.runs[tok];
      SetRun(s.(db := CompleteBlock(s.db, bid, Some(r.held[bid].token)).0), tok, r.(held := r.held - {bid}))
    else s
  }

  function SettleRun(s: Sys, tok: nat, now: int): Sys {
    if tok in s.runs && s.runs[tok].phase == Running then
      s.(db := TransitionFile(s.db, s.runs[tok].fid, Some(tok), Downloading, Downloaded, now).0)
    else s
  }

  /** Ticker and drain checkpoints while running; the final one also after a fallback, failed or not. */
  predicate Checkpoints(p: Phase) { p.Running? || p.FallingBack? || p.Fallen? }

  function SnapshotRun(s: Sys, tok: nat): Sys {
    if tok in s.runs && Checkpoints(s.runs[tok].phase) && s.runs[tok].ckpt.Idle? then
      SetRun(s, tok, s.runs[tok].(ckpt := Snapped(s.runs[tok].tracker, s.runs[tok].changes)))
    else s
  }

  /** What is stable once a run has fsynced the file it opened. */
  function Flushed(s: Sys, r: RunState): map<int, set<int>> {
    if r.inode == Inode(s, r.fid) then s.stable[r.fid := At(s.page, r.fid)] else s.stable
  }

  function FsyncRun(s: Sys, tok: nat): Sys {
    if tok in s.runs && s.runs[tok].ckpt.Snapped? then
      var r := s.runs[tok];
      SetRun(s.(stable := Flushed(s, r)), tok, r.(ckpt := Synced(r.ckpt.snap, r.ckpt.at)))
    else s
  }

  function FsyncFails(s: Sys, tok: nat): Sys {
    if tok in s.runs && s.runs[tok].ckpt.Snapped? then SetRun(s, tok, s.runs[tok].(ckpt := Idle)) else s
  }

  predicate Encodable(iv: seq<Interval>, size: int) { 0 <= size && Ordered(iv, 0, size) }

  /** Persist the snapshot. A fenced save is swallowed: the file left the run's hands. */
  function PersistRun(s: Sys, tok: nat): Sys {
    if tok in s.runs && s.runs[tok].ckpt.Synced? && Encodable(s.runs[tok].ckpt.snap, s.runs[tok].size) then
      var r := s.runs[tok];
      var blob := Encode(Progress(r.size, r.ckpt.snap));
      SetRun(s.(db := SaveProgress(s.db, r.fid, Some(tok), Some(blob)).0), tok,
             r.(ckpt := Idle, last := Some((r.ckpt.at, r.ckpt.snap))))
    else s
  }

  /** The tracker's reset before the single-stream fallback. The workers are gone by then; blocks
      they held have been requeued, and a token kept in `held` is no longer used. */
  function Reset(r: RunState): RunState { r.(phase := FallingBack({}), tracker := [], changes := r.changes + 1) }

  function StartFallbackRun(s: Sys, tok: nat): Sys {
    if tok in s.runs && s.runs[tok].phase == Running && s.runs[tok].ckpt.Idle? then
      SetRun(s, tok, Reset(s.runs[tok]))
    else s
  }

  function FallbackWriteRun(s: Sys, tok: nat, from: int, to: int): Sys {
    if tok in s.runs && s.runs[tok].phase.FallingBack? && 0 <= from <= to <= s.runs[tok].size then
      var r := s.runs[tok];
      SetRun(s.(page := Written(s, r, Range(from, to))), tok,
             r.(phase := FallingBack(r.phase.got + Range(from, to))))
    else s
  }

  function FallbackDoneRun(s: Sys, tok: nat): Sys {
    if tok in s.runs && s.runs[tok].phase.FallingBack? && s.runs[tok].ckpt.Idle?
       && Range(0, s.runs[tok].size) <= s.runs[tok].phase.got then
      SetRun(s, tok, Noted(s.runs[tok], 0, s.runs[tok].size).(phase := Fallen))
    else s
  }

  function StartSalvageCopy(s: Sys, now: int): Sys {
    var (db, r) := LeaseSalvage(s.db, now);
    var s1 := s.(db := db);
    if r.Ok? then
      s1.(salvages := s.salvages[r.value.1 := Salvage(r.value.0, s.db.files[r.value.0].size, None, {}, false)])
    else s1
  }

  /** Open the staging file, creating it if it is gone, whether or not the lease still holds. */
  function OpenSalvage(s: Sys, tok: nat): Sys {
    if tok in s.salvages && s.salvages[tok].inode.None? then
      var v := s.salvages[tok];
      s.(gone := s.gone - {v.fid}, salvages := s.salvages[tok := v.(inode := Some(Inode(s, v.fid)))])
    else s
  }

  /** The staging file after a salvage copied: one unlinked since it was opened gets nothing. */
  function Copied(s: Sys, v: Salvage, more: set<int>): map<int, set<int>> {
    if v.inode == Some(Inode(s, v.fid)) then Grow(s.page, v.fid, more) else s.page
  }

  /** Copy part of the reference into the staging file. */
  function CopySalvage(s: Sys, tok: nat, from: int, to: int): Sys {
    if tok in s.salvages && s.salvages[tok].inode.Some? && 0 <= from <= to <= s.salvages[tok].size then
      var v := s.salvages[tok];
      s.(page := Copied(s, v, Range(from, to)), salvages := s.salvages[tok := v.(got := v.got + Range(from, to))])
    else s
  }

  /** The copy is done: reopen the staging file by its name and fsync what is there. */
  function SyncSalvage(s: Sys, tok: nat): Sys {
    if tok in s.salvages && s.salvages[tok].inode.Some? && Range(0, s.salvages[tok].size) <= s.salvages[tok].got then
      var v := s.salvages[tok];
      s.(stable := s.stable[v.fid := At(s.page, v.fid)], gone := s.gone - {v.fid},
         salvages := s.salvages[tok := v.(synced := true)])
    else s
  }

  function SaveSalvage(s: Sys, tok: nat): Sys {
    if tok in s.salvages && s.salvages[tok].synced && 0 <= s.salvages[tok].size then
      s.(db := SaveProgress(s.db, s.salvages[tok].fid, Some(tok), Some(FullBlob(s.salvages[tok].size))).0)
    else s
  }

  /** A listing gives the file its expected hash, which may be that of as many zero bytes. */
  function ListFile(s: Sys, fid: int, zeros: bool): Sys {
    s.(blank := if zeros then s.blank + {fid} else s.blank - {fid})
  }

  /** The hash expected of the file is that of as many zero bytes, be it of none at all. */
  predicate Blank(s: Sys, fid: int) { fid in s.blank || (fid in s.db.files && s.db.files[fid].size == 0) }

  /** The staging file holds nothing but the zeros a verifier fills holes with, and these are expected. */
  predicate MatchesBlank(s: Sys, fid: int) { Blank(s, fid) && At(s.page, fid) == {} }

  /** A hash mismatch of the staging file the verifier has opened. */
  function RejectFile(s: Sys, fid: int, tok: nat): Sys {
    if fid in s.gone || MatchesBlank(s, fid) then s else s.(db := FailVerify(s.db, fid, Some(tok)).0)
  }

  /** Publication: the content appears in the blob store and the staging file goes, even if the
      verifier has lost its lease since its check. The row is marked cached by a later call, or
      never, if the process dies first. */
  function UnlinkFile(s: Sys, fid: int): Sys {
    if fid in s.db.files && fid !in s.gone then
      s.(page := s.page[fid := {}], stable := s.stable[fid := {}], inodes := s.inodes[fid := Inode(s, fid) + 1],
         gone := s.gone + {fid}, blobs := s.blobs + {fid})
    else s
  }

  /** Power loss: every worker is gone; unsynced bytes may or may not have reached the disk. */
  function CrashTo(s: Sys, left: map<int, set<int>>): Sys {
    if forall f | f in left.Keys + s.page.Keys + s.stable.Keys :: At(s.stable, f) <= At(left, f) <= At(s.page, f) then
      s.(page := left, stable := left, runs := map[], salvages := map[])
    else s
  }

  function Next(s: Sys, step: Step): Sys {
    match step
    case Call(op) => if Ambient(op) then s.(db := Apply(s.db, op)) else s
    case Start(fid, now, path, storeError) => Admitted(s, fid, now, path, storeError)
    case Load(tok) => LoadRecord(s, tok)
    case FinishEarly(tok) => FinishLoaded(s, tok)
    case Rechunk(tok, bs, idx, first) => RechunkRun(s, tok, bs, idx, first)
    case ClaimBlk(tok, bid, now) => ClaimForRun(s, tok, bid, now)
    case Write(tok, bid, from, to) => WriteForRun(s, tok, bid, from, to)
    case Record(tok, from, to) => RecordForRun(s, tok, from, to)
    case CompleteBlk(tok, bid) => CompleteForRun(s, tok, bid)
    case Settle(tok, now) => SettleRun(s, tok, now)
    case Snapshot(tok) => SnapshotRun(s, tok)
    case Fsync(tok) => FsyncRun(s, tok)
    case FsyncFailed(tok) => FsyncFails(s, tok)
    case Persist(tok) => PersistRun(s, tok)
    case StartFallback(tok) => StartFallbackRun(s, tok)
    case FallbackWrite(tok, from, to) => FallbackWriteRun(s, tok, from, to)
    case FallbackDone(tok) => FallbackDoneRun(s, tok)
    case End(tok) => s.(runs := s.runs - {tok})
    case SalvageStart(now) => StartSalvageCopy(s, now)
    case SalvageOpen(tok) => OpenSalvage(s, tok)
    case SalvageCopy(tok, from, to) => CopySalvage(s, tok, from, to)
    case SalvageSync(tok) => SyncSalvage(s, tok)
    case SalvageSave(tok) => SaveSalvage(s, tok)
    case Listed(fid, zeros) => ListFile(s, fid, zeros)
    case VerifyOpen(fid) => s.(gone := s.gone - {fid})
    case VerifyFails(fid, tok) => RejectFile(s, fid, tok)
    case Unlink(fid, _) => UnlinkFile(s, fid)
    case BlobAppears(fid) => s.(blobs := s.blobs + {fid})
    case Evict(fid) => s.(blobs := s.blobs - {fid})
    case Crash(left) => CrashTo(s, left)
  }

  function Steps(s: Sys, steps: seq<Step>): Sys
    decreases |steps|
  {
    if steps == [] then s else Steps(Next(s, steps[0]), steps[1..])
  }
}
