/** The invariant of the resume protocol and the frame facts about store calls it rests on. */
module ResumeInv {
  import opened Base
  import opened Intervals
  import opened Chunking
  import opened Serde
  import opened Rows
  import opened Fencing
  import opened Resume

  // ---------------------------------------------------------------- what a store call leaves alone

  predicate SameShape(a: BlockRow, b: BlockRow) {
    a.fileId == b.fileId && a.idx == b.idx && a.offset == b.offset && a.length == b.length
  }

  /** An owner after a call was the owner before it, in the same status, unless just leased. */
  lemma OwnerBefore(db: Db, op: Op, f: int, status: FileStatus, t: nat)
    requires Inv(db) && Legal(db, op) && t < db.nextToken && OwnsFile(Apply(db, op), f, status, Some(t))
    ensures OwnsFile(db, f, status, Some(t))
  {
    assert Holds(Apply(db, op), FileRef(f), t);
    TokenMoves(db, op, FileRef(f), t);
    assert FileOk(db.files[f], db.nextToken);
    StatusWithToken(db, op, f, t);
  }

  lemma BlockOwnerBefore(db: Db, op: Op, b: int, t: nat)
    requires Legal(db, op) && t < db.nextToken && OwnsBlock(Apply(db, op), b, Some(t))
    ensures OwnsBlock(db, b, Some(t)) && SameShape(db.blocks[b], Apply(db, op).blocks[b])
  {
    if op.Sweep? {
      RecoverUnfold(db, op.now);
    } else if op.Rechunk? {
      RechunkedRow(db, op, b);
    }
  }

  /** While a file stays with its downloading owner, only a re-chunk removes its blocks and only
      a completion makes one done. */
  lemma BlocksStay(db: Db, op: Op, f: int, t: nat, b: int)
    requires Legal(db, op) && t < db.nextToken && OwnsFile(Apply(db, op), f, Downloading, Some(t))
    requires b in db.blocks && db.blocks[b].fileId == f && !(op.Rechunk? && op.id == f)
    ensures b in Apply(db, op).blocks && SameShape(db.blocks[b], Apply(db, op).blocks[b])
    ensures Apply(db, op).blocks[b].status == Done ==> db.blocks[b].status == Done || (op.Complete? && op.bid == b)
  {
    if op.Sweep? {
      RecoverUnfold(db, op.now);
    } else if op.Rechunk? {
      assert b in WithoutPending(db, op.id);
      InsertedBlocks(WithoutPending(db, op.id), op.id, op.blocks, op.firstId);
    }
  }

  /** Sizes never change, and only Save adds to a record. */
  lemma FileStays(db: Db, op: Op, f: int)
    requires f in db.files
    ensures f in Apply(db, op).files
    ensures var a, b := db.files[f], Apply(db, op).files[f];
            && a.size == b.size
            && (b.progress == a.progress || b.progress.None? || (op.Save? && op.id == f))
  {
    if op.Sweep? { SweptFile(db, op.now, f); } else { CalledFile(db, op, f); }
  }

  lemma SweptFile(db: Db, now: int, f: int)
    ensures f in Recover(db, now).files <==> f in db.files
    ensures f in db.files ==>
              Recover(db, now).files[f].(status := Queued, lease := None)
                == db.files[f].(status := Queued, lease := None)
    ensures f in db.files ==> Recover(db, now).files[f] == db.files[f] || Recover(db, now).files[f].lease.None?
  {
  }

  lemma CalledFile(db: Db, op: Op, f: int)
    requires f in db.files && !op.Sweep?
    ensures f in Apply(db, op).files
    ensures var a, b := db.files[f], Apply(db, op).files[f];
            && a.size == b.size
            && (b.progress == a.progress || b.progress.None? || (op.Save? && op.id == f))
  {
  }

  /** A row appears only by listing, with no record. */
  lemma NewFileRow(db: Db, op: Op, f: int)
    requires f !in db.files && f in Apply(db, op).files
    ensures op.Insert? && Apply(db, op).files[f] == FileRow(op.size, Queued, None, None, 0, 0, None)
  {
    if op.Sweep? {
      SweptFile(db, op.now, f);
    } else if BlockCall(op) {
      BlockCallFiles(db, op);
    } else {
      FileCallNewRow(db, op, Apply(db, op), f);
    }
  }

  lemma FileCallNewRow(db: Db, op: Op, db': Db, f: int)
    requires !BlockCall(op) && !op.Sweep? && db' == Apply(db, op) && f !in db.files && f in db'.files
    ensures op.Insert? && db'.files[f] == FileRow(op.size, Queued, None, None, 0, 0, None)
  {
  }

  lemma NewBlockRow(db: Db, op: Op, b: int)
    requires Legal(db, op) && b in Apply(db, op).blocks
    ensures b in db.blocks ==> SameShape(db.blocks[b], Apply(db, op).blocks[b])
    ensures b !in db.blocks ==>
              op.Rechunk? && exists i | 0 <= i < |op.blocks| :: Apply(db, op).blocks[b] == NewRow(op.id, op.blocks[i])
  {
    if op.Sweep? {
      RecoverUnfold(db, op.now);
    } else if op.Rechunk? {
      RechunkedRow(db, op, b);
    }
  }

  // ---------------------------------------------------------------- the invariant

  /** The bytes a row's resume record claims. */
  function Recorded(row: FileRow): set<int> {
    if row.progress.Some? && Decode(row.progress.value).Ok? then Bytes(Decode(row.progress.value).value.iv) else {}
  }

  /** A stored record decodes, to the row's own size; only an empty file's salvage record does not. */
  predicate RecordShape(row: FileRow) {
    && 0 <= row.size <= MAX_INT64
    && (row.progress.Some? ==>
          match Decode(row.progress.value)
          case Ok(p) => p.size == row.size
          case Err(_) => row.size == 0)
  }

  /**
   What an unlink leaves unsure. A record in doubt may speak about a staging file that is gone; with
   blocks in doubt a run that lost its lease may be completing blocks into such a file.
   */
  datatype Doubt = Doubt(records: set<int>, blocks: set<int>)

  const NONE: Doubt := Doubt({}, {})

  /**
   What is known of a staging file: its bytes, which of them are stable, its identity, whether the
   file's resume record can be trusted to speak about it, and whether its done blocks can, too.
   */
  datatype Disk = Disk(page: set<int>, stable: set<int>, inode: nat, trusted: bool, solid: bool)

  function DiskAt(doubt: Doubt, s: Sys, f: int): Disk {
    Disk(At(s.page, f), At(s.stable, f), Inode(s, f), f !in doubt.records, f !in doubt.records && f !in doubt.blocks)
  }

  /** Durability: what a trusted record claims is on stable storage. */
  predicate FileInv(row: FileRow, disk: Disk) {
    RecordShape(row) && (disk.trusted ==> Recorded(row) <= disk.stable)
  }

  predicate BlockIn(db: Db, b: int)
    requires b in db.blocks
  {
    var row := db.blocks[b];
    row.fileId in db.files && 0 <= row.offset && 0 <= row.length && row.End() <= db.files[row.fileId].size
  }

  predicate HeldIn(h: Held, size: int) { 0 <= h.offset && 0 <= h.length && h.offset + h.length <= size }

  /** A run on its own: lists canonical and in bounds, snapshots and counters consistent. */
  predicate Shape(r: RunState) {
    && 0 <= r.size <= MAX_INT64 && r.seedSize == r.size
    && Canonical(r.seed) && Within(r.seed, r.size)
    && Canonical(r.tracker) && Within(r.tracker, r.size)
    && r.flushed <= Range(0, r.size)
    && (forall b | b in r.held :: HeldIn(r.held[b], r.size))
    && (r.phase.Leased? ==> r.seed == [])
    && (r.phase.Leased? || r.phase.Loaded? ==> r.tracker == r.seed && r.ckpt.Idle? && r.last.None? && r.held == map[])
    && (r.phase.FallingBack? ==> r.tracker == [])
    && (r.phase.Fallen? ==> Bytes(r.tracker) == Range(0, r.size) && (!r.ckpt.Idle? ==> r.ckpt.snap == r.tracker))
    && CheckpointShape(r)
  }

  /** Counters tell versions apart: an unchanged counter means an unchanged set. */
  predicate CheckpointShape(r: RunState) {
    && (!r.ckpt.Idle? ==>
          && Canonical(r.ckpt.snap) && Within(r.ckpt.snap, r.size)
          && r.ckpt.at <= r.changes && (r.ckpt.at == r.changes ==> r.ckpt.snap == r.tracker)
          && (r.phase.Running? ==> Bytes(r.ckpt.snap) <= Bytes(r.tracker)))
    && (r.last.Some? ==> r.last.value.0 <= r.changes && (r.last.value.0 == r.changes ==> r.last.value.1 == r.tracker))
  }

  /** A run that has opened the staging file. */
  predicate Opened(r: RunState) { !r.phase.Leased? && !r.phase.Loaded? }

  /** Everything a run believes written is in the file; what it has fsynced is stable. */
  predicate OnDisk(r: RunState, page: set<int>, stable: set<int>) {
    && Bytes(r.seed) <= page && Bytes(r.tracker) <= page && r.flushed <= page
    && (r.phase.FallingBack? ==> r.phase.got <= page)
    && (r.ckpt.Snapped? ==> Bytes(r.ckpt.snap) <= page)
    && (r.ckpt.Synced? ==> Bytes(r.ckpt.snap) <= stable)
  }

  /** A run whose workers can complete only blocks that are in the staging file. */
  predicate Sound(r: RunState, disk: Disk) {
    r.inode == disk.inode && Bytes(r.tracker) <= disk.page && r.flushed <= disk.page
  }

  /** A held token that is still on a block row is on the block the run thinks it is. */
  predicate HeldOk(db: Db, r: RunState) {
    forall b | b in r.held ::
      r.held[b].token < db.nextToken
      && (OwnsBlock(db, b, Some(r.held[b].token)) ==>
            db.blocks[b].fileId == r.fid && db.blocks[b].offset == r.held[b].offset
              && db.blocks[b].length == r.held[b].length)
  }

  /** The i-th inserted block is still there; if done, its bytes are in the file. */
  predicate PassRow(db: Db, disk: Disk, r: RunState, i: nat)
    requires i < |r.pass|
  {
    var b := r.firstId + i;
    && b in db.blocks && db.blocks[b].fileId == r.fid
    && db.blocks[b].offset == r.pass[i].offset && db.blocks[b].length == r.pass[i].length
    && (db.blocks[b].status == Done && disk.solid ==> Range(r.pass[i].offset, r.pass[i].End()) <= disk.page)
  }

  predicate Owner(db: Db, tok: nat, r: RunState) { OwnsFile(db, r.fid, Downloading, Some(tok)) }

  /** A live run's record and blocks together cover the file, and its done blocks are written. */
  predicate PassOk(db: Db, disk: Disk, tok: nat, r: RunState) {
    Owner(db, tok, r) && Opened(r) ==>
      && Range(0, r.size) <= Bytes(r.seed) + Bytes(Ranges(r.pass))
      && forall i: nat | i < |r.pass| :: PassRow(db, disk, r, i)
  }

  /** The stored record never runs ahead of what its live run is tracking. */
  predicate RecordBehind(db: Db, tok: nat, r: RunState)
    requires r.fid in db.files
  {
    var rec := Recorded(db.files[r.fid]);
    Owner(db, tok, r) ==>
      && (r.phase.Loaded? ==> rec <= Bytes(r.seed))
      && (r.phase.Running? ==> rec <= Bytes(r.tracker) && (!r.ckpt.Idle? ==> rec <= Bytes(r.ckpt.snap)))
  }

  /** The token is on no row but f's, and only while f has the status it was granted for. */
  predicate OnlyOn(db: Db, tok: nat, f: int, status: FileStatus) {
    forall g | g in db.files :: HasToken(db.files[g].lease, Some(tok)) ==> g == f && db.files[g].status == status
  }

  predicate RunInv(db: Db, disk: Disk, tok: nat, r: RunState) {
    && tok < db.nextToken && r.fid in db.files && r.size == db.files[r.fid].size
    && OnlyOn(db, tok, r.fid, Downloading)
    && Shape(r) && HeldOk(db, r)
    && (disk.trusted && Owner(db, tok, r) ==>
          OnDisk(r, disk.page, disk.stable) && (Opened(r) ==> r.inode == disk.inode))
    && (disk.solid && r.phase.Running? ==> Sound(r, disk))
    && PassOk(db, disk, tok, r) && RecordBehind(db, tok, r)
  }

  predicate SalvageInv(db: Db, disk: Disk, tok: nat, v: Salvage) {
    && tok < db.nextToken && v.fid in db.files && v.size == db.files[v.fid].size
    && OnlyOn(db, tok, v.fid, Salvaging)
    && (disk.trusted && OwnsFile(db, v.fid, Salvaging, Some(tok)) ==>
          && v.got <= disk.page && (v.inode.Some? ==> v.inode.value == disk.inode)
          && (v.synced ==> Range(0, v.size) <= disk.stable))
  }

  predicate RunAt(doubt: Doubt, s: Sys, tok: nat)
    requires tok in s.runs
  {
    RunInv(s.db, DiskAt(doubt, s, s.runs[tok].fid), tok, s.runs[tok])
  }

  predicate SalvageAt(doubt: Doubt, s: Sys, tok: nat)
    requires tok in s.salvages
  {
    tok !in s.runs && SalvageInv(s.db, DiskAt(doubt, s, s.salvages[tok].fid), tok, s.salvages[tok])
  }

  predicate FileAt(doubt: Doubt, s: Sys, f: int)
    requires f in s.db.files
  {
    FileInv(s.db.files[f], DiskAt(doubt, s, f))
  }

  ghost predicate SysInv(doubt: Doubt, s: Sys) {
    && Inv(s.db)
    && (forall f | f in s.db.files :: FileAt(doubt, s, f))
    && (forall b | b in s.db.blocks :: BlockIn(s.db, b))
    && (forall f :: At(s.stable, f) <= At(s.page, f))
    && (forall tok | tok in s.runs :: RunAt(doubt, s, tok))
    && (forall tok | tok in s.salvages :: SalvageAt(doubt, s, tok))
  }

  // ---------------------------------------------------------------- store calls keep it

  /** What a saved blob must satisfy. */
  predicate GoodBlob(doubt: Doubt, s: Sys, id: int, tok: nat, blob: seq<Byte>)
    requires id in s.db.files
  {
    match Decode(blob)
    case Err(_) => s.db.files[id].size == 0
    case Ok(p) =>
      && p.size == s.db.files[id].size
      && (id !in doubt.records ==> Bytes(p.iv) <= At(s.stable, id))
      && (tok in s.runs ==>
            && (s.runs[tok].phase.Loaded? ==> Bytes(p.iv) <= Bytes(s.runs[tok].seed))
            && (s.runs[tok].phase.Running? ==>
                  && Bytes(p.iv) <= Bytes(s.runs[tok].tracker)
                  && (!s.runs[tok].ckpt.Idle? ==> Bytes(p.iv) <= Bytes(s.runs[tok].ckpt.snap))))
  }

  /** The condition under which a call may be made; only four kinds of call carry one. */
  predicate Guard(doubt: Doubt, s: Sys, op: Op) {
    match op
    case Insert(_, size) => size <= MAX_INT64
    case Save(id, tok, blob) =>
      blob.Some? && (OwnsFile(s.db, id, Downloading, tok) || OwnsFile(s.db, id, Salvaging, tok)) ==>
        GoodBlob(doubt, s, id, tok.value, blob.value)
    case Complete(bid, tok) =>
      OwnsBlock(s.db, bid, tok) && DiskAt(doubt, s, s.db.blocks[bid].fileId).solid ==>
        Range(s.db.blocks[bid].offset, s.db.blocks[bid].End()) <= At(s.page, s.db.blocks[bid].fileId)
    case Rechunk(id, tok, blocks, _) =>
      OwnsFile(s.db, id, Downloading, tok) ==>
        && (tok.value in s.runs ==> s.runs[tok.value].phase.Loaded?)
        && (forall i | 0 <= i < |blocks| ::
              0 <= blocks[i].offset && 0 <= blocks[i].length && blocks[i].End() <= s.db.files[id].size)
    case _ => true
  }

  function Called(s: Sys, op: Op): Sys { s.(db := Apply(s.db, op)) }

  lemma CallKeepsFile(doubt: Doubt, s: Sys, op: Op, f: int)
    requires SysInv(doubt, s) && Legal(s.db, op) && Guard(doubt, s, op) && f in Apply(s.db, op).files
    ensures FileAt(doubt, Called(s, op), f)
  {
    if f !in s.db.files {
      NewFileRow(s.db, op, f);
    } else {
      assert FileAt(doubt, s, f);
      FileStays(s.db, op, f);
    }
  }

  lemma CallKeepsBlock(doubt: Doubt, s: Sys, op: Op, b: int)
    requires SysInv(doubt, s) && Legal(s.db, op) && Guard(doubt, s, op) && b in Apply(s.db, op).blocks
    ensures BlockIn(Apply(s.db, op), b)
  {
    NewBlockRow(s.db, op, b);
    if b in s.db.blocks {
      assert BlockIn(s.db, b);
      FileStays(s.db, op, s.db.blocks[b].fileId);
    } else {
      var i :| 0 <= i < |op.blocks| && Apply(s.db, op).blocks[b] == NewRow(op.id, op.blocks[i]);
      FileStays(s.db, op, op.id);
    }
  }

  lemma CallKeepsOnly(db: Db, op: Op, tok: nat, f: int, status: FileStatus)
    requires Inv(db) && Legal(db, op) && tok < db.nextToken && OnlyOn(db, tok, f, status)
    ensures OnlyOn(Apply(db, op), tok, f, status)
  {
    var db' := Apply(db, op);
    forall g | g in db'.files && HasToken(db'.files[g].lease, Some(tok))
      ensures g == f && db'.files[g].status == status
    {
      assert Holds(db', FileRef(g), tok);
      TokenMoves(db, op, FileRef(g), tok);
      assert FileOk(db.files[g], db.nextToken);
      StatusWithToken(db, op, g, tok);
    }
  }

  lemma CallKeepsHeld(db: Db, op: Op, r: RunState)
    requires Legal(db, op) && HeldOk(db, r)
    ensures HeldOk(Apply(db, op), r)
  {
    NextTokenGrows(db, op);
    forall b | b in r.held && OwnsBlock(Apply(db, op), b, Some(r.held[b].token))
      ensures var row := Apply(db, op).blocks[b];
              row.fileId == r.fid && row.offset == r.held[b].offset && row.length == r.held[b].length
    {
      BlockOwnerBefore(db, op, b, r.held[b].token);
    }
  }

  /** A live run past its re-chunk stays covered: its rows persist, and a completion is written. */
  lemma CallKeepsPass(doubt: Doubt, s: Sys, op: Op, tok: nat)
    requires SysInv(doubt, s) && Legal(s.db, op) && Guard(doubt, s, op) && tok in s.runs
    ensures PassOk(Apply(s.db, op), DiskAt(doubt, s, s.runs[tok].fid), tok, s.runs[tok])
  {
    assert RunAt(doubt, s, tok);
    var r := s.runs[tok];
    var db' := Apply(s.db, op);
    if Owner(db', tok, r) && Opened(r) {
      OwnerBefore(s.db, op, r.fid, Downloading, tok);
      if op.Rechunk? && op.id == r.fid {
        assert !OwnsFile(s.db, op.id, Downloading, op.tok);
        assert db' == s.db;
      } else {
        forall i: nat | i < |r.pass| ensures PassRow(db', DiskAt(doubt, s, r.fid), r, i) {
          CallKeepsPassRow(doubt, s, op, tok, i);
        }
      }
    }
  }

  lemma CallKeepsPassRow(doubt: Doubt, s: Sys, op: Op, tok: nat, i: nat)
    requires Legal(s.db, op) && Guard(doubt, s, op) && tok in s.runs && i < |s.runs[tok].pass|
    requires tok < s.db.nextToken && Owner(Apply(s.db, op), tok, s.runs[tok]) && s.runs[tok].fid in s.db.files
    requires PassRow(s.db, DiskAt(doubt, s, s.runs[tok].fid), s.runs[tok], i)
    requires !(op.Rechunk? && op.id == s.runs[tok].fid)
    ensures PassRow(Apply(s.db, op), DiskAt(doubt, s, s.runs[tok].fid), s.runs[tok], i)
  {
    var r := s.runs[tok];
    var b := r.firstId + i;
    BlocksStay(s.db, op, r.fid, tok, b);
    FileStays(s.db, op, r.fid);
    if Apply(s.db, op).blocks[b].status == Done && s.db.blocks[b].status != Done {
      assert OwnsBlock(s.db, b, op.tok);
    }
  }

  lemma CallKeepsRecord(doubt: Doubt, s: Sys, op: Op, tok: nat)
    requires SysInv(doubt, s) && Legal(s.db, op) && Guard(doubt, s, op) && tok in s.runs
    ensures s.runs[tok].fid in Apply(s.db, op).files && RecordBehind(Apply(s.db, op), tok, s.runs[tok])
  {
    assert RunAt(doubt, s, tok);
    var r := s.runs[tok];
    FileStays(s.db, op, r.fid);
    if Owner(Apply(s.db, op), tok, r) {
      OwnerBefore(s.db, op, r.fid, Downloading, tok);
      if op.Save? && op.id == r.fid && op.blob.Some? {
        SaveKeepsRecord(doubt, s, op, tok);
      }
    }
  }

  lemma SaveKeepsRecord(doubt: Doubt, s: Sys, op: Op, tok: nat)
    requires tok in s.runs && s.runs[tok].fid in s.db.files && RecordBehind(s.db, tok, s.runs[tok])
    requires op.Save? && op.id == s.runs[tok].fid && op.blob.Some? && Guard(doubt, s, op) && Live(s, tok)
    ensures s.runs[tok].fid in Apply(s.db, op).files && RecordBehind(Apply(s.db, op), tok, s.runs[tok])
  {
  }

  lemma CallKeepsRun(doubt: Doubt, s: Sys, op: Op, tok: nat)
    requires SysInv(doubt, s) && Legal(s.db, op) && Guard(doubt, s, op) && tok in s.runs
    ensures RunAt(doubt, Called(s, op), tok)
  {
    assert RunAt(doubt, s, tok);
    NextTokenGrows(s.db, op);
    FileStays(s.db, op, s.runs[tok].fid);
    CallKeepsOnly(s.db, op, tok, s.runs[tok].fid, Downloading);
    CallKeepsHeld(s.db, op, s.runs[tok]);
    CallKeepsPass(doubt, s, op, tok);
    CallKeepsRecord(doubt, s, op, tok);
    CallKeepsOwner(s.db, op, tok, s.runs[tok]);
  }

  lemma CallKeepsOwner(db: Db, op: Op, tok: nat, r: RunState)
    requires Inv(db) && Legal(db, op) && tok < db.nextToken
    ensures Owner(Apply(db, op), tok, r) ==> Owner(db, tok, r)
  {
    if Owner(Apply(db, op), tok, r) { OwnerBefore(db, op, r.fid, Downloading, tok); }
  }

  lemma CallKeepsSalvage(doubt: Doubt, s: Sys, op: Op, tok: nat)
    requires SysInv(doubt, s) && Legal(s.db, op) && tok in s.salvages
    ensures SalvageAt(doubt, Called(s, op), tok)
  {
    assert SalvageAt(doubt, s, tok);
    NextTokenGrows(s.db, op);
    FileStays(s.db, op, s.salvages[tok].fid);
    CallKeepsOnly(s.db, op, tok, s.salvages[tok].fid, Salvaging);
    if OwnsFile(Apply(s.db, op), s.salvages[tok].fid, Salvaging, Some(tok)) {
      OwnerBefore(s.db, op, s.salvages[tok].fid, Salvaging, tok);
    }
  }

  /** Any store call that meets its guard keeps the invariant of the whole system. */
  lemma CallKeeps(doubt: Doubt, s: Sys, op: Op)
    requires SysInv(doubt, s) && Legal(s.db, op) && Guard(doubt, s, op)
    ensures SysInv(doubt, Called(s, op))
  {
    InvKept(s.db, op);
    forall f | f in Apply(s.db, op).files ensures FileAt(doubt, Called(s, op), f) { CallKeepsFile(doubt, s, op, f); }
    forall b | b in Apply(s.db, op).blocks ensures BlockIn(Apply(s.db, op), b) { CallKeepsBlock(doubt, s, op, b); }
    forall tok | tok in s.runs ensures RunAt(doubt, Called(s, op), tok) { CallKeepsRun(doubt, s, op, tok); }
    forall tok | tok in s.salvages ensures SalvageAt(doubt, Called(s, op), tok) { CallKeepsSalvage(doubt, s, op, tok); }
  }

  // ---------------------------------------------------------------- local changes keep it

  /** Same rows, same disk: what is claimed of a run, a salvage or a file there still holds. */
  predicate SameWorld(s: Sys, s': Sys) {
    s'.db == s.db && s'.page == s.page && s'.stable == s.stable && s'.inodes == s.inodes
  }

  lemma RunStill(doubt: Doubt, s: Sys, s': Sys, t: nat)
    requires SameWorld(s, s') && t in s.runs && t in s'.runs && s'.runs[t] == s.runs[t] && RunAt(doubt, s, t)
    ensures RunAt(doubt, s', t)
  {
    assert DiskAt(doubt, s', s.runs[t].fid) == DiskAt(doubt, s, s.runs[t].fid);
  }

  lemma RestStill(doubt: Doubt, s: Sys, s': Sys)
    requires SysInv(doubt, s) && SameWorld(s, s')
    requires forall t | t in s'.salvages :: t in s.salvages && s'.salvages[t] == s.salvages[t] && t !in s'.runs
    ensures forall f | f in s'.db.files :: FileAt(doubt, s', f)
    ensures forall t | t in s'.salvages :: SalvageAt(doubt, s', t)
  {
    forall f | f in s'.db.files ensures FileAt(doubt, s', f) { assert FileAt(doubt, s, f); }
    forall t | t in s'.salvages ensures SalvageAt(doubt, s', t) { assert SalvageAt(doubt, s, t); }
  }

  lemma RunChanged(doubt: Doubt, s: Sys, tok: nat, r: RunState)
    requires SysInv(doubt, s) && (tok in s.runs || tok !in s.salvages)
    requires RunInv(s.db, DiskAt(doubt, s, r.fid), tok, r)
    ensures SysInv(doubt, SetRun(s, tok, r))
  {
    var s' := SetRun(s, tok, r);
    forall t | t in s'.runs ensures RunAt(doubt, s', t) {
      if t == tok {
        assert DiskAt(doubt, s', r.fid) == DiskAt(doubt, s, r.fid);
      } else {
        RunStill(doubt, s, s', t);
      }
    }
    forall t | t in s'.salvages ensures t !in s'.runs { assert SalvageAt(doubt, s, t); }
    RestStill(doubt, s, s');
  }

  lemma SalvageChanged(doubt: Doubt, s: Sys, tok: nat, v: Salvage)
    requires SysInv(doubt, s) && SalvageAt(doubt, s.(salvages := s.salvages[tok := v]), tok)
    ensures SysInv(doubt, s.(salvages := s.salvages[tok := v]))
  {
    var s' := s.(salvages := s.salvages[tok := v]);
    forall t | t in s'.runs ensures RunAt(doubt, s', t) { RunStill(doubt, s, s', t); }
    forall f | f in s'.db.files ensures FileAt(doubt, s', f) { assert FileAt(doubt, s, f); }
    forall t | t in s'.salvages ensures SalvageAt(doubt, s', t) {
      if t != tok { assert SalvageAt(doubt, s, t); }
    }
  }

  lemma RunDropped(doubt: Doubt, s: Sys, tok: nat)
    requires SysInv(doubt, s)
    ensures SysInv(doubt, s.(runs := s.runs - {tok}))
  {
    var s' := s.(runs := s.runs - {tok});
    forall t | t in s'.runs ensures RunAt(doubt, s', t) { RunStill(doubt, s, s', t); }
    forall t | t in s'.salvages ensures t !in s'.runs { assert SalvageAt(doubt, s, t); }
    RestStill(doubt, s, s');
  }

  /** Which blobs exist, which staging files are gone and which hashes are expected is not part of it. */
  lemma NamesChanged(doubt: Doubt, s: Sys, s': Sys)
    requires SysInv(doubt, s) && s' == s.(gone := s'.gone, blobs := s'.blobs, blank := s'.blank)
    ensures SysInv(doubt, s')
  {
    forall t | t in s'.runs ensures RunAt(doubt, s', t) { RunStill(doubt, s, s', t); }
    forall t | t in s'.salvages ensures t !in s'.runs { assert SalvageAt(doubt, s, t); }
    RestStill(doubt, s, s');
  }

  /** More bytes on disk never hurt, as long as what is stable is also in the page cache. */
  lemma DiskGrew(doubt: Doubt, s: Sys, page: map<int, set<int>>, stable: map<int, set<int>>)
    requires SysInv(doubt, s)
    requires forall f :: At(s.page, f) <= At(page, f)
    requires forall f :: At(s.stable, f) <= At(stable, f)
    requires forall f :: At(stable, f) <= At(page, f)
    ensures SysInv(doubt, s.(page := page, stable := stable))
  {
    var s' := s.(page := page, stable := stable);
    forall tok | tok in s'.runs ensures RunAt(doubt, s', tok) { RunGrew(doubt, s, s', tok); }
    forall f | f in s'.db.files ensures FileAt(doubt, s', f) { assert FileAt(doubt, s, f); }
    forall t | t in s'.salvages ensures SalvageAt(doubt, s', t) { SalvageGrew(doubt, s, s', t); }
  }

  lemma RunGrew(doubt: Doubt, s: Sys, s': Sys, tok: nat)
    requires tok in s.runs && RunAt(doubt, s, tok) && s' == s.(page := s'.page, stable := s'.stable)
    requires At(s.page, s.runs[tok].fid) <= At(s'.page, s.runs[tok].fid)
    requires At(s.stable, s.runs[tok].fid) <= At(s'.stable, s.runs[tok].fid)
    ensures RunAt(doubt, s', tok)
  {
    var f := s.runs[tok].fid;
    RunOnMore(s.db, DiskAt(doubt, s, f), DiskAt(doubt, s', f), tok, s.runs[tok]);
  }

  lemma SalvageGrew(doubt: Doubt, s: Sys, s': Sys, tok: nat)
    requires tok in s.salvages && SalvageAt(doubt, s, tok) && s' == s.(page := s'.page, stable := s'.stable)
    requires At(s.page, s.salvages[tok].fid) <= At(s'.page, s.salvages[tok].fid)
    requires At(s.stable, s.salvages[tok].fid) <= At(s'.stable, s.salvages[tok].fid)
    ensures SalvageAt(doubt, s', tok)
  {
  }

  lemma RunOnMore(db: Db, disk: Disk, disk': Disk, tok: nat, r: RunState)
    requires RunInv(db, disk, tok, r) && disk.page <= disk'.page && disk.stable <= disk'.stable
    requires disk.inode == disk'.inode && disk.trusted == disk'.trusted && disk.solid == disk'.solid
    ensures RunInv(db, disk', tok, r)
  {
    if Owner(db, tok, r) && Opened(r) {
      forall i: nat | i < |r.pass| ensures PassRow(db, disk', r, i) { assert PassRow(db, disk, r, i); }
    }
  }

  // ---------------------------------------------------------------- doubt and trust

  /** In doubt nothing is claimed about the staging file, whatever it holds. */
  lemma RunInDoubt(db: Db, disk: Disk, disk': Disk, tok: nat, r: RunState)
    requires RunInv(db, disk, tok, r) && !disk'.trusted && !disk'.solid
    ensures RunInv(db, disk', tok, r)
  {
    if Owner(db, tok, r) && Opened(r) {
      forall i: nat | i < |r.pass| ensures PassRow(db, disk', r, i) { assert PassRow(db, disk, r, i); }
    }
  }

  /** No run or salvage of the file owns it. */
  predicate NoOwner(s: Sys, f: int) {
    && (forall t | t in s.runs :: s.runs[t].fid == f ==> !Owner(s.db, t, s.runs[t]))
    && (forall t | t in s.salvages :: s.salvages[t].fid == f ==> !OwnsFile(s.db, f, Salvaging, Some(t)))
  }

  /** The record of an unowned file lists only stable bytes. */
  predicate RecordStable(s: Sys, f: int) {
    f in s.db.files && Recorded(s.db.files[f]) <= At(s.stable, f) && NoOwner(s, f)
  }

  /** Every run that can still claim blocks of an unowned file is sound. */
  predicate RunsSound(s: Sys, f: int) {
    && NoOwner(s, f)
    && forall t | t in s.runs :: s.runs[t].fid == f && s.runs[t].phase.Running? ==> Sound(s.runs[t], DiskAt(NONE, s, f))
  }

  /** What is still in doubt once the state itself has answered. */
  function Relieved(doubt: Doubt, s: Sys): Doubt {
    var records := set f | f in doubt.records && !RecordStable(s, f);
    Doubt(records, set f | f in doubt.records + doubt.blocks && (f in records || !RunsSound(s, f)))
  }

  /** Trust comes back to records that are on stable storage, and to blocks only sound runs can complete. */
  lemma TrustRestored(doubt: Doubt, s: Sys)
    requires SysInv(doubt, s)
    ensures SysInv(Relieved(doubt, s), s)
  {
    var doubt' := Relieved(doubt, s);
    forall t | t in s.runs ensures RunAt(doubt', s, t) { RunTrusted(doubt, doubt', s, t); }
    forall g | g in s.db.files ensures FileAt(doubt', s, g) { assert FileAt(doubt, s, g); }
    forall t | t in s.salvages ensures SalvageAt(doubt', s, t) { assert SalvageAt(doubt, s, t); }
  }

  lemma RunTrusted(doubt: Doubt, doubt': Doubt, s: Sys, t: nat)
    requires t in s.runs && RunAt(doubt, s, t) && doubt' == Relieved(doubt, s)
    ensures RunAt(doubt', s, t)
  {
    var f := s.runs[t].fid;
    if DiskAt(doubt', s, f) != DiskAt(doubt, s, f) {
      assert NoOwner(s, f);
    }
  }
}
