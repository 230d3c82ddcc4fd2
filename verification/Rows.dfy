/**
 The files and blocks tables of pkg/store as values, with one function per SQL statement or
 transaction. Every mutation of a leased row is guarded by status and lease token; a guard that
 matches no row is `Fenced`. Tokens come from a counter that never repeats.
 */
module Rows {
  import opened Base
  import opened Chunking

  datatype FileStatus =
    Discovered | Salvaging | Queued | Downloading | Downloaded | Verifying | Cached | FileError

  datatype BlockStatus = Pending | Active | Done

  datatype Lease = Lease(token: nat, until: int)

  datatype FileRow = FileRow(
    size: int, status: FileStatus, lease: Option<Lease>, progress: Option<seq<Byte>>,
    retries: nat, verifyFails: nat, cachePath: Option<string>)

  datatype BlockRow = BlockRow(
    fileId: int, idx: int, offset: int, length: int, status: BlockStatus,
    lease: Option<Lease>, availableAt: Option<int>, retries: nat)
  {
    function End(): int { offset + length }
  }

  datatype Db = Db(files: map<int, FileRow>, blocks: map<int, BlockRow>, nextToken: nat)

  datatype StoreError =
    Fenced | NoWork | LiveBlockLeases | BlocksPending | TokenlessEdge | UniqueViolation

  const LEASE_DURATION: int := 30_000 // milliseconds
  const MAX_VERIFY_FAILS: nat := 2

  // ---------------------------------------------------------------- guards

  predicate HasToken(lease: Option<Lease>, tok: Option<nat>) {
    lease.Some? && tok == Some(lease.value.token)
  }

  predicate OwnsFile(db: Db, id: int, status: FileStatus, tok: Option<nat>) {
    id in db.files && db.files[id].status == status && HasToken(db.files[id].lease, tok)
  }

  predicate OwnsBlock(db: Db, bid: int, tok: Option<nat>) {
    bid in db.blocks && db.blocks[bid].status == Active && HasToken(db.blocks[bid].lease, tok)
  }

  predicate Expired(lease: Option<Lease>, now: int) {
    lease.Some? && lease.value.until <= now
  }

  function SetFile(db: Db, id: int, row: FileRow): Db { db.(files := db.files[id := row]) }

  function SetBlock(db: Db, bid: int, row: BlockRow): Db { db.(blocks := db.blocks[bid := row]) }

  // ---------------------------------------------------------------- file rows

  /** A listing inserts files straight into the download queue; a known file is left alone. */
  function InsertFile(db: Db, id: int, size: nat): Db {
    if id in db.files then db
    else SetFile(db, id, FileRow(size, Queued, None, None, 0, 0, None))
  }

  function LeaseFileForDownload(db: Db, id: int, now: int): (Db, Result<nat, StoreError>) {
    var tok := db.nextToken;
    var db1 := db.(nextToken := tok + 1);
    if id in db.files && db.files[id].status == Queued then
      (SetFile(db1, id, db.files[id].(status := Downloading, lease := Some(Lease(tok, now + LEASE_DURATION)))), Ok(tok))
    else (db1, Err(Fenced))
  }

  /** The only edges an empty token may drive: offline serve and forced re-download. */
  predicate TokenlessEdgeAllowed(from: FileStatus, to: FileStatus) {
    (from == Queued && to == Downloaded) || (from == Cached && to == Queued)
  }

  predicate HasLiveBlock(db: Db, id: int, now: int) {
    exists b | b in db.blocks ::
      db.blocks[b].fileId == id && db.blocks[b].status == Active
      && db.blocks[b].lease.Some? && db.blocks[b].lease.value.until > now
  }

  predicate HasUnfinishedBlock(db: Db, id: int) {
    exists b | b in db.blocks :: db.blocks[b].fileId == id && db.blocks[b].status != Done
  }

  function TransitionFile(db: Db, id: int, tok: Option<nat>, from: FileStatus, to: FileStatus, now: int):
      (Db, Result<(), StoreError>)
  {
    if tok.None? && !TokenlessEdgeAllowed(from, to) then (db, Err(TokenlessEdge))
    else if !(id in db.files && db.files[id].status == from
              && (if tok.Some? then HasToken(db.files[id].lease, tok) else db.files[id].lease.None?)) then
      (db, Err(Fenced))
    else if from == Downloading && to == Downloaded && HasLiveBlock(db, id, now) then (db, Err(LiveBlockLeases))
    else if from == Downloading && to == Downloaded && HasUnfinishedBlock(db, id) then (db, Err(BlocksPending))
    else (SetFile(db, id, db.files[id].(status := to, lease := None)), Ok(()))
  }

  /** Byte-complete resume: drop the stale unfinished blocks and leave `downloading`. */
  function FinishDownloaded(db: Db, id: int, tok: Option<nat>): (Db, Result<(), StoreError>) {
    if !OwnsFile(db, id, Downloading, tok) then (db, Err(Fenced))
    else
      var db1 := db.(blocks := map b | b in db.blocks && (db.blocks[b].fileId != id || db.blocks[b].status == Done)
                               :: db.blocks[b]);
      (SetFile(db1, id, db.files[id].(status := Downloaded, lease := None)), Ok(()))
  }

  function SaveProgress(db: Db, id: int, tok: Option<nat>, blob: Option<seq<Byte>>): (Db, Result<(), StoreError>) {
    if OwnsFile(db, id, Downloading, tok) || OwnsFile(db, id, Salvaging, tok) then
      (SetFile(db, id, db.files[id].(progress := blob)), Ok(()))
    else (db, Err(Fenced))
  }

  function IncrFileRetries(db: Db, id: int, tok: Option<nat>): (Db, Result<nat, StoreError>) {
    if OwnsFile(db, id, Downloading, tok) then
      var n := db.files[id].retries + 1;
      (SetFile(db, id, db.files[id].(retries := n)), Ok(n))
    else (db, Err(Fenced))
  }

  /** The smallest id in a set of candidates: claims take the oldest row. */
  function Oldest(ids: set<int>): (m: int)
    requires exists x :: x in ids
    ensures m in ids && forall x | x in ids :: m <= x
  {
    HasLeast(ids);
    var m :| m in ids && forall x | x in ids :: m <= x;
    m
  }

  lemma {:induction false} HasLeast(ids: set<int>)
    requires exists x :: x in ids
    ensures exists m :: m in ids && forall x | x in ids :: m <= x
    decreases |ids|
  {
    var y :| y in ids;
    if z :| z in ids - {y} {
      HasLeast(ids - {y});
      var m :| m in ids - {y} && forall x | x in ids - {y} :: m <= x;
      var least := if y < m then y else m;
      forall x | x in ids ensures least <= x {
        if x != y { assert x in ids - {y}; }
      }
      assert least in ids;
    } else {
      forall x | x in ids ensures y <= x {
        assert x !in ids - {y};
      }
    }
  }

  function WithStatus(db: Db, status: FileStatus): set<int> {
    set id | id in db.files && db.files[id].status == status
  }

  function LeaseVerify(db: Db, now: int): (Db, Result<(int, nat), StoreError>) {
    var tok := db.nextToken;
    var db1 := db.(nextToken := tok + 1);
    var ids := WithStatus(db, Downloaded);
    if !(exists x :: x in ids) then (db1, Err(NoWork)) else
      var id := Oldest(ids);
      (SetFile(db1, id, db.files[id].(status := Verifying, lease := Some(Lease(tok, now + LEASE_DURATION)))),
       Ok((id, tok)))
  }

  function CompleteVerify(db: Db, id: int, tok: Option<nat>, path: string): (Db, Result<(), StoreError>) {
    if OwnsFile(db, id, Verifying, tok) then
      (SetFile(db, id, db.files[id].(status := Cached, cachePath := Some(path), lease := None)), Ok(()))
    else (db, Err(Fenced))
  }

  function ResetBlock(b: BlockRow): BlockRow {
    b.(status := Pending, availableAt := None, lease := None)
  }

  /** A hash mismatch: requeue with no resume record and all blocks pending, or give up. */
  function FailVerify(db: Db, id: int, tok: Option<nat>): (Db, Result<(), StoreError>) {
    if !OwnsFile(db, id, Verifying, tok) then (db, Err(Fenced))
    else
      var fails := db.files[id].verifyFails + 1;
      var row := db.files[id].(verifyFails := fails, lease := None);
      if fails >= MAX_VERIFY_FAILS then (SetFile(db, id, row.(status := FileError)), Ok(()))
      else
        var db1 := db.(blocks := map b | b in db.blocks ::
                         if db.blocks[b].fileId == id then ResetBlock(db.blocks[b]) else db.blocks[b]);
        (SetFile(db1, id, row.(status := Queued, progress := None)), Ok(()))
  }

  function MarkCachedFromBlob(db: Db, id: int, path: string): (Db, Result<(), StoreError>) {
    if id in db.files && db.files[id].status == Queued then
      (SetFile(db, id, db.files[id].(status := Cached, cachePath := Some(path))), Ok(()))
    else (db, Err(Fenced))
  }

  function SalvageCandidates(db: Db, now: int): set<int> {
    set id | id in db.files && db.files[id].status == Salvaging
             && (db.files[id].lease.None? || Expired(db.files[id].lease, now))
  }

  function LeaseSalvage(db: Db, now: int): (Db, Result<(int, nat), StoreError>) {
    var tok := db.nextToken;
    var db1 := db.(nextToken := tok + 1);
    var ids := SalvageCandidates(db, now);
    if !(exists x :: x in ids) then (db1, Err(NoWork)) else
      var id := Oldest(ids);
      (SetFile(db1, id, db.files[id].(lease := Some(Lease(tok, now + LEASE_DURATION)))), Ok((id, tok)))
  }

  function MarkSalvaging(db: Db, id: int): (Db, Result<(), StoreError>) {
    if id in db.files && (db.files[id].status == Discovered || db.files[id].status == Queued) then
      (SetFile(db, id, db.files[id].(status := Salvaging)), Ok(()))
    else (db, Err(Fenced))
  }

  // ---------------------------------------------------------------- block rows

  function NewRow(fileId: int, b: Block): BlockRow {
    BlockRow(fileId, b.idx, b.offset, b.length, Pending, None, None, 0)
  }

  function InsertBlocks(rows: map<int, BlockRow>, fileId: int, blocks: seq<Block>, firstId: int): map<int, BlockRow>
    decreases |blocks|
  {
    if blocks == [] then rows
    else InsertBlocks(rows[firstId := NewRow(fileId, blocks[0])], fileId, blocks[1..], firstId + 1)
  }

  /** The UNIQUE (file_id, idx) constraint over surviving and new rows. */
  predicate IdxFree(rows: map<int, BlockRow>, fileId: int, blocks: seq<Block>) {
    && (forall b, i | b in rows && 0 <= i < |blocks| :: rows[b].fileId != fileId || rows[b].idx != blocks[i].idx)
    && (forall i, j | 0 <= i < j < |blocks| :: blocks[i].idx != blocks[j].idx)
  }

  function WithoutPending(db: Db, id: int): map<int, BlockRow> {
    map b | b in db.blocks && (db.blocks[b].fileId != id || db.blocks[b].status != Pending) :: db.blocks[b]
  }

  /** Re-chunk: the pending rows go, the new set comes, done and active rows are never touched. */
  function ReplacePendingBlocks(db: Db, id: int, tok: Option<nat>, blocks: seq<Block>, firstId: int):
      (Db, Result<(), StoreError>)
  {
    if !OwnsFile(db, id, Downloading, tok) then (db, Err(Fenced))
    else
      var kept := WithoutPending(db, id);
      if !IdxFree(kept, id, blocks) then (db, Err(UniqueViolation))
      else (db.(blocks := InsertBlocks(kept, id, blocks, firstId)), Ok(()))
  }

  predicate Claimable(db: Db, bid: int) {
    bid in db.blocks && db.blocks[bid].status == Pending
    && db.blocks[bid].fileId in db.files && db.files[db.blocks[bid].fileId].status == Downloading
  }

  predicate Available(b: BlockRow, now: int) {
    b.availableAt.None? || b.availableAt.value <= now
  }

  /** One self-guarding claim of LeaseBlocks. */
  function ClaimBlock(db: Db, bid: int, now: int): (Db, Result<nat, StoreError>) {
    var tok := db.nextToken;
    var db1 := db.(nextToken := tok + 1);
    if Claimable(db, bid) then
      (SetBlock(db1, bid, db.blocks[bid].(status := Active, lease := Some(Lease(tok, now + LEASE_DURATION)))), Ok(tok))
    else (db1, Err(Fenced))
  }

  function RequeueBlock(db: Db, bid: int, tok: Option<nat>, availableAt: int): (Db, Result<nat, StoreError>) {
    if OwnsBlock(db, bid, tok) then
      var n := db.blocks[bid].retries + 1;
      (SetBlock(db, bid, db.blocks[bid].(status := Pending, availableAt := Some(availableAt), retries := n,
        lease := None)),
       Ok(n))
    else (db, Err(Fenced))
  }

  /** Marks an active block done; the answer says whether it was the file's last unfinished one. */
  function CompleteBlock(db: Db, bid: int, tok: Option<nat>): (Db, Result<bool, StoreError>) {
    if OwnsBlock(db, bid, tok) then
      var db1 := SetBlock(db, bid, db.blocks[bid].(status := Done, lease := None));
      (db1, Ok(!HasUnfinishedBlock(db1, db.blocks[bid].fileId)))
    else (db, Err(Fenced))
  }

  // ---------------------------------------------------------------- heartbeats and recovery

  predicate RenewableStatus(s: FileStatus) { s == Downloading || s == Salvaging || s == Verifying }

  function RenewFileLease(db: Db, id: int, tok: Option<nat>, until: int, now: int): (Db, Result<(), StoreError>) {
    if id in db.files && HasToken(db.files[id].lease, tok) && db.files[id].lease.value.until > now
       && RenewableStatus(db.files[id].status) then
      (SetFile(db, id, db.files[id].(lease := Some(Lease(tok.value, until)))), Ok(()))
    else (db, Err(Fenced))
  }

  function RenewBlockLease(db: Db, bid: int, tok: Option<nat>, until: int, now: int): (Db, Result<(), StoreError>) {
    if OwnsBlock(db, bid, tok) && db.blocks[bid].lease.value.until > now then
      (SetBlock(db, bid, db.blocks[bid].(lease := Some(Lease(tok.value, until)))), Ok(()))
    else (db, Err(Fenced))
  }

  /** Where an expired lease sends its file. */
  function Requeued(f: FileRow, now: int): FileRow {
    if !Expired(f.lease, now) then f
    else match f.status
      case Downloading => f.(status := Queued, lease := None)
      case Salvaging => f.(status := Queued, lease := None)
      case Verifying => f.(status := Downloaded, lease := None)
      case _ => f
  }

  /** A block goes back when its own lease expired or when its downloading file's lease did. */
  predicate BlockExpires(db: Db, b: BlockRow, now: int) {
    b.status == Active
    && (Expired(b.lease, now)
        || (b.fileId in db.files && db.files[b.fileId].status == Downloading && Expired(db.files[b.fileId].lease, now)))
  }

  /** What Recover must achieve, row by row. */
  function Recovered(db: Db, now: int): Db {
    Db(map id | id in db.files :: Requeued(db.files[id], now),
       map b | b in db.blocks :: if BlockExpires(db, db.blocks[b], now) then ResetBlock(db.blocks[b]) else db.blocks[b],
       db.nextToken)
  }

  /** One UPDATE of the recovery transaction. */
  datatype Sweep = BlockSweep | FileSweep(from: FileStatus, to: FileStatus)

  const RECOVERY: seq<Sweep> :=
    [BlockSweep, FileSweep(Downloading, Queued), FileSweep(Verifying, Downloaded), FileSweep(Salvaging, Queued)]

  function SweepRow(f: FileRow, from: FileStatus, to: FileStatus, now: int): FileRow {
    if f.status == from && Expired(f.lease, now) then f.(status := to, lease := None) else f
  }

  function ApplySweep(db: Db, sweep: Sweep, now: int): Db {
    match sweep
    case BlockSweep =>
      db.(blocks := map b | b in db.blocks ::
            if BlockExpires(db, db.blocks[b], now) then ResetBlock(db.blocks[b]) else db.blocks[b])
    case FileSweep(from, to) =>
      db.(files := map id | id in db.files :: SweepRow(db.files[id], from, to, now))
  }

  function Sweeps(db: Db, sweeps: seq<Sweep>, now: int): Db
    decreases |sweeps|
  {
    if sweeps == [] then db else Sweeps(ApplySweep(db, sweeps[0], now), sweeps[1..], now)
  }

  function Recover(db: Db, now: int): Db { Sweeps(db, RECOVERY, now) }
}
