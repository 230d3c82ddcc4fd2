/**
 What the store calls of pkg/store do, said in rows, tokens and times only: when a call takes
 effect, how long a lease lasts, which rows and fields a call may touch, and that no file ever
 has two blocks of one index.
 */
module Calls {
  import opened Base
  import opened Chunking
  import opened Rows
  import opened Fencing
  import S = Store

  // ---------------------------------------------------------------- when a call takes effect

  /** Whether the call reports success. */
  predicate Succeeds(db: Db, op: Op) {
    match op
    case Insert(id, size) => id !in db.files
    case Lease(id, now) => LeaseFileForDownload(db, id, now).1.Ok?
    case Transition(id, tok, from, to, now) => TransitionFile(db, id, tok, from, to, now).1.Ok?
    case Finish(id, tok) => FinishDownloaded(db, id, tok).1.Ok?
    case Save(id, tok, blob) => SaveProgress(db, id, tok, blob).1.Ok?
    case BumpRetries(id, tok) => IncrFileRetries(db, id, tok).1.Ok?
    case ClaimVerify(now) => LeaseVerify(db, now).1.Ok?
    case EndVerify(id, tok, path) => CompleteVerify(db, id, tok, path).1.Ok?
    case RejectVerify(id, tok) => FailVerify(db, id, tok).1.Ok?
    case ReuseBlob(id, path) => MarkCachedFromBlob(db, id, path).1.Ok?
    case ClaimSalvage(now) => LeaseSalvage(db, now).1.Ok?
    case StartSalvage(id) => MarkSalvaging(db, id).1.Ok?
    case Rechunk(id, tok, blocks, firstId) => ReplacePendingBlocks(db, id, tok, blocks, firstId).1.Ok?
    case Claim(bid, now) => ClaimBlock(db, bid, now).1.Ok?
    case Requeue(bid, tok, at) => RequeueBlock(db, bid, tok, at).1.Ok?
    case Complete(bid, tok) => CompleteBlock(db, bid, tok).1.Ok?
    case RenewFile(id, tok, until, now) => RenewFileLease(db, id, tok, until, now).1.Ok?
    case RenewBlock(bid, tok, until, now) => RenewBlockLease(db, bid, tok, until, now).1.Ok?
    case Sweep(now) => true
  }

  function LeaseOf(db: Db, r: RowRef): Option<Rows.Lease> {
    match r
    case FileRef(id) => if id in db.files then db.files[id].lease else None
    case BlockRef(bid) => if bid in db.blocks then db.blocks[bid].lease else None
  }

  /** The caller's token is the one on the row. */
  predicate Bears(db: Db, r: RowRef, tok: Option<nat>) {
    LeaseOf(db, r).Some? && tok == Some(LeaseOf(db, r).value.token)
  }

  predicate InStatus(db: Db, id: int, among: set<FileStatus>) { id in db.files && db.files[id].status in among }

  /** Waiting for a copy: claimed by no one, or by someone whose time is up. */
  predicate Salvageable(db: Db, id: int, now: int) {
    InStatus(db, id, {Salvaging}) && (db.files[id].lease.None? || db.files[id].lease.value.until <= now)
  }

  predicate Running(db: Db, bid: int) { bid in db.blocks && db.blocks[bid].status == Active }

  /** Every block of the file is done. */
  predicate NothingLeft(db: Db, id: int) {
    forall b | b in db.blocks && db.blocks[b].fileId == id :: db.blocks[b].status == Done
  }

  /** No new index is taken twice or by a row that stays. */
  predicate IndicesFit(db: Db, id: int, blocks: seq<Block>) {
    && (forall b, i | b in db.blocks && 0 <= i < |blocks| && db.blocks[b].fileId == id
                      && db.blocks[b].status in {Active, Done} :: db.blocks[b].idx != blocks[i].idx)
    && (forall i, j | 0 <= i < |blocks| && 0 <= j < |blocks| && i != j :: blocks[i].idx != blocks[j].idx)
  }

  /** The table of guards: the state of the rows in which a call takes effect. */
  ghost predicate Entitled(db: Db, op: Op) {
    match op
    case Insert(id, _) => id !in db.files
    case Lease(id, _) => InStatus(db, id, {Queued})
    case Transition(id, tok, from, to, _) =>
      && InStatus(db, id, {from})
      && (if tok.Some? then Bears(db, FileRef(id), tok)
          else db.files[id].lease.None? && (from, to) in {(Queued, Downloaded), (Cached, Queued)})
      && ((from, to) == (Downloading, Downloaded) ==> NothingLeft(db, id))
    case Finish(id, tok) => InStatus(db, id, {Downloading}) && Bears(db, FileRef(id), tok)
    case Save(id, tok, _) => InStatus(db, id, {Downloading, Salvaging}) && Bears(db, FileRef(id), tok)
    case BumpRetries(id, tok) => InStatus(db, id, {Downloading}) && Bears(db, FileRef(id), tok)
    case ClaimVerify(_) => exists id :: InStatus(db, id, {Downloaded})
    case EndVerify(id, tok, _) => InStatus(db, id, {Verifying}) && Bears(db, FileRef(id), tok)
    case RejectVerify(id, tok) => InStatus(db, id, {Verifying}) && Bears(db, FileRef(id), tok)
    case ReuseBlob(id, _) => InStatus(db, id, {Queued})
    case ClaimSalvage(now) => exists id :: Salvageable(db, id, now)
    case StartSalvage(id) => InStatus(db, id, {Discovered, Queued})
    case Rechunk(id, tok, blocks, _) =>
      InStatus(db, id, {Downloading}) && Bears(db, FileRef(id), tok) && IndicesFit(db, id, blocks)
    case Claim(bid, _) =>
      bid in db.blocks && db.blocks[bid].status == Pending && InStatus(db, db.blocks[bid].fileId, {Downloading})
    case Requeue(bid, tok, _) => Running(db, bid) && Bears(db, BlockRef(bid), tok)
    case Complete(bid, tok) => Running(db, bid) && Bears(db, BlockRef(bid), tok)
    case RenewFile(id, tok, _, now) =>
      && InStatus(db, id, {Downloading, Salvaging, Verifying}) && Bears(db, FileRef(id), tok)
      && now < db.files[id].lease.value.until
    case RenewBlock(bid, tok, _, now) =>
      Running(db, bid) && Bears(db, BlockRef(bid), tok) && now < db.blocks[bid].lease.value.until
    case Sweep(_) => true
  }

  lemma FitIffFree(db: Db, id: int, blocks: seq<Block>)
    ensures IdxFree(WithoutPending(db, id), id, blocks) <==> IndicesFit(db, id, blocks)
  {
    var kept := WithoutPending(db, id);
    if IdxFree(kept, id, blocks) {
      forall b, i | b in db.blocks && 0 <= i < |blocks| && db.blocks[b].fileId == id
                    && db.blocks[b].status in {Active, Done}
        ensures db.blocks[b].idx != blocks[i].idx
      {
        assert b in kept;
      }
    }
  }

  lemma BlockCallSucceeds(db: Db, op: Op)
    requires BlockCall(op) && !op.Rechunk?
    ensures Succeeds(db, op) <==> Entitled(db, op)
  {
  }

  /** A call succeeds exactly in the states the table lists. */
  lemma SucceedsIff(db: Db, op: Op)
    ensures Succeeds(db, op) <==> Entitled(db, op)
  {
    if op.Rechunk? {
      FitIffFree(db, op.id, op.blocks);
    } else if BlockCall(op) {
      BlockCallSucceeds(db, op);
    } else if op.ClaimVerify? {
      assert forall id :: InStatus(db, id, {Downloaded}) <==> id in WithStatus(db, Downloaded);
    } else if op.ClaimSalvage? {
      assert forall id :: id in SalvageCandidates(db, op.now) <==> Salvageable(db, id, op.now);
    }
  }

  /** A call that does not succeed changes no row. */
  lemma RefusedChangesNothing(db: Db, op: Op)
    requires !Succeeds(db, op)
    ensures Apply(db, op).files == db.files && Apply(db, op).blocks == db.blocks
  {
  }

  /** Why a finished download may be refused: a block still leased and live, or one not done. */
  lemma RefusedFinish(db: Db, id: int, tok: nat, now: int)
    requires InStatus(db, id, {Downloading}) && Bears(db, FileRef(id), Some(tok))
    ensures var r := TransitionFile(db, id, Some(tok), Downloading, Downloaded, now).1;
            && (r == Err(LiveBlockLeases) <==>
                  exists b :: Running(db, b) && db.blocks[b].fileId == id
                              && db.blocks[b].lease.Some? && now < db.blocks[b].lease.value.until)
            && (r == Err(BlocksPending) <==> r != Err(LiveBlockLeases) && !NothingLeft(db, id))
            && (r == Ok(()) <==> NothingLeft(db, id))
  {
    if HasLiveBlock(db, id, now) {
      var b :| b in db.blocks && db.blocks[b].fileId == id && db.blocks[b].status == Active
               && db.blocks[b].lease.Some? && db.blocks[b].lease.value.until > now;
      assert Running(db, b);
    }
  }

  // ---------------------------------------------------------------- how long a lease lasts

  /** A granted lease carries the next token and runs for thirty seconds. */
  lemma GrantedLease(db: Db, op: Op)
    requires Granted(db, op).Some?
    ensures LeaseOf(Apply(db, op), Granted(db, op).value) == Some(Rows.Lease(db.nextToken, op.now + 30_000))
  {
  }

  /** The verify queue is served oldest first. */
  lemma VerifyTakesOldest(db: Db, now: int)
    ensures match LeaseVerify(db, now).1
            case Ok((id, tok)) =>
              && InStatus(db, id, {Downloaded}) && tok == db.nextToken
              && (forall other :: InStatus(db, other, {Downloaded}) ==> id <= other)
            case Err(e) => e == NoWork && forall id :: !InStatus(db, id, {Downloaded})
  {
    var ids := WithStatus(db, Downloaded);
    assert forall id :: InStatus(db, id, {Downloaded}) <==> id in ids;
  }

  /** A salvage claim takes the oldest row that is free or overdue; a live lease is never taken over. */
  lemma SalvageTakesFreeOrOverdue(db: Db, now: int)
    ensures var (db', r) := LeaseSalvage(db, now);
            && (r.Ok? <==> exists id :: Salvageable(db, id, now))
            && (r.Ok? ==> Salvageable(db, r.value.0, now)
                          && forall other :: Salvageable(db, other, now) ==> r.value.0 <= other)
            && (forall id | id in db.files && db.files[id].lease.Some? && now < db.files[id].lease.value.until ::
                  id in db'.files && db'.files[id] == db.files[id])
  {
    assert forall id :: id in SalvageCandidates(db, now) <==> Salvageable(db, id, now);
  }

  /** At any time exactly one of the two can act on a lease: its holder's renewal or recovery. */
  lemma RenewOrRecover(db: Db, id: int, tok: nat, until: int, now: int)
    requires InStatus(db, id, {Downloading, Salvaging, Verifying}) && Bears(db, FileRef(id), Some(tok))
    ensures RenewFileLease(db, id, Some(tok), until, now).1.Ok? <==> now < db.files[id].lease.value.until
    ensures id in Recover(db, now).files
    ensures Recover(db, now).files[id] == db.files[id] <==> now < db.files[id].lease.value.until
  {
    RecoverUnfold(db, now);
  }

  /** A renewal that succeeds moves the end of the lease and nothing else. */
  lemma RenewalMovesTheEnd(db: Db, r: RowRef, tok: nat, until: int, now: int)
    requires Bears(db, r, Some(tok))
    ensures var op := if r.FileRef? then RenewFile(r.id, Some(tok), until, now)
                      else RenewBlock(r.bid, Some(tok), until, now);
            && (Succeeds(db, op) ==> LeaseOf(Apply(db, op), r) == Some(Rows.Lease(tok, until)))
            && (forall r' | r' != r :: LeaseOf(Apply(db, op), r') == LeaseOf(db, r'))
  {
  }

  // ---------------------------------------------------------------- what a call touches

  /** Whose row a call may change; recovery may change any. */
  predicate Concerns(db: Db, op: Op, r: RowRef) {
    match op
    case Rechunk(id, _, _, _) => r.BlockRef? && (r.bid in db.blocks ==> db.blocks[r.bid].fileId == id)
    case Claim(bid, _) => r == BlockRef(bid)
    case Requeue(bid, _, _) => r == BlockRef(bid)
    case Complete(bid, _) => r == BlockRef(bid)
    case RenewBlock(bid, _, _, _) => r == BlockRef(bid)
    case Finish(id, _) => r == FileRef(id) || (r.BlockRef? && r.bid in db.blocks && db.blocks[r.bid].fileId == id)
    case RejectVerify(id, _) => r == FileRef(id) || (r.BlockRef? && r.bid in db.blocks && db.blocks[r.bid].fileId == id)
    case ClaimVerify(_) => r.FileRef? && InStatus(db, r.id, {Downloaded})
    case ClaimSalvage(now) => r.FileRef? && Salvageable(db, r.id, now)
    case Sweep(_) => true
    case _ => r == FileRef(op.id)
  }

  predicate SameRow(db: Db, db': Db, r: RowRef) {
    match r
    case FileRef(id) => (id in db.files <==> id in db'.files) && (id in db.files ==> db'.files[id] == db.files[id])
    case BlockRef(b) => (b in db.blocks <==> b in db'.blocks) && (b in db.blocks ==> db'.blocks[b] == db.blocks[b])
  }

  /** No call changes a row it does not concern. */
  lemma OthersUntouched(db: Db, op: Op, r: RowRef)
    requires Legal(db, op) && !Concerns(db, op, r)
    ensures SameRow(db, Apply(db, op), r)
  {
    if op.Rechunk? {
      InsertedBlocks(WithoutPending(db, op.id), op.id, op.blocks, op.firstId);
    } else if BlockCall(op) {
      BlockCallOthers(db, op, Apply(db, op), r);
    } else {
      FileCallOthers(db, op, Apply(db, op), r);
    }
  }

  lemma BlockCallOthers(db: Db, op: Op, db': Db, r: RowRef)
    requires BlockCall(op) && !op.Rechunk? && db' == Apply(db, op) && !Concerns(db, op, r)
    ensures SameRow(db, db', r)
  {
  }

  lemma FileCallOthers(db: Db, op: Op, db': Db, r: RowRef)
    requires !BlockCall(op) && !op.Sweep? && db' == Apply(db, op) && !Concerns(db, op, r)
    ensures SameRow(db, db', r)
  {
  }

  /** The calls that may change each field of a file row, and what they write. */
  predicate FieldsFollow(f: FileRow, f': FileRow, op: Op, mine: bool) {
    && f'.progress == (if mine && op.Save? then op.blob
                       else if mine && op.RejectVerify? && f'.status == Queued then None else f.progress)
    && f'.cachePath == (if mine && (op.EndVerify? || op.ReuseBlob?) then Some(op.path) else f.cachePath)
    && f'.retries == f.retries + (if mine && op.BumpRetries? then 1 else 0)
    && f'.verifyFails == f.verifyFails + (if mine && op.RejectVerify? then 1 else 0)
  }

  /** The call names this file and succeeds. */
  predicate Mine(db: Db, op: Op, id: int) {
    (op.Save? || op.EndVerify? || op.ReuseBlob? || op.BumpRetries? || op.RejectVerify?) && op.id == id
    && Succeeds(db, op)
  }

  lemma FieldsChangeOnlyBy(db: Db, op: Op, id: int)
    requires id in db.files
    ensures id in Apply(db, op).files
    ensures FieldsFollow(db.files[id], Apply(db, op).files[id], op, Mine(db, op, id))
  {
    if op.Sweep? {
      RecoverUnfold(db, op.now);
    } else if BlockCall(op) {
      BlockCallFiles(db, op);
    } else {
      FileCallFields(db, op, Apply(db, op), id);
    }
  }

  lemma FileCallFields(db: Db, op: Op, db': Db, id: int)
    requires id in db.files && !BlockCall(op) && !op.Sweep? && db' == Apply(db, op)
    ensures id in db'.files && FieldsFollow(db.files[id], db'.files[id], op, Mine(db, op, id))
  {
  }

  /** A block row's file, index and range never change. */
  predicate SameBlock(a: BlockRow, b: BlockRow) {
    a.fileId == b.fileId && a.idx == b.idx && a.offset == b.offset && a.length == b.length
  }

  lemma BlocksKeepTheirRange(db: Db, op: Op, b: int)
    requires Legal(db, op) && b in Apply(db, op).blocks && (b in db.blocks || !op.Rechunk?)
    ensures b in db.blocks && SameBlock(Apply(db, op).blocks[b], db.blocks[b])
  {
    if op.Rechunk? {
      RechunkedRow(db, op, b);
    } else if op.Sweep? {
      RecoverUnfold(db, op.now);
    }
  }

  // ---------------------------------------------------------------- blocks

  /** No file has two blocks of one index. */
  predicate UniqueIdx(db: Db) {
    forall a, b | a in db.blocks && b in db.blocks && a != b && db.blocks[a].fileId == db.blocks[b].fileId ::
      db.blocks[a].idx != db.blocks[b].idx
  }

  lemma UniqueKept(db: Db, op: Op)
    requires Legal(db, op) && UniqueIdx(db)
    ensures UniqueIdx(Apply(db, op))
  {
    var db' := Apply(db, op);
    if op.Rechunk? {
      RechunkUnique(db, op, db');
    } else {
      forall b | b in db'.blocks ensures b in db.blocks && SameBlock(db'.blocks[b], db.blocks[b]) {
        BlocksKeepTheirRange(db, op, b);
      }
    }
  }

  /** The rows after a re-chunk: below firstId those kept, from there on the new ones in order. */
  lemma RowsAfterRechunk(db: Db, op: Op, b: int)
    requires op.Rechunk? && Legal(db, op) && Succeeds(db, op)
    ensures var kept, rows := WithoutPending(db, op.id), Apply(db, op).blocks;
            && (b in rows <==> b in kept || op.firstId <= b < op.firstId + |op.blocks|)
            && (b in kept ==> b < op.firstId && b in rows && rows[b] == kept[b])
            && (op.firstId <= b < op.firstId + |op.blocks| ==>
                  b in rows && rows[b] == NewRow(op.id, op.blocks[b - op.firstId]))
  {
    var kept := WithoutPending(db, op.id);
    InsertedBlocks(kept, op.id, op.blocks, op.firstId);
    if op.firstId <= b < op.firstId + |op.blocks| {
      InsertedAt(kept, op.id, op.blocks, op.firstId, b - op.firstId);
    }
  }

  lemma RechunkUnique(db: Db, op: Op, db': Db)
    requires op.Rechunk? && Legal(db, op) && UniqueIdx(db) && db' == Apply(db, op)
    ensures UniqueIdx(db')
  {
    if Succeeds(db, op) {
      forall a, b | a in db'.blocks && b in db'.blocks && a < b && db'.blocks[a].fileId == db'.blocks[b].fileId
        ensures db'.blocks[a].idx != db'.blocks[b].idx
      {
        RowsAfterRechunk(db, op, a);
        RowsAfterRechunk(db, op, b);
      }
    }
  }

  /** In every reachable state no file has two blocks of one index. */
  lemma {:induction false} IndicesStayUnique(db: Db, ops: seq<Op>)
    requires UniqueIdx(db) && LegalRun(db, ops)
    ensures UniqueIdx(Run(db, ops))
    decreases |ops|
  {
    if ops != [] {
      UniqueKept(db, ops[0]);
      IndicesStayUnique(Apply(db, ops[0]), ops[1..]);
    }
  }

  /** A block handed back is a candidate again from its backoff on, and not before. */
  lemma HandedBackWaits(db: Db, bid: int, tok: Option<nat>, availableAt: int, now: int)
    requires Running(db, bid) && Bears(db, BlockRef(bid), tok) && InStatus(db, db.blocks[bid].fileId, {Downloading})
    ensures var db' := RequeueBlock(db, bid, tok, availableAt).0;
            S.Cand(bid, db.blocks[bid].fileId, db.blocks[bid].idx) in S.Eligible(db', {}, now) <==> availableAt <= now
  {
    var db' := RequeueBlock(db, bid, tok, availableAt).0;
    assert forall c | c in S.Eligible(db', {}, now) :: Available(db'.blocks[c.id], now);
    if availableAt <= now {
      assert Claimable(db', bid) && Available(db'.blocks[bid], now);
      assert S.Cand(bid, db'.blocks[bid].fileId, db'.blocks[bid].idx) in S.Eligible(db', {}, now);
    }
  }

  /** An early finish leaves the file no block to do, and keeps every block done and every other file's. */
  lemma EarlyFinishLeavesNothing(db: Db, id: int, tok: Option<nat>)
    requires InStatus(db, id, {Downloading}) && Bears(db, FileRef(id), tok)
    ensures var db' := FinishDownloaded(db, id, tok).0;
            && InStatus(db', id, {Downloaded}) && db'.files[id].lease.None? && NothingLeft(db', id)
            && (forall b | b in db.blocks && (db.blocks[b].fileId != id || db.blocks[b].status == Done) ::
                  b in db'.blocks && db'.blocks[b] == db.blocks[b])
            && (forall b | b in db'.blocks :: b in db.blocks)
  {
  }

  /** A file that fails its hash starts over: every block is to do and free, and nothing is on record. */
  lemma RejectedStartsOver(db: Db, id: int, tok: Option<nat>)
    requires InStatus(db, id, {Verifying}) && Bears(db, FileRef(id), tok) && db.files[id].verifyFails == 0
    ensures var db' := FailVerify(db, id, tok).0;
            && InStatus(db', id, {Queued}) && db'.files[id].lease.None? && db'.files[id].progress.None?
            && db'.blocks.Keys == db.blocks.Keys
            && (forall b | b in db.blocks && db.blocks[b].fileId == id ::
                  && SameBlock(db'.blocks[b], db.blocks[b]) && db'.blocks[b].status == Pending
                  && db'.blocks[b].lease.None? && db'.blocks[b].availableAt.None?)
  {
  }

  /** A re-chunk replaces the file's pending blocks by the new ones, in order, and leaves the rest. */
  lemma RechunkReplacesPending(db: Db, op: Op, b: int)
    requires op.Rechunk? && Legal(db, op) && Entitled(db, op)
    ensures var rows := Apply(db, op).blocks;
            if op.firstId <= b < op.firstId + |op.blocks| then
              b in rows && rows[b] == NewRow(op.id, op.blocks[b - op.firstId])
            else if b in db.blocks && (db.blocks[b].fileId != op.id || db.blocks[b].status in {Active, Done}) then
              b in rows && rows[b] == db.blocks[b]
            else b !in rows
  {
    SucceedsIff(db, op);
    RowsAfterRechunk(db, op, b);
  }
}
