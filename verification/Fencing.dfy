/**
 Whole runs of the store. `Op` is any call any worker, live or stale, may make; the invariants
 hold after every sequence of calls, and a token that has left its row never works again.
 */
module Fencing {
  import opened Base
  import opened Chunking
  import opened Rows

  /** The status edges the scheduler asks TransitionFile for. */
  predicate CallerEdge(tok: Option<nat>, from: FileStatus, to: FileStatus) {
    if tok.None? then true
    else
      || (from == Downloading && (to == Downloaded || to == Queued || to == FileError || to == Salvaging))
      || (from == Salvaging && (to == Queued || to == Downloaded))
      || (from == Verifying && to == Downloaded)
  }

  datatype Op =
    | Insert(id: int, size: nat)
    | Lease(id: int, now: int)
    | Transition(id: int, tok: Option<nat>, from: FileStatus, to: FileStatus, now: int)
    | Finish(id: int, tok: Option<nat>)
    | Save(id: int, tok: Option<nat>, blob: Option<seq<Byte>>)
    | BumpRetries(id: int, tok: Option<nat>)
    | ClaimVerify(now: int)
    | EndVerify(id: int, tok: Option<nat>, path: string)
    | RejectVerify(id: int, tok: Option<nat>)
    | ReuseBlob(id: int, path: string)
    | ClaimSalvage(now: int)
    | StartSalvage(id: int)
    | Rechunk(id: int, tok: Option<nat>, blocks: seq<Block>, firstId: int)
    | Claim(bid: int, now: int)
    | Requeue(bid: int, tok: Option<nat>, availableAt: int)
    | Complete(bid: int, tok: Option<nat>)
    | RenewFile(id: int, tok: Option<nat>, until: int, now: int)
    | RenewBlock(bid: int, tok: Option<nat>, until: int, now: int)
    | Sweep(now: int)

  function Apply(db: Db, op: Op): Db {
    match op
    case Insert(id, size) => InsertFile(db, id, size)
    case Lease(id, now) => LeaseFileForDownload(db, id, now).0
    case Transition(id, tok, from, to, now) => TransitionFile(db, id, tok, from, to, now).0
    case Finish(id, tok) => FinishDownloaded(db, id, tok).0
    case Save(id, tok, blob) => SaveProgress(db, id, tok, blob).0
    case BumpRetries(id, tok) => IncrFileRetries(db, id, tok).0
    case ClaimVerify(now) => LeaseVerify(db, now).0
    case EndVerify(id, tok, path) => CompleteVerify(db, id, tok, path).0
    case RejectVerify(id, tok) => FailVerify(db, id, tok).0
    case ReuseBlob(id, path) => MarkCachedFromBlob(db, id, path).0
    case ClaimSalvage(now) => LeaseSalvage(db, now).0
    case StartSalvage(id) => MarkSalvaging(db, id).0
    case Rechunk(id, tok, blocks, firstId) => ReplacePendingBlocks(db, id, tok, blocks, firstId).0
    case Claim(bid, now) => ClaimBlock(db, bid, now).0
    case Requeue(bid, tok, at) => RequeueBlock(db, bid, tok, at).0
    case Complete(bid, tok) => CompleteBlock(db, bid, tok).0
    case RenewFile(id, tok, until, now) => RenewFileLease(db, id, tok, until, now).0
    case RenewBlock(bid, tok, until, now) => RenewBlockLease(db, bid, tok, until, now).0
    case Sweep(now) => Recover(db, now)
  }

  /** Scheduler edges only, and the database numbers new rows above the existing ones. */
  predicate Legal(db: Db, op: Op) {
    && (op.Transition? ==> CallerEdge(op.tok, op.from, op.to))
    && (op.Rechunk? ==> forall b | b in db.blocks :: b < op.firstId)
  }

  // ---------------------------------------------------------------- invariants

  /** Downloading and verifying files are leased; salvaging ones may be; no other file is. */
  predicate FileOk(f: FileRow, nextToken: nat) {
    && (f.status == Downloading || f.status == Verifying ==> f.lease.Some?)
    && (f.lease.Some? ==> RenewableStatus(f.status) && f.lease.value.token < nextToken)
  }

  /** A block is leased exactly when it is active. */
  predicate BlockOk(b: BlockRow, files: set<int>, nextToken: nat) {
    && (b.status == Active <==> b.lease.Some?)
    && (b.lease.Some? ==> b.lease.value.token < nextToken)
    && b.fileId in files
  }

  predicate Inv(db: Db) {
    && (forall id | id in db.files :: FileOk(db.files[id], db.nextToken))
    && (forall b | b in db.blocks :: BlockOk(db.blocks[b], db.files.Keys, db.nextToken))
  }

  datatype RowRef = FileRef(id: int) | BlockRef(bid: int)

  predicate Holds(db: Db, r: RowRef, t: nat) {
    match r
    case FileRef(id) => id in db.files && HasToken(db.files[id].lease, Some(t))
    case BlockRef(bid) => bid in db.blocks && HasToken(db.blocks[bid].lease, Some(t))
  }

  /** No token is on two rows. */
  ghost predicate Exclusive(db: Db) {
    forall r1, r2, t | Holds(db, r1, t) && Holds(db, r2, t) :: r1 == r2
  }

  lemma {:induction false} InsertedBlocks(rows: map<int, BlockRow>, id: int, blocks: seq<Block>, firstId: int)
    ensures var r := InsertBlocks(rows, id, blocks, firstId);
            && (forall b | b in rows && (b < firstId || firstId + |blocks| <= b) :: b in r && r[b] == rows[b])
            && (forall b | firstId <= b < firstId + |blocks| :: b in r && r[b] == NewRow(id, blocks[b - firstId]))
            && (forall b | b in r :: b in rows || firstId <= b < firstId + |blocks|)
    decreases |blocks|
  {
    if blocks != [] {
      var rows1 := rows[firstId := NewRow(id, blocks[0])];
      var r := InsertBlocks(rows1, id, blocks[1..], firstId + 1);
      InsertedBlocks(rows1, id, blocks[1..], firstId + 1);
      assert firstId in rows1 && firstId in r;
      forall b | firstId <= b < firstId + |blocks| ensures b in r && r[b] == NewRow(id, blocks[b - firstId]) {
        if b > firstId { assert blocks[1..][b - (firstId + 1)] == blocks[b - firstId]; }
      }
      forall b | b in rows && (b < firstId || firstId + |blocks| <= b) ensures b in r && r[b] == rows[b] {
        assert b in rows1;
      }
    }
  }

  lemma InsertedAt(rows: map<int, BlockRow>, id: int, blocks: seq<Block>, firstId: int, i: nat)
    requires i < |blocks|
    ensures var r := InsertBlocks(rows, id, blocks, firstId);
            firstId + i in r && r[firstId + i] == NewRow(id, blocks[i])
  {
    InsertedBlocks(rows, id, blocks, firstId);
    var b := firstId + i;
    assert firstId <= b < firstId + |blocks| && blocks[b - firstId] == blocks[i];
  }

  // ---------------------------------------------------------------- every call keeps them

  lemma FileOpKeeps(db: Db, id: int, row: FileRow, next: nat)
    requires Inv(db) && db.nextToken <= next && FileOk(row, next)
    ensures Inv(SetFile(db, id, row).(nextToken := next))
  {
  }

  lemma BlockOpKeeps(db: Db, bid: int, row: BlockRow, next: nat)
    requires Inv(db) && db.nextToken <= next && BlockOk(row, db.files.Keys, next)
    ensures Inv(SetBlock(db, bid, row).(nextToken := next))
  {
  }

  /** Operations that only change block rows, each still well formed. */
  lemma BlocksKeep(db: Db, blocks: map<int, BlockRow>)
    requires Inv(db) && forall b | b in blocks :: BlockOk(blocks[b], db.files.Keys, db.nextToken)
    ensures Inv(db.(blocks := blocks))
  {
  }

  /** A re-chunk leaves the rows it keeps as they are and adds only new ones. */
  lemma RechunkedRow(db: Db, op: Op, b: int)
    requires Legal(db, op) && op.Rechunk? && b in Apply(db, op).blocks
    ensures b in db.blocks ==> Apply(db, op).blocks[b] == db.blocks[b]
    ensures b !in db.blocks ==>
              exists i | 0 <= i < |op.blocks| :: Apply(db, op).blocks[b] == NewRow(op.id, op.blocks[i])
  {
    var kept := WithoutPending(db, op.id);
    InsertedBlocks(kept, op.id, op.blocks, op.firstId);
    if b !in db.blocks {
      InsertedAt(kept, op.id, op.blocks, op.firstId, b - op.firstId);
    }
  }

  /** The calls about blocks. */
  predicate BlockCall(op: Op) { op.Rechunk? || op.Claim? || op.Requeue? || op.Complete? || op.RenewBlock? }

  lemma BlockCallFiles(db: Db, op: Op)
    requires BlockCall(op)
    ensures Apply(db, op).files == db.files
  {
  }

  /** Every call, by anyone and with any token, keeps the status machine and lease shape. */
  lemma InvKept(db: Db, op: Op)
    requires Inv(db) && Legal(db, op)
    ensures Inv(Apply(db, op))
  {
    if op.Sweep? {
      SweepKeeps(db, op.now);
    } else if op.Rechunk? {
      RechunkKeeps(db, op.id, op.tok, op.blocks, op.firstId);
    } else if BlockCall(op) {
      BlockCallKeeps(db, op, Apply(db, op));
    } else {
      FileCallKeeps(db, op);
    }
  }

  lemma FileCallKeeps(db: Db, op: Op)
    requires Inv(db) && Legal(db, op)
    requires !BlockCall(op) && !op.Sweep?
    ensures Inv(Apply(db, op))
  {
    match op
    case Insert(id, size) =>
      FileOpKeeps(db, id, FileRow(size, Queued, None, None, 0, 0, None), db.nextToken);
    case Lease(id, now) =>
      if id in db.files && db.files[id].status == Queued {
        var lease := Some(Rows.Lease(db.nextToken, now + LEASE_DURATION));
        FileOpKeeps(db, id, db.files[id].(status := Downloading, lease := lease), db.nextToken + 1);
      } else { NextTokenKeeps(db); }
    case Transition(id, tok, from, to, now) =>
      if TransitionFile(db, id, tok, from, to, now).1.Ok? {
        FileOpKeeps(db, id, db.files[id].(status := to, lease := None), db.nextToken);
      }
    case Finish(id, tok) => FinishKeeps(db, id, tok);
    case Save(id, tok, blob) =>
      if SaveProgress(db, id, tok, blob).1.Ok? {
        FileOpKeeps(db, id, db.files[id].(progress := blob), db.nextToken);
      }
    case BumpRetries(id, tok) =>
      if OwnsFile(db, id, Downloading, tok) {
        FileOpKeeps(db, id, db.files[id].(retries := db.files[id].retries + 1), db.nextToken);
      }
    case ClaimVerify(now) => ClaimVerifyKeeps(db, now);
    case EndVerify(id, tok, path) =>
      if OwnsFile(db, id, Verifying, tok) {
        FileOpKeeps(db, id, db.files[id].(status := Cached, cachePath := Some(path), lease := None), db.nextToken);
      }
    case RejectVerify(id, tok) => RejectVerifyKeeps(db, id, tok);
    case ReuseBlob(id, path) =>
      if id in db.files && db.files[id].status == Queued {
        FileOpKeeps(db, id, db.files[id].(status := Cached, cachePath := Some(path)), db.nextToken);
      }
    case ClaimSalvage(now) => ClaimSalvageKeeps(db, now);
    case StartSalvage(id) =>
      if MarkSalvaging(db, id).1.Ok? {
        FileOpKeeps(db, id, db.files[id].(status := Salvaging), db.nextToken);
      }
    case RenewFile(id, tok, until, now) =>
      if RenewFileLease(db, id, tok, until, now).1.Ok? {
        FileOpKeeps(db, id, db.files[id].(lease := Some(Rows.Lease(tok.value, until))), db.nextToken);
      }
  }

  lemma BlockCallKeeps(db: Db, op: Op, db': Db)
    requires Inv(db) && BlockCall(op) && !op.Rechunk? && db' == Apply(db, op)
    ensures Inv(db')
  {
    match op
    case Claim(bid, now) => ClaimBlockKeeps(db, bid, now);
    case Requeue(bid, tok, at) => RequeueKeeps(db, bid, tok, at);
    case Complete(bid, tok) => CompleteKeeps(db, bid, tok);
    case RenewBlock(bid, tok, until, now) => RenewBlockKeeps(db, bid, tok, until, now);
  }

  lemma ClaimBlockKeeps(db: Db, bid: int, now: int)
    requires Inv(db)
    ensures Inv(ClaimBlock(db, bid, now).0)
  {
    if Claimable(db, bid) {
      var lease := Some(Rows.Lease(db.nextToken, now + LEASE_DURATION));
      BlockOpKeeps(db, bid, db.blocks[bid].(status := Active, lease := lease), db.nextToken + 1);
    } else {
      NextTokenKeeps(db);
    }
  }

  lemma RequeueKeeps(db: Db, bid: int, tok: Option<nat>, at: int)
    requires Inv(db)
    ensures Inv(RequeueBlock(db, bid, tok, at).0)
  {
    if OwnsBlock(db, bid, tok) {
      var row := db.blocks[bid];
      BlockOpKeeps(db, bid, row.(status := Pending, availableAt := Some(at), retries := row.retries + 1, lease := None),
                   db.nextToken);
    }
  }

  lemma CompleteKeeps(db: Db, bid: int, tok: Option<nat>)
    requires Inv(db)
    ensures Inv(CompleteBlock(db, bid, tok).0)
  {
    if OwnsBlock(db, bid, tok) {
      BlockOpKeeps(db, bid, db.blocks[bid].(status := Done, lease := None), db.nextToken);
    }
  }

  lemma RenewBlockKeeps(db: Db, bid: int, tok: Option<nat>, until: int, now: int)
    requires Inv(db)
    ensures Inv(RenewBlockLease(db, bid, tok, until, now).0)
  {
    if RenewBlockLease(db, bid, tok, until, now).1.Ok? {
      BlockOpKeeps(db, bid, db.blocks[bid].(lease := Some(Rows.Lease(tok.value, until))), db.nextToken);
    }
  }

  lemma NextTokenKeeps(db: Db)
    requires Inv(db)
    ensures Inv(db.(nextToken := db.nextToken + 1))
  {
  }

  lemma ClaimVerifyKeeps(db: Db, now: int)
    requires Inv(db)
    ensures Inv(LeaseVerify(db, now).0)
  {
  }

  lemma ClaimSalvageKeeps(db: Db, now: int)
    requires Inv(db)
    ensures Inv(LeaseSalvage(db, now).0)
  {
  }

  lemma FinishKeeps(db: Db, id: int, tok: Option<nat>)
    requires Inv(db)
    ensures Inv(FinishDownloaded(db, id, tok).0)
  {
  }

  lemma RejectVerifyKeeps(db: Db, id: int, tok: Option<nat>)
    requires Inv(db)
    ensures Inv(FailVerify(db, id, tok).0)
  {
  }

  lemma RechunkKeeps(db: Db, id: int, tok: Option<nat>, blocks: seq<Block>, firstId: int)
    requires Inv(db) && forall b | b in db.blocks :: b < firstId
    ensures Inv(ReplacePendingBlocks(db, id, tok, blocks, firstId).0)
  {
    var kept := WithoutPending(db, id);
    if ReplacePendingBlocks(db, id, tok, blocks, firstId).1.Ok? {
      InsertedBlocks(kept, id, blocks, firstId);
      BlocksKeep(db, InsertBlocks(kept, id, blocks, firstId));
    }
  }

  lemma SweepKeeps(db: Db, now: int)
    requires Inv(db)
    ensures Inv(Recover(db, now))
  {
  }

  lemma RecoverUnfold(db: Db, now: int)
    ensures Recover(db, now)
         == ApplySweep(ApplySweep(ApplySweep(ApplySweep(db, BlockSweep, now),
              FileSweep(Downloading, Queued), now), FileSweep(Verifying, Downloaded), now),
                FileSweep(Salvaging, Queued), now)
  {
  }

  // ---------------------------------------------------------------- tokens

  /** The row a call leases, if it leases one. */
  function Granted(db: Db, op: Op): Option<RowRef> {
    match op
    case Lease(id, now) => if LeaseFileForDownload(db, id, now).1.Ok? then Some(FileRef(id)) else None
    case ClaimVerify(now) =>
      var r := LeaseVerify(db, now).1;
      if r.Ok? then Some(FileRef(r.value.0)) else None
    case ClaimSalvage(now) =>
      var r := LeaseSalvage(db, now).1;
      if r.Ok? then Some(FileRef(r.value.0)) else None
    case Claim(bid, now) => if Claimable(db, bid) then Some(BlockRef(bid)) else None
    case _ => None
  }

  /** A lease is never handed over: after a call a row holds only what it held or a fresh token. */
  lemma TokenMoves(db: Db, op: Op, r: RowRef, t: nat)
    requires Legal(db, op) && Holds(Apply(db, op), r, t)
    ensures Holds(db, r, t) || (t == db.nextToken && Granted(db, op) == Some(r))
  {
    if op.Sweep? {
      SweepTokens(db, op.now, r, t);
    } else if op.Rechunk? {
      RechunkTokens(db, op, r, t);
    }
  }

  lemma SweepTokens(db: Db, now: int, r: RowRef, t: nat)
    requires Holds(Recover(db, now), r, t)
    ensures Holds(db, r, t)
  {
  }

  lemma RechunkTokens(db: Db, op: Op, r: RowRef, t: nat)
    requires op.Rechunk? && Legal(db, op) && Holds(Apply(db, op), r, t)
    ensures Holds(db, r, t)
  {
    InsertedBlocks(WithoutPending(db, op.id), op.id, op.blocks, op.firstId);
  }

  /** A row that keeps its lease keeps its status. */
  lemma StatusWithToken(db: Db, op: Op, g: int, tok: nat)
    requires g in db.files && FileOk(db.files[g], db.nextToken) && HasToken(db.files[g].lease, Some(tok))
    ensures Holds(Apply(db, op), FileRef(g), tok) ==> Apply(db, op).files[g].status == db.files[g].status
  {
    if op.Sweep? {
      RecoverUnfold(db, op.now);
    } else if BlockCall(op) {
      BlockCallFiles(db, op);
    } else {
      FileCallStatus(db, op, Apply(db, op), g, tok);
    }
  }

  lemma FileCallStatus(db: Db, op: Op, db': Db, g: int, tok: nat)
    requires !BlockCall(op) && !op.Sweep? && db' == Apply(db, op)
    requires g in db.files && FileOk(db.files[g], db.nextToken) && HasToken(db.files[g].lease, Some(tok))
    ensures Holds(db', FileRef(g), tok) ==> db'.files[g].status == db.files[g].status
  {
  }

  lemma NextTokenGrows(db: Db, op: Op)
    ensures db.nextToken <= Apply(db, op).nextToken
    ensures Granted(db, op).Some? ==> db.nextToken < Apply(db, op).nextToken
  {
    if op.Sweep? { RecoverUnfold(db, op.now); }
  }

  predicate Presents(op: Op, t: nat) {
    match op
    case Transition(_, tok, _, _, _) => tok == Some(t)
    case Finish(_, tok) => tok == Some(t)
    case Save(_, tok, _) => tok == Some(t)
    case BumpRetries(_, tok) => tok == Some(t)
    case EndVerify(_, tok, _) => tok == Some(t)
    case RejectVerify(_, tok) => tok == Some(t)
    case Rechunk(_, tok, _, _) => tok == Some(t)
    case Requeue(_, tok, _) => tok == Some(t)
    case Complete(_, tok) => tok == Some(t)
    case RenewFile(_, tok, _, _) => tok == Some(t)
    case RenewBlock(_, tok, _, _) => tok == Some(t)
    case _ => false
  }

  /** Issued once, on no row any more. */
  ghost predicate Dead(db: Db, t: nat) {
    t < db.nextToken && forall r: RowRef :: !Holds(db, r, t)
  }

  lemma DeadCallDoesNothing(db: Db, op: Op, t: nat)
    requires Dead(db, t) && Presents(op, t)
    ensures Apply(db, op) == db
  {
    if op.Requeue? || op.Complete? || op.RenewBlock? {
      assert !Holds(db, BlockRef(op.bid), t);
    } else {
      assert !Holds(db, FileRef(op.id), t);
    }
  }

  lemma DeadStaysDead(db: Db, op: Op, t: nat)
    requires Dead(db, t) && Legal(db, op)
    ensures Dead(Apply(db, op), t)
  {
    NextTokenGrows(db, op);
    forall r: RowRef ensures !Holds(Apply(db, op), r, t) {
      if Holds(Apply(db, op), r, t) { TokenMoves(db, op, r, t); }
    }
  }

  // ---------------------------------------------------------------- whole runs

  function Run(db: Db, ops: seq<Op>): Db
    decreases |ops|
  {
    if ops == [] then db else Run(Apply(db, ops[0]), ops[1..])
  }

  predicate LegalRun(db: Db, ops: seq<Op>)
    decreases |ops|
  {
    ops == [] || (Legal(db, ops[0]) && LegalRun(Apply(db, ops[0]), ops[1..]))
  }

  const EMPTY: Db := Db(map[], map[], 0)

  lemma ExclusiveKept(db: Db, op: Op)
    requires Inv(db) && Exclusive(db) && Legal(db, op)
    ensures Exclusive(Apply(db, op))
  {
    var db' := Apply(db, op);
    forall r1, r2, t | Holds(db', r1, t) && Holds(db', r2, t) ensures r1 == r2 {
      TokenMoves(db, op, r1, t);
      TokenMoves(db, op, r2, t);
      HeldTokensAreOld(db, r1, t);
      HeldTokensAreOld(db, r2, t);
    }
  }

  lemma HeldTokensAreOld(db: Db, r: RowRef, t: nat)
    requires Inv(db)
    ensures Holds(db, r, t) ==> t < db.nextToken
  {
  }

  lemma {:induction false} RunKeeps(db: Db, ops: seq<Op>)
    requires Inv(db) && Exclusive(db) && LegalRun(db, ops)
    ensures Inv(Run(db, ops)) && Exclusive(Run(db, ops))
    decreases |ops|
  {
    if ops != [] {
      InvKept(db, ops[0]);
      ExclusiveKept(db, ops[0]);
      RunKeeps(Apply(db, ops[0]), ops[1..]);
    }
  }

  /**
   In every reachable state: downloading and verifying files are leased; queued, downloaded,
   cached, discovered and error files are not; a block is leased exactly when active; and no
   token is on two rows.
   */
  lemma ReachableStates(ops: seq<Op>)
    requires LegalRun(EMPTY, ops)
    ensures var db := Run(EMPTY, ops);
            && Exclusive(db)
            && (forall id | id in db.files ::
                  && (db.files[id].status in {Downloading, Verifying} ==> db.files[id].lease.Some?)
                  && (db.files[id].status in {Discovered, Queued, Downloaded, Cached, FileError} ==>
                    db.files[id].lease.None?))
            && (forall b | b in db.blocks ::
                  && db.blocks[b].fileId in db.files
                  && (db.blocks[b].status == Active <==> db.blocks[b].lease.Some?))
  {
    RunKeeps(EMPTY, ops);
    var db := Run(EMPTY, ops);
    assert forall id | id in db.files :: FileOk(db.files[id], db.nextToken);
    assert forall b | b in db.blocks :: BlockOk(db.blocks[b], db.files.Keys, db.nextToken);
  }

  /** Clearing or replacing a row's token retires it for good. */
  lemma LosingTheRowKillsTheToken(db: Db, op: Op, r: RowRef, t: nat)
    requires Inv(db) && Exclusive(db) && Legal(db, op)
    requires Holds(db, r, t) && !Holds(Apply(db, op), r, t)
    ensures Dead(Apply(db, op), t)
  {
    HeldTokensAreOld(db, r, t);
    NextTokenGrows(db, op);
    forall r': RowRef ensures !Holds(Apply(db, op), r', t) {
      if Holds(Apply(db, op), r', t) { TokenMoves(db, op, r', t); }
    }
  }

  lemma {:induction false} DeadForever(db: Db, ops: seq<Op>, t: nat)
    requires Dead(db, t) && LegalRun(db, ops)
    ensures Dead(Run(db, ops), t)
    decreases |ops|
  {
    if ops != [] {
      DeadStaysDead(db, ops[0], t);
      DeadForever(Apply(db, ops[0]), ops[1..], t);
    }
  }

  /**
   Fencing over whole runs. Once a call `lost` has taken token t off its row, then after any
   further calls, by anyone, a call presenting t changes no row of any table.
   */
  lemma FencedForever(db: Db, lost: Op, r: RowRef, t: nat, later: seq<Op>, stale: Op)
    requires Inv(db) && Exclusive(db) && Legal(db, lost)
    requires Holds(db, r, t) && !Holds(Apply(db, lost), r, t)
    requires LegalRun(Apply(db, lost), later) && Presents(stale, t)
    ensures var db' := Run(Apply(db, lost), later);
            Apply(db', stale) == db'
  {
    LosingTheRowKillsTheToken(db, lost, r, t);
    DeadForever(Apply(db, lost), later, t);
    DeadCallDoesNothing(Run(Apply(db, lost), later), stale, t);
  }

  // ---------------------------------------------------------------- the status machine

  /** The edges a file row can take in one call, staying put included. */
  predicate Edge(from: FileStatus, to: FileStatus) {
    || from == to
    || (from == Discovered && to == Salvaging)
    || (from == Queued && to in {Salvaging, Downloading, Cached, Downloaded})
    || (from == Downloading && to in {Downloaded, Queued, FileError, Salvaging})
    || (from == Salvaging && to in {Queued, Downloaded})
    || (from == Downloaded && to == Verifying)
    || (from == Verifying && to in {Cached, Queued, FileError, Downloaded})
    || (from == Cached && to == Queued)
  }

  lemma OnlyMachineEdges(db: Db, op: Op, id: int)
    requires Legal(db, op) && id in db.files
    ensures id in Apply(db, op).files
    ensures Edge(db.files[id].status, Apply(db, op).files[id].status)
    ensures Apply(db, op).files[id].size == db.files[id].size
  {
    if op.Sweep? {
      SweepEdges(db, op.now, id);
    } else {
      CallEdges(db, op, id);
    }
  }

  lemma SweepEdges(db: Db, now: int, id: int)
    requires id in db.files
    ensures id in Recover(db, now).files
    ensures Edge(db.files[id].status, Recover(db, now).files[id].status)
    ensures Recover(db, now).files[id].size == db.files[id].size
  {
  }

  lemma CallEdges(db: Db, op: Op, id: int)
    requires Legal(db, op) && id in db.files && !op.Sweep?
    ensures id in Apply(db, op).files
    ensures Edge(db.files[id].status, Apply(db, op).files[id].status)
    ensures Apply(db, op).files[id].size == db.files[id].size
  {
  }

  /** A file in error never leaves it, whatever is called. */
  lemma {:induction false} ErrorIsTerminal(db: Db, ops: seq<Op>, id: int)
    requires LegalRun(db, ops) && id in db.files && db.files[id].status == FileError
    ensures id in Run(db, ops).files && Run(db, ops).files[id].status == FileError
    decreases |ops|
  {
    if ops != [] {
      OnlyMachineEdges(db, ops[0], id);
      ErrorIsTerminal(Apply(db, ops[0]), ops[1..], id);
    }
  }
}
