/**
 The store as an object: methods that update the files and blocks tables in place, each proved
 against the row-level function of the same statement. LeaseBlocks is the one batch operation;
 its caps and greed are specified by `Pick`.
 */
module Store {
  import opened Base
  import opened Chunking
  import opened Rows

  // ---------------------------------------------------------------- batch claims

  datatype Cand = Cand(id: int, fileId: int, idx: int)

  /** ORDER BY file_id, idx (idx is unique within a file; the id settles nothing else). */
  predicate Before(a: Cand, b: Cand) {
    || a.fileId < b.fileId
    || (a.fileId == b.fileId && (a.idx < b.idx || (a.idx == b.idx && a.id < b.id)))
  }

  /** The pending, available blocks of downloading files, restricted to fileIds unless empty. */
  function Eligible(db: Db, fileIds: set<int>, now: int): set<Cand> {
    set b | b in db.blocks && Claimable(db, b) && Available(db.blocks[b], now)
            && (fileIds == {} || db.blocks[b].fileId in fileIds)
          :: Cand(b, db.blocks[b].fileId, db.blocks[b].idx)
  }

  /** The answer to the candidate query: every eligible block once, in order. */
  ghost predicate Selection(cands: seq<Cand>, db: Db, fileIds: set<int>, now: int) {
    && (forall i, j | 0 <= i < j < |cands| :: Before(cands[i], cands[j]))
    && (forall c :: c in cands <==> c in Eligible(db, fileIds, now))
  }

  /** Whether a file has used up its share of this call. */
  predicate Full(caps: map<int, int>, used: map<int, nat>, f: int) {
    f in caps && caps[f] > 0 && Used(used, f) >= caps[f]
  }

  function Used(used: map<int, nat>, f: int): nat { if f in used then used[f] else 0 }

  function Bump(used: map<int, nat>, f: int): map<int, nat> { used[f := Used(used, f) + 1] }

  /** Walk the candidates in order, taking each unless its file is full, until n are taken. */
  function Pick(cands: seq<Cand>, n: int, caps: map<int, int>, used: map<int, nat>): seq<Cand> {
    if cands == [] || n <= 0 then []
    else if Full(caps, used, cands[0].fileId) then Pick(cands[1..], n, caps, used)
    else [cands[0]] + Pick(cands[1..], n - 1, caps, Bump(used, cands[0].fileId))
  }

  /** How often a file occurs among picked blocks. */
  function Share(picked: seq<Cand>, f: int): nat {
    if picked == [] then 0 else (if picked[0].fileId == f then 1 else 0) + Share(picked[1..], f)
  }

  /** At most n are picked, all of them candidates, and no capped file exceeds its cap. */
  lemma {:induction false} PickBounded(cands: seq<Cand>, n: int, caps: map<int, int>, used: map<int, nat>, f: int)
    requires f in caps && caps[f] > 0 ==> Used(used, f) <= caps[f]
    ensures var p := Pick(cands, n, caps, used);
            && |p| <= Max(n, 0) && (forall c | c in p :: c in cands)
            && (f in caps && caps[f] > 0 ==> Used(used, f) + Share(p, f) <= caps[f])
    decreases |cands|
  {
    if cands == [] || n <= 0 {
    } else if Full(caps, used, cands[0].fileId) {
      PickBounded(cands[1..], n, caps, used, f);
    } else {
      var used' := Bump(used, cands[0].fileId);
      PickBounded(cands[1..], n - 1, caps, used', f);
      assert ([cands[0]] + Pick(cands[1..], n - 1, caps, used'))[1..] == Pick(cands[1..], n - 1, caps, used');
    }
  }

  /** Greedy: a candidate is passed over only when its file is full or n are taken already. */
  lemma {:induction false} PickMaximal(cands: seq<Cand>, n: int, caps: map<int, int>, used: map<int, nat>, c: Cand)
    requires c in cands && c !in Pick(cands, n, caps, used) && |Pick(cands, n, caps, used)| < n
    ensures c.fileId in caps && 0 < caps[c.fileId]
    ensures caps[c.fileId] <= Used(used, c.fileId) + Share(Pick(cands, n, caps, used), c.fileId)
    decreases |cands|
  {
    if Full(caps, used, cands[0].fileId) {
      if c != cands[0] { PickMaximal(cands[1..], n, caps, used, c); }
    } else {
      var used' := Bump(used, cands[0].fileId);
      assert ([cands[0]] + Pick(cands[1..], n - 1, caps, used'))[1..] == Pick(cands[1..], n - 1, caps, used');
      PickMaximal(cands[1..], n - 1, caps, used', c);
    }
  }

  /** Oldest file first, and within a file from its start. */
  predicate OldestFirst(cands: seq<Cand>) {
    forall i, j | 0 <= i < j < |cands| ::
      cands[i].fileId < cands[j].fileId || (cands[i].fileId == cands[j].fileId && cands[i].idx <= cands[j].idx)
  }

  lemma {:induction false} PickOldestFirst(cands: seq<Cand>, n: int, caps: map<int, int>, used: map<int, nat>)
    requires OldestFirst(cands)
    ensures OldestFirst(Pick(cands, n, caps, used)) && forall c | c in Pick(cands, n, caps, used) :: c in cands
    decreases |cands|
  {
    if cands == [] || n <= 0 {
    } else if Full(caps, used, cands[0].fileId) {
      PickOldestFirst(cands[1..], n, caps, used);
    } else {
      var rest := Pick(cands[1..], n - 1, caps, Bump(used, cands[0].fileId));
      PickOldestFirst(cands[1..], n - 1, caps, Bump(used, cands[0].fileId));
      forall j | 0 <= j < |rest|
        ensures cands[0].fileId < rest[j].fileId || (cands[0].fileId == rest[j].fileId && cands[0].idx <= rest[j].idx)
      {
        assert rest[j] in cands[1..];
        var k :| 0 <= k < |cands[1..]| && cands[1..][k] == rest[j];
        assert cands[k + 1] == rest[j];
      }
    }
  }

  function ClaimAll(db: Db, picked: seq<Cand>, now: int): Db
    decreases |picked|
  {
    if picked == [] then db else ClaimAll(ClaimBlock(db, picked[0].id, now).0, picked[1..], now)
  }

  predicate Distinct(cands: seq<Cand>) {
    forall i, j | 0 <= i < j < |cands| :: cands[i].id != cands[j].id
  }

  predicate AllClaimable(db: Db, cands: seq<Cand>) {
    forall i | 0 <= i < |cands| :: Claimable(db, cands[i].id)
  }

  /** Mid-batch: what is left to do, done, ends where the whole batch should. */
  ghost predicate Claiming(db0: Db, cands: seq<Cand>, n: int, caps: map<int, int>, now: int,
                           db: Db, todo: seq<Cand>, room: int, used: map<int, nat>, picked: seq<Cand>)
  {
    && Distinct(todo) && AllClaimable(db, todo)
    && picked + Pick(todo, room, caps, used) == Pick(cands, n, caps, map[])
    && ClaimAll(db, Pick(todo, room, caps, used), now) == ClaimAll(db0, Pick(cands, n, caps, map[]), now)
    && db.nextToken == db0.nextToken + |picked|
  }

  lemma SkipStep(db0: Db, cands: seq<Cand>, n: int, caps: map<int, int>, now: int,
                 db: Db, todo: seq<Cand>, room: int, used: map<int, nat>, picked: seq<Cand>)
    requires Claiming(db0, cands, n, caps, now, db, todo, room, used, picked)
    requires todo != [] && room > 0 && Full(caps, used, todo[0].fileId)
    ensures Claiming(db0, cands, n, caps, now, db, todo[1..], room, used, picked)
  {
  }

  /** A claim in turn succeeds with the next token and leaves the other candidates claimable. */
  lemma ClaimStep(db0: Db, cands: seq<Cand>, n: int, caps: map<int, int>, now: int,
                  db: Db, todo: seq<Cand>, room: int, used: map<int, nat>, picked: seq<Cand>)
    requires Claiming(db0, cands, n, caps, now, db, todo, room, used, picked)
    requires todo != [] && room > 0 && !Full(caps, used, todo[0].fileId)
    ensures ClaimBlock(db, todo[0].id, now).1 == Ok(db0.nextToken + |picked|)
    ensures Claiming(db0, cands, n, caps, now, ClaimBlock(db, todo[0].id, now).0, todo[1..], room - 1,
                     Bump(used, todo[0].fileId), picked + [todo[0]])
  {
    assert Claimable(db, todo[0].id);
    var rest := Pick(todo[1..], room - 1, caps, Bump(used, todo[0].fileId));
    assert Pick(todo, room, caps, used)[1..] == rest;
    assert picked + ([todo[0]] + rest) == (picked + [todo[0]]) + rest;
  }

  lemma SelectionClaimable(cands: seq<Cand>, db: Db, fileIds: set<int>, now: int)
    requires Selection(cands, db, fileIds, now)
    ensures Distinct(cands) && AllClaimable(db, cands)
  {
    forall i | 0 <= i < |cands| ensures Claimable(db, cands[i].id) {
      assert cands[i] in Eligible(db, fileIds, now);
    }
    forall i, j | 0 <= i < j < |cands| ensures cands[i].id != cands[j].id {
      assert cands[i] in Eligible(db, fileIds, now) && cands[j] in Eligible(db, fileIds, now);
      assert Before(cands[i], cands[j]);
    }
  }

  datatype LeasedBlock = LeasedBlock(id: int, token: nat)

  /** The leased blocks are the picked ones, in order, with consecutive fresh tokens. */
  predicate Matches(leased: seq<LeasedBlock>, picked: seq<Cand>, firstToken: nat) {
    |leased| == |picked|
    && forall i | 0 <= i < |leased| :: leased[i] == LeasedBlock(picked[i].id, firstToken + i)
  }

  /** The whole invariant of the claim loop. */
  ghost predicate Batch(db0: Db, cands: seq<Cand>, n: int, caps: map<int, int>, now: int,
                        db: Db, todo: seq<Cand>, leased: seq<LeasedBlock>, used: map<int, nat>, picked: seq<Cand>)
  {
    Matches(leased, picked, db0.nextToken) && Claiming(db0, cands, n, caps, now, db, todo, n - |leased|, used, picked)
  }

  lemma BatchClaim(db0: Db, cands: seq<Cand>, n: int, caps: map<int, int>, now: int,
                   db: Db, todo: seq<Cand>, leased: seq<LeasedBlock>, used: map<int, nat>, picked: seq<Cand>)
    requires Batch(db0, cands, n, caps, now, db, todo, leased, used, picked)
    requires todo != [] && |leased| < n && !Full(caps, used, todo[0].fileId)
    ensures ClaimBlock(db, todo[0].id, now).1 == Ok(db.nextToken)
    ensures Batch(db0, cands, n, caps, now, ClaimBlock(db, todo[0].id, now).0, todo[1..],
                  leased + [LeasedBlock(todo[0].id, db.nextToken)], Bump(used, todo[0].fileId), picked + [todo[0]])
  {
    ClaimStep(db0, cands, n, caps, now, db, todo, n - |leased|, used, picked);
  }

  lemma BatchDone(db0: Db, cands: seq<Cand>, n: int, caps: map<int, int>, now: int,
                  db: Db, todo: seq<Cand>, leased: seq<LeasedBlock>, used: map<int, nat>, picked: seq<Cand>)
    requires Batch(db0, cands, n, caps, now, db, todo, leased, used, picked) && (todo == [] || |leased| >= n)
    ensures db == ClaimAll(db0, Pick(cands, n, caps, map[]), now)
    ensures Matches(leased, Pick(cands, n, caps, map[]), db0.nextToken)
  {
    assert picked + [] == picked;
  }

  class Store {
    var files: map<int, FileRow>
    var blocks: map<int, BlockRow>
    var nextToken: nat

    constructor ()
      ensures Tables() == Db(map[], map[], 0)
    {
      files, blocks, nextToken := map[], map[], 0;
    }

    function Tables(): Db reads this { Db(files, blocks, nextToken) }

    method NewToken() returns (tok: nat)
      modifies this`nextToken
      ensures tok == old(nextToken) && nextToken == tok + 1
    {
      tok := nextToken;
      nextToken := nextToken + 1;
    }

    method LeaseFileForDownload(id: int, now: int) returns (r: Result<nat, StoreError>)
      modifies this
      ensures (Tables(), r) == Rows.LeaseFileForDownload(old(Tables()), id, now)
    {
      var tok := NewToken();
      if id !in files || files[id].status != Queued {
        return Err(Fenced);
      }
      files := files[id := files[id].(status := Downloading, lease := Some(Lease(tok, now + LEASE_DURATION)))];
      return Ok(tok);
    }

    method TransitionFile(id: int, tok: Option<nat>, from: FileStatus, to: FileStatus, now: int)
      returns (r: Result<(), StoreError>)
      modifies this
      ensures (Tables(), r) == Rows.TransitionFile(old(Tables()), id, tok, from, to, now)
    {
      if tok.None? && !TokenlessEdgeAllowed(from, to) {
        return Err(TokenlessEdge);
      }
      var owned := id in files && files[id].status == from
                   && (if tok.Some? then HasToken(files[id].lease, tok) else files[id].lease.None?);
      if !owned {
        return Err(Fenced);
      }
      if from == Downloading && to == Downloaded {
        if HasLiveBlock(Tables(), id, now) { return Err(LiveBlockLeases); }
        if HasUnfinishedBlock(Tables(), id) { return Err(BlocksPending); }
      }
      files := files[id := files[id].(status := to, lease := None)];
      return Ok(());
    }

    method FinishDownloaded(id: int, tok: Option<nat>) returns (r: Result<(), StoreError>)
      modifies this
      ensures (Tables(), r) == Rows.FinishDownloaded(old(Tables()), id, tok)
    {
      if !OwnsFile(Tables(), id, Downloading, tok) {
        return Err(Fenced);
      }
      blocks := map b | b in blocks && (blocks[b].fileId != id || blocks[b].status == Done) :: blocks[b];
      files := files[id := files[id].(status := Downloaded, lease := None)];
      return Ok(());
    }

    method SaveProgress(id: int, tok: Option<nat>, blob: Option<seq<Byte>>) returns (r: Result<(), StoreError>)
      modifies this
      ensures (Tables(), r) == Rows.SaveProgress(old(Tables()), id, tok, blob)
    {
      if !(OwnsFile(Tables(), id, Downloading, tok) || OwnsFile(Tables(), id, Salvaging, tok)) {
        return Err(Fenced);
      }
      files := files[id := files[id].(progress := blob)];
      return Ok(());
    }

    method IncrFileRetries(id: int, tok: Option<nat>) returns (r: Result<nat, StoreError>)
      modifies this
      ensures (Tables(), r) == Rows.IncrFileRetries(old(Tables()), id, tok)
    {
      if !OwnsFile(Tables(), id, Downloading, tok) {
        return Err(Fenced);
      }
      var n := files[id].retries + 1;
      files := files[id := files[id].(retries := n)];
      return Ok(n);
    }

    method LeaseVerify(now: int) returns (r: Result<(int, nat), StoreError>)
      modifies this
      ensures (Tables(), r) == Rows.LeaseVerify(old(Tables()), now)
    {
      var ids := WithStatus(Tables(), Downloaded);
      var tok := NewToken();
      if !(exists x :: x in ids) {
        return Err(NoWork);
      }
      var id := Oldest(ids);
      files := files[id := files[id].(status := Verifying, lease := Some(Lease(tok, now + LEASE_DURATION)))];
      return Ok((id, tok));
    }

    method CompleteVerify(id: int, tok: Option<nat>, path: string) returns (r: Result<(), StoreError>)
      modifies this
      ensures (Tables(), r) == Rows.CompleteVerify(old(Tables()), id, tok, path)
    {
      if !OwnsFile(Tables(), id, Verifying, tok) {
        return Err(Fenced);
      }
      files := files[id := files[id].(status := Cached, cachePath := Some(path), lease := None)];
      return Ok(());
    }

    /** Count the failure first; then either give up or reset blocks and resume record. */
    method FailVerify(id: int, tok: Option<nat>) returns (r: Result<(), StoreError>)
      modifies this
      ensures (Tables(), r) == Rows.FailVerify(old(Tables()), id, tok)
    {
      if !OwnsFile(Tables(), id, Verifying, tok) {
        return Err(Fenced);
      }
      files := files[id := files[id].(verifyFails := files[id].verifyFails + 1)];
      if files[id].verifyFails >= MAX_VERIFY_FAILS {
        files := files[id := files[id].(status := FileError, lease := None)];
        assert files == old(files)[id := files[id]];
        return Ok(());
      }
      blocks := map b | b in blocks :: if blocks[b].fileId == id then ResetBlock(blocks[b]) else blocks[b];
      files := files[id := files[id].(status := Queued, progress := None, lease := None)];
      assert files == old(files)[id := files[id]];
      return Ok(());
    }

    method LeaseSalvage(now: int) returns (r: Result<(int, nat), StoreError>)
      modifies this
      ensures (Tables(), r) == Rows.LeaseSalvage(old(Tables()), now)
    {
      var ids := SalvageCandidates(Tables(), now);
      var tok := NewToken();
      if !(exists x :: x in ids) {
        return Err(NoWork);
      }
      var id := Oldest(ids);
      files := files[id := files[id].(lease := Some(Lease(tok, now + LEASE_DURATION)))];
      return Ok((id, tok));
    }

    method MarkSalvaging(id: int) returns (r: Result<(), StoreError>)
      modifies this
      ensures (Tables(), r) == Rows.MarkSalvaging(old(Tables()), id)
    {
      if id !in files || (files[id].status != Discovered && files[id].status != Queued) {
        return Err(Fenced);
      }
      files := files[id := files[id].(status := Salvaging)];
      return Ok(());
    }

    method MarkCachedFromBlob(id: int, path: string) returns (r: Result<(), StoreError>)
      modifies this
      ensures (Tables(), r) == Rows.MarkCachedFromBlob(old(Tables()), id, path)
    {
      if id !in files || files[id].status != Queued {
        return Err(Fenced);
      }
      files := files[id := files[id].(status := Cached, cachePath := Some(path))];
      return Ok(());
    }

    /** Delete the pending rows, then insert the new ones; a duplicate index rolls all back. */
    method ReplacePendingBlocks(id: int, tok: Option<nat>, chunks: seq<Block>, firstId: int)
      returns (r: Result<(), StoreError>)
      modifies this
      ensures (Tables(), r) == Rows.ReplacePendingBlocks(old(Tables()), id, tok, chunks, firstId)
    {
      if !OwnsFile(Tables(), id, Downloading, tok) {
        return Err(Fenced);
      }
      var rows := WithoutPending(Tables(), id);
      if !IdxFree(rows, id, chunks) {
        return Err(UniqueViolation);
      }
      var i := 0;
      while i < |chunks|
        invariant 0 <= i <= |chunks|
        invariant InsertBlocks(rows, id, chunks[i..], firstId + i)
               == InsertBlocks(WithoutPending(old(Tables()), id), id, chunks, firstId)
        invariant Tables() == old(Tables())
      {
        assert chunks[i..][1..] == chunks[i + 1..];
        rows := rows[firstId + i := NewRow(id, chunks[i])];
        i := i + 1;
      }
      blocks := rows;
      return Ok(());
    }

    /** The candidate query. */
    method SelectCandidates(fileIds: set<int>, now: int) returns (cands: seq<Cand>)
      ensures Selection(cands, Tables(), fileIds, now)
    {
      var rest := Eligible(Tables(), fileIds, now);
      cands := [];
      while |rest| > 0
        invariant forall i, d | 0 <= i < |cands| && d in rest :: Before(cands[i], d)
        invariant forall i, j | 0 <= i < j < |cands| :: Before(cands[i], cands[j])
        invariant forall c :: c in Eligible(Tables(), fileIds, now) <==> c in cands || c in rest
        decreases |rest|
      {
        var least := First(rest);
        assert forall i | 0 <= i < |cands| :: Before(cands[i], least);
        rest := rest - {least};
        cands := cands + [least];
      }
    }

    /** The row that sorts first. */
    static method First(s: set<Cand>) returns (least: Cand)
      requires |s| > 0
      ensures least in s && forall d | d in s && d != least :: Before(least, d)
    {
      var rest := s;
      least :| least in rest;
      rest := rest - {least};
      while |rest| > 0
        invariant rest <= s && least in s
        invariant forall d | d in s && d !in rest && d != least :: Before(least, d)
        decreases |rest|
      {
        var d :| d in rest;
        rest := rest - {d};
        if Before(d, least) { least := d; }
      }
    }

    /** The guarded UPDATE that turns one pending block active. */
    method ClaimPending(bid: int, now: int) returns (r: Result<nat, StoreError>)
      modifies this
      ensures (Tables(), r) == ClaimBlock(old(Tables()), bid, now)
    {
      var claimable := Claimable(Tables(), bid);
      var tok := NewToken();
      if !claimable {
        return Err(Fenced);
      }
      blocks := blocks[bid := blocks[bid].(status := Active, lease := Some(Lease(tok, now + LEASE_DURATION)))];
      return Ok(tok);
    }

    /**
     Claim up to n pending blocks: candidates in file and index order, one guarded update each
     with a token of its own, skipping files that reached their cap.
     */
    method LeaseBlocks(n: int, fileIds: set<int>, caps: map<int, int>, now: int)
      returns (leased: seq<LeasedBlock>, ghost cands: seq<Cand>)
      modifies this
      ensures Selection(cands, old(Tables()), fileIds, now)
      ensures Tables() == ClaimAll(old(Tables()), Pick(cands, n, caps, map[]), now)
      ensures Matches(leased, Pick(cands, n, caps, map[]), old(nextToken)) && OldestFirst(Pick(cands, n, caps, map[]))
    {
      var todo := SelectCandidates(fileIds, now);
      cands := todo;
      SelectionClaimable(cands, Tables(), fileIds, now);
      PickOldestFirst(cands, n, caps, map[]);
      leased := ClaimBatch(n, todo, caps, now);
    }

    /** The claim loop over the candidates read before it. */
    method ClaimBatch(n: int, cands: seq<Cand>, caps: map<int, int>, now: int) returns (leased: seq<LeasedBlock>)
      requires Distinct(cands) && AllClaimable(Tables(), cands)
      modifies this
      ensures Tables() == ClaimAll(old(Tables()), Pick(cands, n, caps, map[]), now)
      ensures Matches(leased, Pick(cands, n, caps, map[]), old(nextToken))
    {
      leased := [];
      var todo := cands;
      var perFile: map<int, nat> := map[];
      ghost var picked: seq<Cand> := [];
      ghost var db0, db := Tables(), Tables();
      assert [] + Pick(cands, n, caps, map[]) == Pick(cands, n, caps, map[]);
      while |todo| > 0 && |leased| < n
        invariant Tables() == db && Batch(db0, cands, n, caps, now, db, todo, leased, perFile, picked)
        decreases |todo|
      {
        var c := todo[0];
        if Full(caps, perFile, c.fileId) {
          SkipStep(db0, cands, n, caps, now, db, todo, n - |leased|, perFile, picked);
        } else {
          leased, perFile := ClaimNext(todo, leased, perFile, now, db0, cands, n, caps, picked);
          db, picked := Tables(), picked + [c];
        }
        todo := todo[1..];
      }
      BatchDone(db0, cands, n, caps, now, db, todo, leased, perFile, picked);
    }

    /** One guarded claim of the batch; a row that someone else took is passed over. */
    method ClaimNext(todo: seq<Cand>, leased: seq<LeasedBlock>, perFile: map<int, nat>, now: int,
                     ghost db0: Db, ghost cands: seq<Cand>, ghost n: int, ghost caps: map<int, int>,
                     ghost picked: seq<Cand>)
      returns (leased': seq<LeasedBlock>, perFile': map<int, nat>)
      requires Batch(db0, cands, n, caps, now, Tables(), todo, leased, perFile, picked)
      requires todo != [] && |leased| < n && !Full(caps, perFile, todo[0].fileId)
      modifies this
      ensures Batch(db0, cands, n, caps, now, Tables(), todo[1..], leased', perFile', picked + [todo[0]])
    {
      leased', perFile' := leased, perFile;
      var c := todo[0];
      BatchClaim(db0, cands, n, caps, now, Tables(), todo, leased, perFile, picked);
      var r := ClaimPending(c.id, now);
      if r.Ok? {
        perFile' := Bump(perFile, c.fileId);
        leased' := leased + [LeasedBlock(c.id, r.value)];
      }
    }

    method RequeueBlock(bid: int, tok: Option<nat>, availableAt: int) returns (r: Result<nat, StoreError>)
      modifies this
      ensures (Tables(), r) == Rows.RequeueBlock(old(Tables()), bid, tok, availableAt)
    {
      if !OwnsBlock(Tables(), bid, tok) {
        return Err(Fenced);
      }
      var n := blocks[bid].retries + 1;
      blocks := blocks[bid := blocks[bid].(status := Pending, availableAt := Some(availableAt), retries := n,
        lease := None)];
      return Ok(n);
    }

    method CompleteBlock(bid: int, tok: Option<nat>) returns (r: Result<bool, StoreError>)
      modifies this
      ensures (Tables(), r) == Rows.CompleteBlock(old(Tables()), bid, tok)
    {
      if !OwnsBlock(Tables(), bid, tok) {
        return Err(Fenced);
      }
      blocks := blocks[bid := blocks[bid].(status := Done, lease := None)];
      return Ok(!HasUnfinishedBlock(Tables(), blocks[bid].fileId));
    }

    method RenewFileLease(id: int, tok: Option<nat>, until: int, now: int) returns (r: Result<(), StoreError>)
      modifies this
      ensures (Tables(), r) == Rows.RenewFileLease(old(Tables()), id, tok, until, now)
    {
      if id in files && HasToken(files[id].lease, tok) && files[id].lease.value.until > now
         && RenewableStatus(files[id].status) {
        files := files[id := files[id].(lease := Some(Lease(tok.value, until)))];
        return Ok(());
      }
      return Err(Fenced);
    }

    method RenewBlockLease(bid: int, tok: Option<nat>, until: int, now: int) returns (r: Result<(), StoreError>)
      modifies this
      ensures (Tables(), r) == Rows.RenewBlockLease(old(Tables()), bid, tok, until, now)
    {
      if OwnsBlock(Tables(), bid, tok) && blocks[bid].lease.value.until > now {
        blocks := blocks[bid := blocks[bid].(lease := Some(Lease(tok.value, until)))];
        return Ok(());
      }
      return Err(Fenced);
    }

    /** Run the sweeps one after the other, the block sweep first. */
    method Recover(now: int)
      modifies this
      ensures Tables() == Rows.Recover(old(Tables()), now)
    {
      var i := 0;
      while i < |RECOVERY|
        invariant 0 <= i <= |RECOVERY|
        invariant Sweeps(Tables(), RECOVERY[i..], now) == Rows.Recover(old(Tables()), now)
      {
        assert RECOVERY[i..][1..] == RECOVERY[i + 1..];
        match RECOVERY[i] {
          case BlockSweep =>
            var db := Tables();
            blocks := map b | b in db.blocks ::
                        if BlockExpires(db, db.blocks[b], now) then ResetBlock(db.blocks[b]) else db.blocks[b];
          case FileSweep(from, to) =>
            files := map id | id in files :: SweepRow(files[id], from, to, now);
        }
        i := i + 1;
      }
    }
  }
}
