/** Every step of the resume protocol keeps its invariant. */
module ResumeProof {
  import opened Base
  import opened Intervals
  import opened Chunking
  import opened Serde
  import opened Rows
  import opened Fencing
  import opened Resume
  import opened ResumeInv

  // ---------------------------------------------------------------- lease, load, re-chunk

  lemma StartKeeps(doubt: Doubt, s: Sys, fid: int, now: int)
    requires SysInv(doubt, s)
    ensures SysInv(doubt, StartRun(s, fid, now))
  {
    var op := Op.Lease(fid, now);
    var s1 := Called(s, op);
    CallKeeps(doubt, s, op);
    var tok := s.db.nextToken;
    if LeaseFileForDownload(s.db, fid, now).1.Ok? {
      forall t | t in s.salvages ensures t < tok { assert SalvageAt(doubt, s, t); }
      FreshRunOk(doubt, s, fid, now);
      RunChanged(doubt, s1, tok, FreshRun(fid, s.db.files[fid].size));
    }
  }

  lemma FreshRunOk(doubt: Doubt, s: Sys, fid: int, now: int)
    requires SysInv(doubt, s) && LeaseFileForDownload(s.db, fid, now).1.Ok?
    ensures RunAt(doubt, StartRun(s, fid, now), s.db.nextToken)
  {
    var s' := StartRun(s, fid, now);
    assert FileAt(doubt, s, fid);
    forall g | g in s.db.files ensures !HasToken(s.db.files[g].lease, Some(s.db.nextToken)) {
      assert FileOk(s.db.files[g], s.db.nextToken);
    }
  }

  /** The run LoadRecord leaves behind, whatever the record says. */
  lemma LoadedOk(doubt: Doubt, s: Sys, tok: nat, seed: seq<Interval>, seedSize: int)
    requires tok in s.runs && s.runs[tok].phase.Leased? && RunAt(doubt, s, tok) && FileAt(doubt, s, s.runs[tok].fid)
    requires At(s.stable, s.runs[tok].fid) <= At(s.page, s.runs[tok].fid)
    requires Canonical(seed) && Within(seed, seedSize) && seedSize == s.runs[tok].size
    requires Bytes(seed) == Recorded(s.db.files[s.runs[tok].fid])
    ensures RunAt(doubt, SetRun(s, tok, s.runs[tok].(phase := Loaded, seed := seed, seedSize := seedSize,
            tracker := seed)), tok)
  {
  }

  lemma LoadKeeps(doubt: Doubt, s: Sys, tok: nat)
    requires SysInv(doubt, s)
    ensures SysInv(doubt, LoadRecord(s, tok))
  {
    if tok in s.runs && s.runs[tok].phase == Leased {
      assert RunAt(doubt, s, tok);
      var p := s.db.files[s.runs[tok].fid].progress;
      if p.Some? && Decode(p.value).Ok? {
        AcceptedIsCanonical(p.value);
        LoadKeepsWith(doubt, s, tok, Decode(p.value).value.iv, Decode(p.value).value.size);
      } else {
        LoadKeepsWith(doubt, s, tok, [], s.runs[tok].size);
        RunDropped(doubt, s, tok);
      }
    }
  }

  lemma LoadKeepsWith(doubt: Doubt, s: Sys, tok: nat, seed: seq<Interval>, seedSize: int)
    requires SysInv(doubt, s) && tok in s.runs && s.runs[tok].phase.Leased? && s.runs[tok].fid in s.db.files
    requires Canonical(seed) && Within(seed, seedSize) && seedSize == s.runs[tok].size
    requires Bytes(seed) == Recorded(s.db.files[s.runs[tok].fid])
    ensures SysInv(doubt, SetRun(s, tok, s.runs[tok].(phase := Loaded, seed := seed, seedSize := seedSize,
            tracker := seed)))
  {
    assert RunAt(doubt, s, tok) && FileAt(doubt, s, s.runs[tok].fid);
    assert At(s.stable, s.runs[tok].fid) <= At(s.page, s.runs[tok].fid);
    LoadedOk(doubt, s, tok, seed, seedSize);
    RunChanged(doubt, s, tok, s.runs[tok].(phase := Loaded, seed := seed, seedSize := seedSize, tracker := seed));
  }

  lemma AdmittedKeeps(doubt: Doubt, s: Sys, fid: int, now: int, path: string, storeError: bool)
    requires SysInv(doubt, s)
    ensures SysInv(doubt, Admitted(s, fid, now, path, storeError))
  {
    if fid in s.blobs && !storeError && MarkCachedFromBlob(s.db, fid, path).1.Ok? {
      CallKeeps(doubt, s, Op.ReuseBlob(fid, path));
    } else {
      StartKeeps(doubt, s, fid, now);
    }
  }

  lemma FinishKeepsAll(doubt: Doubt, s: Sys, tok: nat)
    requires SysInv(doubt, s)
    ensures SysInv(doubt, FinishLoaded(s, tok))
  {
    if FinishLoaded(s, tok) != s {
      var op := Op.Finish(s.runs[tok].fid, Some(tok));
      CallKeeps(doubt, s, op);
      RunDropped(doubt, Called(s, op), tok);
    }
  }

  /** The new blocks lie inside the file. */
  lemma BlocksInside(iv: seq<Interval>, size: int, blockSize: int, idx: int, i: int)
    requires Canonical(iv) && Within(iv, size) && size > 0 && blockSize > 0
    requires 0 <= i < |ChunkBlocks(Complement(iv, 0, size), blockSize, idx)|
    ensures var b := ChunkBlocks(Complement(iv, 0, size), blockSize, idx)[i];
            0 <= b.offset && 0 < b.length && b.End() <= size
  {
    var blocks := ChunkBlocks(Complement(iv, 0, size), blockSize, idx);
    ResumePartition(iv, size, blockSize, idx);
    LayoutPairwise(blocks, blockSize, idx, 0, i, i);
    InRanges(blocks, i);
    assert blocks[i].End() - 1 in Bytes(Ranges(blocks));
  }

  lemma {:induction false} InRanges(blocks: seq<Block>, i: int)
    requires 0 <= i < |blocks|
    ensures Range(blocks[i].offset, blocks[i].End()) <= Bytes(Ranges(blocks))
  {
    if i > 0 {
      InRanges(blocks[1..], i - 1);
    }
    assert Ranges(blocks)[1..] == Ranges(blocks[1..]);
  }

  lemma RechunkKeepsAll(doubt: Doubt, s: Sys, tok: nat, blockSize: int, startIdx: int, firstId: int)
    requires SysInv(doubt, s)
    ensures SysInv(doubt, RechunkRun(s, tok, blockSize, startIdx, firstId))
  {
    if CanRechunk(s, tok, blockSize, firstId) {
      assert RunAt(doubt, s, tok);
      var r := s.runs[tok];
      var blocks := NewBlocks(r, blockSize, startIdx);
      RechunkGuard(doubt, s, tok, blockSize, startIdx, firstId);
      CallKeeps(doubt, s, Op.Rechunk(r.fid, Some(tok), blocks, firstId));
      if ReplacePendingBlocks(s.db, r.fid, Some(tok), blocks, firstId).1.Ok? {
        PassInserted(doubt, s, tok, blockSize, startIdx, firstId);
      }
      RechunkedKeeps(doubt, s, Called(s, Op.Rechunk(r.fid, Some(tok), blocks, firstId)), tok, blocks, firstId,
                     RechunkRun(s, tok, blockSize, startIdx, firstId));
    }
  }

  lemma RechunkedKeeps(doubt: Doubt, s: Sys, s1: Sys, tok: nat, blocks: seq<Block>, firstId: int, s': Sys)
    requires SysInv(doubt, s1) && tok in s.runs && s.runs[tok].phase.Loaded?
    requires var r := s.runs[tok];
             var (db, res) := ReplacePendingBlocks(s.db, r.fid, Some(tok), blocks, firstId);
             var r' := Opening(r, blocks, firstId, Inode(s, r.fid));
             && s1 == s.(db := db)
             && (res.Ok? ==> PassOk(db, DiskAt(doubt, s, r.fid), tok, r'))
             && (s' == s1.(runs := s.runs - {tok}) || s' == s1.(gone := s.gone - {r.fid}, runs := s.runs - {tok})
                 || (res.Ok? && s' == SetRun(s1.(gone := s.gone - {r.fid}), tok, r')))
    ensures SysInv(doubt, s')
  {
    var r := s.runs[tok];
    if s' == s1.(runs := s.runs - {tok}) {
      RunDropped(doubt, s1, tok);
    } else if s' == s1.(gone := s.gone - {r.fid}, runs := s.runs - {tok}) {
      RunDropped(doubt, s1, tok);
      NamesChanged(doubt, s1.(runs := s.runs - {tok}), s');
    } else {
      OpenedKeeps(doubt, s1, tok, blocks, firstId);
    }
  }

  lemma OpenedKeeps(doubt: Doubt, s: Sys, tok: nat, blocks: seq<Block>, firstId: int)
    requires SysInv(doubt, s) && tok in s.runs && s.runs[tok].phase.Loaded? && Live(s, tok)
    requires var r := s.runs[tok];
             PassOk(s.db, DiskAt(doubt, s, r.fid), tok, Opening(r, blocks, firstId, Inode(s, r.fid)))
    ensures var r := s.runs[tok];
            SysInv(doubt, SetRun(s.(gone := s.gone - {r.fid}), tok, Opening(r, blocks, firstId, Inode(s, r.fid))))
  {
    var s1 := s.(gone := s.gone - {s.runs[tok].fid});
    NamesChanged(doubt, s, s1);
    RunningNow(doubt, s1, tok, blocks, firstId);
  }

  lemma RunningNow(doubt: Doubt, s: Sys, tok: nat, blocks: seq<Block>, firstId: int)
    requires SysInv(doubt, s) && tok in s.runs && s.runs[tok].phase.Loaded? && Live(s, tok)
    requires var r := s.runs[tok];
             PassOk(s.db, DiskAt(doubt, s, r.fid), tok, Opening(r, blocks, firstId, Inode(s, r.fid)))
    ensures SysInv(doubt, SetRun(s, tok, Opening(s.runs[tok], blocks, firstId, Inode(s, s.runs[tok].fid))))
  {
    assert RunAt(doubt, s, tok);
    RunChanged(doubt, s, tok, Opening(s.runs[tok], blocks, firstId, Inode(s, s.runs[tok].fid)));
  }

  lemma RechunkGuard(doubt: Doubt, s: Sys, tok: nat, blockSize: int, startIdx: int, firstId: int)
    requires CanRechunk(s, tok, blockSize, firstId) && RunAt(doubt, s, tok)
    ensures s.runs[tok].size > 0
    ensures var r := s.runs[tok]; Guard(doubt, s, Op.Rechunk(r.fid, Some(tok), NewBlocks(r, blockSize, startIdx),
            firstId))
  {
    var r := s.runs[tok];
    var blocks := NewBlocks(r, blockSize, startIdx);
    assert r.size > 0;
    forall i | 0 <= i < |blocks|
      ensures 0 <= blocks[i].offset && 0 <= blocks[i].length && blocks[i].End() <= r.size
    {
      BlocksInside(r.seed, r.size, blockSize, startIdx, i);
    }
  }

  lemma PassInserted(doubt: Doubt, s: Sys, tok: nat, blockSize: int, startIdx: int, firstId: int)
    requires tok in s.runs && s.runs[tok].fid in s.db.files
    requires var r := s.runs[tok]; Canonical(r.seed) && Within(r.seed, r.size) && r.size > 0 && blockSize > 0
    requires var r := s.runs[tok];
             ReplacePendingBlocks(s.db, r.fid, Some(tok), NewBlocks(r, blockSize, startIdx), firstId).1.Ok?
    ensures var r := s.runs[tok];
            var blocks := NewBlocks(r, blockSize, startIdx);
            PassOk(ReplacePendingBlocks(s.db, r.fid, Some(tok), blocks, firstId).0, DiskAt(doubt, s, r.fid), tok,
                   Opening(r, blocks, firstId, Inode(s, r.fid)))
  {
    var r := s.runs[tok];
    var blocks := NewBlocks(r, blockSize, startIdx);
    var db' := ReplacePendingBlocks(s.db, r.fid, Some(tok), blocks, firstId).0;
    var r' := Opening(r, blocks, firstId, Inode(s, r.fid));
    ResumePartition(r.seed, r.size, blockSize, startIdx);
    FreshRows(WithoutPending(s.db, r.fid), db', DiskAt(doubt, s, r.fid), r');
  }

  lemma FreshRows(rows: map<int, BlockRow>, db: Db, disk: Disk, r: RunState)
    requires db.blocks == InsertBlocks(rows, r.fid, r.pass, r.firstId)
    ensures forall i: nat | i < |r.pass| :: PassRow(db, disk, r, i)
  {
    forall i: nat | i < |r.pass| ensures PassRow(db, disk, r, i) {
      InsertedAt(rows, r.fid, r.pass, r.firstId, i);
    }
  }

  // ---------------------------------------------------------------- workers

  lemma ClaimKeeps(doubt: Doubt, s: Sys, tok: nat, bid: int, now: int)
    requires SysInv(doubt, s)
    ensures SysInv(doubt, ClaimForRun(s, tok, bid, now))
  {
    if tok in s.runs && s.runs[tok].phase == Running
       && bid in s.db.blocks && s.db.blocks[bid].fileId == s.runs[tok].fid {
      var op := Op.Claim(bid, now);
      CallKeeps(doubt, s, op);
      if Claimable(s.db, bid) {
        assert RunAt(doubt, s, tok) && BlockIn(s.db, bid);
        HeldNow(doubt, Called(s, op), tok, bid, Held(s.db.nextToken, s.db.blocks[bid].offset, s.db.blocks[bid].length));
      }
    }
  }

  lemma HeldNow(doubt: Doubt, s: Sys, tok: nat, bid: int, h: Held)
    requires SysInv(doubt, s) && tok in s.runs && s.runs[tok].phase.Running?
    requires h.token < s.db.nextToken && HeldIn(h, s.runs[tok].size)
    requires bid in s.db.blocks && s.db.blocks[bid].fileId == s.runs[tok].fid
    requires s.db.blocks[bid].offset == h.offset && s.db.blocks[bid].length == h.length
    ensures SysInv(doubt, SetRun(s, tok, s.runs[tok].(held := s.runs[tok].held[bid := h])))
  {
    assert RunAt(doubt, s, tok);
    var r' := s.runs[tok].(held := s.runs[tok].held[bid := h]);
    SamePass(s.db, DiskAt(doubt, s, r'.fid), tok, s.runs[tok], r');
    RunChanged(doubt, s, tok, r');
  }

  lemma SamePass(db: Db, disk: Disk, tok: nat, r: RunState, r': RunState)
    requires PassOk(db, disk, tok, r) && r'.fid == r.fid && r'.size == r.size && r'.seed == r.seed
    requires r'.pass == r.pass && r'.firstId == r.firstId && (Opened(r') ==> Opened(r))
    ensures PassOk(db, disk, tok, r')
  {
    if Owner(db, tok, r') && Opened(r') {
      forall i: nat | i < |r'.pass| ensures PassRow(db, disk, r', i) { assert PassRow(db, disk, r, i); }
    }
  }

  lemma GrowAt(m: map<int, set<int>>, f: int, more: set<int>)
    ensures forall g :: At(m, g) <= At(Grow(m, f, more), g)
    ensures At(Grow(m, f, more), f) == At(m, f) + more
  {
  }

  lemma PageWritten(doubt: Doubt, s: Sys, r: RunState, more: set<int>)
    requires SysInv(doubt, s)
    ensures SysInv(doubt, s.(page := Written(s, r, more)))
    ensures r.inode == Inode(s, r.fid) ==> more <= At(Written(s, r, more), r.fid)
  {
    GrowAt(s.page, r.fid, more);
    DiskGrew(doubt, s, Written(s, r, more), s.stable);
  }

  lemma WriteKeeps(doubt: Doubt, s: Sys, tok: nat, bid: int, from: int, to: int)
    requires SysInv(doubt, s)
    ensures SysInv(doubt, WriteForRun(s, tok, bid, from, to))
  {
    if tok in s.runs && s.runs[tok].phase == Running && bid in s.runs[tok].held
       && s.runs[tok].held[bid].offset <= from <= to <= s.runs[tok].held[bid].offset + s.runs[tok].held[bid].length {
      var r := s.runs[tok];
      assert RunAt(doubt, s, tok) && HeldIn(r.held[bid], r.size);
      PageWritten(doubt, s, r, Range(from, to));
      FlushedNow(doubt, s.(page := Written(s, r, Range(from, to))), tok, from, to);
    }
  }

  lemma FlushedNow(doubt: Doubt, s: Sys, tok: nat, from: int, to: int)
    requires SysInv(doubt, s) && tok in s.runs && s.runs[tok].phase.Running?
    requires 0 <= from <= to <= s.runs[tok].size
    requires s.runs[tok].inode == Inode(s, s.runs[tok].fid) ==> Range(from, to) <= At(s.page, s.runs[tok].fid)
    ensures SysInv(doubt, SetRun(s, tok, s.runs[tok].(flushed := s.runs[tok].flushed + Range(from, to))))
  {
    assert RunAt(doubt, s, tok);
    var r' := s.runs[tok].(flushed := s.runs[tok].flushed + Range(from, to));
    SamePass(s.db, DiskAt(doubt, s, r'.fid), tok, s.runs[tok], r');
    RunChanged(doubt, s, tok, r');
  }

  lemma RecordedOk(db: Db, disk: Disk, tok: nat, r: RunState, from: int, to: int)
    requires RunInv(db, disk, tok, r) && r.phase.Running? && Range(from, to) <= r.flushed
    ensures RunInv(db, disk, tok, Noted(r, from, to))
  {
    InsertBytes(r.tracker, from, to);
    InsertCanonical(r.tracker, from, to);
    if from < to {
      assert from in Range(from, to) && to - 1 in Range(from, to);
      InsertWithin(r.tracker, from, to, r.size);
    }
    SamePass(db, disk, tok, r, Noted(r, from, to));
  }

  lemma RecordedNow(doubt: Doubt, s: Sys, tok: nat, from: int, to: int, r': RunState)
    requires SysInv(doubt, s) && tok in s.runs && s.runs[tok].phase.Running? && Range(from, to) <= s.runs[tok].flushed
    requires r' == Noted(s.runs[tok], from, to)
    ensures SysInv(doubt, SetRun(s, tok, r'))
  {
    assert RunAt(doubt, s, tok);
    RecordedOk(s.db, DiskAt(doubt, s, r'.fid), tok, s.runs[tok], from, to);
    RunChanged(doubt, s, tok, r');
  }

  lemma RecordKeeps(doubt: Doubt, s: Sys, tok: nat, from: int, to: int)
    requires SysInv(doubt, s)
    ensures SysInv(doubt, RecordForRun(s, tok, from, to))
  {
    var s' := RecordForRun(s, tok, from, to);
    if s' != s {
      var r' := Noted(s.runs[tok], from, to);
      assert s' == SetRun(s, tok, r');
      RecordedNow(doubt, s, tok, from, to, r');
    }
  }

  lemma CompleteKeeps(doubt: Doubt, s: Sys, tok: nat, bid: int)
    requires SysInv(doubt, s)
    ensures SysInv(doubt, CompleteForRun(s, tok, bid))
  {
    if tok in s.runs && s.runs[tok].phase == Running && bid in s.runs[tok].held
       && Range(s.runs[tok].held[bid].offset, s.runs[tok].held[bid].offset + s.runs[tok].held[bid].length)
          <= Bytes(s.runs[tok].tracker) {
      var op := Op.Complete(bid, Some(s.runs[tok].held[bid].token));
      CompleteGuard(doubt, s, tok, bid);
      CallKeeps(doubt, s, op);
      LetGo(doubt, Called(s, op), tok, bid);
    }
  }

  /** A run past its re-chunk has written, where its blocks can be trusted, all it has recorded. */
  lemma CompleteGuard(doubt: Doubt, s: Sys, tok: nat, bid: int)
    requires SysInv(doubt, s) && tok in s.runs && s.runs[tok].phase == Running && bid in s.runs[tok].held
    requires var h := s.runs[tok].held[bid]; Range(h.offset, h.offset + h.length) <= Bytes(s.runs[tok].tracker)
    ensures Guard(doubt, s, Op.Complete(bid, Some(s.runs[tok].held[bid].token)))
  {
    assert RunAt(doubt, s, tok);
  }

  lemma LetGo(doubt: Doubt, s: Sys, tok: nat, bid: int)
    requires SysInv(doubt, s) && tok in s.runs
    ensures SysInv(doubt, SetRun(s, tok, s.runs[tok].(held := s.runs[tok].held - {bid})))
  {
    assert RunAt(doubt, s, tok);
    var r' := s.runs[tok].(held := s.runs[tok].held - {bid});
    SamePass(s.db, DiskAt(doubt, s, r'.fid), tok, s.runs[tok], r');
    RunChanged(doubt, s, tok, r');
  }

  lemma SettleKeeps(doubt: Doubt, s: Sys, tok: nat, now: int)
    requires SysInv(doubt, s)
    ensures SysInv(doubt, SettleRun(s, tok, now))
  {
    if tok in s.runs && s.runs[tok].phase == Running {
      CallKeeps(doubt, s, Op.Transition(s.runs[tok].fid, Some(tok), Downloading, Downloaded, now));
    }
  }

  // ---------------------------------------------------------------- checkpoints

  lemma SnapshotKeeps(doubt: Doubt, s: Sys, tok: nat)
    requires SysInv(doubt, s)
    ensures SysInv(doubt, SnapshotRun(s, tok))
  {
    if tok in s.runs && Checkpoints(s.runs[tok].phase) && s.runs[tok].ckpt.Idle? {
      var r := s.runs[tok];
      assert RunAt(doubt, s, tok);
      var r' := r.(ckpt := Snapped(r.tracker, r.changes));
      SamePass(s.db, DiskAt(doubt, s, r.fid), tok, r, r');
      RunChanged(doubt, s, tok, r');
    }
  }

  lemma FsyncKeeps(doubt: Doubt, s: Sys, tok: nat)
    requires SysInv(doubt, s)
    ensures SysInv(doubt, FsyncRun(s, tok))
  {
    if tok in s.runs && s.runs[tok].ckpt.Snapped? {
      var r := s.runs[tok];
      assert At(s.stable, r.fid) <= At(s.page, r.fid);
      DiskGrew(doubt, s, s.page, Flushed(s, r));
      SyncedNow(doubt, s.(stable := Flushed(s, r)), tok);
    }
  }

  lemma SyncedNow(doubt: Doubt, s: Sys, tok: nat)
    requires SysInv(doubt, s) && tok in s.runs && s.runs[tok].ckpt.Snapped?
    requires s.runs[tok].inode == Inode(s, s.runs[tok].fid) ==>
               At(s.stable, s.runs[tok].fid) == At(s.page, s.runs[tok].fid)
    ensures SysInv(doubt, SetRun(s, tok, s.runs[tok].(ckpt := Synced(s.runs[tok].ckpt.snap, s.runs[tok].ckpt.at))))
  {
    var r := s.runs[tok];
    assert RunAt(doubt, s, tok);
    var r' := r.(ckpt := Synced(r.ckpt.snap, r.ckpt.at));
    SamePass(s.db, DiskAt(doubt, s, r.fid), tok, r, r');
    RunChanged(doubt, s, tok, r');
  }

  lemma FsyncFailsKeeps(doubt: Doubt, s: Sys, tok: nat)
    requires SysInv(doubt, s)
    ensures SysInv(doubt, FsyncFails(s, tok))
  {
    if tok in s.runs && s.runs[tok].ckpt.Snapped? {
      var r := s.runs[tok];
      assert RunAt(doubt, s, tok);
      SamePass(s.db, DiskAt(doubt, s, r.fid), tok, r, r.(ckpt := Idle));
      RunChanged(doubt, s, tok, r.(ckpt := Idle));
    }
  }

  lemma PersistKeeps(doubt: Doubt, s: Sys, tok: nat)
    requires SysInv(doubt, s)
    ensures SysInv(doubt, PersistRun(s, tok))
  {
    if tok in s.runs && s.runs[tok].ckpt.Synced? && Encodable(s.runs[tok].ckpt.snap, s.runs[tok].size) {
      var r := s.runs[tok];
      assert RunAt(doubt, s, tok);
      RoundTrip(Progress(r.size, r.ckpt.snap));
      var op := Op.Save(r.fid, Some(tok), Some(Encode(Progress(r.size, r.ckpt.snap))));
      CallKeeps(doubt, s, op);
      PersistedNow(doubt, Called(s, op), tok);
    }
  }

  lemma PersistedNow(doubt: Doubt, s: Sys, tok: nat)
    requires SysInv(doubt, s) && tok in s.runs && s.runs[tok].ckpt.Synced?
    ensures SysInv(doubt, SetRun(s, tok, s.runs[tok].(ckpt := Idle,
            last := Some((s.runs[tok].ckpt.at, s.runs[tok].ckpt.snap)))))
  {
    var r := s.runs[tok];
    assert RunAt(doubt, s, tok);
    var r' := r.(ckpt := Idle, last := Some((r.ckpt.at, r.ckpt.snap)));
    SamePass(s.db, DiskAt(doubt, s, r.fid), tok, r, r');
    RunChanged(doubt, s, tok, r');
  }

  // ---------------------------------------------------------------- single-stream fallback

  lemma FallingBackOk(db: Db, disk: Disk, tok: nat, r: RunState)
    requires RunInv(db, disk, tok, r) && r.phase.Running? && r.ckpt.Idle?
    ensures RunInv(db, disk, tok, Reset(r))
  {
    SamePass(db, disk, tok, r, Reset(r));
  }

  lemma FallingBackNow(doubt: Doubt, s: Sys, tok: nat)
    requires SysInv(doubt, s) && tok in s.runs && s.runs[tok].phase.Running? && s.runs[tok].ckpt.Idle?
    ensures SysInv(doubt, SetRun(s, tok, Reset(s.runs[tok])))
  {
    assert RunAt(doubt, s, tok);
    FallingBackOk(s.db, DiskAt(doubt, s, s.runs[tok].fid), tok, s.runs[tok]);
    RunChanged(doubt, s, tok, Reset(s.runs[tok]));
  }

  lemma StartFallbackKeeps(doubt: Doubt, s: Sys, tok: nat)
    requires SysInv(doubt, s)
    ensures SysInv(doubt, StartFallbackRun(s, tok))
  {
    if tok in s.runs && s.runs[tok].phase == Running && s.runs[tok].ckpt.Idle? {
      FallingBackNow(doubt, s, tok);
    }
  }

  lemma FallbackWriteKeeps(doubt: Doubt, s: Sys, tok: nat, from: int, to: int)
    requires SysInv(doubt, s)
    ensures SysInv(doubt, FallbackWriteRun(s, tok, from, to))
  {
    if tok in s.runs && s.runs[tok].phase.FallingBack? && 0 <= from <= to <= s.runs[tok].size {
      PageWritten(doubt, s, s.runs[tok], Range(from, to));
      FetchedNow(doubt, s.(page := Written(s, s.runs[tok], Range(from, to))), tok, Range(from, to));
    }
  }

  lemma FetchedNow(doubt: Doubt, s: Sys, tok: nat, more: set<int>)
    requires SysInv(doubt, s) && tok in s.runs && s.runs[tok].phase.FallingBack?
    requires s.runs[tok].inode == Inode(s, s.runs[tok].fid) ==> more <= At(s.page, s.runs[tok].fid)
    ensures SysInv(doubt, SetRun(s, tok, s.runs[tok].(phase := FallingBack(s.runs[tok].phase.got + more))))
  {
    var r := s.runs[tok];
    assert RunAt(doubt, s, tok);
    var r' := r.(phase := FallingBack(r.phase.got + more));
    SamePass(s.db, DiskAt(doubt, s, r.fid), tok, r, r');
    RunChanged(doubt, s, tok, r');
  }

  lemma FallenOk(db: Db, disk: Disk, tok: nat, r: RunState)
    requires RunInv(db, disk, tok, r) && r.phase.FallingBack? && r.ckpt.Idle? && Range(0, r.size) <= r.phase.got
    ensures RunInv(db, disk, tok,
                   Noted(r, 0, r.size).(phase := Fallen))
  {
    InsertBytes(r.tracker, 0, r.size);
    InsertCanonical(r.tracker, 0, r.size);
    InsertWithin(r.tracker, 0, r.size, r.size);
    SamePass(db, disk, tok, r,
             Noted(r, 0, r.size).(phase := Fallen));
  }

  lemma FallenNow(doubt: Doubt, s: Sys, tok: nat, r': RunState)
    requires SysInv(doubt, s) && tok in s.runs && s.runs[tok].phase.FallingBack?
    requires var r := s.runs[tok];
             && Range(0, r.size) <= r.phase.got && r.ckpt.Idle?
             && r' == Noted(r, 0, r.size).(phase := Fallen)
    ensures SysInv(doubt, SetRun(s, tok, r'))
  {
    assert RunAt(doubt, s, tok);
    FallenOk(s.db, DiskAt(doubt, s, r'.fid), tok, s.runs[tok]);
    RunChanged(doubt, s, tok, r');
  }

  lemma FallbackDoneKeeps(doubt: Doubt, s: Sys, tok: nat)
    requires SysInv(doubt, s)
    ensures SysInv(doubt, FallbackDoneRun(s, tok))
  {
    var s' := FallbackDoneRun(s, tok);
    if s' != s {
      var r := s.runs[tok];
      var r' := Noted(r, 0, r.size).(phase := Fallen);
      assert s' == SetRun(s, tok, r');
      FallenNow(doubt, s, tok, r');
    }
  }

  // ---------------------------------------------------------------- salvage, publish, crash

  lemma SalvageStartKeeps(doubt: Doubt, s: Sys, now: int)
    requires SysInv(doubt, s)
    ensures SysInv(doubt, StartSalvageCopy(s, now))
  {
    var op := Op.ClaimSalvage(now);
    CallKeeps(doubt, s, op);
    var tok := s.db.nextToken;
    var (db, r) := LeaseSalvage(s.db, now);
    if r.Ok? {
      var v := Salvage(r.value.0, s.db.files[r.value.0].size, None, {}, false);
      forall t | t in s.runs ensures t < tok { assert RunAt(doubt, s, t); }
      forall g | g in s.db.files ensures !HasToken(s.db.files[g].lease, Some(tok)) {
        assert FileOk(s.db.files[g], tok);
      }
      SalvageChanged(doubt, Called(s, op), tok, v);
    }
  }

  lemma SalvageOpenKeeps(doubt: Doubt, s: Sys, tok: nat)
    requires SysInv(doubt, s)
    ensures SysInv(doubt, OpenSalvage(s, tok))
  {
    if tok in s.salvages && s.salvages[tok].inode.None? {
      var v := s.salvages[tok];
      var s1 := s.(gone := s.gone - {v.fid});
      NamesChanged(doubt, s, s1);
      assert SalvageAt(doubt, s1, tok);
      SalvageChanged(doubt, s1, tok, v.(inode := Some(Inode(s, v.fid))));
    }
  }

  lemma SalvageCopyKeeps(doubt: Doubt, s: Sys, tok: nat, from: int, to: int)
    requires SysInv(doubt, s)
    ensures SysInv(doubt, CopySalvage(s, tok, from, to))
  {
    if tok in s.salvages && s.salvages[tok].inode.Some? && 0 <= from <= to <= s.salvages[tok].size {
      var v := s.salvages[tok];
      GrowAt(s.page, v.fid, Range(from, to));
      DiskGrew(doubt, s, Copied(s, v, Range(from, to)), s.stable);
      var s1 := s.(page := Copied(s, v, Range(from, to)));
      assert SalvageAt(doubt, s1, tok);
      SalvageChanged(doubt, s1, tok, v.(got := v.got + Range(from, to)));
    }
  }

  lemma SalvageSyncKeeps(doubt: Doubt, s: Sys, tok: nat)
    requires SysInv(doubt, s)
    ensures SysInv(doubt, SyncSalvage(s, tok))
  {
    if tok in s.salvages && s.salvages[tok].inode.Some? && Range(0, s.salvages[tok].size) <= s.salvages[tok].got {
      var v := s.salvages[tok];
      assert At(s.stable, v.fid) <= At(s.page, v.fid);
      DiskGrew(doubt, s, s.page, s.stable[v.fid := At(s.page, v.fid)]);
      var s1 := s.(stable := s.stable[v.fid := At(s.page, v.fid)]);
      NamesChanged(doubt, s1, s1.(gone := s.gone - {v.fid}));
      assert SalvageAt(doubt, s1, tok);
      SalvageChanged(doubt, s1.(gone := s.gone - {v.fid}), tok, v.(synced := true));
    }
  }

  lemma SalvageSaveKeeps(doubt: Doubt, s: Sys, tok: nat)
    requires SysInv(doubt, s)
    ensures SysInv(doubt, SaveSalvage(s, tok))
  {
    if tok in s.salvages && s.salvages[tok].synced && 0 <= s.salvages[tok].size {
      var v := s.salvages[tok];
      assert SalvageAt(doubt, s, tok) && FileAt(doubt, s, v.fid);
      FullBlobMeaning(v.size);
      CallKeeps(doubt, s, Op.Save(v.fid, Some(tok), Some(FullBlob(v.size))));
    }
  }

  lemma RejectKeeps(doubt: Doubt, s: Sys, fid: int, tok: nat)
    requires SysInv(doubt, s)
    ensures SysInv(doubt, RejectFile(s, fid, tok))
  {
    CallKeeps(doubt, s, Op.RejectVerify(fid, Some(tok)));
  }

  /** The file a step unlinks, if it does. */
  function Unlinked(s: Sys, step: Step): set<int> {
    if step.Unlink? && step.fid in s.db.files && step.fid !in s.gone then {step.fid} else {}
  }

  function Doubting(doubt: Doubt, more: set<int>): Doubt { Doubt(doubt.records + more, doubt.blocks + more) }

  /** A change of one staging file, its record put in doubt, leaves every other file's claims alone. */
  lemma OneFileDoubted(doubt: Doubt, s: Sys, s': Sys, f: int)
    requires SysInv(doubt, s) && s'.db == s.db && s'.runs == s.runs && s'.salvages == s.salvages
    requires forall g :: At(s'.stable, g) <= At(s'.page, g)
    requires forall g | g != f :: DiskAt(doubt, s', g) == DiskAt(doubt, s, g)
    ensures SysInv(Doubting(doubt, {f}), s')
  {
    var doubt' := Doubting(doubt, {f});
    forall t | t in s'.runs ensures RunAt(doubt', s', t) {
      assert RunAt(doubt, s, t);
      RunDoubted(doubt, s, s', f, t);
    }
    forall g | g in s'.db.files ensures FileAt(doubt', s', g) {
      assert FileAt(doubt, s, g) && (g != f ==> DiskAt(doubt, s', g) == DiskAt(doubt, s, g));
    }
    forall t | t in s'.salvages ensures SalvageAt(doubt', s', t) {
      var g := s.salvages[t].fid;
      assert SalvageAt(doubt, s, t) && (g != f ==> DiskAt(doubt, s', g) == DiskAt(doubt, s, g));
    }
  }

  lemma RunDoubted(doubt: Doubt, s: Sys, s': Sys, f: int, t: nat)
    requires t in s.runs && RunAt(doubt, s, t) && s'.db == s.db && s'.runs == s.runs
    requires forall g | g != f :: DiskAt(doubt, s', g) == DiskAt(doubt, s, g)
    ensures RunAt(Doubting(doubt, {f}), s', t)
  {
    var g := s.runs[t].fid;
    if g == f {
      RunInDoubt(s.db, DiskAt(doubt, s, f), DiskAt(Doubting(doubt, {f}), s', f), t, s.runs[t]);
    } else {
      assert DiskAt(Doubting(doubt, {f}), s', g) == DiskAt(doubt, s', g) == DiskAt(doubt, s, g);
    }
  }

  /** Unlinking a staging file puts its record and its blocks in doubt. */
  lemma UnlinkKeeps(doubt: Doubt, s: Sys, f: int)
    requires SysInv(doubt, s) && f in s.db.files && f !in s.gone
    ensures SysInv(Doubting(doubt, {f}), UnlinkFile(s, f))
  {
    var s' := UnlinkFile(s, f);
    forall g ensures At(s'.stable, g) <= At(s'.page, g) { assert At(s.stable, g) <= At(s.page, g); }
    OneFileDoubted(doubt, s, s', f);
  }

  /** A crash loses only bytes that no record claims. */
  lemma CrashKeeps(doubt: Doubt, s: Sys, left: map<int, set<int>>)
    requires SysInv(doubt, s)
    ensures SysInv(doubt, CrashTo(s, left))
  {
  }

  // ---------------------------------------------------------------- all steps

  predicate RunningStep(step: Step) {
    || step.ClaimBlk? || step.Write? || step.Record? || step.CompleteBlk? || step.Settle?
    || step.Snapshot? || step.Fsync? || step.FsyncFailed? || step.Persist?
  }

  predicate OpeningStep(step: Step) {
    || step.Call? || step.Start? || step.Load? || step.FinishEarly? || step.Rechunk? || step.End?
    || step.VerifyFails? || step.Crash?
  }

  lemma RunStepKeeps(doubt: Doubt, s: Sys, step: Step, s': Sys)
    requires SysInv(doubt, s) && RunningStep(step) && s' == Next(s, step)
    ensures SysInv(doubt, s')
  {
    if WorkerStep(step) { WorkerStepKeeps(doubt, s, step, s'); } else { CheckpointStepKeeps(doubt, s, step, s'); }
  }

  predicate WorkerStep(step: Step) {
    step.ClaimBlk? || step.Write? || step.Record? || step.CompleteBlk? || step.Settle?
  }

  lemma WorkerStepKeeps(doubt: Doubt, s: Sys, step: Step, s': Sys)
    requires SysInv(doubt, s) && WorkerStep(step) && s' == Next(s, step)
    ensures SysInv(doubt, s')
  {
    match step
    case Write(tok, bid, from, to) => WriteKeeps(doubt, s, tok, bid, from, to);
    case Record(tok, from, to) => RecordKeeps(doubt, s, tok, from, to);
    case _ => BlockStepKeeps(doubt, s, step, s');
  }

  lemma BlockStepKeeps(doubt: Doubt, s: Sys, step: Step, s': Sys)
    requires SysInv(doubt, s) && (step.ClaimBlk? || step.CompleteBlk? || step.Settle?) && s' == Next(s, step)
    ensures SysInv(doubt, s')
  {
    match step
    case ClaimBlk(tok, bid, now) => ClaimKeeps(doubt, s, tok, bid, now);
    case CompleteBlk(tok, bid) => CompleteKeeps(doubt, s, tok, bid);
    case Settle(tok, now) => SettleKeeps(doubt, s, tok, now);
  }

  lemma CheckpointStepKeeps(doubt: Doubt, s: Sys, step: Step, s': Sys)
    requires SysInv(doubt, s) && RunningStep(step) && !WorkerStep(step) && s' == Next(s, step)
    ensures SysInv(doubt, s')
  {
    match step
    case Snapshot(tok) => SnapshotKeeps(doubt, s, tok);
    case Fsync(tok) => FsyncKeeps(doubt, s, tok);
    case FsyncFailed(tok) => FsyncFailsKeeps(doubt, s, tok);
    case Persist(tok) => PersistKeeps(doubt, s, tok);
  }

  lemma OpenStepKeeps(doubt: Doubt, s: Sys, step: Step, s': Sys)
    requires SysInv(doubt, s) && OpeningStep(step) && s' == Next(s, step)
    ensures SysInv(doubt, s')
  {
    if step.Call? || step.VerifyFails? {
      StoreStepKeeps(doubt, s, step, s');
    } else if step.Crash? || step.End? {
      EndStepKeeps(doubt, s, step, s');
    } else {
      OpenRunKeeps(doubt, s, step, s');
    }
  }

  lemma StoreStepKeeps(doubt: Doubt, s: Sys, step: Step, s': Sys)
    requires SysInv(doubt, s) && (step.Call? || step.VerifyFails?) && s' == Next(s, step)
    ensures SysInv(doubt, s')
  {
    match step
    case Call(op) => AmbientKeeps(doubt, s, op);
    case VerifyFails(fid, tok) => RejectKeeps(doubt, s, fid, tok);
  }

  lemma AmbientKeeps(doubt: Doubt, s: Sys, op: Op)
    requires SysInv(doubt, s)
    ensures SysInv(doubt, if Ambient(op) then s.(db := Apply(s.db, op)) else s)
  {
    if Ambient(op) { CallKeeps(doubt, s, op); }
  }

  lemma EndStepKeeps(doubt: Doubt, s: Sys, step: Step, s': Sys)
    requires SysInv(doubt, s) && (step.Crash? || step.End?) && s' == Next(s, step)
    ensures SysInv(doubt, s')
  {
    match step
    case Crash(left) => CrashKeeps(doubt, s, left);
    case End(tok) => RunDropped(doubt, s, tok);
  }

  lemma OpenRunKeeps(doubt: Doubt, s: Sys, step: Step, s': Sys)
    requires SysInv(doubt, s) && (step.Start? || step.Load? || step.FinishEarly? || step.Rechunk?)
          && s' == Next(s, step)
    ensures SysInv(doubt, s')
  {
    match step
    case Start(fid, now, path, storeError) => AdmittedKeeps(doubt, s, fid, now, path, storeError);
    case Load(tok) => LoadKeeps(doubt, s, tok);
    case FinishEarly(tok) => FinishKeepsAll(doubt, s, tok);
    case Rechunk(tok, bs, idx, first) => RechunkKeepsAll(doubt, s, tok, bs, idx, first);
  }

  lemma OtherStepKeeps(doubt: Doubt, s: Sys, step: Step, s': Sys)
    requires SysInv(doubt, s) && !RunningStep(step) && !OpeningStep(step) && !step.Unlink? && s' == Next(s, step)
    ensures SysInv(doubt, s')
  {
    match step
    case BlobAppears(_) => NamesChanged(doubt, s, s');
    case Evict(_) => NamesChanged(doubt, s, s');
    case Listed(_, _) => NamesChanged(doubt, s, s');
    case VerifyOpen(_) => NamesChanged(doubt, s, s');
    case StartFallback(tok) => StartFallbackKeeps(doubt, s, tok);
    case FallbackWrite(tok, from, to) => FallbackWriteKeeps(doubt, s, tok, from, to);
    case FallbackDone(tok) => FallbackDoneKeeps(doubt, s, tok);
    case SalvageStart(now) => SalvageStartKeeps(doubt, s, now);
    case SalvageOpen(tok) => SalvageOpenKeeps(doubt, s, tok);
    case SalvageCopy(tok, from, to) => SalvageCopyKeeps(doubt, s, tok, from, to);
    case SalvageSync(tok) => SalvageSyncKeeps(doubt, s, tok);
    case SalvageSave(tok) => SalvageSaveKeeps(doubt, s, tok);
  }

  /** Every step keeps the invariant; an unlink adds its file to those in doubt. */
  lemma NextKeeps(doubt: Doubt, s: Sys, step: Step)
    requires SysInv(doubt, s)
    ensures SysInv(Doubting(doubt, Unlinked(s, step)), Next(s, step))
  {
    var s' := Next(s, step);
    if x :| x in Unlinked(s, step) {
      UnlinkKeeps(doubt, s, step.fid);
    } else {
      assert Doubting(doubt, Unlinked(s, step)) == doubt;
      if RunningStep(step) {
        RunStepKeeps(doubt, s, step, s');
      } else if OpeningStep(step) {
        OpenStepKeeps(doubt, s, step, s');
      } else if !step.Unlink? {
        OtherStepKeeps(doubt, s, step, s');
      }
    }
  }

  /** What is in doubt after a step: unlinks add to it, and the new state may answer it. */
  function NextDoubt(doubt: Doubt, s: Sys, step: Step): Doubt {
    Relieved(Doubting(doubt, Unlinked(s, step)), Next(s, step))
  }

  function DoubtAfter(doubt: Doubt, s: Sys, steps: seq<Step>): Doubt
    decreases |steps|
  {
    if steps == [] then doubt else DoubtAfter(NextDoubt(doubt, s, steps[0]), Next(s, steps[0]), steps[1..])
  }

  /** The invariant holds in every state any run of the system reaches. */
  lemma {:induction false} StepsKeep(doubt: Doubt, s: Sys, steps: seq<Step>)
    requires SysInv(doubt, s)
    ensures SysInv(DoubtAfter(doubt, s, steps), Steps(s, steps))
    decreases |steps|
  {
    if steps != [] {
      NextKeeps(doubt, s, steps[0]);
      TrustRestored(Doubting(doubt, Unlinked(s, steps[0])), Next(s, steps[0]));
      StepsKeep(NextDoubt(doubt, s, steps[0]), Next(s, steps[0]), steps[1..]);
    }
  }

  /** The staging files unlinked in the course of a run. */
  function UnlinkedBy(s: Sys, steps: seq<Step>): set<int>
    decreases |steps|
  {
    if steps == [] then {} else Unlinked(s, steps[0]) + UnlinkedBy(Next(s, steps[0]), steps[1..])
  }

  /** Only unlinks raise doubt. */
  lemma {:induction false} DoubtNeedsUnlink(doubt: Doubt, s: Sys, steps: seq<Step>, f: int)
    requires f !in doubt.records && f !in UnlinkedBy(s, steps)
    ensures f !in DoubtAfter(doubt, s, steps).records
    ensures f !in doubt.blocks ==> f !in DoubtAfter(doubt, s, steps).blocks
    decreases |steps|
  {
    if steps != [] {
      DoubtNeedsUnlink(NextDoubt(doubt, s, steps[0]), Next(s, steps[0]), steps[1..], f);
    }
  }
}
