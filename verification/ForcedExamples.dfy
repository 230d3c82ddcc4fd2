/**
 Two runs from the empty system that show the gap of forced re-downloads at work: one with a full
 record kept, where nothing is fetched at all, and one with a partial record kept, where only the
 rest is.
 */
module ForcedExamples {
  import opened Base
  import opened Intervals
  import opened Chunking
  import opened Serde
  import opened Rows
  import opened Fencing
  import opened Resume
  import opened ResumeInv
  import opened ResumeTheorems
  import opened ForcedRedownload
  import opened CutShort

  /** A downloaded file is leased for its check. */
  lemma VerifyClaimed(s: Sys)
    requires s.db.files.Keys == {0} && s.db.files[0].status == Downloaded
    ensures Next(s, Call(Op.ClaimVerify(0)))
         == s.(db := s.db.(files := map[0 := s.db.files[0].(status := Verifying, lease := Until(s.db.nextToken))],
                           nextToken := s.db.nextToken + 1))
  {
    assert 0 in WithStatus(s.db, Downloaded);
    assert s.db.files[0 := s.db.files[0].(status := Verifying, lease := Until(s.db.nextToken))]
        == map[0 := s.db.files[0].(status := Verifying, lease := Until(s.db.nextToken))];
  }

  /** A file in the verifier's hands, published: the staging file unlinked, then the row marked cached. */
  function Cached0(s: Sys, path: string): Sys
    requires 0 in s.db.files
  {
    s.(db := s.db.(files := map[0 := s.db.files[0].(status := Cached, cachePath := Some(path), lease := None)]),
       page := s.page[0 := {}], stable := s.stable[0 := {}], inodes := s.inodes[0 := Inode(s, 0) + 1],
       gone := s.gone + {0}, blobs := s.blobs + {0})
  }

  function Gone0(s: Sys): Sys {
    s.(page := s.page[0 := {}], stable := s.stable[0 := {}], inodes := s.inodes[0 := Inode(s, 0) + 1],
       gone := s.gone + {0}, blobs := s.blobs + {0})
  }

  lemma Unlinks(s: Sys, tok: nat)
    requires 0 in s.db.files && s.db.files[0].status == Verifying && s.db.files[0].lease == Until(tok) && 0 !in s.gone
    ensures Next(s, Unlink(0, tok)) == Gone0(s)
  {
  }

  lemma Published(s: Sys, tok: nat, path: string)
    requires s.db.files.Keys == {0} && s.db.files[0].status == Verifying && s.db.files[0].lease == Until(tok)
    requires 0 !in s.gone
    ensures Steps(s, [Unlink(0, tok), Call(Op.EndVerify(0, Some(tok), path))]) == Cached0(s, path)
  {
    var commit := Call(Op.EndVerify(0, Some(tok), path));
    Unlinks(s, tok);
    MarkedCached(Gone0(s), tok, path);
    assert [Unlink(0, tok), commit] == [Unlink(0, tok)] + [commit] && [commit] == [commit] + [];
    StepTo(s, Unlink(0, tok), Gone0(s), [commit]);
    StepTo(Gone0(s), commit, Cached0(s, path), []);
  }

  lemma MarkedCached(s: Sys, tok: nat, path: string)
    requires s.db.files.Keys == {0} && s.db.files[0].status == Verifying && s.db.files[0].lease == Until(tok)
    ensures var row := s.db.files[0].(status := Cached, cachePath := Some(path), lease := None);
            Next(s, Call(Op.EndVerify(0, Some(tok), path))) == s.(db := s.db.(files := map[0 := row]))
  {
    var row := s.db.files[0].(status := Cached, cachePath := Some(path), lease := None);
    assert s.db.files[0 := row] == map[0 := row];
  }

  // ---------------------------------------------------------------- a full record

  /** Publish, evict the blob, force. */
  function ForceSteps0(tok: nat, path: string): seq<Step> {
    [Unlink(0, tok), Call(Op.EndVerify(0, Some(tok), path)), Evict(0), Call(Op.Transition(0, None, Cached, Queued, 0))]
  }

  lemma PublishedAndForced(s: Sys, tok: nat, path: string)
    requires s.db.files.Keys == {0} && s.db.files[0].status == Verifying && s.db.files[0].lease == Until(tok)
    requires 0 !in s.gone
    ensures var s' := Steps(s, ForceSteps0(tok, path));
            && s'.page == s.page[0 := {}] && 0 !in s'.blobs && s'.db.blocks == s.db.blocks
            && s'.db.nextToken == s.db.nextToken && s'.db.files.Keys == {0}
            && s'.db.files[0] == s.db.files[0].(status := Queued, cachePath := Some(path), lease := None)
  {
    var publish := [Unlink(0, tok), Call(Op.EndVerify(0, Some(tok), path))];
    var force := [Evict(0), Call(Op.Transition(0, None, Cached, Queued, 0))];
    assert ForceSteps0(tok, path) == publish + force;
    StepsConcat(s, publish, force);
    Published(s, tok, path);
    ForcedFrom(s, Cached0(s, path), path);
  }

  lemma ForcedFrom(s: Sys, s1: Sys, path: string)
    requires s.db.files.Keys == {0} && s1 == Cached0(s, path)
    ensures var s' := Steps(s1, [Evict(0), Call(Op.Transition(0, None, Cached, Queued, 0))]);
            && s'.page == s.page[0 := {}] && 0 !in s'.blobs && s'.db.blocks == s.db.blocks
            && s'.db.nextToken == s.db.nextToken && s'.db.files.Keys == {0}
            && s'.db.files[0] == s.db.files[0].(status := Queued, cachePath := Some(path), lease := None)
  {
    EvictedAndForced(s1, 0);
  }

  /** A queued file with a full record is declared downloaded without a transfer. */
  lemma FinishesEarly(s: Sys, f: int)
    requires StatusIs(s.db, f, Queued) && f !in s.blobs && Settled(s.db, f) && RecordShape(s.db.files[f])
    requires Range(0, s.db.files[f].size) <= Recorded(s.db.files[f]) && s.db.files[f].size > 0
    ensures var s1 := Steps(s, [Start(f, 0, "", false), Load(s.db.nextToken)]);
            s1.page == s.page && StatusIs(Next(s1, FinishEarly(s.db.nextToken)).db, f, Downloaded)
  {
    var tok := s.db.nextToken;
    var s1 := Next(s, Start(f, 0, "", false));
    Leases(s, f);
    LoadsOne(s1, tok);
    var s2 := Next(s1, Load(tok));
    assert [Start(f, 0, "", false), Load(tok)] == [Start(f, 0, "", false)] + ([Load(tok)] + []);
    StepTo(s, Start(f, 0, "", false), s1, [Load(tok)] + []);
    StepTo(s1, Load(tok), s2, []);
    MissingMeaning(s2.runs[tok].seed, s2.runs[tok].size);
    EarlyFinish(s2, tok);
  }

  /** For every non-empty size a run from nothing ends downloaded with an empty staging file. */
  lemma DownloadedWithNothingWritten(size: nat, path: string)
    requires 0 < size <= MAX_INT64
    ensures var check := [Call(Op.Insert(0, size))] + SalvageSteps(size, 0);
            var s := Steps(START, check + ForceSteps0(1, path) + [Start(0, 0, "", false), Load(2)]);
            && At(s.page, 0) == {} && StatusIs(Next(s, FinishEarly(2)).db, 0, Downloaded)
            && 0 in s.db.files && s.db.files[0].size == size
  {
    var list := Call(Op.Insert(0, size));
    var check := [list] + SalvageSteps(size, 0);
    ListedAlone(size);
    Salvaged0(Next(START, list), size, 0, 0);
    OneStep(START, list, SalvageSteps(size, 0));
    var s1 := Steps(START, check);
    PublishedAndForced(s1, 1, path);
    FullBlobMeaning(size);
    var s2 := Steps(s1, ForceSteps0(1, path));
    FinishesEarly(s2, 0);
    StepsConcat(START, check, ForceSteps0(1, path));
    StepsConcat(START, check + ForceSteps0(1, path), [Start(0, 0, "", false), Load(2)]);
    SizeStays(s2, [Start(0, 0, "", false), Load(2)], 0);
  }

  // ---------------------------------------------------------------- a partial record

  const PASS: seq<Block> := [Block(0, 0, 1), Block(1, 1, 1)]

  function Row0(idx: int, offset: int, status: BlockStatus, lease: Option<Lease>): BlockRow {
    BlockRow(0, idx, offset, 1, status, lease, None, 0)
  }

  /** A run over a file of two bytes, in blocks of one. */
  function Run0(held: map<int, Held>, flushed: set<int>, tracker: seq<Interval>, changes: nat,
                ckpt: Checkpoint, last: Option<(nat, seq<Interval>)>): RunState
  {
    RunState(0, 2, Running, [], 2, PASS, 0, 0, held, flushed, tracker, changes, ckpt, last)
  }

  function TwoBytes(row: FileRow, b0: BlockRow, b1: BlockRow, tokens: nat, page: map<int, set<int>>,
                    stable: map<int, set<int>>, run: RunState): Sys
  {
    Sys(Db(map[0 := row], map[0 := b0, 1 := b1], tokens), page, stable, map[], {}, {}, {}, map[0 := run], map[])
  }

  lemma CutsInTwo()
    ensures NewBlocks(FreshRun(0, 2).(phase := Loaded), 1, 0) == PASS
  {
    assert Complement([], 0, 2) == [Interval(0, 2)];
    assert [Interval(0, 2)][1..] == [];
    assert Cut(1, 2, 1, 1) == [Block(1, 1, 1)] + Cut(2, 2, 1, 2);
    assert Cut(0, 2, 1, 0) == [Block(0, 0, 1)] + Cut(1, 2, 1, 1);
    assert ChunkBlocks([], 1, 2) == [];
  }

  lemma Inserted(rows: map<int, BlockRow>)
    requires rows == map[]
    ensures InsertBlocks(rows, 0, PASS, 0) == map[0 := Row0(0, 0, Pending, None), 1 := Row0(1, 1, Pending, None)]
  {
    assert PASS[1..] == [Block(1, 1, 1)] && PASS[1..][1..] == [];
    var one := rows[0 := NewRow(0, PASS[0])];
    assert InsertBlocks(rows, 0, PASS, 0) == InsertBlocks(one, 0, PASS[1..], 1);
    assert InsertBlocks(one, 0, PASS[1..], 1) == InsertBlocks(one[1 := NewRow(0, PASS[1])], 0, PASS[1..][1..], 2);
  }

  const LEASED: FileRow := Only(2, Downloading, Until(0), None, 0)

  /** The re-chunked run before its first block. */
  const CHUNKED: Sys := TwoBytes(LEASED, Row0(0, 0, Pending, None), Row0(1, 1, Pending, None), 1, map[], map[],
                                 Run0(map[], {}, [], 0, Checkpoint.Idle, None))

  function OpenSteps(): seq<Step> {
    [Call(Op.Insert(0, 2)), Start(0, 0, "", false), Load(0), Step.Rechunk(0, 1, 0, 0)]
  }

  lemma Listed()
    ensures Next(Next(START, Call(Op.Insert(0, 2))), Start(0, 0, "", false))
         == START.(db := Db(map[0 := LEASED], map[], 1), runs := map[0 := FreshRun(0, 2)])
  {
  }

  lemma Loads()
    ensures Next(START.(db := Db(map[0 := LEASED], map[], 1), runs := map[0 := FreshRun(0, 2)]), Load(0))
         == START.(db := Db(map[0 := LEASED], map[], 1), runs := map[0 := FreshRun(0, 2).(phase := Loaded)])
  {
  }

  lemma Chunks()
    ensures Next(START.(db := Db(map[0 := LEASED], map[], 1), runs := map[0 := FreshRun(0, 2).(phase := Loaded)]),
                 Step.Rechunk(0, 1, 0, 0)) == CHUNKED
  {
    var s := START.(db := Db(map[0 := LEASED], map[], 1), runs := map[0 := FreshRun(0, 2).(phase := Loaded)]);
    CutsInTwo();
    Inserted(WithoutPending(s.db, 0));
    assert CanRechunk(s, 0, 1, 0);
    assert ReplacePendingBlocks(s.db, 0, Some(0), PASS, 0).1.Ok?;
  }

  lemma Opens()
    ensures Steps(START, OpenSteps()) == CHUNKED
  {
    FourSteps(START, Call(Op.Insert(0, 2)), Start(0, 0, "", false), Load(0), Step.Rechunk(0, 1, 0, 0));
    Listed();
    Loads();
    Chunks();
  }

  /** The first block written and recorded, not yet completed. */
  function WriteSteps(): seq<Step> {
    [ClaimBlk(0, 0, 0), Write(0, 0, 0, 1), Record(0, 0, 1), Snapshot(0)]
  }

  const ONE: seq<Interval> := [Interval(0, 1)]

  function WrittenOne(ckpt: Checkpoint): Sys {
    TwoBytes(LEASED, Row0(0, 0, Active, Until(1)), Row0(1, 1, Pending, None), 2, map[0 := Range(0, 1)], map[],
             Run0(map[0 := Held(1, 0, 1)], Range(0, 1), ONE, 1, ckpt, None))
  }

  lemma ClaimsFirst()
    ensures Next(CHUNKED, ClaimBlk(0, 0, 0))
         == TwoBytes(LEASED, Row0(0, 0, Active, Until(1)), Row0(1, 1, Pending, None), 2, map[], map[],
                     Run0(map[0 := Held(1, 0, 1)], {}, [], 0, Checkpoint.Idle, None))
  {
    var l := Row0(0, 0, Active, Until(1));
    assert CHUNKED.db.blocks[0 := l] == map[0 := l, 1 := Row0(1, 1, Pending, None)];
  }

  lemma WritesFirst()
    ensures Next(Next(Next(TwoBytes(LEASED, Row0(0, 0, Active, Until(1)), Row0(1, 1, Pending, None), 2, map[], map[],
                                    Run0(map[0 := Held(1, 0, 1)], {}, [], 0, Checkpoint.Idle, None)),
                           Write(0, 0, 0, 1)), Record(0, 0, 1)), Snapshot(0)) == WrittenOne(Snapped(ONE, 1))
  {
    assert {} + Range(0, 1) == Range(0, 1);
  }

  lemma Writes()
    ensures Steps(CHUNKED, WriteSteps()) == WrittenOne(Snapped(ONE, 1))
  {
    FourSteps(CHUNKED, ClaimBlk(0, 0, 0), Write(0, 0, 0, 1), Record(0, 0, 1), Snapshot(0));
    ClaimsFirst();
    WritesFirst();
  }

  /** The row while the run holds it, with whatever record it has. */
  predicate Leased0(row: FileRow) { row.status == Downloading && row.lease == Until(0) }

  /** The checkpoint saves the first byte; the block is completed after it. */
  function SaveOneSteps(): seq<Step> { [Fsync(0), Persist(0), CompleteBlk(0, 0), ClaimBlk(0, 1, 0)] }

  function SavedOne(row: FileRow, b0: BlockRow, b1: BlockRow, tokens: nat, held: map<int, Held>): Sys {
    TwoBytes(row, b0, b1, tokens, map[0 := Range(0, 1)], map[0 := Range(0, 1)],
             Run0(held, Range(0, 1), ONE, 1, Checkpoint.Idle, Some((1, ONE))))
  }

  lemma Syncs()
    ensures Next(WrittenOne(Snapped(ONE, 1)), Fsync(0))
         == WrittenOne(Synced(ONE, 1)).(stable := map[0 := Range(0, 1)])
  {
  }

  lemma Persists(snap: seq<Interval>, row: FileRow)
    requires Encodable(snap, 2) && snap == ONE && row == LEASED.(progress := Some(Encode(Progress(2, snap))))
    ensures Next(WrittenOne(Synced(snap, 1)).(stable := map[0 := Range(0, 1)]), Persist(0))
         == SavedOne(row, Row0(0, 0, Active, Until(1)), Row0(1, 1, Pending, None), 2, map[0 := Held(1, 0, 1)])
  {
  }

  /** The completion of a block held under its token, all of it recorded. */
  lemma Completes(s: Sys, b: int, tok: nat, blocks: map<int, BlockRow>, run: RunState)
    requires s.runs == map[0 := run] && run.phase == Running && run.held == map[b := Held(tok, b, 1)]
    requires b in s.db.blocks && s.db.blocks[b].status == Active && s.db.blocks[b].lease == Until(tok)
    requires Range(b, b + 1) <= Bytes(run.tracker)
          && blocks == s.db.blocks[b := s.db.blocks[b].(status := Done, lease := None)]
    ensures Next(s, CompleteBlk(0, b)) == s.(db := s.db.(blocks := blocks), runs := map[0 := run.(held := map[])])
  {
    assert run.held - {b} == map[];
  }

  lemma CompletesOne(row: FileRow)
    ensures Next(SavedOne(row, Row0(0, 0, Active, Until(1)), Row0(1, 1, Pending, None), 2, map[0 := Held(1, 0, 1)]),
            CompleteBlk(0, 0))
         == SavedOne(row, Row0(0, 0, Done, None), Row0(1, 1, Pending, None), 2, map[])
  {
    var s := SavedOne(row, Row0(0, 0, Active, Until(1)), Row0(1, 1, Pending, None), 2, map[0 := Held(1, 0, 1)]);
    var blocks := map[0 := Row0(0, 0, Done, None), 1 := Row0(1, 1, Pending, None)];
    assert blocks == s.db.blocks[0 := Row0(0, 0, Done, None)];
    assert Range(0, 1) <= Bytes(ONE);
    Completes(s, 0, 1, blocks, s.runs[0]);
  }

  lemma ClaimsSecond(row: FileRow)
    requires Leased0(row)
    ensures Next(SavedOne(row, Row0(0, 0, Done, None), Row0(1, 1, Pending, None), 2, map[]), ClaimBlk(0, 1, 0))
         == SavedOne(row, Row0(0, 0, Done, None), Row0(1, 1, Active, Until(2)), 3, map[1 := Held(2, 1, 1)])
  {
    var b1 := Row0(1, 1, Active, Until(2));
    assert map[0 := Row0(0, 0, Done, None), 1 := Row0(1, 1, Pending, None)][1 := b1]
        == map[0 := Row0(0, 0, Done, None), 1 := b1];
  }

  /** The second block is written and completed; no checkpoint follows before the file leaves downloading. */
  function FinishSteps(): seq<Step> { [Write(0, 1, 1, 2), Record(0, 1, 2), CompleteBlk(0, 1), Settle(0, 0)] }

  function Both(row: FileRow, b1: BlockRow, held: map<int, Held>, flushed: set<int>, tracker: seq<Interval>,
                changes: nat): Sys {
    TwoBytes(row, Row0(0, 0, Done, None), b1, 3, map[0 := flushed], map[0 := Range(0, 1)],
             Run0(held, flushed, tracker, changes, Checkpoint.Idle, Some((1, ONE))))
  }

  lemma WritesSecond(row: FileRow, b1: BlockRow, held: map<int, Held>)
    requires held == map[1 := Held(2, 1, 1)]
    ensures Next(SavedOne(row, Row0(0, 0, Done, None), b1, 3, held), Write(0, 1, 1, 2))
         == Both(row, b1, held, Range(0, 1) + Range(1, 2), ONE, 1)
  {
  }

  lemma RecordsSecond(row: FileRow, b1: BlockRow, held: map<int, Held>, flushed: set<int>)
    requires Range(1, 2) <= flushed
    ensures Next(Both(row, b1, held, flushed, ONE, 1), Record(0, 1, 2))
         == Both(row, b1, held, flushed, [Interval(0, 2)], 2)
  {
    assert Intervals.Insert(ONE, 1, 2) == Intervals.Insert(ONE[1..], 0, 2) == [Interval(0, 2)];
  }

  lemma CompletesSecond(row: FileRow, flushed: set<int>, tracker: seq<Interval>)
    requires Range(1, 2) <= Bytes(tracker)
    ensures Next(Both(row, Row0(1, 1, Active, Until(2)), map[1 := Held(2, 1, 1)], flushed, tracker, 2),
            CompleteBlk(0, 1))
         == Both(row, Row0(1, 1, Done, None), map[], flushed, tracker, 2)
  {
    var s := Both(row, Row0(1, 1, Active, Until(2)), map[1 := Held(2, 1, 1)], flushed, tracker, 2);
    var blocks := map[0 := Row0(0, 0, Done, None), 1 := Row0(1, 1, Done, None)];
    assert blocks == s.db.blocks[1 := Row0(1, 1, Done, None)];
    Completes(s, 1, 2, blocks, s.runs[0]);
  }

  lemma Settles(row: FileRow, flushed: set<int>, tracker: seq<Interval>)
    requires Leased0(row)
    ensures Next(Both(row, Row0(1, 1, Done, None), map[], flushed, tracker, 2), Settle(0, 0))
         == Both(row.(status := Downloaded, lease := None), Row0(1, 1, Done, None), map[], flushed, tracker, 2)
  {
    var s := Both(row, Row0(1, 1, Done, None), map[], flushed, tracker, 2);
    assert !HasUnfinishedBlock(s.db, 0) && !HasLiveBlock(s.db, 0, 0);
    assert s.db.files[0 := row.(status := Downloaded, lease := None)]
        == map[0 := row.(status := Downloaded, lease := None)];
  }

  /** The run ends, the verifier claims the file and publishes it. */
  function PublishSteps(path: string): seq<Step> {
    [End(0), Call(Op.ClaimVerify(0)), Unlink(0, 3), Call(Op.EndVerify(0, Some(3), path))]
  }

  function PartialSteps(path: string): seq<Step> {
    OpenSteps() + (WriteSteps() + (SaveOneSteps() + (FinishSteps() + PublishSteps(path))))
  }

  /** The file is cached with its record kept, nothing of it staged, and nobody working on it. */
  predicate KeptRecord(s: Sys, row: FileRow, path: string) {
    && s.db.files == map[0 := row.(status := Cached, lease := None, cachePath := Some(path))]
    && s.runs == map[] && s.salvages == map[] && At(s.page, 0) == At(s.stable, 0) == {} && 0 in s.blobs
  }

  lemma EndsPublished(row: FileRow, flushed: set<int>, tracker: seq<Interval>, path: string)
    requires row.status == Downloaded && row.lease.None?
    ensures KeptRecord(Steps(Both(row, Row0(1, 1, Done, None), map[], flushed, tracker, 2), PublishSteps(path)), row,
            path)
  {
    var s := Both(row, Row0(1, 1, Done, None), map[], flushed, tracker, 2);
    FourSteps(s, End(0), Call(Op.ClaimVerify(0)), Unlink(0, 3), Call(Op.EndVerify(0, Some(3), path)));
    RunEnds(s);
    var s1 := s.(runs := map[]);
    VerifyClaimed(s1);
    Published(s1.(db := s1.db.(files := map[0 := row.(status := Verifying, lease := Until(3))], nextToken := 4)), 3,
      path);
  }

  lemma RunEnds(s: Sys)
    requires s.runs.Keys == {0}
    ensures Next(s, End(0)) == s.(runs := map[])
  {
    assert s.runs - {0} == map[];
  }

  lemma Finished(row: FileRow, path: string)
    requires Leased0(row)
    ensures KeptRecord(Steps(SavedOne(row, Row0(0, 0, Done, None), Row0(1, 1, Active, Until(2)), 3,
            map[1 := Held(2, 1, 1)]),
                             FinishSteps() + PublishSteps(path)), row, path)
  {
    var s := SavedOne(row, Row0(0, 0, Done, None), Row0(1, 1, Active, Until(2)), 3, map[1 := Held(2, 1, 1)]);
    var flushed := Range(0, 1) + Range(1, 2);
    StepsConcat(s, FinishSteps(), PublishSteps(path));
    FourSteps(s, Write(0, 1, 1, 2), Record(0, 1, 2), CompleteBlk(0, 1), Settle(0, 0));
    WritesSecond(row, Row0(1, 1, Active, Until(2)), map[1 := Held(2, 1, 1)]);
    RecordsSecond(row, Row0(1, 1, Active, Until(2)), map[1 := Held(2, 1, 1)], flushed);
    assert Range(1, 2) <= Bytes([Interval(0, 2)]);
    CompletesSecond(row, flushed, [Interval(0, 2)]);
    Settles(row, flushed, [Interval(0, 2)]);
    EndsPublished(row.(status := Downloaded, lease := None), flushed, [Interval(0, 2)], path);
  }

  lemma SavedThenPublished(row: FileRow, path: string)
    requires Encodable(ONE, 2) && row == LEASED.(progress := Some(Encode(Progress(2, ONE))))
    ensures KeptRecord(Steps(WrittenOne(Snapped(ONE, 1)), SaveOneSteps() + (FinishSteps() + PublishSteps(path))), row,
            path)
  {
    var s := WrittenOne(Snapped(ONE, 1));
    StepsConcat(s, SaveOneSteps(), FinishSteps() + PublishSteps(path));
    FourSteps(s, Fsync(0), Persist(0), CompleteBlk(0, 0), ClaimBlk(0, 1, 0));
    Syncs();
    Persists(ONE, row);
    CompletesOne(row);
    ClaimsSecond(row);
    Finished(row, path);
  }

  lemma PartialPublished(row: FileRow, path: string)
    requires Encodable(ONE, 2) && row == LEASED.(progress := Some(Encode(Progress(2, ONE))))
    ensures KeptRecord(Steps(START, PartialSteps(path)), row, path)
  {
    StepsConcat(START, OpenSteps(), WriteSteps() + (SaveOneSteps() + (FinishSteps() + PublishSteps(path))));
    Opens();
    StepsConcat(CHUNKED, WriteSteps(), SaveOneSteps() + (FinishSteps() + PublishSteps(path)));
    Writes();
    SavedThenPublished(row, path);
  }

  /**
   The ordinary case. The last checkpoint before the last block's completion is what the row keeps:
   here one byte of two. The record is not full, and still a forced run of this file can end
   downloaded without every byte written.
   */
  lemma PartialRecordFails(path: string)
    ensures var s := Steps(START, PartialSteps(path));
            && StatusIs(s.db, 0, Cached) && Recorded(s.db.files[0]) == {0} && s.db.files[0].size == 2
            && !AlwaysWritten(s, 0)
  {
    RoundTrip(Progress(2, ONE));
    PartialPublished(LEASED.(progress := Some(Encode(Progress(2, ONE)))), path);
    assert Bytes(ONE) == {0};
    PublishedSafeIffRecordEmpty(PartialSteps(path), 0);
  }
}
