/**
 A pass's useful parallelism. The scheduler of one process counts a file's remaining bytes down as
 its own leaser completes blocks. What other processes complete, or what completes before the file
 is admitted, does not reach that counter. Counter, unfinished bytes and missed bytes balance; so
 the connections granted from the counter stay within the number of unfinished blocks exactly as
 long as the missed bytes fit in the slack of those blocks.
 */
module Usable {
  import opened Base
  import opened Chunking
  import opened Rows
  import opened Fencing
  import opened Shares
  import A = Alloc

  /** The pass's rows are all there, as inserted. */
  predicate PassThere(db: Db, f: int, pass: seq<Block>, firstId: int)
    decreases |pass|
  {
    pass != [] ==>
      && firstId in db.blocks && db.blocks[firstId].fileId == f && db.blocks[firstId].length == pass[0].length
      && PassThere(db, f, pass[1..], firstId + 1)
  }

  predicate Finished(db: Db, b: int) { b in db.blocks && db.blocks[b].status == Done }

  function UnfinishedBytes(db: Db, pass: seq<Block>, firstId: int): int
    decreases |pass|
  {
    if pass == [] then 0
    else (if Finished(db, firstId) then 0 else pass[0].length) + UnfinishedBytes(db, pass[1..], firstId + 1)
  }

  function UnfinishedBlocks(db: Db, pass: seq<Block>, firstId: int): nat
    decreases |pass|
  {
    if pass == [] then 0
    else (if Finished(db, firstId) then 0 else 1) + UnfinishedBlocks(db, pass[1..], firstId + 1)
  }

  /** Calls that end the pass: a new re-chunk of the file, or its byte-complete finish. */
  predicate EndsPass(op: Op, f: int) { (op.Rechunk? || op.Finish?) && op.id == f }

  /** A failed check of the file, which puts all its blocks back. */
  predicate Rejects(op: Op, f: int) { op.RejectVerify? && op.id == f }

  /** Otherwise its rows stay, and only a completion by the leaseholder finishes one. */
  lemma RowStays(db: Db, op: Op, f: int, b: int)
    requires Legal(db, op) && !EndsPass(op, f) && b in db.blocks && db.blocks[b].fileId == f
    ensures b in Apply(db, op).blocks
    ensures var row, row' := db.blocks[b], Apply(db, op).blocks[b];
            && row'.fileId == f && row'.length == row.length
            && (row'.status == Done ==> row.status == Done || (op.Complete? && op.bid == b && OwnsBlock(db, b, op.tok)))
            && (op.Complete? && op.bid == b && OwnsBlock(db, b, op.tok) ==> row'.status == Done)
            && (row.status == Done && !Rejects(op, f) ==> row'.status == Done)
  {
    if op.Sweep? {
      RecoverUnfold(db, op.now);
    } else if op.Rechunk? {
      assert b in WithoutPending(db, op.id);
      InsertedBlocks(WithoutPending(db, op.id), op.id, op.blocks, op.firstId);
    }
  }

  /** No row of the file has a negative length; no call but a re-chunk adds one. */
  predicate FileSized(db: Db, f: int) {
    forall b | b in db.blocks && db.blocks[b].fileId == f :: 0 <= db.blocks[b].length
  }

  lemma SizedStays(db: Db, op: Op, f: int)
    requires Legal(db, op) && !EndsPass(op, f) && FileSized(db, f)
    ensures FileSized(Apply(db, op), f)
  {
    var db' := Apply(db, op);
    forall b | b in db'.blocks && db'.blocks[b].fileId == f ensures 0 <= db'.blocks[b].length {
      RowSized(db, op, db', f, b);
    }
  }

  lemma RowSized(db: Db, op: Op, db': Db, f: int, b: int)
    requires Legal(db, op) && !EndsPass(op, f) && FileSized(db, f) && db' == Apply(db, op)
    requires b in db'.blocks && db'.blocks[b].fileId == f
    ensures 0 <= db'.blocks[b].length
  {
    if op.Sweep? {
      RecoverUnfold(db, op.now);
    } else if op.Rechunk? {
      RechunkedRow(db, op, b);
    }
  }

  /** The bytes of a block of the file that a call completes. */
  function Completed(db: Db, op: Op, f: int): int {
    if op.Complete? && OwnsBlock(db, op.bid, op.tok) && db.blocks[op.bid].fileId == f then
      db.blocks[op.bid].length
    else 0
  }

  predicate Sized(pass: seq<Block>, blockSize: int) { forall i | 0 <= i < |pass| :: 0 < pass[i].length <= blockSize }

  predicate InPass(b: int, pass: seq<Block>, firstId: int) { firstId <= b < firstId + |pass| }

  /** The bytes of a block of the pass that a call completes. */
  function Taken(db: Db, op: Op, f: int, pass: seq<Block>, firstId: int): int {
    if op.Complete? && InPass(op.bid, pass, firstId) then Completed(db, op, f) else 0
  }

  /** A call takes off the unfinished bytes what it completes; a rejection may put some back. */
  lemma {:induction false} PassStays(db: Db, op: Op, f: int, pass: seq<Block>, firstId: int)
    requires Legal(db, op) && !EndsPass(op, f) && PassThere(db, f, pass, firstId)
    requires forall i | 0 <= i < |pass| :: 0 < pass[i].length
    ensures var db' := Apply(db, op);
            && PassThere(db', f, pass, firstId)
            && UnfinishedBytes(db', pass, firstId)
               >= UnfinishedBytes(db, pass, firstId) - Taken(db, op, f, pass, firstId)
            && (!Rejects(op, f) ==>
                  UnfinishedBytes(db', pass, firstId)
                    == UnfinishedBytes(db, pass, firstId) - Taken(db, op, f, pass, firstId))
    decreases |pass|
  {
    if pass != [] {
      RowStays(db, op, f, firstId);
      PassStays(db, op, f, pass[1..], firstId + 1);
    }
  }

  // ---------------------------------------------------------------- the counter

  /** A store call by anyone; `here` if it is this process's leaser that makes it, for an admitted file. */
  datatype Event = Event(op: Op, here: bool)

  function RunOf(db: Db, es: seq<Event>): Db
    decreases |es|
  {
    if es == [] then db else RunOf(Apply(db, es[0].op), es[1..])
  }

  /** Legal calls, none of which ends the pass. */
  predicate LegalPass(db: Db, es: seq<Event>, f: int)
    decreases |es|
  {
    es == [] || (Legal(db, es[0].op) && !EndsPass(es[0].op, f) && LegalPass(Apply(db, es[0].op), es[1..], f))
  }

  /** The counter after one call: noteBlockDone, floored at zero, for completions made here. */
  function Counted(db: Db, e: Event, f: int, remaining: nat): nat {
    if e.here then Max(remaining - Completed(db, e.op, f), 0) else remaining
  }

  /** That is the allocator's own counter. */
  lemma CountedIsNoted(db: Db, e: Event, f: int, s: A.State)
    requires e.here && f in s.active && 0 <= Completed(db, e.op, f)
    ensures A.NoteBlockDone(s, f, Completed(db, e.op, f)).active[f].remaining
         == Counted(db, e, f, s.active[f].remaining)
  {
    A.DoneCountsDown(s, f, Completed(db, e.op, f));
  }

  function CountedRun(db: Db, es: seq<Event>, f: int, remaining: nat): nat
    decreases |es|
  {
    if es == [] then remaining else CountedRun(Apply(db, es[0].op), es[1..], f, Counted(db, es[0], f, remaining))
  }

  /** The bytes of the pass completed without this counter's knowledge. */
  function Missed(db: Db, es: seq<Event>, f: int, pass: seq<Block>, firstId: int): int
    decreases |es|
  {
    if es == [] then 0
    else (if es[0].here then 0 else Taken(db, es[0].op, f, pass, firstId))
         + Missed(Apply(db, es[0].op), es[1..], f, pass, firstId)
  }

  /** Over any run of calls the counter stays at or below the bytes still to finish and those missed. */
  lemma {:induction false} RemainingBounded(db: Db, es: seq<Event>, f: int, pass: seq<Block>, firstId: int,
                                            blockSize: int, remaining: nat, missed: int)
    requires LegalPass(db, es, f) && PassThere(db, f, pass, firstId) && Sized(pass, blockSize) && FileSized(db, f)
    requires 0 <= missed && remaining <= UnfinishedBytes(db, pass, firstId) + missed
    ensures CountedRun(db, es, f, remaining)
         <= UnfinishedBytes(RunOf(db, es), pass, firstId) + missed + Missed(db, es, f, pass, firstId)
    decreases |es|
  {
    if es != [] {
      var e, db' := es[0], Apply(db, es[0].op);
      PassStays(db, e.op, f, pass, firstId);
      SizedStays(db, e.op, f);
      UnfinishedPositive(db', pass, firstId, blockSize);
      var took := if e.here then 0 else Taken(db, e.op, f, pass, firstId);
      RemainingBounded(db', es[1..], f, pass, firstId, blockSize, Counted(db, e, f, remaining), missed + took);
    }
  }

  /** No rejection of the file, and what is counted here are blocks of the pass. */
  predicate OwnBlocks(db: Db, es: seq<Event>, f: int, pass: seq<Block>, firstId: int)
    decreases |es|
  {
    es == []
    || (!Rejects(es[0].op, f)
        && (es[0].here ==> Completed(db, es[0].op, f) == Taken(db, es[0].op, f, pass, firstId))
        && OwnBlocks(Apply(db, es[0].op), es[1..], f, pass, firstId))
  }

  /** Conservation: then the counter is exactly what is unfinished and what was missed. */
  lemma {:induction false} CounterBalances(db: Db, es: seq<Event>, f: int, pass: seq<Block>, firstId: int,
                                           blockSize: int, remaining: nat, missed: int)
    requires LegalPass(db, es, f) && PassThere(db, f, pass, firstId) && Sized(pass, blockSize)
    requires OwnBlocks(db, es, f, pass, firstId)
    requires 0 <= missed && remaining == UnfinishedBytes(db, pass, firstId) + missed
    ensures CountedRun(db, es, f, remaining)
         == UnfinishedBytes(RunOf(db, es), pass, firstId) + missed + Missed(db, es, f, pass, firstId)
    decreases |es|
  {
    if es != [] {
      var e, db' := es[0], Apply(db, es[0].op);
      PassStays(db, e.op, f, pass, firstId);
      UnfinishedPositive(db', pass, firstId, blockSize);
      var took := if e.here then 0 else Taken(db, e.op, f, pass, firstId);
      TakenPositive(db, e.op, f, pass, firstId, blockSize);
      CounterBalances(db', es[1..], f, pass, firstId, blockSize, Counted(db, e, f, remaining), missed + took);
    }
  }

  lemma {:induction false} TakenPositive(db: Db, op: Op, f: int, pass: seq<Block>, firstId: int, blockSize: int)
    requires PassThere(db, f, pass, firstId) && Sized(pass, blockSize)
    ensures 0 <= Taken(db, op, f, pass, firstId)
    decreases |pass|
  {
    if pass != [] && op.Complete? && op.bid != firstId { TakenPositive(db, op, f, pass[1..], firstId + 1, blockSize); }
  }

  lemma {:induction false} UnfinishedPositive(db: Db, pass: seq<Block>, firstId: int, blockSize: int)
    requires Sized(pass, blockSize)
    ensures 0 <= UnfinishedBytes(db, pass, firstId) <= UnfinishedBlocks(db, pass, firstId) * blockSize
    decreases |pass|
  {
    if pass != [] { UnfinishedPositive(db, pass[1..], firstId + 1, blockSize); }
  }

  /** Freshly inserted, the whole pass is unfinished and its bytes are its lengths. */
  lemma {:induction false} InsertedUnfinished(db: Db, f: int, pass: seq<Block>, firstId: int)
    requires forall b | firstId <= b < firstId + |pass| ::
               b in db.blocks && db.blocks[b] == NewRow(f, pass[b - firstId])
    ensures PassThere(db, f, pass, firstId) && UnfinishedBytes(db, pass, firstId) == Lengths(pass)
    decreases |pass|
  {
    if pass != [] {
      assert db.blocks[firstId] == NewRow(f, pass[0]);
      InsertedUnfinished(db, f, pass[1..], firstId + 1);
    }
  }

  lemma RechunkSized(db: Db, f: int, tok: Option<nat>, pass: seq<Block>, firstId: int, blockSize: int)
    requires FileSized(db, f) && Sized(pass, blockSize) && ReplacePendingBlocks(db, f, tok, pass, firstId).1.Ok?
    ensures FileSized(Apply(db, Op.Rechunk(f, tok, pass, firstId)), f)
  {
    InsertedBlocks(WithoutPending(db, f), f, pass, firstId);
  }

  /** The bound holds under every limit exactly when the remaining bytes fit in that many blocks. */
  lemma CeilingIff(af: ActiveFile, n: nat)
    requires af.blockSize > 0
    ensures (forall lim :: UsableConns(af, lim) <= Max(1, n)) <==> af.remaining <= Max(1, n) * af.blockSize
  {
    var m := Max(1, n);
    if af.remaining <= m * af.blockSize {
      forall lim ensures UsableConns(af, lim) <= m {
        UsableIsCeiling(af, lim);
        if UsableConns(af, lim) > m { Scale(m, UsableConns(af, lim) - 1, af.blockSize); }
      }
    } else {
      UsableIsCeiling(af, m + 1);
      if UsableConns(af, m + 1) <= m { Scale(UsableConns(af, m + 1), m, af.blockSize); }
    }
  }

  /** The blocks of the file just re-chunked, and the file's counter as admission sets it. */
  predicate Admitted(db: Db, f: int, tok: Option<nat>, pass: seq<Block>, firstId: int, blockSize: int, db1: Db) {
    && (forall b | b in db.blocks :: b < firstId) && ReplacePendingBlocks(db, f, tok, pass, firstId).1.Ok?
    && FileSized(db, f) && Sized(pass, blockSize) && blockSize > 0 && Lengths(pass) >= 0
    && db1 == Apply(db, Op.Rechunk(f, tok, pass, firstId))
  }

  lemma AdmittedWhole(db: Db, f: int, tok: Option<nat>, pass: seq<Block>, firstId: int, blockSize: int, db1: Db)
    requires Admitted(db, f, tok, pass, firstId, blockSize, db1)
    ensures PassThere(db1, f, pass, firstId) && FileSized(db1, f)
    ensures UnfinishedBytes(db1, pass, firstId) == Lengths(pass)
  {
    assert db1.blocks == InsertBlocks(WithoutPending(db, f), f, pass, firstId);
    InsertedBlocks(WithoutPending(db, f), f, pass, firstId);
    InsertedUnfinished(db1, f, pass, firstId);
    RechunkSized(db, f, tok, pass, firstId, blockSize);
  }

  /**
   From a re-chunk on, over every order of claims, completions by any worker, requeues, renewals
   and recoveries: while no completion of the pass is missed, a file is granted at most one
   connection per unfinished block of its pass.
   */
  lemma ConnsWithinUnfinished(db: Db, f: int, tok: Option<nat>, pass: seq<Block>, firstId: int, blockSize: int,
                              db1: Db, es: seq<Event>, af: ActiveFile, lim: int)
    requires Admitted(db, f, tok, pass, firstId, blockSize, db1) && LegalPass(db1, es, f)
    requires af.blockSize == blockSize && af.remaining == CountedRun(db1, es, f, Lengths(pass))
    requires Missed(db1, es, f, pass, firstId) == 0
    ensures UsableConns(af, lim) <= Max(1, UnfinishedBlocks(RunOf(db1, es), pass, firstId))
  {
    var n := UnfinishedBlocks(RunOf(db1, es), pass, firstId);
    AdmittedWhole(db, f, tok, pass, firstId, blockSize, db1);
    RemainingBounded(db1, es, f, pass, firstId, blockSize, Lengths(pass), 0);
    UnfinishedPositive(RunOf(db1, es), pass, firstId, blockSize);
    Scale(n, Max(1, n), blockSize);
    CeilingIff(af, n);
  }

  /**
   The exact condition. While this counter counts blocks of the pass only and the file is not
   rejected, the bound holds under every limit if and only if the bytes missed, with those still to
   finish, fit in the unfinished blocks.
   */
  lemma BoundIffMissedFits(db: Db, f: int, tok: Option<nat>, pass: seq<Block>, firstId: int, blockSize: int,
                           db1: Db, es: seq<Event>, af: ActiveFile)
    requires Admitted(db, f, tok, pass, firstId, blockSize, db1) && LegalPass(db1, es, f)
    requires OwnBlocks(db1, es, f, pass, firstId)
    requires af.blockSize == blockSize && af.remaining == CountedRun(db1, es, f, Lengths(pass))
    ensures var end := RunOf(db1, es);
            var m := Max(1, UnfinishedBlocks(end, pass, firstId));
            (forall lim :: UsableConns(af, lim) <= m) <==>
              UnfinishedBytes(end, pass, firstId) + Missed(db1, es, f, pass, firstId) <= m * blockSize
  {
    AdmittedWhole(db, f, tok, pass, firstId, blockSize, db1);
    CounterBalances(db1, es, f, pass, firstId, blockSize, Lengths(pass), 0);
    CeilingIff(af, UnfinishedBlocks(RunOf(db1, es), pass, firstId));
  }

  /** With blocks all of full size, and one left, that means: no completion was missed. */
  lemma FullBlocksBoundIffNoneMissed(db: Db, f: int, tok: Option<nat>, pass: seq<Block>, firstId: int, blockSize: int,
                                     db1: Db, es: seq<Event>, af: ActiveFile)
    requires Admitted(db, f, tok, pass, firstId, blockSize, db1) && LegalPass(db1, es, f)
    requires OwnBlocks(db1, es, f, pass, firstId) && (forall i | 0 <= i < |pass| :: pass[i].length == blockSize)
    requires af.blockSize == blockSize && af.remaining == CountedRun(db1, es, f, Lengths(pass))
    requires UnfinishedBlocks(RunOf(db1, es), pass, firstId) > 0
    ensures (forall lim :: UsableConns(af, lim) <= UnfinishedBlocks(RunOf(db1, es), pass, firstId))
       <==> Missed(db1, es, f, pass, firstId) == 0
  {
    BoundIffMissedFits(db, f, tok, pass, firstId, blockSize, db1, es, af);
    FullUnfinished(RunOf(db1, es), pass, firstId, blockSize);
    AdmittedWhole(db, f, tok, pass, firstId, blockSize, db1);
    MissedPositive(db1, es, f, pass, firstId, blockSize);
  }

  lemma {:induction false} FullUnfinished(db: Db, pass: seq<Block>, firstId: int, blockSize: int)
    requires forall i | 0 <= i < |pass| :: pass[i].length == blockSize
    ensures UnfinishedBytes(db, pass, firstId) == UnfinishedBlocks(db, pass, firstId) * blockSize
    decreases |pass|
  {
    if pass != [] { FullUnfinished(db, pass[1..], firstId + 1, blockSize); }
  }

  lemma {:induction false} MissedPositive(db: Db, es: seq<Event>, f: int, pass: seq<Block>, firstId: int,
                                          blockSize: int)
    requires LegalPass(db, es, f) && PassThere(db, f, pass, firstId) && Sized(pass, blockSize)
    ensures 0 <= Missed(db, es, f, pass, firstId)
    decreases |es|
  {
    if es != [] {
      PassStays(db, es[0].op, f, pass, firstId);
      TakenPositive(db, es[0].op, f, pass, firstId, blockSize);
      MissedPositive(Apply(db, es[0].op), es[1..], f, pass, firstId, blockSize);
    }
  }

  /** A file of two bytes, just re-chunked into blocks of one, under the lease with token 0. */
  const TWO: Db :=
    Db(map[0 := FileRow(2, Downloading, Some(Rows.Lease(0, LEASE_DURATION)), None, 0, 0, None)],
       map[0 := NewRow(0, Block(0, 0, 1)), 1 := NewRow(0, Block(1, 1, 1))], 1)

  /** Another process claims and completes the first block. */
  const ELSEWHERE: seq<Event> := [Event(Op.Claim(0, 0), false), Event(Op.Complete(0, Some(1)), false)]

  /** One block is left, and two connections are granted for it. */
  lemma MissedCompletionBreaksBound()
    ensures var pass := [Block(0, 0, 1), Block(1, 1, 1)];
            && LegalPass(TWO, ELSEWHERE, 0) && UnfinishedBlocks(RunOf(TWO, ELSEWHERE), pass, 0) == 1
            && UsableConns(ActiveFile(0, 1, CountedRun(TWO, ELSEWHERE, 0, Lengths(pass)), 0), 2) == 2
  {
    var pass := [Block(0, 0, 1), Block(1, 1, 1)];
    var claim, complete := ELSEWHERE[0], ELSEWHERE[1];
    var db1 := Apply(TWO, claim.op);
    var db2 := Apply(db1, complete.op);
    assert ELSEWHERE[1..] == [complete] && [complete][1..] == [];
    assert OwnsBlock(db1, 0, Some(1));
    assert RunOf(TWO, ELSEWHERE) == RunOf(db1, [complete]) == RunOf(db2, []) == db2;
    assert CountedRun(TWO, ELSEWHERE, 0, 2) == CountedRun(db1, [complete], 0, 2) == CountedRun(db2, [], 0, 2) == 2;
    assert LegalPass(db1, [complete], 0);
    assert pass[1..] == [Block(1, 1, 1)] && pass[1..][1..] == [];
    assert Finished(db2, 0) && !Finished(db2, 1);
    assert UnfinishedBlocks(db2, pass[1..], 1) == 1;
    assert Lengths(pass) == 1 + Lengths(pass[1..]) == 2;
  }
}
