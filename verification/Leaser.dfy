/**
 The block leaser of one file (pkg/sched/leaser.go): it remembers the tokens of the blocks it
 leased, turns the last completion into the downloading to downloaded transition, and gives the
 file up after too many retries of one block.
 */
module Leaser {
  import opened Base
  import opened Rows
  import opened Fencing
  import S = Store

  const MAX_BLOCK_RETRIES: nat := 8
  const MAX_LEASE_WAIT: int := 5_000 // milliseconds
  const LEASE_REPOLL: int := 20

  datatype Polled =
    | Leased(bid: int, offset: int, length: int)
    | NothingPending                 // the file has no pending block at all
    | Wait(duration: int)    // pending blocks exist; poll again after this long
    | GaveUp

  predicate PendingOf(db: Db, f: int, b: int) {
    b in db.blocks && db.blocks[b].fileId == f && db.blocks[b].status == Pending
  }

  predicate EligibleOf(db: Db, f: int, b: int, now: int) {
    PendingOf(db, f, b) && Claimable(db, b) && Available(db.blocks[b], now)
  }

  /** The earliest backoff among pending rows, rows without one ignored. */
  function Backoffs(db: Db, f: int): set<int> {
    set b | b in db.blocks && PendingOf(db, f, b) && db.blocks[b].availableAt.Some? :: db.blocks[b].availableAt.value
  }

  /** The tables after a completion: the block done and, if it was the last, the file downloaded. */
  function Completed(db: Db, f: int, fileTok: nat, bid: int, tok: Option<nat>, now: int): (Db, Result<(), StoreError>) {
    var (db1, r) := CompleteBlock(db, bid, tok);
    if r.Err? then (db1, Err(r.error))
    else if !r.value then (db1, Ok(()))
    else
      var (db2, t) := TransitionFile(db1, f, Some(fileTok), Downloading, Downloaded, now);
      (db2, if t.Err? && t.error != Fenced then t else Ok(()))
  }

  /** The tables after a requeue: the block pending again and, at the retry bound, the file in error. */
  function HandedBack(db: Db, f: int, fileTok: nat, bid: int, tok: Option<nat>, availableAt: int, now: int): Db {
    var (db1, r) := RequeueBlock(db, bid, tok, availableAt);
    if r.Ok? && r.value >= MAX_BLOCK_RETRIES then TransitionFile(db1, f, Some(fileTok), Downloading, FileError, now).0
    else db1
  }

  /** Completing a block of its own file never meets the transition's two guards: the file is done. */
  lemma LastCompletionFinishes(db: Db, f: int, fileTok: nat, bid: int, tok: Option<nat>, now: int)
    requires OwnsBlock(db, bid, tok) && db.blocks[bid].fileId == f
    ensures var (db', r) := Completed(db, f, fileTok, bid, tok, now);
            && r == Ok(()) && bid in db'.blocks && db'.blocks[bid].status == Done
            && (OwnsFile(db, f, Downloading, Some(fileTok)) ==>
                  && f in db'.files
                  && (db'.files[f].status == Downloaded <==> !HasUnfinishedBlock(db', f)))
  {
  }

  /** The file is the run's and all its blocks are done. */
  predicate AllDone(db: Db, f: int, tok: nat) {
    OwnsFile(db, f, Downloading, Some(tok)) && !HasUnfinishedBlock(db, f)
  }

  /** Nothing but a re-chunk by the owner gives a file it still owns a block to finish. */
  lemma StaysDone(db: Db, op: Op, f: int, tok: nat)
    requires AllDone(db, f, tok) && Legal(db, op) && !(op.Rechunk? && op.id == f && op.tok == Some(tok))
    requires OwnsFile(Apply(db, op), f, Downloading, Some(tok))
    ensures !HasUnfinishedBlock(Apply(db, op), f)
  {
    var db' := Apply(db, op);
    forall b | b in db'.blocks && db'.blocks[b].fileId == f ensures db'.blocks[b].status == Done {
      DoneRow(db, op, f, tok, b);
    }
  }

  lemma DoneRow(db: Db, op: Op, f: int, tok: nat, b: int)
    requires AllDone(db, f, tok) && Legal(db, op) && !(op.Rechunk? && op.id == f && op.tok == Some(tok))
    requires OwnsFile(Apply(db, op), f, Downloading, Some(tok))
    requires b in Apply(db, op).blocks && Apply(db, op).blocks[b].fileId == f
    ensures Apply(db, op).blocks[b].status == Done
  {
    if op.Sweep? {
      RecoverUnfold(db, op.now);
    } else if op.Rechunk? {
      RechunkedRow(db, op, b);
    }
  }

  /**
   Between the last completion and the transition anything may happen. As long as the run itself
   does not re-chunk, the transition then succeeds or is fenced; its block checks never refuse it.
   */
  lemma {:induction false} GuardsNeverRefuse(db: Db, ops: seq<Op>, f: int, tok: nat, now: int)
    requires Inv(db) && Exclusive(db) && AllDone(db, f, tok) && LegalRun(db, ops)
    requires forall i | 0 <= i < |ops| :: !(ops[i].Rechunk? && ops[i].id == f && ops[i].tok == Some(tok))
    ensures var r := TransitionFile(Run(db, ops), f, Some(tok), Downloading, Downloaded, now).1;
            r == Ok(()) || r == Err(Fenced)
    decreases |ops|
  {
    if ops != [] {
      var op := ops[0];
      if OwnsFile(Apply(db, op), f, Downloading, Some(tok)) {
        StaysDone(db, op, f, tok);
        InvKept(db, op);
        ExclusiveKept(db, op);
        GuardsNeverRefuse(Apply(db, op), ops[1..], f, tok, now);
      } else {
        LostForGood(db, op, ops[1..], f, tok);
      }
    }
  }

  /** A run that has lost its file never owns it again. */
  lemma LostForGood(db: Db, op: Op, later: seq<Op>, f: int, tok: nat)
    requires Inv(db) && Exclusive(db) && Legal(db, op) && LegalRun(Apply(db, op), later)
    requires OwnsFile(db, f, Downloading, Some(tok)) && !OwnsFile(Apply(db, op), f, Downloading, Some(tok))
    ensures !OwnsFile(Run(Apply(db, op), later), f, Downloading, Some(tok))
  {
    var r := FileRef(f);
    StatusWithToken(db, op, f, tok);
    LosingTheRowKillsTheToken(db, op, r, tok);
    DeadForever(Apply(db, op), later, tok);
    assert !Holds(Run(Apply(db, op), later), r, tok);
  }

  /** A block is handed back seven times; the eighth puts the file in error. */
  lemma GivesUpAtBound(db: Db, f: int, fileTok: nat, bid: int, tok: Option<nat>, availableAt: int, now: int)
    requires OwnsBlock(db, bid, tok) && db.blocks[bid].fileId == f && OwnsFile(db, f, Downloading, Some(fileTok))
    ensures var db' := HandedBack(db, f, fileTok, bid, tok, availableAt, now);
            && PendingOf(db', f, bid) && db'.blocks[bid].retries == db.blocks[bid].retries + 1
            && f in db'.files
            && (db'.files[f].status == FileError <==> db.blocks[bid].retries + 1 >= MAX_BLOCK_RETRIES)
            && (db'.files[f].status == Downloading <==> db.blocks[bid].retries + 1 < MAX_BLOCK_RETRIES)
  {
  }

  class BlockLeaser {
    const store: S.Store
    const fileId: int
    const fileTok: nat
    var tokens: map<int, nat>
    var gaveUp: bool

    constructor (store: S.Store, fileId: int, fileTok: nat)
      ensures this.store == store && this.fileId == fileId && this.fileTok == fileTok && tokens == map[] && !gaveUp
    {
      this.store, this.fileId, this.fileTok := store, fileId, fileTok;
      tokens, gaveUp := map[], false;
    }

    method Pop(bid: int) returns (tok: Option<nat>)
      modifies this`tokens
      ensures tok == (if bid in old(tokens) then Some(old(tokens)[bid]) else None) && tokens == old(tokens) - {bid}
    {
      tok := if bid in tokens then Some(tokens[bid]) else None;
      tokens := tokens - {bid};
    }

    /**
     One poll. A block is leased exactly when one is eligible, and it is the lowest-numbered
     one; no work means no pending block at all, never a block in backoff.
     */
    method Poll(now: int) returns (r: Polled)
      modifies this`tokens, store
      ensures r.GaveUp? <==> gaveUp
      ensures r.Leased? ==>
                && EligibleOf(old(store.Tables()), fileId, r.bid, now)
                && (forall b | EligibleOf(old(store.Tables()), fileId, b, now) ::
                      old(store.Tables()).blocks[r.bid].idx <= old(store.Tables()).blocks[b].idx)
                && store.Tables() == ClaimBlock(old(store.Tables()), r.bid, now).0
                && r.offset == store.blocks[r.bid].offset && r.length == store.blocks[r.bid].length
                && tokens == old(tokens)[r.bid := old(store.nextToken)]
                && OwnsBlock(store.Tables(), r.bid, Some(tokens[r.bid]))
      ensures !r.Leased? ==> store.Tables() == old(store.Tables()) && tokens == old(tokens)
      ensures r.NothingPending? || r.Wait? ==> forall b :: !EligibleOf(store.Tables(), fileId, b, now)
      ensures r.NothingPending? ==> forall b :: !PendingOf(store.Tables(), fileId, b)
      ensures r.Wait? ==> 0 <= r.duration <= MAX_LEASE_WAIT && exists b :: PendingOf(store.Tables(), fileId, b)
    {
      if gaveUp {
        return GaveUp;
      }
      ghost var db := store.Tables();
      var leased, cands := store.LeaseBlocks(1, {fileId}, map[], now);
      OneCandidate(db, cands, fileId, now, leased);
      if |leased| > 0 {
        var b := leased[0].id;
        tokens := tokens[b := leased[0].token];
        return Leased(b, store.blocks[b].offset, store.blocks[b].length);
      }
      if !(exists b | b in store.blocks :: PendingOf(store.Tables(), fileId, b)) {
        return NothingPending;
      }
      var d := NextPoll(now);
      return Wait(d);
    }

    /** How long to wait: until the earliest backoff ends, capped; briefly when none is set. */
    method NextPoll(now: int) returns (d: int)
      ensures 0 <= d <= MAX_LEASE_WAIT
      ensures var at := Backoffs(store.Tables(), fileId);
              if exists t :: t in at then
                exists earliest | earliest in at ::
                  (forall t | t in at :: earliest <= t) && d == Min(MAX_LEASE_WAIT, Max(earliest - now, 0))
              else d == LEASE_REPOLL
    {
      var at := Backoffs(store.Tables(), fileId);
      if !(exists t :: t in at) {
        return LEASE_REPOLL;
      }
      var earliest := Oldest(at);
      d := MAX_LEASE_WAIT;
      if earliest - now < d { d := Max(earliest - now, 0); }
      assert earliest in at && d == Min(MAX_LEASE_WAIT, Max(earliest - now, 0));
    }

    method Complete(bid: int, now: int) returns (r: Result<(), StoreError>)
      modifies this`tokens, store
      ensures tokens == old(tokens) - {bid}
      ensures var tok := if bid in old(tokens) then Some(old(tokens)[bid]) else None;
              (store.Tables(), r) == Completed(old(store.Tables()), fileId, fileTok, bid, tok, now)
    {
      var tok := Pop(bid);
      var done := store.CompleteBlock(bid, tok);
      if done.Err? {
        return Err(done.error);
      }
      if !done.value {
        return Ok(());
      }
      var t := store.TransitionFile(fileId, Some(fileTok), Downloading, Downloaded, now);
      if t.Err? && t.error != Fenced {
        return t;
      }
      return Ok(());
    }

    method Requeue(bid: int, backoff: int, now: int) returns (failed: bool)
      modifies this`tokens, this`gaveUp, store
      ensures tokens == old(tokens) - {bid}
      ensures var tok := if bid in old(tokens) then Some(old(tokens)[bid]) else None;
              && store.Tables() == HandedBack(old(store.Tables()), fileId, fileTok, bid, tok, now + backoff, now)
              && (gaveUp <==> old(gaveUp) || (OwnsBlock(old(store.Tables()), bid, tok)
                                              && old(store.blocks)[bid].retries + 1 >= MAX_BLOCK_RETRIES))
              && (failed <==> !OwnsBlock(old(store.Tables()), bid, tok)
                              || old(store.blocks)[bid].retries + 1 >= MAX_BLOCK_RETRIES)
    {
      var tok := Pop(bid);
      var r := store.RequeueBlock(bid, tok, now + backoff);
      if r.Err? {
        return true;
      }
      if r.value < MAX_BLOCK_RETRIES {
        return false;
      }
      gaveUp := true;
      var t := store.TransitionFile(fileId, Some(fileTok), Downloading, FileError, now);
      return true;
    }
  }

  /** With room for one and no caps, the batch claim takes the first candidate. */
  lemma OneCandidate(db: Db, cands: seq<S.Cand>, f: int, now: int, leased: seq<S.LeasedBlock>)
    requires S.Selection(cands, db, {f}, now) && S.Matches(leased, S.Pick(cands, 1, map[], map[]), db.nextToken)
    ensures |leased| == 0 || |leased| == 1
    ensures |leased| == 0 ==> S.ClaimAll(db, S.Pick(cands, 1, map[], map[]), now) == db
                              && forall b :: !EligibleOf(db, f, b, now)
    ensures |leased| == 1 ==>
              && EligibleOf(db, f, leased[0].id, now) && leased[0].token == db.nextToken
              && S.ClaimAll(db, S.Pick(cands, 1, map[], map[]), now) == ClaimBlock(db, leased[0].id, now).0
              && (forall b | EligibleOf(db, f, b, now) :: db.blocks[leased[0].id].idx <= db.blocks[b].idx)
  {
    forall b | EligibleOf(db, f, b, now) ensures S.Cand(b, f, db.blocks[b].idx) in cands {
      assert S.Cand(b, db.blocks[b].fileId, db.blocks[b].idx) in S.Eligible(db, {f}, now);
    }
    if cands != [] {
      assert cands[0] in S.Eligible(db, {f}, now);
      assert S.Pick(cands, 1, map[], map[]) == [cands[0]];
      assert [cands[0]][1..] == [];
      forall b | EligibleOf(db, f, b, now) ensures cands[0].idx <= db.blocks[b].idx {
        var i :| 0 <= i < |cands| && cands[i] == S.Cand(b, f, db.blocks[b].idx);
      }
    }
  }
}
