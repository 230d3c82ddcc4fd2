/**
 A publication cut short: the verifier has unlinked the staging file, and the process dies before
 the row is marked cached. The row waits for the next verifier, which opens the staging file by its
 name, so creates it anew, fills it with zeros and checks the hash of those. Whether a file that was
 verified is then sent back, to the queue or into error, is decided by what its listing expects.
 */
module CutShort {
  import opened Base
  import opened Chunking
  import opened Serde
  import opened Rows
  import opened Fencing
  import opened Resume
  import opened ResumeInv
  import opened ResumeProof
  import opened ResumeTheorems
  import opened ForcedRedownload

  /** Unlinked, not created again, and not marked cached: the row waits for a verifier. */
  predicate Interrupted(s: Sys, f: int) {
    && f in s.gone && At(s.page, f) == {}
    && f in s.db.files && s.db.files[f].cachePath.None? && AtVerifier(s.db.files[f].status)
  }

  /** Taken from the verifier without a cache path. */
  predicate SentBack(db: Db, f: int) {
    f in db.files && db.files[f].cachePath.None? && !AtVerifier(db.files[f].status)
  }

  /** A run in which f is not listed anew and nothing but a verifier's zeros gets into its staging file. */
  predicate Undisturbed(s: Sys, steps: seq<Step>, f: int)
    decreases |steps|
  {
    At(s.page, f) == {}
    && (steps != [] ==>
          !(steps[0].Listed? && steps[0].fid == f) && Undisturbed(Next(s, steps[0]), steps[1..], f))
  }

  /** An undisturbed run at whose end f has been taken from its verifier without a cache path. */
  predicate LosesFile(s: Sys, steps: seq<Step>, f: int) { Undisturbed(s, steps, f) && SentBack(Steps(s, steps).db, f) }

  // ---------------------------------------------------------------- zeros expected: never sent back

  /** Published, or waiting for a verifier that will find what it expects. */
  predicate Kept(s: Sys, f: int) {
    f in s.db.files && (s.db.files[f].cachePath.Some? || (AtVerifier(s.db.files[f].status) && Blank(s, f)))
  }

  lemma BlankStays(s: Sys, step: Step, s': Sys, f: int)
    requires s' == Next(s, step) && f in s.blank && !(step.Listed? && step.fid == f)
    ensures f in s'.blank
  {
    if RunningStep(step) {
      RunFrame(s, step, s');
    } else if OpeningStep(step) {
      OpenFrame(s, step, s');
    }
  }

  lemma NextKept(s: Sys, step: Step, f: int)
    requires Kept(s, f) && At(s.page, f) == {} && !(step.Listed? && step.fid == f)
    ensures Kept(Next(s, step), f)
  {
    StepCalls(s, step);
    CallIsLegal(s, step, CallOf(s, step));
    if f in s.blank { BlankStays(s, step, Next(s, step), f); }
    if Blank(s, f) { RejectsElsewhere(s, step, CallOf(s, step), f); }
    RowKept(s, Next(s, step), CallOf(s, step), f);
  }

  /** Zeros where zeros are expected are not rejected. */
  lemma RejectsElsewhere(s: Sys, step: Step, call: Option<Op>, f: int)
    requires MatchesBlank(s, f) && call == CallOf(s, step)
    ensures call.Some? && call.value.RejectVerify? ==> call.value.id != f
  {
  }

  lemma RowKept(s: Sys, s': Sys, call: Option<Op>, f: int)
    requires Kept(s, f) && s'.db == After(s.db, call) && (call.Some? ==> Legal(s.db, call.value))
    requires f in s.blank ==> f in s'.blank
    requires Blank(s, f) && call.Some? && call.value.RejectVerify? ==> call.value.id != f
    ensures Kept(s', f)
  {
    if call.Some? {
      FileStays(s.db, call.value, f);
      if call.value.RejectVerify? {
        RejectedRow(s.db, call.value.id, call.value.tok, f);
      } else {
        WaitingRow(s.db, call.value, f);
      }
    }
  }

  lemma {:induction false} StepsKept(s: Sys, steps: seq<Step>, f: int)
    requires Kept(s, f) && Undisturbed(s, steps, f)
    ensures Kept(Steps(s, steps), f)
    decreases |steps|
  {
    if steps != [] {
      NextKept(s, steps[0], f);
      StepsKept(Next(s, steps[0]), steps[1..], f);
    }
  }

  // ---------------------------------------------------------------- anything else expected: sent back

  function Claim(): Step { Call(Op.ClaimVerify(0)) }

  /** Nothing about f changes but its status and lease. */
  predicate OnlyLeased(s: Sys, s': Sys, f: int)
    requires f in s.db.files
  {
    && s'.page == s.page && s'.gone == s.gone && s'.blank == s.blank && f in s'.db.files
    && s'.db.files[f] == s.db.files[f].(status := s'.db.files[f].status, lease := s'.db.files[f].lease)
  }

  lemma ClaimsOldest(s: Sys, f: int)
    requires StatusIs(s.db, f, Downloaded)
    ensures var s' := Next(s, Claim());
            && OnlyLeased(s, s', f)
            && (OwnsFile(s'.db, f, Verifying, Some(s.db.nextToken))
                || (StatusIs(s'.db, f, Downloaded) && WithStatus(s'.db, Downloaded) < WithStatus(s.db, Downloaded)))
  {
    assert f in WithStatus(s.db, Downloaded);
  }

  /** Verifiers come and claim, the oldest file first, until one has f. */
  lemma {:induction false} ClaimedAtLast(s: Sys, f: int) returns (steps: seq<Step>, tok: nat)
    requires StatusIs(s.db, f, Downloaded) && At(s.page, f) == {}
    ensures Undisturbed(s, steps, f) && OnlyLeased(s, Steps(s, steps), f)
    ensures OwnsFile(Steps(s, steps).db, f, Verifying, Some(tok))
    decreases WithStatus(s.db, Downloaded)
  {
    ClaimsOldest(s, f);
    var s1 := Next(s, Claim());
    if OwnsFile(s1.db, f, Verifying, Some(s.db.nextToken)) {
      steps, tok := [Claim()], s.db.nextToken;
    } else {
      var rest;
      rest, tok := ClaimedAtLast(s1, f);
      steps := [Claim()] + rest;
      OneStep(s, Claim(), rest);
      assert steps[1..] == rest;
    }
  }

  /** The verifier opens the staging file anew and finds zeros it does not expect. */
  lemma RejectsZeros(s: Sys, f: int, tok: nat)
    requires OwnsFile(s.db, f, Verifying, Some(tok)) && At(s.page, f) == {} && !Blank(s, f)
    ensures var s' := RejectFile(s.(gone := s.gone - {f}), f, tok);
            && At(s'.page, f) == {} && f in s'.db.files && s'.db.files[f].cachePath == s.db.files[f].cachePath
            && s'.db.files[f].status == (if s.db.files[f].verifyFails + 1 >= MAX_VERIFY_FAILS then FileError
              else Queued)
  {
  }

  lemma SendsBack(s: Sys, f: int, tok: nat)
    requires OwnsFile(s.db, f, Verifying, Some(tok)) && At(s.page, f) == {} && !Blank(s, f)
    requires s.db.files[f].cachePath.None?
    ensures Undisturbed(s, [VerifyOpen(f), VerifyFails(f, tok)], f)
    ensures SentBack(Steps(s, [VerifyOpen(f), VerifyFails(f, tok)]).db, f)
  {
    var s1 := s.(gone := s.gone - {f});
    var s2 := RejectFile(s1, f, tok);
    RejectsZeros(s, f, tok);
    Opens(s, f);
    Fails(s1, f, tok);
    var reject := [VerifyFails(f, tok)];
    assert [VerifyOpen(f), VerifyFails(f, tok)] == [VerifyOpen(f)] + reject && reject == reject + [];
    StepTo(s, VerifyOpen(f), s1, reject);
    StepTo(s1, VerifyFails(f, tok), s2, []);
    assert Undisturbed(s2, [], f) && reject[1..] == [];
    assert Undisturbed(s1, reject, f);
    assert [VerifyOpen(f), VerifyFails(f, tok)][1..] == reject;
  }

  lemma Opens(s: Sys, f: int)
    ensures Next(s, VerifyOpen(f)) == s.(gone := s.gone - {f})
  {
  }

  lemma Fails(s: Sys, f: int, tok: nat)
    ensures Next(s, VerifyFails(f, tok)) == RejectFile(s, f, tok)
  {
  }

  lemma {:induction false} UndisturbedConcat(s: Sys, a: seq<Step>, b: seq<Step>, f: int)
    requires Undisturbed(s, a, f) && Undisturbed(Steps(s, a), b, f)
    ensures Undisturbed(s, a + b, f)
    decreases |a|
  {
    if a == [] {
      assert a + b == b;
    } else {
      assert (a + b)[1..] == a[1..] + b;
      UndisturbedConcat(Next(s, a[0]), a[1..], b, f);
    }
  }

  lemma UnexpectedIsSentBack(s: Sys, f: int) returns (steps: seq<Step>)
    requires Interrupted(s, f) && Inv(s.db) && !Blank(s, f)
    ensures LosesFile(s, steps, f)
  {
    var first, tok := [], 0;
    if StatusIs(s.db, f, Downloaded) {
      first, tok := ClaimedAtLast(s, f);
    } else {
      assert FileOk(s.db.files[f], s.db.nextToken);
      tok := s.db.files[f].lease.value.token;
    }
    var s1 := Steps(s, first);
    SendsBack(s1, f, tok);
    steps := first + [VerifyOpen(f), VerifyFails(f, tok)];
    StepsConcat(s, first, [VerifyOpen(f), VerifyFails(f, tok)]);
    UndisturbedConcat(s, first, [VerifyOpen(f), VerifyFails(f, tok)], f);
  }

  /**
   The exact condition. In any reachable state with a publication of f cut short, some undisturbed run
   takes f from its verifier without a cache path if and only if the hash listed for f is not that of
   as many zero bytes as the file is long.
   */
  lemma SentBackIffNotBlank(steps: seq<Step>, f: int)
    requires Interrupted(Steps(START, steps), f)
    ensures var s := Steps(START, steps);
            (exists more :: LosesFile(s, more, f)) <==> !Blank(s, f)
  {
    var s := Steps(START, steps);
    ReachableInv(steps);
    if !Blank(s, f) {
      var more := UnexpectedIsSentBack(s, f);
      assert LosesFile(s, more, f);
    } else {
      forall more ensures !LosesFile(s, more, f) {
        if LosesFile(s, more, f) { StepsKept(s, more, f); }
      }
    }
  }

  // ---------------------------------------------------------------- a run from nothing

  /** The row of the only file, with no cache path. */
  function Only(size: nat, status: FileStatus, lease: Option<Lease>, blob: Option<seq<Byte>>, fails: nat): FileRow {
    FileRow(size, status, lease, blob, 0, fails, None)
  }

  predicate Alone(s: Sys, row: FileRow, n: nat) {
    s.db.files == map[0 := row] && s.db.blocks == map[] && s.db.nextToken == n && 0 !in s.blank
  }

  /** The lease every claim at time zero gets. */
  function Until(tok: nat): Option<Lease> { Some(Rows.Lease(tok, LEASE_DURATION)) }

  lemma ListedAlone(size: nat)
    requires size <= MAX_INT64
    ensures Alone(Next(START, Call(Op.Insert(0, size))), Only(size, Queued, None, None, 0), 0)
  {
  }

  lemma Salvageable(s: Sys, size: nat, fails: nat, n: nat)
    requires Alone(s, Only(size, Queued, None, None, fails), n)
    ensures Alone(Next(s, Call(Op.StartSalvage(0))), Only(size, Salvaging, None, None, fails), n)
  {
  }

  lemma SalvageClaimed(s: Sys, size: nat, fails: nat, n: nat)
    requires Alone(s, Only(size, Salvaging, None, None, fails), n)
    ensures var s' := Next(s, SalvageStart(0));
            && Alone(s', Only(size, Salvaging, Until(n), None, fails), n + 1)
            && n in s'.salvages && s'.salvages[n] == Salvage(0, size, None, {}, false)
  {
    assert 0 in SalvageCandidates(s.db, 0);
  }

  lemma SalvageOpened(s: Sys, row: FileRow, size: nat, n: nat)
    requires Alone(s, row, n + 1) && n in s.salvages && s.salvages[n] == Salvage(0, size, None, {}, false)
    ensures var s' := Next(s, SalvageOpen(n));
            && Alone(s', row, n + 1) && n in s'.salvages
            && s'.salvages[n] == Salvage(0, size, Some(Inode(s', 0)), {}, false)
  {
  }

  lemma SalvageCopied(s: Sys, row: FileRow, size: nat, n: nat)
    requires Alone(s, row, n + 1) && n in s.salvages
    requires s.salvages[n] == Salvage(0, size, Some(Inode(s, 0)), {}, false)
    ensures var s' := Next(s, SalvageCopy(n, 0, size));
            && Alone(s', row, n + 1) && n in s'.salvages
            && s'.salvages[n] == Salvage(0, size, Some(Inode(s', 0)), Range(0, size), false)
  {
    assert {} + Range(0, size) == Range(0, size);
  }

  lemma SalvageSynced(s: Sys, row: FileRow, size: nat, n: nat)
    requires Alone(s, row, n + 1) && n in s.salvages
    requires s.salvages[n] == Salvage(0, size, Some(Inode(s, 0)), Range(0, size), false)
    ensures var s' := Next(s, SalvageSync(n));
            && Alone(s', row, n + 1) && 0 !in s'.gone && n in s'.salvages
            && s'.salvages[n] == Salvage(0, size, Some(Inode(s, 0)), Range(0, size), true)
  {
  }

  lemma SalvageSaved(s: Sys, size: nat, fails: nat, n: nat)
    requires Alone(s, Only(size, Salvaging, Until(n), None, fails), n + 1) && 0 !in s.gone && n in s.salvages
    requires s.salvages[n].fid == 0 && s.salvages[n].size == size && s.salvages[n].synced
    ensures var s' := Next(s, SalvageSave(n));
            Alone(s', Only(size, Salvaging, Until(n), Some(FullBlob(size)), fails), n + 1) && 0 !in s'.gone
  {
  }

  lemma SalvageEnded(s: Sys, size: nat, blob: seq<Byte>, fails: nat, n: nat)
    requires Alone(s, Only(size, Salvaging, Until(n), Some(blob), fails), n + 1) && 0 !in s.gone
    ensures var s' := Next(s, Call(Op.Transition(0, Some(n), Salvaging, Downloaded, 0)));
            Alone(s', Only(size, Downloaded, None, Some(blob), fails), n + 1) && 0 !in s'.gone
  {
  }

  /** A verifier claims the file. */
  lemma Claimed0(s: Sys, size: nat, blob: seq<Byte>, fails: nat, n: nat)
    requires Alone(s, Only(size, Downloaded, None, Some(blob), fails), n)
    ensures var s' := Next(s, Claim());
            && Alone(s', Only(size, Verifying, Until(n), Some(blob), fails), n + 1)
            && s'.gone == s.gone && s'.page == s.page && s'.blobs == s.blobs
  {
    assert 0 in WithStatus(s.db, Downloaded);
  }

  /** It unlinks the staging file and dies; its lease runs out. */
  lemma Unlinked0(s: Sys, row: FileRow, n: nat, tok: nat)
    requires Alone(s, row, n) && 0 !in s.gone
    ensures var s' := Next(s, Unlink(0, tok));
            Alone(s', row, n) && At(s'.page, 0) == {} && 0 in s'.blobs && 0 in s'.gone
  {
  }

  lemma Expired0(s: Sys, size: nat, blob: seq<Byte>, fails: nat, n: nat)
    requires Alone(s, Only(size, Verifying, Until(n), Some(blob), fails), n + 1)
    ensures var s' := Next(s, Call(Op.Sweep(LEASE_DURATION)));
            && Alone(s', Only(size, Downloaded, None, Some(blob), fails), n + 1)
            && s'.gone == s.gone && s'.page == s.page && s'.blobs == s.blobs
  {
    Recovered0(s.db, size, blob, fails, n);
    LeasesRunOut(s, LEASE_DURATION);
  }

  lemma Recovered0(db: Db, size: nat, blob: seq<Byte>, fails: nat, n: nat)
    requires db == Db(map[0 := Only(size, Verifying, Until(n), Some(blob), fails)], map[], n + 1)
    ensures Recover(db, LEASE_DURATION) == Db(map[0 := Only(size, Downloaded, None, Some(blob), fails)], map[], n + 1)
  {
    RecoverUnfold(db, LEASE_DURATION);
  }

  /** The next verifier finds an empty staging file. */
  lemma Rejected0(s: Sys, size: nat, blob: seq<Byte>, fails: nat, n: nat)
    requires Alone(s, Only(size, Verifying, Until(n), Some(blob), fails), n + 1)
    requires At(s.page, 0) == {} && 0 in s.blobs && fails < 2 && size > 0
    ensures var s' := RejectFile(s.(gone := s.gone - {0}), 0, n);
            && 0 in s'.blobs
            && Alone(s', if fails == 0 then Only(size, Queued, None, None, 1)
                         else Only(size, FileError, None, Some(blob), 2), n + 1)
  {
  }

  /** Salvage the file into the verifier's hands. */
  function SalvageSteps(size: nat, n: nat): seq<Step> {
    [Call(Op.StartSalvage(0)), SalvageStart(0), SalvageOpen(n), SalvageCopy(n, 0, size)]
    + [SalvageSync(n), SalvageSave(n), Call(Op.Transition(0, Some(n), Salvaging, Downloaded, 0)), Claim()]
  }

  lemma Salvaged0(s: Sys, size: nat, fails: nat, n: nat)
    requires Alone(s, Only(size, Queued, None, None, fails), n)
    ensures var s' := Steps(s, SalvageSteps(size, n));
            Alone(s', Only(size, Verifying, Until(n + 1), Some(FullBlob(size)), fails), n + 2) && 0 !in s'.gone
  {
    var first := [Call(Op.StartSalvage(0)), SalvageStart(0), SalvageOpen(n), SalvageCopy(n, 0, size)];
    CopiedIn(s, size, fails, n);
    var s1 := Steps(s, first);
    SavedIn(s1, size, fails, n);
    StepsConcat(s, first,
      [SalvageSync(n), SalvageSave(n), Call(Op.Transition(0, Some(n), Salvaging, Downloaded, 0)), Claim()]);
  }

  lemma CopiedIn(s: Sys, size: nat, fails: nat, n: nat)
    requires Alone(s, Only(size, Queued, None, None, fails), n)
    ensures var s' := Steps(s, [Call(Op.StartSalvage(0)), SalvageStart(0), SalvageOpen(n), SalvageCopy(n, 0, size)]);
            && Alone(s', Only(size, Salvaging, Until(n), None, fails), n + 1) && n in s'.salvages
            && s'.salvages[n] == Salvage(0, size, Some(Inode(s', 0)), Range(0, size), false)
  {
    FourSteps(s, Call(Op.StartSalvage(0)), SalvageStart(0), SalvageOpen(n), SalvageCopy(n, 0, size));
    var s1 := Next(s, Call(Op.StartSalvage(0)));
    var s2 := Next(s1, SalvageStart(0));
    var s3 := Next(s2, SalvageOpen(n));
    Salvageable(s, size, fails, n);
    SalvageClaimed(s1, size, fails, n);
    SalvageOpened(s2, Only(size, Salvaging, Until(n), None, fails), size, n);
    SalvageCopied(s3, Only(size, Salvaging, Until(n), None, fails), size, n);
  }

  lemma SavedIn(s: Sys, size: nat, fails: nat, n: nat)
    requires Alone(s, Only(size, Salvaging, Until(n), None, fails), n + 1) && n in s.salvages
    requires s.salvages[n] == Salvage(0, size, Some(Inode(s, 0)), Range(0, size), false)
    ensures var end := Call(Op.Transition(0, Some(n), Salvaging, Downloaded, 0));
            var s' := Steps(s, [SalvageSync(n), SalvageSave(n), end, Claim()]);
            Alone(s', Only(size, Verifying, Until(n + 1), Some(FullBlob(size)), fails), n + 2) && 0 !in s'.gone
  {
    var end := Call(Op.Transition(0, Some(n), Salvaging, Downloaded, 0));
    FourSteps(s, SalvageSync(n), SalvageSave(n), end, Claim());
    var s1 := Next(s, SalvageSync(n));
    var s2 := Next(s1, SalvageSave(n));
    SalvageSynced(s, Only(size, Salvaging, Until(n), None, fails), size, n);
    SalvageSaved(s1, size, fails, n);
    SalvageEnded(s2, size, FullBlob(size), fails, n);
    Claimed0(Next(s2, end), size, FullBlob(size), fails, n + 1);
  }

  /** The publication is cut short, and the next verifier rejects what it finds. */
  function CutSteps(n: nat): seq<Step> {
    [Unlink(0, n), Call(Op.Sweep(LEASE_DURATION)), Claim(), VerifyOpen(0)] + [VerifyFails(0, n + 1)]
  }

  lemma CutIn(s: Sys, size: nat, blob: seq<Byte>, fails: nat, n: nat)
    requires Alone(s, Only(size, Verifying, Until(n), Some(blob), fails), n + 1) && 0 !in s.gone && fails < 2
    requires size > 0
    ensures var s' := Steps(s, CutSteps(n));
            && 0 in s'.blobs
            && Alone(s', if fails == 0 then Only(size, Queued, None, None, 1)
                         else Only(size, FileError, None, Some(blob), 2), n + 2)
  {
    var first := [Unlink(0, n), Call(Op.Sweep(LEASE_DURATION)), Claim(), VerifyOpen(0)];
    FourSteps(s, Unlink(0, n), Call(Op.Sweep(LEASE_DURATION)), Claim(), VerifyOpen(0));
    var s1 := Next(s, Unlink(0, n));
    var s2 := Next(s1, Call(Op.Sweep(LEASE_DURATION)));
    var s3 := Next(s2, Claim());
    Unlinked0(s, Only(size, Verifying, Until(n), Some(blob), fails), n + 1, n);
    Expired0(s1, size, blob, fails, n);
    Claimed0(s2, size, blob, fails, n + 1);
    Opens(s3, 0);
    Rejected0(s3, size, blob, fails, n + 1);
    var s4 := s3.(gone := s3.gone - {0});
    Fails(s4, 0, n + 1);
    StepsConcat(s, first, [VerifyFails(0, n + 1)]);
    assert [VerifyFails(0, n + 1)] == [VerifyFails(0, n + 1)] + [];
    StepTo(s4, VerifyFails(0, n + 1), RejectFile(s4, 0, n + 1), []);
  }

  /**
   A file of any size but zero, whose content was right every time, ends in error after two
   publications cut short, its verified blob in the store all along.
   */
  lemma VerifiedFileEndsInError(size: nat)
    requires 0 < size <= MAX_INT64
    ensures var s := Steps(START, [Call(Op.Insert(0, size))] + (SalvageSteps(size, 0) + CutSteps(1))
                                  + (SalvageSteps(size, 3) + CutSteps(4)));
            StatusIs(s.db, 0, FileError) && s.db.files[0].cachePath.None? && 0 in s.blobs
  {
    var list := Call(Op.Insert(0, size));
    var s1 := Next(START, list);
    ListedAlone(size);
    CutOnce(s1, size, 0, 0);
    var s2 := Steps(s1, SalvageSteps(size, 0) + CutSteps(1));
    CutOnce(s2, size, 1, 3);
    OneStep(START, list, SalvageSteps(size, 0) + CutSteps(1));
    StepsConcat(START, [list] + (SalvageSteps(size, 0) + CutSteps(1)), SalvageSteps(size, 3) + CutSteps(4));
  }

  lemma CutOnce(s: Sys, size: nat, fails: nat, n: nat)
    requires Alone(s, Only(size, Queued, None, None, fails), n) && fails < 2 && size > 0
    ensures var s' := Steps(s, SalvageSteps(size, n) + CutSteps(n + 1));
            && 0 in s'.blobs
            && Alone(s', if fails == 0 then Only(size, Queued, None, None, 1)
                         else Only(size, FileError, None, Some(FullBlob(size)), 2), n + 3)
  {
    Salvaged0(s, size, fails, n);
    CutIn(Steps(s, SalvageSteps(size, n)), size, FullBlob(size), fails, n + 1);
    StepsConcat(s, SalvageSteps(size, n), CutSteps(n + 1));
  }
}
