/** What the recovery transaction of pkg/store/recover.go achieves, and why its order matters. */
module Recovery {
  import opened Base
  import opened Rows
  import opened Fencing

  /** The four sweeps in order come to one decision per row, taken on the rows as found. */
  lemma RecoverIsPointwise(db: Db, now: int)
    ensures Recover(db, now) == Recovered(db, now)
  {
    RecoverUnfold(db, now);
    var r, p := Recover(db, now), Recovered(db, now);
    assert r.files.Keys == p.files.Keys;
    forall id | id in db.files ensures r.files[id] == p.files[id] {}
    assert r.files == p.files;
    assert r.blocks == p.blocks;
  }

  /** A lease whose end is `now` or before. */
  predicate Over(lease: Option<Rows.Lease>, now: int) {
    lease.Some? && lease.value.until <= now
  }

  /**
   A file row changes exactly when it is downloading, salvaging or verifying under a lease that is
   over: then it goes back one stage, without the lease and otherwise as it was.
   */
  lemma FileRecoveredIff(db: Db, now: int, id: int)
    requires id in db.files
    ensures id in Recover(db, now).files
    ensures var f, f' := db.files[id], Recover(db, now).files[id];
            && (f' != f <==> f.status in {Downloading, Salvaging, Verifying} && Over(f.lease, now))
            && (f' != f ==> f' == f.(status := if f.status == Verifying then Downloaded else Queued, lease := None))
  {
    RecoverIsPointwise(db, now);
  }

  /**
   A block row changes exactly when it is active and its own lease is over or that of its
   downloading file is: then it is pending and free at once.
   */
  lemma BlockRecoveredIff(db: Db, now: int, b: int)
    requires b in db.blocks
    ensures b in Recover(db, now).blocks
    ensures var row, row' := db.blocks[b], Recover(db, now).blocks[b];
            && (row' != row <==>
                  && row.status == Active
                  && (|| Over(row.lease, now)
                      || (&& row.fileId in db.files && db.files[row.fileId].status == Downloading
                          && Over(db.files[row.fileId].lease, now))))
            && (row' != row ==> row' == row.(status := Pending, lease := None, availableAt := None))
  {
    RecoverIsPointwise(db, now);
  }

  /** Complete: every lease left runs past `now`. */
  lemma RecoverComplete(db: Db, now: int)
    requires Inv(db)
    ensures var r := Recover(db, now);
            && (forall id | id in r.files && r.files[id].lease.Some? :: now < r.files[id].lease.value.until)
            && (forall b | b in r.blocks && r.blocks[b].lease.Some? :: now < r.blocks[b].lease.value.until)
  {
    var r := Recover(db, now);
    RecoverIsPointwise(db, now);
    forall id | id in r.files && r.files[id].lease.Some? ensures now < r.files[id].lease.value.until {
      FileRecoveredIff(db, now, id);
      assert FileOk(db.files[id], db.nextToken);
    }
    forall b | b in r.blocks && r.blocks[b].lease.Some? ensures now < r.blocks[b].lease.value.until {
      BlockRecoveredIff(db, now, b);
      assert BlockOk(db.blocks[b], db.files.Keys, db.nextToken);
    }
  }

  /** A file sent back to the queue takes all its active blocks with it, due or not. */
  lemma RequeuedFileHasNoActiveBlock(db: Db, now: int, id: int)
    requires id in db.files && db.files[id].status == Downloading
    requires Recover(db, now).files[id].status == Queued
    ensures forall b | b in Recover(db, now).blocks ::
              Recover(db, now).blocks[b].fileId == id ==> Recover(db, now).blocks[b].status != Active
  {
  }

  /** A live lease is never disturbed; a block also needs its downloading file's lease live. */
  lemma LiveLeasesUntouched(db: Db, now: int)
    ensures forall id | id in db.files && !Over(db.files[id].lease, now) ::
              id in Recover(db, now).files && Recover(db, now).files[id] == db.files[id]
    ensures forall b | b in db.blocks && (db.blocks[b].status == Active ==>
                         && !Over(db.blocks[b].lease, now)
                         && !(&& db.blocks[b].fileId in db.files && db.files[db.blocks[b].fileId].status == Downloading
                              && Over(db.files[db.blocks[b].fileId].lease, now))) ::
              b in Recover(db, now).blocks && Recover(db, now).blocks[b] == db.blocks[b]
  {
    forall id | id in db.files ensures id in Recover(db, now).files {
      FileRecoveredIff(db, now, id);
    }
    forall b | b in db.blocks ensures b in Recover(db, now).blocks {
      BlockRecoveredIff(db, now, b);
    }
  }

  lemma NothingDue(db: Db, now: int)
    requires forall id | id in db.files :: !Expired(db.files[id].lease, now)
    requires forall b | b in db.blocks :: !Expired(db.blocks[b].lease, now)
    ensures Recovered(db, now) == db
  {
    forall id | id in db.files ensures Requeued(db.files[id], now) == db.files[id] {}
    forall b | b in db.blocks ensures !BlockExpires(db, db.blocks[b], now) {}
    var r := Recovered(db, now);
    assert r.files == db.files;
    assert r.blocks == db.blocks;
  }

  lemma RecoverIdempotent(db: Db, now: int)
    requires Inv(db)
    ensures Recover(Recover(db, now), now) == Recover(db, now)
  {
    var r := Recover(db, now);
    RecoverComplete(db, now);
    RecoverIsPointwise(r, now);
    NothingDue(r, now);
  }

  /**
   The block sweep has to come first. Sweeping files first, a block whose own lease is still
   live stays active under a file that is already back in the queue.
   */
  lemma FileSweepFirstStrandsABlock()
    ensures exists db: Db, now, id, b ::
              && Inv(db) && b in db.blocks && id in db.files
              && var r := Sweeps(db, [FileSweep(Downloading, Queued), BlockSweep], now);
                 && b in r.blocks && r.blocks[b].status == Active && r.blocks[b].fileId == id
                 && id in r.files && r.files[id].status == Queued
  {
    var f := FileRow(1, Downloading, Some(Rows.Lease(0, 5)), None, 0, 0, None);
    var b := BlockRow(7, 0, 0, 1, Active, Some(Rows.Lease(1, 50)), None, 0);
    var db := Db(map[7 := f], map[9 := b], 2);
    var d1 := ApplySweep(db, FileSweep(Downloading, Queued), 10);
    var d2 := ApplySweep(d1, BlockSweep, 10);
    var order := [FileSweep(Downloading, Queued), BlockSweep];
    assert order[1..] == [BlockSweep] && [BlockSweep][1..] == [];
    assert Sweeps(db, order, 10) == Sweeps(d1, [BlockSweep], 10) == d2;
    assert Inv(db) && 9 in db.blocks && 7 in db.files;
    assert d2.blocks[9].status == Active && d2.files[7].status == Queued;
  }
}
