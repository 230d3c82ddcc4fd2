# hfdl, verified in Dafny

hfdl is a resumable, parallel downloader. This project models the protocols its correctness
rests on and proves what they keep over whole runs:

- **Lease and resume** (`Rows`, `Store`, `Fencing`, `Calls`, `Recovery`, `Leaser`, `Resume*`,
  `Forced*`, `CutShort`, `CanFinish`). `Rows` has one function per SQL statement or transaction over maps of
  rows, with tokens from a counter; `Store` is the same as an object updated in place.
  `Fencing`, `Calls` and `Recovery` speak about every store call and every sequence of them. `Resume` puts the store,
  the staging files (bytes written, bytes stable, the inode behind the name), the blob store,
  any number of live or stale download runs, salvage copies, recovery, publication and crashes
  into one transition system; `ResumeInv` and `ResumeProof` carry its invariant,
  `ResumeTheorems` what follows from it, `ForcedRedownload`, `CutShort` and `ForcedExamples`
  where it ends, and `CanFinish` that no file is ever locked out.
- **Byte progress** (`Intervals`, `Chunking`, `Serde`, `Grammar`, `Checkpoint`, `Stream`). The coalesced
  interval set, the cut of its complement into blocks, the varint blob, the snapshot, fsync,
  persist sequence, and the slab-buffered stream of one block.
- **Connection budget** (`Tune`, `Shares`, `Budget`, `Alloc`, `Workers`, `Usable`). The
  hill-climbing controller, the oldest-first split, the allocator as a state machine over its
  lock sections, the worker set, and the bound between counter and unfinished blocks.
- **Smaller algorithms** (`KillGate`, `TokenBucket`, `DeSparse`, `Xorb`).

The pieces meet where one supplies what another assumes: a run of `Resume` completes a block
only once all of it is recorded, which is what `Stream.StreamBlock` proves of a complete
attempt; its blocks are the cut of `Chunking.ResumePartition`; its records are blobs of
`Serde.RoundTrip`; `Alloc` runs the controller of `Tune` and the split of `Shares`.

Imperative code is a class or method proved equal to a specification function; the laws are
lemmas about that function. Concurrency is a sequence of atomic steps. Times are integer
milliseconds (seconds as reals in `TokenBucket`), rates and tokens are reals. Clocks, rates,
read sizes, write failures, peers and the LZ4 decompressor are parameters.

Five properties are false of the code as it stands; each has a counterexample and an exact
condition:

- "downloaded means every byte is in the staging file" fails after a forced re-download, which
  keeps the record although publication moved the file. A cached or queued file is safe, until
  its staging file is next unlinked, if and only if the record kept in its row is on stable
  storage and, unless the staging file is whole, no run that lost its lease can complete its
  blocks into another one (`ForcedRedownload.SafeIffRecordStable`). For a file nobody works on,
  after publication, that means an empty record (`PublishedSafeIffRecordEmpty`). A partial
  record is enough: the last completion lets the checkpoint after it be fenced away
  (pkg/sched/download.go:378-384), so a downloaded file usually keeps the record of an earlier
  checkpoint. The warm-blob check (pkg/sched/download.go:82-99) hides the failure while the
  blob is in the store (`ForcedRedownload.WarmBlobBlocksDownload`).
- "only genuine mismatches count against a file" (pkg/sched/disk.go:374-379) fails when the
  process dies between unlinking the staging file and marking the row cached. The next verifier
  opens the staging file by name, which creates it (pkg/fcio/file_linux.go:26-33), and rejects
  the zeros it finds, if and only if the listed hash is not that of zeros
  (`CutShort.SentBackIffNotBlank`, `CutShort.VerifiedFileEndsInError`).
- "at most one connection per remaining block" fails when blocks complete without this process's
  counter knowing (`Usable.BoundIffMissedFits`, `MissedCompletionBreaksBound`).
- "committed rises only on a settled, successful probe" fails when the ceiling is lowered
  during a probe (`Tune.UnprovedRise`).
- "at most burst + rate·(t−s)" fails for a bucket created above its burst
  (`TokenBucket.BoundIffStart`).

Where comments and code disagree the code is followed: `tokenlessEdgeAllowed` admits two edges,
not the salvage edges its comment lists; a crash during the single-stream fallback leaves the
old record in the database until the final checkpoint; a start above the burst is trimmed only
once time has passed; `pendingState` reports no backoff only when no pending row has one;
`prefixCovered` may answer more than the length asked about.

## Model

| member | source | states |
|---|---|---|
| `ResumeTheorems.DownloadedMeansWritten` | pkg/sched/download.go:210-278 | in every run of the system, with crashes, evictions, fallbacks, publications cut short, rejections, and runs, salvages and verifiers that have lost their leases, a file goes downloading→downloaded only by the live run's last completion or its early finish; the record it decoded and the done blocks of its own pass hold all of [0,size), the early finish happens only with nothing missing; every byte is in the staging file if that was never unlinked, or if neither record nor blocks are in doubt any more, and on an early finish if the row has no cache path and no verifier unlinked the file after losing its lease |
| `ResumeTheorems.FinishingStep` | pkg/store/files.go:50-113 | no other step of any actor makes that status change, and the finishing run owns the file |
| `ResumeTheorems.FinishedIsAccounted` | pkg/sched/leaser.go:130-160 | from any state that satisfies the invariant: at the change every byte is in the resumed record or in a done block of the run's own pass; it is written if the record is not in doubt and, unless the finish was early, the blocks are not either |
| `ResumeTheorems.OnlyTwoCallsFinish` | pkg/store/files.go:75-159 | the only two store calls that can take a row from downloading to downloaded, and the second needs all blocks done |
| `ResumeTheorems.FreshIndicesFree` | pkg/sched/download.go:264-278 | blocks numbered past the file's highest index never meet the unique-index constraint |
| `ResumeTheorems.RecordsAreDurable` | pkg/transfer/checkpoint.go:93-116 | in every reachable state, for a file never unlinked, or one with no cache path that is neither with its verifier nor in error and was not unlinked by a verifier that had lost its lease, the stored record lists only fsynced bytes, and any crash leaves all of them on disk; a file rejected after its publication was cut short is among these |
| `ResumeTheorems.RecordsGrow` | pkg/transfer/checkpoint.go:93-116 | whoever writes it, a stored record loses no byte in any step, except when it is cleared, when verification rejects the file, or when a run still falling back persists |
| `ResumeTheorems.DoubtedRows` | pkg/sched/disk.go:345-401 | in every reachable state, unlinks by verifiers without a lease apart, a row whose record may speak about a staging file that is gone has a cache path, is with its verifier, or is in error: a rejection clears the record, recreated staging file or not |
| `ResumeTheorems.WaitingRow` | pkg/sched/disk.go:390-401 | no store call but a rejection takes a file from its verifier without giving it a cache path, and none clears a cache path |
| `ResumeTheorems.SkippedCheckpointSame` | pkg/transfer/checkpoint.go:97-99 | a checkpoint skipped for an unchanged counter would write the blob the run wrote last |
| `ResumeTheorems.RecordsDecode` | pkg/sched/download.go:210-226 | in every reachable state a non-empty file's record decodes with the file's own size, so the corrupt-record branch is never taken for it |
| `ResumeProof.StepsKeep` | pkg/sched/download.go:180-339 | the protocol invariant holds after every sequence of steps of any number of runs, with what is in doubt tracked along the way: unlinks raise doubt, and a later state settles it |
| `ResumeProof.DoubtNeedsUnlink` | pkg/cache/publish.go:32-85 | nothing but an unlink of a staging file puts its record or its blocks in doubt |
| `ResumeProof.NextKeeps` | pkg/sched/download.go:180-339 | every single step keeps it |
| `ResumeProof.RechunkKeepsAll` | pkg/sched/download.go:253-278 | re-chunking the complement leaves record plus new blocks covering the file |
| `ResumeProof.CompleteKeeps` | pkg/transfer/worker.go:515-558 | a block completed by a run that recorded all of it has its bytes in the file, so done blocks stay written |
| `ResumeProof.PersistKeeps` | pkg/transfer/checkpoint.go:97-110 | persisting a snapshot after its fsync keeps the record within what is stable, whatever was written in between |
| `ResumeProof.FallbackDoneKeeps` | pkg/transfer/downloader.go:471-490 | the fallback's reset and final full range keep the invariant |
| `ResumeProof.CrashKeeps` | pkg/transfer/checkpoint.go:71-80 | a crash that keeps any set between the stable and the written bytes keeps the invariant |
| `ResumeProof.UnlinkKeeps` | pkg/cache/publish.go:32-85 | the unlink of publication, a step of its own that a verifier may make even after losing its lease, keeps the invariant with that file added to those in doubt |
| `ResumeProof.AdmittedKeeps` | pkg/sched/download.go:82-105 | admission past the warm-blob check, marked or started, keeps the invariant |
| `ResumeInv.TrustRestored` | pkg/sched/download.go:210-226 | in every state the invariant holds again of the record of each unowned file that is on stable storage, and of its blocks once every run that can still claim one writes to the current staging file |
| `ResumeInv.CallKeeps` | pkg/store/files.go:32-376 | every store call that meets its caller's guard keeps the invariant of the whole system |
| `ResumeInv.BlocksStay` | pkg/store/files.go:347-376 | while a downloading owner keeps its file only a re-chunk removes its blocks and only a completion finishes one |
| `ForcedRedownload.SafeIffRecordStable` | pkg/sched/submit.go:141-156 | for every reachable file that is cached or queued, whoever works on it: every download of it that ends before its staging file is next unlinked ends with all bytes there if and only if the record kept in the row lists only bytes on stable storage, and the staging file is whole or every run that could still complete a block of the file writes to that staging file and has recorded only what is in it |
| `ForcedRedownload.IdleSafeIffRecordStable` | pkg/sched/submit.go:141-156 | for a file nobody works on the record alone decides |
| `ForcedRedownload.PublishedSafeIffRecordEmpty` | pkg/sched/submit.go:141-156 | if moreover nothing is on stable storage, as after publication, that condition is: the kept record is empty; a partial record is enough to fail |
| `ForcedRedownload.RejectedSafeIff` | pkg/store/files.go:238-278 | after a rejection that requeues the file, its downloads up to the next unlink are whole if and only if the staging file is or no run that lost its lease can complete its blocks elsewhere |
| `CanFinish.EveryFileCanFinish` | pkg/sched/download.go:75-278 | in every reachable state, for every cached or queued file, some run from there, with no unlink on the way, declares it downloaded |
| `CanFinish.FallbackSavesAll` | pkg/transfer/downloader.go:471-489 | a live run on the current staging file can at any point between two checkpoints fall back to one stream, after which every byte of the file is on stable storage and the record claims exactly those |
| `ForcedRedownload.StraySpoils` | pkg/sched/leaser.go:62-107 | from every state with such a run and a staging file that is not whole, a download ends without some byte: the stray run claims its block and writes it to the file it has open |
| `ForcedRedownload.StableRecordIsSafe` | pkg/sched/download.go:210-278 | one direction, over every later run: under that condition each download that ends before the next unlink is whole |
| `ForcedRedownload.LostByteStaysLost` | pkg/sched/download.go:210-278 | the other: for each recorded byte that is not stable, a run (power loss, recovery, eviction, force, resume of the rest) ends downloaded without it |
| `CutShort.SentBackIffNotBlank` | pkg/sched/disk.go:405-430 | for every reachable file whose publication was cut short between unlink and commit: some run in which nothing else is written to its staging file and it is not listed anew takes it from the verifier without a cache path, to the queue or into error, if and only if the listed hash is not that of as many zero bytes |
| `CutShort.StepsKept` | pkg/sched/disk.go:405-430 | one direction, over every such run: where zeros are expected the file stays with its verifier until it has a cache path |
| `CutShort.UnexpectedIsSentBack` | pkg/sched/disk.go:345-372 | the other: verifiers claim, the oldest file first, until one has the file; it reopens, so recreates, the staging file and rejects the zeros |
| `CutShort.VerifiedFileEndsInError` | pkg/sched/disk.go:372-379 | for every non-empty size a run from the empty system with no genuine mismatch: two publications cut short put the file in error, its verified blob in the store |
| `ForcedRedownload.WarmBlobBlocksDownload` | pkg/sched/download.go:82-105 | over every run, a file whose blob stays in the store and can be marked never starts downloading, so a forced download needs an eviction or a failing mark |
| `ForcedExamples.DownloadedWithNothingWritten` | pkg/sched/submit.go:141-156 | for every non-empty size a run from the empty system ends downloaded with an empty staging file: salvage, verify, publish, evict, force |
| `ForcedExamples.PartialRecordFails` | pkg/sched/download.go:378-384 | a run from the empty system in which a checkpoint between two blocks is the last one stored ends cached with half the file recorded, and the property fails from there |
| `Fencing.FencedForever` | pkg/store/lease.go:38-88 | once a row has lost a token, no later call presenting it, after any run of other calls, changes any row |
| `Fencing.ReachableStates` | pkg/store/files.go:32-278 | in every reachable state downloading and verifying files are leased, queued, downloaded, cached and error files are not, a block is leased exactly when active, no token is on two rows |
| `Fencing.InvKept` | pkg/store/files.go:32-376 | each store call keeps those lease invariants |
| `Fencing.TokenMoves` | pkg/store/lease.go:32-54 | a row holds after a call only the token it held or a fresh one granted by that call |
| `Fencing.DeadCallDoesNothing` | pkg/store/lease.go:38-54 | a call presenting a token that is on no row changes nothing |
| `Fencing.DeadForever` | pkg/store/lease.go:38-88 | a token that is on no row is never on a row again, over any run |
| `Fencing.LosingTheRowKillsTheToken` | pkg/store/files.go:50-113 | the call that takes a token off its row leaves it on no row |
| `Fencing.ExclusiveKept` | pkg/store/lease.go:32-51 | no call puts one token on two rows |
| `Fencing.OnlyMachineEdges` | pkg/store/files.go:32-345 | one call moves a file only along the status machine and never changes its size |
| `Fencing.StatusWithToken` | pkg/store/files.go:50-113 | a call that leaves a lease on a row leaves the row's status too |
| `Fencing.ErrorIsTerminal` | pkg/store/files.go:238-278 | over any run a file in error stays in error |
| `Recovery.RecoverComplete` | pkg/store/recover.go:33-86 | afterwards every lease left on a row ends after now |
| `Recovery.RequeuedFileHasNoActiveBlock` | pkg/store/recover.go:42-54 | a file moved downloading→queued has no active block |
| `Recovery.LiveLeasesUntouched` | pkg/store/recover.go:33-86 | a file row whose lease does not end at or before now, and a block row for which neither its own lease nor its downloading file's does, is unchanged |
| `Recovery.FileRecoveredIff` | pkg/store/recover.go:55-86 | a file row changes if and only if it is downloading, salvaging or verifying under a lease that ends at or before now; it then goes back one stage, loses the lease and keeps the rest |
| `Recovery.BlockRecoveredIff` | pkg/store/recover.go:33-54 | a block row changes if and only if it is active and its own lease, or that of its downloading file, ends at or before now; it is then pending and free at once |
| `Recovery.RecoverIdempotent` | pkg/store/recover.go:33-86 | a second recovery at the same time changes nothing |
| `Recovery.RecoverIsPointwise` | pkg/store/recover.go:33-86 | the ordered sweeps equal one simultaneous row-by-row update |
| `Recovery.FileSweepFirstStrandsABlock` | pkg/store/recover.go:42-54 | with the file sweep first, a concrete database keeps an active block under a queued file |
| `Store.Store.LeaseFileForDownload` | pkg/store/files.go:32-43 | the in-place claim equals the row-level one: a queued file becomes downloading under a fresh token, else fenced |
| `Store.Store.TransitionFile` | pkg/store/files.go:50-113 | guards, live-lease and unfinished-block checks, then status set and lease cleared |
| `Store.Store.FinishDownloaded` | pkg/store/files.go:137-159 | drops the unfinished blocks and finishes under the file token |
| `Store.Store.SaveProgress` | pkg/store/files.go:164-172 | replaces the record under a downloading or salvaging lease only |
| `Store.Store.LeaseVerify` | pkg/store/files.go:209-222 | claims the oldest downloaded file |
| `Store.Store.CompleteVerify` | pkg/store/files.go:226-232 | verifying→cached under its token |
| `Store.Store.FailVerify` | pkg/store/files.go:238-278 | counts the failure; error at the second, else requeue with the record cleared and all blocks pending |
| `Store.Store.LeaseSalvage` | pkg/store/files.go:314-331 | claims the oldest salvaging file that has no lease or one that ends at or before now |
| `Store.Store.MarkSalvaging` | pkg/store/files.go:335-343 | discovered or queued→salvaging |
| `Store.Store.MarkCachedFromBlob` | pkg/store/files.go:301-310 | queued→cached |
| `Store.Store.ReplacePendingBlocks` | pkg/store/files.go:347-376 | pending rows replaced, done and active rows untouched, all or nothing on a duplicate index |
| `Store.Store.LeaseBlocks` | pkg/store/blocks.go:39-103 | the rows claimed are the greedy pick of the eligible blocks in file and index order, each with its own fresh token |
| `Store.PickBounded` | pkg/store/blocks.go:77-101 | at most n are taken and no file exceeds its cap |
| `Store.PickMaximal` | pkg/store/blocks.go:77-101 | a candidate is passed over only when its file is at its cap or n are taken |
| `Store.PickOldestFirst` | pkg/store/blocks.go:39-101 | what is taken comes oldest file first and, within a file, by index |
| `Store.ClaimStep` | pkg/store/blocks.go:86-100 | a claim in turn succeeds and leaves the later candidates claimable |
| `Store.Store.RequeueBlock` | pkg/store/blocks.go:109-128 | active→pending under the block token, one more retry, backoff set |
| `Store.Store.CompleteBlock` | pkg/store/blocks.go:133-153 | active→done under the block token; the answer says whether the file has an unfinished block left |
| `Store.Store.RenewFileLease` | pkg/store/lease.go:58-88 | extends only a live lease under its own token and a renewable status |
| `Store.Store.RenewBlockLease` | pkg/store/lease.go:58-88 | extends only a live lease of an active block under its own token |
| `Store.Store.IncrFileRetries` | pkg/store/files.go:192-205 | counts a retry under the downloading lease only |
| `Store.Store.Recover` | pkg/store/recover.go:33-86 | the loop over the sweeps equals their composition, whose effect on every row Recovery states |
| `Calls.SucceedsIff` | pkg/store/files.go:32-376 | for every store call, the exact state of rows, tokens and times in which it succeeds |
| `Calls.RefusedChangesNothing` | pkg/store/files.go:32-376 | a call that does not succeed changes no row |
| `Calls.RefusedFinish` | pkg/store/files.go:75-113 | for its owner, downloading→downloaded is refused for a live block exactly if some active block's lease ends after now, for pending blocks exactly if none does and some block is not done, and goes through exactly if all are done |
| `Calls.GrantedLease` | pkg/store/lease.go:32-54 | whichever call grants it, a lease carries the next token and ends thirty seconds after the call |
| `Calls.RenewOrRecover` | pkg/store/lease.go:58-88 | at any time exactly one of the two can act on a leased file: its holder's renewal (now < end) or recovery (end ≤ now) |
| `Calls.RenewalMovesTheEnd` | pkg/store/lease.go:58-88 | a renewal moves the end of that lease and touches no other |
| `Calls.SalvageTakesFreeOrOverdue` | pkg/store/files.go:314-331 | a claim succeeds if and only if some salvaging row is free or overdue, takes the oldest such, and changes no row whose lease ends after now |
| `Calls.VerifyTakesOldest` | pkg/store/files.go:209-222 | the claim takes the smallest downloaded id, and fails only if there is none |
| `Calls.OthersUntouched` | pkg/store/files.go:32-376 | no call but recovery changes a row other than the one it names, that file's blocks, or the one it claims |
| `Calls.FieldsChangeOnlyBy` | pkg/store/files.go:164-310 | which calls write a row's resume record, cache path, retry and failure counts, and what they write; no other call changes them |
| `Calls.IndicesStayUnique` | pkg/store/files.go:347-376 | over every run no file ever has two blocks of one index |
| `Calls.BlocksKeepTheirRange` | pkg/store/blocks.go:39-153 | no call changes a block's file, index or range |
| `Calls.RechunkReplacesPending` | pkg/store/files.go:347-376 | afterwards the file's pending blocks are the new ones in order; done and active blocks and other files' blocks are as before |
| `Calls.EarlyFinishLeavesNothing` | pkg/store/files.go:137-159 | afterwards the file is downloaded, unleased and has no unfinished block; its done blocks and all other files' blocks are as before |
| `Calls.RejectedStartsOver` | pkg/store/files.go:238-278 | after a first hash mismatch the file is queued with no record and every block of it pending, unleased and without backoff |
| `Calls.HandedBackWaits` | pkg/store/blocks.go:39-128 | a block handed back with a backoff is a candidate for a claim at a time if and only if the backoff has passed |
| `Leaser.BlockLeaser.Poll` | pkg/sched/leaser.go:62-107 | a block is leased exactly when one is eligible, and it has the lowest index; no work means no pending block at all, not a block in backoff; a wait is between 0 and 5 s |
| `Leaser.BlockLeaser.NextPoll` | pkg/sched/leaser.go:87-96 | min(5 s, max(earliest backoff − now, 0)), or the repoll interval when no pending row has a backoff |
| `Leaser.BlockLeaser.Complete` | pkg/sched/leaser.go:130-160 | the block is done and, if last, the file downloaded; the token is forgotten |
| `Leaser.BlockLeaser.Requeue` | pkg/sched/leaser.go:164-196 | the block goes back; the leaser gives up exactly when its retries reach eight; the answer is failure exactly then or when fenced |
| `Leaser.LastCompletionFinishes` | pkg/sched/leaser.go:130-160 | for the owning run the file is downloaded after a completion if and only if no block is unfinished |
| `Leaser.GuardsNeverRefuse` | pkg/store/files.go:75-113 | whatever calls come between the last completion and the transition, short of a re-chunk by the run itself, the transition succeeds or is fenced; its unfinished-block and live-block checks never refuse it |
| `Leaser.LostForGood` | pkg/sched/leaser.go:130-160 | a run that has lost its file in between never owns it again |
| `Leaser.GivesUpAtBound` | pkg/sched/leaser.go:164-196 | the file goes to error if and only if this is the eighth retry |
| `Usable.ConnsWithinUnfinished` | pkg/sched/autotune.go:51-63 | from a re-chunk on, over every order of claims, completions by any worker, requeues and recoveries: while no completion of the pass escapes this process's counter, usableConns is at most max(1, unfinished blocks of the pass) |
| `Usable.BoundIffMissedFits` | pkg/sched/autotune.go:51-63 | the exact condition: that bound holds under every limit if and only if the bytes of the pass completed without reaching the counter, with those unfinished, fit in the unfinished blocks |
| `Usable.FullBlocksBoundIffNoneMissed` | pkg/sched/autotune.go:51-63 | with full-sized blocks and one unfinished: if and only if no completion was missed |
| `Usable.MissedCompletionBreaksBound` | pkg/sched/autotune.go:90-96 | two one-byte blocks, one completed by another process: one block is left and two connections are granted |
| `Usable.RemainingBounded` | pkg/sched/autotune.go:90-96 | the remaining counter never exceeds the bytes of the unfinished blocks plus those whose completion it missed |
| `Usable.CounterBalances` | pkg/sched/autotune.go:90-96 | while the counter counts blocks of its pass only, it equals that sum |
| `Usable.CountedIsNoted` | pkg/sched/autotune.go:90-96 | the counter of these runs is the allocator's own |
| `Intervals.IntervalSet.Add` | pkg/transfer/interval.go:26-54 | the binary-search splice keeps the list canonical and denotes set ∪ [start,end) |
| `Intervals.SpliceIsInsert` | pkg/transfer/interval.go:26-54 | replacing the touched run by its hull equals the recursive insertion |
| `Intervals.IntervalSet.FirstEndingAtOrAfter` | pkg/transfer/interval.go:31-34 | the binary search finds the first range not strictly left of start |
| `Intervals.IntervalSet.MergeFrom` | pkg/transfer/interval.go:35-45 | the merge loop absorbs exactly the ranges that overlap or touch |
| `Intervals.InsertAllSound` | pkg/transfer/interval.go:26-54 | any sequence of additions denotes the union and stays canonical |
| `Intervals.InsertAllOrderFree` | pkg/transfer/interval.go:26-54 | the order and the cutting of additions do not show in the result |
| `Intervals.CanonicalUnique` | pkg/transfer/interval.go:10-22 | equal byte sets have equal lists |
| `Intervals.IntervalSet.Missing` | pkg/transfer/interval.go:58-76 | the complement within [0,total); canonical exactly when total > 0 or the set does not start past 0; empty exactly when covered |
| `Intervals.IntervalSet.Contains` | pkg/transfer/interval.go:79-95 | agrees with byte-by-byte membership |
| `Intervals.IntervalSet.CoveredBytes` | pkg/transfer/interval.go:98-104 | the number of bytes in the set |
| `Intervals.IntervalSet.Clone` | pkg/transfer/interval.go:108-112 | an independent copy |
| `Intervals.IntervalSet.PrefixCovered` | pkg/transfer/checkpoint.go:52-69 | the covered prefix, maximal up to the end asked about |
| `Chunking.ResumePartition` | pkg/sched/download.go:583-595 | complement then cut: blocks and set split [0,total) exactly, total(set) + Σ lengths = total, consecutive numbers, sizes in (0,blockSize], disjoint; adding the blocks back leaves nothing missing |
| `Chunking.LayoutPairwise` | pkg/sched/download.go:583-595 | what the layout means block by block: size, number, disjointness |
| `Chunking.ChunkBytes` | pkg/sched/download.go:583-595 | cutting loses and adds no byte |
| `Chunking.ChunkRanges` | pkg/sched/download.go:583-595 | the nested loops compute that cut: the same bytes, numbered in order, every block full unless it ends one of the ranges, and as few blocks for each range as its length allows |
| `Chunking.CutFull` | pkg/sched/download.go:583-595 | one range [s,e) gives n blocks with (n−1)·blockSize < e−s ≤ n·blockSize, none if it is empty, all full but the last, which ends at e |
| `Chunking.ChunkFull` | pkg/sched/download.go:583-595 | over all ranges a short block ends one of them, and the number of blocks is the sum of those n |
| `Chunking.AdaptiveBlockSize` | pkg/transfer/downloader.go:235-248 | the doubling loop yields the smallest power-of-two multiple of 4 MiB that holds the share, capped at 64 MiB |
| `Serde.RoundTrip` | pkg/transfer/interval_serde.go:35-142 | decoding an encoded canonical set returns the same set and size |
| `Serde.RoundTripBytes` | pkg/transfer/interval_serde.go:35-142 | a set with adjacent ranges comes back with the same bytes, coalesced |
| `Serde.AcceptedIsCanonical` | pkg/transfer/interval_serde.go:68-142 | every accepted byte string yields a sorted, strictly separated set inside [0,size] |
| `Serde.AcceptedIsPrefixFree` | pkg/transfer/interval_serde.go:68-142 | an accepted blob followed by anything is refused as trailing garbage |
| `Serde.NoPrefixDecodes` | pkg/transfer/interval_serde.go:68-142 | no proper prefix of an accepted blob is accepted |
| `Grammar.AcceptedIff` | pkg/transfer/interval_serde.go:68-142 | the decoder accepts a byte string, and as a given set, if and only if it is the header followed by varints, in any spelling of at most ten bytes and 64 bits, of a size below 2^63, a count and that many gap and length pairs whose ranges are non-empty, in order and within the size |
| `Grammar.SpelledIsAccepted` | pkg/transfer/interval_serde.go:68-142 | every such spelling is accepted, the count check included |
| `Grammar.AcceptedIsSpelled` | pkg/transfer/interval_serde.go:68-142 | nothing else is |
| `Serde.MarshalBinary` | pkg/transfer/interval_serde.go:35-64 | encodes exactly the ordered sets, otherwise reports the first defect |
| `Serde.UnmarshalBinary` | pkg/transfer/interval_serde.go:68-142 | equals the decoder; on any defect the receiver keeps its contents |
| `Serde.DefectIffUnordered` | pkg/transfer/interval_serde.go:39-51 | the encoder finds a defect if and only if the list is not ordered inside the size |
| `Serde.FullBlobMeaning` | pkg/sched/disk.go:278-285 | for size > 0 byte for byte the encoding of {[0,size)}; it decodes if and only if size > 0 |
| `Serde.FullIntervalBlob` | pkg/sched/disk.go:278-285 | the appends produce the encoding of {[0,size)} for size > 0, and a blob the decoder refuses for size 0 |
| `Checkpoint.Checkpointer.TakeCheckpoint` | pkg/transfer/checkpoint.go:93-116 | whatever is flushed between snapshot and fsync: the blob stored lists exactly the snapshot, all of it stable; skipped means the stored blob is already that, unless the fence swallowed it; a failed or swallowed persist leaves the stored blob alone, and a swallowed one still counts as taken |
| `Checkpoint.Checkpointer.SyncAndPersist` | pkg/transfer/checkpoint.go:100-113 | fsync before persist keeps the record durable and the counter current |
| `Checkpoint.Checkpointer.HandOn` | pkg/sched/download.go:378-384 | a fenced save reports success and leaves the row as it was |
| `Checkpoint.IntervalTracker.Add` | pkg/transfer/checkpoint.go:19-24 | adds the range and counts one change |
| `Checkpoint.IntervalTracker.Reset` | pkg/transfer/checkpoint.go:29-34 | a fresh empty set; earlier snapshots keep their contents |
| `Checkpoint.IntervalTracker.Snapshot` | pkg/transfer/checkpoint.go:36-40 | an independent copy with its counter |
| `Checkpoint.IntervalTracker.CoversAll` | pkg/transfer/checkpoint.go:44-48 | true exactly when all of [0,total) is flushed |
| `Stream.StreamBlock` | pkg/transfer/worker.go:377-487 | for every delivery, failure and length: writes only inside the block after the skipped prefix, records one run from there holding the body's bytes, touches nothing outside, WriteAt offsets and lengths are multiples of 4096; complete only when the whole block is recorded; with working writes the outcome is decided by body length and end alone, and an attempt that ends early records every byte the body delivered and zero-pads the file up to the next boundary inside the block |
| `Stream.StreamBody` | pkg/transfer/worker.go:407-487 | the same for an attempt without a prefix: with working writes an early end records all that was delivered |
| `Stream.Fetch` | pkg/transfer/worker.go:436-472 | the read loop keeps slab and flushed part equal to what was read; while it reads, only full slabs are written, all direct but for one head at an unaligned start |
| `Stream.FlushFullSlab` | pkg/transfer/worker.go:492-511 | flushes whole when aligned, otherwise exactly the head up to the next boundary, and realigns the rest in place |
| `Stream.FlushAbort` | pkg/transfer/worker.go:415-434 | with working writes the whole partial buffer is recorded and zeros fill the file up to the next boundary if that is inside the block; nothing past it is touched, and the padding is never recorded |
| `Stream.WriteStep` | pkg/transfer/worker.go:515-558 | a whole write extends the recorded run by its bytes, a broken one only touches the block |
| `Stream.AlignUpLeast` | pkg/transfer/worker.go:783-785 | the least multiple of 4096 at or above |
| `Tune.BudgetsOrdered` | pkg/tune/controller.go:117-211 | for every sample sequence 1 ≤ committed ≤ budget ≤ nextStep(committed) and budget ≤ ceiling |
| `Tune.CommittedMoves` | pkg/tune/controller.go:126-211 | while the ceiling is not below the budget, committed never falls and rises exactly when a settled probe met its gain, to the probed budget |
| `Tune.CommittedNeverFalls` | pkg/tune/controller.go:117-211 | over any run whose ceiling never goes back the committed budget never falls |
| `Tune.UnprovedRise` | pkg/tune/controller.go:139-144 | with a lowered ceiling committed rises without proof if and only if the ceiling lands between committed and the probe |
| `Tune.CutCommits` | pkg/tune/controller.go:139-144 | a ceiling below the budget sets the committed budget to the ceiling, up or down |
| `Tune.UnprovedRiseHappens` | pkg/tune/controller.go:139-144 | two samples from a new controller with the defaults reach it: committed goes from 8 to 9 with no probe settled |
| `Tune.ProbesApart` | pkg/tune/controller.go:150-211 | two probe starts of any run with a nondecreasing clock and ceiling are at least MinGap apart, for any configuration |
| `Tune.DefaultGap` | pkg/tune/controller.go:11-16 | with the defaults MinGap is 29 s |
| `Tune.DefaultsFillGaps` | pkg/tune/controller.go:55-78 | a configuration with every field set is kept as it is, and an empty one becomes the documented defaults |
| `Tune.Controller.Feed` | pkg/tune/controller.go:126-211 | the in-place tick equals the function whose every outcome the rows below state, and answers inside [1,ceiling] |
| `Tune.StartsIff` | pkg/tune/controller.go:184-211 | a probe starts if and only if none is in flight, no kill was counted, neither backoff nor freeze is running, budget < ceiling, utilization < UtilCeiling, 4·connections ≥ 3·budget and rate > 0 |
| `Tune.ProbeIs` | pkg/tune/controller.go:205-220 | it raises b to min(2b, ceiling) below 8 and to min(b + b/4, ceiling) from there, against the rate of that tick, until now + Settle |
| `Tune.FullLinkWaits` | pkg/tune/controller.go:190-195 | if only utilization holds it back, the next probe moves to now + ProbeInterval and nothing else changes |
| `Tune.TrialIs` | pkg/tune/controller.go:161-182 | a probe in flight is left alone until its window ends, kept with the backoff cleared if the rate met its gain, and otherwise undone with the backoff started or doubled |
| `Tune.KillFreezes` | pkg/tune/controller.go:150-159 | a risen kill count drops the probe and freezes probing for KillFreeze |
| `Tune.IdleTick` | pkg/tune/controller.go:126-211 | every other tick only seeds, notes the first kill count and clamps |
| `Tune.BackoffMatchesFailures` | pkg/tune/controller.go:166-180 | over every run the backoff after k failed probes in a row is BackoffStart for k = 1 and min(BackoffStart·2^(k−1), BackoffMax) from then on |
| `Tune.Controller.LastCommitted` | pkg/tune/controller.go:117-122 | the committed budget, between 1 and the budget |
| `Shares.SplitExact` | pkg/sched/autotune.go:241-246 | total = max(n, min(budget, Σ usable)), every share in [1,usable] |
| `Shares.SplitOptimal` | pkg/sched/autotune.go:241-246 | when n ≤ budget the split is lexicographically greatest, oldest file first, among all feasible ones |
| `Shares.SplitFeasible` | pkg/sched/autotune.go:241-246 | when n ≤ budget the split is itself feasible |
| `Shares.SplitBudget` | pkg/sched/autotune.go:241-246 | the loop computes the split |
| `Shares.UsableIsCeiling` | pkg/sched/autotune.go:51-63 | below its cap usableConns is the least number of blocks that hold the remaining bytes |
| `Shares.UsableUnsized` | pkg/sched/autotune.go:51-63 | without a block size a file can use the whole limit, at least one |
| `Budget.RebalanceExact` | pkg/sched/autotune.go:222-264 | a rebalance changes only connection counts, each within [1,usable], with that exact total |
| `Budget.RebalanceOptimal` | pkg/sched/autotune.go:222-264 | with a connection for every file, a rebalance agrees with any other feasible handout of the budget or gives more to the oldest file on which the two part |
| `Budget.OrderUnique` | pkg/sched/autotune.go:232-239 | admission order is unique, so map iteration order never shows |
| `Alloc.BudgetRespected` | pkg/sched/autotune.go:107-188 | while MaxWorkers is never lowered, in every reachable state active files ≤ committed ≤ budget ≤ max(MaxWorkers,1) and total connections ≤ budget |
| `Alloc.LoweredTotal` | pkg/sched/limits.go:48-60 | however limits move, after a rebalance the total is at most max(active files, budget) |
| `Alloc.SpareBoundsFiles` | pkg/sched/autotune.go:69-75 | spare headroom bounds the number of active files |
| `Alloc.Manager.RebalanceLocked` | pkg/sched/autotune.go:222-264 | collect, sort, split, apply: equals the specified rebalance |
| `Alloc.Manager.SortByAdmission` | pkg/sched/autotune.go:231-239 | the active files once each, by admission number |
| `Alloc.Manager.Admission` | pkg/sched/autotune.go:107-129 | admits exactly when the file is new and the committed budget has a connection to spare; the share is at least one |
| `Alloc.Manager.SpareConns` | pkg/sched/autotune.go:69-86 | budget minus what the active files can use, in any walk order |
| `Alloc.Manager.AssignedConns` | pkg/sched/autotune.go:132-140 | the total assigned |
| `Alloc.Manager.BlockDone` | pkg/sched/autotune.go:90-96 | the counter falls by the block, not below zero |
| `Alloc.Manager.PublishTick` | pkg/sched/autotune.go:170-188 | observe, publish both budgets, rebalance |
| `Alloc.Manager.ClampToLimits` | pkg/sched/limits.go:48-60 | clamps both budgets and rebalances, only when one was above |
| `Alloc.TickStartsIff` | pkg/sched/autotune.go:170-188 | a tick starts a probe if and only if the controller may, utilization < 0.9, rate > 0 and the connections assigned to files are three quarters of the budget |
| `Alloc.TickHandsOut` | pkg/sched/autotune.go:170-188 | both budgets published are the controller's, and the live one is handed out in full |
| `Alloc.AdmissionHandsOut` | pkg/sched/autotune.go:107-129 | an admission hands out the live budget in full |
| `Alloc.AdmissionAddsYoungest` | pkg/sched/autotune.go:107-129 | the admitted file is the youngest and no other file changes but in its connections |
| `Alloc.ClampHandsOut` | pkg/sched/limits.go:48-60 | both budgets end at most at the limit; if neither was above it nothing moves, otherwise the live one is handed out in full |
| `Alloc.DoneCountsDown` | pkg/sched/autotune.go:90-96 | a completed block comes off its own file's counter, floored at zero, and moves no connection |
| `Workers.NeverEmptied` | pkg/transfer/downloader.go:541-597 | over any mix of calls (n ≥ 1) and exits of marked workers: a live worker remains, each call leaves at most n live and a total of max(previous total, n), never above the largest n |
| `Workers.ExactOnceDrained` | pkg/transfer/downloader.go:541-567 | one call makes the live count exactly n if and only if no marked worker is left or n does not exceed the live count; raising the target marks nobody and adds only what the total lacks |
| `Workers.WorkerSet.SetParallelism` | pkg/transfer/downloader.go:541-567 | the loops change the counts exactly so, only add marks, and do nothing once closed |
| `Workers.WorkerSet.RemoveWorker` | pkg/transfer/downloader.go:582-597 | the worker leaves; the last one closes the set |
| `KillGate.NextKillWaits` | pkg/transfer/killgate.go:67-105 | after k consecutive unproductive verifications the next granted kill is at least 30 s + min(30 s·2^(k-1), 5 min) later, for all rates and utilizations |
| `KillGate.AnyTwoKills` | pkg/transfer/killgate.go:67-105 | in every run with a nondecreasing clock two granted kills are at least 30 s apart |
| `KillGate.HoldMatchesStreak` | pkg/transfer/killgate.go:90-105 | the suppression hold always equals that function of the streak |
| `KillGate.Gate.TryKill` | pkg/transfer/killgate.go:67-86 | the in-place check and claim equals the function |
| `KillGate.Gate.Resolve` | pkg/transfer/killgate.go:90-105 | the in-place verdict equals the function |
| `KillGate.GrantsIff` | pkg/transfer/killgate.go:67-105 | a kill is granted if and only if the last one's thirty seconds are over with the rate up by a twentieth, or there was none, no hold is running and utilization < 0.9 |
| `KillGate.TriedIs` | pkg/transfer/killgate.go:67-105 | a granted kill opens a thirty-second window from the rate of that moment; one found wanting starts a hold of thirty seconds or twice the last, up to five minutes |
| `TokenBucket.BoundIffStart` | pkg/throttle/bucket.go:62-85 | for every rate above zero and every burst, "at most burst + rate·(t−s) granted in every window of every run" holds if and only if the bucket is created with start ≤ max(burst, 1) |
| `TokenBucket.BurstBound` | pkg/throttle/bucket.go:102-179 | that bound, for any interleaving of installments |
| `TokenBucket.WindowBound` | pkg/throttle/bucket.go:102-179 | without the assumption the bound is max(balance, burst) + rate·(t−s) |
| `TokenBucket.OverfilledExceeds` | pkg/throttle/bucket.go:62-85 | a bucket created above its normalised burst grants one token more than that in no time |
| `TokenBucket.TokensWithin` | pkg/throttle/bucket.go:233-247 | the balance stays in [0,burst] |
| `TokenBucket.Conserved` | pkg/throttle/bucket.go:102-179 | what is granted comes out of balance and accrual |
| `TokenBucket.Bucket.Wait` | pkg/throttle/bucket.go:102-179 | whatever peers do in between, success grants exactly n, failure fewer; every granted token left the bucket unless the bucket became unlimited; each try asks for all that is missing, and it gives up only when cancelled |
| `TokenBucket.Bucket.SetRate` | pkg/throttle/bucket.go:184-210 | refills under the old rate, then trims the balance to the new burst |
| `TokenBucket.Bucket.Installment` | pkg/throttle/bucket.go:134-151 | takes min(want,burst) or nothing, and then answers how long to sleep: deficit / rate |
| `TokenBucket.TakenIff` | pkg/throttle/bucket.go:134-151 | an installment is paid in full if and only if min(want,burst) ≤ min(balance + rate·elapsed, burst), otherwise not at all; the balance left is exactly the rest |
| `TokenBucket.DelayIsExact` | pkg/throttle/bucket.go:152-156 | a caller refused, left alone, is paid at now + deficit/rate and at no time before |
| `TokenBucket.AloneTakesExactly` | pkg/throttle/bucket.go:102-179 | left alone, a Wait for any n, above the burst or not, ends exactly (n − balance)/rate seconds later, or at once, with n granted |
| `TokenBucket.ConservedExactly` | pkg/throttle/bucket.go:102-179 | over any interleaving: granted + balance left + spilled over the burst = balance at the start + rate·time |
| `TokenBucket.ReconfiguredIs` | pkg/throttle/bucket.go:184-210 | rate, burst, balance and refill time after SetRate, in numbers |
| `DeSparse.HoleFile.Walk` | pkg/verify/desparse.go:73-129 | each byte of [0,size) outside the extents is zeroed exactly once, no data byte ever, the count is exact, for every chunk size; a failed walk has zeroed only holes, each at most once |
| `DeSparse.HoleFile.Fill` | pkg/verify/desparse.go:76-109 | zeroes its range chunk by chunk, each byte once |
| `DeSparse.SkipExtent` | pkg/verify/desparse.go:112-124 | passing an extent adds no hole and leaves only the later extents ahead |
| `Xorb.RegroupInverts` | pkg/xet/decode.go:59-92 | regrouping and the 4-way transpose are inverse both ways |
| `Xorb.TransposedGroups` | pkg/xet/decode.go:17-21 | group k holds the bytes at positions 4i + k |
| `Xorb.Bg4Regroup` | pkg/xet/decode.go:59-92 | the index loop and its leftover cases compute the regrouping |
| `Xorb.FramesRoundTrip` | pkg/xet/xorb.go:70-90 | decoding framed bytes decodes the frames one by one, failures included |
| `Xorb.AcceptedIsFrames` | pkg/xet/xorb.go:70-90 | accepted data is exactly a concatenation of frames |
| `Xorb.StoredRoundTrip` | pkg/xet/xorb.go:70-90 | scheme-none framing of any chunks within the limit decodes to them |
| `Xorb.PackedRoundTrip` | pkg/xet/xorb.go:70-90 | frames of all three schemes, mixed in any order, decode to the chunks they were made from, for any compressor the decompressor inverts |
| `Xorb.DecodedIff` | pkg/xet/decode.go:28-55 | a chunk decodes to raw if and only if raw has the declared length and the payload is raw, packs raw, or packs its transpose, as the scheme says |
| `Xorb.HeaderRoundTrip` | pkg/xet/xorb.go:42-65 | a header within the limits parses back to itself |
| `Xorb.AcceptedHeader` | pkg/xet/xorb.go:42-65 | every accepted header is the encoding of its fields |
| `Xorb.DecodeXorbChunks` | pkg/xet/xorb.go:70-90 | the offset loop equals the recursive decoder |

## Left out

- SQL text, drivers, migrations and busy retries: each transaction is one atomic step on maps.
- Job, repository and reference-file tables, and their recovery sweeps.
- HTTP sources, redirects, upstream choice, the LZ4 format, hashing and system calls.
- ResumeTheorems.DownloadedMeansWritten: a file's size is fixed when it is first listed; a re-listing that changes it (pkg/store/jobs.go:101-112) is not a step, so nothing is said about a run whose file grows under it. Publication's hard link, unlink and directory syncs are one step and the row update is another; re-chunking and opening the staging file are one step.
- CutShort.SentBackIffNotBlank: a staging file with any byte written may fail its check at any time; which bytes are right is not modelled.
- Contents of the staging file across attempts: durability is about which bytes were written; contents are stated per streaming attempt. The zero padding of an aborted attempt may overwrite bytes an earlier attempt recorded.
- Extent-aligned boundaries of the xet source: blocks are cut from the missing ranges themselves.
- Store.Store.LeaseBlocks: the candidate query and the claims after it run undisturbed, so no claim is raced; in Resume each claim is a step of its own that any other step may precede.
- Store.Store.Recover: sweeps files and blocks; the sweeps of repositories, jobs and reference files are not modelled.
- Leaser.BlockLeaser.Poll: the claim and the two queries after it are one undisturbed step.
- Liveness: waiting times, wakeups, sequential commit order, disk-full pauses, backoff jitter.
- Two SetLimits calls at once: storing and clamping are two steps of one call at a time; a clamp delayed past a later store is not modelled.
- 64-bit overflow of offsets in chunkBlocks and of the change and admission counters; offsets and sizes are integers, and the varint decoder's own overflow checks are modelled.
- The duty limiter's chunk formula: any positive chunk size stands for it.
- Statistics, metrics, logging, command line, terminal interface.
- Resume.SettleRun: only the leaser's own completion path calls the downloading to downloaded transition; other callers of that edge are excluded from the ambient calls, as no other code makes it.
- Usable.ConnsWithinUnfinished: counts a completion made here and its counter update as one step; between the two the counter still includes that block. A new re-chunk of the same file ends the pass it speaks about.
- TokenBucket.DelayIsExact: sleeps are exact reals; the truncation to nanoseconds and the one-millisecond floor for a sleep that truncates to zero are not modelled.
- Workers.NeverEmptied: exits of unmarked workers at the end of the run are not part of the runs it ranges over.
