# Verified model of the deduplicating S3 store

This project models the parts of the repository whose correctness depends on interleavings or on exact
arithmetic, and proves properties of the model with Dafny 4.11. `dafny verify dfyconfig.toml` checks all of it.

**The chunk store.** A large PUT is split into chunks; each chunk is deduplicated against the reference-counted
index or stored under an advisory lock, and one transaction installs the manifest. `ContentIndex` gives each SQL
statement as a function and the Go type that runs them as a class; `ChunkStorage` is the lock holder's code;
`DedupStore` is the whole protocol as a transition system: any number of uploads, copies, plain writes, deletes,
account deletions, reconciles and sweeps, one statement of a READ COMMITTED transaction, commit, backend call or lock
operation a step. Row locks and snapshots are explicit: a transaction looks for the head row and locks it if it is
there, takes the snapshot of `SELECT ... FOR UPDATE`, gets its locks, deletes, commits. Account deletion and reconcile
count in one step and write in another.

`StoreInvariants` is what every step keeps; `StoreBooks` the exact law of reference counts; `StoreSafety` what every
run keeps; `StoreOverlaps` which overlaps of transactions make a count drift. `Refinement` shows that, seen through GET,
the store is a plain map from keys to bytes, object by object, with the exact guard under which each step does what its
request promises; `GetSteps` takes GET apart into its reads. `StaleBlobs` is where blobs and manifests that nobody looks
at come from. `RequestRuns` are whole requests as runs, `LeakRuns` and `FailureRuns` the runs from the empty store in
which the code does not keep what it promises.

**Pipelines inside one request.** `StorePool` is the worker pool of a chunked PUT as a small-step system,
`PoolTheorems` what holds of every schedule, `ChunkStorePool` the pool's mutex-guarded fields, whose methods are
proved to be runs of that system. `JointUpload` runs one upload's pool inside the store, with everybody else's steps in
between. `Prefetch` is the pipeline of a chunked GET.

**Accounting.** `Quota` is one tenant's byte counter under interleaved requests, `Bandwidth` the usage tracker.

**Codecs and algorithms.** `AwsChunked`, `RangePlan`, `LikeEscape`, `UrlEncode`, `Listing`, `Grouping`,
`EditDistance`, `OnCall`. `MapSums` holds sums over finite maps, `Basics` types that several modules share.

The hash is injective (`Digest` wraps the bytes it was taken of; `Refinement.Injective` says it of a function),
encryption and compression are inverse pairs and do not appear, the chunker is any split into chunks, and clocks,
backend failures, query results and schedules are parameters or nondeterministic steps.

## What the code does not keep

Several promises in comments do not hold of the code. The model follows the code; the lemmas below say exactly when
the promise is met.

- Reference counts. A transaction leaks if and only if, by the time it deletes or overwrites its object's rows, one of
  them came after the snapshot of its SELECT (`StoreOverlaps.LeaksIffRowBorn`). It happens:
  - in two first writes of one key: `SELECT ... FOR UPDATE` finds no head row, so nothing is locked. The later manifest
    is written over the earlier one row by row (`LeakRuns.RacingFirstWritesLeak`); rows behind it stay, and only the
    declared Content-Length hides them (`Refinement.InstalledAnswer`); a plain write leaves an orphaned manifest
    (`StaleBlobs.OrphanOrigin`), and the displaced bytes stay billed (`Quota.RacingFirstWritesDrift`). The comments at
    `internal/api/s3_engine_adapter.go:1188-1192` and `internal/api/quota_accounting.go:99-105` claim serialization;
  - in a DELETE overtaken by an overwrite: DELETE takes no head lock, its SELECT waits for the overwrite and comes back
    empty, its second statement removes the overwrite's rows (`LeakRuns.OvertakenDeleteLeaks`). The comment at
    `internal/crypto/gci.go:487-489` claims otherwise.
- Account deletion counts references and deletes rows in two statements. A manifest installed in between leaks
  (`LeakRuns.UncountedManifestLeaks`); a reference released in between is released twice, which can take a chunk that
  another tenant's object names to zero and mark it (`LeakRuns.DoubleReleaseMarksALiveChunk`). The exact conditions are
  `StoreBooks.CloseKeepsBooksIff` and `StoreBooks.StepKeepsSolventIff`; both need the tenant's rows to have changed
  after the count (`StoreSafety.AccountDriftNeedsOverlap`). The foreign key still keeps the sweep from taking the chunk
  (`StoreSafety.NoRunLosesAChunk`).
- Reconcile counts manifest rows and resets index rows in one statement, but a row it waits for is compared with the
  older count. A release in between leaves the leak that was counted (`LeakRuns.StaleReconcileKeepsLeak`); the exact
  condition is `StoreSafety.ReconcileHealsIff`.
- A plain PUT writes its blob first and its head row later, and GET declares the head row's size. A plain overwrite of
  another length can therefore be served neither as the old object nor as the new one until its head row is written, and
  for good if that fails (`FailureRuns.FailedOverwriteIsTorn`). A refused plain PUT has overwritten the old blob, which
  is served with the refused bytes or not at all (`FailureRuns.RejectedPutOverwrites`). The next whole write mends the
  object (`Refinement.WholeWriteMends`, `Refinement.LastWriteWins`).
- A plain PUT that took effect with its blob takes effect again with its head row if a chunked install commits in between
  (`FailureRuns.OvertakenWriteTakesEffectTwice`).
- The old blob of a chunked PUT or copy is deleted after its transaction has committed. A plain PUT acknowledged in
  between loses its bytes (`FailureRuns.LateCleanupLosesAWrite`); if nothing has taken effect in between, nobody sees
  the delete (`StaleBlobs.CleanupIsInvisible`).
- A chunked copy reads its source's manifest and size in two queries; after an overwrite in between it answers neither
  version (`FailureRuns.StaleCopyIsNeither`; the exact condition is `Refinement.CopyWritesSourceBytes`). If the overwrite
  was a plain one, the second query finds no row and the request ends in a nil dereference
  (`FailureRuns.CopyCrashes`), which leaves its reservation billed (`Quota.CrashStaysBilled`).
- A chunked GET reads head row and manifest in two queries; it answers what the object was when its manifest was read if
  and only if the size it had declared is still the head row's then (`GetSteps.GetAnswersOneVersion`).
- A DELETE of a chunked object brings back a whole-object blob that was left at its key
  (`FailureRuns.DeletedObjectComesBack`, `RequestRuns.DeleteRemovesUnlessStaleBlob`); where such blobs come from is
  `StaleBlobs.StaleBlobOrigin`.
- The GET prefetcher gives a slot back before it writes the chunk, so its buffers reach one more than the bound
  (`Prefetch.BuffersBounded`, `Prefetch.BufferBoundExceeded`).
- A release clamped at zero loses bytes when a write turned out larger than its reservation
  (`Quota.EarlyDeleteDrifts`); `Quota.StepDrift` is the exact law.
- An aws-chunked body that stops anywhere ends cleanly, and a negative size crashes the reader
  (`AwsChunked.LengthCheckCatchesTruncation`, `AwsChunked.NegativeSizeCrashes`).
- A listing cut by max-keys under a delimiter skips the key at the cut (`Grouping.KeyAtCut`,
  `Grouping.MiddleIsSkipped`), and one that hits the fetch limit is reported complete
  (`Grouping.CompleteDespiteLimit`). max-keys 0 is truncated without a token (`Listing.TruncatedPageHasToken`).
- Range positions that do not fit 64 bits are refused, not clamped (`RangePlan.ClosedRange`).
- A schedule asked for more than one shift before the rotation starts with a gap (`OnCall.CoversWindow`).

## Model

| member | source | states |
|---|---|---|
| ContentIndex.GlobalContentIndex.LookupChunk | internal/crypto/gci.go:120-191 | a cached answer may outlive the row; a database answer is exact and is cached |
| ContentIndex.GlobalContentIndex.IncrementRef | internal/crypto/gci.go:356-377 | takes a reference and unmarks the row, or reports 0 rows and changes nothing when it vanished |
| ContentIndex.GlobalContentIndex.DecrementRef | internal/database/migrations/054_dedup_scope.sql:74-92 | one reference less, marked when it reaches zero |
| ContentIndex.GlobalContentIndex.InsertChunkTx | internal/crypto/gci.go:291-345 | one more reference on an unmarked row, whether or not there was a row |
| ContentIndex.GlobalContentIndex.DeleteObjectChunksTx | internal/crypto/gci.go:486-539 | the rows listed are released once each; all rows there at the delete go, listed or not |
| ContentIndex.GlobalContentIndex.ReplaceObjectManifestTx | internal/crypto/gci.go:573-669 | the rows listed are released, all rows there at the delete go, and the new ones are put index by index over what has been committed since |
| ContentIndex.ReleaseLeaves | internal/crypto/gci.go:490-527 | a chunk keeps exactly as many references too many as rows naming it were deleted without having been listed |
| ContentIndex.IncrementAllCounts | internal/api/s3_copy.go:420-432 | a copy's increments add each chunk's multiplicity and create no row |
| ContentIndex.DecrementAllCounts | internal/crypto/gci.go:520-527 | releasing held references lowers each count by its multiplicity and marks exactly what reaches zero |
| ContentIndex.SetReleaseIsDecrements | internal/api/account_deletion.go:139-157 | for references still held the set-based release equals one decrement per reference |
| ChunkStorage.Storage.StoreChunkLocked | internal/api/s3_engine_adapter.go:1307-1334 | blob before row; every row keeps its blob whatever fails |
| ChunkStorage.Storage.SweepOne | internal/api/dedup_gc.go:202-256 | only an unreferenced marked row that no manifest names goes, then its blob; every other row keeps its blob |
| ChunkStorage.Storage.Sweep | internal/api/dedup_gc.go:165-182 | rows, blobs and both tallies after a pass with any failures; every row keeps its blob |
| StoreInvariants.StepKeepsInv | internal/api/s3_engine_adapter.go:998-1297 | every step of every participant keeps: rows have verified blobs, manifests have rows, lock holders are sound, listed rows are locked and still there |
| StoreInvariants.StoreStepKeepsLocks | internal/api/s3_engine_adapter.go:1307-1334 | under the lock the blob is there before the row |
| StoreInvariants.SweepRowKeepsLocks | internal/api/dedup_gc.go:222-238 | the sweep's row delete takes no row that a manifest names and leaves rows and locks sound |
| StoreInvariants.SweepBlobKeepsLocks | internal/api/dedup_gc.go:240-254 | a blob deleted under the lock after its row has no live row |
| StoreInvariants.CommitKeepsInv | internal/api/quota_accounting.go:137-169 | a commit keeps the invariant for every other open transaction, whatever snapshot it has |
| StoreInvariants.CloseKeepsInv | internal/api/account_deletion.go:139-201 | account deletion takes no row that anybody has locked and leaves every other transaction sound |
| StoreBooks.StepDrift | internal/crypto/gci.go:518-527 | the exact law of counts for every step: a commit adds the rows it removes minus those it listed, account deletion what it deletes minus what it releases, reconcile the count it took minus the count it finds, a lost compensation one; nothing else moves them |
| StoreBooks.CommitOnlyLeaks | internal/crypto/gci.go:573-607 | no commit ever releases more than it removes |
| StoreBooks.CommitKeepsBooksIff | internal/crypto/gci.go:490-514 | a commit keeps the books if and only if it removes exactly the rows it listed |
| StoreBooks.CloseKeepsBooksIff | internal/api/account_deletion.go:139-157 | account deletion keeps a chunk's books if and only if the clamped count it takes off is what its rows hold |
| StoreBooks.CloseFallsShortIff | internal/api/account_deletion.go:144-150 | it leaves a count short if and only if it counted more than its rows still hold and somebody else owns the chunk |
| StoreBooks.StepKeepsSolventIff | internal/crypto/gci.go:573-578 | counts cover their owners, and marked means zero, until such an account deletion and nothing else |
| StoreBooks.HeldIsCounted | internal/api/s3_chunked_put_pool.go:283-288 | what an upload holds a reference on is indexed with a positive count |
| StoreSafety.NoRunLosesAChunk | internal/api/dedup_gc.go:184-256 | in every run a row implies its verified blob and what a manifest names has its row; unless an account deletion overdraws, whatever has an owner is counted for each and never marked |
| StoreSafety.ManifestChunkLives | internal/api/s3_engine_adapter.go:1435-1482 | whatever a manifest names is indexed and stored with the right bytes |
| StoreSafety.ReferencesConserved | internal/api/s3_engine_adapter.go:1058-1078 | after every run a count is manifest rows plus references of unfinished uploads plus what the steps gained, so exact if and only if that cancels |
| StoreOverlaps.LeaksIffRowBorn | internal/crypto/gci.go:573-637 | whatever happens between a transaction's SELECT and its commit, it leaks if and only if it deletes or overwrites a row that came after the SELECT's snapshot |
| StoreOverlaps.LeakNeedsOverlap | internal/crypto/gci.go:574-578 | it leaks nothing when the rows it commits over are those its SELECT saw |
| StoreOverlaps.CommitLeaksIff | internal/crypto/gci.go:486-514 | the same of a commit and the snapshot it went on from |
| StoreOverlaps.HeldRowsAreKept | internal/crypto/gci.go:490-494 | while a transaction holds an object's rows nobody else changes them |
| StoreSafety.AccountDriftNeedsOverlap | internal/api/account_deletion.go:139-157 | an account deletion whose tenant's rows nobody changes after its count releases exactly what it deletes |
| StoreSafety.InstallNeverViolatesForeignKey | internal/database/migrations/054_dedup_scope.sql:37-40 | an upload can always install what it was granted |
| StoreSafety.WaiterAlwaysGranted | internal/api/s3_chunked_put_pool.go:277-289 | an increment on a chunk the upload already holds never finds 0 rows |
| StoreSafety.CompensationIsExact | internal/api/s3_engine_adapter.go:1066-1078 | releasing the snapshot lowers each count by exactly what was granted and changes nothing else |
| StoreSafety.AbortedPutRestoresCounts | internal/api/s3_engine_adapter.go:1058-1078 | whatever happened in between, equal owners mean equal counts up to what the run gained |
| StoreSafety.SweepReclaims | internal/api/dedup_gc.go:133-256 | an unowned chunk is removed, row and blob and nothing else, by one undisturbed sweep |
| StoreSafety.ReconcileHealsIff | internal/api/dedup_gc.go:98-129 | a reset row has exactly as many references too many as manifest rows naming it went after the count, none too few; rows that had not drifted are left alone |
| StoreSafety.ReconcileHeals | internal/api/dedup_gc.go:98-129 | a drift counted on an idle row is gone after the reset, whatever else happens in between, if no manifest row naming the chunk comes or goes |
| StoreSafety.ReconcileNeedsTheGracePeriod | internal/api/dedup_gc.go:98-100 | without the grace period a reset row keeps enough references for its owners if and only if no upload holds one and no more rows name it than were counted |
| LeakRuns.RacingFirstWritesLeak | internal/api/s3_engine_adapter.go:1188-1193 | a run in which both requests look for the head row before either commits ends with a reference nobody owns |
| LeakRuns.OvertakenDeleteLeaks | internal/crypto/gci.go:486-514 | a run in which an overwrite commits while DELETE waits for its rows ends with no object and a reference left |
| LeakRuns.UncountedManifestLeaks | internal/api/account_deletion.go:139-163 | a run in which a manifest is installed between the count and the delete leaves its references behind |
| LeakRuns.DoubleReleaseMarksALiveChunk | internal/api/account_deletion.go:144-150 | a run in which a counted reference is released twice marks a chunk that another tenant's object names |
| LeakRuns.StaleReconcileKeepsLeak | internal/api/dedup_gc.go:101-129 | a run in which a leak that reconcile had counted is still there after its reset |
| Refinement.StepMeetsAt | internal/api/s3_engine_adapter.go:885-914 | seen at one object, a step does to GET what its request promises and leaves the object servable, if and only if its guard holds; steps about other objects need none |
| Refinement.StepRefines | internal/api/s3_engine_adapter.go:483-495 | each step does to every GET what it does to a plain map, and leaves every object servable, if and only if its guard holds |
| Refinement.InstalledAnswer | internal/api/s3_engine_adapter.go:1546-1556 | whatever rows lie behind the installed ones, GET answers the installed pieces up to the declared size, if that ends on one of them |
| Refinement.GetReturnsLastWrite | internal/api/s3_engine_adapter.go:313-334 | after any run in which the steps about a key meet their guards, GET of it returns the last write, or nothing, and never breaks off |
| Refinement.WholeWriteMends | internal/api/s3_engine_adapter.go:891-914 | whatever was wrong before, once a chunked PUT, or a plain PUT that finds its own blob, commits, GET answers its bytes |
| Refinement.LastWriteWins | internal/api/s3_engine_adapter.go:891-914 | after any run at all, from such a write on only the guards of later steps about its key matter |
| Refinement.CopyWritesSourceBytes | internal/api/s3_copy.go:367-469 | whatever happens during a copy, it answers what its source answered at its first query if and only if the size it read later is of that version |
| StaleBlobs.StaleBlobOrigin | internal/api/s3_engine_adapter.go:1237-1247 | only a failed best-effort delete, or a plain PUT refused or failing over a chunked object, leaves a blob nobody attends to |
| StaleBlobs.NoStaleBlobAtRest | internal/api/s3_engine_adapter.go:1237-1247 | after any run without those, once all requests are done, no chunked object has a blob beside it |
| StaleBlobs.CleanupIsInvisible | internal/api/s3_engine_adapter.go:1237-1247 | however late the old blob is deleted, nobody sees it unless a plain write, a DELETE or an account deletion of the object took effect in between |
| StaleBlobs.OrphanOrigin | internal/api/quota_accounting.go:137-169 | exactly two steps leave a manifest without a chunked head row: a plain write that deleted none of its rows, and a DELETE's last statement overtaken by an install |
| RequestRuns.DeleteRemovesUnlessStaleBlob | internal/api/s3_engine_adapter.go:1798-1847 | after an undisturbed DELETE each reference is released once, and the key is gone if and only if no old blob lay under the chunked object |
| FailureRuns.LateCleanupLosesAWrite | internal/api/s3_engine_adapter.go:1237-1247 | a run in which a finished plain PUT is served, and is gone after an earlier request's cleanup |
| FailureRuns.DeletedObjectComesBack | internal/api/s3_engine_adapter.go:1798-1847 | a run in which an object is served with its old bytes after DELETE |
| FailureRuns.RejectedPutOverwrites | internal/api/s3_engine_adapter.go:856-867 | a run in which a refused plain PUT's bytes are served if the old length is theirs or zero, and the object cannot be served otherwise |
| FailureRuns.FailedOverwriteIsTorn | internal/api/s3_engine_adapter.go:885-914 | a run in which a plain overwrite whose head upsert fails leaves an object that is served if and only if its length is the old one or the old was zero |
| FailureRuns.CopyCrashes | internal/api/s3_copy.go:367-442 | a run in which a copy finds no metadata row for a source it could read a moment before, and dies |
| FailureRuns.OvertakenWriteTakesEffectTwice | internal/api/s3_engine_adapter.go:891-914 | a run in which GET answers a plain PUT's bytes, then a chunked PUT's, then the plain PUT's again |
| FailureRuns.StaleCopyIsNeither | internal/api/s3_copy.go:367-381 | a run in which a copy commits and answers neither version of its source |
| GetSteps.GetAnswersOneVersion | internal/api/s3_engine_adapter.go:1435-1482 | whatever others do between its reads, a chunked GET answers bytes of the one manifest it read, and what the object was then if and only if the declared size is still the head row's |
| GetSteps.StepKeepsSound | internal/api/s3_engine_adapter.go:1383-1400 | every chunk fetched has the bytes it had when the manifest was read |
| GetSteps.UndisturbedGet | internal/api/s3_engine_adapter.go:1424-1556 | with nobody in between and no failed read, the reads answer what reading everything at once answers |
| GetSteps.PlainGetAnswersOneBlob | internal/api/s3_engine_adapter.go:483-495 | a GET of a whole object answers the one blob it read, in full, if and only if it fits the length declared before |
| JointUpload.StepKeepsCoupled | internal/api/s3_chunked_put_pool.go:136-293 | whatever the pool and everybody else do, the references the store says the upload holds are those its pool was granted, and its locks are its running stores |
| JointUpload.RunsProject | internal/api/s3_chunked_put_pool.go:254-293 | a joint run is a run of the pool and a run of the store |
| JointUpload.JoinedUploadInstalls | internal/api/s3_engine_adapter.go:1193-1207 | when join reports no error the sorted rows are exactly what the upload holds, so their install can open |
| JointUpload.JoinedUploadCompensates | internal/api/s3_engine_adapter.go:1058-1078 | however the upload ended, its snapshot can be released step by step and lowers each count by exactly what was granted |
| ChunkStorePool.StorePoolFields.NoteDuplicate | internal/api/s3_chunked_put_pool.go:136-145 | registers a waiter exactly when the hash is in flight |
| ChunkStorePool.StorePoolFields.AddRef | internal/api/s3_chunked_put_pool.go:148-163 | one taken reference and its manifest row |
| ChunkStorePool.StorePoolFields.Submit | internal/api/s3_chunked_put_pool.go:168-173 | the hash is in flight with no waiters |
| ChunkStorePool.StorePoolFields.GrantWaiters | internal/api/s3_chunked_put_pool.go:276-291 | waiters up to the first refusal are recorded, the rest dropped with an error; a run of the pool system |
| ChunkStorePool.StorePoolFields.Collect | internal/api/s3_chunked_put_pool.go:254-293 | one collector turn: the whole new state, and that it is a run of the pool system |
| StorePool.StepKeepsInv | internal/api/s3_chunked_put_pool.go:136-307 | every step keeps: each chunk in exactly one place, each grant recorded or about to be, rows right, hashes in flight owned, workers counted |
| StorePool.StepKeepsBooks | internal/api/s3_chunked_put_pool.go:254-293 | a step only moves a chunk and its reference from one place to the next |
| PoolTheorems.JoinedManifest | internal/api/s3_chunked_put_pool.go:299-317 | if join reports no error the sorted rows are the one manifest, with one reference a row, whatever the schedule |
| PoolTheorems.ManifestIsWhatWasGranted | internal/api/s3_engine_adapter.go:1147-1153 | the installed manifest names each hash as often as the index granted it |
| PoolTheorems.CompensationSnapshotIsExact | internal/api/s3_chunked_put_pool.go:250-325 | however the upload ended, the snapshot lists each hash exactly as often as it was granted |
| PoolTheorems.NeverStuck | internal/api/s3_chunked_put_pool.go:168-180 | until join can return some goroutine can step |
| PoolTheorems.StepWorks | internal/api/s3_chunked_put_pool.go:168-180 | every step lowers the work left |
| PoolTheorems.JoinReturns | internal/api/s3_chunked_put_pool.go:299-307 | every schedule is short, and one that cannot go on has joined |
| Prefetch.StepKeepsInv | internal/api/s3_engine_adapter.go:1591-1678 | every step keeps slots counted, fetches in order and checked, and what was sent a run of whole slices |
| Prefetch.AlwaysAPrefix | internal/api/s3_engine_adapter.go:1591-1678 | bytes written are always a prefix of the plan, all checked; a finished response is the whole plan |
| Prefetch.RangeGet | internal/api/s3_engine_adapter.go:1503-1678 | a finished range response is exactly the requested bytes of the object |
| Prefetch.BadFirstChunkSendsNothing | internal/api/s3_engine_adapter.go:1613-1639 | a bad first chunk aborts before headers or bytes, for good |
| Prefetch.OnlyFailuresAbort | internal/api/s3_engine_adapter.go:1618-1672 | only a failed fetch or client aborts a response |
| Prefetch.BuffersBounded | internal/api/s3_engine_adapter.go:1566-1575 | launched and not received stays within the bound; buffers exceed it by one exactly while writing with every slot taken |
| Prefetch.BufferBoundExceeded | internal/api/s3_engine_adapter.go:1566-1575 | every longer plan has a schedule with one buffer too many |
| Prefetch.NeverStuck | internal/api/s3_engine_adapter.go:1591-1625 | until everything is quiet some goroutine can step: the awaited chunk is launched or can be |
| Prefetch.HandlerReturns | internal/api/s3_engine_adapter.go:1576-1678 | every schedule ends with no goroutine left, and with the whole plan if nothing failed |
| RangePlan.ClosedRange | internal/api/range.go:37-76 | first-last ranges as in section 14.1.2 of RFC 9110, clamped to the object, except positions over 64 bits |
| RangePlan.OpenRange | internal/api/range.go:37-76 | first- ranges reach to the end |
| RangePlan.SuffixRange | internal/api/range.go:37-76 | suffix ranges are the last bytes, the whole object if shorter, unsatisfiable if zero |
| RangePlan.AcceptedRangeIsInside | internal/api/range.go:17-77 | whatever the header, an accepted range lies inside the object |
| RangePlan.BuildPlan | internal/api/s3_engine_adapter.go:1494-1544 | the loop builds the plan that the lemmas below describe |
| RangePlan.RangeServesRequestedBytes | internal/api/s3_engine_adapter.go:1503-1534 | slices stay inside their chunks, none is empty, they add up to the length and are the requested bytes |
| RangePlan.WholePlanServesObject | internal/api/s3_engine_adapter.go:1535-1539 | the plan of a full GET is the object |
| AwsChunked.AwsChunkedReader.Read | internal/api/s3_engine_adapter.go:128-175 | whatever the buffer and the short read, the bytes delivered are what the rest of the body decodes to; after EOF only EOF |
| AwsChunked.ReadAll | internal/api/s3_engine_adapter.go:128-175 | the payload and the way it ends depend on the body alone |
| AwsChunked.RoundTrip | internal/api/s3_engine_adapter.go:107-175 | any split, numerals, extensions and trailer decode to the payload and a clean end |
| AwsChunked.DecodePrefix | internal/api/s3_engine_adapter.go:128-175 | a cut-off body decodes to a prefix with a clean end, or to the same thing |
| AwsChunked.LengthCheckCatchesTruncation | internal/api/s3_engine_adapter.go:856-867 | of an encoding cut off anywhere PUT accepts only what holds the whole payload |
| AwsChunked.NegativeSizeCrashes | internal/api/s3_engine_adapter.go:148-167 | a size line with a minus sign crashes the reader exactly when its value fits and is not zero |
| Quota.StepDrift | internal/api/quota_accounting.go:15-25 | the exact law of every step: drift grows by clamped bytes, by bytes overwritten unseen and by reservations of crashed requests, and by nothing else |
| Quota.Conservation | internal/api/quota_accounting.go:15-25 | the counter never under-bills, and at quiescence it is the stored bytes if and only if nothing was lost |
| Quota.HonestNeverClamps | internal/usage/quota_manager.go:117-133 | while writers keep to their reservations no release asks for more than the counter holds |
| Quota.HonestRunsLoseOnlyRaces | internal/api/quota_accounting.go:99-105 | then only rows overwritten unseen and crashed requests make the counter drift |
| Quota.StepKeepsLocks | internal/api/quota_accounting.go:146-169 | a locked row stays there, with the size that was seen, locked once |
| Quota.OnlyShortfallsPassTheLimit | internal/api/quota_accounting.go:48-62 | only accounting bytes already stored takes the counter past the limit |
| Quota.RacingFirstWritesDrift | internal/api/quota_accounting.go:146-153 | a concrete run that bills one object twice |
| Quota.CrashStaysBilled | internal/api/s3_copy.go:345-370 | a run in which a request that crashes after its reservation stays billed |
| Quota.EarlyDeleteDrifts | internal/api/s3_copy.go:172-182 | a concrete run that bills a deleted object |
| Quota.TenantStorage.CheckAndReserve | internal/usage/quota_manager.go:68-115 | reserves exactly when the limit allows it |
| Quota.TenantStorage.ReleaseQuota | internal/usage/quota_manager.go:120-133 | subtracts with a clamp at zero, adds a negative amount |
| Quota.TenantStorage.SettlePutQuota | internal/api/quota_accounting.go:37-70 | all three branches end at the same two releases |
| Quota.TenantStorage.AtomicHeadUpsert | internal/api/quota_accounting.go:137-169 | returns the size it displaced, or changes nothing |
| Quota.TenantStorage.DeleteObjects | internal/api/s3_batch.go:104-190 | refused keys are reported and kept; every other row goes and its bytes are released once, however often it is listed |
| LikeEscape.PassesEscapeEach | internal/api/s3_list.go:225-227 | the three passes equal escaping each character once |
| LikeEscape.ListingFilterIsPrefix | internal/api/s3_list.go:225-228 | the filter selects a key exactly when it starts with the prefix |
| UrlEncode.EncodesEach | internal/api/s3_list.go:72-74 | the replacement hits exactly the aligned escapes of slashes |
| UrlEncode.EncodingRoundTrip | internal/api/s3_list.go:64-74 | every byte string comes back from query-unescaping |
| UrlEncode.EncodingIsPlain | internal/api/s3_list.go:64-74 | only characters that XML carries are left |
| Listing.ResumeAfter | internal/api/s3_list.go:213-262 | fetching from a returned key gives exactly the keys after it |
| Listing.BatchGivesSamePage | internal/api/s3_list.go:213-216 | the database batch gives the page of the full driver listing |
| Listing.TruncatedPageHasToken | internal/api/s3_list.go:340-354 | a truncated page can be continued if and only if max-keys is not zero |
| Listing.PagesAreComplete | internal/api/s3_list.go:136-185 | following tokens ends and yields every matching key once, in order |
| Grouping.ProcessListEntries | internal/api/s3_list.go:356-387 | the page shows exactly the entries before the cut, fills max-keys when cut, and names the first key not shown |
| Grouping.ListsRepresent | internal/api/s3_list.go:362-384 | contents and common prefixes hold exactly the items of the entries |
| Grouping.PrefixesAscend | internal/api/s3_list.go:366-377 | common prefixes are strictly ascending, so without duplicates |
| Grouping.GroupsAreContiguous | internal/api/s3_list.go:366-377 | keys between two keys of a group are in that group |
| Grouping.KeyAtCut | internal/api/s3_list.go:356-387 | no item is listed twice; the key at the cut is represented later if and only if the next key is in its group |
| Grouping.MiddleIsSkipped | internal/api/s3_list.go:356-387 | of any three plain keys, one to a page, the second never shows up |
| Grouping.TruncatedIffTooMany | internal/api/s3_list.go:356-387 | truncated means the fetched rows need more than max-keys items |
| Grouping.CompleteDespiteLimit | internal/api/s3_list.go:214-223 | when more rows exist than were fetched, the page reported complete is so if and only if the last row is in the last fetched group |
| EditDistance.Symmetric | internal/api/s3_errors.go:264-267 | the distance does not depend on the order, so swapping is safe |
| EditDistance.NothingCheaper | internal/api/s3_errors.go:262-293 | no edit sequence is cheaper |
| EditDistance.SomeEditsReachIt | internal/api/s3_errors.go:262-293 | some edit sequence is that cheap |
| EditDistance.FillRow | internal/api/s3_errors.go:279-290 | one row of distances from the row above |
| EditDistance.Levenshtein | internal/api/s3_errors.go:264-293 | the two-row loop with its swap computes the distance |
| OnCall.Rotation.Schedule | internal/alerting/oncall.go:175-205 | consecutive shifts from the aligned boundary until the window ends |
| OnCall.Rotation.AlignToBoundary | internal/alerting/oncall.go:182-189 | the last boundary not after the start, or one shift before the rotation |
| OnCall.Contiguous | internal/alerting/oncall.go:191-202 | shifts follow each other without gap or overlap |
| OnCall.UserHoldsShift | internal/alerting/oncall.go:125-140 | one user is on call through a whole shift |
| OnCall.CoversWindow | internal/alerting/oncall.go:175-205 | the window is covered if and only if it is empty or starts no earlier than one shift before the rotation |
| OnCall.NextHandoffIsLeast | internal/alerting/oncall.go:208-221 | the least shift start after now, with one user until then |
| Bandwidth.BandwidthTracker.Append | internal/api/bandwidth.go:78-91 | the first critical section: the event is buffered, and a full buffer is to be flushed |
| Bandwidth.BandwidthTracker.RecordWithBackend | internal/api/bandwidth.go:78-96 | what the tracker then holds for every tenant and backend, full buffers flushed, with nobody in between |
| Bandwidth.BandwidthTracker.Flush | internal/api/bandwidth.go:148-226 | every tenant's and backend's usage moves from the buffer to its row, or is lost with its failed write |
| Bandwidth.Aggregate | internal/api/bandwidth.go:163-193 | totals by tenant and by backend are the sums over the events |
| Bandwidth.WriteRows | internal/api/bandwidth.go:198-226 | in any order of names the rows gain exactly the totals whose writes succeed |
| Bandwidth.RunKeepsBalance | internal/api/bandwidth.go:78-226 | over every interleaving of appends and flushes persisted plus buffered plus lost is what was recorded, and nothing is lost without a failed write |

## Left out

- `cmd/dedup-migrate`: takes no advisory lock and is assumed not to run beside the store.
- Connection loss: an advisory lock dropped with its connection in the middle of a sweep, and commits whose outcome the client cannot know, are not steps of the protocol.
- Lock keys: `hashtext` collisions only make unrelated chunks wait for each other.
- Encodings: one encoding per scope and hash is assumed; what a conflicting insert keeps in the encoding columns is not modelled.
- GET: ETags are not modelled, so a GET that answers a version of the same size read later than its head row counts as
  that version. How a response under a declared length other than the blob's ends is one outcome, `Torn`: it breaks off,
  or, if a longer blob's write happens to end there, has the right length and the blob's first bytes.
- Statements: a DELETE of manifest rows that has to wait sees the table after the wait; a transaction's inserts and its
  changes of counts take effect at its commit, until which it holds their rows; so do the UPDATE of an account deletion
  and of a reconcile, after the snapshot they count in.
- HandleDelete's read of `is_chunked`: a DELETE may take either branch in any state.
- A backend write of a whole-object blob that fails half-way: the blob is written or not.
- Range requests on a manifest with rows left behind by an unseen install: only the full GET is modelled there.
- Account deletion: whole-object blobs of the tenant are not deleted by it, and its other tables are left out.
- Time: the grace period is the set of rows reconcile may reset, on which no reference was taken since its count, and the
  sweep's age limit is left out, so sweeps may come earlier than in the code.
- Versioned buckets, multipart uploads, archive tiers and server-side encryption of whole objects.
- Plain copy whose head-row update fails, quota calls that fail and are only logged, and quota reconcile under traffic: the code accepts drift there.
- Integer widths: quota, usage and time arithmetic is unbounded; range positions and chunk sizes have their 64-bit limits.
- AwsChunked.SizeOf: white space is ASCII; transport errors other than end of stream are left out.
- LikeEscape.Like: a pattern that ends in the escape character is an error in PostgreSQL and matches nothing here.
- Listing.Less: keys are ordered by bytes, as with collation C.
- UrlEncode.S3UrlEncode: continuation tokens (base64) are left out.
- `serveRange`, conditional requests, headers, XML, notifications, rate limiters, alert rules, overrides and dashboards: plumbing without a hard property.
