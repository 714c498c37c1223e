# Verified model of the launcher's sync, origin, vault and download engines

A Dafny model of four stateful engines of the repository, and proofs about every run of them.
`dafny verify dfyconfig.toml` checks the whole project. The files, engine by engine:

**Account history sync.** A relay answers at most 200 events per query. `Intervals` is the interval algebra of
coverage, `CoverageStore` the coverage records as the object that transactions change, `StoreLaws` what each transaction
keeps and accepts, `CoverageLaws` what a batch of claims means, `Pages` the subdivision of saturated reads, `Jobs`,
`JobLaws`, `JobTiling` and `CatchUp` the historical jobs, `Scans` what the scans of all jobs leave in the records once their
checkpoints are committed, `Checkpoints` and `CheckpointLaws` the queue that batches claims. `Sync` with `SyncSafety` is
the whole engine as a step machine with aborts, crashes and database resets, and nothing it claims is unfounded;
`SyncClaims` is the other direction: every page that ends is claimed, and claims that are committed cover what was asked
for. A relay is a fixed set of events; an answer may hold any events, and holds all matching ones only when it ends with
EOSE below the limit.

**App origins.** `Subdomains` gives every operation of the allocator as the list of its storage writes, together with the
object that performs them; `SubdomainLaws` says which writes can endanger a tenant, `SubdomainTidy` what the storage looks
like between operations, from empty storage and from storage of earlier versions alike, and `SubdomainRecovery` what one
maintenance pass finds after a crash at any write. `SubdomainProtocol` interleaves any number of tabs, one write at a
time, with a crash possible after each, `SubdomainRuns` carries order and tokens through its runs, and
`SubdomainLiveness` says what each operation answers on any storage, and that operations, reservations and cleanups that
nobody disturbs get done.

**Vault requests.** `VaultQueue` is the scheduler on values with its invariant over all runs, `VaultFairness` traces
each dispatch of a run to the round that chose it, and `VaultLaws` says who gets which answer and that no job waits while
it could be sent; `VaultScheduler` is the object with mutable queues, proved to do exactly what the specification says.

**Chunk downloads.** `BatchSelection` is the positional stepping, `RangeDownload` the synchronous pieces of the range
downloader with the total known or discovered, `RangeSafety` its invariant, termination and delivery theorems, `RangeLaws`
what it asks for, in which order, and when it gives an index up, `RangeForgotten` exactly when an index can be forgotten,
`RangeDownloader` the object; `Windows`, `WindowLaws` and `FileDownloader` are the same for the orchestrator of ranges.
`Workers` bounds what a range downloader can report, and `Orchestration` is the whole download: the orchestrator with its
range downloaders, which refines the window machine. `Chunks`, `Blossom` and `ByteRanges` cover the fixed-size chunks, the
re-chunker under wrong size hints, and byte-range serving. `Basics` and `Sorting` are shared.

Wherever the program mutates an object, a class here does the same and its methods are proved equal to a function on
values; theorems about runs are lemmas about those functions. Asynchronous code is cut at its awaits: each piece that
runs without interruption is one step, and steps interleave freely.

Six statements turned out to be false of the code in full generality. They are kept as lemmas with a witness, next to the
exact condition under which the code does what is intended:

- Selecting a batch with an offset beyond the untried list picks undefined entries (`BatchSelection.UndefinedWitness`);
  it does so exactly when the list is shorter than both the offset and the batch (`BatchSelection.UndefinedExactly`).
- A `Range` header with a number that is not a safe integer is refused although RFC 9110 would satisfy it: a last position
  (`ByteRanges.HugeLastRefused`) or a suffix length (`ByteRanges.HugeSuffixRefused`). A header of the single-range form is
  answered as the standard says exactly when it is `Exact`, or invalid or unsatisfiable anyway (`ByteRanges.ParseFollowsStandard`).
- A flush of the checkpoint queue can end without an error although its caller's own claim failed
  (`Checkpoints.FailureTakenByAnother`, two callers of one batch). It does so if and only if another flush ended after the
  last failure (`Checkpoints.FailureHidden`): in every run the slot holds the first error since the last flush ended.
- With the any-author fallback and a total that is not known from the start, a range can finish with an index neither
  delivered nor reported (`RangeForgotten.ForgottenIndex`), and so a download can end well, with nothing missing, and short
  (`Orchestration.ForgottenDownload`). A new range downloader has such a run if and only if it may fall back, was told no total
  and may ask for more than index 0 (`RangeForgotten.ForgetsExactly`); only indexes after 0 up to the provisional end can be
  left (`RangeSafety.EachIndexOnce`). A download without an end index has one if and only if it may fall back, was told no total
  and its discovery window holds two chunks or more (`Orchestration.ForgetsExactly`).
- A download with an end index but no total does not end well with everything there when its discovery window passes the
  end: the chunks beyond it count as too many (`Windows.EndWithoutTotalFails`). The overrun is positive exactly in that case
  (`Windows.OverrunIs`); with a total, or without an end index, there is none (`Windows.SuccessTiles`).
- A crash can lose an origin that an earlier version left without an assignment token
  (`SubdomainRecovery.UntracedIdLost`): exactly when an allocation recycles it and dies after its first write
  (`SubdomainRecovery.CrashLosesNothing`). An id with a token is never lost, in any run (`SubdomainRuns.TokensSurvive`).

## Model

| member | source | states |
|---|---|---|
| Intervals.MergeCoverage | src/services/account-event-coverage.js:39-47 | the in-place merging loop computes `Merge`, for any list of ranges |
| Intervals.MergeDenotes | src/services/account-event-coverage.js:39-47 | merging yields the normal form: sorted, non-adjacent intervals covering exactly the same seconds |
| Intervals.NormalFormUnique | src/services/account-event-coverage.js:34-47 | two normal forms that cover the same seconds are the same list |
| Intervals.MergeCanonical | src/services/account-event-coverage.js:34-47 | range lists covering the same seconds, in any order and with any overlap, merge to one and the same list |
| Intervals.MergeInSteps | src/services/account-event-coverage.js:136-143 | merging in two rounds equals merging everything at once |
| Intervals.MissingCoverage | src/services/account-event-coverage.js:49-59 | the gap loop, with its early break, computes `Missing` |
| Intervals.MissingExact | src/services/account-event-coverage.js:49-59 | on normal forms the gaps are exactly the uncovered seconds of the window, disjoint, not adjacent, newest first |
| Intervals.FillingGapsCloses | src/services/account-event-coverage.js:39-59 | merging the gaps back equals merging the whole window, and leaves no gap |
| Intervals.RunInOneInterval | src/services/account-event-coverage.js:39-47 | a run of covered seconds lies inside one interval of a normal form |
| CoverageStore.AuditIsExact | src/services/storage-audit/audit.js:956-971 | the loop that audits a record accepts it exactly when its version and generation are current, its kind is registered, its fields name its key, and its intervals are a normal form of safe integers |
| CoverageStore.Store.Reconcile | src/services/account-event-coverage.js:147-158 | registers the kinds, keeps the generation, deletes exactly the unusable records |
| CoverageStore.Store.Read | src/services/account-event-coverage.js:159-174 | refuses unregistered kinds without a change; otherwise each row is the usable stored record or a fresh empty one, and other records stay |
| CoverageStore.Store.MarkBatch | src/services/account-event-coverage.js:111-145 | grouping by record, generation tests and conditional rewriting together commit exactly `MarkBatchOf`, or change nothing |
| CoverageLaws.ApplyDenotes | src/services/account-event-coverage.js:123-143 | after a commit a record covers exactly what it covered plus what the batch claims for it, as a normal form |
| CoverageLaws.ApplyInSteps | src/services/account-event-coverage.js:136-143 | two commits in a row are one commit of both lists of claims |
| CoverageLaws.BatchIsASet | src/services/account-event-coverage.js:111-145 | order, repetition and aborted requests make no difference to a batch |
| CoverageLaws.BatchEqualsAnySequence | src/services/account-event-coverage.js:111-145 | a batch commits exactly when each request alone would, and then equals committing them one by one in any order |
| CoverageLaws.BatchIdempotent | src/services/account-event-coverage.js:136-143 | repeating a committed batch changes nothing |
| CoverageLaws.StaleRequestChangesNothing | src/services/account-event-coverage.js:123-129 | one live request from another generation, or a missing registry, rejects the whole batch and changes nothing |
| StoreLaws.ReconcileIs | src/services/account-event-coverage.js:147-158 | which records survive a reconciliation, field by field: exactly those of version 1, of the kept generation, of a registered kind, filed under their own key, with sorted separate intervals of safe seconds |
| StoreLaws.ReadIs | src/services/account-event-coverage.js:159-174 | a read is refused exactly when a kind is not registered, and changes nothing then; otherwise each row is the stored record if it can be kept and a fresh one if not |
| StoreLaws.CommitsExactly | src/services/account-event-coverage.js:111-145 | a batch commits if and only if every span is one of safe seconds and each record of each live request is still the one that was read; otherwise nothing changes |
| Pages.SplitPartitions | src/services/account-event-pages.js:45-57 | a split, wherever the oldest event lies, gives two non-empty smaller rectangles that partition the old one, the newer first |
| Pages.SplitIs | src/services/account-event-pages.js:45-57 | where a page is divided: right before the oldest second seen, in the middle if none was seen inside; a single second by authors, then by kinds, in halves that differ by at most one |
| Pages.AccountEventPages | src/services/account-event-pages.js:15-65 | for any relay answers: yielded and unread rectangles partition the box, newest first, after at most 2N-1 reads; yielded are exactly the rectangles read that ended with EOSE below 200 events, and single cells; every yielded rectangle was stored in full or is a single saturated cell; reading stops early only when the last read threw |
| Jobs.CombineJobs | src/services/account-events.js:217-226 | the grouping loop, deduplication, slicing into 30 kinds and sorting compute `Combined` |
| Jobs.JobsFor | src/services/account-events.js:227-241 | the job list is the combination of the gaps of every row inside its bounds |
| JobLaws.ByKindIs | src/services/account-events.js:227-241 | gaps with the same bounds and kind become one entry with all their authors |
| JobLaws.GroupedIs | src/services/account-events.js:217-225 | jobs with the same bounds and authors, in whatever order, become one group with all their kinds |
| JobLaws.CombinedIsCompact | src/services/account-events.js:217-226 | of combined jobs with the same bounds and authors at most one asks for fewer than 30 kinds: nothing that could share a query is left apart |
| JobTiling.CombinedTiles | src/services/account-events.js:217-226 | combining disjoint jobs keeps every cell's number of hits; at most 30 kinds a job, newest first |
| JobTiling.BackfillTiles | src/services/account-events.js:227-241 | the jobs read every missing (author, kind, second) cell exactly once and no cell that is not missing |
| JobTiling.SpansCover | src/services/account-events.js:179-190 | the ranges that completed jobs claim for an account and kind cover exactly the seconds of the cells that the jobs read |
| CatchUp.CatchUpJobs | src/services/account-events.js:321-332 | the catch-up loop computes the combination of every row's window before the recent one |
| CatchUp.CatchUpTiles | src/services/account-events.js:321-332 | catch-up jobs read each second of each row's window exactly once |
| JobLaws.CatchUpIs | src/services/account-events.js:321-332 | exactly which cells a catch-up wants: from ten minutes before the newest second a row covers, not before 0, up to the recent window |
| CatchUp.CatchUpContiguous | src/services/account-events.js:321-332 | coverage that holds the old intervals, the recent window and the catch-up windows has one interval from a row's old edge to the snapshot end |
| Scans.CommitCovers | src/services/account-events.js:179-190 | committing the checkpoints of confirmed rectangles succeeds, and an account's record then covers what it did plus exactly the rectangles' cells |
| Scans.ScansCover | src/services/account-events.js:194-212 | reading every job to its end and committing its checkpoints covers exactly the jobs' cells, however the reads were split |
| Scans.ScanCommits | src/services/account-events.js:194-212 | a batch of a scan's checkpoints, with any further requests that would commit alone, commits, whatever was committed before it |
| Scans.ScansCarried | src/services/account-events.js:194-212 | when each scan commits its checkpoints once, among any other batches, every checkpoint of every scan is in a batch that committed |
| Scans.BackfillLeavesNothing | src/services/account-events.js:242-254 | over any number of batches, once the checkpoints of all scans of a backfill were committed in some of them the stored records miss no second of their bounds, so the next one has no job |
| Scans.InitialPhaseContiguous | src/services/account-events.js:276-332 | over any number of batches, once the checkpoints of the recent window and of the catch-up jobs were committed in some of them a stored record has one interval from its old edge to the snapshot end |
| Scans.ScanByScanEnough | src/services/account-events.js:242-332 | one commit for each scan is enough for both phases |
| Checkpoints.EventKeeps | src/services/account-coverage-checkpoints.js:15-86 | every accepted claim is waiting, in flight, committed, failed or dropped, exactly once; waiting claims of an open queue have a timer, and no store is called without a request |
| Checkpoints.FlushHandsOver | src/services/account-coverage-checkpoints.js:63-73 | when the batches in flight after a flush's drain have settled, every claim accepted before it was committed, failed or dropped, but for those that wait in a queue closed already |
| Checkpoints.FailureSlot | src/services/account-coverage-checkpoints.js:43-48 | in every run the slot holds the first error since the last flush ended, so it is empty exactly when no claim has failed since |
| Checkpoints.FailureHidden | src/services/account-coverage-checkpoints.js:63-79 | a flush ends without error although a claim has failed if and only if an earlier flush ended after the last failure; if the claim failed after the flush began, so did that end |
| Checkpoints.FlushReports | src/services/account-coverage-checkpoints.js:63-79 | with no other flush ending in between, a flush reports no error exactly when the slot was empty and nothing failed meanwhile; then every claim accepted before it is committed, known to have failed, dropped, or left in a queue closed already |
| Checkpoints.FailureTakenByAnother | src/services/account-coverage-checkpoints.js:74-78 | witness run: two callers' claims fail in one batch, the first flush to end gets the error, the second ends without one |
| CheckpointLaws.QueueIs | src/services/account-coverage-checkpoints.js:53-62 | a claim is accepted, waits and has a timer, unless the queue is stopped or aborted or the claim is aborted already |
| CheckpointLaws.DrainIs | src/services/account-coverage-checkpoints.js:16-50 | an open queue hands out as one batch behind those in flight exactly the waiting claims that are not aborted, and drops exactly the others |
| CheckpointLaws.SettleIs | src/services/account-coverage-checkpoints.js:43-48 | claims are committed or failed as their own store answered; the first error in the order of the stores is kept, unless an older one is |
| CheckpointLaws.AbortedStays | src/services/account-coverage-checkpoints.js:28-54 | an aborted queue accepts nothing more and starts no batch, whatever comes |
| CheckpointLaws.RunQuiet | src/services/account-coverage-checkpoints.js:80-85 | over every run: once stopped, the queue accepts nothing, has no timer and nothing waiting |
| Checkpoints.CheckpointQueue.Take | src/services/account-coverage-checkpoints.js:16-27 | hands out the living requests store by store and forgets groups without any |
| Checkpoints.CheckpointQueue.Drain | src/services/account-coverage-checkpoints.js:36-50 | appends one batch to the chain, or clears a closed queue |
| Checkpoints.CheckpointQueue.OnSettled | src/services/account-coverage-checkpoints.js:43-48 | tells committed from failed claims store by store, keeps only the first error and wakes the timer when more is waiting |
| SyncSafety.StepKeeps | src/services/account-events.js:152-212 | every step of the engine, including aborts, crashes, resets and commits of any batch, keeps the soundness invariant |
| SyncSafety.CheckpointsSound | src/services/account-events.js:179-190 | a page is claimed only for active authors, and only when all its events are resolved or the cell was reported |
| SyncSafety.CommittedSound | src/services/account-event-coverage.js:111-145 | committing any queued requests leaves only resolved seconds covered, because of the generation fence |
| SyncSafety.SyncSound | src/services/account-events.js:152-332 | in every state of every run, each second of stored coverage has all its storable relay events resolved, except cells reported as saturated |
| SyncClaims.PageIsClaimed | src/services/account-events.js:179-190 | the end of a page queues exactly one request for each active account that takes part and for no other, with every kind of the page at its relay, the generation that was read and the bounds of the page; nothing else changes but the page |
| SyncClaims.DeliveryIsStored | src/services/account-events.js:152-160 | an event that arrives is stored exactly for an active author that takes part, if the page asks for it and such events are kept |
| SyncClaims.ScanConserves | src/services/account-events.js:194-212 | over every run, as long as a scan lasts, each of its cells is in the pages that ended or in those still to be read, exactly as often as at the beginning |
| SyncClaims.ScanIsClaimed | src/services/account-events.js:194-212 | over every run, each checkpoint that `Scans` derives from the ended pages of a scan was queued in the engine, for an account that took part |
| SyncClaims.CommitCoversPage | src/services/account-event-coverage.js:111-145 | committing a page's request, among others of current records, makes the account's records cover every cell of the page |
| SyncClaims.EngineCovers | src/services/account-events.js:152-332 | over every run of the whole engine: when a scan was read to its end, its account took part, its claims were committed and its database was not disturbed, the records cover every cell that the scan asked for |
| Subdomains.Storage.InitializeLifecycle | src/helpers/subdomain-mapping.js:64-74 | quarantines an unversioned free list before dropping it |
| Subdomains.Storage.Maintain | src/helpers/subdomain-mapping.js:92-117 | performs exactly the writes of the maintenance plan |
| Subdomains.Storage.Allocate | src/helpers/subdomain-mapping.js:119-160 | performs exactly the writes of the allocation plan and returns its result |
| Subdomains.Storage.Retire | src/helpers/subdomain-mapping.js:163-176 | performs exactly the writes of the retirement plan, quarantine first |
| Subdomains.Storage.Release | src/helpers/subdomain-mapping.js:178-186 | retires only for the pair that owns the id in both directions |
| Subdomains.Storage.RetireFor | src/helpers/subdomain-mapping.js:188-216 | retires each selected id once and drops every forward key that still names it |
| Subdomains.Storage.Free | src/services/subdomain-cleanup.js:49-56 | frees an id that is still quarantined and unmapped, free list first |
| Subdomains.FreshUnmapped | src/helpers/subdomain-mapping.js:148-152 | a fresh id is not known at all, so the probing loop never iterates |
| SubdomainLaws.CarefulProtects | src/helpers/subdomain-mapping.js:119-176 | a careful write keeps storage consistent and every origin held for its pair |
| SubdomainLaws.AllocateCareful | src/helpers/subdomain-mapping.js:119-160 | every write of an allocation is careful, from any consistent storage |
| SubdomainLaws.RetireForCareful | src/helpers/subdomain-mapping.js:188-216 | every write of a selective retirement is careful |
| SubdomainTidy.FreshBeyond | src/helpers/subdomain-mapping.js:148-152 | a fresh id is above everything known, in any storage; when the counter exceeds every known id, it is the counter itself |
| SubdomainTidy.LegacyOrderly | src/helpers/subdomain-mapping.js:64-74 | storage of an earlier version, with inverse maps and no tokens, is in order |
| SubdomainTidy.AllocateOrderly | src/helpers/subdomain-mapping.js:119-160 | a pair keeps its id; a new id was free or unknown; every other pair keeps its own; storage stays in order and a sound counter sound |
| SubdomainTidy.RetireOrderly | src/helpers/subdomain-mapping.js:163-176 | retiring any id quarantines it and removes its mapping only; the counter stays sound exactly when it was and the id is below it |
| SubdomainTidy.ReleaseOrderly | src/helpers/subdomain-mapping.js:178-186 | releasing takes away exactly the pair's own mapping, and nothing when the id is not its own |
| SubdomainTidy.RetireForExact | src/helpers/subdomain-mapping.js:188-216 | exactly the selected pairs lose their mappings, in both directions, from any inverse maps |
| SubdomainTidy.RetireForRemovesNamed | src/helpers/subdomain-mapping.js:188-216 | from inverse maps: one app of one user, all apps of a user, one app of all users, or everything, is gone in both directions, and nothing else |
| SubdomainTidy.SelectedExactly | src/helpers/subdomain-mapping.js:188-206 | on inverse maps the selection is the ids of the matching pairs, whichever map it is read from |
| SubdomainTidy.FreeOrderly | src/services/subdomain-cleanup.js:49-56 | a confirmed cleanup moves the id from quarantine to the free list, and keeps storage in order |
| SubdomainTidy.MaintainRestores | src/helpers/subdomain-mapping.js:92-117 | one pass puts storage with inverse, disjoint maps in order whatever ids lack a token or got lost; the counter becomes sound exactly when every known id leaves room for it |
| SubdomainTidy.MaintainTidy | src/helpers/subdomain-mapping.js:92-117 | maintenance finds nothing to repair in tidy storage |
| SubdomainTidy.OpOrderly | src/helpers/subdomain-mapping.js:92-216 | every complete operation keeps storage in order |
| SubdomainRecovery.MaintainAccounts | src/helpers/subdomain-mapping.js:92-104 | from any storage, maintenance leaves mapped, quarantined or free exactly the ids that were or that hold a token |
| SubdomainRecovery.CrashLosesNothing | src/helpers/subdomain-mapping.js:92-216 | on any storage, after a crash at any write of any operation one maintenance pass accounts for every id tracked before or after it, but for one exact exception: an untraced id being recycled |
| SubdomainRecovery.TokenNeverLost | src/helpers/subdomain-mapping.js:92-216 | an id that holds a token is accounted for after a crash at any write of any operation |
| SubdomainRecovery.FreeingLosesNothing | src/services/subdomain-cleanup.js:49-56 | the commit of a cleanup loses nothing, wherever it stops |
| SubdomainRecovery.UntracedIdLost | src/helpers/subdomain-mapping.js:143-155 | witness: a free id without a token, a crash after the first write of its allocation, and no pass finds it |
| SubdomainRuns.TokensSurvive | src/helpers/subdomain-mapping.js:92-216 | in every run, with crashes anywhere, an id that ever got a token keeps it, and a pass at any later moment accounts for it |
| SubdomainRuns.InOrderAtRelease | src/helpers/subdomain-mapping.js:119-216 | at every lock release of a run without an interrupted operation storage is in order, and a sound counter stays sound while operations name ids below it |
| SubdomainRuns.OrderedFromTheStart | src/helpers/subdomain-mapping.js:64-216 | in particular when the run began on empty storage, or on storage of an earlier version with inverse maps and no tokens |
| SubdomainRuns.MaintenanceTidies | src/helpers/subdomain-mapping.js:92-117 | a maintenance pass in ordered storage of any version ends in tidy storage |
| SubdomainProtocol.StepKeeps | src/services/subdomain-cleanup.js:25-97 | every step of any tab, write by write, crash or not, keeps the protocol invariant |
| SubdomainProtocol.OriginIsolation | src/services/subdomain-cleanup.js:75-97 | no reachable state has two pairs using one origin |
| SubdomainProtocol.ClearIsExclusive | src/services/subdomain-cleanup.js:39-48 | an origin is cleared only while quarantined, unmapped and reserved by nobody |
| SubdomainProtocol.RecheckNeverFails | src/services/subdomain-cleanup.js:49-51 | the second eligibility test never fails |
| SubdomainProtocol.PassesOnlyThroughClear | src/services/subdomain-cleanup.js:39-61 | between uses by two pairs lies a confirmed clear of that origin |
| SubdomainLiveness.AllocateIs | src/helpers/subdomain-mapping.js:119-160 | which id an allocation answers with on any storage: the pair's own one, else the least free id that is neither in quarantine nor mapped, else the least id that is above everything known and not below the counter; and exactly when it fails |
| SubdomainLiveness.RetireIs | src/helpers/subdomain-mapping.js:163-176 | on any storage retiring quarantines the id, takes it off the free list and out of the reverse map, and of the forward map takes the key that named it back, and nothing else |
| SubdomainLiveness.ReleaseIs | src/helpers/subdomain-mapping.js:178-186 | a release retires exactly when both maps name the pair and the id, and writes nothing otherwise |
| SubdomainLiveness.SelectionIs | src/helpers/subdomain-mapping.js:190-206 | on any storage: an id is selected exactly if the reverse map gives it to a pair that is named, or if only a named pair's forward entry knows it |
| SubdomainLiveness.RetireForQuarantines | src/helpers/subdomain-mapping.js:207-213 | on any storage every selected id ends in quarantine and mapped neither way |
| SubdomainLiveness.OperationCompletes | src/helpers/subdomain-mapping.js:119-216 | a tab that gets the mapping lock and is not interrupted makes all writes of its operation and lets go of the lock |
| SubdomainLiveness.MatchIs | src/services/subdomain-cleanup.js:75-97 | a reservation is granted exactly when the forward map names the origin for the pair and the reverse map named nobody else |
| SubdomainLiveness.ReservationSucceeds | src/services/subdomain-cleanup.js:75-97 | where nobody interferes, a pair gets the origin that the maps give it, also when the reverse half was never written |
| SubdomainLiveness.CleanupFrees | src/services/subdomain-cleanup.js:39-61 | where nobody interferes, a quarantined, unused, unmapped origin is cleared and moves to the free list, and nothing else changes |
| SubdomainLiveness.LocksReleased | src/services/subdomain-cleanup.js:75-97 | a tab that ends a use, gives up, unlocks or dies loses exactly its own locks |
| VaultQueue.ServeKeeps | src/services/vault-request-queue.js:59-84 | a round of the drain keeps placement, caps, order and single settlement, and shortens the waiting queues |
| VaultQueue.PickIsDispatchable | src/services/vault-request-queue.js:60-67 | the picked job waits, passes every cap, and is the oldest waiting job of its class |
| VaultQueue.PriorityFirst | src/services/vault-request-queue.js:64-67 | a priority job is picked whenever one passes the caps, unless the last three dispatches were priority jobs and a normal one could be next |
| VaultLaws.DispatchableIs | src/services/vault-request-queue.js:59-65 | the caps in numbers of running jobs: four normal ones, two with chunks, two with archives |
| VaultLaws.ServeIs | src/services/vault-request-queue.js:68-83 | a picked job that expired is answered unsent; any other is sent, and runs unless it was answered early or threw |
| VaultQueue.DrainStopsWhenStuck | src/services/vault-request-queue.js:55-86 | a drain stops only at five running jobs or when no waiting job passes the caps |
| VaultQueue.NormalIsNotStarved | src/services/vault-request-queue.js:64-75 | after three priority dispatches in a row, a dispatchable normal job is next |
| VaultFairness.RunChose | src/services/vault-request-queue.js:55-86 | every dispatch in the history of a run was chosen by a round of one of its drains, whose own history ends right before it |
| VaultFairness.FourInARow | src/services/vault-request-queue.js:64-75 | in every run, when four priority jobs were dispatched in a row, no normal job that waited when the fourth was chosen could have been dispatched |
| VaultFairness.NormalAfterThree | src/services/vault-request-queue.js:64-75 | in every run, a normal job that was dispatched while a priority job could have been comes right after three priority dispatches |
| VaultQueue.DispatchedInOrder | src/services/vault-request-queue.js:64-73 | jobs of one class are dispatched in arrival order |
| VaultQueue.CancelKeeps | src/services/vault-request-queue.js:87-93 | canceling settles every job once and empties the queues |
| VaultQueue.CloseKeeps | src/services/vault-request-queue.js:121-121 | closing settles every job and drops the port |
| VaultQueue.RunSound | src/services/vault-request-queue.js:31-124 | in every reachable state each job is waiting, running or done, promises settle once, and the four caps hold |
| VaultLaws.CancelAnswers | src/services/vault-request-queue.js:87-93 | canceling answers every unfinished job with the given outcome and nobody else, and sends nothing |
| VaultLaws.EventAnswers | src/services/vault-request-queue.js:87-121 | who is answered with what when everything is canceled, the connection is lost, or the queue closes |
| VaultLaws.AskIs | src/services/vault-request-queue.js:95-113 | a job is taken in with its class and deadline, unless the queue is closed |
| VaultLaws.RunBusy | src/services/vault-request-queue.js:55-86 | in every reachable state with a port five jobs are running or the caps forbid every job that waits |
| VaultLaws.PortIs | src/services/vault-request-queue.js:114-121 | the port changes only when it is set or the queue closes, and a closed queue stays closed |
| VaultLaws.NothingIsSent | src/services/vault-request-queue.js:55-57 | without a port, or once closed, no event but a new port sends anything |
| VaultScheduler.Queue.Finish | src/services/vault-request-queue.js:40-54 | settling, removal and the drain it triggers, on the mutable queues |
| VaultScheduler.Queue.Drain | src/services/vault-request-queue.js:55-86 | the loop with its guard does exactly the rounds of the specification |
| VaultScheduler.Queue.Ask | src/services/vault-request-queue.js:95-113 | enqueues in arrival order and drains, or answers that the queue is closed |
| VaultScheduler.Queue.Cancel | src/services/vault-request-queue.js:87-93 | settles a snapshot while no port is set, and restores the port |
| VaultScheduler.Queue.SetPort | src/services/vault-request-queue.js:114-119 | cancels for a changed connection, then drains into the new port |
| BatchSelection.GetBatchIndexes | src/services/file-downloader/index.js:16-41 | the nested stepping loops select the first entries of the visiting order |
| BatchSelection.PositionsPermute | src/services/file-downloader/index.js:22-37 | with the offset inside the list every position is visited exactly once |
| BatchSelection.SelectionTheorem | src/services/file-downloader/index.js:16-41 | no duplicates, only the two lists, the largest possible size, and an in-flight index only after all untried ones |
| BatchSelection.BatchBegins | src/services/file-downloader/index.js:16-41 | the batch of a relay begins with the untried entries at its offset and every step after it, so that relays begin with different entries |
| BatchSelection.UndefinedExactly | src/services/file-downloader/index.js:31-34 | undefined entries appear exactly when the list is shorter than the offset and the batch, after every real entry |
| BatchSelection.UndefinedWitness | src/services/file-downloader/index.js:31-34 | offset 2, step 3, one index: the second entry is undefined |
| RangeSafety.ModeOpen | src/services/file-downloader/index.js:277-307 | a selection holds distinct missing indexes that this relay was not asked for, and is empty only if there are none |
| RangeLaws.Preference | src/services/file-downloader/index.js:278-293 | what a relay may be asked for, in order: what nobody fetches, by index; then what others fetch, fewest outstanding batches first, equals by index |
| RangeLaws.RequestIs | src/services/file-downloader/index.js:295-353 | a request sends one batch exactly when the run goes on, no batch of the relay is queued, fewer than three are out and something may be asked; any authors only when nothing is left for the own ones; as many indexes as fit, those that nobody fetches first |
| RangeLaws.RunAscends | src/services/file-downloader/index.js:271-284 | over every run the missing indexes stay ascending, so that the preference speaks of every reachable state |
| RangeLaws.RunBusy | src/services/file-downloader/index.js:337-358 | over every run, as long as it goes on, a relay without a batch could not be asked for anything |
| RangeSafety.StuckIsReported | src/services/file-downloader/index.js:451-457 | when nothing is outstanding and nothing can be asked, every missing index was reported already, but for those after 0 that could be asked for before the total was known |
| RangeSafety.ReceiveKeeps | src/services/file-downloader/index.js:378-417 | a chunk, whether it discovers the total or not, keeps the invariant and uses up work; a discovered total rebuilds the missing indexes up to the new end |
| RangeLaws.ReceiveIs | src/services/file-downloader/index.js:387-417 | a chunk that was asked for is delivered exactly when it is missing and its total is the known one, or the first one told, which then bounds the range; otherwise it is ignored |
| RangeSafety.EndKeeps | src/services/file-downloader/index.js:337-351 | the end of a batch keeps the invariant and uses up work |
| RangeSafety.EventKeeps | src/services/file-downloader/index.js:247-464 | every event keeps: missing and covered partition the range, counters count outstanding batches, three slots a relay, one ask per relay, mode and index |
| RangeSafety.AsksBounded | src/services/file-downloader/index.js:309-353 | a run asks at most twice per relay and index |
| RangeSafety.RunTerminates | src/services/file-downloader/index.js:247-464 | the number of events that change anything is bounded by the work at the start |
| RangeSafety.EachIndexOnce | src/services/file-downloader/index.js:247-464 | no index is delivered or reported twice, or both; a running range waits for a batch; a finished one that learned its total has done one of them for each index that was not cached, unless the downloader was told no total, may fall back, and the index lies after 0 and within the provisional end |
| RangeSafety.FinishedCounts | src/services/file-downloader/index.js:451-464 | cached, delivered and reported indexes of a finished range that learned its total add up to its length, or under the any-author fallback and without a total to at most the provisional end less |
| RangeForgotten.LastCheckExactly | src/services/file-downloader/index.js:429-464 | the check that ends a range leaves a missing index unreported exactly when the fallback is available and the index was neither promoted nor reported before |
| RangeLaws.GivesUp | src/services/file-downloader/index.js:429-449 | an index is promoted or reported exactly when it is missing, unreported, fetched by nobody and every relay was asked for it in its author mode; promoted once if the fallback is available, reported otherwise |
| RangeLaws.LostOnlyAfterAll | src/services/file-downloader/index.js:429-449 | in every run an index is reported only after every relay was asked for it among the own authors and, with the fallback, among any |
| RangeForgotten.ForgottenIndex | src/services/file-downloader/index.js:429-464 | every new downloader with the fallback, no total, nothing cached and a provisional end after 0 has a run that finishes with chunk 1 of two neither delivered nor reported, and never asked for from any author, whatever its relays and batch size |
| RangeForgotten.ForgetsExactly | src/services/file-downloader/index.js:429-464 | a new downloader has a run that forgets an index if and only if it has the fallback, no total and a provisional end after 0 |
| RangeDownloader.Downloader.RequestFromRelay | src/services/file-downloader/index.js:309-353 | guards, selection, marking and counting on the mutable state equal the specified launch |
| RangeDownloader.Downloader.CheckExhaustedIndexes | src/services/file-downloader/index.js:429-449 | the loop promotes, reports or skips each index as specified, and stops when reporting aborts the run |
| RangeDownloader.Downloader.SetTotalChunks | src/services/file-downloader/index.js:247-262 | a discovered total bounds the range, drops what lies beyond it, refills the missing indexes and schedules |
| RangeDownloader.Downloader.OnChunk | src/services/file-downloader/index.js:378-417 | a requested missing chunk with the right total is covered and delivered, and may discover the total; anything else changes nothing |
| RangeDownloader.Downloader.OnBatchEnd | src/services/file-downloader/index.js:339-351 | releases slot and counters, then reports, schedules or finishes |
| Windows.EventKeeps | src/services/file-downloader/index.js:577-724 | every event keeps: consecutive ranges, at most two active, counters equal to sums over ranges |
| WindowLaws.MissingCounts | src/services/file-downloader/index.js:696-707 | a missing index only raises the two counters, and every range goes on, unless the caller asked to abort: then the download fails |
| WindowLaws.FailsExactly | src/services/file-downloader/index.js:619-707 | an event makes the download fail if and only if it is an error, a chunk too many, more cached indexes than announced, or a missing index in the aborting mode |
| WindowLaws.RunFails | src/services/file-downloader/index.js:619-743 | over every run: the download has failed if and only if one such event happened |
| WindowLaws.ThresholdIs | src/services/file-downloader/index.js:675-680 | the threshold is the least number of indexes that is at least 30 percent |
| WindowLaws.StartsExactly | src/services/file-downloader/index.js:589-617 | news of a worker starts another range exactly when one is active, something is left and 30 percent are covered; the range is the next window, or what is left |
| WindowLaws.FinishStarts | src/services/file-downloader/index.js:710-724 | the end of a range starts another exactly when something is left and the other range, if any, is covered to 30 percent; it ends the download exactly when nothing is active or left |
| WindowLaws.RunUpToDate | src/services/file-downloader/index.js:675-681 | over every run the coverage that the orchestrator compares is what the workers have |
| WindowLaws.RunFull | src/services/file-downloader/index.js:594-610 | over every run each range is a window of the full size, but the last, which takes what is left |
| WindowLaws.BeginIs | src/services/file-downloader/index.js:542-564 | a download is done at once exactly if everything was there; else one range begins, of the next or of the discovery window |
| Workers.WorkerSteps | src/services/file-downloader/index.js:247-464 | every event of a range downloader keeps it sound: the range's invariant, its cached indexes inside the range, its end where the total puts it |
| Workers.WorkerBounded | src/services/file-downloader/index.js:247-464 | a sound range downloader accounts for at most its range, for nothing but index 0 before the total is known, and once finished with a known total for all of it but what the fallback allows |
| Workers.ReportsEnabled | src/services/file-downloader/index.js:683-724 | whatever the downloader did and the orchestrator has not heard of is an event its machine allows; so is the end |
| Orchestration.StepEnabled | src/services/file-downloader/index.js:619-724 | each step of the orchestrator with its workers is an event of the window machine, or only a worker's own |
| Orchestration.StepKeeps | src/services/file-downloader/index.js:577-724 | every step keeps the links between slots and workers, those of the other slot included, also when a slot is closed or opened |
| Orchestration.RunProjects | src/services/file-downloader/index.js:464-724 | refinement: the orchestrator's part of every run of the whole download is a run of the window machine |
| Orchestration.DownloadAddsUp | src/services/file-downloader/index.js:464-724 | at a successful end of the whole download, delivered, cached, missing and forgotten chunks add up to the interval and the overrun, with the forgotten ones bounded by the discovery window |
| Orchestration.ForgottenDownload | src/services/file-downloader/index.js:451-464 | witness: with the fallback, no total, no end index and a discovery window of two chunks or more, whatever relays the first worker asks, a download ends well with nothing missing and one chunk of two |
| Orchestration.ForgetsExactly | src/services/file-downloader/index.js:429-724 | a download without an end index has a run that forgets chunks if and only if it has the fallback, no total and a discovery window of two chunks or more |
| Windows.SuccessTiles | src/services/file-downloader/index.js:577-724 | at a successful end each requested index lies in exactly one started range; delivered, cached, missing and forgotten chunks add up to the interval and the overrun; none is forgotten if the total was known or no worker falls back to any author, and otherwise at most the discovery window less one; there is no overrun if the total was known or no end index given |
| Windows.OverrunIs | src/services/file-downloader/index.js:594-600 | ranges reach beyond the requested interval exactly when a lone discovery window passes the end index |
| Windows.EndWithoutTotalFails | src/services/file-downloader/index.js:683-691 | in that case no run ends well with everything there, and in the default mode without the any-author fallback none ends well at all |
| Windows.NothingMissing | src/services/file-downloader/index.js:652-724 | with nothing missing, the count equals the interval length exactly when the loader's cached indexes and the forgotten ones are as many as announced and the overrun |
| FileDownloader.CheckCachedIndexes | src/services/file-downloader/index.js:658-667 | accepts exactly the lists of distinct indexes inside the range |
| FileDownloader.Downloader.StartNextRange | src/services/file-downloader/index.js:589-617 | starts the next window, or the discovery window, as specified |
| FileDownloader.Downloader.HandleCoverage | src/services/file-downloader/index.js:675-681 | a second range starts at 30 percent coverage |
| FileDownloader.Downloader.HandleTotal | src/services/file-downloader/index.js:577-587 | a discovered total that does not contain the requested interval is refused without a change |
| FileDownloader.Downloader.LoadAndRunRange | src/services/file-downloader/index.js:619-673 | a bad or excessive cached list fails the download; a good one starts the worker |
| FileDownloader.Downloader.HandleRangeFinished | src/services/file-downloader/index.js:710-724 | closes the range, starts the next or finishes |
| Chunks.CanonicalCount | src/services/blossom-file-downloader/index.js:111-113 | a file of any size, the empty one included, has as many canonical chunks as the size formula says |
| Chunks.CanonicalAt | src/services/blossom-file-downloader/index.js:419-436 | which bytes of the file each canonical chunk holds |
| Blossom.Download.ConsumeBody | src/services/blossom-file-downloader/index.js:396-467 | for any splitting into reads: byte count, hash and chunk count of the body, and exactly the rows that the expected total allows |
| Blossom.Download.DownloadResponse | src/services/blossom-file-downloader/index.js:248-297 | finishes exactly when bytes are accepted, and then holds their canonical chunks with the true total |
| Blossom.Download.Run | src/services/app-file-downloader/index.js:189-214 | the consumer sees 100% only with the canonical chunks stored; if no write fails it sees it exactly when bytes are accepted, and an error leaves no chunk |
| Blossom.WholeFile | src/services/blossom-file-downloader/index.js:419-460 | with the true total the rows are exactly the canonical chunks, and joined in order they are the file |
| Blossom.WrongTotalNeverWhole | src/services/blossom-file-downloader/index.js:277-288 | no other total gives the rows of the file, so the replay is needed |
| Blossom.RowsPassLocalCheck | src/services/blossom-file-downloader/index.js:442-449 | even under a wrong hint every stored row passes the local chunk check |
| Blossom.AcceptedMatches | src/services/blossom-file-downloader/index.js:248-297 | accepted bytes have the requested hash; a server that repeats itself succeeds under any hint |
| Blossom.ProvisionalIs | src/services/blossom-file-downloader/index.js:249-252 | the expected total is that of the first size offered by the response, the HEAD answer, the manifest, in this order: the least number of chunks of 51000 bytes, and at least one |
| Blossom.AcceptedIs | src/services/blossom-file-downloader/index.js:253-296 | exactly which bytes are accepted: the first body if complete, of the hash and the expected count; else a second complete one of the same hash and length, never after a bad first one |
| ByteRanges.MatchExact | src/services/nfile-downloader/index.js:113-113 | the pattern matches exactly two digit runs around a dash, and captures them |
| ByteRanges.ParseFollowsStandard | src/services/nfile-downloader/index.js:110-135 | the returned range lies in the file and selects exactly the bytes of section 14.1.2 of RFC 9110; refused exactly when invalid, unsatisfiable or not exact |
| ByteRanges.ParseRefuses | src/services/nfile-downloader/index.js:110-114 | no header selects everything, any other header form is refused |
| ByteRanges.NumberOfDecimal | src/services/nfile-downloader/index.js:118-130 | the digits of every number, written by repeated division by ten, are read back as that number |
| ByteRanges.LeadingZeros | src/services/nfile-downloader/index.js:118-130 | leading zeros do not count |
| ByteRanges.PlainRanges | src/services/nfile-downloader/index.js:110-135 | for decimal numbers `first` and `last`: the exact answer to first-last, first- and -last, for every file length |
| ByteRanges.HugeLastRefused | src/services/nfile-downloader/index.js:129-130 | a satisfiable range with an unsafe last position is refused |
| ByteRanges.HugeSuffixRefused | src/services/nfile-downloader/index.js:118-120 | so is a satisfiable suffix range with an unsafe length |
| ByteRanges.StreamByteRange | src/services/nfile-downloader/index.js:335-356 | the slices sent window by window concatenate to exactly the requested bytes, and are complete exactly when every window loads |
| ByteRanges.EnsureByteRange | src/services/nfile-downloader/index.js:321-333 | the preload succeeds exactly when every window of the range loads |
| ByteRanges.Open | src/services/nfile-downloader/index.js:176-233 | 404 exactly when the file is not found, is empty or longer than a safe integer, or a GET's window does not load; 416 exactly when the range of such a file does not parse; otherwise status, length and range are those of the header and the body is exactly the announced slice if the windows load again |

## Left out

- Relay networking, IndexedDB, Web Locks, message ports and timers: transactions are atomic, locks mean what they promise, a relay answers adversarially, timeouts are steps that may happen.
- SHA-256, Merkle proofs, Base93 and signatures: a hash is an arbitrary function, and a chunk that passed authentication is the canonical one.
- Without Web Locks the allocator recycles nothing and reserves without a lock; only the locked behaviour is modelled.
- Origin ids, account keys and coverage stores are natural numbers, and an id list in storage is a set, since every read normalises it.
- Subdomains.Storage.RetireFor: the order in which ids and keys are visited is arbitrary here.
- CoverageStore.AuditIsExact: a record whose fields have other types than expected, such as a range that is no pair, is not modelled.
- CoverageStore.Store.Read: opening the database and aborting its transaction are steps that change nothing.
- SyncSafety.SyncSound: an event counts as resolved when the store answered that it is stored, duplicate, superseded, ignored or blocked; later eviction of an event is not modelled.
- Pages.AccountEventPages: the report of a relay is its status and error only.
- VaultQueue.RunSound: calls marked instant bypass the queue and are not modelled; a send callback that re-enters the queue is not modelled; classification is an input.
- RangeSafety.EventKeeps: an undefined entry of a selection stands for no index; it is never missing, so it is never counted down, delivered or reported.
- Windows.SuccessTiles: window and discovery lengths are inputs between their limits, their computation from batch size and relay count is left out.
- Orchestration.StepEnabled: a report, the worker's coverage and the orchestrator's reaction to it are one step, which may come later than what it reports.
- The limiter that shares three slots per relay among ranges: it appears as the free choice of when a queued batch starts.
- Blossom.Download.Run: choosing a server, comparing MIME types, the validation record of an already cached file and the mode without a database are left out; a failed deletion leaves the rows as they were.
- ByteRanges.Open: the transient chunk cache, waiting for arrivals and the cache writer are left out; a window loads or does not, once in the preload and once in the stream. How the total and the last chunk are discovered is an input.
- Backoff, retry delays and wall clocks, UI components, routing, localisation, build scripts, the app updater and personas.
