# Operations domain of museum-conservation-service: a verified model

The service keeps operations records in memory under optimistic revisions. Operators
(`Transition`, `Create`), batches (`Apply`), a background worker and an archiver work on the same
store at once. Each container has its own mutex and no mutex spans a whole operation: every
operation is a sequence of separately locked steps, and the revision check inside `Update` is what
is meant to make that safe. This project models that protocol as one machine and proves what holds
in every interleaving; it models each operation a second time as the imperative code it is, proved
against a specification; and it proves the laws of the parts: bulk completion of sessions, ranking,
paging and the snapshot cache, the audit trail and the metrics window, manifests and identifiers.

## Layout

| files | what they model |
|---|---|
| `Protocol.dfy` | the interleaved machine: processes with a program counter, one locked section a step, `Run(start, schedule)` for any schedule |
| `ProtocolCopies.dfy` | the inductive invariant: a private copy with the stored revision is the stored record |
| `ProtocolStore.dfy` | what the store keeps in every run without any assumption |
| `ProtocolStatus.dfy` | status changes stay on the table; exactly which requests break that |
| `ProtocolPeaks.dfy`, `ProtocolRecreation.dfy` | ids created again: new revision numbers keep every guarantee of the revision check, and exactly which rules on what may be put back do |
| `ProtocolWrites.dfy` | exactly when a write, and the move recorded before it, takes effect |
| `ProtocolAccounting.dfy` | revisions against updates, events and batch writes |
| `ProtocolWorker.dfy`, `ProtocolArchive.dfy` | the sweep and the archiver in a race with everybody else |
| `ProtocolMismatch.dfy` | exactly when the archive may hold another record than the one deleted |
| `ProtocolUnits.dfy`, `ProtocolClaims.dfy` | work units, claims, batch counters, no deadlock |
| `ProtocolAlone.dfy`, `ProtocolBatchAlone.dfy`, `ProtocolTickAlone.dfy` | the machine's operations, uninterrupted, end as the methods promise |
| `Sessions.dfy`, `BulkComplete.dfy` | the session manager and the concurrent fan-out |
| `BulkCount.dfy`, `BulkCancel.dfy` | exactly when the count of the fan-out is right; what it does when its context ends, and what each result says |
| `OpsModel.dfy`, `Text.dfy`, `Decimal.dfy`, `Policy.dfy`, `StateMachine.dfy` | records, normal form, printing, admission, the table |
| `Store.dfy`, `Service.dfy`, `Batch.dfy`, `Worker.dfy`, `Archive.dfy`, `Audit.dfy`, `Manifest.dfy`, `Metrics.dfy` | the source's objects as classes, proved against functions |
| `Sorting.dfy`, `Ranking.dfy`, `Query.dfy`, `Counts.dfy`, `Cache.dfy`, `Agreement.dfy` | stable sort, ranking, 64-bit paging, counters, the cache with its label and counter maps on the heap |

How things are rendered:

- A context is a number of further checks it passes (`OpsContext.checks`) in the classes, and a
  flag each step receives (`Env.cancelled`) in the machine; so it may end before any check. Time is
  an input: stamps are any text, compared as text; the worker's clock does not go back, and
  parsing a stamp is a function parameter.
- A Go map's walk is a choice of any remaining key. `List` and both ranked lists come out the same
  whatever the walk.
- A status is one of the four named ones or `OtherStatus(text)` for any other text, and likewise a
  priority: `Create` stores whatever it is given. The empty ones are `OtherStatus("")` and
  `OtherPriority("")`.
- `dropped`, `born`, `writes` and a sweeping worker's `asOf` in the machine, and `won` in
  `BulkComplete.dfy`, are history: no step looks at them.

What the model shows about the code that its comments and names do not say:

- `expected <= 0` turns both revision checks off (ops_service.go:82, ops_store.go:77). Then a
  closed record can be opened again, exactly unless the target is `closed` or a status outside the
  table (`ProtocolStatus.SafeRequestsExactly`).
- An id created again after its deletion may come back with a revision already used: `Create` keeps
  any positive revision it is given and starts at 1 otherwise (ops_model.go:115-117). A reader of the
  old record then passes the revision check, although every request names a revision. It cannot
  happen when the record put back carries a revision above all those stored under its id before
  (`ProtocolPeaks.NewNumbersKeepTable`), and a rule that looks at these two numbers is safe for no
  other reason (`ProtocolRecreation.RevisionRuleExactly`); a rule that looks at the record alone is
  safe only if it lets nothing through (`ProtocolRecreation.RecreationExactly`). Results that exclude
  re-creation ask for `NoRecreation`, which a caller can arrange by creating no id that is archived
  and not live (`ProtocolArchive.RecreatesExactly`).
- `Archive` saves the copy it read and then deletes whatever is stored by then (ops_archive.go:30-33).
  An unchecked write, or an id created again under any number, can come in between, and the archive
  then lacks the record deleted (`ProtocolMismatch.SafeArchivingExactly`,
  `ProtocolMismatch.ArchiveRuleExactly`).
- The comment on `BulkComplete` promises the number of sessions completed (ops_sessions.go:113-114),
  but the reading loop stops at the first hard error: with one open session listed twice it can
  return 0 after completing it (`BulkCount.ListedTwice`, `BulkCount.CountIsExactly`).
- `Transition` returns its copy, one revision behind the stored record (ops_service.go:93).
- `Move` records before `Update` can fail, so the history may hold moves that never took effect
  (`ProtocolWrites.MoveThatNeverHappened`; `ProtocolWrites.MovesTakeEffectExactly` says when).
- A manifest's `Done` is never more than 1, because `processOne` gets the manifest by value with
  `Done` 0 (ops_batch.go:91, `ProtocolClaims.ClaimsNeverConflict`).
- A batch that asks for a status change outside the table is refused at its first hit, and skips
  everything before that without complaint (ops_batch.go:81-86).
- Finished sessions still fill the capacity, and `Active` counts them
  (`Sessions.CapacityIsForLife`, `Sessions.ActiveCountsFinished`).
- A large page number overflows the offset: `Search` then panics on its slice expression, or shows
  another page (`Query.BoundsExactly`).
- `Errors` in the metrics view is not windowed and can exceed `Requests` (ops_metrics.go:39-41).
- `Put` looks for the id as given but files under it a record with the normalised id; only
  because every caller normalises first do keys and ids agree (`Store.PutKeepsKeyedIff`).

## Model

| member | source | states |
|---|---|---|
| `ProtocolStatus.StatusFollowsTable` | ops_store.go:65-84 | In every interleaving of creates, safe transitions, batches, worker ticks and archivers, without re-created ids, a stored record's status walks along the transition table, and a closed record stays closed as long as it is stored |
| `ProtocolStatus.SafeRequestsExactly` | ops_service.go:82-91 | A Transition request can take some record off the table, in company with requests that name a revision, if and only if it names none and its target is neither closed nor outside the table |
| `ProtocolStatus.OvertakenRun` | ops_service.go:75-94 | The run that shows it: an unchecked operator, overtaken by a closing one, reopens the closed record |
| `ProtocolRecreation.RecreationFoolsReader` | ops_store.go:51-84 | For every record a Create call can get through, and every highest revision used under its id that is above the record's (or equal to it, if its status is outside the table), there is a run, all of whose requests name a revision and whose only re-creation puts that record back, in which a late write takes it off the table |
| `ProtocolPeaks.NewNumbersKeepTable` | ops_store.go:51-84 | On every run of requests that name a revision, if each record put back under a deleted id carries a revision above all those stored under that id before, each turn leaves each stored status or moves it along an edge |
| `ProtocolPeaks.NoRecreationIsFresh` | ops_store.go:59-62 | Runs that put nothing back are among those that put back new numbers only |
| `ProtocolRecreation.RevisionRuleExactly` | ops_store.go:77-82 | A rule on two numbers, the revision of the record put back and the highest one stored under its id so far, keeps all runs of requests that name a revision on the table if and only if it lets no number from 1 to that highest one through |
| `ProtocolRecreation.RecreationExactly` | ops_store.go:51-64 | A rule that looks at the record put back alone does so if and only if it lets no creatable record through |
| `ProtocolRecreation.FooledByOldNumber` | ops_store.go:77-82 | Whatever the rule looks at, a run it allows that leaves the table has put back a creatable record with a number already used |
| `ProtocolArchive.RecreatesExactly` | ops_store.go:59-62 | On every run a Create's write would put back a deleted id if and only if its context lasts and the id is in the archive and not in the store |
| `ProtocolStore.KeysAreIds` | ops_store.go:14-84 | On every run, whichever ids are created again, each key of the store is its record's id and every revision is at least 1 |
| `ProtocolCopies.RunKeepsCopies` | ops_store.go:77-82 | Inductive invariant of every run without re-created ids: no copy in flight is newer than the store, one with the stored revision equals the stored record, and any one agrees with it on id, subject, owner, priority, labels and creation stamp |
| `ProtocolCopies.NextKeepsCopies` | ops_store.go:65-98 | Each single step of any operation keeps that invariant, never lowers a revision and touches a record only by raising its revision |
| `ProtocolAccounting.RevisionsAddUp` | ops_service.go:88-92 | On every run without re-created ids, unchecked requests included, a stored record's revision minus its first one is the number of its successful updates, which is its status_changed events plus its batch updates plus the operations between update and event; nothing but status, revision and update stamp changed |
| `ProtocolWrites.MovesTakeEffectExactly` | ops_service.go:85-91 | On every run the history holds edges of the table only and a process about to write has its move in it; the write leaves that move without effect and everything as it was if and only if the context has ended, the record is gone, or a revision is checked and is not the one read; else exactly that record moves |
| `ProtocolPeaks.NoLostUpdate` | ops_store.go:73-83 | On every run in which ids are created again with new revision numbers only, or not at all, a write that checks the revision changes the store if and only if its context lasts and the store still holds the record exactly as it was read |
| `ProtocolWrites.MoveThatNeverHappened` | ops_service.go:85-91 | Read, move, and then the context ends: the history has the move, the store does not |
| `ProtocolWorker.WorkerClosesListedVersionOnly` | ops_worker.go:77-95 | In any interleaving in which ids are created again with new revision numbers only, or not at all, a step of the worker changes the store if and only if it is an uncancelled write and the store still holds exactly the listed version, which was active and stale; then it closes that one record |
| `ProtocolArchive.NothingIsLost` | ops_archive.go:22-34 | At every step of every run, concurrent archivers and re-created ids included, each id ever stored is live or archived, and what is archived is a closed record under its own id; without re-created ids it also keeps the subject, owner, priority, labels and creation stamp first stored under that id |
| `ProtocolArchive.ArchivedIsWhatWasDeleted` | ops_archive.go:30-33 | On runs of safe requests without re-created ids, when a step deletes a record, the archived copy equals it except for revision and update stamp, and is no newer |
| `ProtocolMismatch.SafeArchivingExactly` | ops_archive.go:30-33 | A Transition request can make a step delete a record the archive does not hold in that sense, in company with requests that name a revision and without re-created ids, if and only if it names no revision and its target is neither closed nor outside the table |
| `ProtocolMismatch.MismatchRun` | ops_archive.go:26-33 | The run that shows it: an unchecked operator writes between the archiver's save and its delete |
| `ProtocolMismatch.ArchiveRuleExactly` | ops_archive.go:26-33 | A rule on the record put back and the highest revision used under its id keeps the archive right on all runs of requests that name a revision if and only if it lets no creatable record through; new numbers do not help |
| `ProtocolMismatch.SlowArchiverDeletes` | ops_archive.go:26-33 | For every creatable record and every such revision: an archiver that saved the record before it deletes the one put back |
| `ProtocolUnits.UnitsConserved` | ops_batch.go:65-72 | On every step and every exit path free units plus units held equal the limit, so the limit is never exceeded and a release always finds room in the channel |
| `ProtocolUnits.SomeBatchCanStep` | ops_batch.go:65-70 | While a batch is unfinished some batch process is not waiting for a unit, and its step brings it nearer its end |
| `ProtocolClaims.NoBatchDeadlock` | ops_batch.go:37-61 | From every reachable state some continuation finishes all batches |
| `ProtocolClaims.ClaimsNeverConflict` | ops_manifest.go:32-79 | On every run a claim is refused only for an empty owner or list, never as a conflict; progress and release inside a batch succeed; every claim left belongs to a running batch; and every manifest's done is 0 or 1 and within its scope |
| `ProtocolClaims.AppliedCountsOwnWrites` | ops_batch.go:45-60 | In any interleaving a batch about to return has counted as Applied exactly the updates it made, and Applied plus Skipped are the ids it got through |
| `ProtocolAlone.AloneIsSolo` | ops_service.go:75-94 | A call whose turns nobody interrupts is one process run by itself, the rest of the machine untouched |
| `ProtocolAlone.TransitionAlone` | ops_service.go:75-94 | The machine's Transition, uninterrupted, has the outcome and effect `Service.OpsService.Transition` promises |
| `ProtocolAlone.CreateAlone` | ops_service.go:43-55 | The machine's Create, uninterrupted, stores and logs the admitted record, or changes nothing |
| `ProtocolAlone.ArchiveAlone` | ops_archive.go:22-34 | The machine's Archive, uninterrupted, moves a closed record, or changes nothing; every lookup stays the same if the id was not archived before |
| `ProtocolAlone.SweepTurnAlone` | ops_worker.go:82-94 | The machine's sweep, uninterrupted, closes a listed record that is active and stale as a Transition would, and passes over every other one |
| `ProtocolAlone.TickEnds` | ops_worker.go:97-107 | The two ends of the machine's tick: it starts from all stored records, and keeps exactly the newest 2000 events |
| `ProtocolTickAlone.TickAlone` | ops_worker.go:67-107 | The machine's whole tick, uninterrupted: in whatever order it looks at the stored records, exactly those active and stale when looked at are closed, one event each, nothing else changes, and the newest 2000 events remain |
| `ProtocolAlone.EndedContext` | ops_store.go:22-98 | Once its context has ended, no step of an operation changes the store, and the steps that check the context lead out of the operation |
| `ProtocolBatchAlone.BatchAlone` | ops_batch.go:37-93 | The machine's batch, uninterrupted, ends with the records moved that `Batch.BatchDone` describes, and with units and registry as before |
| `BulkComplete.CountIsSessionsWon` | ops_sessions.go:115-146 | Under every schedule with other callers and cancellation at any point: no send blocks, one result per id arrives, the nil results are as many as the sessions this call completed, the returned count never exceeds that; and if no error is returned it equals that, each id known at the start was then open and is listed once, and this call completed it |
| `BulkComplete.SameOutcomeOnEverySchedule` | ops_sessions.go:115-146 | Alone and uncancelled every schedule leaves the same two maps up to closing stamps, with exactly the listed open sessions completed; and no error is returned if and only if each known id was open and listed once |
| `BulkCancel.CancelledCompletesNothing` | ops_sessions.go:123-128 | A call whose context has ended before it starts leaves both maps alone, completes nothing, sends the context error for each id, and returns 0 with that error unless the list is empty |
| `BulkCancel.EndedBeforeStart` | ops_sessions.go:123-128 | Once the context has ended, an id whose goroutines have not started is not completed by this call, whatever other goroutines and callers do |
| `BulkCancel.ResultsSayWhy` | ops_sessions.go:121-131 | Under every schedule a nil is sent for a session this call completed, and which stays completed; not-found for an id unknown when the call began; refused for a finished session; the context error only if the context ended; and nothing else is sent |
| `BulkCount.CountIsExactly` | ops_sessions.go:113-146 | Alone and uncancelled, every schedule returns the number of sessions completed if and only if each known id was open and listed once, or no listed session was open |
| `BulkCount.ShortCount` | ops_sessions.go:113-146 | On every other list some schedule returns 0 and completes all the open sessions listed |
| `BulkCount.ListedTwice` | ops_sessions.go:133-145 | One open session listed twice: completed, and the count returned is 0 |
| `BulkComplete.Collect` | ops_sessions.go:133-145 | The reading loop gets to the first result that is neither nil nor not-found, returns it with the number of nils before it, or else no error with the number of all nils |
| `BulkComplete.ReadSound` | ops_sessions.go:135-145 | Whatever order the results come in, no error is returned if and only if every result is nil or not-found; then the count is the number of nils, and otherwise it is at most that |
| `Sessions.CallsKeepDesk` | ops_sessions.go:39-95 | Over any run of Open, Complete and Abort the index stays exactly the one-to-one index of open sessions, finished sessions never change, and sessions grow by the granted opens |
| `Sessions.CapacityIsForLife` | ops_sessions.go:45-47 | All successful Opens of a manager's life together never exceed its non-negative capacity, since finished sessions keep their place |
| `Sessions.SessionIDInjective` | ops_sessions.go:52 | Session ids drawn from different counter values differ, padding included |
| `Sessions.OpsSessionManager.constructor` | ops_sessions.go:31-37 | A new manager is the empty desk with the capacity as given |
| `Sessions.OpsSessionManager.OpenSession` | ops_sessions.go:39-61 | Refuses empty arguments as invalid, a full desk by policy and a record with an open session as conflict, in that order; otherwise one new open session for this record and owner under the next id, indexed, and nothing else changed |
| `Sessions.OpsSessionManager.Complete` | ops_sessions.go:63-78 | Ends exactly this open session and its index entry; unknown and finished sessions are refused and nothing changes |
| `Sessions.OpsSessionManager.Abort` | ops_sessions.go:80-95 | Aborts exactly this open session and drops its index entry; unknown and finished sessions are refused and nothing changes |
| `Sessions.OpsSessionManager.Active` | ops_sessions.go:107-111 | Counts the open sessions and all finished ones |
| `Sessions.ActiveCountsFinished` | ops_sessions.go:107-111 | The sessions held are as many as the index entries plus the finished sessions |
| `Batch.OpsBatchProcessor.constructor` | ops_batch.go:26-35 | The unit channel starts full, with 8 units if the limit is below 1 |
| `Batch.OpsBatchProcessor.ProcessOne` | ops_batch.go:65-93 | Moves a hit one revision up, or skips, or fails with the store unchanged; with no unit free it waits for the end of its context; the units are as before on every exit |
| `Batch.OpsBatchProcessor.Apply` | ops_batch.go:37-61 | On every exit the ids got through are a prefix, exactly its hits are moved and counted, units and registry are as before and the claim did not conflict; with a unit free and enough context checks it is not cancelled |
| `Batch.BatchMovesDistinctHits` | ops_batch.go:46-59 | Uncancelled and along a real edge, Apply moves exactly the distinct listed records in the from status, each once and one revision up, and Applied is the size of that set whatever duplicates and unknown ids are listed |
| `Batch.RefusedBatchChangesNothing` | ops_batch.go:81-86 | Uncancelled and outside the table, Apply fails if and only if some listed record is in the from status; it stops there with nothing applied and the store unchanged, having skipped exactly the ids before it |
| `Batch.TotalIsDistinctHits` | ops_batch.go:46-59 | The running count of moves is the number of distinct hits |
| `Batch.NextItem` | ops_batch.go:46-59 | One turn of the loop keeps the count of moves and skips in step with the records moved so far |
| `Batch.NextNumberIsFree` | ops_batch.go:38-42 | A batch id built from the next number is in no registry whose ids were built from earlier numbers |
| `Worker.OpsWorker.CloseIfStale` | ops_worker.go:86-93 | A record is closed only if it is active and its stamp parses and is at least the given age by then, with one worker event; if it was all that at the start and the context lasts, it is |
| `Worker.OpsWorker.CloseStaleActive` | ops_worker.go:77-95 | The sweep closes, one revision up and with one event each, only records that were active and by its end at least the given age; unless the context ends, it closes every one that was so at its start |
| `Worker.OpsWorker.RefreshCache` | ops_worker.go:97-103 | The cache then ranks and counts exactly the records of the store, or is left alone when the context has ended |
| `Worker.OpsWorker.Tick` | ops_worker.go:67-75 | A whole pass: a record not active, without a readable stamp or less than seven days old at the end is untouched, one active and at least seven days old at the start is closed unless the context ends; the audit trail is the newest 2000 of the old events and the closings, and the cache shows the resulting store, ranked |
| `Worker.OpsWorker.Sweep` | ops_worker.go:82-94 | However far the loop gets, records closed and events left correspond, each closed record was active and old enough, and with enough context checks none that was so at the start is left out |
| `Worker.OpsWorker.DueMeansAge` | ops_worker.go:86-93 | Closing what is due, and nothing else, means closing by status and age |
| `Worker.SweepStep` | ops_worker.go:82-94 | One turn of the sweep keeps the correspondence between records closed and events left |
| `Agreement.CacheAgreesWithStore` | ops_service.go:59-70 | While the store is as it was at the refresh, Search's ranked list is the query's filter of the cached list, and Snapshot's counters are the cached ones |
| `Agreement.RefreshRanksStore` | ops_cache.go:47-60 | What a refresh from the store caches is the one ranking of all its records, however the map was walked |
| `Archive.OpsArchive.Archive` | ops_archive.go:22-34 | A closed record moves to the archive and a failure leaves the store alone; on an id not archived before, Lookup gives the same for every id as before |
| `Archive.ArchiveKeepsLookup` | ops_archive.go:30-44 | Moving a record changes Lookup if and only if another version was archived under its id, and then for that id only |
| `Archive.OpsArchive.Lookup` | ops_archive.go:36-44 | The archived copy first, else the live record; an ended context matters only for the latter |
| `Archive.OpsArchive.Prune` | ops_archive.go:52-63 | Keeps exactly the archived records whose stamp is not before the limit, and returns how many went |
| `Store.OpsStore.constructor` | ops_store.go:14-21 | Of the seed records with one normalised id the last one, normalised, is stored under it, and nothing else is |
| `Store.SeededExactly` | ops_store.go:14-21 | Which records a seed puts in the store |
| `Store.OpsStore.Get` | ops_store.go:22-35 | The stored record or not-found, or cancelled when the context has ended |
| `Store.OpsStore.List` | ops_store.go:36-50 | The one list of all stored records, ids ascending, whatever order the map is walked in |
| `Store.OpsStore.Put` | ops_store.go:51-64 | Stores the normalised record if the id as given is free; conflict otherwise |
| `Store.OpsStore.Update` | ops_store.go:65-84 | Writes the given record over the stored one with the stored revision plus one, only if the stored revision is the expected one or none is expected; a failure changes nothing |
| `Store.OpsStore.Delete` | ops_store.go:85-98 | Takes out exactly this id, or reports not-found and changes nothing |
| `Store.PutKeepsKeyed` | ops_store.go:57-64 | Putting a normalised record keeps every key equal to its record's id |
| `Store.PutKeepsKeyedIff` | ops_store.go:59-62 | Putting any record does so if and only if its id was normal already |
| `Store.ListingIsUnique` | ops_store.go:44-48 | There is only one listing of a store in id order |
| `Service.OpsService.Create` | ops_service.go:43-55 | Refused by policy if and only if the owner is blank or site label or priority are missing; then conflict; on success exactly one record is added with one created event: status queued if none was given, revision 1 if none above 0 was, id, owner and subject tidied, both stamps new; on failure nothing changes |
| `Service.OpsService.Transition` | ops_service.go:75-94 | The error is decided in the order not-found, conflict, refused; on success one record changes status and goes one revision up with one event, and the returned copy is one revision behind |
| `Service.OpsService.Search` | ops_service.go:59-74 | The page is cut out of the one ranking of the matching records, critical before high before normal before the rest, later stamps first, then by id; page 1 and size 25 by default, size 200 at most; it panics if and only if the computed offset is negative, and is the page asked for whenever the offset fits |
| `Service.OpsService.Snapshot` | ops_service.go:96-108 | Each counter is the number of stored records with that status or priority |
| `Service.Cut` | ops_service.go:71-73 | The slice expression fails if and only if the computed offset is negative, and otherwise shows as many records from that offset on as the page size, with the defaults filled in |
| `Service.SearchRanks` | ops_service.go:64-70 | A stable sort of the filtered listing is the ranking of the matching records |
| `Query.MatchByFields` | ops_query.go:5-19 | A record matches the query of its own fields and the empty one; a query matches exactly if each of its fields does, and a set owner, status or priority must be the record's |
| `Query.SubjectMatches` | ops_query.go:6-8 | A subject matches if and only if the text asked for occurs in it, small and capital letters alike |
| `Query.BoundsExactly` | ops_query.go:32-43 | In 64-bit arithmetic the bounds are usable if and only if the wrapped offset is not negative, and they are the intended ones if and only if the offset fits or lies past the end after wrapping |
| `Query.OffsetFitsUpTo` | ops_query.go:34 | The page number up to which the offset fits |
| `Query.OverflowingPage` | ops_query.go:32-43 | A page number whose start is negative |
| `Query.BoundsFromOffset` | ops_query.go:20-43 | Page 1 and size 25 by default, size 200 at most; the page then runs from the computed offset on, cut at the end |
| `Query.PagesPartition` | ops_query.go:44-49 | Pages 1 to the page count put together are the list, no gap and no repeat; HasNext is true on exactly the pages before the last; later pages are empty |
| `Counts.SnapshotsAgree` | ops_cache.go:47-54 | Two counting loops over the same records give the same snapshot, both maps sum to the total, and Active is the active entry of ByStatus |
| `Counts.TallySums` | ops_service.go:99-106 | A counter map that tallies a list sums to its length |
| `Counts.SnapshotCounts` | ops_cache.go:47-54 | A snapshot counts the places of the list that hold each status and each priority |
| `Counts.OccurrencesExactly` | ops_service.go:99-106 | The recursive count is the number of places |
| `Counts.OneMoreCounted` | ops_service.go:100-105 | One pass of the counting loop keeps the counters a tally |
| `Cache.Clone` | ops_model.go:83-90 | The copy has a label map of its own with the same entries |
| `Cache.OpsSnapshotCache.constructor` | ops_cache.go:28-38 | Five seconds when no positive TTL is given, and never refreshed |
| `Cache.OpsSnapshotCache.Refresh` | ops_cache.go:40-67 | The cached list is a stable sort of copies of the items with no record before a more urgent one or, urgency being equal, before one updated later; each counter is the number of items with that status or priority; all in storage shared with nothing that existed before |
| `Cache.CopyCounts` | ops_cache.go:78-85 | The copy of a counter map is a new map with the same entries |
| `Cache.OpsSnapshotCache.Get` | ops_cache.go:72-99 | Found if and only if refreshed within the TTL; list and counters equal the cached ones, and list, label maps and both counter maps are new, shared with nothing |
| `Cache.CountLive` | ops_cache.go:47-52 | The counting part of Refresh tallies the items |
| `Cache.ValuesSorted` | ops_cache.go:55-60 | Sorting the copies in memory sorts the records they hold, since labels play no part in the order |
| `Cache.RefreshLeavesViews` | ops_cache.go:12-16 | A later Refresh leaves the list and the counters handed out earlier as they were |
| `Cache.ScribbleOnView` | ops_cache.go:12-16 | Any sequence of writes by the holder of a view, to its slots, records, label maps and counter maps, leaves the cached list and counters as they were |
| `Ranking.StableSortRanks` | ops_model.go:124-131 | Stably sorting a list in id order by weight and stamp gives critical before high before normal before the rest, then later stamps first, then ids ascending |
| `Ranking.OutranksExactly` | ops_model.go:125-130 | The less function puts the more urgent record first, and of equally urgent ones the one updated later |
| `Ranking.RankedMeans` | ops_model.go:124-131 | The ranked order, spelled out by priority, stamp and id |
| `Ranking.RankingIsUnique` | ops_model.go:124-131 | Only one list of given records is in that order |
| `Ranking.FilterCommutesWithRanking` | ops_service.go:64-70 | Filtering and then ranking is ranking and then filtering |
| `Ranking.OutranksIsWeakOrder` | ops_model.go:125-130 | The less function of the sort is a strict weak order, as the sort needs |
| `Sorting.StableSort` | ops_cache.go:55-60 | In place: a permutation, in order, with equal elements in their old order |
| `Sorting.OrderedIsUnique` | ops_store.go:48 | A list in an asymmetric order is determined by its elements |
| `StateMachine.OpsStateMachine.Move` | ops_state.go:31-42 | Succeeds if and only if the move stays or is in the table, and records exactly the real moves, so that the history holds only edges |
| `StateMachine.WalkEnds` | ops_state.go:8-13 | Along any walk closed is never left, queued never entered, and a status outside the table neither |
| `OpsModel.NormalForm` | ops_model.go:108-122 | Normalising reaches a normal form, changes exactly the records not in it, and is idempotent |
| `OpsModel.NormalizedFields` | ops_model.go:108-122 | Field by field which normal form: id trimmed and in small letters, owner trimmed, the words of the subject with single blanks between, status queued if empty, revision 1 if below 1, everything else as it was |
| `OpsModel.StatusIsText` | ops_model.go:10-17 | Statuses and texts correspond one for one |
| `OpsModel.WeightsRank` | ops_model.go:95-106 | Critical outweighs high, high normal, and normal the rest; low and unknown priorities weigh the same |
| `Text.TrimEmpty` | ops_service.go:32 | Trimming leaves nothing exactly for a text of white space only |
| `Policy.AdmitExactly` | ops_service.go:31-47 | Create lets in exactly the records with a non-blank owner, a site label and a priority, in normal form, and refuses all others with the policy error |
| `Text.TrimSound` | ops_model.go:109-111 | Trimming takes white space off both ends, all of it and nothing else |
| `Text.LowerSound` | ops_model.go:109 | Lower-casing replaces each capital letter by the small one in its place and nothing else |
| `Text.JoinIsSpaced` | ops_model.go:110 | Joined words stand one after the other with one blank between neighbours and nothing else |
| `Text.FieldsExactly` | ops_model.go:110 | A text splits into its fields with white space between, and in no other way |
| `Text.AsciiSpaces` | ops_model.go:109-111 | The white space among the ASCII characters |
| `Text.FieldsOfJoin` | ops_model.go:110 | Splitting words joined by single blanks gives the words back |
| `Text.FieldsAreWords` | ops_model.go:110 | The fields of a text are words: not empty and without white space |
| `Text.LessTrichotomy` | ops_model.go:129 | The order on stamps and ids is total |
| `Text.LessExactly` | ops_model.go:129 | A text is less if, after what both have in common, it ends or goes on with the smaller character |
| `Text.LessTransitive` | ops_model.go:129 | The order on stamps and ids is transitive |
| `Audit.OpsAudit.Add` | ops_audit.go:20-26 | Appends one event with the next number, the trail so far unchanged, also when the array has to grow |
| `Audit.OpsAudit.For` | ops_audit.go:27-37 | The loop returns the events of this record and no others, each as often as the trail holds it, numbers increasing |
| `Audit.EventsForExactly` | ops_audit.go:27-37 | The specification function picks exactly those events, in order |
| `Audit.OpsAudit.Latest` | ops_audit.go:51-58 | The last event, which has the largest number |
| `Audit.OpsAudit.Prune` | ops_audit.go:63-74 | The overlapping copy in place leaves exactly the newest events, in order: as many as asked for, or all if there are no more |
| `Audit.RunKeepsNewest` | ops_audit.go:20-74 | Over any run of Add and Prune the trail is the newest stretch of everything ever added, with strictly increasing numbers, and each record's view a suffix of its full view |
| `Audit.ForAfterPrune` | ops_audit.go:27-37 | A record's view after pruning is a suffix of its view before |
| `Manifest.OpsManifestRegistry.Claim` | ops_manifest.go:32-54 | Invalid arguments, then conflict, else one new manifest with nothing done; done stays within scope everywhere |
| `Manifest.OpsManifestRegistry.Progress` | ops_manifest.go:56-69 | Sets done unless the claim is missing or done would exceed the scope |
| `Manifest.OpsManifestRegistry.Release` | ops_manifest.go:71-79 | Takes out exactly this claim |
| `Manifest.ReleaseUndoesClaim` | ops_manifest.go:32-79 | Claim, any progress, and Release together restore the registry |
| `Decimal.FormatOpsInt` | ops_http.go:23-33 | The printer loop: digits only, parsed back to the value if and only if it is not negative, empty for a negative one |
| `Decimal.Print` | ops_http.go:23-33 | Decimal digits without a leading zero that parse back to the number |
| `Decimal.PrintDigits` | ops_http.go:23-33 | Each place holds the digit left over after dividing by ten that often, and there are as many places as divisions until nothing is left |
| `Decimal.PrintInjective` | ops_audit.go:12 | Different counters print differently, padded to six digits or not |
| `Decimal.PadExactly` | ops_audit.go:12 | Padding puts zeros in front up to six characters, and none in front of more |
| `Decimal.BatchIDInjective` | ops_batch.go:38 | Owner and number can both be read off a batch id, even if the owner contains hyphens |
| `Decimal.BatchIDText` | ops_batch.go:38 | The parts of a batch id |
| `Metrics.RunIsWindow` | ops_metrics.go:32-42 | Over any run of Record and Reset the window is the last samples up to the capacity, and the error count all failures since the last Reset |
| `Metrics.LastExactly` | ops_metrics.go:35-38 | The window is the end of the samples, as long as the capacity allows |
| `Metrics.ErrorsWithinRequests` | ops_metrics.go:47 | Errors stays within Requests if and only if there were no more failures than the window holds |
| `Metrics.ErrorsExceedRequests` | ops_metrics.go:39-47 | Two failures in a window of one: two errors, one request |
| `Metrics.OpsMetrics.constructor` | ops_metrics.go:25-30 | An empty window of at least one, 64 if the capacity is below 1 |
| `Metrics.OpsMetrics.Record` | ops_metrics.go:32-42 | Appends the sample, dropping the oldest from a full window, and counts a failure |
| `Metrics.OpsMetrics.Reset` | ops_metrics.go:62-67 | Empties window and error count |
| `Metrics.OpsMetrics.Snapshot` | ops_metrics.go:44-60 | The mean of the window, and a sample which more than 95 in 100 of the window do not exceed and at least 5 in 100 reach; the index is in range |
| `Metrics.RankOf` | ops_metrics.go:52-57 | The element at position k of the sorted window has k + 1 samples up to it and all but k from it on |
| `Metrics.SumOfSorted` | ops_metrics.go:52-56 | Summing the sorted copy gives the sum of the window |
| `Metrics.SumAdds` | ops_metrics.go:52-56 | One sample sums to itself and sums add up |

## Left out

- HTTP: routing, JSON, middleware, status codes, static files, server start and shutdown; of ops_http.go only `formatOpsInt` is modelled.
- The rule tables, the artifact store and its validation, schedule and alerts, notes, search index, telemetry, heartbeat, export and dashboard: smaller repeats of the parts modelled here.
- `Worker.OpsWorker.Tick`: the goroutine around it (ticker, Start, Stop) is not modelled, and neither are ticks in parallel; the interleaved machine has the sweep and the pruning of a tick but not the cache.
- `Cache.OpsSnapshotCache.Refresh`: run under its lock; a refresh between the List and the use of the cache by a reader is not part of the interleaved machine.
- `ProtocolStore.KeysAreIds`: revisions are unbounded numbers here, and 64 bits wide in the code. They come from the caller: a seed or a Create with revision 2^63 - 1 wraps to a negative one at its first Update; from then on revisions at least 1 is false, and batches and the worker, which pass the revision they read, no longer have it checked. Every result on revisions is about runs that stay below that.
- `ProtocolRecreation.FooledByOldNumber`: a rule that looks at the record and the numbers together is decided where it lets a number below the highest one through, or none up to it; one that lets the highest number itself through, for some statuses of the table only, is not, since what it allows then depends on chains of several re-creations.
- The other counters of 64 bits (events, sessions, manifests) are unbounded numbers; they do not wrap around within any run of practical length.
- `Service.OpsService.Search`: assumes a store of fewer than 2^63 - 200 records, so that page ends do not overflow; the panic of the slice expression is the error `SlicePanic`.
- `OpsModel.NormalForm`: lower-casing an id covers the letters A to Z only, as in `Text.LowerSound`.
- `Text.LowerSound`: lower-casing covers the letters A to Z only; Unicode case folding is not modelled. White space is Unicode's. Strings are sequences of characters and are compared character by character.
- `Metrics.OpsMetrics.Snapshot`: latencies are real numbers; floating-point rounding, NaN and infinities are not modelled.
- `Sorting.StableSort`: the library sort is modelled by an insertion sort, which is what it does on short slices; the contract is that of the library.
- Stamps in events and manifests (`At`, `CreatedAt`) are dropped; those of records and sessions are arbitrary text. Error texts are reduced to their kind.
- A nil label map and an empty one are the same. Outside module Cache label maps are values, so sharing of label maps between records, which `Clone` prevents, is stated only there.
- `Protocol`'s sweep may take the listed records in any order, where the code takes them by id; everything proved holds for the code's order.
- `Batch.OpsBatchProcessor.ProcessOne`: when the context has ended and a unit is free, the select statement may take either; the class always reports the end, the interleaved machine allows both. The caller sees the same, as the next check of the context fails. A wait for a unit under a context that never ends, which would not return, is not modelled.
- Context deadlines are not measured: a context may end before any check and then stays ended within one call.
- `MaxActive` of the policy is carried along but, as in the code, nothing reads it.
- `StateMachine.OpsStateMachine.Move`: the accessors `History` and `Last` are not modelled.
