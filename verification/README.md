# Market Manager: verified model

Market Manager keeps a local copy of EVE Online's market. Two importers fill it: one sweeps each
region's order book from ESI every few minutes and applies it to a live table, the other imports EVE
Ref's daily history files while they are still growing. This project models both importers, the gates
that keep the service inside ESI's limits, and the loop that drives them, and proves what the design
relies on. It covers three cores.

**The region refresh cycle.** `Sweep.dfy` is a state machine of the concurrent half: page workers, the
bounded channel, the copier, the waiting cycle, cancellation and shutdown, with atomic steps, every
interleaving and a failure wherever one can happen. `SweepInvariant.dfy` holds the invariant and its
preservation, `SweepTheorems.dfy` what it means for whole runs, with two runs written out step by step
as witnesses, and `SweepOutcomes.dfy` what page 1 decides, exactly when a sweep is deferred, and which
failure it reports. `CopySource.dfy` is the row source and
the copy as sequential code. `Orders.dfy` and `Delta.dfy` read the SQL as relations, with the three
data-modifying parts of the apply in any order (section 7.8.4 of the PostgreSQL 17 documentation) and
`DISTINCT ON` free to pick any row of an id. `Checksum.dfy` is the drift guard. `Cycle.dfy` is the
sequential half: the store, the status row, and the cycle with a database failure possible at every
statement. The main result is the invariant of `Cycle.RegionStore`: whatever happens, every table a
reader could ever have seen since the start is one whole snapshot, and the status row counts what it
says it counts.

**The scheduler and its gates.** `Esi.dfy` has the gate objects, the client that feeds them, and the
laws that make each gate a function of the whole response history. `Fetch.dfy` is the page request with
its retry. `CycleRun.dfy` runs a cycle as the scheduler sees it: it drives the machine of the sweep with
real page fetches and records every cycle it starts, with the instant, the responses and the requests so
far. One region is watched down to its tables: its cycles run the database half of `Cycle.dfy` on its own
store. It is any region, so what holds of it holds of each. `Passes.dfy` says what the record of a run must satisfy, `Scheduler.dfy` is the timed loop,
`Reports.dfy` the one-report-per-run rule and `RunReports.dfy` what it means over a run, `OutageSpell.dfy`
what a whole run means during an outage, and `TurnRequests.dfy` the bound on one region's turn and what a
cycle costs, in terms of the responses that arrived. The records that the safety results speak of are kept
by the client (responses and requests), the fetcher (attempts) and the runner (cycles), where they
happen; the scheduler only refers to them.

**The incremental history import.** `Everef.dfy` parses, `History.dfy` proves that importing a growing
file in waves through the inclusive watermark refines one import of its last version, and
`Importer.dfy` is the import transaction, the selection of days and the poll.

Time is an integer clock in nanoseconds that only moves forward. Waiting, the network and the
scheduler of the machine are nondeterministic: the clock may move and the process may be told to stop
whenever the program waits.

## Findings

Points where the code is narrower than its comments. The model follows the code.

- Only a failure before the apply commits keeps the old table. When the guard, its repair or the status
  write fails afterwards, the new snapshot is live with the old `refreshed_at`
  (`Cycle.NewTableWithOldTimestamp`, with a run in `Cycle.NewTableStaysUnannounced`), although
  internal/ingest/cycle.go:217-219 says nothing was published.
- When a sweep is deferred and the copy fails in the same cycle, the joined error is classified as a
  deferral, so the database failure is not counted. `Cycle.CopyFailureCountedUnlessDeferred` says exactly
  when one is, and `Cycle.CopyFailureGoesUncounted` gives a run in which one is not.
- `DISTINCT ON (order_id) ... ORDER BY order_id` does not say which duplicate it keeps, and the apply
  and the guard choose separately. Whatever the hash function, the guard never raises a false alarm if
  and only if staged rows of one id have the same row hash (`Checksum.GuardIsExact`). A false alarm costs one rebuild from the same staged
  rows and never a wrong table.
- Any response other than 200 that carries both error-limit headers arms the error-limit block, not only
  a 420 (`Esi.BlockedUntilIsMaximum`). A pass looks at that block only at its start; between regions it
  looks only at the outage gate, so the safety result is about the outage gate.
- The stored watermark is overwritten, not maximised. The history results therefore rest on what
  PROJECT.md:383-406 says about the files: they only grow, a later row is stamped no earlier than the
  watermark before it, and each file holds one day. They are hypotheses of the lemmas (`History.Grows`,
  `History.OneDay`), never of the importer's methods.
- An exclusive bound would be correct exactly when every tracked row stamped with the recorded watermark
  is covered by another (`History.ExclusiveBoundFailsExactly`); with one stamp per file it would keep
  nothing (`History.OneStampStarvesExclusiveBound`).
- The comparison of staged and fetched counts at internal/ingest/cycle.go:134 can never fail when the
  sweep and the copy both succeed: `Cycle.RegionCycle.Run` proves that branch dead.

## Model

| member | source | states |
|---|---|---|
| Esi.OutageTracksHistory | internal/esi/outage.go:33-58 | one more response moves the run of server errors and the pause exactly as the gate's fields move, so the fields can be read as functions of the history |
| Esi.PausedUntilIsMaximum | internal/esi/outage.go:45-57 | the pause is unset while fewer than two server errors trail, else it is the maximum of arrival plus pause over the trailing run from its second member |
| Esi.TrailingErrorsIsMaximalRun | internal/esi/outage.go:37-45 | the counted run is the maximal unbroken suffix of server errors |
| Esi.BlockedUntilIsMaximum | internal/esi/errorlimit.go:22-48 | the error-limit block is the maximum over every arming response ever seen |
| Esi.BlockNeverShrinks | internal/esi/errorlimit.go:42-48 | no later responses shorten an error-limit block |
| Esi.PauseInNumbers | internal/esi/outage.go:25-57 | the outage pause without the helpers: unset unless the last two responses were 500 or above, otherwise the latest instant the run asked for from its second member on, a minute after an arrival that named none |
| Esi.BlockInNumbers | internal/esi/errorlimit.go:22-48 | the error-limit block without the helpers: the latest instant asked for by any 420, or by any response but a 200 that carries both headers |
| Esi.OtherGatesTrackHistory | internal/esi/client.go:134-163 | one more response moves the token budget, the error budget and the block exactly as the gates' fields move |
| Esi.ErrorLimit.ResetAt | internal/esi/errorlimit.go:43-48 | the block is only ever extended |
| Esi.ErrorLimit.Observe | internal/esi/errorlimit.go:23-30 | remembers the error budget and extends the block on a positive reset |
| Esi.ErrorLimit.Block | internal/esi/errorlimit.go:33-40 | extends the block by the given time, or by a minute when there is none |
| Esi.ErrorLimit.BlockedFor | internal/esi/errorlimit.go:51-58 | positive exactly while blocked, and then the time to the end of the block |
| Esi.Budget.Observe | internal/esi/budget.go:19-23 | the budget is what the last response said |
| Esi.Outage.Observe | internal/esi/outage.go:33-58 | answers below 500 clear the gate; from the second server error in a row it is extended, never shortened |
| Esi.Outage.PausedFor | internal/esi/outage.go:64-71 | positive exactly while paused, and then the time to the end of the pause |
| Esi.Client.ObserveErrorLimit | internal/esi/client.go:155-163 | a response that is not a 200 moves the block to the maximum of itself and the end that response asks for |
| Esi.Client.Receive | internal/esi/client.go:133-168 | after any response all three gates again equal the stated functions of the whole history |
| Esi.Client.Get | internal/esi/client.go:100-169 | at most one request and one response, in order, and a request is skipped only on shutdown |
| Esi.World.Sleep | internal/ingest/scheduler.go:366-378 | waits at least the given time, or reports that the context ended |
| Fetch.RetriedSpend | internal/esi/errors.go:78-91 | attempts that are retried cost five tokens per 4xx and nothing else |
| Fetch.PageSpend | internal/ingest/page.go:76-102 | however often it is retried, a page costs at most one served page plus five per 4xx |
| Fetch.Fetcher.OrdersPage | internal/esi/client.go:171-180 | one request, classified as served, garbled, refused or lost, and recorded with its instants and the responses seen, with the gates still equal to the history; a served page counts as many pages as its X-Pages header says, and one if that is missing or not positive |
| Fetch.Fetcher.TryOnce | internal/ingest/page.go:81-88 | one more attempt begins only after the backoff of a justified retry, and its cost is added |
| Fetch.Fetcher.AwaitRetry | internal/ingest/page.go:93-99 | a retry is decided after the failed attempt, on all the responses that had arrived by that instant, only if the gates then allow it, and waits out its backoff; it is refused only because of a gate or because the context ended |
| Fetch.SpendIsPrice | internal/esi/errors.go:76-91 | what a fetch reports as spent is the price of the responses it got |
| Fetch.SpendByStatus | internal/esi/errors.go:76-91 | the cost of attempts is two tokens per 2xx, one per 3xx and five per 4xx they were answered with |
| Fetch.RetriedInStatuses | internal/ingest/page.go:22-39 | every attempt but the last was refused with 429 or a 5xx, timed out, or lost to the network |
| Fetch.PausesAreObeyed | internal/ingest/page.go:59-65 | the next attempt begins no earlier than the Retry-After of a refusal that named one, else attempt times the unit, after the retry was decided |
| Fetch.Fetcher.FetchPage | internal/ingest/page.go:76-102 | at most PageAttempts recorded attempts; in statuses, only a timeout, a network failure, a 429 or a 500 and above is followed by another, never a 420 or another 4xx, and such a failure is final early only because of a gate or because the context of the process or of the worker ended; every retry is justified at a pinned instant, the tokens are the cost of every attempt, and a fetch alone adds exactly its responses to the history |
| SweepInvariant.StepKeepsInv | internal/ingest/sweep.go:74-170 | every step of every goroutine keeps control, streaming order, delivery, counts, rejection and token accounts |
| SweepInvariant.RunKeepsInv | internal/ingest/sweep.go:74-170 | the invariant holds after every interleaving |
| SweepInvariant.PushKeepsStreaming | internal/ingest/sweep.go:104-109 | a batch put into the channel keeps the streamed rows, the batch in hand and the channel equal to everything sent, in order |
| SweepInvariant.CopyKeepsStreaming | internal/store/orders.go:48-59 | receiving and streaming keep that same sequence |
| SweepInvariant.CrewSends | internal/ingest/sweep.go:148-153 | a worker that sends adds exactly its own page, once |
| SweepInvariant.CrewDelivers | internal/ingest/sweep.go:156-169 | when every worker has sent, each page of the set has been sent exactly once with its own orders |
| SweepInvariant.WorkerKeepsRejection | internal/ingest/sweep.go:135-144 | the mismatch flags are raised only by a page that disagrees with page 1, and only then |
| SweepTheorems.StagingIsThePageSet | internal/ingest/cycle.go:86-138 | when sweep and copy both succeed, whatever the interleaving, the pages are one snapshot, each of 1..X-Pages was sent exactly once, staging is their union as a multiset and its count is OrderCount |
| SweepTheorems.RejectedExactlyWhenPagesDisagree | internal/ingest/sweep.go:135-168 | a fully landed sweep is rejected if and only if some page disagrees with page 1 on Last-Modified or X-Pages |
| SweepTheorems.NeverStuck | internal/ingest/cycle.go:86-106 | every reachable state that has not joined both halves has an enabled step other than a shutdown, also with a full channel and a copier that died without draining |
| SweepTheorems.StepShrinks | internal/ingest/sweep.go:104-156 | every step of any goroutine strictly decreases one measure |
| SweepTheorems.SchedulesExist | internal/ingest/cycle.go:95-106 | from every reachable state some schedule never gets stuck |
| SweepTheorems.EveryScheduleFinishes | internal/ingest/cycle.go:95-106 | every schedule, fair or not and with the whole history in view, reaches the point where the cycle has both results |
| SweepTheorems.NoEndlessRun | internal/ingest/sweep.go:104-156 | of any endless list of steps only a finite part can be taken |
| SweepTheorems.OneOrderRun | internal/ingest/cycle.go:86-138 | a run that succeeds exists: one page with one order, fetched, sent, staged and copied |
| SweepTheorems.DeferredWithoutConnection | internal/ingest/cycle.go:95-127 | a run exists in which the sweep is deferred while the copy gets no connection |
| SweepTheorems.SpendingIsAccounted | internal/ingest/sweep.go:84-101 | TokensSpent is the sum over every exchange of every attempt, requests are at most PageAttempts per page, and a deferred sweep has spent page 1 at most and sent nothing |
| SweepOutcomes.PageSetIsWhatPageOneSaid | internal/ingest/sweep.go:84-124 | when sweep and copy both succeed, page 1 was served, the pages are exactly 1 to the number in its X-Pages header, or page 1 alone if it gave none, each sent once with its own orders, and the expiry and age reported are those of page 1 |
| SweepOutcomes.SweepReportsPageOne | internal/ingest/sweep.go:84-92 | however a sweep ends, the page count, expiry and age it reports are those of the page 1 it was served, and nothing if it was served none |
| SweepOutcomes.DeferredExactlyWhen | internal/ingest/sweep.go:79-102 | over every interleaving, a sweep is deferred if and only if the budget it began with was below the floor, or page 1 was served and two tokens for each other page would take the budget left below the reserve; it makes no request if and only if the budget was below the floor |
| SweepOutcomes.BudgetIsLastReport | internal/esi/client.go:134-140 | the budget left after some attempts is what the last of them to carry the header said |
| SweepOutcomes.FailureCause | internal/ingest/sweep.go:126-168 | a page not served fails the sweep, ahead of any disagreement between pages; the HTTP error wrapped is the refusal of the first fetch to fail, and without a failed copy or a shutdown a sweep fails so only if a page was not served |
| SweepTheorems.BelowFloorRequestsNothing | internal/ingest/sweep.go:79-82 | a cycle that starts with the budget below its floor is deferred without a request |
| SweepTheorems.AdmittedSweepKeepsReserve | internal/esi/budget.go:32-42 | if every attempt after page 1 is answered, an admitted sweep leaves at least the reserve minus five per 4xx |
| CopySource.OrderCopySource.Next | internal/store/orders.go:48-59 | yields the remaining rows in order through any number of empty batches, and ends only when the channel is closed and used up |
| CopySource.CopyOrders | internal/store/orders.go:87-107 | on success staging is exactly the channel's rows and the count is theirs; a failure leaves staging untouched or empty and drains unless there was no connection |
| Orders.DistinctOnSelects | internal/store/orders.go:161-165 | in whatever order rows are scanned, DISTINCT ON gives one row per staged id, drawn from the staged rows |
| Orders.IdsBound | internal/store/orders.go:240-244 | the duplicate count is never negative |
| Delta.DeltaIsReplace | internal/store/orders.go:161-185 | for every live table, every selection and every order of delete, update and insert, no key is violated and the result is the full replace |
| Delta.PartAdvances | internal/store/orders.go:175-184 | each part alone takes any partial state to the next, whichever parts ran before it |
| Delta.CountsConserve | internal/store/orders.go:239-248 | rows after equal rows before plus inserted minus deleted equal staged minus duplicates, and updated is the number of surviving ids that differ |
| Delta.TouchedIds | internal/store/orders.go:166-174 | the delta inserts exactly the new ids, deletes exactly the vanished ones and updates exactly those that differ |
| Delta.QuietExactlyWhenCurrent | internal/store/orders.go:171-173 | the delta is empty if and only if the table already is the selection; a second apply counts all zeros |
| Delta.RawInsertNeedsDistinctIds | internal/store/orders.go:125-127 | loading staged rows without deduplication succeeds if and only if no order id repeats |
| Checksum.HashSumAgrees | internal/store/orders.go:271-278 | the sum depends on nothing but the row hashes: not on the order of rows, not on columns outside the hash |
| Checksum.NoFalseAlarm | internal/store/orders.go:280-298 | for every hash, if duplicates hash alike the live and staged checksums agree, whichever duplicate each query picked |
| Checksum.FalseAlarmWhenDuplicatesDisagree | internal/store/orders.go:291-293 | two staged rows of one id that hash differently can make a correct table look drifted |
| Checksum.GuardIsExact | internal/store/orders.go:280-298 | for each hash function, the guard never raises a false alarm if and only if rows of one id have the same row hash |
| Checksum.HashedColumns | internal/store/orders.go:274-276 | rows of one id are hashed alike exactly when price, remaining volume and issue time agree |
| Checksum.GuardSeesRows | internal/store/orders.go:271-278 | tables of different size never have the same checksum |
| Checksum.GuardSeesColumns | internal/store/orders.go:271-278 | one row whose hash differs is always seen |
| Checksum.GuardIsBlind | internal/store/orders.go:271-278 | a difference in the columns left out of the hash is never seen |
| Cycle.SinceRefreshIsSuffix | internal/store/status.go:20-51 | the failures counted are those of the longest suffix without a refresh |
| Cycle.RegionStore.ApplyDelta | internal/store/orders.go:218-253 | with a failure at any statement nothing changes; otherwise the live table is the selection and the counts describe the change |
| Cycle.RegionStore.ResyncRegion | internal/store/orders.go:307-339 | with a failure at any statement nothing changes; otherwise the live table is the selection and its size is returned |
| Cycle.RegionStore.VerifyRegion | internal/store/orders.go:286-298 | both checksums, equal whenever live is a selection of staging and duplicates hash alike |
| Cycle.RegionStore.MarkRefreshed | internal/store/status.go:21-32 | writes the whole status row and clears the errors, or changes nothing |
| Cycle.RegionStore.MarkFailed | internal/store/status.go:42-51 | counts one more error and leaves the rest of the row alone, or changes nothing |
| Cycle.PublishedAreWholeSnapshots | internal/ingest/cycle.go:123-184 | for every interleaving and every failure, what a cycle publishes is a selection of its own staging and one whole snapshot, and it publishes nothing exactly when it does not reach its commit |
| Cycle.NoNeedlessRepair | internal/ingest/cycle.go:168-184 | with the store's own guard and agreeing duplicates, a committed snapshot is never rebuilt |
| Cycle.CopyFailureCountedUnlessDeferred | internal/ingest/cycle.go:221-255 | over whole runs, a copy failure is counted if and only if the process is not stopping, the same sweep was not deferred and the status write succeeds |
| Cycle.CopyFailureGoesUncounted | internal/ingest/cycle.go:237-255 | a run with a failed copy and a working status write exists in which nothing is counted |
| Cycle.NewTableWithOldTimestamp | internal/ingest/cycle.go:168-201 | a new table is live without a refresh if and only if the guard, its repair or the status write failed after the commit |
| Cycle.NewTableStaysUnannounced | internal/ingest/cycle.go:171-176 | a run exists in which the new table is live and the cycle is recorded as a failure |
| Cycle.SelectionIsWhole | internal/store/orders.go:325-331 | one row per id of a staged page set is a whole snapshot |
| Cycle.CycleKeepsStore | internal/ingest/cycle.go:78-213 | one cycle keeps both reader-facing invariants: whole snapshots, and a status row that tells of the last refresh its time, table, page count, and the expiry and age of its page 1 |
| Cycle.RowAfter | internal/ingest/cycle.go:192-201 | after a refresh every field of the row is that cycle's, expiry and age those of page 1; otherwise only the error fields can move |
| Cycle.RegionCycle.RecordFailure | internal/ingest/cycle.go:221-259 | a shutdown records nothing, a deferral is not counted, every other failure counts once |
| Cycle.RegionCycle.Fail | internal/ingest/cycle.go:264-270 | a database failure is recorded the same way and also returned |
| Cycle.RegionCycle.ApplySnapshot | internal/ingest/cycle.go:140-161 | succeeds exactly when the cycle reaches its commit; otherwise the store is unchanged |
| Cycle.RegionCycle.Guard | internal/ingest/cycle.go:171-184 | repairs exactly when the checksums differ, and then publishes the rebuilt table |
| Cycle.RegionCycle.AfterCommit | internal/ingest/cycle.go:168-212 | once the new table is live: repairs when the guard says so, then ends, records the row of page 1's expiry and age, and reports as specified |
| Cycle.RegionCycle.Publish | internal/ingest/cycle.go:140-212 | the database half makes visible exactly the specified tables and ends as specified |
| Cycle.RegionCycle.Finish | internal/ingest/cycle.go:123-212 | from the joined error on: records a failed sweep or copy, or publishes; deferred and inconsistent are reported exactly when the sweep ended so and the process did not |
| Cycle.RegionCycle.Run | internal/ingest/cycle.go:78-213 | for every interleaving and every failure, the cycle keeps every table ever visible a whole snapshot and leaves the whole status row as stated, after a refresh with the expiry, age and count of this cycle's own pages; it reports the metadata of its sweep, an error exactly when the row was not refreshed although sweep and copy succeeded, and, unless the process was ending, a deferral exactly when the sweep was deferred |
| Reports.OneReportPerRun | internal/ingest/streak.go:5-7 | however keys interleave, reports at a key number the maximal runs of failures at that key |
| Reports.InRunIsLastOutcome | internal/ingest/streak.go:20-38 | a run is open exactly when the last outcome at the key was a failure |
| Reports.Streak.First | internal/ingest/streak.go:20-31 | true exactly when no run is open at the key |
| Reports.Streak.Ends | internal/ingest/streak.go:34-38 | closes the run at the key and no other |
| CycleRun.CycleRunner.TakeStep | internal/ingest/sweep.go:104-156 | some possible step is always taken, it issues no more requests than the attempts it records, and it records exactly the responses that arrived; a fetch whose sibling page or copy failed may stop early or ask for nothing |
| CycleRun.CycleRunner.RunSweep | internal/ingest/cycle.go:83-106 | driven with real page fetches, the machine reaches both results, the requests issued are at most its attempts, and its exchanges carry exactly the responses that arrived, in order |
| CycleRun.CycleRunner.Store | internal/ingest/cycle.go:108-212 | the database half keeps the store's invariant, and its report is that of the machine: the expiry is the sweep's and, unless the process was ending, deferred exactly when the sweep was, without an error exactly when the row was refreshed, and wrapping exactly the HTTP error that ended the sweep |
| CycleRun.CycleRunner.Run | internal/ingest/cycle.go:78-213 | the cycle is recorded with the instant it started, the responses that arrived before and during it, its requests, its machine run and, for the watched region, a report that says how that run ended; the watched store is left as its recorded endings say |
| Passes.EachRegionOnce | internal/ingest/scheduler.go:65-71 | of sorted regions with distinct ids, each has a lower priority number than the next, or the same and a lower id |
| Passes.AllSafePush | internal/ingest/scheduler.go:169-190 | a cycle that starts while the gate is open keeps every recorded cycle safe |
| Passes.PassOfRun | internal/ingest/scheduler.go:86-96 | in a run every pass obeys its gates, the end of the process excusing only the last, and between passes nothing happens |
| Passes.EveryLookIsOk | internal/ingest/scheduler.go:162-179 | in a pass every region looked at got its turn exactly if it was due at that instant, and only the last turn can have been cut by the end of the process |
| Passes.RefreshedTurnRefreshes | internal/ingest/scheduler.go:190-207 | a turn of the watched region that ends refreshed has refreshed the consumer's row in its last cycle |
| Passes.RefreshEndsTurn | internal/ingest/scheduler.go:194-208 | a cycle that refreshed the row ends its turn, due again by the expiry of the page 1 it was served |
| Passes.DeferralEndsTurn | internal/ingest/scheduler.go:226-232 | a cycle whose sweep was deferred ends its turn as deferred, due again by the sweep's expiry |
| Passes.ErrorLimitEndsTurn | internal/ingest/scheduler.go:233-236 | a cycle whose sweep failed on a 420 ends its turn |
| Passes.OtherFailuresAreRetried | internal/ingest/scheduler.go:238-255 | after any other failure the turn goes on, unless the attempts of its priority are used up, the gates forbid a retry or the process is stopping |
| Passes.RetryWaits | internal/ingest/scheduler.go:257-270 | the next cycle starts no earlier than the Retry-After of the HTTP error that ended the sweep, else two seconds per attempt, after the failed one |
| RunReports.RunOutcomes | internal/ingest/scheduler.go:145-152 | what the report log of a run says about a region and about the error limit is exactly how its turns and passes ended |
| RunReports.ReportsOfRun | internal/ingest/streak.go:5-7 | over a whole run the reports of a region number the maximal runs of turns in which it gave up, separated by refreshes, and those of the error limit its trips |
| Scheduler.Scheduler.constructor | internal/ingest/scheduler.go:62-76 | keeps exactly the given regions, in (priority, id) order |
| Scheduler.Scheduler.WhatIsValid | internal/ingest/scheduler.go:78-97 | at any time of a run every recorded cycle started safely, was answered by the responses that arrived and told the truth, and every table ever visible of the watched region is a whole snapshot with a truthful status row |
| Scheduler.Scheduler.NextDue | internal/ingest/scheduler.go:129-141 | never less than five seconds ahead, and within the jitter of the snapshot's expiry |
| Scheduler.Scheduler.Prime | internal/ingest/scheduler.go:107-126 | one recorded request per region; each region is due by the expiry of the page it was served, else half a minute after the request failed, unless the process is stopping |
| Scheduler.Scheduler.FirstDue | internal/ingest/scheduler.go:110-120 | a served page sets the due time by its expiry, any failure sets it half a minute ahead |
| Scheduler.Scheduler.Decide | internal/ingest/scheduler.go:191-270 | after an attempt the turn is over exactly as its report, its attempts and the gates say, or its delay is |
| Scheduler.Scheduler.Settle | internal/ingest/scheduler.go:194-236 | a success ends the open run of failures, a deferral and a 420 leave it, and only a 420 leaves the due time |
| Scheduler.Scheduler.GiveUp | internal/ingest/scheduler.go:240-254 | out of attempts or stopped by the gates: one failure is noted and the region is due thirty seconds later, unless the process is stopping |
| Scheduler.Scheduler.AwaitRetry | internal/ingest/scheduler.go:257-270 | the next attempt waits for Retry-After or two seconds per attempt, decided while the gates allow a retry |
| Scheduler.Scheduler.Attempt | internal/ingest/scheduler.go:189-193 | a cycle starts with the outage gate open on every response that had arrived, and every recorded cycle stays safe |
| Scheduler.Scheduler.RunRegion | internal/ingest/scheduler.go:183-272 | at most the allowed attempts, all of them recorded cycles of this turn with nothing in between, each retry justified and after its delay, never after a 420; the due time, the reports and an early end are accounted for |
| Scheduler.Scheduler.Probe | internal/ingest/scheduler.go:347-355 | exactly one request unless the process is stopping |
| Scheduler.Scheduler.Canary | internal/ingest/scheduler.go:318-326 | one request, then always a full probe interval |
| Scheduler.Scheduler.WaitOutage | internal/ingest/scheduler.go:333-344 | one request, then a full probe interval unless it was answered |
| Scheduler.Scheduler.LookAt | internal/ingest/scheduler.go:162-178 | a region gets its turn exactly when its due time has come at the instant it is looked at, and exactly what the turn calls for is reported |
| Scheduler.Scheduler.Sweep | internal/ingest/scheduler.go:162-179 | looks at regions in priority order from the first on, each once and one after the other, runs exactly the due ones, stops early only on shutdown or an armed outage gate, and reports exactly what the turns call for |
| Scheduler.Scheduler.RunProbe | internal/ingest/scheduler.go:153-160 | under an armed outage gate or a low budget the pass is one probe, and no cycle runs |
| Scheduler.Scheduler.RunPass | internal/ingest/scheduler.go:144-180 | one pass obeys the three gates as they stood at its start, moves due times only where it gave a turn, and reports exactly the error limit's state and what the turns call for |
| Scheduler.Scheduler.Run | internal/ingest/scheduler.go:78-97 | after priming, which makes one request per region at most, the passes account for every response, request, cycle, due time and report; only the last can have been cut by the end of the process, and every region keeps a due time |
| OutageSpell.NoCycleStartsWhilePaused | internal/ingest/scheduler.go:153-178 | over every run, no recorded cycle, first attempt or retry, starts at an instant when the responses that had arrived by then have the outage gate armed |
| OutageSpell.ProbeRearms | internal/ingest/scheduler.go:333-344 | one failed probe keeps the gate armed past the start of the next pass |
| OutageSpell.SpellStaysPaused | internal/ingest/scheduler.go:144-156 | in an unbroken spell, from the first failed probe on, each pass issues exactly one request, a probe interval after the last |
| OutageSpell.WindowBound | internal/ingest/scheduler.go:328-344 | requests at least a gap apart: a window holds at most its width in gaps plus one |
| OutageSpell.SpellRateBound | internal/ingest/scheduler.go:328-344 | in any run, one that ended in a shutdown included, during the spell any window of width W holds at most W / CanaryInterval + 1 requests |
| TurnRequests.PagesWereAnswered | internal/ingest/sweep.go:90 | the page count of a cycle is at most one, or the value of the X-Pages header of a response that arrived during it |
| TurnRequests.CycleTokens | internal/ingest/sweep.go:158-160 | the tokens a cycle reports are the price of the responses that arrived during it |
| TurnRequests.CycleRequests | internal/ingest/page.go:81-100 | a recorded cycle issues at most PageAttempts requests for each page of the largest X-Pages header that arrived during it |
| TurnRequests.TurnRequestBound | internal/ingest/scheduler.go:183-189 | a recorded turn issues at most (MaxAttempts or 1) x PageAttempts x the largest X-Pages header requests, over the responses that arrived during it |
| Everef.Parse | internal/everef/parse.go:61-148 | succeeds exactly when no line is bad, keeps exactly the passing rows in order, counts every line, takes the watermark from all of them, and otherwise reports the first bad line with the source's count |
| Everef.KeptMembers | internal/everef/parse.go:97-145 | a row is kept exactly when some line holds it and passes the filter |
| Everef.WatermarkIsMax | internal/everef/parse.go:93-95 | the watermark bounds every stamp of the file and is one of them |
| Everef.Days | internal/everef/parse.go:178-185 | every day of the index once, strictly ascending |
| History.LatestOfScan | internal/store/history.go:148-155 | the selection holds, for each key present, a row of the latest stamp |
| History.ImportStepIsFaithful | internal/store/history.go:148-160 | importing a grown file through the inclusive watermark leaves the day as faithful to it as a full import |
| History.ImportStaysInDay | internal/store/history.go:148-160 | an import touches no row of another day |
| History.IncrementalRefinesFull | internal/ingest/history.go:200-226 | for every chain of growing versions, whichever imports fail, the day is as faithful to the last committed version as one full import of it |
| History.WavesEqualOneImport | internal/store/history.go:113-116 | if no two rows tie on key and stamp, importing in waves and importing the last version once store the same rows |
| History.WatermarkIsSafe | internal/store/history.go:167-179 | every tracked row of the last committed version is represented by a stored row at least as recent, and none stored is later than the watermark |
| History.StampsNeverDecrease | internal/store/history.go:156-159 | no stored stamp ever goes back |
| History.ExclusiveBoundFailsExactly | internal/everef/parse.go:46-51 | an exclusive bound is faithful if and only if every tracked row stamped with the watermark is covered |
| History.FaithfulInColumns | internal/store/history.go:148-160 | after a faithful import every tracked row has a stored row of its own region, type and date, at least as recent, and every stored row of the day has the figures and stamp of a tracked row of exactly its three columns |
| History.OneStampStarvesExclusiveBound | internal/everef/parse.go:46-51 | with one stamp throughout the file an exclusive bound keeps nothing while the inclusive one keeps everything |
| Importer.HistoryStore.ImportHistory | internal/store/history.go:117-187 | rows and bookkeeping change together, or neither does |
| Importer.HistoryImporter.SelectDays | internal/ingest/history.go:172-197 | exactly the due days, oldest first, each once |
| Importer.HistoryImporter.ImportDay | internal/ingest/history.go:200-233 | imports exactly when nothing fails and otherwise changes nothing; keeps the ledger and, on files that keep their promises, the soundness of every day |
| Importer.HistoryImporter.Once | internal/ingest/history.go:82-145 | imports exactly the due days that can be imported, oldest first, and keeps ledger and soundness |
| Importer.ImportKeepsSound | internal/ingest/history.go:200-226 | one committed import keeps every day faithful to its last committed version through its recorded watermark |
| Importer.SoundInColumns | internal/store/history.go:148-179 | every tracked row of the last committed file is stored under its own region, type and date, no older than itself and no later than the watermark |
| Importer.DueDays | internal/ingest/history.go:179-195 | a day never imported is due when announced non-empty within the backfill window; an imported one when its count grew and it is recent |
| Importer.RecordedOneDay | internal/store/history.go:171-179 | recording a day sets its count and watermark, adds to the rows upserted and leaves other days alone |
| Importer.ImportsAreBounded | internal/ingest/history.go:188-194 | a day whose index count never exceeds n is successfully imported at most n times |
| Importer.QuietDayIsComplete | internal/ingest/history.go:188-194 | a recent day no longer selected has every tracked row the index announced stored, at least as recent |

## Left out

- HTTP, TLS, timeouts, gzip, bzip2, JSON and CSV decoding, connection pooling: a request yields a status with its headers and a page, or a loss.
- The client's semaphore slot and rate limiter: they only delay a request.
- PostgreSQL's locks, logging, memory settings, partitions and SQL text: commit and rollback are taken as atomic, and a commit whose acknowledgement is lost counts as a failure that changed nothing.
- ESI's own sliding token window: the service believes the header, and so does the model.
- `iskColumn` and the price text: a small character check; prices are integers in hundredths.
- `LogIngest`, logging, timings and Sentry: nothing reads them. Of a report only the decision to send it is kept.
- `EverefDays` and `historyCopySource.Next`: a map is filled and a slice is walked; both add only easy members.
- Index days whose key is not a date, and negative index counts: the index is a map from days to counts.
- A NULL watermark is the zero stamp, as the importer reads it back.
- The region id inside a row: it is the constant of its partition.
- The history importer's own reports and spacing: the same reporting rule as the scheduler's.
- Configuration, migrations, maintenance tickers, the health probe and the choice of regions.
- SweepTheorems.NeverStuck: assumes that each request and each database call ends, and at least one attempt per page; a page fetch with all its retries is one step of the machine.
- SweepTheorems.AdmittedSweepKeepsReserve: assumes that this service alone spends and says nothing about a request that was never answered, which is also what the code can know.
- CycleRun.CycleRunner.Run: for a region other than the watched one a report may be any report, so the results on what a turn does about a deferral or an error are about the watched one, which is any region.
- CycleRun.CycleRunner.Happens: the database it stands for scans rows in the order in which they were staged and lets the guard return any verdict; Cycle.RegionCycle.Run is proved for every scan order and for the store's own guard.
- CycleRun.CycleRunner.RunSweep: takes the machine's steps in any order, but one whole page fetch after the other. How retries see other workers' responses is in Fetch.Fetcher.FetchPage, whose other callers interfere unless it runs alone.
- Esi.Client.Receive: one response updates the three gates at one instant. In internal/esi/client.go:134-167 the responses of two workers can reach the gates in different orders, which would give each gate a history of its own.
- OutageSpell.NoCycleStartsWhilePaused: a response that arrives at the very instant at which a cycle starts may count as before or after it.
- OutageSpell.SpellRateBound: takes as a hypothesis that the ticker starts a pass at most one tick after the probe interval.
- Importer.QuietDayIsComplete: takes as a hypothesis that each committed file is at least as long as the index count that selected it; the code does not compare the two.
- History.WavesEqualOneImport: rows that tie on key and stamp may differ between the two imports, because nothing in the statement orders them.
