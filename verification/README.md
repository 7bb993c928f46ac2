# A verified model of amgix-now

amgix-now is a document search server in front of Qdrant. This project models the parts of it where a mistake
would lose or resurrect data or change what a query means, and proves properties of them for every input, every
interleaving and every run.

**The write path** (`WriteProtocol`, `WriteInvariant`, `WriteSteps`, `WriteSafety`, `WriteAck`, `WriteProgress`,
`WriteDuplicates`, `WriteLate`, `WriteLocks`, `WriteLayers`). Sync upserts, queued upserts and deletes run concurrently. Taking a lock,
re-verifying the queue row, reading, patching, adding (with retries, and with failures that stored any part of
the batch), cancelling, deleting and acknowledging are separate steps of one step system. `Event` carries all
nondeterminism, `Step` is a function, and the store and queue at the start of a run are arbitrary. Locks are
read off the tasks (`Held`); `WriteLocks` proves that any layer with exclusive holders implements them, and
`WriteLayers` runs the tasks over `LockRegistry` and over `LockService`. `WriteLate` adds requests that take
effect after they failed. A lock name is the string that
the server hashes; two documents of different collections may share one, and the proofs allow for that. Write
tasks have at most one document per id, which `QueueClaim.SelectionIsClaim` and `MicroBatch.MergedOnePerId` prove
for both producers; `WriteDuplicates.DuplicatesExactly` says when a request with repeated ids would be harmless.

**The locks.** `LockRegistry` is the map of named mutexes with its sweeper, as a step system with reference
counts. `LockService` is the lock client in front of a service that grants a name again to the process that
already owns it, over a network that may delay, lose or repeat requests.

**The poller** (`QueueMerge`, `QueueDatabase`, `QueuePoller`, `QueueClaim`, `QueueBatch`, `QueueProcess`). One claimed batch,
as the loops and in-place updates of the source, against the specification `QueueMerge.Merged`, for the case
that the database answers every request. Failures and interleavings are the subject of the step system.

**Micro-batches** (`MicroBatch`) and **token statistics** (`Stats`, `Sums`), with averages as reals.

**Metrics** (`MetricsBuckets`, `MetricsReport`, `MetricsKinds`, `MetricsState`, `MetricsFive`, `MetricsFlush`,
`MetricsRun`).
The report thread's live buckets, watermark, windows and trimming as a class whose ghost fields keep the whole
history, the five-minute roll-up, the flush that runs beside them as a step system, and the loop over all three.
Times and values are reals; a flag selects whether a sum is over values or over the denominators of averages, so
every statement covers both.

**Filters** (`FilterTree`, `FilterConvert`, `DateTexts`, `FilterDates`, `FilterValidate`, `GroupExclusion`). The filter language from parse
trees on, its in-memory reading, its translation, the database's reading of `must`, `should` and `must_not`, and
validation. Reading a string as a point in time is a parameter that validation and translation share; of the
code's reader `DateTexts` knows that it ignores white space around a date, and two of the forms it accepts.

**Grouped search** (`RankFusion`, `ArmPool`, `GroupCap`, `CapGrowth`, `GroupedSearch`). Merging, reciprocal rank
fusion with real scores, the per-group cap, and the refetch loop; the database's answer is a parameter that may
depend on the round.

Maps that the source walks in hash order are walked in an arbitrary order. Where a property does not hold of the
code as it stands, the code is modelled as it is, and the exact condition is proved:

- Filter equality with a fraction becomes a match with the integer 0, and a null test is always false in memory
  (`FilterDates.LeafAgreesExactly`). The same conversion makes group exclusion inexact for fractional group
  values (`GroupExclusion.ValueExactlyExcluded`).
- A validated filter can fail to translate if a key is declared as a date and, later in the list, as a number
  (`FilterValidate.ValidatedFiltersConvert`).
- A field that an update map does not cover keeps its token length only in two cases (`Stats.UncoveredField`).
- The comment at `src/metrics.rs:570` speaks of advancing the watermark only when no raw data remains. The
  condition that follows it is always true: `MetricsState.ReportState.CollectMinutes` proves that every turn in
  a new minute advances it.
- Minute buckets that finish on a turn that closes no five-minute window never reach the five-minute roll-up
  (`MetricsFive.MidWindowMinuteIsLost`); `MetricsFive.KeptExactly` and `MetricsFive.NothingLostExactly` say
  exactly which minutes it keeps and when it loses none.
- Ordered comparison of date keys compares text in memory and points in time in the database. On one document
  the two agree iff its text is ordered against the filter's as the dates are (`FilterDates.DateOrderExactly`);
  no such comparison agrees on all documents (`FilterDates.ReaderLeafAgreesExactly`).
- A database request that failed can take effect after its task has let the locks go. The last writer wins
  however a run goes on iff nothing is outstanding (`WriteLate.LateExactly`); what lands before its task returns
  does no harm (`WriteLate.EarlyRunIsRun`).
- Exclusion by the lock service depends on it not freeing a name in use, and on nothing else
  (`LockService.ExclusionExactly`).

`dafny verify dfyconfig.toml` checks the project.

## Model

| member | source | states |
|---|---|---|
| `WriteSteps.StepKeeps` | src/encoder.rs:1541-1829 | every step of every task keeps the invariant: held locks are disjoint, each mark agrees with the store as long as its lock is held, jobs and chunks match the claimed rows |
| `WriteSteps.RunKeeps` | src/queue_poller.rs:199-369 | the invariant holds in every state of every run, from any initial store and queue |
| `WriteSteps.AddErrKeeps` | src/encoder.rs:1755-1773 | an attempt to add that failed after storing any part of the batch leaves every document old or new, for the retry and for the final failure |
| `WriteSteps.LandKeeps` | src/encoder.rs:1755-1773 | an earlier attempt to add that takes effect while its task still has the locks keeps the invariant |
| `WriteInvariant.WriteEffect` | src/encoder.rs:1707-1717 | a write stores exactly the chosen documents of a task and leaves its others as they were |
| `WriteInvariant.WriteFrame` | src/encoder.rs:1600-1611 | a write changes no document whose lock the writer does not hold |
| `WriteSafety.MutualExclusion` | src/encoder.rs:1600-1611 | in no state of any run do two tasks hold the lock of one document |
| `WriteSafety.CancelBars` | src/encoder.rs:1896-1903 | a queued upsert cancelled under the document lock is barred: no other task is past re-verification for it |
| `WriteSafety.BarredStays` | src/encoder.rs:1613-1650 | a barred row stays barred over every step: only re-verification moves a task forward, and it needs the row |
| `WriteSafety.NoResurrection` | src/qdrant.rs:653-700 | an upsert row that was queued, with a timestamp no later than a delete, when the delete cancelled under the lock is written by no later step of the run |
| `WriteSafety.StepIsNewer` | src/encoder.rs:1674-1692 | one step leaves a stored document as it is, overwrites it with a strictly later timestamp, or removes it through a delete strictly later than it |
| `WriteSafety.LastWriterWins` | src/encoder.rs:1904-1918 | over any stretch of a run a stored document is the same, has a strictly later timestamp, or a delete strictly later than its timestamp removed it in between |
| `WriteDuplicates.DuplicatesExactly` | src/encoder.rs:1670-1773 | a request lowers no stored timestamp by its patch and its add, for any store and any choice of what needs new vectors, iff items with the same id have the same timestamp |
| `WriteLocks.LayerImplementsLocks` | src/encoder.rs:240-262 | with a lock layer of which only exclusive holders are known, the write tasks run as a run of the write protocol, state by state in order, so its guard on locks is implemented |
| `WriteLayers.RegistryIsExclusive` | src/encoder.rs:176-208 | under the registry's invariant its holders have different keys |
| `WriteLayers.WritesOverRegistry` | src/encoder.rs:176-262 | write tasks that go on when the mutex registry lets their lockers in, with sweeps and cancellations anywhere, run as a run of the write protocol |
| `WriteLayers.ServiceIsExclusive` | src/lock_client.rs:110-162 | under the lock client's invariant the tasks in critical sections have different names |
| `WriteLayers.WritesOverService` | src/lock_client.rs:110-305 | the same over the lock service, in every run in which it frees no name in use |
| `WriteLate.EarlyRunIsRun` | src/encoder.rs:1755-1773 | with requests that take effect after they failed, a run in which each does so before its task returns is a run of the write protocol, step by step |
| `WriteLate.LateExactly` | src/qdrant.rs:47 | in every state of such a run, the last writer wins in all continuations that leave nothing more outstanding iff nothing is outstanding |
| `WriteLate.LateWriteResurrects` | src/qdrant.rs:653-700 | from every state with an upsert outstanding, a later delete can cancel, remove and succeed before the older document comes back |
| `WriteAck.SettledIsCovered` | src/encoder.rs:1674-1679 | while a task runs, a document it found stale or has written is in the store at its timestamp or later, under its lock |
| `WriteAck.WinnerInChunk` | src/encoder.rs:774-788 | winner w of a job travels as item w mod 16 of chunk w / 16, with its own queue row |
| `WriteAck.AckSound` | src/queue_poller.rs:291-310 | an upsert row acknowledged after a bulk upsert is a winner of that job, and earlier in the run the task of its chunk held the document's lock while the store had the document at the row's timestamp or later |
| `WriteAck.DropSound` | src/queue_poller.rs:238-265 | a row dropped as superseded has a row of the same document and job with a timestamp at least as late |
| `WriteAck.RowLeaves` | src/qdrant.rs:619-700 | upsert rows leave the queue in three ways only: acknowledged, superseded, or cancelled by a delete |
| `WriteAck.FailedJobNeverAcks` | src/encoder.rs:812-836 | once a chunk of a job has failed no later step acknowledges a row of that job |
| `WriteAck.StaysCovered` | src/encoder.rs:1870-1918 | a document that was covered once stays covered as long as no later delete removes it |
| `WriteAck.RerunSkips` | src/encoder.rs:1674-1677 | a later task that carries a row already written and not deleted since finds it stale and does not write it again |
| `WriteProgress.PlanNamesSorted` | src/common.rs:397-402 | locks taken in the order of the document ids are taken in the order of their names |
| `WriteProgress.WaitsUpward` | src/encoder.rs:1600-1611 | a task waits only for a name above every name it holds |
| `WriteProgress.RunnableHolder` | src/encoder.rs:1600-1611 | whenever a task is blocked, some task that holds a lock is neither blocked nor finished |
| `WriteProgress.NoDeadlock` | src/encoder.rs:1599-1611 | in every state of every run with a blocked task, a lock holder has an enabled step that finishes work |
| `WriteProgress.Drains` | src/encoder.rs:1541-1829 | from every reachable state there is a continuation in which every task returns and all locks are free |
| `LockRegistry.CountOneIsIdle` | src/encoder.rs:198-208 | a reference count of one means exactly that no task waits for, holds or is dropping the mutex |
| `LockRegistry.SweepCounts` | src/encoder.rs:198-208 | evicting an entry keeps every count equal to the number of references |
| `LockRegistry.RunKeeps` | src/encoder.rs:176-208 | with any number of lockers and sweeps, counts equal references and every waiter and holder refers to the registered mutex |
| `LockRegistry.Exclusion` | src/lock_client.rs:62-81 | tasks of one key share one mutex, which is the registered one, and at most one holds it |
| `LockRegistry.SweepExact` | src/encoder.rs:203-205 | a sweep removes a key if and only if nobody waits for, holds or is dropping it, and no other key |
| `LockRegistry.CountCheckIsNeeded` | src/encoder.rs:205-205 | for every state the invariant allows, with the registry mutex free, and every key in use: were its entry removed, the next task would hold the key by a second mutex |
| `LockService.RunKeeps` | src/lock_client.rs:110-162 | as long as the service frees no name in use, whoever relies on a name has its process as owner and holds the process-local lock |
| `LockService.Exclusion` | src/lock_client.rs:42-81 | then at most one task over all processes is in the critical section of a name, although grants repeat per owner |
| `LockService.ExclusionExactly` | src/lock_client.rs:42-162 | for every run: exclusion holds in all continuations without releases and expiries iff no step of the run freed a name some task relied on |
| `LockService.TimelyRun` | src/lock_client.rs:240-268 | a run in which releases are served before their call returns and held names do not expire is such a run |
| `LockService.FreeingBreaks` | src/lock_client.rs:110-162 | from every state, a step that frees a name some task relies on can be followed by two tasks in one critical section |
| `LockService.LateReleaseBreaksExclusion` | src/lock_client.rs:240-305 | from every state the invariant allows with a holder in it, a release served after its call gave up leads to two tasks in one critical section |
| `LockService.ExpiryInUseBreaksExclusion` | src/lock_client.rs:110-162 | from every state the invariant allows with a task that relies on a name, its expiry leads to two tasks in one critical section |
| `QueueMerge.CandidateIsMax` | src/queue_poller.rs:238-258 | the candidate of a document is one of the claimed upserts and none of them is later |
| `QueueMerge.DeletesEffect` | src/queue_poller.rs:329-369 | a document survives a list of deletes exactly if none of them is strictly later |
| `QueueMerge.MergedIsMaximum` | src/queue_poller.rs:199-369 | after a batch a document is present iff no claimed delete is later than the latest of stored and claimed upserts, and then it has that timestamp |
| `QueueMerge.MergedIsAbsent` | src/queue_poller.rs:199-369 | a document neither stored nor offered by a claimed row is absent after the batch |
| `QueueMerge.ClaimOrderIndependent` | src/queue_poller.rs:199-369 | any reordering of the claimed rows leaves the same timestamp |
| `QueueDatabase.Database.Partition` | src/encoder.rs:1669-1692 | skipped are exactly the documents no newer than the store; of the others exactly the stored ones that need no new vectors are patched and the rest vectorized |
| `QueueDatabase.Database.UpsertChunk` | src/encoder.rs:1613-1718 | one request writes exactly the rows still queued that are newer than the store, and reports the others as drained or skipped |
| `QueueDatabase.WritesAreChunkEffect` | src/encoder.rs:1694-1718 | writing the winning rows among those still queued is the whole effect of a request |
| `QueuePoller.SortWorks` | src/queue_poller.rs:240-245 | sorted by id and then timestamp, the same rows, rows with equal id and timestamp in their old order, and the same candidate for every document |
| `QueuePoller.SelectWinners` | src/queue_poller.rs:246-258 | one winner per document, with the latest timestamp; winners and superseded rows are together exactly the input, and each superseded row has a winner no older |
| `QueueClaim.SelectionIsClaim` | src/queue_poller.rs:238-265 | for claimed rows that are live in the queue, the winners and superseded rows of the selection are a claim the write protocol allows, and nothing claimed is left out |
| `QueueClaim.ClaimWorks` | src/queue_poller.rs:238-265 | sorting and selecting leads to such a claim |
| `QueueBatch.BulkUpsert` | src/encoder.rs:774-836 | whatever the order in which chunks of sixteen finish, every winner had its effect and no other document changed |
| `QueueBatch.Acknowledge` | src/queue_poller.rs:291-304 | exactly the winners that were not drained are acknowledged |
| `QueueBatch.ProcessCollection` | src/queue_poller.rs:238-327 | every document of the collection becomes the later of stored and claimed, and exactly the claimed rows leave the queue |
| `QueueProcess.Split` | src/queue_poller.rs:207-214 | the upserts in claim order and the deletes in claim order, and nothing else |
| `QueueProcess.Group` | src/queue_poller.rs:217-236 | rows grouped by collection; exactly the rows without a document are marked failed |
| `QueueProcess.ProcessUpserts` | src/queue_poller.rs:238-327 | whatever the order of collections, all of them are merged and their rows acknowledged |
| `QueueProcess.ProcessDelete` | src/encoder.rs:1842-1918 | a delete whose row is gone changes nothing; otherwise it removes an older document, cancels exactly the upserts it supersedes and its own row |
| `QueueProcess.ProcessDeletes` | src/queue_poller.rs:329-369 | a list of deletes removes exactly the documents some delete is later than, and clears its rows and those it cancels |
| `QueueProcess.ProcessBatch` | src/queue_poller.rs:199-369 | every document of the store becomes the merge of stored value and claimed rows, and exactly the handled and cancelled rows leave the queue |
| `MicroBatch.ChooseWinners` | src/encoder.rs:1284-1317 | per id the job with the greatest timestamp, the earliest on ties, is kept; every other job has been answered |
| `MicroBatch.Assemble` | src/encoder.rs:1319-1334 | the merged documents and their tickets, aligned, are those of the winners in line order |
| `MicroBatch.MergedOnePerId` | src/encoder.rs:1319-1334 | the merged batch has exactly one document per id, at least as late as every job for that id, with its own ticket |
| `MicroBatch.Respond` | src/encoder.rs:1275-1404 | for every list of jobs each job gets exactly one reply, the one its role and the result call for |
| `Stats.CollectionStats.Apply` | src/encoder.rs:385-409 | the update in place equals the specification, including the reset when no documents remain |
| `Stats.CoveredField` | src/encoder.rs:397-406 | a covered field's average times count moves by exactly its net token length |
| `Stats.UncoveredField` | src/encoder.rs:397-407 | a field the map does not cover keeps its token length iff no documents came or its average was zero |
| `Stats.RunningSums` | src/encoder.rs:385-409 | after any sequence of regular maps, average times count is the accumulated net token length and the count is the accumulated count |
| `Stats.OrderIndependent` | src/encoder.rs:385-409 | regular maps in any order give the same statistics |
| `Stats.Persist` | src/encoder.rs:411-437 | the maps of one collection are applied in order between one read and one write |
| `Stats.Flush` | src/encoder.rs:530-598 | every collection gets exactly its own jobs, whatever the order of collections |
| `Stats.FlushOrderIndependent` | src/encoder.rs:536-587 | two flushes of the same jobs in different order leave the same statistics |
| `MetricsBuckets.PushFrom` | src/metrics.rs:488-505 | an event raises the live sums from every cut on by its own weight, for values and denominators |
| `MetricsBuckets.PopFront` | src/metrics.rs:649-651 | exactly the leading buckets before the cutoff go |
| `MetricsBuckets.WindowTotal` | src/metrics.rs:515-531 | reading backwards with an early stop gives the sum over all buckets in the window if the buckets ascend |
| `MetricsReport.AddToSlot` | src/metrics.rs:551-563 | an entry is opened once per slot and every sum grows by the contribution |
| `MetricsReport.MergeMinutes` | src/metrics.rs:545-565 | one bucket per minute in range, and from every minute on they add up to the live buckets in range |
| `MetricsReport.CollectConserves` | src/metrics.rs:538-582 | moving the watermark turns exactly the live part it passes into emitted buckets |
| `MetricsState.ReportState.ApplyEvent` | src/metrics.rs:470-506 | an event with a conflicting aggregation changes nothing; any other is counted, as late exactly if it is behind the watermark, and the accounts and the exactness of the live buckets are kept |
| `MetricsState.ReportState.Snapshot` | src/metrics.rs:509-535 | with events in bucket order and a clock that does not step back, every window of every key equals the plain sum over all events ever accepted, and keys without a reading have none |
| `MetricsState.ReportState.CollectMinutes` | src/metrics.rs:538-582 | the watermark always rises to the current minute and never falls; the minutes it passes are emitted once, with exactly their contents |
| `MetricsState.ReportState.TrimBuckets` | src/metrics.rs:642-661 | only leading buckets behind both the watermark and every window go, so nothing unflushed is lost; keys without buckets go |
| `MetricsState.ReportState.DrainAndProcess` | src/metrics.rs:443-459 | one turn extends the history by what it accepts, which is no event that conflicts with a live one, and the late events by exactly those behind the watermark it found; it moves the watermark to the current minute and emits each minute passed once; its snapshot is exact |
| `MetricsKinds.AcceptsUnique` | src/metrics.rs:470-484 | history, trimming point and waiting events determine what a turn accepts: an event is left out iff an accepted event of the turn, or an earlier one not trimmed, has its key under another aggregation |
| `MetricsRun.AcceptedUnique` | src/metrics.rs:443-506 | over a whole run with a clock that does not step back, events and clock readings determine what every turn accepts |
| `MetricsRun.UniformAccepted` | src/metrics.rs:470-484 | without conflicting aggregations every event is accepted |
| `MetricsRun.UniformHistory` | src/metrics.rs:461-484 | then the history of every turn is everything that came up to it |
| `MetricsRun.OnTimeNoneLate` | src/metrics.rs:538-557 | if no event lies behind the watermark its turn finds, none is late |
| `MetricsRun.MinuteContents` | src/metrics.rs:545-568 | each emitted minute bucket holds exactly the accepted events of its key and minute that were not late, in value and denominator |
| `MetricsRun.MinuteIsEmitted` | src/metrics.rs:545-580 | a minute behind the watermark whose events that were not late do not cancel out has been emitted |
| `MetricsRun.Run` | src/metrics.rs:271-345 | over any run of turns with any flushes in between: the watermark is the latest minute seen; from any minute on, what was accepted is emitted, live ahead of the watermark, or was behind it on arrival; no bucket is emitted twice, even if the clock steps back; with a rising clock every snapshot is exact; five-minute buckets are the sums of the minutes the books call rolled up; every finished bucket is pending, stored or was dropped a day old |
| `MetricsFive.FiveMinutes.Collect` | src/metrics.rs:585-639 | a turn that closes a window rolls up exactly the waiting and new minutes of the closed windows and keeps the rest; on any other turn the new minutes are dropped; no five-minute bucket is emitted twice |
| `MetricsFive.MinutesAccounted` | src/metrics.rs:585-639 | over any turns, every minute handed over is rolled up, waiting, lost or dropped for age, as often as it was handed over |
| `MetricsFive.KeptExactly` | src/metrics.rs:590-597 | a minute handed over by a turn is rolled up, waiting or dropped for age iff the turn closes a window and the minute is not behind the watermark it found; otherwise it is lost |
| `MetricsFive.NothingLostExactly` | src/metrics.rs:590-597 | no minute is lost over a run iff every turn with minutes closes a window and finds them ahead of the watermark |
| `MetricsFive.MidWindowMinuteIsLost` | src/metrics.rs:591-593 | for every window some turn has opened, whatever a further turn inside it hands over is lost, whatever the later turns are |
| `MetricsFive.WindowOpens` | src/metrics.rs:591-593 | every window can be opened so |
| `MetricsRun.LoopKeepsExactly` | src/metrics.rs:306-307 | the same condition for the whole loop, on clock readings alone |
| `MetricsFlush.FinishedGrows` | src/metrics.rs:306-321 | what a turn of the loop finishes, minutes and five minutes, has ids that no earlier turn used |
| `MetricsFlush.SucceedRemoves` | src/metrics.rs:382-409 | a successful flush removes from the pending list exactly the buckets it stored; what was appended meanwhile stays |
| `MetricsFlush.RunKeeps` | src/metrics.rs:311-341 | over any interleaving of appends with new ids, age limits and flushes that succeed, or fail with any part stored, every finished bucket is pending, stored as it was finished, or dropped a day old, and nothing else is stored |
| `MetricsFlush.StoredStays` | src/qdrant.rs:1066-1110 | what is stored under a bucket id never changes again |
| `FilterTree.BuildMeans` | src/filter_parser.rs:26-108 | the tree built from any expression evaluates as the expression reads, with NOT above AND above OR |
| `FilterTree.BuildForm` | src/filter_parser.rs:26-108 | built trees are in normal form: leaves, negations, and conjunctions and disjunctions of at least two |
| `FilterTree.UnparseBuilds` | src/filter_parser.rs:26-147 | round trip: every tree in normal form is built from some expression |
| `FilterConvert.LeafAgrees` | src/qdrant.rs:2232-2300 | a leaf that is no null test and no equality with a fraction holds in the database exactly if it holds in memory; for an ordered comparison of a date key, on documents whose text, if any, is a date ordered against the filter's as the dates are |
| `FilterConvert.TranslationKeepsMeaning` | src/qdrant.rs:2201-2329 | the translated filter accepts a document exactly if the filter matches it in memory, for every filter and document all of whose leaves meet that condition |
| `FilterConvert.ParsedMeaning` | src/search_join.rs:276-334 | from expression to database: under that condition the translation accepts exactly what the expression says |
| `FilterConvert.FractionDisagrees` | src/qdrant.rs:2241-2243 | equality with a fraction and its translation differ on the document that holds the fraction |
| `DateTexts.ReaderHasTwins` | src/datetime_parse.rs:38-59 | because white space around it is cut off, every date has texts of the same instant before and after it |
| `DateTexts.TextsOrdered` | src/datetime_parse.rs:82-97 | for all days and UTC times in their plain forms, the order of the texts is the order in time, except that a day comes before its own midnight |
| `FilterDates.DateOrderExactly` | src/search_join.rs:316-334 | the two readings of all ordered comparisons with a date agree on a document iff its text, if it has one, is a date ordered against that date as text as it is in time |
| `FilterDates.PlainDatesExactly` | src/search_join.rs:316-334 | for dates in the plain forms they agree iff it is not a day against its own midnight |
| `FilterDates.LeafAgreesExactly` | src/qdrant.rs:2232-2300 | the two readings of a parsed leaf agree on all documents iff it is no null test, no equality with a fraction and no ordered comparison of a date key, for any reader with other texts of the same instant around the filter's date |
| `FilterDates.DateLeafAgreesExactly` | src/qdrant.rs:2232-2300 | for such a reader a leaf of a date key agrees on all documents that hold dates iff it is neither a null test nor an ordered comparison |
| `FilterDates.ReaderLeafAgreesExactly` | src/qdrant.rs:2124-2132 | both hold for the code's reader whatever the date |
| `FilterDates.PortableMeaning` | src/search_join.rs:276-334 | a filter without such leaves means the same in both places on every document |
| `FilterValidate.ValidatedFiltersConvert` | src/encoder.rs:2145-2253 | all validated parsed filters translate iff no key is declared as a date while its last declaration is a number |
| `FilterValidate.UniqueIsUnconflicted` | src/encoder.rs:2240-2253 | with unique index keys there is no such key |
| `FilterValidate.ValidNodeConverts` | src/qdrant.rs:2214-2329 | by induction over the tree: a validated filter in normal form translates without error |
| `GroupExclusion.ExcludeExact` | src/search_group.rs:82-122 | one exclusion translates, and admits exactly what the existing filter admits less the full groups |
| `GroupExclusion.ExclusionExact` | src/qdrant.rs:1517-1534 | after any number of rounds the filter admits precisely what the original admits of groups never full, with the field present if the null group was full |
| `GroupExclusion.ValueExactlyExcluded` | src/search_group.rs:88-99 | excluding one value is exact on all documents iff the value is a string, a boolean or a 64-bit integer |
| `RankFusion.RrfFuse` | src/functions.rs:28-65 | the result is the best part of the complete ranking: all eligible ids, each with the sum of weight / (k + rank), by score, raw sum and id |
| `RankFusion.RankingUnique` | src/functions.rs:56-63 | that ranking is unique, so the order in which the maps are walked does not matter |
| `ArmPool.Pool.Merge` | src/qdrant.rs:2082-2104 | every arm is extended by its unseen ids in order, with their scores; no id occurs twice in an arm |
| `ArmPool.MergeNeverLowers` | src/qdrant.rs:1492-1498 | with weights that are not negative a round lowers no score |
| `ArmPool.StaysEligible` | src/qdrant.rs:1492-1508 | then, and without a threshold in any case, a round costs no candidate its eligibility |
| `GroupCap.KeptCount` | src/search_group.rs:55-68 | each group is kept up to the cap or its size, whichever is smaller |
| `GroupCap.KeptTotal` | src/search_group.rs:55-68 | the number kept is the sum over the groups of the smaller of cap and size |
| `GroupCap.ApplyGroupCap` | src/search_group.rs:46-78 | the selection is the beginning of the kept list, of size min(limit, that sum); exactly the groups at the cap are reported full |
| `CapGrowth.CapTotalRises` | src/search_group.rs:46-78 | the capped total depends only on which ids are there and grows with them |
| `GroupedSearch.NothingCut` | src/qdrant.rs:1504-1507 | truncating to the number of known documents cuts nothing |
| `GroupedSearch.Search` | src/qdrant.rs:1448-1538 | every round builds on the one before with the filter its full groups call for, and ranks by fused score, sum of raw scores and id; the search ends at the first round that stops it, or at an error or an empty answer |
| `GroupedSearch.SearchNeverShrinks` | src/qdrant.rs:1472-1515 | without a threshold, or with weights that are not negative, no later round selects fewer results than an earlier one |
| `GroupedSearch.SelectionBounds` | src/search_group.rs:46-78 | a selection has min(limit, capped total) results and no group above the cap |
| `GroupedSearch.RefetchExact` | src/qdrant.rs:1517-1534 | the filter of each round admits exactly what the query admits and no earlier round found full |

## Left out

- HTTP handlers, authentication, start-up, export and facets: plumbing and one-branch facts.
- The transport to Qdrant and RabbitMQ and the Python peers: the store, the queue and the lock service are abstract steps; in cluster mode only the lock client is modelled.
- Emptying and deleting collections and clearing their queue rows: they take no document locks, and the run properties do not cover them.
- Chunk tasks that panic: they are only logged, and the job may still report success (`src/encoder.rs:825-827`).
- Validation, vectorization and configuration errors of a write task are one event, `Abort`; their texts are not modelled.
- Queue status, retry counts and back-off times (`src/queue_poller.rs:34-110`): a row that failed simply stays in the queue.
- Vectors, models, tokenizers and templates: a document is a timestamp and a body, and whether it needs new vectors is a parameter.
- The lexer of the filter language and the other date formats: the model starts from parse trees and a parameter that reads dates.
- Requests to remove queue rows that take effect after they failed: `WriteLate` covers writes and removals of documents.
- Arrays and objects in metadata: values are scalars, as the index types are.
- Linear score fusion, raw scores in results and building of result documents: grouped search is modelled with rank fusion.
- Floating-point rounding and collisions of hashed or joined names: reals, and injective names.
- What an earlier process with the same host name stored in the metrics collection: a run starts from an empty one.
- QueueProcess.ProcessBatch: covers a batch for which every database request succeeds and nothing else runs; failures and interleavings are covered by the step system.
- GroupedSearch.SearchNeverShrinks: needs documents whose group value does not change during the search.
- WriteSafety.NoResurrection: is about runs in which a failed request takes no effect after its task has returned; `WriteLate` has the others.
- WriteSafety.LastWriterWins: the same.
