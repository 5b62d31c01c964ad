# Verification of the durable-workflow engine

A Dafny model of a durable-workflow engine and proofs about it. Workflows are rows of a system database.
Executors claim rows, run the workflow body, record each step of it, and pick up where they stopped after a
crash. Workflows exchange messages, publish events and streams, spawn children, are queued, delayed, scheduled,
exported and imported.

`dafny verify dfyconfig.toml` checks the whole project.

## How the model is laid out

* **Entities**: `Types` (rows, steps, messages, events, streams), `Sequences` (order-preserving filters, the
  stable sort).
* **Store**: `StoreSpec` gives every atomic call of the in-memory database as a function of its contents;
  `MemoryStore` is the object whose methods update maps and vectors in place and are proved to do exactly that.
  `StateKeys` and `PostgresStore` are the flat table with string keys, whose statements may fail before or after
  they take effect.
* **Execution protocol**: `Execution` is a transition system. Any number of executor tasks, cancels, exact
  re-inserts, one delayed-queue supervisor, crashes and recovery passes share one row table; each store call is
  one step, and between two calls of a task anything may happen. A write is attempted up to twice: an acknowledged
  attempt is applied once and is over, an attempt whose acknowledgement is lost may commit at any later time or
  never, also after an error was reported for it; a guarded SQL update may likewise commit unacknowledged. `ExecutionSafety` proves its invariant ("once granted, a row is owned or terminal") and
  the theorems that follow. `ExecutionDiscipline` proves exactly which steps endanger exclusive execution,
  `ExecutionFinality` exactly when a terminal status is final; `ExecutionRuns` has the runs they are built from.
  `Context` has the calls themselves, statement by statement, running undisturbed, and `ContextProtocol` shows that
  each such call is a run of the protocol. `RowChanges` says, column by column, what these calls may do to a row.
* **Data hanging off a workflow**: `Replay` (recorded steps), `Messages`, `Streams`, `Serialization` and `Base64`,
  `Deduplication`, and `Transfer`, `Import`, `RoundTrip`, `RefusedImport` (export and import of a workflow tree).
* **Scheduling, listing, arithmetic**: `Cron`, `Schedules`, `Reconciler`, `ScheduledRuns`, `Listing`, `Grouping`, `Aggregates`,
  `Retry`, `Telemetry`.

Libraries outside the engine are parameters with the laws they are assumed to obey: JSON text, the custom
serializer, the cron parser (the next occurrence after an instant), time formatting, the clock, fresh execution
ids, hash-map iteration order (any order).

## What turned out differently

Some properties one would expect do not hold of the code in general. For each there is a case where it fails and
the exact condition under which it holds.

* *A terminal status never changes* holds, over all interleavings, if and only if no task is about to save the
  workflow with another status, none will run or runs its body while it is not cancelled, no write whose fate is
  unknown and no cancel under way says otherwise, and no promotion of it is pending (`TerminalIsFinalIff`). For the
  result that a task of a disciplined run records, the other tasks drop out of the condition (`ResultIsFinalIff`),
  and what an undisturbed execution records is final (`UndisturbedResultIsFinal`). A stale save after a cancel fails
  it (`StaleSaveRevivesCancelled`), and so does a save as pending whose first attempt commits after the result was
  recorded (`LateSaveRevivesFinished`). With each read-compute-write as one step it always holds
  (`TerminalStaysTerminal`).
* *Exclusive execution* stays safe across a step if and only if the step is disciplined (`DisciplineIsExact`): a
  recovery pass must not restart a workflow that a live task works on, and a promotion may be left without an
  acknowledgement only if the row has an owner. Launching starts the queue supervisor before recovery, so the
  first can fail (`RecoveryWhileLiveBreaksExclusion`).
* *A recorded step keeps its answer* stays true across a step of an execution if and only if a step is run again
  only when no record of it with another answer may still commit (`RerunIsSafeIff`); a record whose acknowledgement
  was lost before a crash can otherwise replace the answer that a later execution has used
  (`LateRecordChangesAnswer`). Where a record is acknowledged or fails cleanly, as in memory, every run qualifies
  (`AcknowledgedRunsAreDisciplined`).
* *A recorded step replays its first answer* holds exactly for steps that succeeded: a failure replays as null
  (`ReplayGivesFirstAnswerIff`).
* *An exported tree can be imported into an empty store* holds exactly when no row asks for a deduplication slot
  that an unfinished row inserted before it holds. That no two unfinished workflows share a slot is not enough
  (`ImportRestoresTheExport`, `ReachableTreeIsRefused`).
* *The flat table keeps the events of different workflows apart* holds for a set of workflow ids if and only if no
  id of the set continues another with a colon (`EventStoresAgreeIff`); event keys and stream keys of two ids can
  clash exactly then (`EventKeysCollideIff`, `StreamKeysCollideIff`).
* *A schedule fires for its occurrences* holds from its first firing on. A schedule that never fired looks back
  only one second, so it stays silent exactly as long as no pass comes within a second after an occurrence
  (`FreshScheduleSilentIff`), and with the default polling interval that can be forever (`FreshScheduleCanStarve`).
* *Retry delays never decrease* holds up to retry number 2^31, where the exponent wraps to a negative number; over
  all retry numbers it holds exactly under a condition on the options (`DelaysNeverDecreaseIff`).
* *A custom serializer that can read its own output gives every value back* holds if and only if its name is not
  one of the reserved ones (`ValuesComeBackIffNameIsFree`); under each of those a serializer that loses a value is
  given (`ReservedNameLosesValue`).

## Model

Rows that begin with "supporting" state facts that the main results lean on or that follow directly from one body.

| member | source | states |
|---|---|---|
| ExecutionSafety.ExclusiveExecution | src/context.rs:1859-1998 | in every reachable state of every run, with stale and late writes, lost acknowledgements, crashes, and recovery that restarts nothing a live task works on, at most one live task per workflow is past the claim, and the row of such a task is terminal or owned by its executor |
| ExecutionSafety.BodyEnteredAtMostOnce | src/context.rs:1859-1998 | in disciplined runs without recovery passes the body of a workflow is entered at most once, whatever interleaves |
| ExecutionSafety.BodyEntriesBounded | src/context.rs:1859-1998 | with recovery, at most once plus once for each recovery by the owner |
| ExecutionSafety.OneExecutionIsTold | src/store.rs:855-895 | at most one execution id is ever told that its claim succeeded, also when guarded updates commit without acknowledgement |
| ExecutionSafety.RecoveryStartsTheUnfinished | src/context.rs:2024-2043 | a recovery pass starts exactly one task for each pending unclaimed row and each pending or enqueued row claimed by a listed executor, and no other |
| ExecutionSafety.StepKeepsInv | src/context.rs:1859-1998 | every step of the protocol keeps "granted implies owned or terminal" together with the counts of entries and grants and the writes that may still come |
| ExecutionRuns.ExecuteAlone | src/context.rs:1859-1998 | one undisturbed task takes a claimable row through claim, run and completion, enters the body once, ends, touches no other row and leaves no write outstanding |
| ExecutionDiscipline.DisciplineIsExact | src/context.rs:2024-2043 | in every state with the invariant, a step leaves exclusive execution safe in all disciplined continuations if and only if it is disciplined: a recovery pass exactly when no live task works on a workflow it restarts, a promotion left without an acknowledgement exactly when the row has an owner, any other step always |
| ExecutionDiscipline.ReachedStepIsSafeIff | src/context.rs:2024-2075 | the same for every state that a disciplined run reaches |
| ExecutionDiscipline.RecoveryWhileLiveBreaksExclusion | src/context.rs:498-511 | instance: a recovery pass taken while the executor works on the workflow puts two live tasks past its claim |
| ExecutionFinality.TerminalIsFinalIff | src/context.rs:1898-1992 | a terminal status is unchanged after every run from a state if and only if no task, write whose fate is unknown, cancel under way or pending promotion of that state can give the workflow another one |
| ExecutionFinality.ReachedTerminalIsFinalIff | src/context.rs:1898-1992 | the same for every state that any run reaches |
| ExecutionFinality.ResultIsFinalIff | src/context.rs:1951-1998 | in every state with the invariant, the result that a task is about to record is final once acknowledged if and only if no write of the workflow whose fate is unknown and no cancel under way says otherwise and no promotion of it is pending |
| ExecutionFinality.ReachedResultIsFinalIff | src/context.rs:1951-1998 | the same for every state that a disciplined run reaches |
| ExecutionFinality.UndisturbedResultIsFinal | src/context.rs:1859-1998 | a task that runs undisturbed while no other is past the claim of its workflow, and no write of it is outstanding, under way or planned, records a status that no run changes |
| ExecutionFinality.FirstResultIsFinal | src/context.rs:1859-1998 | instance: a workflow inserted into the empty system and executed once has a final status |
| ExecutionFinality.LateSaveRevivesFinished | src/store.rs:648-671 | instance: the first attempt of the save as pending commits after the result was acknowledged and turns the finished workflow back into Pending |
| ExecutionFinality.StaleSaveRevivesCancelled | src/context.rs:1898-1934 | instance: a task that read the row before a cancel turns Cancelled back into Pending |
| Context.DbosContext.ExecuteWorkflow | src/context.rs:1859-1998 | for each branch (missing, not runnable, unresolved name, unreadable input, unencodable output, finished) the answer, the columns of the row and whether the body ran: a row that stores `v` has the body entered with `v`; its result reads back from the finished row, a failure leaves its message, one attempt more is counted, and name, input, queue and parent stay |
| Context.ExecutionRunsOnItsInput | src/context.rs:1944-1992 | under the serializer law, the execution of a row that stores `v` enters the body with `v` and records what the body gives |
| Context.DbosContext.CancelWorkflow | src/context.rs:764-774 | a cancel rewrites exactly an unfinished row, in status, completion and update time only, and fails only for a missing one |
| Context.DbosContext.RecoverPendingWorkflows | src/context.rs:2024-2043 | one task for each pending unclaimed row and each pending or enqueued row claimed by a listed executor, none else: the tasks that the protocol's recovery step adds |
| Context.DbosContext.PromoteDelayed | src/context.rs:2060-2075 | exactly the delayed rows whose time has come become enqueued, all of them; of such a row the status and update time change and the columns that the listing did not load are cleared; no other row changes |
| Context.DbosContext.DispatchQueue | src/context.rs:2083-2105 | a pass spawns the oldest enqueued workflows of the queue, oldest first, as many as permitted; one is left behind only when the limit is reached and none spawned is younger |
| Context.DbosContext.TransitionAndRunQueuedWorkflows | src/context.rs:2060-2107 | a whole pass promotes exactly the due rows and then spawns, of each queue that is listened to, the oldest enqueued workflows up to its limit, those just promoted included, and of any other queue none |
| Context.DueIsSpawned | src/context.rs:2060-2107 | supporting: a due workflow of a queue that is listened to is spawned by the pass that finds it due, unless the limit is used up by workflows that are no younger |
| StoreSpec.DispatchedAreTheOldest | src/context.rs:2083-2092 | the page of the dispatch listing holds the oldest enqueued rows of the queue, for every iteration order of the table |
| Context.DbosContext.WriteStream | src/context.rs:1649-1665 | appends one entry whose offset is the number of entries read before, or fails without a trace when the offset exceeds 64 bits or the value cannot be encoded |
| Context.DbosContext.ReadStreamWithOptions | src/context.rs:1690-1706 | gives the decoded values from the offset on or the first decoding error, and whether a closed marker is among all entries |
| ContextProtocol.ExecutionFollowsTheProtocol | src/context.rs:1859-1998 | in every branch, claiming or resuming, refused, with unresolved name, unreadable input or unwritable output, the undisturbed call is a run of its task in the protocol: same rows, the body entered as often, the task ended, nothing else moved |
| ContextProtocol.CancelFollowsTheProtocol | src/context.rs:764-774 | the undisturbed cancel is a run of the protocol |
| ContextProtocol.PromotionFollowsTheProtocol | src/context.rs:2060-2075 | the undisturbed promotion pass is a run of the protocol: the listing, then one promotion for each due row |
| StoreSpec.ClaimExcludesLaterClaims | src/store.rs:195-211 | supporting: a granted claim makes the row owned, changes no other row, excludes every claim under another execution id and can be repeated under its own |
| StoreSpec.RepeatedInsertIsIdempotent | src/store.rs:172-193 | supporting: a repeated insert never changes a row and succeeds exactly when name and input agree |
| StoreSpec.DeleteIsExact | src/store.rs:230-241 | deleting removes the row, steps, events, streams and messages of exactly the given workflows |
| StoreSpec.ListedRows | src/store.rs:222-228 | supporting: an unpaged listing shows exactly the matching rows of the table, once each |
| StoreSpec.ListingIsPageOfMatches | src/store.rs:430-554 | for every iteration order, a listing is a page of the rows that pass the filter on every column, once each, by creation time, with input and result only if asked for |
| StoreSpec.FilterShowsItsColumn | src/store.rs:430-517 | with one filter set, a row is listed exactly when its own column has one of the values, the prefix or the time asked for; a missing column passes no filter that is set |
| StoreSpec.JoinedFiltersShowBoth | src/store.rs:430-517 | filters of two option sets on different columns, taken together, list exactly the rows that both list alone |
| StoreSpec.ListedMessages | src/store.rs:312-323 | a listing of messages holds those addressed to the workflow, as often as sent, by creation time |
| StoreSpec.ListedStreamsAscend | src/store.rs:351-364 | a listing of streams goes by key and then by offset |
| MemoryStore.MemoryStore.InsertWorkflowWithResult | src/store.rs:172-193 | known ids are compared by name and input, not overwritten; a new id is refused exactly when an unfinished workflow holds the same queue and deduplication id, and added otherwise |
| MemoryStore.MemoryStore.ClaimWorkflowExecution | src/store.rs:195-211 | true exactly for a row that carries the execution id or is unowned and pending or enqueued; only a new claim changes anything, namely status, executor, execution id and update time of its row |
| MemoryStore.MemoryStore.ListWorkflows | src/store.rs:222-228 | filter, in-place sort and page, then blanking of the columns not asked for: a page of the rows that pass the filter on every column |
| MemoryStore.MemoryStore.DeleteWorkflows | src/store.rs:230-241 | the row-by-row deletion and the filters over the other collections |
| MemoryStore.MemoryStore.ListSteps | src/store.rs:252-256 | all steps of the workflow, once each, by ascending id |
| MemoryStore.MemoryStore.RecvMessage | src/store.rs:299-310 | marks the first deliverable message consumed and hands it out |
| MemoryStore.MemoryStore.ListStreams | src/store.rs:351-364 | the entries of all streams of the workflow, ordered by key and offset |
| StateKeys.StepKeyInjective | src/store.rs:1542-1545 | step keys never collide, for any workflow ids |
| StateKeys.EventKeysCollideIff | src/store.rs:1547-1550 | event keys of two workflows can collide exactly when one id continues the other with a colon |
| StateKeys.StreamKeysCollideIff | src/store.rs:1552-1555 | stream keys of two workflows can collide exactly when one id continues the other with a colon |
| StateKeys.UnambiguousKeys | src/store.rs:1547-1555 | among workflow ids none of which continues another with a colon, event keys and stream keys are injective |
| StateKeys.StreamKeyInjective | src/store.rs:1552-1555 | supporting: stream keys of colon-free workflow ids are injective |
| PostgresStore.PostgresStore.Put | src/store.rs:648-671 | an acknowledged put is applied; a failed one is applied or not, and nothing else changes |
| PostgresStore.PostgresStore.ClaimWorkflowExecution | src/store.rs:855-895 | two guarded update attempts and the resolving read: what the table becomes and when the answer is true, for every fate of both attempts; at most status, executor, execution id and update time of one unowned row change |
| PostgresStore.PostgresStore.ListSteps | src/store.rs:945-950 | scanning the flat table answers as the table specification says |
| PostgresStore.PostgresStore.DeleteWorkflows | src/store.rs:917-935 | the kind-by-kind deletion removes exactly the rows owned by the given workflows |
| PostgresStore.TableRefinesStepMap | src/store.rs:937-950 | every run of record, get and list step calls is possible on the flat table exactly when it is on the typed map, for all workflow ids |
| PostgresStore.TableRefinesEventMap | src/store.rs:1022-1039 | the same for events of any set of workflow ids none of which continues another with a colon |
| PostgresStore.EventStoresAgreeIff | src/store.rs:1022-1039 | all runs of event calls over a set of workflow ids agree on table and typed map if and only if no id of the set continues another with a colon |
| PostgresStore.CollidingEventIsLost | src/store.rs:1547-1550 | supporting: with colliding keys the second event replaces the first in the table but not in the typed map |
| PostgresStore.DeletionIsExact | src/store.rs:917-935 | supporting: a row survives a deletion exactly when its workflow is not among the given ones |
| PostgresStore.UnfailingClaimAnswersAlike | src/store.rs:855-895 | supporting: without failures the SQL claim answers as the in-memory claim |
| PostgresStore.UnfailingClaimActsAlikeIff | src/store.rs:855-895 | supporting: and leaves the same rows exactly when the row is not an unowned claimable one that already carries this execution id |
| Replay.WorkflowRun.RunAsStep | src/context.rs:1131-1235 | a call takes the next step id and replays a recorded step under the same name without running the operation; a new step leaves one entry with its name and times, the message of a failed operation and no output, or the value of one that succeeded in its format; a failing read runs nothing, a failing record, applied or not, hides the answer |
| Replay.CallHandlesItsStep | src/context.rs:1131-1235 | the same for the call as a function, under any fault |
| Replay.ReplayGivesFirstAnswerIff | src/context.rs:1166-1178 | the second call never runs the operation and gives the first answer exactly when that was a success |
| Replay.CrashesAreInvisible | src/context.rs:1131-1209 | over any number of executions and crashes, also with records that commit late, in disciplined runs: recorded ids are exactly 1..k and answer as logged, no unexpected step, the returned values are the program's, a record is acknowledged at most once, and an operation runs once per acknowledgement plus once per crash before it |
| Replay.AcknowledgedRunsAreDisciplined | src/store.rs:243-250 | without lost acknowledgements of records, as in the in-memory store, every run is disciplined |
| Replay.RerunIsSafeIff | src/context.rs:1166-1209 | in every state with the invariant, recorded steps keep their answers in all disciplined continuations of a step if and only if it does not run again a step of which a record with another answer may still commit |
| Replay.ReachedRerunIsSafeIff | src/context.rs:1166-1209 | the same for every state that a disciplined run reaches |
| Replay.LateRecordChangesAnswer | src/store.rs:937-939 | instance: a record lost before a crash commits after the step was run again and changes its recorded answer |
| Replay.CallFollowsTheRun | src/context.rs:1131-1209 | an undisturbed step call changes the recorded steps, answers and counts as the run's own steps in a row do |
| Replay.ExecutionsAgree | src/context.rs:1131-1209 | in disciplined runs all executions that finish return the same value |
| Replay.RecordedIsFinal | src/store.rs:243-256 | supporting: a recorded step keeps its answer and its operation never runs again; only a late record, or the acknowledgement after one, rewrites the entry |
| Messages.MessagesConserved | src/store.rs:294-310 | for every interleaving, the messages sent on a channel are those delivered, in order, followed by those waiting |
| Messages.FifoFromEmpty | src/store.rs:294-310 | deliveries are a prefix of sends, and a receive comes back empty exactly when everything sent was delivered |
| Messages.RecvTakesTheFirstWaiting | src/store.rs:299-310 | supporting: a receive removes the head of its channel's waiting messages and leaves all other channels alone |
| Streams.ReaderForwardsAPrefix | src/context.rs:1717-1739 | for every interleaving of one writer and the polling reader: offsets are positions, the reader has forwarded a prefix of the written values, nothing fails to decode, and the closed marker comes after every value unless something was written after the close |
| Streams.PollFindsEverything | src/context.rs:1717-1739 | supporting: a poll of an idle reader finds all values not yet forwarded |
| Streams.ReadFromOffset | src/context.rs:1694-1705 | reading from an offset shows the values from that entry on |
| Base64.DecodeEncode | src/serialization.rs:40-66 | decoding inverts encoding, as section 4 of RFC 4648 requires |
| Base64.EncodeUsesAlphabet | src/serialization.rs:40-66 | an encoding uses only the alphabet and the padding character |
| Base64.EncodingByGroups | src/serialization.rs:40-66 | each group of three bytes is four characters chosen by six bits each, a shorter last group padded, as section 4 of RFC 4648 lays out |
| Base64.AlphabetInOrder | src/serialization.rs:40-66 | supporting: the alphabet of section 4 of RFC 4648 |
| Serialization.NilMarkerIsNobodyElse | src/serialization.rs:40-53 | the nil marker is the encoding of null and of no other value |
| Serialization.StoredRoundTrip | src/context.rs:648-683 | in each mode, decoding the stored form of a value gives the value back |
| Serialization.EncodingsNameTheirFormat | src/serialization.rs:40-113 | supporting: portable values are JSON text, others the custom serializer's or base64 with a marker for null, each under the name of its format |
| Serialization.ValuesComeBackIffNameIsFree | src/serialization.rs:102-113 | every serializer of a name that tags its output and inverts it gives every encodable value back through storage if and only if the name is not reserved |
| Serialization.ReservedNameLosesValue | src/serialization.rs:102-113 | for each reserved name there is a serializer that inverts its output and loses a value |
| Serialization.ReservedNamesBypassTheSerializer | src/serialization.rs:102-113 | supporting: under a reserved name decoding does not consult the custom serializer |
| Deduplication.SlotsStayUnique | src/store.rs:172-193 | over every sequence of inserts, claims, starts, completions, cancels and promotions, no two unfinished workflows share a queue and deduplication id |
| Deduplication.TerminalStaysTerminal | src/types.rs:22-24 | with each read-compute-write as one step, a finished workflow stays finished and a cancelled one never changes |
| Deduplication.FinishedHolderFreesTheSlot | src/store.rs:178-190 | supporting: an insert gets a slot exactly when its holder has finished |
| Transfer.ExportWorkflow | src/context.rs:919-947 | the recursion ends on every acyclic store and yields an export of the workflow, or the missing-workflow error |
| Transfer.ChildHasFewerDescendants | src/context.rs:929-943 | the measure by which the export recursion ends |
| Transfer.ExportHoldsTheDescendants | src/context.rs:929-943 | a deep export holds exactly the workflow and its descendants |
| Transfer.ExportHasDistinctIds | src/context.rs:929-943 | no workflow occurs twice in an export |
| Transfer.CycleHasNoExport | src/context.rs:929-943 | a workflow that is its own ancestor has no finite export |
| Import.ImportWorkflow | src/context.rs:953-1006 | the import loops leave the store that the import function describes, also when a foreign entry or a refused row stops them halfway |
| Import.ImportRefusesToOverwrite | src/context.rs:956-964 | supporting: when the root exists nothing changes |
| RoundTrip.ImportRestoresTheExport | src/context.rs:919-1006 | importing an export into a store without its workflows succeeds exactly when no row asks for a slot held by an unfinished row there or before it; then every workflow of the tree is as in the source (row, steps, events, messages, streams) and every other as before |
| RoundTrip.ListedStream | src/store.rs:351-364 | the stream listing cut back to one key is that stream |
| RefusedImport.SlotHeldEarlierIsRefused | src/context.rs:953-1006 | a tree is refused by the empty store whenever an unfinished descendant of an older child holds the slot of a younger child |
| RefusedImport.ReachableTreeIsRefused | src/store.rs:172-193 | the engine's own calls can reach such a store |
| Cron.OccurrencesAreExact | src/context.rs:1799-1802 | the instants visited are exactly the occurrences of the half-open interval, in order |
| Cron.OccurrencesCompose | src/context.rs:1799-1802 | adjacent intervals compose |
| Schedules.BackfillSchedule | src/context.rs:1789-1804 | the loop enqueues the occurrences of the interval one after the other, or stops at the first failure; every row it adds is an enqueued, unowned workflow of an occurrence on the schedule's queue whose input reads back as the instant and the context; a success leaves one for each occurrence; unknown schedules and unreadable expressions change nothing |
| Schedules.EnqueueAllIsExact | src/context.rs:2148-2170 | enqueueing succeeds exactly when every instant is new or was enqueued with the same name and input, leaves one row per instant under the returned id, adds only fresh workflows of its instants on the schedule's queue, and never alters an existing row |
| Schedules.BackfillAddsOccurrences | src/context.rs:1789-1804 | success or not, a backfill adds only workflows of occurrences in its interval, and no row changes |
| Schedules.BackfillsCompose | src/context.rs:1789-1804 | backfills over adjacent intervals are one backfill over their union, rows and ids |
| Schedules.OverlappingBackfills | src/context.rs:1789-1804 | a second backfill over any interval succeeds exactly when it would have before, changes no row, and both leave one row per occurrence |
| Schedules.RepeatedBackfillChangesNothing | src/context.rs:1789-1804 | repeating a backfill over any part of its interval succeeds and changes nothing |
| Reconciler.ScheduleTable.ReconcileSchedules | src/context.rs:2124-2146 | the pass over the active schedules, in some order, leaves the table and rows that the reconcile function describes, and adds only workflows of this instant of active schedules whose time has come |
| Reconciler.PassIsATick | src/context.rs:2124-2146 | a pass changes of a schedule only its time of last firing, and exactly when the schedule fires; then its workflow exists; a pass without an error reaches every active schedule |
| Reconciler.PassesAreTicks | src/context.rs:2109-2146 | a run of passes, with pauses, resumptions and any changes to other schedules between them, is a run of ticks of the schedule: same last firing, and a workflow for every firing |
| Reconciler.PassRunFirings | src/context.rs:2109-2146 | over a run of passes each firing has an occurrence of its own since the previous firing, and its workflow exists |
| Reconciler.OccurrenceIsServed | src/context.rs:2109-2146 | over a run of passes, when an error-free pass at or after an occurrence later than the last firing finds the schedule active, that pass or an earlier one has fired at or after the occurrence |
| Reconciler.FiringsHaveOccurrences | src/context.rs:2136-2143 | each firing has an occurrence of its own since the previous firing, whatever the clock does |
| Reconciler.FiringsNeverExceedOccurrences | src/context.rs:2136-2143 | firings never outnumber occurrences |
| Reconciler.OccurrenceIsCaught | src/context.rs:2136-2143 | after the first firing, when a pass at or after a later occurrence has reached the schedule, that pass or an earlier one has fired at or after the occurrence |
| Reconciler.FreshScheduleSilentIff | src/context.rs:2136-2137 | a schedule that never fired stays silent exactly as long as no reached pass comes within one second after an occurrence |
| Reconciler.FreshScheduleCanStarve | src/context.rs:2109-2122 | with the default polling interval a half-minutely schedule may never fire |
| ScheduledRuns.BackfilledIsSpawned | src/context.rs:2079-2105 | a workflow that a backfill added is spawned by the next pass over the schedule's queue, unless the limit is used up by workflows that are no younger |
| ScheduledRuns.FiredIsSpawned | src/context.rs:2079-2105 | the same for what a reconciler pass fires |
| ScheduledRuns.ScheduledRunsOnItsInstant | src/context.rs:1944-1992 | its execution enters the body with the instant and the schedule's context and records what the body gives |
| Listing.WorkflowRows.SortAndPage | src/store.rs:538-554 | the vector becomes the page of its stable sort |
| Listing.ListingIsStableSortOfMatches | src/store.rs:430-554 | a listing holds exactly the rows that pass the filter on every column, sorted by creation time, ties in store order |
| Listing.PagesMakeTheWholeListing | src/store.rs:538-554 | consecutive pages of any positive size make up the whole listing |
| Listing.DispatchTakesTheOldest | src/context.rs:2083-2092 | a supervisor pass picks the oldest min(limit, n) enqueued rows of a queue, and none left behind is older |
| Grouping.Groups.Record | src/context.rs:1059-1060 | adding a sample keeps every group's count and maximum right |
| Grouping.CountsAddUp | src/context.rs:1033-1064 | the counts of a grouping add up to the number of samples |
| Aggregates.BucketStartBounds | src/context.rs:2497-2511 | a bucket starts at a multiple of the size, at or before the instant and less than one size away, negative instants included, and fits 64 bits |
| Aggregates.SameBucketIff | src/context.rs:2497-2511 | supporting: two instants share a bucket value exactly when no multiple of the size separates them |
| Aggregates.WorkflowCountsByStatus | src/store.rs:1579-1593 | one row per status that occurs, under its debug name, with exact counts that add up, in key order |
| Aggregates.StepCountsByName | src/store.rs:1595-1611 | the same by step name, with the largest time from start to end attained and dominating |
| Aggregates.GetWorkflowAggregatesWithInput | src/context.rs:1013-1065 | the listed workflows grouped by the columns asked for, each labelled with its own column values; fails exactly when there is a row to bucket and the bucket size is no positive number of milliseconds within 64 bits |
| Aggregates.GetStepAggregatesWithInput | src/context.rs:1072-1128 | the kept steps of the listed workflows grouped by the columns asked for, each labelled with its own column values, with counts and maxima of the time from start to end |
| Aggregates.StepFiltersKeep | src/context.rs:1089-1106 | each filter of a step query looks at one column, and together they keep what each keeps |
| Aggregates.RecordedStepCountsAs | src/context.rs:1089-1120 | supporting: a recorded step is counted as an error exactly when its operation failed, under the name it was called by, with its duration |
| Retry.RetryStepOperation | src/context.rs:1343-1363 | the operation is called exactly until the first success, the first refused error or the last permitted call, sleeping before each retry: first the base interval, then the factor times the previous delay, capped, up to retry number 2^31 |
| Retry.NextDelay | src/context.rs:2472-2495 | the next delay is the factor times the previous one, capped |
| Retry.LoopEndsOnce | src/context.rs:1343-1363 | supporting: the ending call is determined, and it is a success exactly when some permitted call succeeds before a refused error |
| Retry.DelaysNeverDecrease | src/context.rs:2472-2495 | with a factor of at least one, delays never decrease up to retry number 2^31 |
| Retry.DelaysNeverDecreaseIff | src/context.rs:2472-2495 | over all 32-bit retry numbers they never decrease exactly when the factor is one or the base stays at the maximum even under the most negative exponent |
| Retry.DefaultDelayDrops | src/context.rs:280-292 | with the default intervals and factor they do decrease |
| Retry.TotalSleepIsBounded | src/context.rs:1343-1363 | total sleep is at most the permitted retries times the effective maximum interval |
| Telemetry.CounterIndicesNeverCollide | src/observability.rs:195-205 | counter cells are distinct and within bounds |
| Telemetry.DbosOperationGuard.Finish | src/observability.rs:499-529 | the first finish counts once in counter, series and gauge; later ones change nothing |
| Telemetry.DbosOperationGuard.Drop | src/observability.rs:531-535 | dropping an unfinished guard finishes it as dropped |
| Telemetry.DbosMetrics.OperationsFinishedSum | src/observability.rs:275-281 | the nested iteration adds up all cells of finished operations |
| Telemetry.Perform | src/observability.rs:357-382 | each call on the metrics and guard objects is one step of the run that the theorems below are about |
| Telemetry.PerformAll | src/observability.rs:499-535 | hence the objects end as the run does, whatever calls are made |
| Telemetry.StartedMinusFinishedIsActive | src/observability.rs:257-291 | over every run of starts, finishes and drops, started minus finished is the active gauge is the number of unfinished guards, per operation and in total, with one duration sample per finish |
| Telemetry.FirstFinishWins | src/observability.rs:499-506 | the outcome of the first finish is the one that counts |
| Telemetry.AllDroppedMeansBalanced | src/observability.rs:531-535 | once every guard is finished nothing is active and starts equal finishes |

## Left out

- The admin HTTP server, the Conductor connection, the client, the debouncer, tracing spans and Prometheus text: input and output only.
- Turso and the connection code of Postgres: the same statements over another driver. Of each Postgres write only its fate is kept: applied and acknowledged, applied without acknowledgement, not applied. Reads and deletes do not fail in the model.
- Message receive and queue deduplication in the SQL stores: receive lists and then puts, and inserts do not check deduplication ids, so the in-memory theorems do not apply to them.
- Resuming a workflow, changing its delay, and several supervisors promoting the same row do not occur in the runs of `Execution`: those writes clear or ignore the claim.
- Nested and spawned steps, explicit step ids, and step ids beyond the largest signed 32-bit number.
- Concurrent writers of one stream: the reader theorem has one writer, as the offset is computed before the append.
- Workflow columns that no modelled call reads or writes: class and configuration name, priority, timeout, deadline, partition key, roles. Queue concurrency and rate limits, which the dispatcher does not look at.
- Registration, application versions, patches, and the time zone and automatic-backfill fields of a schedule: only stored.
- Pausing, resuming or re-creating a schedule while a pass sleeps before its write: a pass and such a call are each one step here, so the run theorems do not cover a pause that the pass overwrites.
- Time below one millisecond, and counters of 64-bit width that could overflow.
- Context.DbosContext.ExecuteWorkflow: store calls do not fail and the body leaves the row table alone; failing and interleaved calls are steps of `Execution`. Clock readings that follow each other directly are one reading.
- PostgresStore.PostgresStore.ClaimWorkflowExecution: the resolving read does not fail and no other writer comes between the attempts; interleaved attempts are steps of `Execution`.
- PostgresStore.PostgresStore.DeleteWorkflows: its reads and deletes do not fail.
- A body that goes on after a failed read or record of a step: in the runs of `Replay` such a failure ends the execution.
- The texts of errors other than a failed operation's message: they are stored, but which text is not modelled.
- Late commits of events, messages and streams: only workflow rows (`Execution`) and step records (`Replay`) have writes whose fate is unknown; the other run theorems take each write as one step.
- Replay.ReplayGivesFirstAnswerIff: values are untyped, so a failed step replays as null; the typed decoding of null can itself be an error when the step's type does not accept null, which is then one more way to differ from the first answer.
- Retry.RetryStepOperation: computes delays over real numbers, so rounding of the floating-point product is not modelled.
- Reconciler.ScheduleTable.ReconcileSchedules: the random delay before enqueueing appears only as the instant at which each workflow is enqueued.
- MemoryStore.MemoryStore.ListWorkflows: hash-map iteration order is any order, so rows created at the same instant may come in any order.
