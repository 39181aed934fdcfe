# Verified model of the transactional command queue and outbox

A Dafny model of `pkg/cqrs`: the SQL command queue with its worker goroutines, the outbox and its worker, the
in-process wake-up signals, the capacity check of the command bus, and the transactional command handler used
behind a message bus. `dafny verify dfyconfig.toml` checks everything.

The model has two layers.

**Protocols.** Where the Go code runs concurrently it is a labelled transition system. A label carries every choice
the environment makes (which row, which statement fails, the clock), so a run is a sequence of labels and every
main result is a statement about all runs.

- `QueueProtocol`: N workers, any number of senders, one row-locked table, the one-slot notifier, stop, crash with
  restart, database errors, and commits and sends whose acknowledgement is lost. `QueueSafety`, `QueueOutcome`, `QueueWakeup`
  and `QueueQuiescence` prove what it keeps.
- `OutboxProtocol`: committing transactions beside one outbox worker that selects, publishes and deletes.
  `OutboxSafety`, `OutboxWakeup` and `OutboxQuiescence` prove what it keeps.
- `Pipeline`: both together; a command's commit and the insertion of its events are one step. `PipelineQuiescence`
  proves that the two run dry together.
- `DeliveryProtocol`: overlapping deliveries of one command to the transactional handler; `DeliveryOverlap` proves
  when they commit its effects more than once.
- `BackpressureProtocol`: k Sends in flight on one bus, the cached count with its TTL, the singleflight COUNT.
  `BackpressureBound` proves the overshoot bound, `BackpressureSharp` that it is attained for every k, every limit
  and every TTL, `BackpressureRate` the rate of COUNT queries.

**Code.** The sequential code is imperative Dafny with the structure of the Go code: `Database` (connections,
notifier, after-commit hooks, transaction manager), `ExecutionStore`, `EventBus`, `CommandQueueWorker`,
`OutboxWorker`, `TransactionalHandler`, `CommandBus`. Each method is proved against a function of the old state, and
what the repository promises is proved about that function: `DrainRounds` (when a drain ends), `DrainFold` (an
error-free drain is a left fold of the handlers), the drain results in `OutboxWorker`, the redelivery results in `TransactionalHandler`.

`EndToEnd` follows the caller's own values through these functions: the command that is sent is the command that
runs, its handler's answer is what is committed, and its events are the messages that go out.

The layers are joined. A round and a drain of the queue worker (`WorkerRefinement`), a round as queue and outbox see it
together (`PipelineRefinement`), a batch and a drain of the outbox worker (`OutboxRefinement`), a Send and a round that
makes room for it (`BackpressureRefinement`), and a delivery (`TransactionalHandler.DeliveryIsRun`) are each shown to be
a run of its protocol that leaves the same tables and history.

`ExecutionTable`, `OutboxTable` and `Types` hold the tables as values; `Counting` holds sums and sizes.

## What the model says that the documentation does not

- A terminal status is not final with several workers. Between a worker's rollback and its `RecordFailure`, another
  worker can run the same command to success; the unconditional UPDATE then turns `success` into `failed` while the
  effects stay (`SuccessCanBeOverwritten`, for every pool of two or more). For every configuration the status of a
  command sent once tells its outcome if and only if there is at most one worker (`StatusTellsIffAlone`), as on SQLite.
- If recording a failure fails, the round reports a processed command and no error. The row is still first in line,
  so the drain loop repeats it at once, without the error backoff (`UnrecordedFailureRepeats`). The rounds of a drain
  are bounded if and only if the loop cannot get to a state in which, from then on, every round may claim a command
  that fails unrecorded (`DrainEndsExactly`); `Drain` has exactly that as its premise. It holds for every database if
  again and again a round comes that can record a failure, runs no failing handler, or is ended by a stop or by an
  error of its BEGIN, its SELECT or its RecordStarted (`OftenIsEnough`).
- A wake-up can be lost after a database error, and after a Send whose INSERT took effect unacknowledged: the command
  then waits for the fallback poll (`ErrorStrandsCommand`, `LostAckStrandsCommand`), which does repair it
  (`PollRepairs`, `PollsRepair`).
- Behind a message bus `RecordFailure` is an UPDATE on a row that only the rolled-back transaction had inserted. The
  handler's failure is answered with nil and is on record exactly when a committed row existed before
  (`FailureOnRecord`).
- The status check of the transactional handler locks nothing. A command's effects commit twice in a run exactly when
  one delivery that commits checks the status between another one's check and its commit (`OnceUnlessOverlapped`);
  they commit at most once in all runs exactly when its deliveries are serialised or it already has a terminal status
  (`OnceIffSerial`).
- `MaxPending` is overshot by at most 3 (k - 1) rows with k concurrent Sends, 2 (k - 1) with the cache disabled, and
  both bounds are reached.
- docs/transactional_cqrs.md writes that the status becomes `started`; the code keeps `pending` until `success`. It
  says at line 164 that an external transaction's wake-up fires upon its commit, and at line 213 (of managers
  without `AfterCommitter`) that a transaction opened outside `WithinTransaction` is notified at once. The code does the latter: it signals before the commit, so
  a record can be left waiting for the next poll (`ExternalTransactionCanStrand`). The document says at line 165 that
  Send refuses when pending commands exceed the limit, and in its parameter table when they reach it; the code
  refuses when they reach it. The model follows the code.

## Model

| member | source | states |
|---|---|---|
| ExecutionTable.NextExists | pkg/cqrs/command_execution_sql.go:192-211 | whenever some pending row is unlocked, the ordered SKIP LOCKED select has a row to return |
| QueueSafety.StepSafe | pkg/cqrs/command_queue_worker.go:224-315 | every step of any worker, sender or crash keeps lock exclusivity, the frozen pending status of held rows, and the commit budget of each command |
| QueueSafety.HeldRowFrozen | pkg/cqrs/command_execution_sql.go:192-211 | while a worker holds a row nothing but its own commit changes it, not another worker's failure record and not a re-send |
| QueueSafety.AtMostOnceCommit | pkg/cqrs/command_queue_worker.go:224-315 | in every reachable state, commits of a command plus one if it is pending never exceed the sends recorded for it, for any number of workers, crashes and lost commit acknowledgements |
| QueueOutcome.StatusStep | pkg/cqrs/command_execution_sql.go:105-131 | the only causes of a status change: a re-send makes it pending, its lock holder's commit turns pending into success, a worker whose own attempt rolled back makes it failed |
| QueueOutcome.StatusIsOutcome | pkg/cqrs/command_queue_worker.go:276-308 | for a command sent once and any number of workers: success means committed exactly once, pending means not at all, failed means not at all unless a success was overwritten |
| QueueOutcome.StatusTellsIffAlone | pkg/cqrs/command_queue_worker.go:276-308 | for every configuration: in all reachable states a command sent once shows success exactly if it committed, if and only if there is at most one worker |
| QueueOutcome.FailedAbsorbs | pkg/cqrs/command_execution_sql.go:119-131 | over every run without a re-send of the command, failed stays failed |
| QueueOutcome.TerminalAbsorbsAlone | pkg/cqrs/command_queue_worker.go:288-308 | with one worker both terminal statuses are final until the command is sent again |
| QueueOutcome.FailingEntry | pkg/cqrs/command_queue_worker.go:268-274 | a worker comes to record a failure for a row only from its own handler error on that row |
| QueueOutcome.FailureHasOwnAttempt | pkg/cqrs/command_queue_worker.go:268-305 | in every run that leaves a worker about to record a failure for a row, an earlier step is the failure of that worker's own attempt on that row, and the worker has had that failure to record ever since |
| QueueOutcome.TerminalChange | pkg/cqrs/command_execution_sql.go:119-131 | over any stretch of any run without a re-send of the command, a change out of a terminal status is from success to failed, made by a worker that records the failure of its own attempt on that command |
| QueueOutcome.SuccessCanBeOverwritten | pkg/cqrs/command_queue_worker.go:288-305 | for every configuration with two workers or more, a run after which a command sent once is failed although its effects are committed |
| QueueWakeup.NoWakeupIsLost | pkg/cqrs/command_queue_worker.go:143-209 | in every reachable state without stop and without an infrastructure error since the last full drain, an unclaimed pending command has a signal set, a sender about to signal, or a worker that will fetch again |
| QueueWakeup.AttendedExactly | pkg/cqrs/command_queue_worker.go:143-209 | for every configuration that holds of all runs if and only if there are workers, wake-ups are enabled and runs with database errors are left out |
| QueueWakeup.FetchEmptyLeavesNothing | pkg/cqrs/command_queue_worker.go:199-201 | at the moment a worker goes to sleep no pending command is unclaimed |
| QueueWakeup.ErrorStrandsCommand | pkg/cqrs/command_queue_worker.go:185-198 | for every pool with wake-ups a run with one database error ends with a pending command, all workers asleep and no signal |
| QueueWakeup.LostAckStrandsCommand | pkg/cqrs/command.go:243-256 | for every configuration a Send whose INSERT took effect unacknowledged leaves its command behind in the same way |
| QueueQuiescence.StepDecreases | pkg/cqrs/command_queue_worker.go:203-207 | every worker step lowers a whole-system measure, although each processed command signals the peers again |
| QueueQuiescence.PoolRunsDry | pkg/cqrs/command_queue_worker.go:175-209 | from every reachable error-free state a run of N workers without sends, polls and errors has at most Measure steps, and it cannot go on exactly when nothing is pending, no signal is set and all sleep |
| QueueQuiescence.PollRepairs | pkg/cqrs/command_queue_worker.go:143-173 | from every reachable unstopped state, whatever errors came before and with wake-ups or without, one poll and then a quiet run has at most Measure steps and stops exactly when nothing is pending and all sleep |
| QueueQuiescence.RestartRecovers | pkg/cqrs/command_queue_worker.go:143-146 | a restart at any point loses positions, locks and signals but no command, and the startup drains then run dry: boundedly many quiet steps, ending exactly when nothing is pending and all sleep |
| QueueQuiescence.StopIsFinal | pkg/cqrs/command_queue_worker.go:160-170 | a worker that is between commands or asleep when stopped leaves, and until a restart it is not seen again |
| QueueQuiescence.StoppedPoolIsInert | pkg/cqrs/command_queue_worker.go:211-217 | once all workers have left, nothing commits and no status changes except by a send, until a restart |
| QueueQuiescence.OneAttemptEach | pkg/cqrs/command_queue_worker.go:224-245 | in such a run each worker claims each row at most once |
| OutboxTable.ShortBatchIsAll | pkg/cqrs/outbox_worker.go:161-163 | a batch smaller than the limit contains the whole table |
| OutboxSafety.Conservation | pkg/cqrs/outbox_worker.go:180-243 | over all runs the committed records are the disjoint union of the rows still in the table, unchanged, and the deleted ones |
| OutboxSafety.AtLeastOnce | pkg/cqrs/outbox_worker.go:219-240 | every deleted record was published exactly as committed |
| OutboxSafety.OnlyCommittedPublished | pkg/cqrs/outbox_worker.go:219-232 | nothing but records of committed transactions is ever published |
| OutboxSafety.DuplicateAccount | pkg/cqrs/outbox_worker.go:219-240 | the publications of a record are exactly one if deleted, plus the failures and crashes that hit it between publication and deletion, plus one if its deletion is next; hence the bound on duplicates |
| OutboxSafety.PublicationOrder | pkg/cqrs/outbox_worker.go:181-183 | a record committed before the SELECT that led to a publication and older than the published one was published earlier, across batches, retries and inserts |
| OutboxWakeup.NoRecordIsForgotten | pkg/cqrs/outbox_worker.go:136-165 | in every reachable state without stop and without an error since the last SELECT every record is in the batch in hand or something will make the worker select again; asleep and unsignalled means an empty table |
| OutboxQuiescence.WorkerRunsDry | pkg/cqrs/outbox_worker.go:136-165 | from every reachable error-free state the outbox worker takes at most Measure steps without commits, polls and errors, and cannot go on exactly when the table is empty, nothing is signalled and it sleeps |
| OutboxQuiescence.PollRepairs | pkg/cqrs/outbox_worker.go:98-134 | from every reachable unstopped state, whatever errors or hook-bypassing commits came before, one poll and then a quiet run is bounded and stops exactly when the table is empty and the worker sleeps |
| OutboxQuiescence.RestartRecovers | pkg/cqrs/outbox_worker.go:98-99 | a restart at any point loses batch, signal and hooks but no record, and the startup drain then empties the table in boundedly many quiet steps |
| OutboxQuiescence.StopIsFinal | pkg/cqrs/outbox_worker.go:114-127 | a worker between batches or asleep when stopped leaves, and until a restart nothing more is published or deleted |
| OutboxWakeup.ExternalTransactionCanStrand | pkg/cqrs/event.go:66-81 | for every batch size a run with a transaction opened elsewhere leaves a record in the table, the worker asleep and no signal |
| Pipeline.PublishedMeansSuccess | pkg/cqrs/command_queue_worker.go:268-312 | every published record is an event of a committed command; with one worker that command, sent once, has status success |
| Pipeline.SuccessMeansDelivery | pkg/cqrs/command_queue_worker.go:276-312 | a successful command has a committed transaction whose events are all in the outbox or published, and all published once the outbox worker rests |
| Pipeline.UnsuccessfulMeansSilence | pkg/cqrs/command_queue_worker.go:268-308 | with one worker a command that is pending or failed has no committed transaction at all |
| PipelineQuiescence.PipelineRunsDry | pkg/cqrs/command_queue_worker.go:175-209 | from every reachable error-free state a run of all workers together without sends, polls and errors, whose transactions publish at most m events each, has at most (5 + 4m) times the queue's measure plus the outbox's measure steps, both of its first state; it cannot go on exactly when nothing is pending, no record waits and all sleep, and has then published every event of every committed command |
| PipelineQuiescence.NoEndlessRun | pkg/cqrs/command_queue_worker.go:175-209 | however many events the transactions publish, no infinite sequence of such steps exists |
| PipelineQuiescence.PollsRepair | pkg/cqrs/command_queue_worker.go:143-173 | the same bound and end hold whatever errors came before, once a queue worker and the outbox worker have polled |
| PipelineQuiescence.RestartRecovers | pkg/cqrs/command_queue_worker.go:143-146 | and after every restart |
| BackpressureBound.OvershootBound | pkg/cqrs/command.go:163-259 | with k Sends in flight, pending rows never exceed MaxPending plus 3 (k - 1), or plus 2 (k - 1) without the cache, whatever the workers and the clock do |
| BackpressureBound.SingleSenderHardLimit | pkg/cqrs/command.go:174-185 | with one Send at a time MaxPending is never exceeded and between Sends the cached count is never below the pending rows |
| BackpressureSharp.OvershootAttained | pkg/cqrs/command.go:187-222 | for every limit, TTL and k there is a run that reaches the bound exactly |
| BackpressureRate.CountRate | pkg/cqrs/command.go:187-212 | successful refreshes within a window of length T number at most T / TTL + 1, whatever the number of senders |
| BackpressureRate.CacheRefusal | pkg/cqrs/command.go:174-184 | a refusal from the cache rests on a refresh younger than the TTL whose count plus the sends since has reached MaxPending |
| BackpressureRefinement.SendIsRun | pkg/cqrs/command.go:163-259 | a Send of the code is a run of the protocol with one slot that leaves the same cached count and as many pending commands |
| BackpressureRefinement.SendStaysBelow | pkg/cqrs/command.go:163-259 | in every state a bus serving one Send at a time can reach, the code's Send leaves at most MaxPending commands pending and a cached count that covers them |
| BackpressureRefinement.RoundIsComplete | pkg/cqrs/command_queue_worker.go:276-308 | a worker's round that settles its command makes room for exactly one more |
| CommandBus.CommandBusImpl.constructor | pkg/cqrs/command.go:82-98 | zero settings become the defaults of 1000 and one second, and a new bus has no cached count |
| CommandBus.CommandBusImpl.CheckQueueCapacity | pkg/cqrs/command.go:163-222 | a sender alone is admitted only below the limit and refused exactly at it, from a live cache or a fresh count, keeping the cached count at or above the pending rows |
| CommandBus.CommandBusImpl.Send | pkg/cqrs/command.go:224-259 | an admitted command is recorded under its own name with its own payload, pending and sent now, nothing else changes, it is signalled and never takes the queue above the limit; a refused or failed one changes nothing in the table |
| Database.ChannelNotifier.Notify | pkg/cqrs/notifier.go:24-29 | after any number of calls exactly one signal is buffered |
| Database.ChannelNotifier.Receive | pkg/cqrs/notifier.go:31-33 | a receive consumes the one buffered signal, if any |
| Database.RegisterAfterCommit | pkg/cqrs/transaction.go:30-41 | a callback is appended exactly inside an active transaction context and the result says so |
| Database.SQLTransactionManager.Commit | pkg/cqrs/outbox_sql.go:82-96 | after a successful commit each callback runs once, in registration order, seeing the committed state; after a failed one none runs |
| Database.SQLTransactionManager.WithinTransaction | pkg/cqrs/outbox_sql.go:59-96 | for every sequence of statements and registrations: all writes and each callback once and in order on commit, nothing on error, refused commit or panic |
| Database.RegisteredConcat | pkg/cqrs/transaction.go:34-38 | registrations of consecutive stretches of a transaction run in that order |
| Database.PlayConcat | pkg/cqrs/outbox_sql.go:59-81 | a transaction's later statements find what its earlier ones have written |
| Database.OneOp | pkg/cqrs/transaction.go:30-41 | a single statement has its own effect and registers nothing, a single registration writes nothing and registers its callback once |
| EventBus.SQLOutbox.Save | pkg/cqrs/outbox_sql.go:26-45 | succeeds exactly when all ids are new and distinct, and then inserts all records |
| EventBus.EventBusImpl.Publish | pkg/cqrs/event.go:44-92 | in a transaction it succeeds exactly on new distinct ids, and then each event is a record under its own id with its name as topic, its payload, its name as metadata and its time, with nothing else new, and one after-commit wake-up, or an immediate one without a hook context; otherwise the events go to the bus up to its first error |
| ExecutionStore.SQLCommandExecutionStore.RecordPending | pkg/cqrs/command_execution_sql.go:31-67 | upserts a pending row in the transaction, or in the database when there is none: name, payload and start time as given, no error or end, an old handler name kept, other rows untouched |
| ExecutionStore.SQLCommandExecutionStore.RecordStarted | pkg/cqrs/command_execution_sql.go:69-103 | upserts the handler name and start time, clears error and end, keeps name and payload of an existing row and all other rows |
| ExecutionStore.SQLCommandExecutionStore.RecordSuccess | pkg/cqrs/command_execution_sql.go:105-117 | marks an existing row successful and leaves everything else alone |
| ExecutionStore.SQLCommandExecutionStore.RecordFailure | pkg/cqrs/command_execution_sql.go:119-131 | marks an existing row failed whatever its status, with the error and the time, and does nothing for an absent one |
| ExecutionStore.SQLCommandExecutionStore.GetStatus | pkg/cqrs/command_execution_sql.go:175-190 | reports the status seen, or absence |
| ExecutionStore.SQLCommandExecutionStore.GetNextPending | pkg/cqrs/command_execution_sql.go:192-247 | returns an earliest pending row exactly when there is a pending row |
| ExecutionStore.SQLCommandExecutionStore.CountPending | pkg/cqrs/command_execution_sql.go:253-264 | counts the pending rows |
| CommandProcessing.EffectiveConcurrency | pkg/cqrs/command_queue_worker.go:39-50 | a single worker on every dialect but MySQL, taken from the configuration or else from the store; on MySQL the configured number if it is positive, otherwise one |
| CommandProcessing.AllOrNothing | pkg/cqrs/command_queue_worker.go:229-308 | a round either installs domain changes, events and success together or leaves domain and outbox untouched, and never touches another row |
| CommandProcessing.SettledExactly | pkg/cqrs/command_queue_worker.go:288-308 | after a round its command is still pending exactly when nothing committed and there was an infrastructure error or the failure could not be recorded |
| CommandProcessing.UnrecordedFailureRepeats | pkg/cqrs/command_queue_worker.go:297-305 | the round of a failing handler, or of one that passes on a failed publication, is a no-op reported as processed without error exactly when its failure cannot be recorded, and then the same command is next again |
| CommandProcessing.CallHandler | pkg/cqrs/command_queue_worker.go:268-274 | the handler's error is reported, or the transaction holds exactly its domain state and one record for each of its events, with one wake-up hook if it published |
| CommandProcessing.AttemptMeans | pkg/cqrs/command_queue_worker.go:268-274 | an attempt fails exactly if the handler rejects or its event ids clash; otherwise it is the handler's own domain state and events |
| CommandQueueWorker.SQLCommandQueueWorker.Execute | pkg/cqrs/command_queue_worker.go:268-314 | a failing handler's transaction is dropped and its failure recorded on the database itself; a successful one commits |
| CommandQueueWorker.SQLCommandQueueWorker.Finish | pkg/cqrs/command_queue_worker.go:276-314 | success, commit and outbox signal happen together or not at all |
| CommandQueueWorker.SQLCommandQueueWorker.ProcessNext | pkg/cqrs/command_queue_worker.go:224-315 | claims an earliest pending command and leaves the database, the result, the hooks and the outbox signal as the round's outcome says; the hook runs exactly when records were added and sees them committed |
| CommandQueueWorker.SQLCommandQueueWorker.Drain | pkg/cqrs/command_queue_worker.go:175-209 | terminates whenever its rounds are bounded at all; they follow one another on the states they leave, and it ends only at a stop, an error or an empty queue, signalling peers if it processed anything with several workers |
| DrainRounds.DrainEndsExactly | pkg/cqrs/command_queue_worker.go:175-209 | for every database, handlers and course of events, the rounds of a drain are bounded if and only if the loop cannot get to a state in which from then on every round may claim a command that fails without its failure being recorded |
| DrainRounds.OftenIsEnough | pkg/cqrs/command_queue_worker.go:288-308 | that is so for every database if again and again a round comes that can record a failure, runs no failing handler, or is ended by a stop or a database error before the handler |
| DrainRounds.FailingHeadNeverEnds | pkg/cqrs/command_queue_worker.go:297-305 | while its failures cannot be recorded, a failing command first in line is claimed more often than any bound |
| DrainFold.CleanDrainIsFold | pkg/cqrs/command_queue_worker.go:175-209 | without errors a drain leaves nothing pending, runs each pending command once in started_at order, and its tables, outbox and statuses are the left fold over the commands as sent, a failing handler being the identity |
| WorkerRefinement.RoundIsRun | pkg/cqrs/command_queue_worker.go:224-315 | every round of the code is a run of the queue protocol with the same table, worker position and ledger |
| WorkerRefinement.DrainIsRun | pkg/cqrs/command_queue_worker.go:175-209 | every drain of the code is a run of the queue protocol with the same table, the ledger entries and events of exactly the rounds that committed, the same signal to peers and the same final worker position |
| WorkerRefinement.DrainOutcome | pkg/cqrs/command_queue_worker.go:175-209 | after a drain of the code from any reachable state of a single worker, a command sent once shows success exactly if it has committed once |
| WorkerRefinement.SingleWorkerOutcome | pkg/cqrs/command_queue_worker.go:41-50 | on any dialect but MySQL, success is exactly one committed transaction, whatever concurrency was configured |
| PipelineRefinement.RoundIsRun | pkg/cqrs/command_queue_worker.go:224-315 | every round of the code is a run of the pipeline with the same rows, outbox table and ledger, and the outbox worker is woken exactly when an acknowledged commit added records or the worker has an outbox notifier |
| EndToEnd.AcceptedCommand | pkg/cqrs/command_queue_worker.go:276-314 | the round of an accepting handler commits exactly the handler's domain state, one record per event and the row as successful, or nothing, and reports an error exactly if recording the success or the commit failed |
| EndToEnd.RejectedCommand | pkg/cqrs/command_queue_worker.go:288-308 | the round of a failing handler leaves domain and outbox alone, is reported as processed, and records the handler's own error unless that fails |
| EndToEnd.UnstartedCommand | pkg/cqrs/command_queue_worker.go:240-267 | a round that does not get to its handler reports an error and changes nothing |
| EndToEnd.SentCommandRuns | pkg/cqrs/command.go:236-245 | the command sent is the command run: a clean round that claims it looks up the handler by the sent name, gives it the sent payload and commits its answer |
| EndToEnd.EventGoesOut | pkg/cqrs/outbox_worker.go:219-240 | a drain, whatever goes wrong in it, removes the record of an event only after sending a message with the event's name as topic, its payload, id and metadata |
| EndToEnd.CommandReachesSubscribers | pkg/cqrs/event.go:44-66 | after a clean round and a clean drain every event of the command has gone out so |
| OutboxWorker.SQLOutboxWorker.constructor | pkg/cqrs/outbox_worker.go:30-43 | the batch size is positive whatever was configured, and 50 if that was not positive |
| OutboxWorker.SQLOutboxWorker.Select | pkg/cqrs/outbox_worker.go:181-209 | an answer to ORDER BY and LIMIT: as many of the oldest records as fit, in order |
| OutboxWorker.SQLOutboxWorker.PublishAll | pkg/cqrs/outbox_worker.go:219-240 | up to the first error each record is sent, in order, as a message with its id, topic, payload and metadata, and then deleted; one whose deletion fails has been sent and stays, and an error may hide a publication or deletion that took effect |
| OutboxWorker.SQLOutboxWorker.ProcessBatch | pkg/cqrs/outbox_worker.go:180-243 | the batch of the current table is treated so, and the count is reported only without an error |
| OutboxWorker.SQLOutboxWorker.Drain | pkg/cqrs/outbox_worker.go:136-165 | terminates; its batches follow one another on the tables they leave, and it ends only at a stop, an error or a batch that is not full |
| OutboxWorker.DrainLosesNothing | pkg/cqrs/outbox_worker.go:136-243 | whatever goes wrong, lost acknowledgements of publications and deletions included, only records of the table are published and only published ones are gone from it |
| OutboxWorker.CleanDrain | pkg/cqrs/outbox_worker.go:136-165 | without faults a drain of n records ends with an empty table after exactly n / BatchSize + 1 batches, each record published once and in order |
| OutboxRefinement.BatchIsRun | pkg/cqrs/outbox_worker.go:180-243 | every batch of the code, whatever fails in it, is a run of the outbox protocol with the same table, publications and worker position |
| OutboxRefinement.DrainIsRun | pkg/cqrs/outbox_worker.go:136-165 | every drain of the code is a run of the outbox protocol with the same table, publications, deletions and final worker position |
| OutboxRefinement.DrainKeepsOrder | pkg/cqrs/outbox_worker.go:181-183 | from any reachable state and with any faults, the code's drain sends a record only after every older committed one has been published |
| TransactionalHandler.TransactionalCommandHandler.Handle | pkg/cqrs/module.go:193-259 | one delivery leaves the database and answers as the outcome function says, with or without a store and for messages that are not Commands, and the outbox is woken by a hook exactly when it added records, which the hook finds committed |
| TransactionalHandler.DeliveryStatus | pkg/cqrs/module.go:205-231 | a delivery after a terminal status changes nothing, and a committed one leaves success |
| TransactionalHandler.NeverAfterTerminal | pkg/cqrs/module.go:210-213 | no sequence of deliveries commits effects once a terminal status is reached |
| TransactionalHandler.EffectsAtMostOnce | pkg/cqrs/module.go:193-259 | over every sequence of serialised deliveries, mixed with other commands' changes, errors and lost acknowledgements, the effects commit at most once |
| TransactionalHandler.EffectsExactlyOnce | pkg/cqrs/module.go:193-259 | and exactly once if the first of them meets no store error and its handler does not fail |
| TransactionalHandler.AnswerMeans | pkg/cqrs/module.go:233-258 | nil is answered only for a command terminal by then, or whose handler failed with no committed row to record it on, and only after an acknowledged commit or failure record; an error leaves everything as it was unless the commit took effect unacknowledged; without store errors the answer is nil |
| TransactionalHandler.DeliveryEffects | pkg/cqrs/module.go:222-231 | a delivery commits the handler's own domain state, events and the success, or leaves domain and outbox alone; answered with nil it has committed unless the status was terminal or the handler failed |
| TransactionalHandler.UntrackedAnswer | pkg/cqrs/module.go:195-199 | without a status nil is answered only after an acknowledged commit of the handler's effects, and a failing handler's error is passed on |
| TransactionalHandler.FailureOnRecord | pkg/cqrs/module.go:236-253 | a handler failure is answered with nil exactly if its record could be written, and then it is persisted exactly when a committed row existed; otherwise nothing changes |
| TransactionalHandler.DeliveryIsRun | pkg/cqrs/module.go:200-256 | a delivery of the code is a run of the delivery protocol that leaves the same table and commits exactly if the delivery does |
| DeliveryOverlap.OnceUnlessOverlapped | pkg/cqrs/module.go:205-231 | over all runs of any number of overlapping deliveries, with errors, crashes and redeliveries: two commits happen if and only if one delivery that commits checks the status between another one's check and its commit |
| DeliveryOverlap.OnceIffSerial | pkg/cqrs/module.go:205-231 | the effects commit at most once in all runs if and only if deliveries cannot overlap or the status is terminal already |
| DeliveryOverlap.HandlersTakeTurns | pkg/cqrs/module.go:215-231 | in every reachable state at most one delivery of a command holds its row |

## Left out

- Uber.fx wiring, handler registration, the query bus, logging, `Stop` being callable twice: no state to reason about.
- `Wait` (pkg/cqrs/command.go:261-304): its polling reads one row; what a status it returns means is `StatusIsOutcome`.
- JSON, UUID generation and error encoding: payloads, ids and error data are abstract values; a colliding record id makes the INSERT fail.
- SQL isolation beyond row locks, committed reads and atomic commit: a claimed row is locked from its SELECT on, also where the engine locks later.
- Tickers, timeouts and backoff durations: a poll and the end of a backoff may happen at any time; the clock is a natural number that never goes back.
- `runWorker` and `Start` as code: their select loops are the Wake, Poll and Exit steps of the two protocols.
- Handlers that swallow publication errors, send commands from inside, register hooks after they return, or never return.
- Several outbox workers on one table, and senders in other processes, which do not share the notifier or the cache.
- BackpressureBound.OvershootBound: an INSERT whose acknowledgement is lost is not a step of this system; each such loss would leave one row uncounted until the next refresh.
- CommandQueueWorker.SQLCommandQueueWorker.Drain: other workers and senders do not interfere with the code of one drain; interleavings are covered by QueueProtocol.
- Events published for a transaction opened outside `WithinTransaction` are not part of Pipeline; OutboxProtocol has them as ExternalCommit.
