# Durable execution in rpacore: a Dafny model

rpacore runs business transactions step by step, saves a snapshot after every change of a
step, and hands the transactions to workers through a queue with leases and retries. This
project models that protocol and proves what it keeps, over every interleaving of workers,
every behaviour of the steps, and every crash.

* **Engine.** `EngineSpec` is the pass/retry state machine as a function from a transaction
  and an oracle for the step code to the final transaction and the list of checkpoints.
  `Objects`, `EnginePass` and `Engines` are the engine as it works, over step objects whose
  fields change in place; `Engines.Engine.Run` is proved to write exactly the checkpoints of
  `EngineSpec.Run`, and a store that stops accepting keeps exactly the first of them.
  `EngineLemmas` carries a property of single moves over whole runs; `EngineFacts`,
  `EngineRuns`, `EngineSettles`, `EngineUnderWay`, `EngineShape`, `EngineChain`,
  `EngineOutcome`, `EngineReport` and `RetryDecision` use it. `EngineTelling` says what history,
  exceptions and verdict of a run tell about the calls of its steps, and `EngineSaving` which
  moments of it are saved.
* **Crash recovery.** `RecoverySpec` says what a resume makes of a persisted snapshot;
  `Recovery` is the resume over step objects; `ResumeLaws` says of the records what it means
  for every row and for the run that follows. `Sessions` is any number of sessions that die
  after any number of checkpoints. `CrashTarget`, `CrashSkips`, `CrashRecovery` and
  `CrashExact` compare such a chain with an uninterrupted run.
* **Queue.** `QueueSpec` has the tables as a value and each committed write as a guarded
  operation on one row. `QueueInvariants` and `QueueRuns` prove the invariants over all
  interleavings, with reads made outside the write lock. `SqliteQueues` is the queue as its
  methods work, with rival writes between a read and its guarded write; `QueueSteps` says
  what they are proved against.
* **Storage.** `Tables` holds the transaction tables, writing and reading one snapshot;
  `TransactionStores` writes them row by row; `Checkpoints` is the fenced save over both
  databases.
* **The whole system.** `SystemSpec` joins queue, storage and worker sessions, each with an
  arbitrary run of the engine; `SystemInvariants` and `SystemRuns` prove what every run of it
  keeps; `SystemTables` shows that its saves are the table writes. `SystemLineage` shows that
  whatever the interleaved workers store is what one chain of crashing sessions leaves, and
  carries crash equivalence over to them.
* **Worker loop.** `Runner` counts, drains, and balances its counters with the attempt log.
* **Smaller cores.** `JsonState` (cycle detection), `RetryDelay` (delivery delay over reals),
  `Paging` and `Cursors` (keyset pages and opaque cursors).

## What is false, and the exact condition

* A crash between the checkpoint of a halting business failure and the checkpoint of the
  skips it causes (rpacore/engine.py:291 and 416) leaves later steps pending, and a resume
  runs them. `CrashExact.CrashEquivalenceExactly` states when recovery still ends like the
  uninterrupted run for every crash point and every chain of sessions: if and only if no step
  behind a first planned halting failure would do more than skip itself.
* `SYSTEM_FAILED` names the newest recorded failure, which may have been repaired since.
  `EngineReport.TruthfulExactly` states, for new and for resumed transactions, when the report
  means that a system-failed step is left, for every behaviour of the steps
  (`EngineOutcome.ReportsSafely`). Without a retry budget: no business failure is kept, or the
  newest recorded failure is a business one. With a budget: a kept failure needs that too and
  nothing left to run; otherwise at most one step may be left to run. For a new transaction
  this is "no budget or at most one step" (`NewReportsSafely`). Two inputs that mislead:
  `TwoOpenMislead` (a new transaction with a budget and two steps) and `ResumedMisleads` (no
  budget at all, two steps that fail in one session and a resume that repairs one of them).
* `RETRY_EXHAUSTED` does not mean that the budget was used up. `EngineReport.ExhaustedExactly`:
  it does, for every behaviour of the steps, if and only if there is no budget, or the start
  would report safely with one retry less.
* A run that is started without a resume on a transaction with a step in progress can leave
  that step in progress. `EngineUnderWay.FinishesExactly`: it never does, for every behaviour
  of the steps, if and only if no step that would run comes before one in progress.
* `INSERT OR IGNORE` of history rows is faithful only over a prefix
  (`Tables.MergeFaithfulExactly`); `SystemRuns.NoLostHistory` shows that the fence
  guarantees it.

## Model

| member | source | states |
|---|---|---|
| Engines.Engine.Run | rpacore/engine.py:102-197 | a run over step objects leaves the transaction and writes the checkpoints of `EngineSpec.Run`; a checkpoint that fails ends it with exactly the earlier ones durable; invalid wiring is recorded and nothing is saved |
| Engines.Engine.Perform | rpacore/engine.py:126-158 | everything up to the verdict: first checkpoint, first pass, retry loop |
| Engines.Engine.FirstPass | rpacore/engine.py:126-144 | a resumed transaction blocks its business failures in the first pass, any other blocks nothing and makes skipped steps runnable |
| Engines.Engine.Retry | rpacore/engine.py:146-161 | the retry loop follows the specified retries until the budget or the retryable steps run out |
| Engines.Engine.RetryOnce | rpacore/engine.py:146-161 | one round: rearmed steps, one pass blocked by business failures, one checkpoint |
| EnginePass.ExecutePass | rpacore/engine.py:255-351 | a pass in execution order over objects follows the specified pass, checkpoint by checkpoint |
| EnginePass.Attempt | rpacore/engine.py:270-351 | a step is started and checkpointed, executed, recorded and checkpointed, in that order |
| EnginePass.Execute | rpacore/engine.py:282-351 | each way a step can end leaves its status, its exception with the pass number, and its history entry |
| EnginePass.SkipDownstream | rpacore/engine.py:394-416 | exactly the pending steps after the failed one are skipped, each with its entry |
| Engines.LastFailedException | rpacore/engine.py:353-373 | the dictionary and reversed scans find the exception behind the newest recorded failure |
| Engines.Close | rpacore/engine.py:179-194 | the final status, category, disposition and failure code |
| Engines.RetryableFailedSteps | rpacore/engine.py:227-232 | exactly the failed steps whose last exception is a system exception |
| Engines.BlocksByOrder | rpacore/engine.py:234-239 | blocking step objects and blocking their execution orders is the same |
| Engines.ResetSkipped | rpacore/engine.py:247-253 | skipped steps become pending, unless the transaction was just resumed |
| Objects.Transaction.Validate | rpacore/transaction.py:134-174 | accepted exactly when reference and names are not blank, orders positive, names and orders unique |
| Objects.Transaction.AppendHistory | rpacore/transaction.py:112-132 | the next sequence number with the current status and pass |
| Objects.SortedMembers | rpacore/transaction.py:104-106 | the ordered steps are the listed ones, each once, by execution order |
| EngineLemmas.RunKeeps | rpacore/engine.py:102-197 | a property every single move keeps holds at every checkpoint and at the end of every run |
| EngineFacts.RunContinues | rpacore/engine.py:102-197 | history is numbered and only grows at its end; identity and wiring never change |
| EngineFacts.RunKeepsSuccess | rpacore/engine.py:270-279 | at every checkpoint a recorded success is the last event of its step |
| EngineFacts.AtMostOneSuccess | rpacore/engine.py:146-161 | a step has at most one recorded success and no event after it |
| EngineFacts.RunAccountsRetries | rpacore/engine.py:146-161 | as many retries are recorded as the pass number grew, within the budget |
| EngineRuns.RunEnds | rpacore/engine.py:179-197 | the status is successful exactly when every step succeeded or was skipped, and failed otherwise |
| EngineRuns.RunLeavesNoneInProgress | rpacore/engine.py:255-351 | a transaction with no step in progress ends with none |
| EngineUnderWay.FinishesExactly | rpacore/engine.py:255-351 | no step is left in progress, for every behaviour of the steps, iff none that would run comes before one in progress |
| EngineRuns.RunCheckpoints | rpacore/engine.py:136-197 | the last checkpoint is the final transaction and the only one not in progress |
| EngineRuns.PassStartsOnce | rpacore/engine.py:255-351 | a pass starts a step at most once |
| EngineRuns.RunStartsPerPass | rpacore/engine.py:146-161 | over a whole run a step is started at most once more than the pass number grew |
| EngineRuns.RunRetriesOut | rpacore/engine.py:146-161 | a step is left failed for the system's reasons only when the pass number has reached the budget |
| EngineTelling.VerdictTells | rpacore/engine.py:179-194 | status, category, disposition and failure code in terms of what the call behind the newest recorded failure did: its own code, "rpacore.system.unexpected" for any other exception, none after success |
| EngineTelling.NewestMeans | rpacore/engine.py:353-373 | the newest recorded failure is the last history entry that an exception of its pass and step answers |
| EngineTelling.HistoryTells | rpacore/engine.py:255-416 | every new entry is numbered, made in progress and in the pass the recorded retries count; a step's end directly follows its start and says what its call did; a step is started only where the pass goes on; only steps behind a halting failure of their pass are skipped unstarted |
| EngineTelling.ExceptionsTell | rpacore/engine.py:282-337 | every step ends with the exceptions it came with, followed by one for each of its recorded failures, in order, with the pass and what the call raised |
| EngineSaving.EveryCallIsSaved | rpacore/engine.py:270-351 | the start of every called step is in a checkpoint before anything follows it, and so is its end |
| EngineSaving.CheckpointsOwed | rpacore/engine.py:136-197 | a run writes one checkpoint at its beginning and end, two for each step started, one behind each halting failure and one after each retry pass |
| EngineTelling.FirstCheckpoint | rpacore/engine.py:126-136 | the outcome fields cleared, the start recorded, and skipped steps runnable again unless the transaction was just resumed |
| EngineShape.FreshRunShaped | rpacore/engine.py:255-351 | every checkpoint of a new transaction shows settled steps, then at most one under way or system-failed, then untouched ones, or a halting failure with its suffix all skipped or all pending |
| EngineShape.StartsInTurn | rpacore/engine.py:270-281 | when a checkpoint of a new transaction's run shows a step under way, every earlier step is settled and every later one untouched |
| EngineChain.RunChains | rpacore/engine.py:199-218 | the checkpoints of a run extend one another in the order in which they are written |
| EngineOutcome.RemainingSystemFailureReported | rpacore/engine.py:186-193 | a step left failed for the system's reasons is reported as a system failure |
| EngineSettles.WorkSettles | rpacore/engine.py:102-178 | a run from any worker's start settles every step, or stops with one system failure and the rest settled or pending |
| EngineReport.TruthfulExactly | rpacore/engine.py:186-193 | for new and resumed transactions, the report means a remaining system failure, for all step behaviours, iff the start reports safely |
| EngineReport.NewReportsSafely | rpacore/engine.py:186-193 | for a new transaction that is: no retry budget, or at most one step |
| EngineReport.KeptFailureMisleads | rpacore/engine.py:353-373 | with an older business failure kept, a run in which every step called succeeds is still reported as a system failure |
| EngineReport.TwoOpenMislead | rpacore/engine.py:353-373 | with a retry budget and two steps to run some behaviour of them is misreported |
| EngineReport.ResumedMisleads | rpacore/engine.py:353-373 | with no budget at all, a resumed run that repairs the system failure is reported as one |
| EngineReport.ExhaustedExactly | rpacore/engine.py:186-193 | retries reported as exhausted means the pass number reached the budget, for all step behaviours, iff there is no budget or one retry less would report safely |
| RetryDecision.RetryAskedExactly | rpacore/runner.py:628-643 | after a failed run of a new or resumed transaction the worker asks for a redelivery iff business failures are retried or a system-failed step is left |
| RetryDecision.RedeliveryRetryAsked | rpacore/runner.py:628-643 | the same after a redelivery, whatever snapshot it found durable |
| Recovery.PrepareResumed | rpacore/recovery.py:42-134 | a resume over the caller's step objects is the specified one, with the same refusals, and a refusal leaves the transaction as it was |
| Recovery.Restore | rpacore/recovery.py:86-121 | every loaded step takes one provided step, by key, with its exceptions and its recovered status |
| Recovery.HaltPropagatedMeans | rpacore/recovery.py:163-188 | the collected keys are exactly the skips history proves to be caused by a halting failure |
| Recovery.PreservedMeans | rpacore/recovery.py:65-84 | the preserved skips are the interrupted or the propagated ones, without those that retried business failures release |
| RecoverySpec.PrepareAcceptsExactly | rpacore/recovery.py:42-134 | a resume is accepted iff the identity matches, the wiring is valid and the provided steps are the persisted ones, each once |
| ResumeLaws.ResumeMeans | rpacore/recovery.py:42-188 | an accepted resume row by row: business failures and the skips history attributes to a halting one are released exactly when their retry is asked for; other skips stay only in work that was cut off; everything else unsettled runs again |
| ResumeLaws.RefusalMeans | rpacore/recovery.py:56-118 | each refusal names what is wrong: the identity, the wiring, the first repeated, the first missing, or the extra steps |
| ResumeLaws.ResumedRunSucceeds | rpacore/recovery.py:145-160 | a resumed run in which every call succeeds is successful iff business failures were retried or none was kept |
| ResumeLaws.RerunSucceeds | rpacore/engine.py:234-253 | without a resume such a run executes everything unfinished, skipped and failed steps included |
| Sessions.SuccessSurvives | rpacore/recovery.py:145-160 | across all retries, crashes and resumes a recorded success stays the last event of its step |
| CrashTarget.RunReachesTarget | rpacore/engine.py:102-197 | with fixed outcomes a run of many passes ends with the statuses of a closed form, and its checkpoints still lead there |
| CrashSkips.RunExplains | rpacore/recovery.py:163-188 | every skip in every checkpoint is a self-skip or provably propagated |
| CrashRecovery.ResumeKeepsTarget | rpacore/recovery.py:42-134 | a resume does not change the statuses the work is bound to end with |
| CrashRecovery.CrashEquivalence | rpacore/recovery.py:42-134 | any chain of crashes and resumes outside the halting window ends with the step statuses and the status of the uninterrupted run |
| CrashExact.CrashEquivalenceExactly | rpacore/engine.py:283-302 | the same holds for every crash point and every chain iff the plan is safe |
| CrashExact.UnsafeFails | rpacore/engine.py:283-302 | an unsafe plan has a crash point from which recovery ends differently |
| QueueInvariants.ApplyKeepsInv | rpacore/queue.py:585-902 | every committed write keeps the queue invariant |
| QueueRuns.LeaseBijection | rpacore/queue.py:364-392 | in progress, a token, a claim time and exactly one open attempt with that token go together |
| QueueRuns.BoundedDelivery | rpacore/queue.py:610-628 | an item is handed out at most `max_retries + 1` times |
| QueueRuns.RetryConservation | rpacore/queue.py:803-831 | the retry count is the number of attempts that cost a retry plus the forced failures |
| QueueRuns.OptimisticFailIsAtomic | rpacore/queue.py:791-831 | a failure accepted under the guard writes the current count plus one, whatever happened since the read; the item waits for its due time iff a retry is asked for and left |
| QueueRuns.OptimisticClaimIsAtomic | rpacore/queue.py:632-699 | a claim is made of a pending item whose available time has come, for the payload that is stored |
| QueueRuns.OptimisticPoisonIsAtomic | rpacore/queue.py:647-668 | a quarantined item records the decoding error of its stored payload |
| QueueRuns.RunExtends | rpacore/queue.py:379-392 | the attempt log only grows and a closed attempt is never rewritten |
| QueueRuns.ClosedIsFenced | rpacore/queue.py:707-831 | once an attempt is closed no renewal, binding, completion or failure with its token is accepted |
| SqliteQueues.SqliteQueue.NextItem | rpacore/queue.py:585-705 | exactly the stale leases expire first; the database then follows from the old one by the rivals' writes and, in each lost round, at most the quarantine of a stored payload; the oldest due item at the last look is leased under a new token, or nothing was eligible; the loop ends with the rivals |
| SqliteQueues.SqliteQueue.ReclaimStale | rpacore/queue.py:601-630 | exactly the leases whose age in whole seconds exceeds the timeout expire, each by one guarded write: pending again with a due time while retries are left, failed otherwise |
| SqliteQueues.SqliteQueue.Oldest | rpacore/queue.py:632-642 | the pending row whose available time has come with the least creation time and then id; nothing only if everything pending is for later |
| SqliteQueues.SqliteQueue.ClaimOldest | rpacore/queue.py:632-699 | the claim loop under rival writes: every write since its start is a rival's or a lost round's quarantine, and it ends with the oldest due item claimed or nothing eligible |
| SqliteQueues.SqliteQueue.FailItem | rpacore/queue.py:780-833 | an accepted failure is the one an atomic `fail` would have made after the rivals' writes: pending again, due later and unclaimed iff a retry is asked for and left, and failed otherwise |
| SqliteQueues.SqliteQueue.CompleteItem | rpacore/queue.py:753-778 | accepted iff the claim is current; the row ends successful and its attempt closed |
| SqliteQueues.SqliteQueue.RenewLease | rpacore/queue.py:733-751 | accepted iff the claim is current; only the claim time changes |
| SqliteQueues.SqliteQueue.ForceItem | rpacore/queue.py:843-902 | a blank reason and an unknown item are refused; otherwise the row becomes successful, pending or failed, its open attempt is closed, and the audit event has the stripped reason and both statuses |
| SqliteQueues.SqliteQueue.AddItem | rpacore/queue.py:493-501 | one row is inserted unless its id is in use |
| Tables.MergeFaithfulExactly | rpacore/persistence.py:786-801 | history written over older rows is stored faithfully iff the older rows are a prefix of it |
| Tables.WrittenRows | rpacore/persistence.py:752-785 | the step rows read back are the written ones, each with its own exceptions |
| Tables.WriteFrames | rpacore/persistence.py:752-801 | writing one transaction leaves every other one as it was |
| TransactionStores.TransactionStore.WriteTransactionRows | rpacore/persistence.py:643-830 | identity, revision and step ids are checked; header, steps, exceptions and history are written row by row; the revision grows by one |
| TransactionStores.TransactionStore.InsertSteps | rpacore/persistence.py:752-785 | one row a step and one an exception, in listed order; a repeated step id is refused |
| TransactionStores.SortedRows | rpacore/_transaction_read.py:36-51 | reading by execution order gives the transaction's ordered steps |
| TransactionStores.RoundTrip | rpacore/_transaction_read.py:67-134 | a load after a save returns the saved snapshot iff the stored history was a prefix of the saved one |
| Checkpoints.SaveFenced | rpacore/_queue_checkpoint.py:27-133 | claim, binding, revision and identity are checked; storage and binding change together or not at all |
| Checkpoints.RefusalReasons | rpacore/_queue_checkpoint.py:39-127 | each reason from the row's fields: a lost claim, a used id, a changed definition, a stale revision, a repeated step; and nothing else is refused |
| Checkpoints.SavedHeader | rpacore/persistence.py:670-751 | an accepted save writes the snapshot's fields, one revision further, under the writer's item and token |
| Checkpoints.BindingIsAQueueStep | rpacore/_queue_checkpoint.py:113-123 | the binding update of a first save is the queue's own bind step, and it is always accepted |
| SystemInvariants.HolderIsNewest | rpacore/_queue_checkpoint.py:84-94 | the attempt behind a current claim is its item's newest |
| SystemRuns.ReachableInv | rpacore/runner.py:462-676 | the whole invariant holds in every reachable state |
| SystemRuns.NoLostHistory | rpacore/persistence.py:726-801 | an accepted save stores exactly the snapshot in memory, one revision further, extending what was stored |
| SystemRuns.HistoryOnlyGrows | rpacore/persistence.py:655-665 | over any run stored histories only grow at the end and the definition identity never changes |
| SystemRuns.OnlyItsDefinitionRuns | rpacore/recovery.py:56-118 | a worker runs a stored transaction only under its own identity and with exactly its steps |
| SystemRuns.OnlyLostClaimsAreRefused | rpacore/_queue_checkpoint.py:84-127 | a session with checkpoints left is refused iff it lost its claim |
| SystemRuns.ClosedAttemptIsFenced | rpacore/_queue_checkpoint.py:84-94 | a session whose attempt is closed saves, completes and fails nothing more |
| SystemRuns.SaversNeverGoBack | rpacore/_queue_checkpoint.py:103-112 | successive saves for an item belong to attempts that never go back, and the revision counts the saves |
| SystemRuns.BindingIsMutual | rpacore/_queue_checkpoint.py:113-125 | a bound item's transaction exists and points back, and no two items share one |
| SystemRuns.BoundAtCreation | rpacore/runner.py:1007-1048 | a binding appears only in the step that creates the transaction |
| SystemRuns.RunLater | rpacore/runner.py:1007-1048 | over any run bindings never change, attempts are append-only and a successful transaction is frozen |
| SystemRuns.SuccessAgrees | rpacore/runner.py:610-625 | an item successful without an operator's override is bound to a durably successful transaction |
| SystemRuns.SuccessIsFrozen | rpacore/runner.py:489-527 | a durably successful transaction is never saved again, whatever happens to its item |
| SystemRuns.StoredSuccessIsFinal | rpacore/recovery.py:145-160 | across all deliveries a step has at most one stored success and it is its last event |
| SystemLineage.WorkersRefineSessions | rpacore/runner.py:462-676 | from its creation on, what is stored for a transaction is what one chain of sessions, each dying in turn, leaves, under any interleaving; so is the work of the current worker |
| SystemLineage.InterleavedCrashEquivalence | rpacore/recovery.py:42-134 | with fixed outcomes and a safe plan, a finished or durably successful transaction has the step statuses and the status of one uninterrupted run, however workers, expiries and operators interleave |
| SystemTables.SaveRefines | rpacore/_queue_checkpoint.py:84-127 | the tables' fence lets through exactly the system's saves and the tables then hold its next storage |
| SystemTables.RefusedAsStale | rpacore/_queue_checkpoint.py:84-96 | a reachable session with checkpoints left is refused only for a lost claim, and the refusal says so |
| SystemTables.InitializeRefines | rpacore/_queue_checkpoint.py:95-125 | the same for the first save |
| Runner.RunItems | rpacore/runner.py:345-380 | a lone worker's loop ends; items processed grow with the attempts opened, and completed, retried and failed items with the attempts closed that way; at most one lease is lost, and without loss and delay every item ends |
| Runner.ProcessClaimed | rpacore/runner.py:604-676 | one claimed item is settled as its verdict says, and exactly the counter of the queue's outcome rises, or the lost lease's |
| Runner.Transition | rpacore/runner.py:610-650 | the verdict completes the item or fails it with the outcome the queue reports |
| Runner.DeliveryIsLighter | rpacore/queue.py:803-831 | one delivery and its resolution make the work left smaller |
| JsonState.Checker.Validate | rpacore/_json_state.py:24-51 | the recursion ends on every graph and restores the active set on every exit |
| JsonState.PassesExactly | rpacore/_json_state.py:24-58 | accepted iff no reachable container is reachable from itself, every reachable key is text and no reachable leaf is a non-finite float or foreign object |
| JsonState.ValidateJsonSafe | rpacore/_json_state.py:12-14 | the public check, from an empty active set |
| JsonState.ValidateJsonObject | rpacore/_json_state.py:17-21 | the same for a dictionary only |
| RetryDelay.LogCapIsExact | rpacore/_queue_retry.py:55-65 | the early logarithmic cap never cuts a delay below the cap |
| RetryDelay.WaitIsCapped | rpacore/_queue_retry.py:50-66 | the wait is max(1, ceil(10^6 min(86400, delay backoff^(n-1)))) microseconds, within its bounds |
| RetryDelay.RetryIsDue | rpacore/_queue_retry.py:50-66 | no due time exactly for a zero delay; otherwise the first whole microsecond, at least one, not before the delay or the day-long cap is over |
| RetryDelay.WaitGrows | rpacore/_queue_retry.py:50-66 | later retries never wait less |
| RetryDelay.WaitEndsAtCap | rpacore/_queue_retry.py:50-66 | with a growing backoff the wait is at the cap from some retry on |
| RetryDelay.RetryPolicy | rpacore/_queue_retry.py:14-29 | both settings are defaulted and range-checked; the first bad one is reported |
| Paging.TraversalIsComplete | rpacore/persistence.py:1045-1110 | on an unchanged table any page limits give every matching row once, in order, and the traversal ends |
| Paging.NoRowRepeats | rpacore/_queue_read.py:197-236 | whatever changes between pages, rows come strictly in order |
| Paging.TraversalUnderChange | rpacore/_queue_read.py:293-338 | no row repeats and a row that keeps matching is returned once |
| Paging.ItemsListed | rpacore/_queue_read.py:197-236 | whatever changes between pages, items come by creation time and then id |
| Paging.EventsListed | rpacore/_queue_read.py:293-338 | whatever changes between pages, events come by sequence |
| Paging.TransactionsListed | rpacore/persistence.py:1045-1110 | whatever changes between pages, transactions come newest first and then by id |
| Paging.IterTransactionPages | rpacore/_transaction_cli.py:125-150 | the pages are the first min(cap, total) rows; a cap below one is refused |
| Cursors.PaddingRestored | rpacore/_queue_read.py:346-366 | stripping the base64 padding and restoring it loses nothing |
| Cursors.BigEndian | rpacore/_queue_read.py:346-366 | four characters carry three bytes, most significant first; three and two carry two and one |
| Cursors.AlphabetMeans | rpacore/_queue_read.py:346-366 | the URL-safe alphabet in its order |
| Cursors.NoPayload | rpacore/_queue_read.py:359-368 | text that is not base64 or carries no payload is no cursor |
| Cursors.AnyPayload | rpacore/_queue_read.py:354-377 | a cursor of another version, kind or query is refused with its own error, and the version is looked at first |
| Cursors.CursorRoundTrip | rpacore/_queue_read.py:346-377 | a cursor decodes to its position for its own kind and filters, and is refused for others |

## Left out

- Step interruption by `MemoryError` (the `step_interrupted` event and the interrupted outcome) and keyboard interrupts.
- Transaction state, metadata, artifacts and timestamps: they travel with the snapshot and decide nothing here.
- Screenshots, logging, reports, notifiers, callbacks, resource scopes and sleeping.
- Runs without a checkpoint callback: every run modelled has a strict one.
- Engines.Engine.Run: a step's code is an outcome chosen by an oracle from its order and the length of history; it changes no status but its own.
- Objects.Transaction.Validate: blank means ASCII whitespace only; values of the wrong type, the durable-data checks (JSON-safe state, metadata and artifacts) and the format of the definition identity are not modelled.
- RecoverySpec.PrepareAcceptsExactly: the format rules of a definition identity beyond being non-empty.
- SQLite itself (connections, journal modes, lock errors, migrations): each immediate transaction over one or both databases is one atomic step that happens fully or not at all.
- Threads and the heartbeat: renewals and expiries are steps that may happen at any time.
- Retries of a save or a transition after a transient lock error.
- `SqliteQueue.bind_transaction` and unconditional `save_transaction` on a queue-owned transaction, which are outside the worker's protocol.
- `add_once`, the list and show helpers, and rows written under older schemas.
- SqliteQueues.SqliteQueue.ForceItem: only ASCII whitespace is stripped.
- QueueInvariants.ApplyKeepsInv: an item added is a new one (pending, not tried, unclaimed, unbound); `add` itself inserts any row it is given.
- EngineReport.TruthfulExactly: a start is a new transaction with pending steps or a resumed one; a builder that hands over steps already skipped, failed or in progress is not covered, here and in `RetryDecision` and `CrashExact`.
- SqliteQueues.SqliteQueue.NextItem: claim tokens are fresh numbers where the source draws UUIDs, and time is a clock that never goes back.
- TransactionStores.TransactionStore.WriteTransactionRows: state, metadata, timestamps and artifact rows are not written; a step id is its transaction, name and order, where the source joins them into one string; restoring the tables stands for a rollback.
- SystemLineage.WorkersRefineSessions: one direction only; the queue hands an item out a bounded number of times, so not every chain of sessions occurs in a run of the system.
- SystemRuns.ReachableInv: a session's engine run is given from its start and its checkpoints are saved one by one; the reasons for giving up an item, and with them the retry flag, are arbitrary.
- Runner.RunItems: one worker and no rivals; a verdict for each delivery stands for the transaction run inside it.
- RetryDelay.WaitIsCapped: real numbers instead of floating point, so overflow and rounding of the power are not modelled.
- JsonState.Checker.Validate: the error message and its path.
- Cursors.CursorRoundTrip: JSON serialization and the filter fingerprint are parameters; the transaction cursor's lenient base64 decoding of foreign characters is modelled as a refusal.
- Paging.TraversalUnderChange: a query's matching rows are given in order at each page; how filters select them is not modelled.
