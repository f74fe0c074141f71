# zcode-agent verification

A Dafny model of the durable task store, the scheduler's protocol around it, and the small
byte-level cores of the zcode agent service, with proofs of what they promise.

`dafny verify dfyconfig.toml` checks everything.

## How it is put together

The store (`crates/zcode-agent-store/src/lib.rs`) is a class `TaskStore.Store` whose fields are the
tables: rowid order, tasks, events, messages, pending requests, results, artifacts and the
lifecycle ledger. Each public operation is one method, that is one transaction; its contract equates
the new tables and the reply with a function of the old tables (`StoreSpec`). An error reply leaves
the tables as they were. `StoreRuns` turns the operations into steps and histories, and everything
said about "every reachable state" or "every continuation" is a lemma about those histories, for any
order of operations and any times.

* `TaskTypes`, `StoreSpec`, `StoreRuns`, `Store`: rows, operations, histories, the class.
* `Ledger`, `StoreInvariant`, `StoreFrames`, `StoreTheorems`: the invariant across tables, what no
  step undoes, and the induction over histories.
* `StoreHistory`, `StoreResults`, `ClaimCount`, `LedgerPaths`, `EventLog`, `Delivery`, `Paging`,
  `Rollback`: the properties of histories.
* `RuntimeLifecycle`, `Publisher`, `Fence`, `Persistence`, `Convergence`, `Recovery`: the scheduler
  (`crates/zcode-agentd/src/lib.rs`) as threads that interleave over the store and two locks, and as
  code over the store class.
* `LatestText`, `Activity`: the streaming structures against definitions on the whole log.
* `Json`, `ResultJson`, `RpcFrame`, `RpcReads`, `RpcOverflows`, `Fallbacks`: the JSON text of results
  and responses, its size, and the store reads a response is put together from.
* `RawDiff`: the parser of `git diff --raw -z`.

Times are parameters. What the runtime, the operating system, Git and the finalizer answer is
arbitrary: it enters as a parameter or as a move of the environment. SHA-256 is idealised as injective
on the canonical bytes, and a fingerprint comparison as equality of what is hashed.

Where the code and its documented intent differ, the model follows the code:

* "The owner epoch is the number of CLAIMED rows" holds of claims, not of the word: a terminal update
  may carry CLAIMED as its failure code. `LedgerPaths.LedgerReplays` proves the exact count and
  `LedgerPaths.FailureCodeReadsLikeClaim` the difference.
* `restore_terminal_after_resume_failure` looks at no phase, writes no ledger row and settles no input.
  It is not one of the operations of a history; `Rollback` proves exactly when it keeps the ledger's
  phase and the settlement of input, and that its use right after a resume breaks both.
* A resume leaves the epoch alone, so the old runtime is fenced off only by the next claim:
  `EventLog.CollidesIffOldRow` says exactly which writes collide until then, and
  `EventLog.LateWriteCollides` that a late write right after the resume can.
* `queue_message` takes no lock when it finds no session. `Fence.ReadyFencesInput` excludes only the
  insertions of that branch that the store accepts as new after the monitor has found no blockers.
  `Fence.OnlyStraysBreakFence` shows that these moves and no others break the fence,
  `Fence.StrayInsertionStrands` what each of them leaves behind, and `Fence.StrayRunExists` that such
  runs exist.
* The claim query counts CANCELLING tasks, of which stopping never-run tasks makes more than the limit
  (`ClaimCount.CountExceedsAnyLimit`); the limit on PREPARING, RUNNING and WAITING_INPUT holds.
* The preflight sizes the response for the row it sees, but a request reads the row, the artifacts and
  the result separately and holds no lock in between. `RpcReads.ResponseFitsIff` says over every history
  when all responses fit. Without a resume between sizing and reading only a row read in WAITING_INPUT can
  be longer, by one byte (`RpcReads.UnresumedResponseFits`); after a resume a row of the earlier run can be
  longer by more (`RpcReads.LongerIff`). `RpcOverflows.TornReadExists` and
  `RpcOverflows.ResumedReadExists` give runs of both kinds in which an accepted result does not fit.
* A completion can be answered with a conflict although the task is TERMINAL.
  `Convergence.PersistenceConverges` says exactly when - nothing is stored when that is checked, and
  another finisher's result is stored before the fallback - and `Convergence.ConflictRunExists` gives
  such a run from every unflagged owned task.

## Model

| member | source | states |
|---|---|---|
| TaskStore.Store.EnqueueTask | crates/zcode-agent-store/src/lib.rs:591-680 | admission replies and tables exactly as specified: an identical submission is found, a different one under the same key conflicts, a busy direct workspace is refused |
| TaskStore.Store.ClaimNextTask | crates/zcode-agent-store/src/lib.rs:769-829 | a claim takes the first eligible row by creation time and rowid, bumps the epoch and logs it |
| TaskStore.Store.MarkSessionRunning | crates/zcode-agent-store/src/lib.rs:831-873 | only the claimed epoch of a PREPARING task starts running |
| TaskStore.Store.AppendLifecycle | crates/zcode-agent-store/src/lib.rs:875-948 | repeated source sequence, refusal, primary-key collision or the next number, with the end of the task when the write carries one |
| TaskStore.Store.TransitionTerminal | crates/zcode-agent-store/src/lib.rs:950-982 | the terminal outcome, replayed for a task already over |
| TaskStore.Store.FailClaimed | crates/zcode-agent-store/src/lib.rs:984-1000 | a failed claim ends the task as RUNTIME_LOST unless a flag makes it CANCELLED |
| TaskStore.Store.RequestStopInternal | crates/zcode-agent-store/src/lib.rs:1014-1076 | flags, phase, settled input and ledger row of a stop or close |
| TaskStore.Store.RequeueForResume | crates/zcode-agent-store/src/lib.rs:1078-1179 | resume resets the row, drops the result, queues the message, logs it; every refusal changes nothing |
| TaskStore.Store.ReapTask | crates/zcode-agent-store/src/lib.rs:1181-1197 | reaping is for terminal tasks and keeps the first time |
| TaskStore.Store.RestoreTerminal | crates/zcode-agent-store/src/lib.rs:1199-1268 | the row and the result are rewritten from the copy whatever the phase is |
| TaskStore.Store.CheckSubmission | crates/zcode-agent-store/src/lib.rs:1294-1370 | the checks of a result in their order, each with its error |
| TaskStore.Store.StoreTaskResult | crates/zcode-agent-store/src/lib.rs:1294-1405 | a result is stored together with the end of its task and its artifact, or nothing changes |
| TaskStore.Store.QueueMessage | crates/zcode-agent-store/src/lib.rs:1412-1450 | a message is queued once per id while the task accepts input |
| TaskStore.Store.ClaimNextMessage | crates/zcode-agent-store/src/lib.rs:1457-1484 | the oldest queued message of a running unflagged task becomes SENDING |
| TaskStore.Store.CompleteDelivery | crates/zcode-agent-store/src/lib.rs:1486-1497 | only a SENDING message is delivered |
| TaskStore.Store.FailDelivery | crates/zcode-agent-store/src/lib.rs:1499-1506 | only an open message fails |
| TaskStore.Store.InsertPendingRequest | crates/zcode-agent-store/src/lib.rs:1508-1572 | a request is inserted once per id and correlation and moves a running task to WAITING_INPUT |
| TaskStore.Store.CompletionBlockers | crates/zcode-agent-store/src/lib.rs:1612-1615 | whether open requests and open messages exist |
| TaskStore.Store.ClaimPendingResponse | crates/zcode-agent-store/src/lib.rs:1617-1653 | who may answer a request, and what everyone else is told |
| TaskStore.Store.CompletePendingResponse | crates/zcode-agent-store/src/lib.rs:1655-1692 | the last answered request puts the task back to RUNNING |
| TaskStore.Store.ReleasePendingResponse | crates/zcode-agent-store/src/lib.rs:1694-1701 | a claimed answer goes back to PENDING |
| TaskStore.Store.EndTask | crates/zcode-agent-store/src/lib.rs:2194-2252 | ending a task: effective outcome, settled input, ledger row |
| TaskStore.Store.SettleTerminalCommands | crates/zcode-agent-store/src/lib.rs:2254-2271 | open messages of the task fail and its open requests go |
| TaskStore.Store.ListTaskPage | crates/zcode-agent-store/src/lib.rs:716-767 | the page of a cursor as cut from the whole listing, found by a scan that stops one row after the limit |
| TaskStore.Store.Perform | crates/zcode-agent-store/src/lib.rs:591-1701 | every operation takes the tables one step and keeps the invariant across them |
| TaskStore.FindFirstRow | crates/zcode-agent-store/src/lib.rs:785-800 | the loop finds the least (created_at, rowid) row |
| TaskStore.FindRecorded | crates/zcode-agent-store/src/lib.rs:875-905 | the loop finds the first row with the write's source sequence |
| StoreSpec.ResolveBudget | crates/zcode-agent-store/src/lib.rs:1761-1806 | an accepted budget allows at least 512 result bytes and at most the cap |
| StoreSpec.FirstRow | crates/zcode-agent-store/src/lib.rs:785-800 | ORDER BY created_at,rowid LIMIT 1: nothing in the set comes before the row found |
| StoreTheorems.StepKeeps | crates/zcode-agent-store/src/lib.rs:591-1701 | every operation keeps the invariant across all tables |
| StoreTheorems.RunKeeps | crates/zcode-agent-store/src/lib.rs:591-1701 | so does every history |
| StoreTheorems.StepFollows | crates/zcode-agent-store/src/lib.rs:591-1701 | what no step undoes: flags, outcomes, reaping, closed messages, stored results, logs; who may change the epoch and the event number |
| StoreHistory.CommandsSettled | crates/zcode-agent-store/src/lib.rs:1014-1076 | reachable: open request iff WAITING_INPUT; a flag means CANCELLING or TERMINAL; flagged and terminal tasks have no open message |
| StoreHistory.CancellationWins | crates/zcode-agent-store/src/lib.rs:2206-2211 | once flagged, every way to end the task before the next resume ends it CANCELLED |
| StoreHistory.StopThenCancelled | crates/zcode-agent-store/src/lib.rs:1014-1076 | the same from the moment of the stop or close request |
| StoreHistory.ResultStays | crates/zcode-agent-store/src/lib.rs:1294-1405 | a stored result stays with its TERMINAL task, same outcome, within the budget, until a resume |
| StoreHistory.Resubmission | crates/zcode-agent-store/src/lib.rs:1310-1325 | submitting again changes nothing and succeeds iff the bytes are the stored ones |
| StoreHistory.RunPersists | crates/zcode-agent-store/src/lib.rs:1014-1405 | identity, flags, closing, reaping, terminal outcome and result persist over any history without a resume |
| StoreHistory.AdmissionLimit | crates/zcode-agent-store/src/lib.rs:769-829 | with a constant claim limit no repository has more admitted tasks than that |
| StoreHistory.StopWidensOwned | crates/zcode-agent-store/src/lib.rs:785-800 | stopping a task that was never claimed adds one to the claim query's own count |
| ClaimCount.CountExceedsAnyLimit | crates/zcode-agent-store/src/lib.rs:785-800 | for every claim limit some history within it, from the empty store, ends with more tasks in that count than the limit |
| StoreHistory.ClaimTakesOldest | crates/zcode-agent-store/src/lib.rs:769-829 | the claimed task is eligible and older than every other eligible one |
| StoreHistory.ClaimFindsEligible | crates/zcode-agent-store/src/lib.rs:769-829 | nothing is claimed iff nothing is eligible |
| StoreHistory.OneDirectTask | crates/zcode-agent-store/src/lib.rs:615-645 | at most one nonterminal direct task per workspace in every reachable state |
| LedgerPaths.LedgerReplays | crates/zcode-agent-store/src/lib.rs:2273-2296 | a task's ledger rows form a path to its phase and outcome, epochs never decrease, the epoch counts the claims |
| LedgerPaths.FailureCodeReadsLikeClaim | crates/zcode-agent-store/src/lib.rs:2240-2251 | counting reason codes alone miscounts claims |
| EventLog.NumberedDensely | crates/zcode-agent-store/src/lib.rs:905-940 | after any history of well-named writes a task's last `last_event_seq` rows are numbered 1, 2, 3 and so on, and its fresh runtime has no other rows |
| EventLog.LastRowsAreWritten | crates/zcode-agent-store/src/lib.rs:905-940 | after any history those rows are the ones its accepted writes added since creation or the last resume, in order |
| EventLog.WritesAreNumbered | crates/zcode-agent-store/src/lib.rs:905-940 | so the writes accepted since creation or the last resume are numbered 1, 2, 3 and so on |
| EventLog.FreshWriteNeverCollides | crates/zcode-agentd/src/lib.rs:3975 | after any history of well-named writes, with no resume waiting for its claim, a new write by the current runtime gets the next number and never hits the primary key |
| EventLog.CollidesIffOldRow | crates/zcode-agent-store/src/lib.rs:901-940 | after any history of well-named writes a new write of the current epoch hits the primary key iff its runtime has a row from before the last reset with the next number |
| EventLog.LateWriteCollides | crates/zcode-agent-store/src/lib.rs:1149-1157 | directly after a resume a new write of the current epoch fails on the primary key if its runtime has a row numbered 1 |
| EventLog.AppendIsIdempotent | crates/zcode-agent-store/src/lib.rs:875-905 | a write accepted once is answered with the same number ever after and changes nothing |
| EventLog.OldEpochsAreFenced | crates/zcode-agent-store/src/lib.rs:901-915 | after a newer claim every new write of an older epoch is refused |
| Delivery.AtMostOnce | crates/zcode-agent-store/src/lib.rs:1457-1484 | over any history no message is claimed twice |
| Delivery.FirstInFirstOut | crates/zcode-agent-store/src/lib.rs:1457-1484 | with a non-decreasing clock messages are claimed in strictly increasing (created_at, rowid) |
| Delivery.FinalMessages | crates/zcode-agent-store/src/lib.rs:1486-1506 | DELIVERED and FAILED are final |
| Paging.DescendingExact | crates/zcode-agent-store/src/lib.rs:733-760 | a listing is exactly the matching rows, strictly decreasing |
| Paging.FollowingCursorsIsComplete | crates/zcode-agent-store/src/lib.rs:716-767 | following cursors lists what one listing would have shown at the first page, whatever happens between pages, and ends |
| Paging.EveryTaskListedOnce | crates/zcode-agent-store/src/lib.rs:716-767 | every task in scope at the start is listed exactly once |
| Paging.CursorRoundTrip | crates/zcode-agentd/src/rpc.rs:1038-1049 | the text of a cursor is read back as itself; zero and overflow are refused |
| Rollback.RestorePutsBack | crates/zcode-agent-store/src/lib.rs:1236-1265 | restoring puts back the same stored result, digest and retention included, and the columns of the copy |
| Rollback.RestoreKeepsPhaseIff | crates/zcode-agent-store/src/lib.rs:1199-1233 | afterwards the ledger has the row's phase iff the task was TERMINAL before |
| Rollback.RestoreSettlesIff | crates/zcode-agent-store/src/lib.rs:1199-1233 | afterwards the task is settled iff it had no open input before |
| Rollback.RestoreFromQueuedStrandsMessage | crates/zcode-agentd/src/lib.rs:5254-5258 | restoring right after the resume strands its message on a TERMINAL task |
| RuntimeLifecycle.Lifecycle.RequestStop | crates/zcode-agentd/src/lib.rs:2566-2573 | only a live runtime takes the stop and its turn |
| RuntimeLifecycle.Lifecycle.AcknowledgeBoundary | crates/zcode-agentd/src/lib.rs:2575-2591 | when a boundary acknowledges the stop |
| RuntimeLifecycle.Lifecycle.ForceTerminate | crates/zcode-agentd/src/lib.rs:2592-2601 | force once, and not after the end |
| RuntimeLifecycle.Lifecycle.AdmitEvent | crates/zcode-agentd/src/lib.rs:2619-2629 | events are admitted only while live; the others are counted up to the cap |
| RuntimeLifecycle.Lifecycle.BeginNaturalCompletion | crates/zcode-agentd/src/lib.rs:2812-2827 | Bypass, Deferred or Ready, and the end with Ready |
| RuntimeLifecycle.PhaseOnlyAdvances | crates/zcode-agentd/src/lib.rs:2566-2617 | the phase never moves back, closed ingress stays closed |
| RuntimeLifecycle.ForcedAtMostOnce | crates/zcode-agentd/src/lib.rs:2592-2601 | at most one force termination, none unless it happened |
| RuntimeLifecycle.LateEventsCounted | crates/zcode-agentd/src/lib.rs:2619-2629 | the diagnostic is the number of refused events up to 64 |
| RuntimeLifecycle.BoundaryBelongsToStoppedTurn | crates/zcode-agentd/src/lib.rs:2575-2591 | an acknowledged stop names the boundary of the turn it stopped |
| Publisher.Publisher.EmitInbound | crates/zcode-agentd/src/lib.rs:1017-1033 | an inbound event is recorded unless the terminal is out; an exit publishes only while running |
| Publisher.Publisher.BeginStop | crates/zcode-agentd/src/lib.rs:1035-1045 | the caller stops, or is given the terminal |
| Publisher.Publisher.PublishOnce | crates/zcode-agentd/src/lib.rs:1047-1054 | the first terminal is published, later callers get it |
| Publisher.OneAgreedTerminal | crates/zcode-agentd/src/lib.rs:1017-1095 | every interleaving: records numbered 1, 2, 3 up to saturation, at most one terminal record and nothing after it, every caller given the same terminal |
| Publisher.TerminalIsFinal | crates/zcode-agentd/src/lib.rs:1047-1054 | after the terminal record the log never changes |
| Publisher.StoppingKeepsThePumpOut | crates/zcode-agentd/src/lib.rs:1028-1032 | a stop that has begun leaves the terminal to the stopping caller |
| Fence.ReadyFencesInput | crates/zcode-agentd/src/lib.rs:2812-2827 | every interleaving without stray insertions: after Ready the task has no open message or request, whatever runs afterwards |
| Fence.CompletionIsNotBlocked | crates/zcode-agent-store/src/lib.rs:1346-1353 | so open input never refuses the COMPLETED result: it is stored iff its size and artifact are acceptable |
| Fence.StaysClosed | crates/zcode-agent-store/src/lib.rs:1412-1701 | a task without open input gets none from any store operation but inserting a message or request for it and resuming it |
| Fence.OnlyStraysBreakFence | crates/zcode-agentd/src/lib.rs:5266-5287 | from every fenced world a move breaks the fence iff it is a lockless insertion, accepted as new, after the monitor found no blockers |
| Fence.StrayInsertionStrands | crates/zcode-agentd/src/lib.rs:5266-5287 | each of them leaves an admitted completion with an open message, at once or with the monitor's verdict |
| Fence.StrayRunExists | crates/zcode-agentd/src/lib.rs:5266-5287 | such a run exists from every idle start |
| Convergence.PersistenceConverges | crates/zcode-agentd/src/lib.rs:4323-4356 | from any owned task, whatever runs between the store calls, other finishers of the task included: TERMINAL with a stored result of the same outcome, CANCELLED if flagged when it was stored and otherwise the requested result, RESULT_INVALID or another finisher's; the reply is a conflict iff the first submission failed, nothing was stored at the check (4333) and another result was stored before RESULT_INVALID or, over a flag, before the cancelled fallback |
| Convergence.QuietIsNotRefused | crates/zcode-agentd/src/lib.rs:4333-4341 | so without another submission between the check and the end of the fallback the reply is no conflict |
| Convergence.ConflictRunExists | crates/zcode-agentd/src/lib.rs:4323-4356 | from every unflagged owned task a run with that conflict: a result too long for the preflight, then FAILED stored by another finisher |
| Convergence.PersistsAlone | crates/zcode-agentd/src/lib.rs:4323-4356 | without another finisher the reply is TERMINAL and the outcome is CANCELLED if flagged when it was stored, otherwise the requested one or RESULT_INVALID |
| Convergence.SchedulerPersistsAlone | crates/zcode-agentd/src/lib.rs:3156-3184 | the same with the two fallback results of the scheduler |
| StoreResults.CommitPoint | crates/zcode-agent-store/src/lib.rs:1294-1405 | over every history, resumes included, a result that is there was stored by one submission of it, with CANCELLED if a flag was set at that moment, and has been there ever since |
| Convergence.RuntimeEndConverges | crates/zcode-agentd/src/lib.rs:2829-2878 | the end of a runtime converges the same way, through an open sink, a failed one, or one that another finisher has written its terminal to; the reply is a conflict iff the sink failed and the direct attempt is refused |
| Convergence.FinishGeneralAttempts | crates/zcode-agentd/src/lib.rs:2837-2875 | success through the sink means a stored result, so `terminal_written` implies one and a second finisher is told TERMINAL |
| Persistence.SubmitOrCancelStores | crates/zcode-agentd/src/lib.rs:2913-2937 | a submission with cancel precedence that succeeds, or that finds a result, leaves a stored result, whatever runs between its store calls |
| Persistence.InvalidAlwaysStores | crates/zcode-agentd/src/lib.rs:4333-4341 | submitting RESULT_INVALID leaves a stored result in every case; the reply is a conflict iff another result came before it or, over a flag, before the cancelled fallback |
| Persistence.MinimalAccepted | crates/zcode-agentd/src/lib.rs:3156-3184 | a fallback result is accepted for any pending task unless it would overrule a flag |
| Fallbacks.MinimalFits | crates/zcode-agent-store/src/lib.rs:1800-1804 | a minimal result is valid and within 512 canonical bytes |
| Fallbacks.FallbacksAreMinimal | crates/zcode-agentd/src/lib.rs:3156-3184 | both fallbacks are such results |
| Recovery.RecoverStartupTask | crates/zcode-agentd/src/lib.rs:3809-3879 | recovery of one task over the store, step by step as specified |
| Recovery.ReconcileStartup | crates/zcode-agentd/src/lib.rs:3782-3807 | the loop recovers the listed tasks in order and stops at the first failure |
| Recovery.StartupRecoveryTasks | crates/zcode-agent-store/src/lib.rs:1270-1288 | the list is the tasks that need recovery, oldest first |
| Recovery.StoreResultWithCancelPrecedence | crates/zcode-agentd/src/lib.rs:2913-2937 | the code over the store equals the specified submission |
| Recovery.PersistGeneralResult | crates/zcode-agentd/src/lib.rs:2884-2911 | the code over the store equals the specified persistence |
| Recovery.RecovererIsSound | crates/zcode-agentd/src/lib.rs:3809-3879 | recovering one task changes no other row, leaves it TERMINAL, reaped and CANCELLED if flagged when it succeeds, and keeps the invariant |
| Recovery.ReconcileAtStart | crates/zcode-agentd/src/lib.rs:3782-3879 | the loop with the recovery of each task, over the store: success leaves every task QUEUED or TERMINAL and reaped, tasks at rest are untouched, a second run changes nothing, a busy daemon is refused |
| Recovery.ReconciledAtRest | crates/zcode-agentd/src/lib.rs:3782-3807 | after success every task is QUEUED or TERMINAL and reaped, flagged ones CANCELLED |
| Recovery.RecoveryNeverSpreads | crates/zcode-agentd/src/lib.rs:3782-3807 | success or not, tasks at rest are untouched and the unrecovered set never grows |
| Recovery.SecondRunRecoversNothing | crates/zcode-agentd/src/lib.rs:3782-3807 | a second run finds nothing and changes nothing |
| Recovery.ByAgeExact | crates/zcode-agent-store/src/lib.rs:1270-1288 | the list names each task once and misses none |
| RpcFrame.AcceptedResultsFit | crates/zcode-agentd/src/rpc.rs:1231-1265 | a result the preflight accepts fits 128 KiB for any valid request id, digest and later booleans |
| RpcFrame.ResponseSizeExact | crates/zcode-agentd/src/rpc.rs:1231-1265 | the size of a response to the byte, for any view of the task, digest, artifacts and request id, from the preflight size |
| RpcFrame.AlwaysFitsIff | crates/zcode-agentd/src/rpc.rs:1231-1265 | all responses of a reading fit iff the one with the longest id does; with the sized view, the preflight refuses no result without need |
| RpcReads.ResponseFitsIff | crates/zcode-agentd/src/rpc.rs:804-818 | over every history, with row, artifacts and result read at different moments and resumes in between: all responses fit 128 KiB iff the preflight size has room for what the row read and the artifacts shown are longer by |
| RpcReads.TimelineExists | crates/zcode-agentd/src/rpc.rs:804-818 | every read that finds a result is covered: some submission in the history stored it and it stayed until it was read |
| RpcReads.LongerIff | crates/zcode-agentd/src/rpc.rs:1231-1265 | which rows, of this run or an earlier one, are longer than the sized one, by phase, outcome and flags |
| RpcReads.UnresumedResponseFits | crates/zcode-agentd/src/rpc.rs:804-818 | without a resume every response for an accepted result fits, unless the row was read in WAITING_INPUT, torn from the result, and the preflight left no byte; then one does not |
| RpcReads.UnresumedExcess | crates/zcode-agentd/src/rpc.rs:804-818 | without a resume, whenever sizing and reading happen, the row read is longer by one byte in a torn pair and by none otherwise |
| RpcReads.EarlyExcess | crates/zcode-agentd/src/rpc.rs:804-818 | a row read before the end is longer than the sized one by at most one byte, and by one exactly in such a torn pair |
| RpcOverflows.PaddedIsTight | crates/zcode-agentd/src/lib.rs:2939-2964 | every result the preflight accepts can be padded to leave no byte and stays valid |
| RpcOverflows.TornReadExists | crates/zcode-agentd/src/rpc.rs:804-818 | from every unreaped task that waits for input: a run in which an accepted result gets a response too long |
| RpcOverflows.ResumedReadExists | crates/zcode-agentd/src/lib.rs:5222-5240 | the same with a resume between the reads: a BUDGET_EXHAUSTED row of the first run beside the FAILED result of the second |
| Json.EscapeBound | crates/zcode-agentd/src/rpc.rs:1235-1238 | escaping a string takes at most six bytes per byte |
| Json.PutSize | crates/zcode-agentd/src/rpc.rs:1241-1265 | replacing one value changes an object's length by exactly the difference of the values |
| LatestText.LatestTextState.AppendLatestText | crates/zcode-agentd/src/lib.rs:470-490 | the append with its boundary loop equals the specified append |
| LatestText.LatestTextState.TakeTerminalText | crates/zcode-agentd/src/lib.rs:438-448 | what a take gives and leaves |
| LatestText.FindSplit | crates/zcode-agentd/src/lib.rs:482-485 | the loop finds the first character boundary |
| LatestText.StreamingIsOneCut | crates/zcode-agentd/src/lib.rs:470-490 | after any deltas the tail is the longest character-aligned suffix within 8192 bytes, truncated iff the whole is longer, the terminal text exact until it passes its limit |
| LatestText.LongestTailIsLongest | crates/zcode-agentd/src/lib.rs:481-488 | that suffix is within the cap and every longer one is not |
| LatestText.FirstTake | crates/zcode-agentd/src/lib.rs:438-448 | the first take gives the whole text unless blank or too long |
| Activity.PassiveActivityTracker.ObserveAt | crates/zcode-agentd/src/lib.rs:253-311 | observing an event updates samples, order, text and flags as specified |
| Activity.PassiveActivityTracker.Evict | crates/zcode-agentd/src/lib.rs:290-294 | the loop drops the oldest identities down to the cap |
| Activity.OrderListsSamples | crates/zcode-agentd/src/lib.rs:262-294 | after any events the order lists each sample once and is within the cap |
| Activity.DedupeRefinesLog | crates/zcode-agentd/src/lib.rs:262-311 | up to 65,536 identities: each sample is the first session one, else the first telemetry one, and the text is that of first session events |
| Activity.TextCountsOnce | crates/zcode-agentd/src/lib.rs:307-311 | an ideal observer counts the text of an identified session event at most once |
| Activity.TrackerTakesTextOnce | crates/zcode-agentd/src/lib.rs:253-311 | so does the tracker: at the later of two events with the same identity its text stays as it is, up to 65,536 identities |
| Activity.WindowAt | crates/zcode-agentd/src/lib.rs:361-399 | the window counters are a recount of the recent samples |
| Activity.StartedAddsUp | crates/zcode-agentd/src/lib.rs:379-391 | started equals read plus bash plus other |
| RawDiff.RawDiffHasGitlink | crates/zcode-agent-preparation/src/general.rs:1498-1528 | the cursor loop terminates with the specified verdict |
| RawDiff.TakeNulRecord | crates/zcode-agent-preparation/src/general.rs:1530-1536 | the record at the cursor and the cursor behind it |
| RawDiff.VerdictIsExact | crates/zcode-agent-preparation/src/general.rs:1498-1568 | Ok(b) iff the input is the print of valid entries and b says whether one is a gitlink; all else is an error |
| RawDiff.PrintedParses | crates/zcode-agent-preparation/src/general.rs:1498-1568 | printing valid entries and parsing gives them back |
| RawDiff.ParsedPrints | crates/zcode-agent-preparation/src/general.rs:1498-1568 | what parses is the print of valid entries |

## Left out

- SQLite, SQL text, schema creation and migration, JSON decoding and row conversion: a table is a map or sequence, a statement an assignment.
- Opening the store, connection errors and a process that dies inside a transaction: each operation is atomic.
- `owner_epoch` and rowid overflow: both are unbounded here; event sequence, source sequence, claim limit and paging bounds are modelled.
- The test-only `insert_artifact` and read-only queries other than listing, completion blockers and startup recovery.
- Processes, signals, pipes, sockets and condition-variable waits: their outcomes are parameters, and only the order and the locks they impose are kept.
- Timeouts of control calls and of lock waits: a caller may give up at any point, which the histories and moves already allow.
- The finalizer, worktrees and Git beyond the raw-diff parser: a completion and its cleaned flag are arbitrary.
- `invalidate_untransportable_completion` and the compaction after it: they only choose which completion is persisted, and persistence converges for every completion.
- Active tools, model requests and ages in the activity snapshot: they add easy members.
- Launch-document JSON: the direct-workspace bit of a submission is a field of the spec.
- Policy, path confinement, command allowlists, hook provenance, the MCP facade, the command line and the fake runtime.
- Fence.ReadyFencesInput: covers one runtime between two resumes, as a new runtime has a new lifecycle.
- Convergence.PersistenceConverges: nobody resumes the task or ends it without a result between the store calls. The scheduler ends a task without a result only where it fails a claim (crates/zcode-agentd/src/lib.rs:3919 and 3940), before that claim has a finisher; with a resume the trace starts over.
- RpcReads.ResponseFitsIff: its histories have no `restore_terminal_after_resume_failure`; that call keeps a task's id and budget, so `RpcFrame.AlwaysFitsIff` still decides each response.
