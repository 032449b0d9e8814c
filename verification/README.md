# OSVA durable execution, verified

A Dafny model of the parts of OSVA that have to be right when processes crash, clients retry and
callers race, with machine-checked proofs of what they guarantee. The project file for
`dafny verify` is `dfyconfig.toml`.

## What is modelled

**Durable execution of a declarative run.** A run asks a model, runs the tool calls the model asks
for behind a write-ahead journal, and writes a checkpoint after every step.

- `AgentSemantics` defines the undisturbed run as a function of the model, tool and context oracles.
- `OperationJournal` and `CheckpointLog` are the two durable stores, as functions and as classes.
- `DurableMachine` is one attempt as a state machine of atomic store effects, with crashes and
  restarts from the latest checkpoint. A crash drops the local variables and keeps the stores. Every
  way an attempt stops without an answer (cancellation, a rejected checkpoint, a throwing model call)
  counts as a crash.
- `DeclarativeRunLoop` is the loop itself, with loops, mutable fields and nested calls. It is proved to
  do exactly what the machine does, tick by tick. Its `fuel` is where the process is cut off; it is not
  a bound on the claims, which hold for every value of it.
- `CallAdmission`, `JournalDecisions` and `Checkpointing` pin these definitions to the configuration, the
  journal's fields and the checkpoint's fields: which calls reach a tool and why a run stops, what the
  journal does to a call and a reply to the journal, what a checkpoint holds and a restart restores.
- `CrashRecovery` relates machine and undisturbed run by a stuttering refinement and concludes that a
  crashed and resumed run ends like the undisturbed one or is blocked. Restarts may follow a crash
  anywhere, a refused checkpoint, or a failed result whose report was lost; only a run that returned an
  output is not restarted. `RecoveryGate` says exactly when a resumed run is blocked and when it throws.
  `RecoveredExecution` puts the loop itself through any number of attempts. `SideEffects` is about how
  often a tool is invoked; there the model and the tools may behave differently at every step.
  `ConsistentCut` is about what is inside a checkpoint as it was committed. `LostTracking` is about an
  attempt that goes on when its checkpoints are refused, `AfterCompletion` about restarts after the
  completion checkpoint.
- `CheckpointReadBack` is about what a checkpoint reads back as. A store that copies (the Postgres
  repository) gives back what was committed. The in-memory repository keeps the state object it is
  handed, whose message array the loop goes on pushing to; a restart finds that out by the digest and
  refuses. `StoredRecovery` and `StoredSideEffects` carry the theorems over to either store,
  `CheckpointRaces` is about commits that overlap. `Witnesses` and `StoreWitnesses` hold concrete failing
  histories.

**Runs and attempts.** `RunStore` holds the lifecycle tables and every store operation as a function,
`RunRepository` the class that updates its maps in place (including the attempt that is put back when
the second half of a paired transition throws), `RunCoherence` which operations keep runs and attempts
coherent and exactly when, `RunHistory` the theorems over whole histories and about fencing,
`RunLifecycle` which statuses follow which and when each call succeeds with what effect, `Leases` how long
an owner keeps its attempt, `RunWitnesses` concrete histories in which a guarantee fails for want of its
condition.

**Independent protocols.** `EnqueueClaim` (the claim script, its retry loop, and any number of racing
callers), `DockerStream` (incremental demultiplexer against a one-shot parser), `RateLimiter`,
`Schedules`, `ScheduleDecisions`, `ScheduleHistory` and `ScheduleStarvation`, `Pagination`,
`ArtifactStreams`, `WorkflowEvents`, `WorkflowWaits` and `WaitResolutions`, `UsageAggregation`.

### Conventions

- The results in `CrashRecovery`, `RecoveryGate`, `SideEffects`, `ConsistentCut`, `LostTracking` and
  `AfterCompletion` read checkpoints as they were committed, which is what a store that copies does
  (`StoredRecovery.CopyingIsPlain`).
- The SHA-256 digest of a checkpoint is a parameter, taken as free of collisions where a referencing store
  depends on it.
- Composite string keys are tuples. Instants are integers (milliseconds). JSON values, fingerprints,
  schema checks and the cron calculation are uninterpreted: parameters or oracles.
- `null` and `false` answers of the run repository are `Err(LifecycleConflict)`.
- The store key of an operation is its run id and call id, so the recovery theorems ask that call ids
  identify calls within a run (`IdsIdentifyCalls`).
- A claim key counts as present strictly before its expiry instant.
- Sorting is written as insertion in place of the library sort; ids are ordered by their characters,
  in `Schedules` by their rank in the order the source sorts by.

### Where a property turned out to need a condition

- A checkpoint of the in-memory repository reads back as committed if and only if its attempt has pushed
  nothing since (`CheckpointReadBack.RowReadsBackIffNothingPushed`), so that the first checkpoint of a run
  with a tool call is soon no consistent cut (`StoreWitnesses.FirstCheckpointIsAltered`). A restart is
  refused exactly when the latest checkpoint was altered that way; then a run that passes the eligibility
  check is never completed (`StoreWitnesses.AlteredCheckpointEndsTheRun` is such a history).
- A key keeps its first checkpoint if and only if no commit of it that looked before is still to write
  (`CheckpointRaces.RecordCanChangeIffRacing`).
- A restart after the completion checkpoint asks the model once more: it repeats the answer and counts
  one more model call, or fails with the budget code; over any number of restarts the count goes up by one
  for each new completion until the budget (`AfterCompletion.RestartsAfterCompletion`).
- An attempt that is no longer tracked still invokes one call of a live turn, or the rest of a restored
  batch, before it is refused (`LostTracking.UntrackedAttemptInvokesNoMore`).
- An attempt returns if and only if the store accepts every state it commits
  (`RecoveryGate.ReturnsIffCommitsAccepted`); the validator refuses states over its size limit.
- A key marked FAILED is invoked again (`Witnesses.FailedWriteIsInvokedTwice` is such a history); with
  the recovery check in front of every restart writes still happen at most once
  (`SideEffects.GatedWritesHappenAtMostOnce`).
- `transitionRunAndAttempt` checks that the submitted attempt names the run, not that the stored one
  does, and does not compare the two statuses; coherence is kept if and only if both fit
  (`RunWitnesses.UnmatchedPairsBreakCoherence`).
- `scheduleRecoveryRunAttempt` does not check that the new attempt id is unused; the exact condition for
  coherence is in `RunCoherence.ScheduleKeepsCoherenceIffSpare`. The fence of an expired lease, and the
  one ending of an attempt, last until its id is reused and no longer
  (`RunHistory.StaysSpentIffNotReused`, `RunWitnesses.ReusedIdBreaksFence`).
- Writes are invoked at most once even without the recovery check as long as tools answer in canonical JSON
  (`JournalDecisions.CanonicalWritesHappenAtMostOnce`); an answer that is not is what marks a write FAILED.
- A throttled request in the last half second of a window is told to wait for a whole window, because the
  store reports no second any more (`RateLimiter.ValkeyFixedWindowRateLimiter.Consume`).
- At most one caller reports "enqueued" if and only if adds settle and claim deletions arrive within the
  grace period (`EnqueueClaim.SafeIffWithinGrace`).
- Any interval of the window's length sees at most `2 * limit - 1` allowed requests, and that many can
  occur.
- A schedule written back as it was before a tick is never fired again
  (`ScheduleHistory.WritingBackAfterATickFreezes`, `ScheduleHistory.FrozenScheduleNeverFires`). As many such
  schedules as a tick takes starve every schedule after them
  (`ScheduleStarvation.ReachedIffFewFrozenAhead`).
- Pages are complete if and only if the limit is positive or nothing matches.

## Model

| member | source | states |
|---|---|---|
| AgentSemantics.IdealIsBounded | adapters/runtime-declarative/src/declarative-run-loop.ts:190-200 | an undisturbed run never exceeds its model and tool budgets |
| CallAdmission.CodeTellsTheReason | adapters/runtime-declarative/src/declarative-run-loop.ts:190-435 | the code of an undisturbed run is, for each code exactly, the first check that failed where it stopped: budgets, gateway, allowed tools, bindings, metadata, input schema, tool reply, answer |
| CallAdmission.OneStep | adapters/runtime-declarative/src/declarative-run-loop.ts:190-224 | an undisturbed run goes on exactly after a turn with tool calls or an admitted call with a canonical answer, and how the transcript and the counters then change |
| CallAdmission.FinalCounts | adapters/runtime-declarative/src/declarative-run-loop.ts:190-435 | at its end the counters include what was still asked or run, and nothing that was refused |
| CallAdmission.OnlyAuthorizedCallsAreInvoked | adapters/runtime-declarative/src/declarative-run-loop.ts:367-435 | over every history the tools receive exactly operations of calls that are allowed, bound, with metadata and accepted arguments, at the bound version, counted within the tool budget |
| CallAdmission.RunInputIsLabelled | adapters/runtime-declarative/src/declarative-run-loop.ts:110-121 | the run input stands under its untrusted label, between the instructions and the retrieved context |
| CallAdmission.NamesAreJoined | adapters/runtime-declarative/src/declarative-run-loop.ts:637-642 | a turn without text names the requested tools in order |
| JournalDecisions.EntryDecides | adapters/runtime-declarative/src/declarative-run-loop.ts:437-524 | what each kind of entry does to an admitted call: used again for exactly the same call, blocked, invoked again or recorded and invoked |
| JournalDecisions.RefusalLeavesNoTrace | adapters/runtime-declarative/src/declarative-run-loop.ts:367-435 | a refused call ends the attempt with its code and changes nothing else |
| JournalDecisions.ErrorIsSettled | packages/contracts/src/run-operation-journal-outcome.ts:41-85 | an error after dispatch leaves a write uncertain, a read uncertain exactly if the transport was ambiguous, a pure operation failed; one before dispatch leaves the entry as it is |
| JournalDecisions.OutputIsSettled | adapters/runtime-declarative/src/declarative-run-loop.ts:584-617 | an answer is committed and shown; one that is not canonical fails the operation |
| JournalDecisions.NothingDecidesWithoutJournal | adapters/runtime-declarative/src/declarative-run-loop.ts:437-546 | without a journal every admitted call is invoked |
| JournalDecisions.NothingIsSettledWithoutJournal | adapters/runtime-declarative/src/declarative-run-loop.ts:547-617 | and no reply touches one |
| JournalDecisions.LostEntryBlocks | adapters/runtime-declarative/src/declarative-run-loop.ts:594-612 | a result without an entry to commit it to blocks the attempt and is not shown |
| JournalDecisions.BlocksUnlessHarmless | packages/contracts/src/run-operation-replay-policy.ts:3-26 | exactly which entries block a recovery, by class and status |
| JournalDecisions.CanonicalWritesHappenAtMostOnce | adapters/runtime-declarative/src/declarative-run-loop.ts:547-606 | if tools answer canonically no write is ever marked FAILED, over any attempts and crashes, so it is invoked at most once even without the recovery check |
| Checkpointing.CheckpointHoldsTheRun | adapters/runtime-declarative/src/declarative-run-loop.ts:123-344 | which four actions write a checkpoint, at which cursor and key, of which state, and how the attempt goes on |
| Checkpointing.CheckpointsCanBeOff | adapters/runtime-declarative/src/declarative-run-loop.ts:123-344 | with checkpointing off the same actions only move on |
| Checkpointing.NothingElseIsWritten | adapters/runtime-declarative/src/declarative-run-loop.ts:145-347 | no other action does |
| Checkpointing.RestartRestores | adapters/runtime-declarative/src/declarative-run-loop.ts:89-143 | a new attempt starts with everything the latest checkpoint holds, or with the prompt |
| Checkpointing.PromptIsBuilt | adapters/runtime-declarative/src/declarative-run-loop.ts:93-121 | the first messages, or the end of the attempt when no context could be retrieved |
| Checkpointing.RestoredCallsComeFirst | adapters/runtime-declarative/src/declarative-run-loop.ts:148-186 | restored calls are run as one batch before the model is asked |
| Checkpointing.ToolIsInvoked | adapters/runtime-declarative/src/declarative-run-loop.ts:534-546 | the call goes to the version it was admitted for, once |
| Checkpointing.ModelIsAsked | adapters/runtime-declarative/src/declarative-run-loop.ts:190-228 | when the model is asked, with which tools offered, and what becomes of its tool calls |
| DurableMachine.TickMakesProgress | adapters/runtime-declarative/src/declarative-run-loop.ts:145-347 | every step of the unbounded loop lowers a well-founded measure, whatever the model answers |
| DurableMachine.AttemptEndsWithinBudgets | adapters/runtime-declarative/src/declarative-run-loop.ts:145-197 | every attempt ends, and neither counter passes its maximum when the restored ones do not |
| DurableMachine.TickStaysWithinBudgets | adapters/runtime-declarative/src/declarative-run-loop.ts:377-389 | no single step passes a budget |
| DurableMachine.TraceIsAHistory | adapters/runtime-declarative/src/declarative-run-loop.ts:145-347 | an execution of the loop is a history of the machine, so every theorem over histories applies to it |
| DurableMachine.EndedTraceIsFinished | adapters/runtime-declarative/src/declarative-run-loop.ts:145-347 | an execution that was not cut short ends where the attempt, left alone, ends |
| DeclarativeRunLoop.DeclarativeRun.RunDeclarativeExecutionLoop | adapters/runtime-declarative/src/declarative-run-loop.ts:145-347 | the loop's whole effect on variables, journal, checkpoints and tools is a trace of machine steps, and it stops only where the machine has stopped or its process is cut off |
| DeclarativeRunLoop.DeclarativeRun.ExecuteToolBatch | adapters/runtime-declarative/src/declarative-run-loop.ts:350-621 | a batch runs its calls in order as machine steps; it ends before the checkpoint or with the failure the machine gives |
| DeclarativeRunLoop.DeclarativeRun.ConsultJournal | adapters/runtime-declarative/src/declarative-run-loop.ts:445-524 | the journal's verdict on an admitted call, and that only a fresh operation is recorded |
| DeclarativeRunLoop.DeclarativeRun.RunTurn | adapters/runtime-declarative/src/declarative-run-loop.ts:190-346 | one model turn with its tool calls and checkpoints, as machine steps |
| DeclarativeRunLoop.DeclarativeRun.MeetCall | adapters/runtime-declarative/src/declarative-run-loop.ts:377-524 | budget, authorization, binding, metadata, input and journal decisions for one call, in order |
| DeclarativeRunLoop.DeclarativeRun.CheckToolCall | adapters/runtime-declarative/src/declarative-run-loop.ts:367-435 | the cascade of checks decides the code as the machine does |
| DeclarativeRunLoop.DeclarativeRun.ReadAnswer | adapters/runtime-declarative/src/declarative-run-loop.ts:302-326 | the final text is parsed, canonical and of the output schema, or which code it fails with |
| DeclarativeRunLoop.DeclarativeRun.SettleReply | adapters/runtime-declarative/src/declarative-run-loop.ts:526-617 | what a tool reply does to journal and transcript, including the failure dispositions |
| DeclarativeRunLoop.DeclarativeRun.CommitCheckpoint | adapters/runtime-declarative/src/declarative-checkpoint.ts:63-101 | a checkpoint is committed or the attempt throws; the sequence counts either way |
| DeclarativeRunLoop.ExecuteAttempt | adapters/runtime-declarative/src/declarative-run-loop.ts:85-348 | an attempt from its restore record on leaves all stores as the machine does: at its end state, or, when cut off, after exactly that many machine steps |
| RecoveredExecution.ExecuteRun | packages/orchestration/src/execute-run-attempt.ts:595-663 | the loop over any number of attempts on either store, each from the latest checkpoint as it reads back, each possibly refused or cut off: all of it is a history of the machine on that store, and a result is blocked or the undisturbed run's, transcript and counters included |
| RecoveredExecution.MakeAttempt | packages/orchestration/src/execute-run-attempt.ts:625-663 | one attempt leaves the stores as one restart of the machine and its steps do: a refused one throws with nothing done, a started one begins at the restored state |
| RecoveredExecution.BuildCheckpointBinding | packages/domain/src/run-checkpoint-validation.ts:108-126 | the restore record is the latest checkpoint as it reads back, refused exactly when its schema or its digest is wrong |
| RecoveredExecution.AttemptKeepsBetween | packages/orchestration/src/execute-run-attempt.ts:625-663 | whatever becomes of one attempt, refused ones included, it prolongs the history and leaves the ids of later attempts unused |
| CheckpointReadBack.RowReadsBackIffNothingPushed | adapters/memory/src/memory-run-checkpoint-repository.ts:91 | over every history, restarts and refusals included, a row reads back as committed always from a copying store, and from a referencing one if and only if its attempt has pushed nothing since |
| CheckpointReadBack.RecordsOnlyGrow | adapters/runtime-declarative/src/declarative-checkpoint.ts:50-57 | what a key gives back changes in its messages only, by turns and tool results at their end, and exactly when something is pushed |
| CheckpointReadBack.RestartIsRefusedIffPushed | packages/orchestration/src/execute-run-attempt.ts:656-662 | a restart is refused if and only if the store keeps references and the latest checkpoint's attempt pushed after it; otherwise it starts from exactly the state that was committed |
| CheckpointReadBack.RefusalLeavesTheStores | packages/orchestration/src/execute-run-attempt.ts:656-662 | a refused attempt has done nothing |
| CheckpointReadBack.TickPushes | adapters/runtime-declarative/src/declarative-run-loop.ts:222-617 | once an attempt has its first messages, a step only pushes turns and tool results to them |
| StoredRecovery.CopyingIsPlain | packages/db/src/repositories/postgres-run-checkpoint-repository.ts:35-120 | on a store that copies, histories and states are exactly those of the plain machine: no restart is ever refused |
| StoredRecovery.StoredRunEqualsUndisturbedRun | adapters/runtime-declarative/src/declarative-run-loop.ts:89-347 | crash and resume equivalence on either store, through refused restarts |
| StoredRecovery.ResumeOnStore | packages/orchestration/src/execute-run-attempt.ts:625-663 | on either store, a resumed attempt returns if and only if the latest checkpoint is unaltered and its own checkpoints are accepted; it is blocked if and only if an operation is unsettled, and else ends like the undisturbed run |
| StoredRecovery.EligibleRecoveryOnStore | packages/domain/src/run-recovery-eligibility.ts:73-101 | a recovery that passes the eligibility check completes the run or throws at a refused checkpoint, unless the latest checkpoint is altered: then it and every later one is refused |
| StoredRecovery.CorruptForever | packages/domain/src/run-checkpoint-validation.ts:108-126 | once refused for an altered checkpoint, a run never writes, invokes or returns anything again |
| StoredRecovery.CheckpointReadsBackAsCutIffUnaltered | adapters/memory/src/memory-run-checkpoint-repository.ts:91 | a checkpoint reads back as a consistent cut, by the exact or the looser count, if and only if the store copies or its attempt pushed nothing since |
| StoredSideEffects.AtMostOnceOnStore | adapters/runtime-declarative/src/declarative-run-loop.ts:437-606 | on either store, for any digest and through refused restarts, an operation that is not replay-safe and was never FAILED is invoked at most once, and a write at most once behind the eligibility check |
| StoreWitnesses.FirstCheckpointIsAltered | adapters/runtime-declarative/src/declarative-run-loop.ts:123-224 | three steps into a run with a tool call the first checkpoint reads back as no consistent cut |
| StoreWitnesses.AlteredCheckpointEndsTheRun | adapters/runtime-declarative/src/declarative-run-loop.ts:608-617 | a history whose run passes the eligibility check, with its tool call committed, and is refused at every recovery |
| CheckpointRaces.UninterruptedCommit | adapters/memory/src/memory-run-checkpoint-repository.ts:42-103 | the two halves of a commit, with nothing in between, are the whole commit |
| CheckpointRaces.RacesKeepNumbering | adapters/memory/src/memory-run-checkpoint-repository.ts:49-97 | however commits overlap, sequences stay 1..n and records are only appended |
| CheckpointRaces.StepIsAppendOrQuiet | adapters/memory/src/memory-run-checkpoint-repository.ts:58-66 | a record is appended only by a commit whose owner and generation are tracked at that moment |
| CheckpointRaces.KeyKeepsItsRecordIffNoOtherWrite | adapters/memory/src/memory-run-checkpoint-repository.ts:49-101 | over any overlap a key gives the same record if and only if no second commit of it wrote |
| CheckpointRaces.RecordCanChangeIffRacing | adapters/memory/src/memory-run-checkpoint-repository.ts:49-101 | and that can still happen if and only if a commit that found no record is still in flight |
| CrashRecovery.TickSimulates | adapters/runtime-declarative/src/declarative-run-loop.ts:145-347 | each step of an attempt stutters or performs one step of the undisturbed run, unless it is blocked or throws |
| CrashRecovery.TickKeepsSound | adapters/runtime-declarative/src/declarative-run-loop.ts:145-347 | every step keeps the recovery invariant over journal, checkpoints and local variables |
| CrashRecovery.RestartKeepsSound | adapters/runtime-declarative/src/declarative-run-loop.ts:85-143 | so does a restart from the latest checkpoint under a new attempt id |
| CrashRecovery.AcceptedCommitAppends | adapters/runtime-declarative/src/declarative-run-loop.ts:123-343 | the loop's own checkpoint keys never collide, so every accepted commit appends |
| CrashRecovery.CrashedRunEqualsUndisturbedRun | adapters/runtime-declarative/src/declarative-run-loop.ts:89-347 | for any crash points before an output is returned, a run that returns is blocked or ends with the undisturbed run's messages, counters and answer |
| RecoveryGate.ResumeIsBlockedExactlyWhenUnsettled | adapters/runtime-declarative/src/declarative-run-loop.ts:445-505 | a resumed run that returns is blocked if and only if an operation of the run was uncertain, or pending and not replay-safe; otherwise it ends like the undisturbed run; it returns if and only if its checkpoints are accepted |
| RecoveryGate.ReturnsIffCommitsAccepted | packages/domain/src/run-checkpoint-validation.ts:51-53 | a tracked attempt that has started returns if and only if the validator accepts every state it commits, and throws otherwise (whether it starts is in `StoredRecovery.ResumeOnStore`) |
| RecoveryGate.FinishDecides | adapters/runtime-declarative/src/declarative-run-loop.ts:445-505 | the same decision from any point of an attempt, for any validator |
| RecoveryGate.EligibleRecoveryCompletes | packages/domain/src/run-recovery-eligibility.ts:73-101 | on a store that copies, a recovery attempt that passes the checkpoint and journal checks completes the run as if nothing had happened, or throws at a refused checkpoint |
| AfterCompletion.RestartsAfterCompletion | adapters/runtime-declarative/src/declarative-run-loop.ts:190-346 | over any number of restarts and crashes after the completion checkpoint no tool is invoked, each further completion counts one model call more up to the budget, and a result is the same output with the same transcript or the budget code |
| AfterCompletion.NextRestartEnds | adapters/runtime-declarative/src/declarative-run-loop.ts:190-346 | and an attempt that is then left alone ends with one call more, the budget code or a refused checkpoint |
| LostTracking.UntrackedAttemptInvokesNoMore | adapters/runtime-declarative/src/declarative-run-loop.ts:150-300 | an untracked attempt writes no checkpoint, returns no output, and invokes nothing before a model checkpoint, at most one call of a live turn, and at most the rest of a restored batch |
| LostTracking.ClearedAttemptInvokesNoMore | adapters/memory/src/memory-run-checkpoint-repository.ts:38-40 | so whenever tracking is taken away in any history |
| RecoveryGate.RestartAfterCompletion | adapters/runtime-declarative/src/declarative-run-loop.ts:328-346 | how an attempt restarted after the completion checkpoint ends: same output and transcript with one more model call, the budget code, or a refused second completion |
| SideEffects.AtMostOnce | adapters/runtime-declarative/src/declarative-run-loop.ts:437-606 | over any attempts and crashes, a call that is not replay-safe and was never marked FAILED is invoked at most once |
| SideEffects.CommittedIsNeverInvokedAgain | adapters/runtime-declarative/src/declarative-run-loop.ts:451-469 | a committed operation keeps its journal entry and is never invoked again |
| SideEffects.GatedWritesHappenAtMostOnce | packages/domain/src/run-recovery-eligibility.ts:86-99 | with the recovery check before every restart, writes happen at most once even after FAILED |
| SideEffects.FailedIsInvokedAgain | adapters/memory/src/memory-run-operation-journal-repository.ts:24-28 | without it, an attempt that meets a FAILED operation invokes it |
| Witnesses.FailedWriteIsInvokedTwice | adapters/runtime-declarative/src/declarative-run-loop.ts:567-582 | a history from the first attempt on in which a write is marked FAILED and invoked twice |
| ConsistentCut.EveryCheckpointIsAConsistentCut | adapters/runtime-declarative/src/declarative-run-loop.ts:123-344 | as committed, and so as a store that copies reads it back: counters match the transcript, with one more model call in the completion checkpoint and in no other, and the last turn's tool messages followed by the pending calls are that turn's calls in order |
| ConsistentCut.HistoryKeepsCut | adapters/runtime-declarative/src/declarative-run-loop.ts:608-617 | the same of the live transcript, at every point of a history |
| OperationJournal.MemoryRunOperationJournalRepository.RecordPending | adapters/memory/src/memory-run-operation-journal-repository.ts:21-48 | an existing entry is returned as it is, otherwise a PENDING one is stored |
| OperationJournal.MemoryRunOperationJournalRepository.CommitResult | adapters/memory/src/memory-run-operation-journal-repository.ts:50-66 | an existing entry becomes COMMITTED with the result, an absent one is reported |
| OperationJournal.MemoryRunOperationJournalRepository.FindBlockingOperationsForRun | adapters/memory/src/memory-run-operation-journal-repository.ts:110-116 | exactly the run's entries that are not replay-safe |
| CheckpointLog.MemoryRunCheckpointRepository.Commit | adapters/memory/src/memory-run-checkpoint-repository.ts:42-103 | state, duplicate and fence checks in order; an accepted command appends one numbered record, with the state as it is then |
| CheckpointLog.MemoryRunCheckpointRepository.FindLatestByRun | adapters/memory/src/memory-run-checkpoint-repository.ts:105-113 | the record with the greatest sequence of the run |
| CheckpointLog.CommitIsDecided | adapters/memory/src/memory-run-checkpoint-repository.ts:42-103 | which of the four outcomes a commit has, and the exact record an accepted one adds after the run's others |
| CheckpointLog.LatestIsGreatest | adapters/memory/src/memory-run-checkpoint-repository.ts:105-113 | the latest record is one of the run's in its workspace that none exceeds; there is none exactly if the run has none |
| CheckpointLog.TrackingIsByAttempt | adapters/memory/src/memory-run-checkpoint-repository.ts:28-40 | tracking and clearing touch one attempt and no record |
| CheckpointLog.HistoryIsNumbered | adapters/memory/src/memory-run-checkpoint-repository.ts:70-103 | over every history the sequences of a run are 1..n |
| CheckpointLog.LatestIsLastAppend | adapters/memory/src/memory-run-checkpoint-repository.ts:105-113 | the latest record is the last append, and other runs are not affected |
| CheckpointLog.RetryReturnsFirstRecord | adapters/memory/src/memory-run-checkpoint-repository.ts:49-56 | a repeated idempotency key gets the record stored first, as committed, and writes nothing |
| CheckpointLog.KeysKeepTheirRecord | adapters/memory/src/memory-run-checkpoint-repository.ts:97-101 | on a store that copies, records and index entries are never changed or dropped |
| CheckpointLog.OnlyTheTrackedOwnerWrites | adapters/memory/src/memory-run-checkpoint-repository.ts:58-66 | a record is written if and only if the state is valid, the key new and owner and generation are the tracked ones |
| RunRepository.MemoryRunRepository.CreateRunWithInitialAttempt | adapters/memory/src/memory-run-repository.ts:46-73 | both entities and the key are stored, or nothing |
| RunRepository.MemoryRunRepository.TransitionRunAndAttempt | adapters/memory/src/memory-run-repository.ts:392-429 | both transitions or none: when either throws, both maps are as before, the attempt put back included |
| RunRepository.MemoryRunRepository.RenewExecutionLease | adapters/memory/src/memory-run-repository.ts:431-456 | the lease moves for the running owner and generation before expiry only |
| RunRepository.MemoryRunRepository.FailExpiredLeasedAttempt | adapters/memory/src/memory-run-repository.ts:458-486 | attempt and running run fail together, after expiry only |
| RunRepository.MemoryRunRepository.InterruptExpiredLeasedAttemptForRecovery | adapters/memory/src/memory-run-repository.ts:488-515 | attempt fails and run is interrupted together, with its recovery metadata |
| RunRepository.MemoryRunRepository.FindLastAttempt | adapters/memory/src/memory-run-repository.ts:532-547 | the scan finds whether an attempt is active and one with the greatest sequence |
| RunRepository.MemoryRunRepository.ScheduleRecoveryRunAttempt | adapters/memory/src/memory-run-repository.ts:523-558 | a recovery attempt follows the last one of an interrupted run without active attempts, or nothing changes |
| RunLifecycle.RunsMoveAlong | packages/domain/src/run-state-machine.ts:10-25 | over every call a run's status moves along the twelve legal pairs only, and its identity stays |
| RunLifecycle.AttemptsMoveAlong | packages/domain/src/run-attempt-state-machine.ts:28-37 | an attempt's along its six pairs, unless its id is given away |
| RunLifecycle.RunMoves | adapters/memory/src/memory-run-repository.ts:355-370 | when an unpaired run transition succeeds, its error otherwise, and its whole effect |
| RunLifecycle.PairMoves | adapters/memory/src/memory-run-repository.ts:392-429 | when a paired transition succeeds, fence, lease and instants included, and its whole effect |
| RunLifecycle.PairFails | adapters/memory/src/memory-run-repository.ts:392-429 | its error otherwise, the first that applies |
| RunLifecycle.ExpiryFailsBoth | adapters/memory/src/memory-run-repository.ts:458-486 | exactly when expiry takes an attempt, and that both it and its run fail |
| RunLifecycle.InterruptionKeepsTheRun | adapters/memory/src/memory-run-repository.ts:488-515 | exactly when interruption takes an attempt, and that its run is left to be recovered |
| RunLifecycle.RecoveryFollowsTheLast | adapters/memory/src/memory-run-repository.ts:523-558 | exactly when a recovery attempt is scheduled, and how it starts |
| RunLifecycle.CreationNeedsNewIds | adapters/memory/src/memory-run-repository.ts:46-73 | exactly when a run is created with its attempt, and the key it takes |
| RunLifecycle.RunMovesItself | packages/domain/src/run-state-machine.ts:10-25 | a run's own transition |
| RunLifecycle.AttemptMoves | packages/domain/src/run-attempt.ts:176-219 | an attempt's own transition: first start kept, end recorded, lease given up at the end |
| Leases.RenewalIsDecided | adapters/memory/src/memory-run-repository.ts:431-456 | who is refused a renewal, and how |
| Leases.RenewedLeaseLasts | adapters/memory/src/memory-run-repository.ts:431-486 | after a renewal at t for ttl, and any history that leaves the attempt alone, exactly its owner renews before t + ttl and nothing expires it, and from t + ttl on nobody renews and it expires |
| Leases.StartedLeaseLasts | adapters/memory/src/memory-run-repository.ts:816-833 | the same for the lease an attempt is started with |
| Leases.HeartbeatsKeepTheAttempt | adapters/memory/src/memory-run-repository.ts:431-486 | an owner whose every renewal comes in time is never expired, whoever else tries |
| RunCoherence.CoherentRunsAreReadable | adapters/memory/src/memory-run-repository.ts:392-558 | coherence means at most one active attempt; QUEUED has a pending, RUNNING a running, INTERRUPTED none |
| RunCoherence.PairKeepsCoherenceIffMatched | adapters/memory/src/memory-run-repository.ts:392-429 | a paired transition keeps coherence if and only if the stored attempt belongs to the run and the two new statuses fit |
| RunCoherence.RunAloneKeepsCoherenceIffNeutral | adapters/memory/src/memory-run-repository.ts:355-370 | an unpaired run transition keeps it if and only if both statuses call for the same attempt |
| RunCoherence.AttemptAloneBreaksCoherence | adapters/memory/src/memory-run-repository.ts:372-390 | an unpaired attempt transition never keeps it |
| RunCoherence.CreateKeepsCoherenceIffFirst | adapters/memory/src/memory-run-repository.ts:46-73 | creation keeps it if and only if the attempt has sequence 1 and fits the run |
| RunCoherence.ScheduleKeepsCoherenceIffSpare | adapters/memory/src/memory-run-repository.ts:523-558 | scheduling keeps it if and only if the new id is unused, or its loss leaves no gap and no active run behind |
| RunHistory.CallKeepsCoherenceIffAdmissible | adapters/memory/src/memory-run-repository.ts:46-558 | a successful call keeps the store coherent if and only if it was admissible, a condition on call and store |
| RunHistory.EveryReachableStoreIsCoherent | adapters/memory/src/memory-run-repository.ts:46-558 | over every history of admissible calls attempt sequences are gap-free and statuses fit |
| RunHistory.ExpiredLeaseFencesForever | adapters/memory/src/memory-run-repository.ts:431-486 | once a lease has run out, no renewal and no owner-carrying paired transition of the attempt succeeds again, unless its id is reused and then not before |
| RunHistory.StaysSpentIffNotReused | adapters/memory/src/memory-run-repository.ts:523-558 | a call ends the fence if and only if it gives the attempt's id to a new attempt |
| RunHistory.OwnerCallFailsOnceSpent | adapters/memory/src/memory-run-repository.ts:790-813 | the fence and the renewal check refuse every such call on an expired or ended attempt |
| RunHistory.AttemptEndsAtMostOnce | adapters/memory/src/memory-run-repository.ts:431-515 | owner completion, expiry failure and interruption of one attempt exclude each other, over any history until its id is reused |
| RunHistory.InterruptionDoesNotWaitForExpiry | adapters/memory/src/memory-run-repository.ts:488-515 | interruption ends a running attempt whose lease is still good, which expiry failure refuses |
| RunWitnesses.UnmatchedPairsBreakCoherence | adapters/memory/src/memory-run-repository.ts:399-417 | from a reachable coherent store a stranger's attempt, and an unfit pair of statuses, are moved successfully and break coherence |
| RunWitnesses.ReusedIdBreaksCoherence | adapters/memory/src/memory-run-repository.ts:548-556 | a recovery attempt that takes another run's attempt id breaks coherence |
| RunWitnesses.ReusedIdBreaksFence | adapters/memory/src/memory-run-repository.ts:548-556 | and lets an owner move an attempt id that had ended |
| EnqueueClaim.Valkey.AcquireEnqueueClaim | adapters/bullmq/src/enqueue-claim.ts:18-35 | the script, command by command, is one atomic step and never answers "retry" |
| EnqueueClaim.Valkey.EnqueueWithTransportClaim | adapters/bullmq/src/enqueue-claim.ts:37-87 | a lone caller enqueues in one round, or in the second when it meets a stale claim; a fresh claim or a job makes it answer "already present" |
| EnqueueClaim.TimelyStepKeepsGuarded | adapters/bullmq/src/enqueue-claim.ts:8-35 | while surviving claimers settle within the grace period, a claim belongs to the one caller that relies on it |
| EnqueueClaim.ClaimAges | adapters/bullmq/src/enqueue-claim.ts:8-35 | a claim without a job is respected for 15000 ms, stolen until 60000 ms, and gone after that |
| EnqueueClaim.ThreeRounds | adapters/bullmq/src/enqueue-claim.ts:49-87 | how each answer of the script sends a caller on, and that it gives up after three rounds |
| EnqueueClaim.CallsAreSettled | adapters/bullmq/src/enqueue-claim.ts:75-83 | what settles a call, and what can still arrive from a dead caller |
| EnqueueClaim.ClaimedIffFree | adapters/bullmq/src/enqueue-claim.ts:18-25 | a claim is given exactly when there is neither a job nor a living claim |
| EnqueueClaim.FifteenSecondsAreSafe | adapters/bullmq/src/enqueue-claim.ts:8-87 | deadlines of 15000 ms are safe, and 15001 ms for either one is not |
| EnqueueClaim.SafeIffWithinGrace | adapters/bullmq/src/enqueue-claim.ts:8-87 | at most one report over all histories within two deadlines, if and only if both are at most the grace period |
| EnqueueClaim.AtMostOneCallEnqueues | adapters/bullmq/src/enqueue-claim.ts:8-87 | for any callers, interleavings, failures and crashes within the deadlines, at most one call reports "enqueued" |
| EnqueueClaim.ReportedJobsExist | adapters/bullmq/src/enqueue-claim.ts:75-79 | a reported job is there and stays, deadlines or not |
| EnqueueClaim.SlowAddEnqueuesTwice | adapters/bullmq/src/enqueue-claim.ts:27-35 | with any longer deadline for adds, an add that takes the whole grace period lets two calls report "enqueued" |
| EnqueueClaim.LateDeleteEnqueuesTwice | adapters/bullmq/src/enqueue-claim.ts:80-83 | with any longer deadline for deletions, so does one that arrives late, because it deletes any claim |
| DockerStream.Demultiplexer.OnData | adapters/runtime-container/src/docker-stream.ts:85-134 | after any chunk the buffers are what the one-shot parser gives for everything received |
| DockerStream.ReadDemuxedDockerStream | adapters/runtime-container/src/docker-stream.ts:73-157 | the result depends only on the concatenation of the chunks |
| DockerStream.ReadBoundedUtf8Stream | adapters/runtime-container/src/docker-stream.ts:25-66 | the first max bytes, their number, and whether more came |
| DockerStream.BoundedBuffer.Take | adapters/runtime-container/src/docker-stream.ts:32-46 | the bounded buffer after any pieces is that of their concatenation |
| DockerStream.FrameOnTheWire | adapters/runtime-container/src/docker-stream.ts:88-132 | one frame byte by byte: eight header bytes, length in the last four, 1 for stdout and 2 for stderr, nothing for other types |
| DockerStream.PartOfAFrameWaits | adapters/runtime-container/src/docker-stream.ts:88-94 | a frame of which a byte is missing is not taken |
| DockerStream.ParsingGoesOn | adapters/runtime-container/src/docker-stream.ts:85-98 | parsing may stop anywhere and go on from the rest |
| DockerStream.ParseEncoded | adapters/runtime-container/src/docker-stream.ts:88-98 | parsing undoes encoding, and an incomplete trailing frame adds nothing |
| DockerStream.EncodeParsed | adapters/runtime-container/src/docker-stream.ts:88-98 | encoding undoes parsing: no byte is lost or made up |
| DockerStream.EncodedStreamOutput | adapters/runtime-container/src/docker-stream.ts:100-132 | each output is the prefix of length min(total, max) of that stream, with its length, and truncated exactly when total exceeds max |
| RateLimiter.ValkeyFixedWindowRateLimiter.Consume | adapters/bullmq/src/valkey-rate-limiter.ts:48-78 | counts the request, allows it up to the limit, and gives as retry delay what is left of the window to the nearest second, or a whole window in its last half second |
| RateLimiter.WindowAllowsAtMostLimit | adapters/bullmq/src/valkey-rate-limiter.ts:5-12 | a window opened by a first count allows at most limit requests |
| RateLimiter.AnyIntervalAllowsLessThanTwice | adapters/bullmq/src/valkey-rate-limiter.ts:5-78 | any interval of the window's length, anywhere in the history, allows at most 2 * limit - 1 |
| RateLimiter.WorstIsMonotone | adapters/bullmq/src/valkey-rate-limiter.ts:5-78 | the history that reaches the bound has a clock that does not run backwards |
| RateLimiter.BoundIsReached | adapters/bullmq/src/valkey-rate-limiter.ts:5-78 | for every limit and window a history reaches that bound |
| Schedules.MemoryScheduleRepository.MaterializeDueOccurrences | adapters/memory/src/memory-schedule-repository.ts:109-175 | the earliest due schedules up to the limit are fired in order, duplicates skipped |
| Schedules.MemoryScheduleRepository.AttachOccurrenceRunId | adapters/memory/src/memory-schedule-repository.ts:224-244 | a run is attached once; the same one again is accepted, another refused |
| Schedules.MemoryScheduleRepository.MarkOccurrenceDispatched | adapters/memory/src/memory-schedule-repository.ts:246-264 | the first dispatch instant stays |
| ScheduleDecisions.TakenIffFewAhead | adapters/memory/src/memory-schedule-repository.ts:114-124 | a tick takes exactly the enabled schedules whose next run has come and that have fewer than limit such schedules before them |
| ScheduleDecisions.UpdateSetsTheNextRun | packages/domain/src/schedule.ts:168-218 | what an update keeps, and when it clears, recomputes or keeps the next run |
| ScheduleDecisions.CreationSetsTheNextRun | packages/domain/src/schedule.ts:110-140 | a new schedule has a next run exactly if it is enabled |
| ScheduleDecisions.DispatchIsRecordedOnce | adapters/memory/src/memory-schedule-repository.ts:246-264 | the first dispatch of an occurrence is recorded |
| ScheduleDecisions.RunsAreAttachedOnce | adapters/memory/src/memory-schedule-repository.ts:224-244 | exactly when a run is attached to an occurrence |
| ScheduleHistory.FireAllFiresEach | adapters/memory/src/memory-schedule-repository.ts:126-172 | in a sound store every due schedule fires exactly once, the duplicate branch is never taken, and none is due afterwards |
| ScheduleHistory.NoHistoryRepeatsAnOccurrence | adapters/memory/src/memory-schedule-repository.ts:109-175 | over every history occurrences lie before their schedule's next run and no (schedule, instant) repeats |
| ScheduleHistory.OccurrencesStrictlyIncrease | adapters/memory/src/memory-schedule-repository.ts:131-154 | occurrences of a schedule are ordered by instant exactly as by creation, strictly |
| ScheduleHistory.ReplacingKeepsSoundIffClear | adapters/memory/src/memory-schedule-repository.ts:71-77 | an update keeps that if and only if the next run lies past all occurrences |
| ScheduleHistory.StepKeepsSound | packages/domain/src/schedule.ts:168-218 | creation, domain updates, ticks, attaching and dispatching all keep it |
| ScheduleHistory.OccurrencesAreWriteOnce | adapters/memory/src/memory-schedule-repository.ts:224-264 | an occurrence keeps its instant, and its run and dispatch instant once set |
| ScheduleHistory.TickLeaves | adapters/memory/src/memory-schedule-repository.ts:114-124 | a tick makes min(limit, due) occurrences and leaves exactly the other due schedules due |
| ScheduleHistory.BacklogIsClearedInCeilTicks | adapters/memory/src/memory-schedule-repository.ts:114-174 | at one instant n due schedules are cleared after ceil(n / limit) ticks and not before |
| ScheduleHistory.FrozenScheduleNeverFires | adapters/memory/src/memory-schedule-repository.ts:132-135 | a schedule whose next run is materialised already is skipped by every tick and never moves |
| ScheduleHistory.WritingBackAfterATickFreezes | adapters/memory/src/memory-schedule-repository.ts:71-77 | writing back a schedule read before a tick brings that about |
| ScheduleStarvation.ReachedIffFewFrozenAhead | adapters/memory/src/memory-schedule-repository.ts:114-135 | a due schedule is reached, within one tick for each unfrozen one before it and one more, if and only if fewer than limit frozen schedules come before it |
| ScheduleStarvation.StarvedForever | adapters/memory/src/memory-schedule-repository.ts:114-135 | otherwise ticks at any later instants never move it |
| ScheduleStarvation.TickIsIdleIffAllFrozen | adapters/memory/src/memory-schedule-repository.ts:126-172 | a tick makes nothing if and only if all the schedules it takes are frozen, and then changes nothing |
| Pagination.List | adapters/memory/src/memory-run-repository.ts:118-159 | a page is the front of the sorted matching items after the cursor, with the next cursor exactly when more follow |
| Pagination.ListingIsUnique | adapters/memory/src/memory-run-repository.ts:725-750 | the comparator determines the listing |
| Pagination.FirstDifferenceDecides | adapters/memory/src/memory-run-repository.ts:725-750 | ids are compared at the first character that differs |
| Pagination.WalkIsSorted | adapters/memory/src/memory-run-repository.ts:244-273 | whatever changes between pages, a client sees items in order and none twice |
| Pagination.SortedHasNoRepeats | adapters/memory/src/memory-run-repository.ts:725-750 | so no key occurs twice |
| Pagination.WalkMissesNothingStable | adapters/memory/src/memory-workflow-run-repository.ts:60-109 | a client that reaches the end has seen every item that matched all along |
| Pagination.WalkOfUnchangedStore | adapters/memory/src/memory-workflow-run-repository.ts:252-283 | on an unchanged store the cursor picks up exactly where the page ended |
| Pagination.EveryWalkIsThesePages | adapters/memory/src/memory-workflow-run-repository.ts:60-109 | every walk over an unchanged store is these pages, all of them exactly when it is done |
| Pagination.PagesAreCompleteIffLimitPositive | adapters/memory/src/memory-run-repository.ts:147-158 | the pages together are the listing if and only if the limit is positive or nothing matches |
| Pagination.NumberOfPages | adapters/memory/src/memory-run-repository.ts:147-158 | following the cursor ends after ceil(n / limit) pages |
| ArtifactStreams.SlicesAreBoundedAndComplete | adapters/runtime-typescript/src/artifact-capability.ts:136-160 | chunks are non-empty, at most 262144 bytes, and together the buffer |
| ArtifactStreams.AllSlicesAreBounded | adapters/runtime-typescript/src/artifact-capability.ts:136-160 | every chunk of a whole upload is non-empty and at most 262144 bytes |
| ArtifactStreams.SendBuffer | adapters/runtime-typescript/src/artifact-ipc-parent.ts:294-312 | the offset loop sends those chunks until a send answers false |
| ArtifactStreams.StreamArtifactCreate | adapters/runtime-typescript/src/artifact-capability.ts:92-188 | the upload succeeds exactly when its source does not break and every send answers true, and then it was sent whole; the first answer of false ends it |
| ArtifactStreams.ArrivesWholeIff | adapters/runtime-typescript/src/artifact-capability.ts:161-187 | what arrives is the whole transfer if and only if the source does not break and only the last send may answer false, by backlog: a failed upload may have arrived whole |
| ArtifactStreams.UploadIsTransfer | adapters/runtime-typescript/src/artifact-capability.ts:136-187 | a broken upload is a proper part of a transfer |
| ArtifactStreams.HandleArtifactOpenIpc | adapters/runtime-typescript/src/artifact-ipc-parent.ts:240-328 | what is sent for an open, for every point at which the run settles or the source breaks, before the metadata included |
| ArtifactStreams.ArtifactCreateIpcSessions.WriteChunk | adapters/runtime-typescript/src/artifact-ipc-parent.ts:76-83 | a chunk is appended to its own open session, or reported as unknown |
| ArtifactStreams.ArtifactCreateIpcSessions.EndSession | adapters/runtime-typescript/src/artifact-ipc-parent.ts:85-92 | the session is closed once and its stream handed over |
| ArtifactStreams.OpenSessions.DispatchArtifactOpen | adapters/runtime-typescript/src/artifact-capability.ts:345-409 | sessions follow the messages, and each waiter is answered at most once |
| ArtifactStreams.CallsDoNotInterfere | adapters/runtime-typescript/src/artifact-ipc-parent.ts:55-93 | a call's session depends only on that call's messages |
| ArtifactStreams.InterleavedTransfersArrive | adapters/runtime-typescript/src/artifact-ipc-parent.ts:55-93 | for any interleaving, a complete transfer ends one stream, and it is the source |
| ArtifactStreams.CutTransferEndsNothing | adapters/runtime-typescript/src/artifact-capability.ts:161-187 | a transfer cut short ends no stream; what was written is a prefix of the source |
| ArtifactStreams.NumberOfSlices | adapters/runtime-typescript/src/artifact-capability.ts:138-147 | a buffer is cut into the fewest chunks of 262144 bytes |
| ArtifactStreams.UnsettledOpenIsAnsweredOnce | adapters/runtime-typescript/src/artifact-ipc-parent.ts:240-328 | while the run does not settle an open is answered once, by its last message: the end, or a failure |
| ArtifactStreams.SettledOpenIsCutShort | adapters/runtime-typescript/src/artifact-ipc-parent.ts:276-292 | once it settles nothing more is sent |
| ArtifactStreams.OpenEndsOnlyWithTheWholeSource | adapters/runtime-typescript/src/artifact-ipc-parent.ts:294-327 | an open resolves with the whole source or not at all |
| WorkflowEvents.MemoryWorkflowEventRepository.SaveWorkflowEvent | adapters/memory/src/memory-workflow-event-repository.ts:21-51 | saving agrees with a scan of the stored events, the nested index stays in step, and the equivalent-by-id branch is never taken |
| WorkflowEvents.IndexedAgrees | adapters/memory/src/memory-workflow-event-repository.ts:89-103 | indexing a new event keeps index and events in agreement |
| WorkflowEvents.StoredEventsStay | adapters/memory/src/memory-workflow-event-repository.ts:21-51 | identities stay unique and stored events unchanged over every history |
| WorkflowEvents.SubmissionIsDecided | packages/domain/src/workflow-event.ts:148-188 | which fields decide whether an event is new, a retry or a conflict, and what each returns |
| WorkflowEvents.RetriesReturnTheFirst | packages/domain/src/workflow-event.ts:148-188 | a retry gets the event stored first; a different event under the identity is a conflict |
| WorkflowWaits.MemoryWorkflowWaitRepository.SaveWorkflowWaitResolution | adapters/memory/src/memory-workflow-wait-repository.ts:121-148 | a resolution is stored once; the same one again returns the stored wait, another is a conflict |
| WorkflowWaits.MemoryWorkflowWaitRepository.ResolveWorkflowEventWait | adapters/memory/src/memory-workflow-event-wait-resolution-repository.ts:21-52 | read, decide and save without interference |
| WorkflowWaits.MemoryWorkflowWaitRepository.ResolveWorkflowTimerWait | adapters/memory/src/memory-workflow-timer-wait-resolution-repository.ts:18-48 | the same for timers |
| WorkflowWaits.SelectWorkflowEventForWait | packages/domain/src/workflow-wait-event.ts:77-94 | the eligible event received first, ties by id |
| WaitResolutions.EventWaitIsDecided | packages/domain/src/workflow-wait-event.ts:96-126 | what becomes of a wait at an instant, by the fields: the first event of its workspace, source, type and correlation key in its window, else a timeout at the deadline, else nothing |
| WaitResolutions.SelectedCameFirst | packages/domain/src/workflow-wait-event.ts:67-94 | the selected event answers the wait and has the least reception and id of all stored ones that do |
| WaitResolutions.EveryResolutionHasItsReason | adapters/memory/src/memory-workflow-event-wait-resolution-repository.ts:21-52 | over every history of racing resolvers a wait resolved by an event names a stored one of exactly its kind and window, a timeout lies past the deadline, a timer past its instant |
| WaitResolutions.OtherWaitsAreLeft | adapters/memory/src/memory-workflow-event-wait-resolution-repository.ts:21-52 | what the resolvers do with resolved waits, waits of the other sort and waits not yet armed |
| WaitResolutions.TimerFiresWhenDue | adapters/memory/src/memory-workflow-timer-wait-resolution-repository.ts:18-48 | a timer wait is resolved from its instant on, and not before |
| WaitResolutions.ResolverSteps | adapters/memory/src/memory-workflow-event-wait-resolution-repository.ts:21-52 | a resolver reads the wait, its run and the events, and only then saves what it decided |
| WaitResolutions.ResolvingOnce | packages/domain/src/workflow-wait.ts:250-345 | when a timer, a timeout and an event resolve a wait, and with which error they do not |
| WaitResolutions.ResolvingAgain | packages/domain/src/workflow-wait.ts:250-345 | the same resolution again changes nothing, another is a conflict |
| WaitResolutions.FirstResolutionIsKept | adapters/memory/src/memory-workflow-wait-repository.ts:121-148 | the first resolution saved is kept, whoever comes later |
| WaitResolutions.StrangersAreRefused | adapters/memory/src/memory-workflow-wait-repository.ts:121-135 | a resolution for another workspace, run or an unknown wait writes nothing |
| WorkflowWaits.ResolutionIsSetOnce | adapters/memory/src/memory-workflow-wait-repository.ts:121-148 | under any interleaving of resolvers a resolved wait never changes |
| WorkflowWaits.RacingResolversAgree | adapters/memory/src/memory-workflow-event-wait-resolution-repository.ts:21-52 | resolvers that return a resolution return the stored record, and it is justified by the stores |
| WorkflowWaits.TimeoutOnlyWithoutEvent | packages/domain/src/workflow-wait-event.ts:96-126 | a wait times out if and only if the deadline is past and no eligible event is seen |
| UsageAggregation.AggregateRunAttemptUsageBatch | adapters/memory/src/memory-run-repository.ts:281-353 | the summary is the field-wise sum over the measurable steps of the attempts |
| UsageAggregation.SummaryIsFieldwise | adapters/memory/src/memory-run-repository.ts:310-352 | each field is the sum of its own numbers over the measured model steps and the succeeded tool steps |
| UsageAggregation.DisjointAttemptsAddUp | adapters/memory/src/memory-run-repository.ts:281-353 | the summaries of disjoint attempt sets add up |
| UsageAggregation.PricedAndUnpricedAreAll | adapters/memory/src/memory-run-repository.ts:325-352 | priced plus unpriced calls are all model calls, and the cost is null exactly when none is priced |

## Left out

- Real input and output: Valkey, BullMQ workers, Docker engine, HTTP, child processes, object storage.
- Provider adapters, telemetry, MCP, authentication and web routes: plumbing without a hard invariant.
- CheckpointLog.MemoryRunCheckpointRepository.Commit: stores the state as it is at the commit and runs
  without interruption; that the source keeps a reference is in `CheckpointReadBack`, that it waits between
  duplicate check and write in `CheckpointRaces`.
- Binding digests and envelope versions of checkpoints: a run keeps the bindings it was created with, and
  there is one version, so that these comparisons agree. Payload size limits count as refused states.
- Pruning of old checkpoints in the Postgres repository: only the latest one is ever restored.
- `transitionRunAndAttempt` waits between its two halves: it is taken as one step.
- Lease owners are taken as trimmed and not empty; the source trims them and refuses an empty one.
- Journal use by two live attempts at once, and an attempt id executed twice: attempts run one at a time.
- Cancellation racing an enqueue, and removal of finished jobs: the job key only appears.
- The second half of `assessRunRecoveryEligibility` (metadata blocks, attempt limits): it only refuses more.
- `updateInterruptedRunRecoveryMetadata`, raw inserts, test helpers and the unpaired `transitionRunAttempt`
  of the run repository in whole histories: they bypass the lifecycle rules, and the last breaks coherence
  whenever it succeeds (`RunCoherence.AttemptAloneBreaksCoherence`).
- Ties in the recovery scan when several attempts share the greatest sequence: the history theorems hold
  for every choice.
- Cron parsing: a parameter that is strictly after its argument; an expression without a next instant
  would throw in the source.
- Schedule keys and the listing functions that sort by locale but filter by character order.
- `UTF-8` decoding and base64: bytes are compared as bytes.
- Cancelling a workflow wait: it goes through the same write-once save, but is not one of the racing
  resolvers here.
- Streams whose negative limits or sizes JavaScript would accept: limits are natural numbers.
