/** Which statuses follow which, over every call of the run store, and what each call leaves behind. */
module RunLifecycle {
  import opened Common
  import opened RunStore
  import opened RunHistory

  /** The moves of a run, as pairs. */
  const RUN_MOVES: set<(RunState, RunState)> := {
    (RunState.PENDING, RunState.QUEUED), (RunState.PENDING, RunState.FAILED),
    (RunState.QUEUED, RunState.RUNNING), (RunState.QUEUED, RunState.CANCELLED),
    (RunState.RUNNING, RunState.SUCCEEDED), (RunState.RUNNING, RunState.FAILED), (RunState.RUNNING, RunState.TIMED_OUT),
    (RunState.RUNNING, RunState.CANCELLED), (RunState.RUNNING, RunState.INTERRUPTED),
    (RunState.INTERRUPTED, RunState.QUEUED), (RunState.INTERRUPTED, RunState.FAILED), (RunState.INTERRUPTED, RunState.CANCELLED)}

  /** The moves of an attempt. */
  const ATTEMPT_MOVES: set<(AttemptState, AttemptState)> := {
    (AttemptState.PENDING, AttemptState.RUNNING), (AttemptState.PENDING, AttemptState.CANCELLED),
    (AttemptState.RUNNING, AttemptState.SUCCEEDED), (AttemptState.RUNNING, AttemptState.FAILED),
    (AttemptState.RUNNING, AttemptState.TIMED_OUT), (AttemptState.RUNNING, AttemptState.CANCELLED)}

  /** Every call keeps or moves a run's status along these pairs, and keeps what identifies it. */
  lemma RunsMoveAlong(st: Store, now: int, c: Command, id: string)
    requires id in st.runs
    ensures id in After(st, now, c).runs
    ensures var r, r' := st.runs[id], After(st, now, c).runs[id];
      && (r'.status == r.status || (r.status, r'.status) in RUN_MOVES)
      && (r' == r.(status := r'.status, updatedAt := r'.updatedAt, recoveryMetadata := r'.recoveryMetadata))
  {
  }

  /** Every call keeps or moves an attempt's status along these pairs, unless its id is given away. */
  lemma AttemptsMoveAlong(st: Store, id: string, call: Call)
    requires id in st.attempts && !Reuses(st, id, call)
    ensures id in After(st, call.now, call.command).attempts
    ensures var a, a' := st.attempts[id], After(st, call.now, call.command).attempts[id];
      && (a'.status == a.status || (a.status, a'.status) in ATTEMPT_MOVES)
      && a'.id == a.id && a'.runId == a.runId && a'.sequence == a.sequence && a'.createdAt == a.createdAt
  {
  }

  // ---- When the calls succeed, and what they leave ----

  /** A run moves alone exactly along the pairs, from the status the caller expects, and only forward in time. */
  lemma RunMoves(st: Store, now: int, expected: RunState, next: Run)
    ensures var o := Outcome(st, now, MoveRun(expected, next));
      if (expected, next.status) !in RUN_MOVES then o == Err(IllegalTransition)
      else if next.id !in st.runs then o == Err(NotFound)
      else if st.runs[next.id].status != expected then o == Err(LifecycleConflict)
      else if next.updatedAt < st.runs[next.id].createdAt then o == Err(InvariantViolation)
      else o == Ok(st.(runs := st.runs[next.id :=
             st.runs[next.id].(status := next.status, updatedAt := next.updatedAt, recoveryMetadata := None)]))
  {
  }

  /** Its owner alone completes a running attempt, with the generation it holds and before its lease runs out. */
  predicate FenceHolds(st: Store, p: Pair, now: int) {
    p.expectedAttempt == AttemptState.RUNNING && p.attempt.executionOwner.Some? && p.attempt.status != AttemptState.RUNNING ==>
      && p.attempt.id in st.attempts
      && var a := st.attempts[p.attempt.id];
      && a.executionOwner == p.attempt.executionOwner && a.executionGeneration == p.attempt.executionGeneration
      && a.leaseExpiresAt.Some? && now < a.leaseExpiresAt.value
  }

  /** The instants of an attempt are in order, and its sequence positive. */
  predicate InOrder(a: Attempt) {
    && a.sequence >= 1
    && (a.startedAt.Some? ==> a.createdAt <= a.startedAt.value)
    && (a.completedAt.Some? ==> a.createdAt <= a.completedAt.value || a.startedAt.Some?)
    && (a.completedAt.Some? && a.startedAt.Some? ==> a.startedAt.value <= a.completedAt.value)
  }

  predicate TakesLease(p: Pair) {
    p.attempt.status == AttemptState.RUNNING && p.attempt.executionOwner.Some? && p.leaseTtl.Some?
  }

  /** The attempt as a paired transition stores it: who and when it was stays, the rest is the caller's. */
  function Stored(st: Store, p: Pair, wall: int): Attempt
    requires p.attempt.id in st.attempts
  {
    var a := st.attempts[p.attempt.id];
    p.attempt.(id := a.id, runId := a.runId, sequence := a.sequence, createdAt := a.createdAt,
               leaseExpiresAt := if TakesLease(p)
                                 then Some((if p.attempt.startedAt.Some? then p.attempt.startedAt.value else wall) + p.leaseTtl.value)
                                 else p.attempt.leaseExpiresAt)
  }

  /** When a paired transition succeeds, and everything it changes. */
  lemma PairMoves(st: Store, now: int, p: Pair, wall: int)
    ensures Outcome(st, now, MovePair(p, wall)).Ok? <==>
      && p.attempt.runId == p.run.id && FenceHolds(st, p, now)
      && (TakesLease(p) ==> p.attempt.executionGeneration >= 1)
      && p.attempt.id in st.attempts && p.run.id in st.runs
      && st.attempts[p.attempt.id].status == p.expectedAttempt && st.runs[p.run.id].status == p.expectedRun
      && (p.expectedAttempt, p.attempt.status) in ATTEMPT_MOVES && (p.expectedRun, p.run.status) in RUN_MOVES
      && InOrder(Stored(st, p, wall)) && st.runs[p.run.id].createdAt <= p.run.updatedAt
    ensures Outcome(st, now, MovePair(p, wall)).Ok? ==>
      Outcome(st, now, MovePair(p, wall)).value == st.(
        attempts := st.attempts[p.attempt.id := Stored(st, p, wall)],
        runs := st.runs[p.run.id :=
          st.runs[p.run.id].(status := p.run.status, updatedAt := p.run.updatedAt, recoveryMetadata := None)])
  {
  }

  /** Why it fails: the first of these that applies. */
  lemma PairFails(st: Store, now: int, p: Pair, wall: int)
    requires Outcome(st, now, MovePair(p, wall)).Err?
    ensures Outcome(st, now, MovePair(p, wall)).error ==
      if p.attempt.runId != p.run.id then InvariantViolation
      else if !FenceHolds(st, p, now) then LifecycleConflict
      else if TakesLease(p) && p.attempt.executionGeneration < 1 then InvariantViolation
      else if (p.expectedAttempt, p.attempt.status) !in ATTEMPT_MOVES then IllegalTransition
      else if p.attempt.id !in st.attempts then NotFound
      else if st.attempts[p.attempt.id].status != p.expectedAttempt then LifecycleConflict
      else if !InOrder(Stored(st, p, wall)) then InvariantViolation
      else if (p.expectedRun, p.run.status) !in RUN_MOVES then IllegalTransition
      else if p.run.id !in st.runs then NotFound
      else if st.runs[p.run.id].status != p.expectedRun then LifecycleConflict
      else InvariantViolation
  {
  }

  /** The attempt ended with a failure at an instant; its owner stays on record, its lease does not. */
  function FailedAt(a: Attempt, now: int): Attempt {
    a.(status := AttemptState.FAILED, completedAt := Some(now), leaseExpiresAt := None)
  }

  /** A running attempt of a running run, of this generation. */
  predicate RunsBoth(st: Store, id: string, generation: nat) {
    && id in st.attempts
    && var a := st.attempts[id];
    && a.status == AttemptState.RUNNING && a.executionGeneration == generation
    && a.runId in st.runs && st.runs[a.runId].status == RunState.RUNNING
  }

  predicate MayEnd(st: Store, id: string, now: int)
    requires id in st.attempts && st.attempts[id].runId in st.runs
  {
    InOrder(FailedAt(st.attempts[id], now)) && st.runs[st.attempts[id].runId].createdAt <= now
  }

  predicate LeaseIsOver(st: Store, id: string, now: int)
    requires id in st.attempts
  {
    var a := st.attempts[id];
    a.executionOwner.Some? && a.leaseExpiresAt.Some? && a.leaseExpiresAt.value <= now
  }

  /** Expiry takes a running attempt of a running run once its lease is over, and fails both. */
  lemma ExpiryFailsBoth(st: Store, now: int, id: string, generation: nat)
    ensures Outcome(st, now, ExpireLease(id, generation)).Ok? <==>
      RunsBoth(st, id, generation) && LeaseIsOver(st, id, now) && MayEnd(st, id, now)
    ensures Outcome(st, now, ExpireLease(id, generation)).Err? ==>
      Outcome(st, now, ExpireLease(id, generation)).error ==
        if RunsBoth(st, id, generation) && LeaseIsOver(st, id, now) then InvariantViolation else LifecycleConflict
    ensures Outcome(st, now, ExpireLease(id, generation)).Ok? ==>
      var a := st.attempts[id];
      Outcome(st, now, ExpireLease(id, generation)).value == st.(
        attempts := st.attempts[id := FailedAt(a, now)],
        runs := st.runs[a.runId := st.runs[a.runId].(status := RunState.FAILED, updatedAt := now)])
  {
  }

  /** Interruption takes a running attempt of a running run at any time, and leaves the run to be recovered. */
  lemma InterruptionKeepsTheRun(st: Store, now: int, id: string, generation: nat, metadata: string)
    ensures Outcome(st, now, InterruptRun(id, generation, metadata)).Ok? <==> RunsBoth(st, id, generation) && MayEnd(st, id, now)
    ensures Outcome(st, now, InterruptRun(id, generation, metadata)).Err? ==>
      Outcome(st, now, InterruptRun(id, generation, metadata)).error ==
        if RunsBoth(st, id, generation) then InvariantViolation else LifecycleConflict
    ensures Outcome(st, now, InterruptRun(id, generation, metadata)).Ok? ==>
      var a := st.attempts[id];
      Outcome(st, now, InterruptRun(id, generation, metadata)).value == st.(
        attempts := st.attempts[id := FailedAt(a, now)],
        runs := st.runs[a.runId :=
          st.runs[a.runId].(status := RunState.INTERRUPTED, updatedAt := now, recoveryMetadata := Some(metadata))])
  {
  }

  /** An interrupted run with this last attempt, none of whose attempts is pending or running. */
  predicate AwaitsRecovery(st: Store, runId: string, last: string) {
    && runId in st.runs && st.runs[runId].status == RunState.INTERRUPTED
    && last in st.attempts && st.attempts[last].runId == runId
    && (forall j :: j in st.attempts && st.attempts[j].runId == runId ==>
          && st.attempts[j].sequence <= st.attempts[last].sequence
          && st.attempts[j].status != AttemptState.PENDING && st.attempts[j].status != AttemptState.RUNNING)
  }

  /**
   * A recovery attempt follows one of greatest sequence that did not succeed, in an interrupted run none
   * of whose attempts is pending or running; it starts over as pending, without an owner.
   */
  lemma RecoveryFollowsTheLast(st: Store, now: int, runId: string, last: string, newId: string, metadata: string)
    ensures Outcome(st, now, ScheduleRecovery(runId, last, newId, metadata)).Ok? <==>
      && AwaitsRecovery(st, runId, last) && st.runs[runId].createdAt <= now
      && st.attempts[last].status != AttemptState.SUCCEEDED && st.attempts[last].id != newId
    ensures Outcome(st, now, ScheduleRecovery(runId, last, newId, metadata)).Err? ==>
      Outcome(st, now, ScheduleRecovery(runId, last, newId, metadata)).error ==
        if AwaitsRecovery(st, runId, last) then InvariantViolation else LifecycleConflict
    ensures Outcome(st, now, ScheduleRecovery(runId, last, newId, metadata)).Ok? ==>
      Outcome(st, now, ScheduleRecovery(runId, last, newId, metadata)).value == st.(
        attempts := st.attempts[newId := Attempt(newId, runId, st.attempts[last].sequence + 1, AttemptState.PENDING, now,
                                                 None, None, None, 0, None)],
        runs := st.runs[runId := st.runs[runId].(status := RunState.QUEUED, updatedAt := now, recoveryMetadata := Some(metadata))])
  {
  }

  /** A run is created with its attempt, under ids and an idempotency key that nobody else has. */
  lemma CreationNeedsNewIds(st: Store, now: int, run: Run, attempt: Attempt)
    ensures Outcome(st, now, CreateRun(run, attempt)).Ok? <==>
      && attempt.runId == run.id && run.id !in st.runs && attempt.id !in st.attempts
      && (run.idempotencyKey.Some? && (run.workspaceId, run.idempotencyKey.value) in st.keys ==>
            st.keys[(run.workspaceId, run.idempotencyKey.value)] == run.id)
    ensures Outcome(st, now, CreateRun(run, attempt)).Err? ==>
      Outcome(st, now, CreateRun(run, attempt)).error == InvariantViolation
    ensures Outcome(st, now, CreateRun(run, attempt)).Ok? ==>
      var st' := Outcome(st, now, CreateRun(run, attempt)).value;
      && st'.runs == st.runs[run.id := run] && st'.attempts == st.attempts[attempt.id := attempt]
      && st'.keys == match run.idempotencyKey
                     case None => st.keys
                     case Some(key) => st.keys[(run.workspaceId, key) := run.id]
  {
  }

  // ---- The entities' own moves ----

  /**
   * An attempt moves along the pairs. Its first start is kept, an end records its instant and gives up the
   * lease, and the instants have to stay in order.
   */
  lemma AttemptMoves(a: Attempt, to: AttemptState, now: int)
    ensures var ends := (AttemptState.RUNNING, to) in ATTEMPT_MOVES;
      var moved := Attempt(a.id, a.runId, a.sequence, to, a.createdAt,
                           if a.startedAt.None? && to == AttemptState.RUNNING then Some(now) else a.startedAt,
                           if ends then Some(now) else a.completedAt,
                           a.executionOwner, a.executionGeneration, if ends then None else a.leaseExpiresAt);
      AttemptTo(a, to, now) ==
        if (a.status, to) !in ATTEMPT_MOVES then Err(IllegalTransition)
        else if InOrder(moved) then Ok(moved) else Err(InvariantViolation)
  {
  }

  /** A run moves along the pairs and never to an instant before its creation. */
  lemma RunMovesItself(r: Run, to: RunState, now: int)
    ensures RunTo(r, to, now) ==
      if (r.status, to) !in RUN_MOVES then Err(IllegalTransition)
      else if now < r.createdAt then Err(InvariantViolation)
      else Ok(r.(status := to, updatedAt := now))
  {
  }
}
