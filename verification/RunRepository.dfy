/**
 * The in-memory run repository: each method updates the maps in place, in the source's order, and
 * is proved to have exactly the effect of the store function of RunStore. A null or false answer
 * of the source is `Err(LifecycleConflict)` here.
 */
module RunRepository {
  import opened Common
  import opened RunStore

  /** The answer and the new state agree with scheduling after `last`. */
  ghost predicate Scheduled(before: Store, after: Store, runId: string, last: string, newId: string, metadata: string,
                            now: int, r: Result<(Run, Attempt), StoreError>)
    requires MaySchedule(before, runId) && last in before.attempts
  {
    match Schedule(before, runId, last, newId, metadata, now)
    case Ok(st) => r == Ok((st.runs[runId], st.attempts[newId])) && after == st
    case Err(e) => r == Err(e) && after == before
  }

  class MemoryRunRepository {
    var runs: map<string, Run>
    var attempts: map<string, Attempt>
    var runsByWorkspaceIdempotencyKey: map<(string, string), string>

    ghost function State(): Store
      reads this
    {
      Store(runs, attempts, runsByWorkspaceIdempotencyKey)
    }

    constructor ()
      ensures State() == Store(map[], map[], map[])
    {
      runs, attempts, runsByWorkspaceIdempotencyKey := map[], map[], map[];
    }

    method CreateRunWithInitialAttempt(run: Run, attempt: Attempt) returns (r: Result<(), StoreError>)
      modifies this
      ensures match Create(old(State()), run, attempt)
        case Ok(st) => r.Ok? && State() == st
        case Err(e) => r == Err(e) && State() == old(State())
    {
      if attempt.runId != run.id || run.id in runs || attempt.id in attempts {
        return Err(InvariantViolation);
      }
      if run.idempotencyKey.Some? {
        var key := (run.workspaceId, run.idempotencyKey.value);
        if key in runsByWorkspaceIdempotencyKey && runsByWorkspaceIdempotencyKey[key] != run.id {
          return Err(InvariantViolation);
        }
      }
      runs := runs[run.id := run];
      attempts := attempts[attempt.id := attempt];
      if run.idempotencyKey.Some? {
        runsByWorkspaceIdempotencyKey :=
          runsByWorkspaceIdempotencyKey[(run.workspaceId, run.idempotencyKey.value) := run.id];
      }
      return Ok(());
    }

    method TransitionRun(expected: RunState, next: Run) returns (r: Result<Run, StoreError>)
      modifies this`runs
      ensures match RunStore.TransitionRun(old(State()), expected, next)
        case Ok(st) => r == Ok(st.runs[next.id]) && State() == st
        case Err(e) => r == Err(e) && State() == old(State())
    {
      if !LegalRun(expected, next.status) { return Err(IllegalTransition); }
      if next.id !in runs { return Err(NotFound); }
      if runs[next.id].status != expected { return Err(LifecycleConflict); }
      r := ApplyRunLifecycle(runs[next.id], next);
      if r.Ok? {
        runs := runs[next.id := r.value];
      }
    }

    method TransitionRunAttempt(expected: AttemptState, next: Attempt) returns (r: Result<Attempt, StoreError>)
      modifies this`attempts
      ensures r == NextAttempt(old(State()), expected, next)
      ensures attempts == if r.Ok? then old(attempts)[next.id := r.value] else old(attempts)
    {
      if !LegalAttempt(expected, next.status) { return Err(IllegalTransition); }
      if next.id !in attempts { return Err(NotFound); }
      if attempts[next.id].status != expected { return Err(LifecycleConflict); }
      r := ApplyAttemptLifecycle(attempts[next.id], next);
      if r.Ok? {
        attempts := attempts[next.id := r.value];
      }
    }

    /**
     * Stores the attempt first and puts the previous one back when the run transition throws; the
     * two maps together end up as if both had been checked before either was stored.
     */
    method TransitionRunAndAttempt(p: Pair, now: int, wall: int) returns (r: Result<(Run, Attempt), StoreError>)
      modifies this`runs, this`attempts
      ensures match TransitionPair(old(State()), p, now, wall)
        case Ok(st) => r == Ok((st.runs[p.run.id], st.attempts[p.attempt.id])) && State() == st
        case Err(e) => r == Err(e) && State() == old(State())
    {
      if p.attempt.runId != p.run.id { return Err(InvariantViolation); }
      var previous := Lookup(attempts, p.attempt.id);
      if !PassesFence(previous, p.expectedAttempt, p.attempt, now) { return Err(LifecycleConflict); }
      var leased := ApplyLeaseTtl(p.attempt, p.leaseTtl, wall);
      if leased.Err? { return Err(leased.error); }
      var attempt := TransitionRunAttempt(p.expectedAttempt, leased.value);
      if attempt.Err? { return Err(attempt.error); }
      var run := TransitionRun(p.expectedRun, p.run);
      if run.Err? {
        if previous.Some? {
          attempts := attempts[p.attempt.id := previous.value];
        } else {
          // An attempt that was absent cannot have been transitioned.
          assert false;
        }
        return Err(run.error);
      }
      return Ok((run.value, attempt.value));
    }

    method RenewExecutionLease(id: string, owner: string, generation: nat, now: int, ttl: int) returns (r: Result<(), StoreError>)
      modifies this`attempts
      ensures match Renew(old(State()), id, owner, generation, now, ttl)
        case Ok(st) => r.Ok? && State() == st
        case Err(e) => r == Err(e) && State() == old(State())
    {
      if id !in attempts { return Err(LifecycleConflict); }
      var current := attempts[id];
      if current.status != AttemptState.RUNNING || current.executionOwner != Some(owner)
         || current.executionGeneration != generation || current.leaseExpiresAt.None?
         || current.leaseExpiresAt.value <= now {
        return Err(LifecycleConflict);
      }
      if generation < 1 { return Err(InvariantViolation); }
      attempts := attempts[id := current.(leaseExpiresAt := Some(now + ttl))];
      return Ok(());
    }

    method FailExpiredLeasedAttempt(id: string, generation: nat, now: int) returns (r: Result<(Run, Attempt), StoreError>)
      modifies this`runs, this`attempts
      ensures match FailExpired(old(State()), id, generation, now)
        case Ok(st) => r == Ok((st.runs[old(attempts)[id].runId], st.attempts[id])) && State() == st
        case Err(e) => r == Err(e) && State() == old(State())
    {
      if id !in attempts { return Err(LifecycleConflict); }
      var current := attempts[id];
      if current.status != AttemptState.RUNNING || current.executionOwner.None?
         || current.executionGeneration != generation || current.leaseExpiresAt.None?
         || current.leaseExpiresAt.value > now {
        return Err(LifecycleConflict);
      }
      if current.runId !in runs || runs[current.runId].status != RunState.RUNNING { return Err(LifecycleConflict); }
      var failed := AttemptTo(current, AttemptState.FAILED, now);
      if failed.Err? { return Err(failed.error); }
      var run := RunTo(runs[current.runId], RunState.FAILED, now);
      if run.Err? { return Err(run.error); }
      attempts := attempts[id := failed.value];
      runs := runs[current.runId := run.value];
      return Ok((run.value, failed.value));
    }

    method InterruptExpiredLeasedAttemptForRecovery(id: string, generation: nat, metadata: string, now: int)
      returns (r: Result<(Run, Attempt), StoreError>)
      modifies this`runs, this`attempts
      ensures match Interrupt(old(State()), id, generation, metadata, now)
        case Ok(st) => r == Ok((st.runs[old(attempts)[id].runId], st.attempts[id])) && State() == st
        case Err(e) => r == Err(e) && State() == old(State())
    {
      if id !in attempts { return Err(LifecycleConflict); }
      var current := attempts[id];
      if current.status != AttemptState.RUNNING || current.executionGeneration != generation {
        return Err(LifecycleConflict);
      }
      if current.runId !in runs || runs[current.runId].status != RunState.RUNNING { return Err(LifecycleConflict); }
      var failed := AttemptTo(current, AttemptState.FAILED, now);
      if failed.Err? { return Err(failed.error); }
      var run := RunTo(runs[current.runId], RunState.INTERRUPTED, now);
      if run.Err? { return Err(run.error); }
      var marked := WithRecovery(run.value, metadata, now);
      if marked.Err? { return Err(marked.error); }
      attempts := attempts[id := failed.value];
      runs := runs[current.runId := marked.value];
      return Ok((marked.value, failed.value));
    }

    /** Scans the attempts for the run's last one; `none` tells that nothing may be scheduled. */
    method FindLastAttempt(runId: string) returns (last: Option<string>, hasActive: bool)
      ensures hasActive <==> HasActive(State(), runId)
      ensures last.Some? ==> IsLast(State(), runId, last.value)
      ensures last.None? <==> forall j :: j in attempts ==> attempts[j].runId != runId
    {
      last, hasActive := None, false;
      var left := attempts.Keys;
      while left != {}
        invariant left <= attempts.Keys
        invariant hasActive <==> exists j :: j in attempts && j !in left && attempts[j].runId == runId && Active(attempts[j])
        invariant last.Some? ==> last.value in attempts && attempts[last.value].runId == runId
        invariant forall j :: j in attempts && j !in left && attempts[j].runId == runId ==>
          last.Some? && attempts[j].sequence <= attempts[last.value].sequence
        invariant last.Some? ==> last.value !in left
        decreases left
      {
        var id :| id in left;
        left := left - {id};
        if attempts[id].runId == runId {
          hasActive := hasActive || Active(attempts[id]);
          if last.None? || attempts[last.value].sequence < attempts[id].sequence {
            last := Some(id);
          }
        }
      }
    }

    method ScheduleRecoveryRunAttempt(runId: string, newId: string, metadata: string, now: int)
      returns (r: Result<(Run, Attempt), StoreError>)
      modifies this`runs, this`attempts
      ensures var before := old(State());
        if MaySchedule(before, runId) && (exists j :: j in before.attempts && before.attempts[j].runId == runId)
        then exists last :: IsLast(before, runId, last) && Scheduled(before, State(), runId, last, newId, metadata, now, r)
        else r == Err(LifecycleConflict) && State() == before
    {
      if runId !in runs || runs[runId].status != RunState.INTERRUPTED { return Err(LifecycleConflict); }
      var last, hasActive := FindLastAttempt(runId);
      if hasActive || last.None? { return Err(LifecycleConflict); }
      ghost var before := State();
      assert IsLast(before, runId, last.value);
      var attempt := Subsequent(attempts[last.value], newId, now);
      if attempt.Err? {
        assert Scheduled(before, State(), runId, last.value, newId, metadata, now, Err(attempt.error));
        return Err(attempt.error);
      }
      var queued := RunTo(runs[runId], RunState.QUEUED, now);
      if queued.Err? {
        assert Scheduled(before, State(), runId, last.value, newId, metadata, now, Err(queued.error));
        return Err(queued.error);
      }
      var run := WithRecovery(queued.value, metadata, now);
      if run.Err? {
        assert Scheduled(before, State(), runId, last.value, newId, metadata, now, Err(run.error));
        return Err(run.error);
      }
      attempts := attempts[newId := attempt.value];
      runs := runs[runId := run.value];
      assert Scheduled(before, State(), runId, last.value, newId, metadata, now, Ok((run.value, attempt.value)));
      return Ok((run.value, attempt.value));
    }
  }
}
