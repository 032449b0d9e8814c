/** Whole histories of the run store: coherence under every history, and leases that fence over time. */
module RunHistory {
  import opened Common
  import opened RunStore
  import opened RunCoherence

  /** One call of the repository. `last` is the attempt the recovery scan ends on. */
  datatype Command =
    | CreateRun(run: Run, attempt: Attempt)
    | MovePair(pair: Pair, wall: int)
    | MoveRun(expected: RunState, next: Run)
    | RenewLease(id: string, owner: string, generation: nat, ttl: int)
    | ExpireLease(id: string, generation: nat)
    | InterruptRun(id: string, generation: nat, metadata: string)
    | ScheduleRecovery(runId: string, last: string, newId: string, metadata: string)

  function Outcome(st: Store, now: int, c: Command): Result<Store, StoreError> {
    match c
    case CreateRun(run, attempt) => Create(st, run, attempt)
    case MovePair(pair, wall) => TransitionPair(st, pair, now, wall)
    case MoveRun(expected, next) => TransitionRun(st, expected, next)
    case RenewLease(id, owner, generation, ttl) => Renew(st, id, owner, generation, now, ttl)
    case ExpireLease(id, generation) => FailExpired(st, id, generation, now)
    case InterruptRun(id, generation, metadata) => Interrupt(st, id, generation, metadata, now)
    case ScheduleRecovery(runId, last, newId, metadata) =>
      if MaySchedule(st, runId) && IsLast(st, runId, last) then Schedule(st, runId, last, newId, metadata, now)
      else Err(LifecycleConflict)
  }

  function After(st: Store, now: int, c: Command): Store {
    var o := Outcome(st, now, c);
    if o.Ok? then o.value else st
  }

  datatype Call = Call(now: int, command: Command)

  function Play(st: Store, h: seq<Call>): Store
    decreases |h|
  {
    if h == [] then st else Play(After(st, h[0].now, h[0].command), h[1..])
  }

  const EMPTY: Store := Store(map[], map[], map[])

  // ---- Coherence ----

  /** What a caller can check before a call to know that coherence survives it. */
  predicate Admissible(st: Store, c: Command) {
    match c
    case CreateRun(run, attempt) => attempt.sequence == 1 && Expect(run.status) == Activity(attempt.status)
    case MovePair(p, _) =>
      && p.attempt.id in st.attempts && st.attempts[p.attempt.id].runId == p.run.id
      && Expect(p.run.status) == Activity(p.attempt.status)
    case MoveRun(expected, next) => Expect(expected) == Expect(next.status)
    case ScheduleRecovery(runId, _, newId, _) => Spare(st, runId, newId)
    case _ => true
  }

  /** A successful call keeps the store coherent if and only if it was admissible. */
  lemma CallKeepsCoherenceIffAdmissible(st: Store, now: int, c: Command)
    requires Coherent(st) && Outcome(st, now, c).Ok?
    ensures Coherent(After(st, now, c)) <==> Admissible(st, c)
  {
    match c
    case CreateRun(run, attempt) => CreateKeepsCoherenceIffFirst(st, run, attempt);
    case MovePair(pair, wall) => PairKeepsCoherenceIffMatched(st, pair, now, wall);
    case MoveRun(expected, next) => RunAloneKeepsCoherenceIffNeutral(st, expected, next);
    case RenewLease(id, owner, generation, ttl) => RenewKeepsCoherence(st, id, owner, generation, now, ttl);
    case ExpireLease(id, generation) => FailExpiredKeepsCoherence(st, id, generation, now);
    case InterruptRun(id, generation, metadata) => InterruptKeepsCoherence(st, id, generation, metadata, now);
    case ScheduleRecovery(runId, last, newId, metadata) =>
      ScheduleKeepsCoherenceIffSpare(st, runId, last, newId, metadata, now);
  }

  /** Every call that takes effect was admissible when it was made. */
  predicate AllAdmissible(st: Store, h: seq<Call>)
    decreases |h|
  {
    h == [] || (&& (Outcome(st, h[0].now, h[0].command).Ok? ==> Admissible(st, h[0].command))
                && AllAdmissible(After(st, h[0].now, h[0].command), h[1..]))
  }

  lemma {:induction false} HistoriesKeepCoherence(st: Store, h: seq<Call>)
    requires Coherent(st) && AllAdmissible(st, h)
    ensures Coherent(Play(st, h))
    decreases |h|
  {
    if h != [] {
      if Outcome(st, h[0].now, h[0].command).Ok? {
        CallKeepsCoherenceIffAdmissible(st, h[0].now, h[0].command);
      }
      HistoriesKeepCoherence(After(st, h[0].now, h[0].command), h[1..]);
    }
  }

  lemma EveryReachableStoreIsCoherent(h: seq<Call>)
    requires AllAdmissible(EMPTY, h)
    ensures Coherent(Play(EMPTY, h))
  {
    HistoriesKeepCoherence(EMPTY, h);
  }

  // ---- Fencing ----

  /** The clock does not run backwards from `from` on. */
  predicate Monotone(from: int, h: seq<Call>)
    decreases |h|
  {
    h == [] || (from <= h[0].now && Monotone(h[0].now, h[1..]))
  }

  /** A recovery attempt takes the id of an attempt that exists; the store does not check. */
  predicate Reuses(st: Store, id: string, call: Call) {
    call.command.ScheduleRecovery? && call.command.newId == id && id in st.attempts && Outcome(st, call.now, call.command).Ok?
  }

  predicate NeverReused(st: Store, id: string, h: seq<Call>)
    decreases |h|
  {
    h == [] || (!Reuses(st, id, h[0]) && NeverReused(After(st, h[0].now, h[0].command), id, h[1..]))
  }

  /** The attempt's time is over: it has ended, or its lease has run out. */
  predicate Spent(st: Store, id: string, now: int) {
    && id in st.attempts
    && var a := st.attempts[id];
    && (Terminal(a.status)
        || (a.status == AttemptState.RUNNING && a.leaseExpiresAt.Some? && a.leaseExpiresAt.value <= now))
  }

  /** The calls by which the owner of an attempt keeps or completes it. */
  predicate OwnerCall(c: Command, id: string) {
    || (c.RenewLease? && c.id == id)
    || (c.MovePair? && c.pair.attempt.id == id && c.pair.attempt.executionOwner.Some?)
  }

  lemma OwnerCallFailsOnceSpent(st: Store, id: string, now: int, c: Command)
    requires Spent(st, id, now) && OwnerCall(c, id)
    ensures Outcome(st, now, c).Err?
  {
  }

  /** Only the reuse of its id ends a spent attempt's state. */
  lemma StaysSpentIffNotReused(st: Store, id: string, now: int, call: Call)
    requires Spent(st, id, now) && now <= call.now
    ensures Spent(After(st, call.now, call.command), id, call.now) <==> !Reuses(st, id, call)
    ensures !Reuses(st, id, call) && Terminal(st.attempts[id].status) ==>
      After(st, call.now, call.command).attempts[id] == st.attempts[id]
  {
    if OwnerCall(call.command, id) {
      OwnerCallFailsOnceSpent(st, id, call.now, call.command);
    }
  }

  /** No owner call of `id` succeeds anywhere in the history. */
  predicate NoOwnerCallSucceeds(st: Store, id: string, h: seq<Call>)
    decreases |h|
  {
    h == [] || (&& (OwnerCall(h[0].command, id) ==> Outcome(st, h[0].now, h[0].command).Err?)
                && NoOwnerCallSucceeds(After(st, h[0].now, h[0].command), id, h[1..]))
  }

  /** None succeeds before the id is given to another attempt. */
  predicate FencedUntilReused(st: Store, id: string, h: seq<Call>)
    decreases |h|
  {
    || h == [] || Reuses(st, id, h[0])
    || (&& (OwnerCall(h[0].command, id) ==> Outcome(st, h[0].now, h[0].command).Err?)
        && FencedUntilReused(After(st, h[0].now, h[0].command), id, h[1..]))
  }

  /**
   * Once a lease has run out, no renewal and no paired transition that carries an owner ever succeeds
   * for the attempt again, whatever else happens to the store: for good if its id is never reused,
   * and in any case until it is.
   */
  lemma {:induction false} ExpiredLeaseFencesForever(st: Store, id: string, now: int, h: seq<Call>)
    requires Spent(st, id, now) && Monotone(now, h)
    ensures FencedUntilReused(st, id, h)
    ensures NeverReused(st, id, h) ==>
      && NoOwnerCallSucceeds(st, id, h)
      && id in Play(st, h).attempts
      && (Terminal(st.attempts[id].status) ==> Play(st, h).attempts[id] == st.attempts[id])
    decreases |h|
  {
    if h != [] && !Reuses(st, id, h[0]) {
      StaysSpentIffNotReused(st, id, now, h[0]);
      if OwnerCall(h[0].command, id) {
        OwnerCallFailsOnceSpent(st, id, h[0].now, h[0].command);
      }
      ExpiredLeaseFencesForever(After(st, h[0].now, h[0].command), id, h[0].now, h[1..]);
    }
  }

  /** Calls that end the attempt: a paired completion, expiry failure, interruption. */
  predicate Ends(st: Store, id: string, call: Call) {
    && Outcome(st, call.now, call.command).Ok?
    && match call.command
       case MovePair(p, _) => p.attempt.id == id && Terminal(p.attempt.status)
       case ExpireLease(i, _) => i == id
       case InterruptRun(i, _, _) => i == id
       case _ => false
  }

  /** How often the attempt ends before its id is given to another one. */
  function Endings(st: Store, id: string, h: seq<Call>): nat
    decreases |h|
  {
    if h == [] || Reuses(st, id, h[0]) then 0
    else (if Ends(st, id, h[0]) then 1 else 0) + Endings(After(st, h[0].now, h[0].command), id, h[1..])
  }

  lemma EndingEnds(st: Store, id: string, call: Call)
    requires Ends(st, id, call)
    ensures id in st.attempts && !Terminal(st.attempts[id].status)
    ensures Spent(After(st, call.now, call.command), id, call.now)
    ensures Terminal(After(st, call.now, call.command).attempts[id].status)
  {
  }

  lemma {:induction false} NoEndingAfterTheEnd(st: Store, id: string, now: int, h: seq<Call>)
    requires Spent(st, id, now) && Terminal(st.attempts[id].status) && Monotone(now, h)
    ensures Endings(st, id, h) == 0
    decreases |h|
  {
    if h != [] && !Reuses(st, id, h[0]) {
      StaysSpentIffNotReused(st, id, now, h[0]);
      if Ends(st, id, h[0]) {
        EndingEnds(st, id, h[0]);
        assert false;
      }
      NoEndingAfterTheEnd(After(st, h[0].now, h[0].command), id, h[0].now, h[1..]);
    }
  }

  /** An attempt ends at most once: owner completion, expiry failure and interruption exclude each other. */
  lemma {:induction false} AttemptEndsAtMostOnce(st: Store, id: string, now: int, h: seq<Call>)
    requires Monotone(now, h)
    ensures Endings(st, id, h) <= 1
    decreases |h|
  {
    if h != [] && !Reuses(st, id, h[0]) {
      var st' := After(st, h[0].now, h[0].command);
      if Ends(st, id, h[0]) {
        EndingEnds(st, id, h[0]);
        NoEndingAfterTheEnd(st', id, h[0].now, h[1..]);
      } else {
        AttemptEndsAtMostOnce(st', id, h[0].now, h[1..]);
      }
    }
  }

  /**
   * Without a lease nothing expires: interruption takes a running attempt of a running run whether or
   * not its lease is still good, so the check has to be the caller's.
   */
  lemma InterruptionDoesNotWaitForExpiry(st: Store, id: string, metadata: string, now: int)
    requires id in st.attempts && st.attempts[id].status == AttemptState.RUNNING && RunningRunOf(st, st.attempts[id])
    requires AttemptTo(st.attempts[id], AttemptState.FAILED, now).Ok? && st.runs[st.attempts[id].runId].createdAt <= now
    ensures Ends(st, id, Call(now, InterruptRun(id, st.attempts[id].executionGeneration, metadata)))
    ensures st.attempts[id].leaseExpiresAt.Some? && st.attempts[id].leaseExpiresAt.value > now ==>
      Outcome(st, now, ExpireLease(id, st.attempts[id].executionGeneration)).Err?
  {
  }
}
