/**
 * Runs and their attempts: the lifecycle tables, the store's operations as functions on its two
 * maps, and the class whose methods update those maps in place.
 */
module RunStore {
  import opened Common

  datatype RunState = PENDING | QUEUED | RUNNING | SUCCEEDED | FAILED | TIMED_OUT | CANCELLED | INTERRUPTED

  datatype AttemptState = PENDING | RUNNING | SUCCEEDED | FAILED | TIMED_OUT | CANCELLED

  /** Instants are milliseconds. `recoveryMetadata` is carried as text. */
  datatype Run = Run(
    id: string,
    workspaceId: string,
    status: RunState,
    createdAt: int,
    updatedAt: int,
    idempotencyKey: Option<string>,
    recoveryMetadata: Option<string>)

  datatype Attempt = Attempt(
    id: string,
    runId: string,
    sequence: nat,
    status: AttemptState,
    createdAt: int,
    startedAt: Option<int>,
    completedAt: Option<int>,
    executionOwner: Option<string>,
    executionGeneration: nat,
    leaseExpiresAt: Option<int>)

  datatype StoreError = InvariantViolation | IllegalTransition | NotFound | LifecycleConflict

  // ---- Lifecycle tables ----

  predicate LegalRun(from: RunState, to: RunState) {
    match from
    case PENDING => to == RunState.QUEUED || to == RunState.FAILED
    case QUEUED => to == RunState.RUNNING || to == RunState.CANCELLED
    case RUNNING => to == RunState.SUCCEEDED || to == RunState.INTERRUPTED || to == RunState.FAILED
                    || to == RunState.TIMED_OUT || to == RunState.CANCELLED
    case INTERRUPTED => to == RunState.QUEUED || to == RunState.FAILED || to == RunState.CANCELLED
    case _ => false
  }

  predicate LegalAttempt(from: AttemptState, to: AttemptState) {
    match from
    case PENDING => to == AttemptState.RUNNING || to == AttemptState.CANCELLED
    case RUNNING => Terminal(to)
    case _ => false
  }

  predicate Terminal(s: AttemptState) {
    s == AttemptState.SUCCEEDED || s == AttemptState.FAILED || s == AttemptState.TIMED_OUT || s == AttemptState.CANCELLED
  }

  predicate Retryable(s: AttemptState) {
    Terminal(s) && s != AttemptState.SUCCEEDED
  }

  // ---- Entities ----

  predicate ValidRun(r: Run) {
    r.createdAt <= r.updatedAt
  }

  predicate ValidAttempt(a: Attempt) {
    && a.sequence >= 1
    && (a.startedAt.Some? ==> a.createdAt <= a.startedAt.value)
    && (a.completedAt.Some? ==>
          (if a.startedAt.Some? then a.startedAt.value else a.createdAt) <= a.completedAt.value)
  }

  function RunTo(r: Run, to: RunState, now: int): Result<Run, StoreError> {
    if !LegalRun(r.status, to) then Err(IllegalTransition)
    else
      var next := r.(status := to, updatedAt := now);
      if ValidRun(next) then Ok(next) else Err(InvariantViolation)
  }

  function WithRecovery(r: Run, metadata: string, now: int): Result<Run, StoreError> {
    var next := r.(recoveryMetadata := Some(metadata), updatedAt := now);
    if ValidRun(next) then Ok(next) else Err(InvariantViolation)
  }

  function AttemptTo(a: Attempt, to: AttemptState, now: int): Result<Attempt, StoreError> {
    if !LegalAttempt(a.status, to) then Err(IllegalTransition)
    else
      var next := a.(
        status := to,
        startedAt := if a.startedAt.Some? then a.startedAt else if to == AttemptState.RUNNING then Some(now) else None,
        completedAt := if Terminal(to) then Some(now) else a.completedAt,
        leaseExpiresAt := if Terminal(to) then None else a.leaseExpiresAt);
      if ValidAttempt(next) then Ok(next) else Err(InvariantViolation)
  }

  function Subsequent(previous: Attempt, id: string, now: int): Result<Attempt, StoreError> {
    if !Retryable(previous.status) || id == previous.id then Err(InvariantViolation)
    else Ok(Attempt(id, previous.runId, previous.sequence + 1, AttemptState.PENDING, now, None, None, None, 0, None))
  }

  /** The store keeps identity and creation data; a transition contributes status and timing only. */
  function ApplyRunLifecycle(current: Run, next: Run): Result<Run, StoreError> {
    var r := current.(status := next.status, updatedAt := next.updatedAt, recoveryMetadata := None);
    if ValidRun(r) then Ok(r) else Err(InvariantViolation)
  }

  function ApplyAttemptLifecycle(current: Attempt, next: Attempt): Result<Attempt, StoreError> {
    var a := next.(id := current.id, runId := current.runId, sequence := current.sequence, createdAt := current.createdAt);
    if ValidAttempt(a) then Ok(a) else Err(InvariantViolation)
  }

  predicate PassesFence(current: Option<Attempt>, expected: AttemptState, next: Attempt, now: int) {
    || expected != AttemptState.RUNNING || next.executionOwner.None? || next.status == AttemptState.RUNNING
    || (&& current.Some?
        && current.value.executionOwner == next.executionOwner
        && current.value.executionGeneration == next.executionGeneration
        && current.value.leaseExpiresAt.Some?
        && current.value.leaseExpiresAt.value > now)
  }

  /** `wall` is the process clock, used only when the attempt has no start instant of its own. */
  function ApplyLeaseTtl(a: Attempt, ttl: Option<int>, wall: int): Result<Attempt, StoreError> {
    if a.status != AttemptState.RUNNING || a.executionOwner.None? || ttl.None? then Ok(a)
    else if a.executionGeneration < 1 then Err(InvariantViolation)
    else Ok(a.(leaseExpiresAt := Some((if a.startedAt.Some? then a.startedAt.value else wall) + ttl.value)))
  }

  // ---- The store as a value ----

  datatype Store = Store(runs: map<string, Run>, attempts: map<string, Attempt>, keys: map<(string, string), string>)

  function Lookup<T>(m: map<string, T>, id: string): Option<T> {
    if id in m then Some(m[id]) else None
  }

  predicate KeyTaken(st: Store, r: Run) {
    && r.idempotencyKey.Some?
    && (r.workspaceId, r.idempotencyKey.value) in st.keys
    && st.keys[(r.workspaceId, r.idempotencyKey.value)] != r.id
  }

  function Create(st: Store, r: Run, a: Attempt): Result<Store, StoreError> {
    if a.runId != r.id || r.id in st.runs || a.id in st.attempts || KeyTaken(st, r) then Err(InvariantViolation)
    else Ok(Store(st.runs[r.id := r], st.attempts[a.id := a],
                  if r.idempotencyKey.Some? then st.keys[(r.workspaceId, r.idempotencyKey.value) := r.id] else st.keys))
  }

  function NextRun(st: Store, expected: RunState, next: Run): Result<Run, StoreError> {
    if !LegalRun(expected, next.status) then Err(IllegalTransition)
    else if next.id !in st.runs then Err(NotFound)
    else if st.runs[next.id].status != expected then Err(LifecycleConflict)
    else ApplyRunLifecycle(st.runs[next.id], next)
  }

  function NextAttempt(st: Store, expected: AttemptState, next: Attempt): Result<Attempt, StoreError> {
    if !LegalAttempt(expected, next.status) then Err(IllegalTransition)
    else if next.id !in st.attempts then Err(NotFound)
    else if st.attempts[next.id].status != expected then Err(LifecycleConflict)
    else ApplyAttemptLifecycle(st.attempts[next.id], next)
  }

  function TransitionRun(st: Store, expected: RunState, next: Run): Result<Store, StoreError> {
    match NextRun(st, expected, next)
    case Err(e) => Err(e)
    case Ok(r) => Ok(st.(runs := st.runs[next.id := r]))
  }

  datatype Pair = Pair(expectedRun: RunState, run: Run, expectedAttempt: AttemptState, attempt: Attempt, leaseTtl: Option<int>)

  /** Both transitions or neither: everything is checked before anything is stored. */
  function TransitionPair(st: Store, p: Pair, now: int, wall: int): Result<Store, StoreError> {
    if p.attempt.runId != p.run.id then Err(InvariantViolation)
    else if !PassesFence(Lookup(st.attempts, p.attempt.id), p.expectedAttempt, p.attempt, now) then Err(LifecycleConflict)
    else
      match ApplyLeaseTtl(p.attempt, p.leaseTtl, wall)
      case Err(e) => Err(e)
      case Ok(leased) =>
        match NextAttempt(st, p.expectedAttempt, leased)
        case Err(e) => Err(e)
        case Ok(a) =>
          match NextRun(st, p.expectedRun, p.run)
          case Err(e) => Err(e)
          case Ok(r) => Ok(st.(attempts := st.attempts[p.attempt.id := a], runs := st.runs[p.run.id := r]))
  }

  predicate MayRenew(st: Store, id: string, owner: string, generation: nat, now: int) {
    && id in st.attempts
    && var a := st.attempts[id];
    && a.status == AttemptState.RUNNING && a.executionOwner == Some(owner) && a.executionGeneration == generation
    && a.leaseExpiresAt.Some? && a.leaseExpiresAt.value > now
  }

  /** Renewing also fails, by throwing, for a generation below 1. */
  function Renew(st: Store, id: string, owner: string, generation: nat, now: int, ttl: int): Result<Store, StoreError> {
    if !MayRenew(st, id, owner, generation, now) then Err(LifecycleConflict)
    else if generation < 1 then Err(InvariantViolation)
    else Ok(st.(attempts := st.attempts[id := st.attempts[id].(leaseExpiresAt := Some(now + ttl))]))
  }

  predicate RunningRunOf(st: Store, a: Attempt) {
    a.runId in st.runs && st.runs[a.runId].status == RunState.RUNNING
  }

  function FailExpired(st: Store, id: string, generation: nat, now: int): Result<Store, StoreError> {
    if id !in st.attempts then Err(LifecycleConflict)
    else
      var a := st.attempts[id];
      if a.status != AttemptState.RUNNING || a.executionOwner.None? || a.executionGeneration != generation
         || a.leaseExpiresAt.None? || a.leaseExpiresAt.value > now || !RunningRunOf(st, a)
      then Err(LifecycleConflict)
      else
        match AttemptTo(a, AttemptState.FAILED, now)
        case Err(e) => Err(e)
        case Ok(failed) =>
          match RunTo(st.runs[a.runId], RunState.FAILED, now)
          case Err(e) => Err(e)
          case Ok(run) => Ok(st.(attempts := st.attempts[id := failed], runs := st.runs[a.runId := run]))
  }

  function Interrupt(st: Store, id: string, generation: nat, metadata: string, now: int): Result<Store, StoreError> {
    if id !in st.attempts then Err(LifecycleConflict)
    else
      var a := st.attempts[id];
      if a.status != AttemptState.RUNNING || a.executionGeneration != generation || !RunningRunOf(st, a)
      then Err(LifecycleConflict)
      else
        match AttemptTo(a, AttemptState.FAILED, now)
        case Err(e) => Err(e)
        case Ok(failed) =>
          match RunTo(st.runs[a.runId], RunState.INTERRUPTED, now)
          case Err(e) => Err(e)
          case Ok(run) =>
            match WithRecovery(run, metadata, now)
            case Err(e) => Err(e)
            case Ok(marked) => Ok(st.(attempts := st.attempts[id := failed], runs := st.runs[a.runId := marked]))
  }

  predicate Active(a: Attempt) {
    a.status == AttemptState.PENDING || a.status == AttemptState.RUNNING
  }

  predicate HasActive(st: Store, runId: string) {
    exists id :: id in st.attempts && st.attempts[id].runId == runId && Active(st.attempts[id])
  }

  /** The attempt of the run that no other attempt of it exceeds in sequence. */
  predicate IsLast(st: Store, runId: string, id: string) {
    && id in st.attempts && st.attempts[id].runId == runId
    && forall j :: j in st.attempts && st.attempts[j].runId == runId ==> st.attempts[j].sequence <= st.attempts[id].sequence
  }

  predicate MaySchedule(st: Store, runId: string) {
    runId in st.runs && st.runs[runId].status == RunState.INTERRUPTED && !HasActive(st, runId)
  }

  function Schedule(st: Store, runId: string, last: string, newId: string, metadata: string, now: int): Result<Store, StoreError>
    requires MaySchedule(st, runId) && last in st.attempts
  {
    match Subsequent(st.attempts[last], newId, now)
    case Err(e) => Err(e)
    case Ok(a) =>
      match RunTo(st.runs[runId], RunState.QUEUED, now)
      case Err(e) => Err(e)
      case Ok(queued) =>
        match WithRecovery(queued, metadata, now)
        case Err(e) => Err(e)
        case Ok(run) => Ok(st.(attempts := st.attempts[newId := a], runs := st.runs[runId := run]))
  }
}
