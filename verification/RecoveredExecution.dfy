/**
 * A run executed by the loop over as many attempts as it takes: each starts from the latest
 * checkpoint as the store reads it back, and each may be cut off anywhere.
 */
module RecoveredExecution {
  import opened Common
  import opened Conversation
  import opened OperationJournal
  import opened AgentSemantics
  import opened DurableMachine
  import opened CrashRecovery
  import opened CheckpointReadBack
  import opened StoredRecovery
  import opened DeclarativeRunLoop
  import CheckpointLog

  /** An attempt to make. Its process is cut off after `fuel` actions; `reported` tells whether a failed result is stored. */
  datatype Try = Try(runAttemptId: string, owner: string, generation: nat, fuel: nat, reported: bool)

  predicate DistinctAttempts(tries: seq<Try>) {
    forall i, j :: 0 <= i < j < |tries| ==> tries[i].runAttemptId != tries[j].runAttemptId
  }

  predicate Unused(log: CheckpointLog.Log, tries: seq<Try>) {
    forall t :: t in tries ==> UnusedAttempt(log, t.runAttemptId)
  }

  function IdentityOf(workspaceId: string, runId: string, t: Try): Identity {
    Identity(workspaceId, runId, t.runAttemptId, t.owner, t.generation)
  }

  function StartOf(t: Try): Event {
    DoRestart(t.runAttemptId, t.owner, t.generation)
  }

  /** `x` is what the attempts before `i` have left behind, by the history `es`. */
  ghost predicate Between(kind: StoreKind, digest: Digest, w: World, first: Sys, tries: seq<Try>, i: nat, es: seq<Event>, x: Held)
    requires WellFormed(first.local) && i <= |tries|
  {
    && HeldHistory(kind, digest, w, Before(first), es) && x == PlayHeld(kind, digest, w, Before(first), es)
    && !Completed(x.sys.local) && Unused(x.sys.log, tries[i..])
  }

  /** The message arrays once the attempt at hand is over. */
  function Arrays(x: Held): map<string, seq<Message>> {
    x.ended[x.sys.local.id.runAttemptId := x.sys.local.messages]
  }

  /** The run after one more attempt of `steps` actions. */
  ghost function AfterAttempt(kind: StoreKind, digest: Digest, w: World, x: Held, t: Try, steps: nat): (r: Held)
    requires WellFormed(x.sys.local)
    ensures WellFormed(r.sys.local)
  {
    var start := StepHeld(kind, digest, w, x, StartOf(t));
    Held(Play(w, start.sys, Ticks(steps)), start.ended)
  }

  lemma AttemptIsHistory(kind: StoreKind, digest: Digest, w: World, x: Held, es: seq<Event>, t: Try, steps: nat)
    requires WellFormed(x.sys.local) && HeldHistory(kind, digest, w, x, es)
    requires Allowed(PlayHeld(kind, digest, w, x, es), StartOf(t))
    ensures var after := es + [StartOf(t)] + Ticks(steps);
      && HeldHistory(kind, digest, w, x, after)
      && PlayHeld(kind, digest, w, x, after) == AfterAttempt(kind, digest, w, PlayHeld(kind, digest, w, x, es), t, steps)
  {
    var y := PlayHeld(kind, digest, w, x, es);
    var start := StepHeld(kind, digest, w, y, StartOf(t));
    PlayHeldJoins(kind, digest, w, x, es, [StartOf(t)]);
    assert PlayHeld(kind, digest, w, y, [StartOf(t)]) == start;
    PlayHeldJoins(kind, digest, w, x, es + [StartOf(t)], Ticks(steps));
    OneAttemptDoesNotRead(kind, digest, w, start, Ticks(steps));
  }

  lemma AttemptUsesOwnKeys(kind: StoreKind, digest: Digest, w: World, x: Held, t: Try, steps: nat)
    requires WellFormed(x.sys.local)
    ensures var r := AfterAttempt(kind, digest, w, x, t, steps);
      && r.ended == Arrays(x)
      && r.sys.local.id == IdentityOf(x.sys.local.id.workspaceId, x.sys.local.id.runId, t)
      && forall k :: k in r.sys.log.index ==> k in x.sys.log.index || k.2.runAttemptId == t.runAttemptId
  {
    TicksUseOwnKeys(w, StepHeld(kind, digest, w, x, StartOf(t)).sys, steps);
  }

  /** One attempt, refused or started and cut off or not, prolongs the history and leaves later ids unused. */
  lemma AttemptKeepsBetween(kind: StoreKind, digest: Digest, w: World, first: Sys, tries: seq<Try>, i: nat,
                            es: seq<Event>, x: Held, steps: nat)
    requires WellFormed(first.local) && i < |tries| && DistinctAttempts(tries)
    requires Between(kind, digest, w, first, tries, i, es, x)
    ensures var after := es + [StartOf(tries[i])] + Ticks(steps);
      var end := AfterAttempt(kind, digest, w, x, tries[i], steps);
      && HeldHistory(kind, digest, w, Before(first), after) && end == PlayHeld(kind, digest, w, Before(first), after)
      && (Completed(end.sys.local) || Between(kind, digest, w, first, tries, i + 1, after, end))
  {
    var t := tries[i];
    assert t == tries[i..][0];
    AttemptIsHistory(kind, digest, w, Before(first), es, t, steps);
    AttemptUsesOwnKeys(kind, digest, w, x, t, steps);
    forall u | u in tries[i + 1..]
      ensures UnusedAttempt(AfterAttempt(kind, digest, w, x, t, steps).sys.log, u.runAttemptId)
    {
      var j :| i + 1 <= j < |tries| && tries[j] == u;
      assert tries[i..][j - i] == u;
      assert UnusedAttempt(x.sys.log, u.runAttemptId) && u.runAttemptId != t.runAttemptId;
    }
  }

  /**
   * The restore record of a new attempt: the latest checkpoint as it reads back, or the error that its
   * schema or its digest is wrong.
   */
  method BuildCheckpointBinding(kind: StoreKind, digest: Digest, w: World, arrays: map<string, seq<Message>>,
                                latest: Option<CheckpointLog.Row>, ghost x: Held)
    returns (restore: Result<Option<CheckpointLog.Row>, ()>)
    requires arrays == Arrays(x) && latest == Latest(x.sys)
    ensures restore == if Refuses(kind, digest, w, x) then Err(()) else Ok(Restored(kind, x))
  {
    if latest.None? {
      return Ok(None);
    }
    var row := latest.value;
    var state := row.state;
    if kind.Referencing? && row.runAttemptId in arrays {
      state := state.(messages := arrays[row.runAttemptId]);
    }
    assert state == ReadBack(kind, x, row);
    if !w.acceptsState(state) || digest(state) != digest(row.state) {
      return Err(());
    }
    return Ok(Some(row.(state := state)));
  }

  /** One attempt: refused before it starts, or executed from what the latest checkpoint reads back as. */
  method MakeAttempt(kind: StoreKind, digest: Digest, w: World, workspaceId: string, runId: string, t: Try,
                     arrays: map<string, seq<Message>>, journal: MemoryRunOperationJournalRepository,
                     checkpoints: CheckpointLog.MemoryRunCheckpointRepository, gateway: ToolGateway, ghost x: Held)
    returns (exit: Exit, messages: seq<Message>, ghost steps: nat)
    requires checkpoints.acceptsState == w.acceptsState && arrays == Arrays(x) && WellFormed(x.sys.local)
    requires x.sys.local.id.workspaceId == workspaceId && x.sys.local.id.runId == runId
    requires journal.byRunOperationKey == x.sys.journal && journal.everFailed == x.sys.everFailed
    requires checkpoints.State() == x.sys.log && gateway.invoked == x.sys.invoked
    modifies journal, checkpoints, gateway
    ensures var r := AfterAttempt(kind, digest, w, x, t, steps).sys;
      && journal.byRunOperationKey == r.journal && journal.everFailed == r.everFailed
      && checkpoints.State() == r.log && gateway.invoked == r.invoked && messages == r.local.messages
      && (exit.Finished? ==> r.local.phase == Returned(exit.result))
      && (exit.Threw? ==> r.local.phase.Thrown?) && (exit.Crashed? ==> !Ended(r.local))
  {
    var latest := checkpoints.FindLatestByRun(workspaceId, runId);
    var restore := BuildCheckpointBinding(kind, digest, w, arrays, latest, x);
    checkpoints.TrackRunningAttempt(t.runAttemptId, t.owner, t.generation);
    if restore.Err? {
      exit, messages, steps := Threw, [], 0;
    } else {
      ghost var end;
      exit, messages, steps, end := ExecuteAttempt(w, IdentityOf(workspaceId, runId, t), restore.value, t.fuel,
                                                   journal, checkpoints, gateway);
    }
  }

  /**
   * Makes the attempts one after the other until one returns an output or a failure that is stored. An
   * attempt whose checkpoint is altered throws before it starts. Everything together is a history of
   * the machine on its store; whatever was cut off or refused on the way, a result is the
   * recovery-blocked code, or exactly the result, transcript and counters of the undisturbed run.
   */
  method ExecuteRun(kind: StoreKind, digest: Digest, w: World, workspaceId: string, runId: string, tries: seq<Try>,
                    journal: MemoryRunOperationJournalRepository,
                    checkpoints: CheckpointLog.MemoryRunCheckpointRepository, gateway: ToolGateway)
    returns (exit: Exit, ghost es: seq<Event>, ghost end: Held)
    requires checkpoints.acceptsState == w.acceptsState && IdsIdentifyCalls(w) && Reliable(kind, digest)
    requires tries != [] && DistinctAttempts(tries) && Unused(checkpoints.State(), tries)
    requires CheckpointLog.Numbered(checkpoints.State()) && CheckpointLog.Indexed(checkpoints.State())
    requires FirstAttempt(Sys(journal.byRunOperationKey, journal.everFailed, checkpoints.State(), gateway.invoked,
                              Launch(IdentityOf(workspaceId, runId, tries[0]), None)))
    modifies journal, checkpoints, gateway
    ensures var first := Sys(old(journal.byRunOperationKey), old(journal.everFailed), old(checkpoints.State()),
                             old(gateway.invoked), Launch(IdentityOf(workspaceId, runId, tries[0]), None));
      && HeldHistory(kind, digest, w, Before(first), es) && end == PlayHeld(kind, digest, w, Before(first), es)
    ensures journal.byRunOperationKey == end.sys.journal && checkpoints.State() == end.sys.log
    ensures gateway.invoked == end.sys.invoked
    ensures exit.Finished? ==>
      && end.sys.local.phase == Returned(exit.result)
      && (exit.result == Failed(RECOVERY_BLOCKED) || FinalOf(end.sys.local, exit.result) == IdealRun(w))
  {
    ghost var first := Sys(journal.byRunOperationKey, journal.everFailed, checkpoints.State(), gateway.invoked,
                           Launch(IdentityOf(workspaceId, runId, tries[0]), None));
    es, end := [], Before(first);
    var arrays := map[tries[0].runAttemptId := []];
    assert tries[0..] == tries;
    exit := Crashed;
    for i := 0 to |tries|
      invariant Between(kind, digest, w, first, tries, i, es, end) && arrays == Arrays(end)
      invariant end.sys.local.id.workspaceId == workspaceId && end.sys.local.id.runId == runId
      invariant journal.byRunOperationKey == end.sys.journal && journal.everFailed == end.sys.everFailed
      invariant checkpoints.State() == end.sys.log && gateway.invoked == end.sys.invoked
      invariant checkpoints.acceptsState == w.acceptsState
      invariant exit.Finished? ==> end.sys.local.phase == Returned(exit.result)
    {
      var t := tries[i];
      ghost var steps;
      var messages;
      exit, messages, steps := MakeAttempt(kind, digest, w, workspaceId, runId, t, arrays, journal, checkpoints, gateway, end);
      AttemptKeepsBetween(kind, digest, w, first, tries, i, es, end, steps);
      AttemptUsesOwnKeys(kind, digest, w, end, t, steps);
      es, end := es + [StartOf(t)] + Ticks(steps), AfterAttempt(kind, digest, w, end, t, steps);
      arrays := arrays[t.runAttemptId := messages];
      if exit.Finished? && (exit.result.Succeeded? || t.reported) { break; }
    }
    StoredRunEqualsUndisturbedRun(kind, digest, w, first, es);
  }
}
