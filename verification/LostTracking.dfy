/** What an attempt can still do once it is no longer tracked as running, so that its checkpoints are refused. */
module LostTracking {
  import opened Common
  import opened Conversation
  import opened OperationJournal
  import opened AgentSemantics
  import opened DurableMachine
  import opened CrashRecovery
  import opened RecoveryGate
  import CheckpointLog

  /** No checkpoint is on record under a key that the attempt is still to use. */
  predicate KeysAhead(s: Sys) {
    forall k :: k in s.log.index && k.2.runAttemptId == s.local.id.runAttemptId ==> k.2.sequence <= s.local.checkpointSequence
  }

  /**
   * How many operations at most lie before the next checkpoint: one call of a live turn, which is
   * checkpointed after each; the rest of a restored batch, which is checkpointed at its end; and none
   * when a checkpoint or the model comes next.
   */
  function BeforeNextCheckpoint(l: Local): nat {
    match l.phase
    case LoopHead => |l.pending|
    case ToolHead(calls, live) => if live then 1 else |calls|
    case Invoke(_, rest, live, _, _) => if live then 1 else |rest| + 1
    case SettleCall(_, rest, live, _, _) => if live then 0 else |rest|
    case _ => 0
  }

  lemma UntrackedSaveThrows(w: World, s: Sys)
    requires WellFormed(s.local) && Saving(s.local.phase) && w.checkpointing && !Tracked(s) && KeysAhead(s)
    ensures Tick(w, s).local.phase.Thrown? && Tick(w, s).log == s.log && Tick(w, s).invoked == s.invoked
  {
    var cmd := CommandAt(s.local);
    assert CheckpointLog.KeyOf(cmd) !in s.log.index;
    assert !CheckpointLog.Decide(s.log, cmd, w.acceptsState).Committed?;
  }

  lemma LoopHeadLosesNothing(w: World, s: Sys)
    requires s.local.phase.LoopHead?
    ensures var r := Tick(w, s);
      && r.invoked == s.invoked && r.log == s.log && r.local.id == s.local.id
      && r.local.checkpointSequence == s.local.checkpointSequence && !Completed(r.local)
      && BeforeNextCheckpoint(r.local) <= BeforeNextCheckpoint(s.local)
  {
  }

  lemma ToolHeadLosesNothing(w: World, s: Sys)
    requires WellFormed(s.local) && s.local.phase.ToolHead?
    ensures var r := Tick(w, s);
      && r.invoked == s.invoked && r.log == s.log && r.local.id == s.local.id
      && r.local.checkpointSequence == s.local.checkpointSequence && !Completed(r.local)
      && BeforeNextCheckpoint(r.local) <= BeforeNextCheckpoint(s.local)
  {
  }

  lemma SettleLosesNothing(w: World, s: Sys)
    requires s.local.phase.SettleCall?
    ensures var r := Tick(w, s);
      && r.invoked == s.invoked && r.log == s.log && r.local.id == s.local.id
      && r.local.checkpointSequence == s.local.checkpointSequence && !Completed(r.local)
      && BeforeNextCheckpoint(r.local) <= BeforeNextCheckpoint(s.local)
  {
  }

  /** Only an invocation adds an operation, and it uses up one of those that were left. */
  lemma QuietTickUsesUp(w: World, s: Sys)
    requires WellFormed(s.local) && !Saving(s.local.phase) && !Ended(s.local)
    ensures var r := Tick(w, s);
      && s.invoked <= r.invoked && r.log == s.log && r.local.id == s.local.id
      && r.local.checkpointSequence == s.local.checkpointSequence && !Completed(r.local)
      && |r.invoked| + BeforeNextCheckpoint(r.local) <= |s.invoked| + BeforeNextCheckpoint(s.local)
  {
    match s.local.phase {
      case LoopHead => LoopHeadLosesNothing(w, s);
      case ToolHead(_, _) => ToolHeadLosesNothing(w, s);
      case SettleCall(_, _, _, _, _) => SettleLosesNothing(w, s);
      case _ =>
    }
  }

  /**
   * An attempt that lost its tracking and goes on writes no checkpoint and returns no output. It
   * invokes no operation before its next model checkpoint, at most one in a live turn, and at most the
   * rest of a restored batch.
   */
  lemma {:induction false} UntrackedAttemptInvokesNoMore(w: World, s: Sys)
    requires WellFormed(s.local) && w.checkpointing && !Tracked(s) && KeysAhead(s) && !Ended(s.local)
    ensures var r := Finish(w, s);
      && r.log == s.log && !Completed(r.local)
      && s.invoked <= r.invoked && |r.invoked| <= |s.invoked| + BeforeNextCheckpoint(s.local)
    decreases ModelBudget(w, s.local.modelInvocations), CallsInHand(s.local), PhaseRank(s.local.phase)
  {
    TickMakesProgress(w, s);
    FinishSteps(w, s);
    var r := Tick(w, s);
    if Saving(s.local.phase) {
      UntrackedSaveThrows(w, s);
    } else {
      QuietTickUsesUp(w, s);
    }
    if Ended(r.local) {
      FinishSteps(w, r);
    } else {
      UntrackedAttemptInvokesNoMore(w, r);
    }
  }

  /** Whenever tracking is taken away in the middle of a run, the attempt is left with that much. */
  lemma ClearedAttemptInvokesNoMore(w: World, first: Sys, es: seq<Event>)
    requires FirstAttempt(first) && CheckpointLog.Numbered(first.log) && CheckpointLog.Indexed(first.log)
    requires IdsIdentifyCalls(w) && w.checkpointing && CrashHistory(w, first, es)
    requires !Ended(Play(w, first, es).local)
    ensures var s := Play(w, first, es);
      var r := Finish(w, Step(w, s, DoClear(s.local.id.runAttemptId)));
      && r.log.rows == s.log.rows && !Completed(r.local)
      && s.invoked <= r.invoked && |r.invoked| <= |s.invoked| + BeforeNextCheckpoint(s.local)
  {
    FirstAttemptIsSound(w, first);
    HistoryKeepsSound(w, first, es);
    var s := Play(w, first, es);
    UntrackedAttemptInvokesNoMore(w, Step(w, s, DoClear(s.local.id.runAttemptId)));
  }
}
