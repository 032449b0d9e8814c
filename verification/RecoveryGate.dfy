/**
 * Exactly when a resumed run is blocked, and what the recovery eligibility check therefore
 * guarantees to the runs it lets through. Checkpoints are read back as committed here, as a store that
 * copies does; `StoredRecovery` carries the results over to one that keeps references.
 */
module RecoveryGate {
  import opened Common
  import opened Conversation
  import opened OperationJournal
  import opened AgentSemantics
  import opened DurableMachine
  import opened CrashRecovery
  import CheckpointLog

  /** An operation of the run that may have taken effect and must not be repeated blindly. */
  predicate Unsettled(s: Sys, k: OpKey) {
    && k in s.journal && k.runId == s.local.id.runId
    && (|| s.journal[k].status == UNCERTAIN
        || (s.journal[k].status == PENDING && !SafeToAutoReplay(s.journal[k].idempotencyClass, PENDING)))
  }

  function FlightIds(l: Local): set<string> {
    if InFlight(l).Some? then {InFlight(l).value.id} else {}
  }

  /** An unsettled operation lies on the path that a restart will take again. */
  ghost predicate UnsettledIsAhead(w: World, s: Sys) {
    && (!Ended(s.local) ==>
          forall k :: Unsettled(s, k) && !IsInFlight(s.local, k) ==> k.callId in ReachedFrom(w, Ahead(w, s.local)))
    && (forall k :: Unsettled(s, k) ==> k.callId in ReachedFrom(w, StoredAhead(w, s)))
    && (!Ended(s.local) ==>
          ReachedFrom(w, Ahead(w, s.local)) + FlightIds(s.local) <= ReachedFrom(w, StoredAhead(w, s)))
  }

  /** Meeting a call either ends the attempt or takes that call, now in flight or settled, off the path. */
  lemma MeetingVerdict(w: World, s: Sys)
    requires WellFormed(s.local) && w.journaled && s.local.phase.ToolHead? && OwnEntry(w, s, s.local.phase.calls[0])
    ensures var r, k := Tick(w, s), KeyOf(s.local, s.local.phase.calls[0]);
      && (r.local.phase == Returned(Failed(RECOVERY_BLOCKED)) <==>
            CheckCall(w, s.local.toolInvocations, s.local.phase.calls[0]).Admitted? && Unsettled(s, k))
      && (!Ended(r.local) ==>
            && CheckCall(w, s.local.toolInvocations, s.local.phase.calls[0]).Admitted?
            && (IsInFlight(r.local, k) || !Unsettled(r, k)))
  {
  }

  lemma ToolHeadVerdict(w: World, s: Sys)
    requires Sound(w, s) && IdsIdentifyCalls(w) && w.journaled && s.local.phase.ToolHead?
    ensures var r, k := Tick(w, s), KeyOf(s.local, s.local.phase.calls[0]);
      && (r.local.phase == Returned(Failed(RECOVERY_BLOCKED)) <==>
            CheckCall(w, s.local.toolInvocations, s.local.phase.calls[0]).Admitted? && Unsettled(s, k))
      && (!Ended(r.local) ==>
            && CheckCall(w, s.local.toolInvocations, s.local.phase.calls[0]).Admitted?
            && (IsInFlight(r.local, k) || !Unsettled(r, k)))
  {
    CallAtHand(w, s);
    MeetingVerdict(w, s);
  }

  /** It writes no more than this call's journal entry, and takes no other call in flight. */
  lemma ToolHeadFrame(w: World, s: Sys)
    requires WellFormed(s.local) && w.journaled && s.local.phase.ToolHead?
    ensures var r, k := Tick(w, s), KeyOf(s.local, s.local.phase.calls[0]);
      && (r.journal == s.journal || (k !in s.journal && k in r.journal && r.journal == s.journal[k := r.journal[k]]))
      && r.log == s.log && r.local.id == s.local.id
      && (!Ended(r.local) && InFlight(r.local).Some? ==> InFlight(r.local).value == s.local.phase.calls[0])
  {
  }

  lemma ToolHeadKeepsPath(w: World, s: Sys)
    requires Sound(w, s) && IdsIdentifyCalls(w) && w.journaled && s.local.phase.ToolHead?
    requires UnsettledIsAhead(w, s)
    ensures UnsettledIsAhead(w, Tick(w, s))
  {
    var r, k := Tick(w, s), KeyOf(s.local, s.local.phase.calls[0]);
    ToolHeadVerdict(w, s);
    ToolHeadFrame(w, s);
    ToolHeadSimulates(w, s);
    assert StoredAhead(w, r) == StoredAhead(w, s);
    assert forall j :: j != k && Unsettled(r, j) ==> Unsettled(s, j);
    if CheckCall(w, s.local.toolInvocations, s.local.phase.calls[0]).Admitted? {
      assert Reached(w, ConfOf(s.local, s.local.phase.calls))
          == {k.callId} + ReachedFrom(w, Advance(w, ConfOf(s.local, s.local.phase.calls)));
    }
  }

  /** An answer commits the operation in flight; a failed one ends the attempt. */
  lemma SettleVerdict(w: World, s: Sys)
    requires Sound(w, s) && w.journaled && s.local.phase.SettleCall?
    ensures var r, k := Tick(w, s), KeyOf(s.local, s.local.phase.call);
      && r.local.phase != Returned(Failed(RECOVERY_BLOCKED))
      && k in s.journal && k in r.journal && r.journal == s.journal[k := r.journal[k]]
      && r.log == s.log && r.local.id == s.local.id
      && (if Usable(w, s.local.phase.reply).Ok? then !Ended(r.local) && r.journal[k].status == COMMITTED && InFlight(r.local).None?
          else Ended(r.local))
  {
  }

  /** The operation in flight is settled; what is ahead stays ahead. */
  lemma PathAcrossSettle(w: World, s: Sys, r: Sys, k: OpKey)
    requires UnsettledIsAhead(w, s) && !Ended(s.local) && IsInFlight(s.local, k) && k.callId in FlightIds(s.local)
    requires k in s.journal && k in r.journal && r.journal == s.journal[k := r.journal[k]] && r.local.id == s.local.id
    requires StoredAhead(w, r) == StoredAhead(w, s)
    requires Ended(r.local)
             || (InFlight(r.local).None? && r.journal[k].status == COMMITTED && Ahead(w, r.local) == Ahead(w, s.local))
    ensures UnsettledIsAhead(w, r)
  {
    assert forall j :: j != k && Unsettled(r, j) ==> Unsettled(s, j) && !IsInFlight(s.local, j);
  }

  lemma SettleKeepsPath(w: World, s: Sys)
    requires Sound(w, s) && w.journaled && s.local.phase.SettleCall?
    requires UnsettledIsAhead(w, s)
    ensures UnsettledIsAhead(w, Tick(w, s))
  {
    SettleVerdict(w, s);
    SettleSimulates(w, s);
    PathAcrossSettle(w, s, Tick(w, s), KeyOf(s.local, s.local.phase.call));
  }

  /** A checkpoint leaves everything as it was, or moves the stored point up to the present one. */
  lemma PathAcrossSave(w: World, s: Sys, r: Sys)
    requires UnsettledIsAhead(w, s) && !Ended(s.local) && InFlight(s.local).None?
    requires r.journal == s.journal && r.local.id == s.local.id
    requires StoredAhead(w, r) == StoredAhead(w, s)
             || ReachedFrom(w, Ahead(w, s.local)) <= ReachedFrom(w, StoredAhead(w, r))
    requires Ended(r.local) || (InFlight(r.local).None? && Ahead(w, r.local) == Ahead(w, s.local))
    ensures UnsettledIsAhead(w, r)
  {
  }

  lemma SaveKeepsPath(w: World, s: Sys)
    requires Sound(w, s) && Saving(s.local.phase)
    requires UnsettledIsAhead(w, s)
    ensures UnsettledIsAhead(w, Tick(w, s))
  {
    SaveSimulates(w, s);
    SaveStores(w, s);
    SaveFlight(w, s);
    SaveOutcome(w, s);
    PathAcrossSave(w, s, Tick(w, s));
  }

  lemma SaveOutcome(w: World, s: Sys)
    requires WellFormed(s.local) && Saving(s.local.phase)
    ensures InFlight(s.local).None? && !Ended(s.local)
    ensures Ended(Tick(w, s).local) || InFlight(Tick(w, s).local).None?
  {
  }

  lemma LoopHeadKeepsPath(w: World, s: Sys)
    requires Sound(w, s) && s.local.phase.LoopHead?
    requires UnsettledIsAhead(w, s)
    ensures UnsettledIsAhead(w, Tick(w, s))
  {
    var r := Tick(w, s);
    LoopHeadSimulates(w, s);
    LoopHeadFlight(w, s);
    assert r.log == s.log;
    assert forall j :: Unsettled(r, j) <==> Unsettled(s, j);
    assert InFlight(r.local).None?;
    assert s.local.pending == [] ==>
      Reached(w, ConfOf(s.local, [])) == ReachedFrom(w, Advance(w, ConfOf(s.local, [])));
  }

  lemma TickKeepsPath(w: World, s: Sys)
    requires Sound(w, s) && IdsIdentifyCalls(w) && w.journaled
    requires UnsettledIsAhead(w, s)
    ensures UnsettledIsAhead(w, Tick(w, s))
  {
    match s.local.phase {
      case ToolHead(_, _) => ToolHeadKeepsPath(w, s);
      case SettleCall(_, _, _, _, _) => SettleKeepsPath(w, s);
      case LoopHead => LoopHeadKeepsPath(w, s);
      case Prefetch =>
      case Invoke(_, _, _, _, _) => InvokeKeepsPath(w, s);
      case Returned(_) =>
      case Thrown =>
      case _ => SaveKeepsPath(w, s);
    }
  }

  lemma InvokeKeepsPath(w: World, s: Sys)
    requires Sound(w, s) && s.local.phase.Invoke?
    requires UnsettledIsAhead(w, s)
    ensures UnsettledIsAhead(w, Tick(w, s))
  {
    var r := Tick(w, s);
    assert forall j :: Unsettled(r, j) <==> Unsettled(s, j);
    assert Ahead(w, r.local) == Ahead(w, s.local) && StoredAhead(w, r) == StoredAhead(w, s);
    assert forall j :: IsInFlight(r.local, j) <==> IsInFlight(s.local, j);
  }

  lemma StepKeepsPath(w: World, s: Sys, e: Event)
    requires Sound(w, s) && IdsIdentifyCalls(w) && w.journaled && UnsettledIsAhead(w, s)
    requires e.DoRestart? ==> UnusedAttempt(s.log, e.runAttemptId) && !Completed(s.local)
    ensures UnsettledIsAhead(w, Step(w, s, e))
  {
    var r := Step(w, s, e);
    match e {
      case DoTick => TickKeepsPath(w, s);
      case DoRestart(_, _, _) =>
        RestartKeepsSound(w, s, e);
        assert forall j :: Unsettled(r, j) <==> Unsettled(s, j);
      case DoClear(_) =>
        assert forall j :: Unsettled(r, j) <==> Unsettled(s, j);
        assert StoredAhead(w, r) == StoredAhead(w, s);
    }
  }

  // ---- Running the resumed attempt to its end ----

  ghost predicate AnyUnsettled(s: Sys) {
    exists k :: Unsettled(s, k) && !IsInFlight(s.local, k)
  }

  lemma ToolHeadDecides(w: World, s: Sys)
    requires Sound(w, s) && IdsIdentifyCalls(w) && w.journaled && UnsettledIsAhead(w, s) && s.local.phase.ToolHead?
    ensures var r := Tick(w, s);
      if Ended(r.local) then IsBlocked(r.local) <==> AnyUnsettled(s) else AnyUnsettled(r) <==> AnyUnsettled(s)
  {
    var r, k := Tick(w, s), KeyOf(s.local, s.local.phase.calls[0]);
    ToolHeadVerdict(w, s);
    ToolHeadFrame(w, s);
    if CheckCall(w, s.local.toolInvocations, s.local.phase.calls[0]).Refused? {
      assert ReachedFrom(w, Ahead(w, s.local)) == {};
      ToolHeadEnds(w, s);
    } else if Unsettled(s, k) {
      assert Unsettled(s, k) && !IsInFlight(s.local, k);
    } else {
      ToolHeadEnds(w, s);
      assert forall j :: j != k ==> (Unsettled(r, j) <==> Unsettled(s, j));
      assert forall j :: Unsettled(r, j) && !IsInFlight(r.local, j) <==> Unsettled(s, j) && !IsInFlight(s.local, j);
    }
  }

  lemma ToolHeadEnds(w: World, s: Sys)
    requires WellFormed(s.local) && s.local.phase.ToolHead?
    ensures var l' := Tick(w, s).local;
      Ended(l') <==>
        || CheckCall(w, s.local.toolInvocations, s.local.phase.calls[0]).Refused?
        || l'.phase == Returned(Failed(RECOVERY_BLOCKED))
  {
  }

  lemma SettleDecides(w: World, s: Sys)
    requires Sound(w, s) && w.journaled && UnsettledIsAhead(w, s) && s.local.phase.SettleCall?
    ensures var r := Tick(w, s);
      if Ended(r.local) then IsBlocked(r.local) <==> AnyUnsettled(s) else AnyUnsettled(r) <==> AnyUnsettled(s)
  {
    var r, k := Tick(w, s), KeyOf(s.local, s.local.phase.call);
    SettleVerdict(w, s);
    if Ended(r.local) {
      assert ReachedFrom(w, Ahead(w, s.local)) == {};
    } else {
      assert forall j :: j != k ==> (Unsettled(r, j) <==> Unsettled(s, j));
      assert forall j :: Unsettled(r, j) && !IsInFlight(r.local, j) <==> Unsettled(s, j) && !IsInFlight(s.local, j);
    }
  }

  lemma SaveDecides(w: World, s: Sys)
    requires Sound(w, s) && UnsettledIsAhead(w, s) && Saving(s.local.phase) && !Tick(w, s).local.phase.Thrown?
    ensures var r := Tick(w, s);
      if Ended(r.local) then IsBlocked(r.local) <==> AnyUnsettled(s) else AnyUnsettled(r) <==> AnyUnsettled(s)
  {
    var r := Tick(w, s);
    SaveFlight(w, s);
    SaveOutcome(w, s);
    assert forall j :: Unsettled(r, j) <==> Unsettled(s, j);
    if Ended(r.local) {
      assert ReachedFrom(w, Ahead(w, s.local)) == {};
    } else {
      assert forall j :: Unsettled(r, j) && !IsInFlight(r.local, j) <==> Unsettled(s, j) && !IsInFlight(s.local, j);
    }
  }

  lemma LoopHeadDecides(w: World, s: Sys)
    requires Sound(w, s) && UnsettledIsAhead(w, s) && s.local.phase.LoopHead?
    ensures var r := Tick(w, s);
      if Ended(r.local) then IsBlocked(r.local) <==> AnyUnsettled(s) else AnyUnsettled(r) <==> AnyUnsettled(s)
  {
    var r := Tick(w, s);
    LoopHeadFlight(w, s);
    LoopHeadSimulates(w, s);
    assert forall j :: Unsettled(r, j) <==> Unsettled(s, j);
    if Ended(r.local) {
      assert Ahead(w, r.local).Stop? && !IsBlocked(r.local);
      assert ReachedFrom(w, Ahead(w, s.local)) == ReachedFrom(w, Ahead(w, r.local)) == {};
    } else {
      assert InFlight(r.local).None? && InFlight(s.local).None?;
      assert forall j :: Unsettled(r, j) && !IsInFlight(r.local, j) <==> Unsettled(s, j) && !IsInFlight(s.local, j);
    }
  }

  lemma PrefetchDecides(w: World, s: Sys)
    requires UnsettledIsAhead(w, s) && s.local.phase.Prefetch?
    ensures var r := Tick(w, s);
      if Ended(r.local) then IsBlocked(r.local) <==> AnyUnsettled(s) else AnyUnsettled(r) <==> AnyUnsettled(s)
  {
    var r := Tick(w, s);
    assert forall j :: Unsettled(r, j) && !IsInFlight(r.local, j) <==> Unsettled(s, j) && !IsInFlight(s.local, j);
  }

  lemma InvokeDecides(w: World, s: Sys)
    requires s.local.phase.Invoke?
    ensures !Ended(Tick(w, s).local) && (AnyUnsettled(Tick(w, s)) <==> AnyUnsettled(s))
  {
    var r := Tick(w, s);
    assert forall j :: Unsettled(r, j) && !IsInFlight(r.local, j) <==> Unsettled(s, j) && !IsInFlight(s.local, j);
  }

  lemma TickDecides(w: World, s: Sys)
    requires Sound(w, s) && IdsIdentifyCalls(w) && w.journaled && UnsettledIsAhead(w, s)
    requires !Ended(s.local) && !Tick(w, s).local.phase.Thrown?
    ensures var r := Tick(w, s);
      if Ended(r.local) then IsBlocked(r.local) <==> AnyUnsettled(s) else AnyUnsettled(r) <==> AnyUnsettled(s)
  {
    match s.local.phase {
      case ToolHead(_, _) => ToolHeadDecides(w, s);
      case SettleCall(_, _, _, _, _) => SettleDecides(w, s);
      case LoopHead => LoopHeadDecides(w, s);
      case Prefetch => PrefetchDecides(w, s);
      case Invoke(_, _, _, _, _) => InvokeDecides(w, s);
      case _ => SaveDecides(w, s);
    }
  }

  /**
   * An attempt left alone throws, because a checkpoint was refused, or it returns: blocked if and only
   * if an operation is unsettled, and otherwise with the outcome of the undisturbed run.
   */
  lemma {:induction false} FinishDecides(w: World, s: Sys)
    requires Sound(w, s) && IdsIdentifyCalls(w) && w.journaled && UnsettledIsAhead(w, s)
    requires !Ended(s.local)
    ensures var l := Finish(w, s).local;
      || l.phase.Thrown?
      || (&& l.phase.Returned?
          && (IsBlocked(l) <==> AnyUnsettled(s))
          && (!IsBlocked(l) ==> FinalOf(l, l.phase.result) == IdealRun(w)))
    decreases ModelBudget(w, s.local.modelInvocations), CallsInHand(s.local), PhaseRank(s.local.phase)
  {
    TickMakesProgress(w, s);
    TickKeepsSound(w, s);
    TickKeepsPath(w, s);
    var r := Tick(w, s);
    if !r.local.phase.Thrown? {
      TickDecides(w, s);
    }
    if !Ended(r.local) {
      FinishDecides(w, r);
    } else {
      assert Finish(w, r) == r;
    }
  }

  // ---- When checkpoints are refused ----

  predicate Tracked(s: Sys) {
    && s.local.id.runAttemptId in s.log.attempts
    && s.log.attempts[s.local.id.runAttemptId] == CheckpointLog.Tracked(s.local.id.owner, s.local.id.generation)
  }

  /** The store accepts every state that this attempt, left alone, goes on to commit. */
  predicate CommitsAccepted(w: World, s: Sys)
    requires WellFormed(s.local)
    decreases ModelBudget(w, s.local.modelInvocations), CallsInHand(s.local), PhaseRank(s.local.phase)
  {
    if Ended(s.local) then true
    else
      TickMakesProgress(w, s);
      && (Saving(s.local.phase) && w.checkpointing ==> w.acceptsState(CommandAt(s.local).state))
      && CommitsAccepted(w, Tick(w, s))
  }

  lemma QuietTickDoesNotThrow(w: World, s: Sys)
    requires WellFormed(s.local) && !Saving(s.local.phase) && !s.local.phase.Thrown?
    ensures !Tick(w, s).local.phase.Thrown?
  {
  }

  /** A tracked attempt throws at a checkpoint exactly when the store refuses its state. */
  lemma SaveThrowsIffRefused(w: World, s: Sys)
    requires WellFormed(s.local) && LogSound(s) && Saving(s.local.phase) && Tracked(s)
    ensures Tick(w, s).local.phase.Thrown? <==> w.checkpointing && !w.acceptsState(CommandAt(s.local).state)
    ensures Tracked(Tick(w, s))
  {
    SaveFlight(w, s);
    if w.checkpointing {
      AcceptedCommitAppends(w, s);
    }
  }

  /** A tracked attempt returns if and only if the store accepts every state it commits. */
  lemma {:induction false} ReturnsIffCommitsAccepted(w: World, s: Sys)
    requires Sound(w, s) && IdsIdentifyCalls(w) && Tracked(s) && !s.local.phase.Thrown?
    ensures Finish(w, s).local.phase.Returned? <==> CommitsAccepted(w, s)
    decreases ModelBudget(w, s.local.modelInvocations), CallsInHand(s.local), PhaseRank(s.local.phase)
  {
    if !Ended(s.local) {
      var r := Tick(w, s);
      TickMakesProgress(w, s);
      TickKeepsSound(w, s);
      if Saving(s.local.phase) {
        SaveThrowsIffRefused(w, s);
      } else {
        QuietTickDoesNotThrow(w, s);
        QuietTickKeepsLog(w, s);
      }
      if r.local.phase.Thrown? {
        assert Finish(w, r) == r;
      } else {
        ReturnsIffCommitsAccepted(w, r);
      }
    }
  }

  lemma {:induction false} HistoryKeepsPath(w: World, s: Sys, es: seq<Event>)
    requires Sound(w, s) && IdsIdentifyCalls(w) && w.journaled && UnsettledIsAhead(w, s) && CrashHistory(w, s, es)
    ensures UnsettledIsAhead(w, Play(w, s, es))
    decreases |es|
  {
    if es != [] {
      StepKeepsSound(w, s, es[0]);
      StepKeepsPath(w, s, es[0]);
      HistoryKeepsPath(w, Step(w, s, es[0]), es[1..]);
    }
  }

  // ---- The theorems ----

  /**
   * Take any history of crashes, start one more attempt and let it run to its end. It returns if and
   * only if the store accepts the states it commits, and throws otherwise. When it returns, it
   * returns the recovery-blocked code if and only if the journal held an operation of the run that
   * was UNCERTAIN, or PENDING and not safe to replay; otherwise it returns exactly the outcome of the
   * undisturbed run.
   */
  lemma ResumeIsBlockedExactlyWhenUnsettled(w: World, first: Sys, es: seq<Event>, restart: Event)
    requires FirstAttempt(first) && CheckpointLog.Numbered(first.log) && CheckpointLog.Indexed(first.log)
    requires IdsIdentifyCalls(w) && w.journaled
    requires CrashHistory(w, first, es + [restart]) && restart.DoRestart?
    ensures var s := Play(w, first, es + [restart]);
      var l := Finish(w, s).local;
      && (l.phase.Returned? <==> CommitsAccepted(w, s))
      && (l.phase.Returned? || l.phase.Thrown?)
      && (l.phase.Returned? ==>
            && (l.phase.result == Failed(RECOVERY_BLOCKED) <==> exists k :: Unsettled(s, k))
            && (l.phase.result != Failed(RECOVERY_BLOCKED) ==> FinalOf(l, l.phase.result) == IdealRun(w)))
  {
    var s := Play(w, first, es + [restart]);
    FirstAttemptIsSound(w, first);
    HistoryKeepsSound(w, first, es + [restart]);
    FirstAttemptHasPath(w, first);
    HistoryKeepsPath(w, first, es + [restart]);
    PlayEndsWith(w, first, es, restart);
    assert forall k :: Unsettled(s, k) <==> Unsettled(s, k) && !IsInFlight(s.local, k);
    FinishDecides(w, s);
    ReturnsIffCommitsAccepted(w, s);
  }

  lemma FirstAttemptHasPath(w: World, s: Sys)
    requires FirstAttempt(s)
    ensures UnsettledIsAhead(w, s)
  {
    NoRowsNoLatest(s.log.rows, s.local.id.workspaceId, s.local.id.runId);
  }

  lemma {:induction false} PlayEndsWith(w: World, s: Sys, es: seq<Event>, last: Event)
    requires WellFormed(s.local)
    ensures Play(w, s, es + [last]) == Step(w, Play(w, s, es), last)
    decreases |es|
  {
    if es == [] {
      assert Play(w, Step(w, s, last), []) == Step(w, s, last);
    } else {
      assert (es + [last])[1..] == es[1..] + [last];
      PlayEndsWith(w, Step(w, s, es[0]), es[1..], last);
    }
  }

  /** The eligibility check: a checkpoint exists and no journal entry of the run is blocking. */
  ghost predicate Eligible(s: Sys) {
    && CheckpointLog.FindLatest(s.log.rows, s.local.id.workspaceId, s.local.id.runId).Some?
    && forall k :: !Blocking(s.journal, s.local.id.runId, k)
  }

  /**
   * A recovery attempt scheduled under the eligibility check completes the run as if nothing had
   * happened, unless one of its own checkpoints is refused.
   */
  lemma EligibleRecoveryCompletes(w: World, first: Sys, es: seq<Event>, restart: Event)
    requires FirstAttempt(first) && CheckpointLog.Numbered(first.log) && CheckpointLog.Indexed(first.log)
    requires IdsIdentifyCalls(w) && w.journaled
    requires CrashHistory(w, first, es + [restart]) && restart.DoRestart?
    requires Eligible(Play(w, first, es))
    ensures var s := Play(w, first, es + [restart]);
      var l := Finish(w, s).local;
      if CommitsAccepted(w, s) then l.phase.Returned? && FinalOf(l, l.phase.result) == IdealRun(w) else l.phase.Thrown?
  {
    ResumeIsBlockedExactlyWhenUnsettled(w, first, es, restart);
    PlayEndsWith(w, first, es, restart);
    var s := Play(w, first, es + [restart]);
    forall k ensures !Unsettled(s, k) {
      assert !Blocking(Play(w, first, es).journal, s.local.id.runId, k);
    }
  }

  // ---- After the completion checkpoint ----

  /** How an attempt restarted from the completion checkpoint of `done` ends. */
  function SecondEnding(w: World, done: Local, output: Json): Phase {
    var again := done.(modelInvocations := done.modelInvocations + 1);
    if done.modelInvocations >= w.maxModelInvocations then Returned(Failed(BUDGET_EXCEEDED))
    else if w.acceptsState(Snapshot(again, [])) then Returned(Succeeded(output))
    else Thrown
  }

  /** The completion checkpoint is the latest one, so a restart begins at the loop head with its state. */
  lemma RestartsAtCompletion(w: World, s: Sys, runAttemptId: string, owner: string, generation: nat)
    requires WellFormed(s.local) && LogSound(s) && s.local.phase.SaveComplete? && w.checkpointing
    requires Tick(w, s).local.phase.Returned?
    ensures var done := Tick(w, s);
      && done.local == s.local.(phase := Returned(Succeeded(s.local.phase.output)),
                                checkpointSequence := s.local.checkpointSequence + 1)
      && Restart(done, runAttemptId, owner, generation).local ==
           done.local.(id := done.local.id.(runAttemptId := runAttemptId, owner := owner, generation := generation),
                       pending := [], checkpointSequence := 0, phase := LoopHead)
  {
    AcceptedCommitAppends(w, s);
    CheckpointLog.LatestIsLastAppend(s.log, CommandAt(s.local));
  }

  /** Asked again, the model gives the same answer, and only the budget can be in the way. */
  lemma AskingAgain(w: World, s: Sys, again: Sys)
    requires FlightSound(w, s) && s.local.phase.SaveComplete?
    requires again.local.phase.LoopHead? && again.local.pending == []
    requires again.local.messages == s.local.messages && again.local.toolInvocations == s.local.toolInvocations
    ensures Tick(w, again) ==
      if again.local.modelInvocations >= w.maxModelInvocations
      then again.(local := again.local.(phase := Returned(Failed(BUDGET_EXCEEDED))))
      else again.(local := again.local.(modelInvocations := again.local.modelInvocations + 1,
                                        phase := SaveComplete(s.local.phase.output)))
  {
  }

  /** The second completion checkpoint is written under a key of its own. */
  lemma CompletingAgain(w: World, t: Sys)
    requires t.local.phase.SaveComplete? && w.checkpointing && Tracked(t) && UnusedAttempt(t.log, t.local.id.runAttemptId)
    ensures Tick(w, t).local == t.local.(checkpointSequence := t.local.checkpointSequence + 1, phase :=
      if w.acceptsState(Snapshot(t.local, [])) then Returned(Succeeded(t.local.phase.output)) else Thrown)
  {
  }

  lemma FinishSteps(w: World, s: Sys)
    requires WellFormed(s.local)
    ensures Ended(s.local) ==> Finish(w, s) == s
    ensures !Ended(s.local) ==> Finish(w, s) == Finish(w, Tick(w, s))
  {
  }

  /** The restarted attempt, from the loop head to its end. */
  lemma SecondAttemptEnds(w: World, s: Sys, again: Sys)
    requires FlightSound(w, s) && s.local.phase.SaveComplete? && w.checkpointing
    requires again.local.phase.LoopHead? && again.local.pending == []
    requires again.local.messages == s.local.messages && again.local.toolInvocations == s.local.toolInvocations
    requires Tracked(again) && UnusedAttempt(again.log, again.local.id.runAttemptId)
    ensures EndsAgain(w, again.local, Finish(w, again).local, s.local.phase.output)
  {
    AskingAgain(w, s, again);
    FinishSteps(w, again);
    var t := Tick(w, again);
    FinishSteps(w, t);
    if again.local.modelInvocations < w.maxModelInvocations {
      CompletingAgain(w, t);
      FinishSteps(w, Tick(w, t));
    }
  }

  lemma RestartFromCompletion(w: World, s: Sys, done: Sys, runAttemptId: string, owner: string, generation: nat)
    requires FlightSound(w, s) && s.local.phase.SaveComplete? && w.checkpointing
    requires done.local.messages == s.local.messages && done.local.toolInvocations == s.local.toolInvocations
    requires Restart(done, runAttemptId, owner, generation).local ==
      done.local.(id := done.local.id.(runAttemptId := runAttemptId, owner := owner, generation := generation),
                  pending := [], checkpointSequence := 0, phase := LoopHead)
    requires UnusedAttempt(done.log, runAttemptId)
    ensures EndsAgain(w, done.local, Finish(w, Restart(done, runAttemptId, owner, generation)).local, s.local.phase.output)
  {
    SecondAttemptEnds(w, s, Restart(done, runAttemptId, owner, generation));
  }

  /** `l` is how an attempt restarted from the completion checkpoint of `done` stands at its end. */
  predicate EndsAgain(w: World, done: Local, l: Local, output: Json) {
    && l.phase == SecondEnding(w, done, output)
    && l.messages == done.messages && l.toolInvocations == done.toolInvocations
    && l.modelInvocations == done.modelInvocations + (if done.modelInvocations < w.maxModelInvocations then 1 else 0)
  }

  /**
   * The completion checkpoint counts the last model call but does not hold its answer. An attempt
   * restarted from it asks again: it fails when no model call is left in the budget, and otherwise
   * comes to the same output with the same transcript and a model counter one higher, unless the
   * second completion checkpoint is refused.
   */
  lemma RestartAfterCompletion(w: World, s: Sys, runAttemptId: string, owner: string, generation: nat)
    requires WellFormed(s.local) && LogSound(s) && FlightSound(w, s)
    requires s.local.phase.SaveComplete? && w.checkpointing && Tick(w, s).local.phase.Returned?
    requires UnusedAttempt(Tick(w, s).log, runAttemptId)
    ensures Tick(w, s).local.phase == Returned(Succeeded(s.local.phase.output))
    ensures EndsAgain(w, Tick(w, s).local, Finish(w, Restart(Tick(w, s), runAttemptId, owner, generation)).local,
                      s.local.phase.output)
  {
    RestartsAtCompletion(w, s, runAttemptId, owner, generation);
    RestartFromCompletion(w, s, Tick(w, s), runAttemptId, owner, generation);
  }
}
