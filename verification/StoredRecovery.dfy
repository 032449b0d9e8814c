/**
 * Crash recovery over a checkpoint store as it really is: a copying one, which gives every checkpoint
 * back as it was committed, or one that keeps references, whose altered checkpoints are refused.
 */
module StoredRecovery {
  import opened Common
  import opened Conversation
  import opened OperationJournal
  import opened AgentSemantics
  import opened DurableMachine
  import opened CrashRecovery
  import opened RecoveryGate
  import opened CheckpointReadBack
  import opened ConsistentCut
  import CheckpointLog

  // ---- A copying store is the plain machine ----

  /** An event does what it does on the plain machine, or is a restart that is refused. */
  lemma HeldStep(kind: StoreKind, digest: Digest, w: World, x: Held, e: Event)
    requires WellFormed(x.sys.local) && Kept(w, x) && Reliable(kind, digest)
    ensures var r := StepHeld(kind, digest, w, x, e).sys;
      if e.DoRestart? && Altered(kind, x) then r == RefusedRestart(x.sys, e.runAttemptId, e.owner, e.generation)
      else r == Step(w, x.sys, e)
  {
    RefusedIffGrown(kind, digest, w, x);
    if e.DoRestart? && !Altered(kind, x) {
      StartsAsCommitted(kind, digest, w, x, e.runAttemptId, e.owner, e.generation);
    }
  }

  /** The latest checkpoint reads back with more messages than were committed. */
  predicate Altered(kind: StoreKind, x: Held) {
    kind.Referencing? && Latest(x.sys).Some? && Grown(x, Latest(x.sys).value)
  }

  /** So what is proved of the plain machine holds as it stands for a store that copies. */
  lemma {:induction false} CopyingIsPlain(digest: Digest, w: World, x: Held, es: seq<Event>)
    requires WellFormed(x.sys.local) && Kept(w, x)
    ensures HeldHistory(Copying, digest, w, x, es) <==> CrashHistory(w, x.sys, es)
    ensures CrashHistory(w, x.sys, es) ==> PlayHeld(Copying, digest, w, x, es).sys == Play(w, x.sys, es)
    decreases |es|
  {
    if es != [] && Allowed(x, es[0]) {
      HeldStep(Copying, digest, w, x, es[0]);
      var y := StepHeld(Copying, digest, w, x, es[0]);
      StepKeepsKept(Copying, digest, w, x, es[0]);
      CopyingIsPlain(digest, w, y, es[1..]);
    }
  }

  // ---- A refused restart keeps the recovery invariant ----

  lemma RefusalKeepsSound(w: World, s: Sys, runAttemptId: string, owner: string, generation: nat)
    requires Sound(w, s) && UnusedAttempt(s.log, runAttemptId) && !Completed(s.local)
    ensures Sound(w, RefusedRestart(s, runAttemptId, owner, generation))
  {
    var r := RefusedRestart(s, runAttemptId, owner, generation);
    SameJournalStaysSound(w, s, r);
    assert StoredAhead(w, r) == StoredAhead(w, s);
  }

  lemma HeldStepKeepsSound(kind: StoreKind, digest: Digest, w: World, x: Held, e: Event)
    requires Sound(w, x.sys) && Kept(w, x) && Reliable(kind, digest) && IdsIdentifyCalls(w) && Allowed(x, e)
    ensures Sound(w, StepHeld(kind, digest, w, x, e).sys)
  {
    HeldStep(kind, digest, w, x, e);
    if e.DoRestart? && Altered(kind, x) {
      RefusalKeepsSound(w, x.sys, e.runAttemptId, e.owner, e.generation);
    } else {
      CrashRecovery.StepKeepsSound(w, x.sys, e);
    }
  }

  lemma {:induction false} HeldHistoryKeepsSound(kind: StoreKind, digest: Digest, w: World, x: Held, es: seq<Event>)
    requires Sound(w, x.sys) && Kept(w, x) && Reliable(kind, digest) && IdsIdentifyCalls(w)
    requires HeldHistory(kind, digest, w, x, es)
    ensures Sound(w, PlayHeld(kind, digest, w, x, es).sys)
    decreases |es|
  {
    if es != [] {
      HeldStepKeepsSound(kind, digest, w, x, es[0]);
      StepKeepsKept(kind, digest, w, x, es[0]);
      HeldHistoryKeepsSound(kind, digest, w, StepHeld(kind, digest, w, x, es[0]), es[1..]);
    }
  }

  /**
   * Crash and resume equivalence on either store: a returned result is the
   * recovery-blocked code or the undisturbed run's, with its transcript and counters.
   */
  lemma StoredRunEqualsUndisturbedRun(kind: StoreKind, digest: Digest, w: World, first: Sys, es: seq<Event>)
    requires FirstAttempt(first) && CheckpointLog.Numbered(first.log) && CheckpointLog.Indexed(first.log)
    requires IdsIdentifyCalls(w) && Reliable(kind, digest) && HeldHistory(kind, digest, w, Before(first), es)
    ensures var l := PlayHeld(kind, digest, w, Before(first), es).sys.local;
      l.phase.Returned? ==>
        l.phase.result == Failed(RECOVERY_BLOCKED) || FinalOf(l, l.phase.result) == IdealRun(w)
  {
    FirstAttemptIsSound(w, first);
    FirstAttemptIsKept(w, first);
    HeldHistoryKeepsSound(kind, digest, w, Before(first), es);
  }

  // ---- The recovery gate in front of either store ----

  lemma RefusalKeepsPath(w: World, s: Sys, runAttemptId: string, owner: string, generation: nat)
    requires UnsettledIsAhead(w, s)
    ensures UnsettledIsAhead(w, RefusedRestart(s, runAttemptId, owner, generation))
  {
    var r := RefusedRestart(s, runAttemptId, owner, generation);
    assert StoredAhead(w, r) == StoredAhead(w, s);
    assert forall k :: Unsettled(r, k) <==> Unsettled(s, k);
  }

  lemma {:induction false} HeldHistoryKeepsPath(kind: StoreKind, digest: Digest, w: World, x: Held, es: seq<Event>)
    requires Sound(w, x.sys) && Kept(w, x) && Reliable(kind, digest) && IdsIdentifyCalls(w)
    requires w.journaled && UnsettledIsAhead(w, x.sys) && HeldHistory(kind, digest, w, x, es)
    ensures UnsettledIsAhead(w, PlayHeld(kind, digest, w, x, es).sys)
    decreases |es|
  {
    if es != [] {
      var e := es[0];
      HeldStep(kind, digest, w, x, e);
      if e.DoRestart? && Altered(kind, x) {
        RefusalKeepsPath(w, x.sys, e.runAttemptId, e.owner, e.generation);
      } else {
        StepKeepsPath(w, x.sys, e);
      }
      HeldStepKeepsSound(kind, digest, w, x, e);
      StepKeepsKept(kind, digest, w, x, e);
      HeldHistoryKeepsPath(kind, digest, w, StepHeld(kind, digest, w, x, e), es[1..]);
    }
  }

  lemma RestartedDecides(w: World, s: Sys, restart: Event)
    requires Sound(w, s) && IdsIdentifyCalls(w) && w.journaled && UnsettledIsAhead(w, s)
    requires restart.DoRestart? && UnusedAttempt(s.log, restart.runAttemptId) && !Completed(s.local)
    ensures var r := Restart(s, restart.runAttemptId, restart.owner, restart.generation);
      var l := Finish(w, r).local;
      if !CommitsAccepted(w, r) then l.phase.Thrown?
      else && l.phase.Returned?
           && (IsBlocked(l) <==> exists k :: Unsettled(s, k))
           && (!IsBlocked(l) ==> FinalOf(l, l.phase.result) == IdealRun(w))
  {
    var r := Step(w, s, restart);
    CrashRecovery.StepKeepsSound(w, s, restart);
    StepKeepsPath(w, s, restart);
    assert forall k :: Unsettled(s, k) <==> Unsettled(r, k) && !IsInFlight(r.local, k);
    FinishDecides(w, r);
    ReturnsIffCommitsAccepted(w, r);
  }

  /** It is altered, and no attempt is running. */
  predicate Corrupt(kind: StoreKind, x: Held) {
    Altered(kind, x) && x.sys.local.phase.Thrown?
  }

  lemma CorruptStays(kind: StoreKind, digest: Digest, w: World, x: Held, e: Event)
    requires WellFormed(x.sys.local) && Kept(w, x) && Reliable(kind, digest) && Corrupt(kind, x) && Allowed(x, e)
    ensures var r := StepHeld(kind, digest, w, x, e);
      Corrupt(kind, r) && r.sys.log.rows == x.sys.log.rows && r.sys.journal == x.sys.journal && r.sys.invoked == x.sys.invoked
  {
    RefusedIffGrown(kind, digest, w, x);
    LatestIsOfRun(x.sys);
    var row := Latest(x.sys).value;
    assert RowKept(w, x, row);
    StepKeepsRow(kind, digest, w, x, e, row);
  }

  /** From then on every restart is refused: the run never does anything again. */
  lemma {:induction false} CorruptForever(kind: StoreKind, digest: Digest, w: World, x: Held, es: seq<Event>)
    requires WellFormed(x.sys.local) && Kept(w, x) && Reliable(kind, digest) && Corrupt(kind, x)
    requires HeldHistory(kind, digest, w, x, es)
    ensures var r := PlayHeld(kind, digest, w, x, es);
      Corrupt(kind, r) && r.sys.log.rows == x.sys.log.rows && r.sys.journal == x.sys.journal && r.sys.invoked == x.sys.invoked
    decreases |es|
  {
    if es != [] {
      CorruptStays(kind, digest, w, x, es[0]);
      StepKeepsKept(kind, digest, w, x, es[0]);
      CorruptForever(kind, digest, w, StepHeld(kind, digest, w, x, es[0]), es[1..]);
    }
  }

  lemma RefusalCorrupts(kind: StoreKind, digest: Digest, w: World, x: Held, restart: Event)
    requires WellFormed(x.sys.local) && Kept(w, x) && Reliable(kind, digest) && Allowed(x, restart) && restart.DoRestart?
    requires Altered(kind, x)
    ensures Corrupt(kind, StepHeld(kind, digest, w, x, restart))
  {
    RefusedIffGrown(kind, digest, w, x);
    LatestIsOfRun(x.sys);
    RestartKeepsRow(kind, digest, w, x, restart, Latest(x.sys).value);
    assert RowKept(w, x, Latest(x.sys).value);
  }

  /**
   * Take any history on either store, start one more attempt and let it run to its end. It returns if
   * and only if the latest checkpoint is unaltered and the store accepts the states it commits, and it
   * throws otherwise; it returns the recovery-blocked code if and only if an operation of the run was
   * UNCERTAIN, or PENDING and not safe to replay, and else the undisturbed run's outcome.
   */
  lemma ResumeOnStore(kind: StoreKind, digest: Digest, w: World, first: Sys, es: seq<Event>, restart: Event)
    requires FirstAttempt(first) && CheckpointLog.Numbered(first.log) && CheckpointLog.Indexed(first.log)
    requires IdsIdentifyCalls(w) && w.journaled && Reliable(kind, digest)
    requires HeldHistory(kind, digest, w, Before(first), es)
    requires restart.DoRestart? && Allowed(PlayHeld(kind, digest, w, Before(first), es), restart)
    ensures var x := PlayHeld(kind, digest, w, Before(first), es);
      var r := StepHeld(kind, digest, w, x, restart).sys;
      var l := Finish(w, r).local;
      if Altered(kind, x) || !CommitsAccepted(w, r) then l.phase.Thrown?
      else && l.phase.Returned?
           && (IsBlocked(l) <==> exists k :: Unsettled(x.sys, k))
           && (!IsBlocked(l) ==> FinalOf(l, l.phase.result) == IdealRun(w))
  {
    var x := PlayHeld(kind, digest, w, Before(first), es);
    FirstAttemptIsSound(w, first);
    FirstAttemptHasPath(w, first);
    FirstAttemptIsKept(w, first);
    HeldHistoryKeepsSound(kind, digest, w, Before(first), es);
    HeldHistoryKeepsPath(kind, digest, w, Before(first), es);
    HistoryKeepsKept(kind, digest, w, Before(first), es);
    HeldStep(kind, digest, w, x, restart);
    RestartedDecides(w, x.sys, restart);
  }

  /**
   * What becomes of a run that passes the eligibility check. If the latest checkpoint is altered, this
   * recovery and every later one is refused. Otherwise it completes the run like the undisturbed one, or
   * throws at a refused checkpoint.
   */
  lemma EligibleRecoveryOnStore(kind: StoreKind, digest: Digest, w: World, first: Sys, es: seq<Event>, restart: Event,
                                later: seq<Event>)
    requires FirstAttempt(first) && CheckpointLog.Numbered(first.log) && CheckpointLog.Indexed(first.log)
    requires IdsIdentifyCalls(w) && w.journaled && Reliable(kind, digest)
    requires HeldHistory(kind, digest, w, Before(first), es)
    requires var x := PlayHeld(kind, digest, w, Before(first), es);
      && Eligible(x.sys) && restart.DoRestart? && Allowed(x, restart)
      && HeldHistory(kind, digest, w, StepHeld(kind, digest, w, x, restart), later)
    ensures var x := PlayHeld(kind, digest, w, Before(first), es);
      var r := StepHeld(kind, digest, w, x, restart);
      var l := Finish(w, r.sys).local;
      if Altered(kind, x) then PlayHeld(kind, digest, w, r, later).sys.local.phase.Thrown?
      else if CommitsAccepted(w, r.sys) then l.phase.Returned? && FinalOf(l, l.phase.result) == IdealRun(w)
      else l.phase.Thrown?
  {
    var x := PlayHeld(kind, digest, w, Before(first), es);
    FirstAttemptIsKept(w, first);
    HistoryKeepsKept(kind, digest, w, Before(first), es);
    ResumeOnStore(kind, digest, w, first, es, restart);
    if Altered(kind, x) {
      RefusalCorrupts(kind, digest, w, x, restart);
      StepKeepsKept(kind, digest, w, x, restart);
      CorruptForever(kind, digest, w, StepHeld(kind, digest, w, x, restart), later);
    } else {
      forall k ensures !Unsettled(x.sys, k) {
        assert !Blocking(x.sys.journal, x.sys.local.id.runId, k);
      }
    }
  }

  // ---- Whether what is read back is a consistent cut ----

  lemma RefusalKeepsCut(w: World, s: Sys, runAttemptId: string, owner: string, generation: nat)
    requires CutEverywhere(w, s, true) && !Completed(s.local)
    ensures CutEverywhere(w, RefusedRestart(s, runAttemptId, owner, generation), true)
  {
  }

  lemma {:induction false} HeldHistoryKeepsCut(kind: StoreKind, digest: Digest, w: World, x: Held, es: seq<Event>)
    requires WellFormed(x.sys.local) && Kept(w, x) && Reliable(kind, digest)
    requires CutEverywhere(w, x.sys, true) && HeldHistory(kind, digest, w, x, es)
    ensures CutEverywhere(w, PlayHeld(kind, digest, w, x, es).sys, true)
    decreases |es|
  {
    if es != [] {
      var e := es[0];
      HeldStep(kind, digest, w, x, e);
      match e {
        case DoTick => TickKeepsCut(w, x.sys, true);
        case DoRestart(id, owner, generation) =>
          if Altered(kind, x) {
            RefusalKeepsCut(w, x.sys, id, owner, generation);
          } else {
            RestartKeepsCut(w, x.sys, e, true);
          }
        case DoClear(_) =>
      }
      StepKeepsKept(kind, digest, w, x, e);
      HeldHistoryKeepsCut(kind, digest, w, StepHeld(kind, digest, w, x, e), es[1..]);
    }
  }

  /** A pushed message is counted. */
  lemma {:induction false} PushedIsCounted(a: seq<Message>, b: seq<Message>)
    requires Extends(a, b)
    ensures ToolMessages(a) <= ToolMessages(b) && AssistantMessages(a) <= AssistantMessages(b)
    ensures ToolMessages(b) + AssistantMessages(b) == ToolMessages(a) + AssistantMessages(a) + |b| - |a|
    decreases |b|
  {
    if |a| < |b| {
      PushedIsCounted(a, b[..|b| - 1]);
    } else {
      assert a == b;
    }
  }

  lemma GrownIsNoCut(w: World, row: CheckpointLog.Row, messages: seq<Message>, exact: bool)
    requires CutRow(w, row, true) && Extends(row.state.messages, messages) && |row.state.messages| < |messages|
    ensures !CutRow(w, row.(state := row.state.(messages := messages)), exact)
  {
    PushedIsCounted(row.state.messages, messages);
  }

  /**
   * Every checkpoint is a consistent cut as it was committed. As it reads back it is one, even by the
   * looser count, if and only if the store copies or its attempt has pushed nothing since.
   */
  lemma CheckpointReadsBackAsCutIffUnaltered(kind: StoreKind, digest: Digest, w: World, first: Sys, es: seq<Event>,
                                             row: CheckpointLog.Row, exact: bool)
    requires FirstAttempt(first) && Reliable(kind, digest) && HeldHistory(kind, digest, w, Before(first), es)
    requires OfRun(PlayHeld(kind, digest, w, Before(first), es).sys, row)
    ensures var x := PlayHeld(kind, digest, w, Before(first), es);
      CutRow(w, row, true)
      && (CutRow(w, row.(state := ReadBack(kind, x, row)), exact) <==> kind.Copying? || !Grown(x, row))
  {
    var x := PlayHeld(kind, digest, w, Before(first), es);
    assert CutEverywhere(w, first, true);
    FirstAttemptIsKept(w, first);
    HeldHistoryKeepsCut(kind, digest, w, Before(first), es);
    HistoryKeepsKept(kind, digest, w, Before(first), es);
    assert RowKept(w, x, row);
    ReadsBackIffNotGrown(w, x, row);
    if kind.Referencing? && Grown(x, row) {
      GrownIsNoCut(w, row, ArrayOf(x, row), exact);
    } else {
      assert row.(state := ReadBack(kind, x, row)) == row;
    }
  }
}
