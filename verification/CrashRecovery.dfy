/**
 * Crash and resume equivalence: the durable machine, crashed and restarted anywhere, refines the
 * undisturbed run of AgentSemantics; and the exact condition under which a resume is blocked.
 */
module CrashRecovery {
  import opened Common
  import opened Conversation
  import opened OperationJournal
  import opened AgentSemantics
  import opened DurableMachine
  import CheckpointLog

  // ---- What is still ahead of an attempt, in terms of the undisturbed run ----

  function ConfOf(l: Local, pending: seq<Call>): Conf {
    Conf(l.messages, l.modelInvocations, l.toolInvocations, pending)
  }

  function FinalOf(l: Local, result: ExecutionResult): Final {
    Final(result, l.messages, l.modelInvocations, l.toolInvocations)
  }

  function Ahead(w: World, l: Local): Progress {
    match l.phase
    case Prefetch =>
      (match w.prefetch
       case None => Stop(FinalOf(l, Failed(CONTEXT_UNAVAILABLE)))
       case Some(context) => Go(ConfOf(l.(messages := InitialMessages(w, context)), l.pending)))
    case SavePrefetch => Go(ConfOf(l, l.pending))
    case LoopHead => Go(ConfOf(l, l.pending))
    case SaveModel(calls) => Go(ConfOf(l, calls))
    case ToolHead(calls, _) => Go(ConfOf(l, calls))
    case Invoke(call, rest, _, version, _) => Reply(w, ConfOf(l, rest), call, w.tool(call, version))
    case SettleCall(call, rest, _, _, reply) => Reply(w, ConfOf(l, rest), call, reply)
    case SaveTool(rest, _) => Go(ConfOf(l, rest))
    case SaveComplete(output) => Stop(FinalOf(l, Succeeded(output)))
    case Returned(result) => Stop(FinalOf(l, result))
    case Thrown => Stop(FinalOf(l, Failed(RECOVERY_BLOCKED)))
  }

  function CallsFrom(w: World, p: Progress): set<Call> {
    if p.Go? then Calls(w, p.conf) else {}
  }

  function ReachedFrom(w: World, p: Progress): set<string> {
    if p.Go? then Reached(w, p.conf) else {}
  }

  /** What a restart would find ahead of it. */
  function StoredAhead(w: World, s: Sys): Progress {
    match CheckpointLog.FindLatest(s.log.rows, s.local.id.workspaceId, s.local.id.runId)
    case None => Beginning(w)
    case Some(row) =>
      Go(Conf(row.state.messages, row.state.modelInvocations, row.state.toolInvocations, row.state.pendingToolCalls))
  }

  function Beginning(w: World): Progress {
    match w.prefetch
    case None => Stop(Final(Failed(CONTEXT_UNAVAILABLE), [], 0, 0))
    case Some(context) => Go(Start(w, context))
  }

  // ---- The call in flight ----

  function InFlight(l: Local): Option<Call> {
    match l.phase
    case Invoke(call, _, _, _, _) => Some(call)
    case SettleCall(call, _, _, _, _) => Some(call)
    case _ => None
  }

  predicate IsInFlight(l: Local, k: OpKey) {
    InFlight(l).Some? && k == KeyOf(l, InFlight(l).value)
  }

  // ---- The invariant, one concern at a time ----

  /** Pending calls restored from a checkpoint are consumed by the first visit to the loop head. */
  predicate Tidy(l: Local) {
    WellFormed(l)
    && (l.pending == [] || l.phase.Prefetch? || l.phase.SavePrefetch? || l.phase.LoopHead? || Ended(l))
  }

  /** `e` is the entry of exactly this call, and a committed result is what the tool answers. */
  predicate Records(w: World, l: Local, k: OpKey, e: Entry, call: Call) {
    && call.id == k.callId
    && e.workspaceId == l.id.workspaceId
    && call.name in w.bindings && w.bindings[call.name] in w.metadata
    && Matches(w, e, call, w.bindings[call.name])
    && e.idempotencyClass == w.metadata[w.bindings[call.name]]
    && (e.status == COMMITTED ==>
          e.committedResult.Some? && w.canonical(e.committedResult.value)
          && w.tool(call, e.toolVersionId) == Output(e.committedResult.value))
  }

  ghost predicate JournalSound(w: World, s: Sys) {
    forall k :: k in s.journal && k.runId == s.local.id.runId ==>
      exists call :: call in CallsOfRun(w) && Records(w, s.local, k, s.journal[k], call)
  }

  predicate FlightSound(w: World, s: Sys) {
    match s.local.phase
    case Invoke(call, _, _, version, c) =>
      && call in CallsOfRun(w)
      && call.name in w.bindings && version == w.bindings[call.name]
      && version in w.metadata && c == w.metadata[version]
      && (w.journaled ==> Open(s.journal, KeyOf(s.local, call)))
    case SettleCall(call, _, _, c, reply) =>
      && call in CallsOfRun(w)
      && call.name in w.bindings && reply == w.tool(call, w.bindings[call.name])
      && (w.journaled ==> Open(s.journal, KeyOf(s.local, call)))
    case SaveComplete(output) =>
      var completion := Ask(w, s.local.messages, s.local.toolInvocations);
      completion.toolCalls == [] && Answer(w, completion) == Succeeded(output)
    case _ => true
  }

  predicate Open(j: Journal, k: OpKey) {
    k in j && (j[k].status == PENDING || j[k].status == FAILED)
  }

  predicate CallsSound(w: World, s: Sys) {
    CallsFrom(w, Ahead(w, s.local)) <= CallsOfRun(w) && CallsFrom(w, StoredAhead(w, s)) <= CallsOfRun(w)
  }

  ghost predicate LogSound(s: Sys) {
    && CheckpointLog.Numbered(s.log)
    && CheckpointLog.Indexed(s.log)
    && (forall k :: k in s.log.index && k.2.runAttemptId == s.local.id.runAttemptId ==>
          k.2.sequence <= s.local.checkpointSequence)
    && (var latest := CheckpointLog.FindLatest(s.log.rows, s.local.id.workspaceId, s.local.id.runId);
        latest.Some? ==> latest.value.state.messages != [])
    && (s.local.phase.Prefetch? || Ended(s.local) || s.local.messages != [])
  }

  predicate IsBlocked(l: Local) {
    l.phase == Returned(Failed(RECOVERY_BLOCKED))
  }

  predicate Aligned(w: World, s: Sys) {
    && (IsBlocked(s.local) || s.local.phase.Thrown? || Settle(w, Ahead(w, s.local)) == IdealRun(w))
    && (Completed(s.local) || Settle(w, StoredAhead(w, s)) == IdealRun(w))
  }

  ghost predicate Sound(w: World, s: Sys) {
    && Tidy(s.local)
    && (s.local.phase.Prefetch? || s.local.phase.SavePrefetch? ==> s.local.pending == [])
    && JournalSound(w, s) && FlightSound(w, s) && CallsSound(w, s) && LogSound(s) && Aligned(w, s)
  }

  // ---- Each tick stutters or performs one step of the undisturbed run ----

  /** The entry found for the call at hand is that call's own. */
  lemma EntryIsForThisCall(w: World, s: Sys, call: Call)
    requires JournalSound(w, s) && IdsIdentifyCalls(w) && call in CallsOfRun(w)
    requires KeyOf(s.local, call) in s.journal
    ensures Records(w, s.local, KeyOf(s.local, call), s.journal[KeyOf(s.local, call)], call)
  {
  }

  predicate Stutters(w: World, l: Local, l': Local) {
    || Ahead(w, l') == Ahead(w, l)
    || (Ahead(w, l).Go? && Ahead(w, l') == Advance(w, Ahead(w, l).conf))
  }

  /** The call at hand is one of the run's, and its entry, if there is one, is its own. */
  lemma CallAtHand(w: World, s: Sys)
    requires Sound(w, s) && IdsIdentifyCalls(w) && s.local.phase.ToolHead?
    ensures var call := s.local.phase.calls[0];
      call in CallsOfRun(w) && OwnEntry(w, s, call)
  {
    var calls := s.local.phase.calls;
    assert calls[0] in Calls(w, ConfOf(s.local, calls));
    if KeyOf(s.local, calls[0]) in s.journal {
      EntryIsForThisCall(w, s, calls[0]);
    }
  }

  predicate OwnEntry(w: World, s: Sys, call: Call) {
    KeyOf(s.local, call) in s.journal ==> Records(w, s.local, KeyOf(s.local, call), s.journal[KeyOf(s.local, call)], call)
  }

  /** Meeting a call is one step of the undisturbed run: what the journal holds is what the tool would answer. */
  lemma MeetingSimulates(w: World, s: Sys)
    requires WellFormed(s.local) && s.local.phase.ToolHead? && OwnEntry(w, s, s.local.phase.calls[0])
    ensures var l' := Tick(w, s).local; IsBlocked(l') || Ahead(w, l') == Advance(w, Ahead(w, s.local).conf)
  {
  }

  lemma ToolHeadSimulates(w: World, s: Sys)
    requires Sound(w, s) && IdsIdentifyCalls(w) && s.local.phase.ToolHead?
    ensures var l' := Tick(w, s).local; IsBlocked(l') || Ahead(w, l') == Advance(w, Ahead(w, s.local).conf)
  {
    CallAtHand(w, s);
    MeetingSimulates(w, s);
  }

  lemma LoopHeadSimulates(w: World, s: Sys)
    requires Tidy(s.local) && s.local.phase.LoopHead?
    ensures Stutters(w, s.local, Tick(w, s).local)
  {
  }

  predicate Saving(p: Phase) {
    p.SavePrefetch? || p.SaveModel? || p.SaveTool? || p.SaveComplete?
  }

  lemma SaveSimulates(w: World, s: Sys)
    requires Tidy(s.local) && Saving(s.local.phase)
    requires s.local.phase.SavePrefetch? ==> s.local.pending == []
    ensures var l' := Tick(w, s).local; l'.phase.Thrown? || Ahead(w, l') == Ahead(w, s.local)
  {
  }

  lemma SettleSimulates(w: World, s: Sys)
    requires Sound(w, s) && s.local.phase.SettleCall?
    ensures var l' := Tick(w, s).local; Ahead(w, l') == Ahead(w, s.local)
  {
    assert Tick(w, s) == TickSettle(w, s);
    assert w.journaled ==> KeyOf(s.local, s.local.phase.call) in s.journal;
    match Usable(w, s.local.phase.reply) {
      case Ok(_) =>
      case Err(_) =>
    }
  }

  /**
   * The durable machine refines the undisturbed run: a tick that neither blocks nor throws leaves
   * what is ahead as it was, or performs exactly one step of it.
   */
  lemma TickSimulates(w: World, s: Sys)
    requires Sound(w, s) && IdsIdentifyCalls(w)
    ensures var l' := Tick(w, s).local; IsBlocked(l') || l'.phase.Thrown? || Stutters(w, s.local, l')
  {
    match s.local.phase {
      case ToolHead(_, _) => ToolHeadSimulates(w, s);
      case LoopHead => LoopHeadSimulates(w, s);
      case SettleCall(_, _, _, _, _) => SettleSimulates(w, s);
      case Prefetch =>
      case Invoke(_, _, _, _, _) =>
      case Returned(_) =>
      case Thrown =>
      case _ => SaveSimulates(w, s);
    }
  }

  // ---- Checkpoints ----

  function CommandAt(l: Local): CheckpointLog.Command
    requires Saving(l.phase)
  {
    match l.phase
    case SavePrefetch => CommandFor(l, AfterPrefetch, PrefetchKey, [])
    case SaveModel(calls) => CommandFor(l, AfterModel, ModelKey, calls)
    case SaveTool(rest, _) => CommandFor(l, AfterTool, ToolKey, rest)
    case SaveComplete(_) => CommandFor(l, AfterModel, CompleteKey, [])
  }

  /** Within an attempt no two commits share a key, so an accepted commit always appends its row. */
  lemma AcceptedCommitAppends(w: World, s: Sys)
    requires WellFormed(s.local) && LogSound(s) && Saving(s.local.phase) && w.checkpointing
    ensures !CheckpointLog.Decide(s.log, CommandAt(s.local), w.acceptsState).Duplicate?
    ensures var r := Tick(w, s);
      if r.local.phase.Thrown? then r.log == s.log else r.log == CheckpointLog.Append(s.log, CommandAt(s.local))
  {
  }

  /** What a restart finds ahead of it is what the latest row holds. */
  lemma AppendedIsStored(w: World, s: Sys, r: Sys, cmd: CheckpointLog.Command)
    requires CheckpointLog.Numbered(s.log) && r.log == CheckpointLog.Append(s.log, cmd)
    requires cmd.workspaceId == r.local.id.workspaceId && cmd.runId == r.local.id.runId
    ensures StoredAhead(w, r) ==
      Go(Conf(cmd.state.messages, cmd.state.modelInvocations, cmd.state.toolInvocations, cmd.state.pendingToolCalls))
  {
    CheckpointLog.LatestIsLastAppend(s.log, cmd);
  }

  /** A checkpoint moves the attempt on, counts itself, and touches nothing else of it. */
  lemma SaveMoves(w: World, s: Sys)
    requires WellFormed(s.local) && Saving(s.local.phase)
    ensures var l' := Tick(w, s).local;
      && l' == s.local.(checkpointSequence := l'.checkpointSequence, phase := l'.phase)
      && l'.checkpointSequence == s.local.checkpointSequence + (if w.checkpointing then 1 else 0)
      && !l'.phase.Prefetch?
    ensures !w.checkpointing ==> Tick(w, s).log == s.log && !Tick(w, s).local.phase.Thrown?
  {
  }

  lemma SaveStores(w: World, s: Sys)
    requires WellFormed(s.local) && LogSound(s) && Saving(s.local.phase)
    ensures StoredAhead(w, Tick(w, s)) ==
      if !w.checkpointing || Tick(w, s).local.phase.Thrown? then StoredAhead(w, s)
      else Go(ConfOf(s.local, CommandAt(s.local).state.pendingToolCalls))
  {
    SaveMoves(w, s);
    if w.checkpointing {
      AcceptedCommitAppends(w, s);
      if !Tick(w, s).local.phase.Thrown? {
        AppendedIsStored(w, s, Tick(w, s), CommandAt(s.local));
      }
    }
  }

  lemma SaveKeepsLogSound(w: World, s: Sys)
    requires WellFormed(s.local) && LogSound(s) && Saving(s.local.phase)
    ensures LogSound(Tick(w, s))
  {
    SaveMoves(w, s);
    if w.checkpointing {
      AcceptedCommitAppends(w, s);
      CheckpointLog.CommitKeepsNumbering(s.log, CommandAt(s.local), w.acceptsState);
      CheckpointLog.LatestIsLastAppend(s.log, CommandAt(s.local));
    }
  }

  lemma QuietTickKeepsLog(w: World, s: Sys)
    requires Tidy(s.local) && LogSound(s) && !Saving(s.local.phase)
    ensures var r := Tick(w, s);
      && r.log == s.log && r.local.id == s.local.id && r.local.checkpointSequence == s.local.checkpointSequence
      && (Ended(r.local) || r.local.messages != [])
  {
    match s.local.phase {
      case ToolHead(_, _) =>
      case LoopHead =>
      case SettleCall(_, _, _, _, _) =>
      case _ =>
    }
  }

  lemma TickKeepsLogSound(w: World, s: Sys)
    requires Tidy(s.local) && LogSound(s)
    requires s.local.phase.SavePrefetch? ==> s.local.pending == []
    ensures LogSound(Tick(w, s))
    ensures
      || StoredAhead(w, Tick(w, s)) == StoredAhead(w, s)
      || (Saving(s.local.phase) && StoredAhead(w, Tick(w, s)) == Ahead(w, s.local))
      || (s.local.phase.SaveComplete? && Completed(Tick(w, s).local)
          && StoredAhead(w, Tick(w, s)) == Go(ConfOf(s.local, [])))
  {
    if Saving(s.local.phase) {
      SaveKeepsLogSound(w, s);
      SaveStores(w, s);
    } else {
      QuietTickKeepsLog(w, s);
    }
  }

  // ---- Journal ----

  /** Changing one entry keeps the journal sound when that entry records a call of the run. */
  lemma JournalSoundAfter(w: World, s: Sys, r: Sys, k: OpKey, call: Call)
    requires JournalSound(w, s) && r.local.id == s.local.id
    requires forall j :: j in r.journal && j != k ==> j in s.journal && r.journal[j] == s.journal[j]
    requires k in r.journal ==> call in CallsOfRun(w) && Records(w, r.local, k, r.journal[k], call)
    ensures JournalSound(w, r)
  {
  }

  /** Meeting a call touches no entry but its own, and its own only to create it. */
  lemma ToolHeadEffect(w: World, s: Sys)
    requires WellFormed(s.local) && s.local.phase.ToolHead?
    requires var k := KeyOf(s.local, s.local.phase.calls[0]);
      k in s.journal ==>
        && s.journal[k].workspaceId == s.local.id.workspaceId
        && (s.journal[k].status == COMMITTED ==>
              s.journal[k].committedResult.Some? && w.canonical(s.journal[k].committedResult.value))
    ensures var r, call := Tick(w, s), s.local.phase.calls[0];
      && r.local.id == s.local.id
      && (|| r.journal == s.journal
          || (&& KeyOf(s.local, call) !in s.journal
              && CheckCall(w, s.local.toolInvocations, call).Admitted?
              && r.journal == s.journal[KeyOf(s.local, call) :=
                   NewEntry(w, s.local, call, w.bindings[call.name], w.metadata[w.bindings[call.name]])]))
      && (r.local.phase.Invoke? ==>
            && r.local.phase.call == call
            && CheckCall(w, s.local.toolInvocations, call)
               == Admitted(r.local.phase.version, r.local.phase.idempotencyClass)
            && (w.journaled ==> Open(r.journal, KeyOf(s.local, call))))
      && !r.local.phase.SettleCall?
  {
  }

  /** What meeting the call leaves behind still records it. */
  lemma MeetingRecords(w: World, s: Sys)
    requires WellFormed(s.local) && s.local.phase.ToolHead? && OwnEntry(w, s, s.local.phase.calls[0])
    requires s.local.phase.calls[0] in CallsOfRun(w)
    ensures OwnEntry(w, Tick(w, s), s.local.phase.calls[0]) && FlightSound(w, Tick(w, s))
  {
    ToolHeadEffect(w, s);
  }

  lemma ToolHeadKeepsJournalSound(w: World, s: Sys)
    requires Sound(w, s) && IdsIdentifyCalls(w) && s.local.phase.ToolHead?
    ensures JournalSound(w, Tick(w, s)) && FlightSound(w, Tick(w, s))
  {
    var call := s.local.phase.calls[0];
    CallAtHand(w, s);
    ToolHeadEffect(w, s);
    MeetingRecords(w, s);
    JournalSoundAfter(w, s, Tick(w, s), KeyOf(s.local, call), call);
  }

  /** Settling a call touches no entry but its own, which still records it. */
  lemma SettlingRecords(w: World, s: Sys)
    requires s.local.phase.SettleCall? && FlightSound(w, s) && OwnEntry(w, s, s.local.phase.call)
    ensures var r, k := Tick(w, s), KeyOf(s.local, s.local.phase.call);
      && r.local.id == s.local.id && OwnEntry(w, r, s.local.phase.call) && FlightSound(w, r)
      && forall j :: j in r.journal && j != k ==> j in s.journal && r.journal[j] == s.journal[j]
  {
  }

  lemma SettleKeepsJournalSound(w: World, s: Sys)
    requires Sound(w, s) && IdsIdentifyCalls(w) && s.local.phase.SettleCall?
    ensures JournalSound(w, Tick(w, s)) && FlightSound(w, Tick(w, s))
  {
    var call := s.local.phase.call;
    var k := KeyOf(s.local, call);
    if k in s.journal {
      EntryIsForThisCall(w, s, call);
    }
    SettlingRecords(w, s);
    JournalSoundAfter(w, s, Tick(w, s), k, call);
  }

  lemma TickKeepsJournalSound(w: World, s: Sys)
    requires Sound(w, s) && IdsIdentifyCalls(w)
    ensures JournalSound(w, Tick(w, s)) && FlightSound(w, Tick(w, s))
  {
    match s.local.phase {
      case ToolHead(_, _) => ToolHeadKeepsJournalSound(w, s);
      case SettleCall(_, _, _, _, _) => SettleKeepsJournalSound(w, s);
      case _ => QuietJournal(w, s);
    }
  }

  lemma SameJournalStaysSound(w: World, s: Sys, r: Sys)
    requires JournalSound(w, s) && r.journal == s.journal
    requires r.local.id.runId == s.local.id.runId && r.local.id.workspaceId == s.local.id.workspaceId
    ensures JournalSound(w, r)
  {
  }

  lemma LoopHeadFlight(w: World, s: Sys)
    requires s.local.phase.LoopHead?
    ensures FlightSound(w, Tick(w, s)) && Tick(w, s).journal == s.journal && Tick(w, s).local.id == s.local.id
  {
  }

  lemma InvokeFlight(w: World, s: Sys)
    requires s.local.phase.Invoke? && FlightSound(w, s)
    ensures FlightSound(w, Tick(w, s)) && Tick(w, s).journal == s.journal && Tick(w, s).local.id == s.local.id
  {
  }

  lemma SaveFlight(w: World, s: Sys)
    requires WellFormed(s.local) && Saving(s.local.phase)
    ensures FlightSound(w, Tick(w, s)) && Tick(w, s).journal == s.journal && Tick(w, s).local.id == s.local.id
  {
  }

  lemma QuietJournal(w: World, s: Sys)
    requires Sound(w, s) && !s.local.phase.ToolHead? && !s.local.phase.SettleCall?
    ensures JournalSound(w, Tick(w, s)) && FlightSound(w, Tick(w, s))
  {
    match s.local.phase {
      case LoopHead => LoopHeadFlight(w, s);
      case Invoke(_, _, _, _, _) => InvokeFlight(w, s);
      case Prefetch =>
      case Returned(_) =>
      case Thrown =>
      case _ => SaveFlight(w, s);
    }
    SameJournalStaysSound(w, s, Tick(w, s));
  }

  // ---- The invariant along every history ----

  lemma TickKeepsAlignment(w: World, s: Sys)
    requires Sound(w, s) && IdsIdentifyCalls(w)
    ensures Aligned(w, Tick(w, s)) && CallsSound(w, Tick(w, s))
  {
    TickSimulates(w, s);
    TickKeepsLogSound(w, s);
    AlignmentAfter(w, s, Tick(w, s));
  }

  /** Alignment only depends on what is ahead of the attempt and of a restart. */
  lemma AlignmentAfter(w: World, s: Sys, r: Sys)
    requires Aligned(w, s) && CallsSound(w, s) && FlightSound(w, s)
    requires s.local.phase.Returned? ==> r == s
    requires s.local.phase.Thrown? ==> r == s
    requires IsBlocked(r.local) || r.local.phase.Thrown? || Stutters(w, s.local, r.local)
    requires
      || StoredAhead(w, r) == StoredAhead(w, s)
      || StoredAhead(w, r) == Ahead(w, s.local)
      || (s.local.phase.SaveComplete? && Completed(r.local) && StoredAhead(w, r) == Go(ConfOf(s.local, [])))
    ensures Aligned(w, r) && CallsSound(w, r)
  {
  }

  lemma PendingOnlyAtLoopHead(w: World, s: Sys)
    requires Sound(w, s)
    ensures var l' := Tick(w, s).local; l'.phase.Prefetch? || l'.phase.SavePrefetch? ==> l'.pending == []
  {
    if s.local.phase.Prefetch? {
    } else if s.local.phase.SavePrefetch? {
    } else {
      PhasesLeavePrefetch(w, s);
    }
  }

  lemma PhasesLeavePrefetch(w: World, s: Sys)
    requires WellFormed(s.local) && !s.local.phase.Prefetch?
    ensures !Tick(w, s).local.phase.Prefetch? && !Tick(w, s).local.phase.SavePrefetch?
  {
    match s.local.phase {
      case LoopHead =>
      case ToolHead(_, _) =>
      case SettleCall(_, _, _, _, _) =>
      case _ =>
    }
  }

  lemma TickKeepsTidy(w: World, s: Sys)
    requires Tidy(s.local)
    ensures Tidy(Tick(w, s).local)
  {
    match s.local.phase {
      case LoopHead =>
      case ToolHead(_, _) =>
      case SettleCall(_, _, _, _, _) =>
      case _ =>
    }
  }

  lemma TickKeepsSound(w: World, s: Sys)
    requires Sound(w, s) && IdsIdentifyCalls(w)
    ensures Sound(w, Tick(w, s))
  {
    if !Ended(s.local) {
      TickKeepsTidy(w, s);
      PendingOnlyAtLoopHead(w, s);
      TickKeepsLogSound(w, s);
      TickKeepsJournalSound(w, s);
      TickKeepsAlignment(w, s);
    }
  }

  /** A restart resumes exactly what the log had stored. */
  lemma RestartKeepsSound(w: World, s: Sys, e: Event)
    requires Sound(w, s) && e.DoRestart? && UnusedAttempt(s.log, e.runAttemptId) && !Completed(s.local)
    ensures Sound(w, Step(w, s, e))
    ensures Ahead(w, Step(w, s, e).local) == StoredAhead(w, s) == StoredAhead(w, Step(w, s, e))
  {
  }

  lemma StepKeepsSound(w: World, s: Sys, e: Event)
    requires Sound(w, s) && IdsIdentifyCalls(w)
    requires e.DoRestart? ==> UnusedAttempt(s.log, e.runAttemptId) && !Completed(s.local)
    ensures Sound(w, Step(w, s, e))
  {
    match e {
      case DoTick => TickKeepsSound(w, s);
      case DoRestart(_, _, _) => RestartKeepsSound(w, s, e);
      case DoClear(_) => ClearKeepsSound(w, s, e);
    }
  }

  lemma ClearKeepsSound(w: World, s: Sys, e: Event)
    requires Sound(w, s) && e.DoClear?
    ensures Sound(w, Step(w, s, e))
  {
  }

  lemma {:induction false} HistoryKeepsSound(w: World, s: Sys, es: seq<Event>)
    requires Sound(w, s) && IdsIdentifyCalls(w) && CrashHistory(w, s, es)
    ensures Sound(w, Play(w, s, es))
    decreases |es|
  {
    if es != [] {
      StepKeepsSound(w, s, es[0]);
      HistoryKeepsSound(w, Step(w, s, es[0]), es[1..]);
    }
  }

  lemma {:induction false} NoRowsNoLatest(rows: seq<CheckpointLog.Row>, workspaceId: string, runId: string)
    requires forall r :: r in rows ==> r.runId != runId
    ensures CheckpointLog.FindLatest(rows, workspaceId, runId) == None
  {
    if rows != [] {
      NoRowsNoLatest(rows[..|rows| - 1], workspaceId, runId);
    }
  }

  lemma FirstAttemptIsSound(w: World, s: Sys)
    requires FirstAttempt(s) && CheckpointLog.Numbered(s.log) && CheckpointLog.Indexed(s.log)
    ensures Sound(w, s)
  {
    NoRowsNoLatest(s.log.rows, s.local.id.workspaceId, s.local.id.runId);
  }

  /**
   * Crash and resume equivalence. However often the run is crashed and restarted, and wherever the
   * crashes fall, a returned result either is the recovery-blocked code or comes with exactly the
   * result, transcript and counters of the undisturbed run.
   */
  lemma CrashedRunEqualsUndisturbedRun(w: World, s: Sys, es: seq<Event>)
    requires FirstAttempt(s) && CheckpointLog.Numbered(s.log) && CheckpointLog.Indexed(s.log)
    requires IdsIdentifyCalls(w) && CrashHistory(w, s, es)
    ensures var l := Play(w, s, es).local;
      l.phase.Returned? ==>
        l.phase.result == Failed(RECOVERY_BLOCKED) || FinalOf(l, l.phase.result) == IdealRun(w)
  {
    FirstAttemptIsSound(w, s);
    HistoryKeepsSound(w, s, es);
  }
}
