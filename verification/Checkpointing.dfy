/** What a checkpoint of the loop holds, where the loop writes one, and what an attempt restored from it starts with. */
module Checkpointing {
  import opened Common
  import opened Conversation
  import opened OperationJournal
  import opened AgentSemantics
  import opened DurableMachine
  import CheckpointLog

  /** Where the loop stands, at which cursor it writes, under which kind of key, with which calls pending. */
  datatype Place = Place(cursor: Cursor, kind: KeyKind, pending: seq<Call>, next: Phase)

  function PlaceOf(p: Phase): Option<Place> {
    match p
    case SavePrefetch => Some(Place(AfterPrefetch, PrefetchKey, [], LoopHead))
    case SaveModel(calls) => Some(Place(AfterModel, ModelKey, calls, ToolHead(calls, true)))
    case SaveTool(rest, live) => Some(Place(AfterTool, ToolKey, rest, if rest == [] then LoopHead else ToolHead(rest, live)))
    case SaveComplete(output) => Some(Place(AfterModel, CompleteKey, [], Returned(Succeeded(output))))
    case _ => None
  }

  /**
   * Four actions write a checkpoint: of the transcript, both counters, the retrieved context and the
   * calls still pending, under the attempt's own identity and next number. If it is refused the attempt
   * throws, and otherwise it goes on. Nothing else changes.
   */
  lemma CheckpointHoldsTheRun(w: World, s: Sys)
    requires WellFormed(s.local) && PlaceOf(s.local.phase).Some? && w.checkpointing
    ensures var l, place, r := s.local, PlaceOf(s.local.phase).value, Tick(w, s);
      var n := l.checkpointSequence + 1;
      var cmd := CheckpointLog.Command(
        l.id.workspaceId, l.id.runId, l.id.runAttemptId, l.id.generation, l.id.owner, place.cursor,
        CheckpointState(l.messages, l.modelInvocations, l.toolInvocations, l.retrievedContext, place.pending),
        IdemKey(l.id.runAttemptId, place.kind, n));
      var outcome := CheckpointLog.Decide(s.log, cmd, w.acceptsState);
      r == s.(log := CheckpointLog.AfterCommit(s.log, cmd, w.acceptsState),
              local := l.(checkpointSequence := n,
                          phase := if outcome.InvalidState? || outcome.StaleGeneration? then Thrown else place.next))
  {
  }

  /** Without checkpointing the same actions only move on. */
  lemma CheckpointsCanBeOff(w: World, s: Sys)
    requires WellFormed(s.local) && PlaceOf(s.local.phase).Some? && !w.checkpointing
    ensures Tick(w, s) == s.(local := s.local.(phase := PlaceOf(s.local.phase).value.next))
  {
  }

  /** No other action writes a checkpoint. */
  lemma NothingElseIsWritten(w: World, s: Sys)
    requires WellFormed(s.local) && PlaceOf(s.local.phase).None?
    ensures Tick(w, s).log == s.log && Tick(w, s).local.checkpointSequence == s.local.checkpointSequence
  {
    match s.local.phase {
      case ToolHead(_, _) =>
      case SettleCall(_, _, _, _, _) =>
      case LoopHead =>
      case _ =>
    }
  }

  /** The first messages, or the end when no context could be retrieved. */
  lemma PromptIsBuilt(w: World, s: Sys)
    requires s.local.phase.Prefetch?
    ensures Tick(w, s) == s.(local := match w.prefetch
      case None => s.local.(phase := Returned(Failed(CONTEXT_UNAVAILABLE)))
      case Some(context) =>
        s.local.(messages := InitialMessages(w, context), retrievedContext := context, phase := SavePrefetch))
  {
  }

  /** A running attempt asks the model only with no calls in hand; restored calls come first, as one batch. */
  lemma RestoredCallsComeFirst(w: World, s: Sys)
    requires s.local.phase.LoopHead? && s.local.pending != []
    ensures Tick(w, s) == s.(local := s.local.(pending := [], phase := ToolHead(s.local.pending, false)))
  {
  }

  /** What the model says, when the budget still allows to ask it; the tools are offered as long as theirs lasts. */
  lemma ModelIsAsked(w: World, s: Sys)
    requires s.local.phase.LoopHead? && s.local.pending == []
    ensures var l, r := s.local, Tick(w, s);
      var said := w.model(l.messages, w.hasToolDefinitions && l.toolInvocations < w.maxToolInvocations);
      var counted := l.(modelInvocations := l.modelInvocations + 1);
      && r == s.(local := r.local)
      && if l.modelInvocations >= w.maxModelInvocations then r.local == l.(phase := Returned(Failed(BUDGET_EXCEEDED)))
         else if said.toolCalls != [] then
           r.local == if !w.hasToolGateway then counted.(phase := Returned(Failed(TOOL_UNAVAILABLE)))
                      else counted.(messages := l.messages + [AssistantTurn(said)], phase := SaveModel(said.toolCalls))
         else r.local == counted.(phase := r.local.phase)
              && (r.local.phase.SaveComplete? || (r.local.phase.Returned? && r.local.phase.result.Failed?))
  {
  }

  /** An invocation sends the call to the version it was admitted for, and is what the tool remembers. */
  lemma ToolIsInvoked(w: World, s: Sys)
    requires s.local.phase.Invoke?
    ensures var p := s.local.phase;
      Tick(w, s) == s.(invoked := s.invoked + [OpKey(s.local.id.runId, p.call.id)],
                       local := s.local.(phase := SettleCall(p.call, p.rest, p.live, p.idempotencyClass, w.tool(p.call, p.version))))
  {
  }

  /**
   * A new attempt is tracked and starts with everything the latest checkpoint of its run holds, at the
   * head of the loop; without a checkpoint, or with an empty transcript, it begins with the prompt.
   */
  lemma RestartRestores(s: Sys, runAttemptId: string, owner: string, generation: nat)
    ensures var r := Restart(s, runAttemptId, owner, generation);
      var id := Identity(s.local.id.workspaceId, s.local.id.runId, runAttemptId, owner, generation);
      && r.journal == s.journal && r.everFailed == s.everFailed && r.invoked == s.invoked
      && r.log == CheckpointLog.Log(s.log.rows, s.log.index,
                                    s.log.attempts[runAttemptId := CheckpointLog.Tracked(owner, generation)])
      && r.local == match CheckpointLog.FindLatest(s.log.rows, id.workspaceId, id.runId)
                    case None => Local(id, [], 0, 0, None, [], 0, Prefetch)
                    case Some(row) =>
                      Local(id, row.state.messages, row.state.modelInvocations, row.state.toolInvocations,
                            row.state.retrievedContext, row.state.pendingToolCalls, 0,
                            if row.state.messages == [] then Prefetch else LoopHead)
  {
  }
}
