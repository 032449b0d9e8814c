/**
 * Every checkpoint, as it was committed, is a consistent cut of the conversation: counters, transcript
 * and pending calls agree. `StoredRecovery` says when it still is one as it reads back.
 */
module ConsistentCut {
  import opened Common
  import opened Conversation
  import opened OperationJournal
  import opened AgentSemantics
  import opened DurableMachine
  import CheckpointLog

  function ToolMessages(messages: seq<Message>): nat {
    if messages == [] then 0
    else ToolMessages(messages[..|messages| - 1]) + if messages[|messages| - 1].ToolResult? then 1 else 0
  }

  function AssistantMessages(messages: seq<Message>): nat {
    if messages == [] then 0
    else AssistantMessages(messages[..|messages| - 1]) + if messages[|messages| - 1].Assistant? then 1 else 0
  }

  /** The calls of the last assistant turn, as the model gave them. */
  function LastTurn(w: World, messages: seq<Message>): seq<Call> {
    if messages == [] then []
    else
      var init := messages[..|messages| - 1];
      match messages[|messages| - 1]
      case ToolResult(_, _, _) => LastTurn(w, init)
      case Assistant(_) => Ask(w, init, ToolMessages(init)).toolCalls
      case _ => []
  }

  /** Id and name of the tool messages after the last assistant turn. */
  function Since(messages: seq<Message>): seq<(string, string)> {
    if messages == [] then []
    else
      match messages[|messages| - 1]
      case ToolResult(id, name, _) => Since(messages[..|messages| - 1]) + [(id, name)]
      case _ => []
  }

  function Heads(calls: seq<Call>): seq<(string, string)> {
    seq(|calls|, i requires 0 <= i < |calls| => (calls[i].id, calls[i].name))
  }

  /** The last turn's calls, in order, are the answered ones followed by the pending ones. */
  predicate TurnSplit(w: World, messages: seq<Message>, pending: seq<Call>) {
    var turn, done := LastTurn(w, messages), |Since(messages)|;
    done <= |turn| && Since(messages) == Heads(turn[..done]) && pending == turn[done..]
  }

  /** `exact` is given up only for runs restarted after their completion checkpoint. */
  predicate Counted(invocations: nat, messages: nat, exact: bool) {
    if exact then invocations == messages else invocations >= messages
  }

  predicate Cut(w: World, messages: seq<Message>, modelInvocations: int, toolInvocations: nat, pending: seq<Call>, exact: bool) {
    && toolInvocations == ToolMessages(messages)
    && modelInvocations >= 0 && Counted(modelInvocations, AssistantMessages(messages), exact)
    && TurnSplit(w, messages, pending)
  }

  predicate CutState(w: World, st: CheckpointState, exact: bool) {
    Cut(w, st.messages, st.modelInvocations, st.toolInvocations, st.pendingToolCalls, exact)
  }

  /** The completion checkpoint has counted a model call that left no assistant message. */
  predicate CompletionState(w: World, st: CheckpointState, exact: bool) {
    st.pendingToolCalls == [] && Cut(w, st.messages, st.modelInvocations - 1, st.toolInvocations, [], exact)
  }

  predicate CutLocal(w: World, l: Local, exact: bool) {
    match l.phase
    case Prefetch => l.messages == [] && Cut(w, [], l.modelInvocations, l.toolInvocations, l.pending, exact)
    case SavePrefetch => l.pending == [] && Cut(w, l.messages, l.modelInvocations, l.toolInvocations, [], exact)
    case LoopHead => Cut(w, l.messages, l.modelInvocations, l.toolInvocations, l.pending, exact)
    case SaveModel(calls) => l.pending == [] && Cut(w, l.messages, l.modelInvocations, l.toolInvocations, calls, exact)
    case ToolHead(calls, _) => l.pending == [] && Cut(w, l.messages, l.modelInvocations, l.toolInvocations, calls, exact)
    case Invoke(call, rest, _, _, _) =>
      l.toolInvocations > 0 && l.pending == []
      && Cut(w, l.messages, l.modelInvocations, l.toolInvocations - 1, [call] + rest, exact)
    case SettleCall(call, rest, _, _, _) =>
      l.toolInvocations > 0 && l.pending == []
      && Cut(w, l.messages, l.modelInvocations, l.toolInvocations - 1, [call] + rest, exact)
    case SaveTool(rest, _) => l.pending == [] && Cut(w, l.messages, l.modelInvocations, l.toolInvocations, rest, exact)
    case SaveComplete(_) => l.pending == [] && Cut(w, l.messages, l.modelInvocations - 1, l.toolInvocations, [], exact)
    case Returned(_) => true
    case Thrown => true
  }

  /** The completion checkpoint is the one after a model turn that left no calls. */
  predicate IsCompletion(row: CheckpointLog.Row) {
    row.cursor == AfterModel && row.state.pendingToolCalls == []
  }

  predicate CutRow(w: World, row: CheckpointLog.Row, exact: bool) {
    if IsCompletion(row) then CompletionState(w, row.state, exact) else CutState(w, row.state, exact)
  }

  ghost predicate CutRows(w: World, s: Sys, exact: bool) {
    forall r :: r in s.log.rows && r.runId == s.local.id.runId ==>
      CutRow(w, r, exact) && (exact && IsCompletion(r) ==> Completed(s.local))
  }

  ghost predicate CutEverywhere(w: World, s: Sys, exact: bool) {
    CutLocal(w, s.local, exact) && CutRows(w, s, exact)
  }

  // ---- Extending a transcript ----

  lemma PushKeepsCut(w: World, messages: seq<Message>, m: int, t: nat, call: Call, rest: seq<Call>, value: Json, exact: bool)
    requires Cut(w, messages, m, t, [call] + rest, exact)
    ensures Cut(w, messages + [ToolResult(call.id, call.name, value)], m, t + 1, rest, exact)
  {
  }

  lemma AskKeepsCut(w: World, messages: seq<Message>, m: nat, t: nat, exact: bool)
    requires Cut(w, messages, m, t, [], exact)
    ensures Cut(w, messages + [AssistantTurn(Ask(w, messages, t))], m + 1, t, Ask(w, messages, t).toolCalls, exact)
  {
  }

  lemma InitialIsCut(w: World, context: Option<string>, m: nat, exact: bool)
    requires exact ==> m == 0
    ensures Cut(w, InitialMessages(w, context), m, 0, [], exact)
  {
    var ms := InitialMessages(w, context);
    assert ms[..1] == [ms[0]] && [ms[0]][..0] == [];
    assert ToolMessages([ms[0]]) == 0 && AssistantMessages([ms[0]]) == 0;
  }

  // ---- The invariant ----

  lemma PushedIsCut(w: World, l: Local, call: Call, value: Json, rest: seq<Call>, live: bool, exact: bool)
    requires l.pending == []
    requires Cut(w, l.messages + [ToolResult(call.id, call.name, value)], l.modelInvocations, l.toolInvocations, rest, exact)
    ensures CutLocal(w, PushResult(l, call, value, rest, live), exact)
  {
  }

  /** Meeting a call ends the attempt, counts the call and invokes it, or counts it and pushes a known result. */
  lemma ToolHeadEndings(w: World, s: Sys) returns (value: Json)
    requires s.local.phase.ToolHead? && WellFormed(s.local)
    ensures var l, l' := s.local, Tick(w, s).local;
      var counted, calls := l.(toolInvocations := l.toolInvocations + 1), l.phase.calls;
      || l'.phase.Returned?
      || (l'.phase.Invoke? && l'.phase.call == calls[0] && l'.phase.rest == calls[1..] && l' == counted.(phase := l'.phase))
      || l' == PushResult(counted, calls[0], value, calls[1..], l.phase.live)
  {
    var call := s.local.phase.calls[0];
    value := "";
    match CheckCall(w, s.local.toolInvocations, call) {
      case Refused(_) =>
      case Admitted(version, _) =>
        match Judge(w, Find(s.journal, s.local.id.workspaceId, KeyOf(s.local, call)), call, version) {
          case Reuse(v) => value := v;
          case _ =>
        }
    }
  }

  lemma ToolHeadKeepsCut(w: World, s: Sys, exact: bool)
    requires s.local.phase.ToolHead? && WellFormed(s.local) && CutLocal(w, s.local, exact)
    ensures CutLocal(w, Tick(w, s).local, exact)
  {
    var l, calls := s.local, s.local.phase.calls;
    assert [calls[0]] + calls[1..] == calls;
    var value := ToolHeadEndings(w, s);
    PushKeepsCut(w, l.messages, l.modelInvocations, l.toolInvocations, calls[0], calls[1..], value, exact);
    PushedIsCut(w, l.(toolInvocations := l.toolInvocations + 1), calls[0], value, calls[1..], l.phase.live, exact);
  }

  lemma SettleKeepsCut(w: World, s: Sys, exact: bool)
    requires s.local.phase.SettleCall? && CutLocal(w, s.local, exact)
    ensures CutLocal(w, Tick(w, s).local, exact)
  {
    var p := s.local.phase;
    match Usable(w, p.reply) {
      case Ok(value) =>
        PushKeepsCut(w, s.local.messages, s.local.modelInvocations, s.local.toolInvocations - 1, p.call, p.rest, value, exact);
        PushedIsCut(w, s.local, p.call, value, p.rest, p.live, exact);
      case Err(_) =>
    }
  }

  lemma LoopHeadKeepsCut(w: World, s: Sys, exact: bool)
    requires s.local.phase.LoopHead? && CutLocal(w, s.local, exact)
    ensures CutLocal(w, Tick(w, s).local, exact)
  {
    if s.local.pending == [] {
      AskKeepsCut(w, s.local.messages, s.local.modelInvocations, s.local.toolInvocations, exact);
    }
  }

  predicate Saves(p: Phase) {
    p.SavePrefetch? || p.SaveModel? || p.SaveTool? || p.SaveComplete?
  }

  /** A checkpoint adds at most one row; it is a cut when its state is one. */
  lemma SavedRowIsCut(w: World, s: Sys, cursor: Cursor, kind: KeyKind, pending: seq<Call>, next: Phase, exact: bool)
    requires CutRows(w, s, exact) && !Completed(s.local)
    requires if cursor == AfterModel && pending == [] then CompletionState(w, Snapshot(s.local, pending), exact)
             else CutState(w, Snapshot(s.local, pending), exact)
    requires cursor == AfterModel && pending == [] ==> next.Returned? && next.result.Succeeded?
    ensures CutRows(w, Save(w, s, cursor, kind, pending, next), exact)
  {
    var r := Save(w, s, cursor, kind, pending, next);
    forall row | row in r.log.rows && row.runId == r.local.id.runId && row !in s.log.rows
      ensures CutRow(w, row, exact) && (exact && IsCompletion(row) ==> Completed(r.local))
    {
      assert row == r.log.rows[|r.log.rows| - 1];
    }
  }

  lemma SaveKeepsLocalCut(w: World, s: Sys, exact: bool)
    requires WellFormed(s.local) && CutLocal(w, s.local, exact) && Saves(s.local.phase)
    ensures CutLocal(w, Tick(w, s).local, exact)
  {
  }

  lemma SaveKeepsCut(w: World, s: Sys, exact: bool)
    requires WellFormed(s.local) && CutEverywhere(w, s, exact) && Saves(s.local.phase)
    ensures CutEverywhere(w, Tick(w, s), exact)
  {
    SaveKeepsLocalCut(w, s, exact);
    match s.local.phase {
      case SavePrefetch => SavedRowIsCut(w, s, AfterPrefetch, PrefetchKey, [], LoopHead, exact);
      case SaveModel(calls) => SavedRowIsCut(w, s, AfterModel, ModelKey, calls, ToolHead(calls, true), exact);
      case SaveTool(rest, live) => SavedRowIsCut(w, s, AfterTool, ToolKey, rest, AfterSaveTool(rest, live), exact);
      case SaveComplete(output) => SavedRowIsCut(w, s, AfterModel, CompleteKey, [], Returned(Succeeded(output)), exact);
    }
  }

  lemma TickKeepsCut(w: World, s: Sys, exact: bool)
    requires WellFormed(s.local) && CutEverywhere(w, s, exact)
    ensures CutEverywhere(w, Tick(w, s), exact)
  {
    match s.local.phase {
      case Prefetch =>
        if w.prefetch.Some? {
          InitialIsCut(w, w.prefetch.value, s.local.modelInvocations, exact);
        }
      case ToolHead(_, _) => ToolHeadKeepsCut(w, s, exact); TickKeepsRows(w, s);
      case SettleCall(_, _, _, _, _) => SettleKeepsCut(w, s, exact); TickKeepsRows(w, s);
      case LoopHead => LoopHeadKeepsCut(w, s, exact); TickKeepsRows(w, s);
      case Invoke(_, _, _, _, _) =>
      case Returned(_) =>
      case Thrown =>
      case _ => SaveKeepsCut(w, s, exact);
    }
  }

  lemma TickKeepsRows(w: World, s: Sys)
    requires WellFormed(s.local)
    requires s.local.phase.ToolHead? || s.local.phase.SettleCall? || s.local.phase.LoopHead?
    ensures Tick(w, s).log == s.log && Tick(w, s).local.id == s.local.id
  {
  }

  lemma {:induction false} LatestIsARow(rows: seq<CheckpointLog.Row>, workspaceId: string, runId: string)
    ensures var l := CheckpointLog.FindLatest(rows, workspaceId, runId);
      l.Some? ==> l.value in rows && l.value.runId == runId
  {
    if rows != [] {
      LatestIsARow(rows[..|rows| - 1], workspaceId, runId);
    }
  }

  lemma RestartKeepsCut(w: World, s: Sys, e: Event, exact: bool)
    requires e.DoRestart? && CutEverywhere(w, s, exact) && WellFormed(s.local)
    requires exact ==> !Completed(s.local)
    ensures CutEverywhere(w, Step(w, s, e), exact)
  {
    LatestIsARow(s.log.rows, s.local.id.workspaceId, s.local.id.runId);
    var latest := CheckpointLog.FindLatest(s.log.rows, s.local.id.workspaceId, s.local.id.runId);
    if latest.Some? && CompletionState(w, latest.value.state, exact) && !exact {
      assert CutState(w, latest.value.state, exact);
    }
  }

  /** The only histories the exact count excludes are those that restart a run that already returned an output. */
  ghost predicate Covered(w: World, s: Sys, es: seq<Event>, exact: bool)
    requires WellFormed(s.local)
  {
    exact ==> CrashHistory(w, s, es)
  }

  lemma {:induction false} HistoryKeepsCut(w: World, s: Sys, es: seq<Event>, exact: bool)
    requires WellFormed(s.local) && CutEverywhere(w, s, exact) && Covered(w, s, es, exact)
    ensures CutEverywhere(w, Play(w, s, es), exact)
    decreases |es|
  {
    if es != [] {
      match es[0] {
        case DoTick => TickKeepsCut(w, s, exact);
        case DoRestart(_, _, _) => RestartKeepsCut(w, s, es[0], exact);
        case DoClear(_) =>
      }
      HistoryKeepsCut(w, Step(w, s, es[0]), es[1..], exact);
    }
  }

  /**
   * In every history, every checkpoint of the run was committed as a consistent cut: as many tool invocations as
   * tool messages; as many model invocations as assistant messages, one more in the completion
   * checkpoint and in no other (at least as many if the run was restarted after it); and the last
   * turn's calls are the answered ones followed by the pending ones, in order.
   */
  lemma EveryCheckpointIsAConsistentCut(w: World, s: Sys, es: seq<Event>, exact: bool, row: CheckpointLog.Row)
    requires FirstAttempt(s) && Covered(w, s, es, exact)
    requires row in Play(w, s, es).log.rows && row.runId == Play(w, s, es).local.id.runId
    ensures CutRow(w, row, exact)
  {
    assert CutEverywhere(w, s, exact);
    HistoryKeepsCut(w, s, es, exact);
  }
}
