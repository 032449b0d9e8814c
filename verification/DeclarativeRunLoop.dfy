/**
 * The execution loop itself: local variables updated in place, the journal, checkpoint log and
 * tool gateway as objects it calls. `fuel` counts the actions this process still lives to do, so a
 * run of the method with little fuel is a run that crashes between two actions.
 */
module DeclarativeRunLoop {
  import opened Common
  import opened Conversation
  import opened OperationJournal
  import opened AgentSemantics
  import opened DurableMachine
  import CheckpointLog

  /** The outside world's side of the tools: it answers, and remembers which operations it received. */
  class ToolGateway {
    var invoked: seq<OpKey>

    constructor ()
      ensures invoked == []
    {
      invoked := [];
    }

    method Invoke(w: World, k: OpKey, call: Call, version: string) returns (reply: ToolReply)
      modifies this
      ensures invoked == old(invoked) + [k] && reply == w.tool(call, version)
    {
      invoked := invoked + [k];
      reply := w.tool(call, version);
    }
  }

  /** How one execution of the loop can stop. */
  datatype Exit = Finished(result: ExecutionResult) | Threw | Crashed

  /** An exit is where the machine stopped, or where the process ran out of fuel in mid-course. */
  predicate Stops(exit: Exit, p: Phase, fuel: nat) {
    match exit
    case Finished(result) => p == Returned(result)
    case Threw => p == Thrown
    case Crashed => fuel == 0 && !p.Returned? && !p.Thrown?
  }

  datatype Turn = Stopped(result: ExecutionResult) | Asked(calls: seq<Call>) | Answered(output: Json)

  datatype Met = Over(result: ExecutionResult) | Reused | Invoking(version: string, idempotencyClass: IdempotencyClass)

  /** Which checkpoint the loop writes where, and where it goes on. */
  predicate Checkpoints(p: Phase, cursor: Cursor, kind: KeyKind, pending: seq<Call>, next: Phase) {
    match p
    case SavePrefetch => cursor == AfterPrefetch && kind == PrefetchKey && pending == [] && next == LoopHead
    case SaveModel(calls) => calls != [] && cursor == AfterModel && kind == ModelKey && pending == calls && next == ToolHead(calls, true)
    case SaveTool(rest, live) => cursor == AfterTool && kind == ToolKey && pending == rest && next == AfterSaveTool(rest, live)
    case SaveComplete(output) => cursor == AfterModel && kind == CompleteKey && pending == [] && next == Returned(Succeeded(output))
    case _ => false
  }

  class DeclarativeRun {
    const w: World
    const id: Identity
    const journal: MemoryRunOperationJournalRepository
    const checkpoints: CheckpointLog.MemoryRunCheckpointRepository
    const gateway: ToolGateway

    var messages: seq<Message>
    var modelInvocations: nat
    var toolInvocations: nat
    var retrievedContext: Option<string>
    var pendingToolCalls: seq<Call>
    var checkpointSequence: nat
    var fuel: nat

    ghost var phase: Phase
    // Every state the machine has been in since this execution began.
    ghost var trace: seq<Sys>

    ghost function Now(): Sys
      reads this, journal, checkpoints, gateway
    {
      Sys(journal.byRunOperationKey, journal.everFailed, checkpoints.State(), gateway.invoked,
          Local(id, messages, modelInvocations, toolInvocations, retrievedContext, pendingToolCalls,
                checkpointSequence, phase))
    }

    /** Everything done so far is a run of the machine that ends in the present state. */
    ghost predicate OnTrack()
      reads this, journal, checkpoints, gateway
    {
      && IsTrace(w, trace)
      && Now() == trace[|trace| - 1]
      && checkpoints.acceptsState == w.acceptsState
    }

    constructor (w: World, id: Identity, restore: Option<CheckpointLog.Row>, fuel: nat,
                 journal: MemoryRunOperationJournalRepository,
                 checkpoints: CheckpointLog.MemoryRunCheckpointRepository, gateway: ToolGateway)
      requires checkpoints.acceptsState == w.acceptsState
      ensures this.w == w && this.id == id && this.fuel == fuel
      ensures this.journal == journal && this.checkpoints == checkpoints && this.gateway == gateway
      ensures OnTrack() && |trace| == 1 && Now().local == Launch(id, restore)
    {
      this.w, this.id, this.fuel := w, id, fuel;
      this.journal, this.checkpoints, this.gateway := journal, checkpoints, gateway;
      messages, modelInvocations, toolInvocations := [], 0, 0;
      retrievedContext, pendingToolCalls, checkpointSequence := None, [], 0;
      phase := Prefetch;
      new;
      if restore.Some? {
        var st := restore.value.state;
        messages, modelInvocations, toolInvocations := st.messages, st.modelInvocations, st.toolInvocations;
        retrievedContext, pendingToolCalls := st.retrievedContext, st.pendingToolCalls;
        phase := if st.messages != [] then LoopHead else Prefetch;
      }
      trace := [Now()];
    }

    method CommitCheckpoint(cursor: Cursor, kind: KeyKind, pending: seq<Call>, ghost next: Phase) returns (accepted: bool)
      requires checkpoints.acceptsState == w.acceptsState
      modifies this`checkpointSequence, this`phase, checkpoints
      ensures Now() == Save(w, old(Now()), cursor, kind, pending, next)
      ensures phase == if accepted then next else Thrown
    {
      if !w.checkpointing {
        phase := next;
        return true;
      }
      ghost var before := Now();
      checkpointSequence := checkpointSequence + 1;
      var state := CheckpointState(messages, modelInvocations, toolInvocations, retrievedContext, pending);
      var cmd := CheckpointLog.Command(id.workspaceId, id.runId, id.runAttemptId, id.generation, id.owner, cursor, state,
                                       IdemKey(id.runAttemptId, kind, checkpointSequence));
      assert cmd == CommandFor(before.local, cursor, kind, pending);
      var outcome := checkpoints.Commit(cmd);
      assert outcome == CheckpointLog.Decide(before.log, cmd, w.acceptsState);
      accepted := !outcome.StaleGeneration? && !outcome.InvalidState?;
      phase := if accepted then next else Thrown;
    }

    /** The journal's verdict on an admitted call; a fresh operation is recorded. */
    method ConsultJournal(call: Call, version: string, c: IdempotencyClass) returns (verdict: Verdict)
      modifies journal`byRunOperationKey
      ensures var before, k := old(Now()), OpKey(id.runId, call.id);
        && verdict == Judge(w, Find(before.journal, id.workspaceId, k), call, version)
        && journal.byRunOperationKey ==
             if verdict.Fresh? then Recorded(before.journal, k, NewEntry(w, before.local, call, version, c)) else before.journal
    {
      var k := OpKey(id.runId, call.id);
      var inputFingerprint := w.fingerprint(call.args);
      var found := journal.FindByRunAndOperationKey(id.workspaceId, k);
      if found.Some? {
        var existing := found.value;
        if existing.status == COMMITTED && existing.committedResult.Some? && w.canonical(existing.committedResult.value) {
          if existing.toolVersionId != version || existing.inputFingerprint != inputFingerprint || existing.bindingName != call.name {
            return Blocked;
          }
          return Reuse(existing.committedResult.value);
        } else if existing.status == UNCERTAIN {
          return Blocked;
        } else if existing.status == PENDING {
          if existing.toolVersionId != version || existing.inputFingerprint != inputFingerprint || existing.bindingName != call.name {
            return Blocked;
          }
          if !SafeToAutoReplay(existing.idempotencyClass, PENDING) { return Blocked; }
          return Replay;
        }
      }
      var _ := journal.RecordPending(k,
        Entry(id.workspaceId, id.runAttemptId, id.generation, version, call.name, inputFingerprint, c, PENDING, None));
      return Fresh;
    }

    /** The checks on a call, in the order in which the first failing one decides the code. */
    method CheckToolCall(call: Call) returns (check: CallCheck)
      ensures check == CheckCall(w, toolInvocations, call)
    {
      if !w.hasToolGateway { return Refused(TOOL_UNAVAILABLE); }
      if toolInvocations >= w.maxToolInvocations { return Refused(BUDGET_EXCEEDED); }
      if call.name !in w.allowedTools { return Refused(TOOL_NOT_AUTHORIZED); }
      if call.name !in w.bindings { return Refused(BINDING_MISMATCH); }
      var version := w.bindings[call.name];
      if version !in w.metadata { return Refused(TOOL_UNAVAILABLE); }
      if !w.acceptsInput(version, call.args) { return Refused(INVALID_TOOL_INPUT); }
      return Admitted(version, w.metadata[version]);
    }

    /** Checks and budgets, then the journal's verdict; a fresh operation is recorded before it is invoked. */
    method MeetCall(call: Call, ghost rest: seq<Call>, ghost live: bool) returns (met: Met)
      requires phase == ToolHead([call] + rest, live)
      modifies this`toolInvocations, this`messages, this`phase, journal`byRunOperationKey
      ensures Now() == TickToolHead(w, old(Now()), [call] + rest, live)
      ensures match met
        case Over(result) => phase == Returned(result)
        case Reused => phase == if live || rest == [] then SaveTool(rest, live) else ToolHead(rest, live)
        case Invoking(version, c) => phase == Invoke(call, rest, live, version, c)
    {
      assert ([call] + rest)[0] == call && ([call] + rest)[1..] == rest;
      ghost var before := Now();
      var check := CheckToolCall(call);
      if check.Refused? {
        phase := Returned(Failed(check.code));
        return Over(Failed(check.code));
      }
      var version := check.version;
      if w.journaled {
        var verdict := ConsultJournal(call, version, check.idempotencyClass);
        if verdict.Blocked? {
          phase := Returned(Failed(RECOVERY_BLOCKED));
          return Over(Failed(RECOVERY_BLOCKED));
        }
        if verdict.Reuse? {
          toolInvocations := toolInvocations + 1;
          messages := messages + [ToolResult(call.id, call.name, verdict.value)];
          phase := if live || rest == [] then SaveTool(rest, live) else ToolHead(rest, live);
          assert Now().local == PushResult(before.local.(toolInvocations := toolInvocations), call, verdict.value, rest, live);
          return Reused;
        }
      }
      toolInvocations := toolInvocations + 1;
      phase := Invoke(call, rest, live, version, check.idempotencyClass);
      assert Now().local == before.local.(toolInvocations := toolInvocations, phase := phase);
      return Invoking(version, check.idempotencyClass);
    }

    method InvokeTool(call: Call, version: string) returns (reply: ToolReply)
      requires phase.Invoke? && phase.call == call && phase.version == version
      modifies this`phase, gateway
      ensures Now() == TickInvoke(w, old(Now()))
      ensures phase.SettleCall? && phase.reply == reply
      ensures var p := old(phase); phase == SettleCall(p.call, p.rest, p.live, p.idempotencyClass, reply)
    {
      reply := gateway.Invoke(w, OpKey(id.runId, call.id), call, version);
      phase := SettleCall(phase.call, phase.rest, phase.live, phase.idempotencyClass, reply);
    }

    /** Journals the answer; only a committed answer joins the transcript. */
    method SettleReply(call: Call, c: IdempotencyClass, reply: ToolReply) returns (failure: Option<ExecutionResult>)
      requires phase.SettleCall? && phase.call == call && phase.idempotencyClass == c && phase.reply == reply
      modifies this`messages, this`phase, journal
      ensures Now() == TickSettle(w, old(Now()))
      ensures match failure
        case Some(result) => phase == Returned(result)
        case None => var p := old(phase);
          phase == if p.live || p.rest == [] then SaveTool(p.rest, p.live) else ToolHead(p.rest, p.live)
    {
      ghost var p := phase;
      var k := OpKey(id.runId, call.id);
      match reply {
        case Raised(error) =>
          if w.journaled {
            var disposition := FailureDisposition(c, error, true);
            if disposition == DefinitiveFailed {
              var _ := journal.MarkFailed(k);
            } else if disposition == Uncertain {
              var _ := journal.MarkUncertain(k);
            }
          }
          phase := Returned(Failed(TOOL_UNAVAILABLE));
          return Some(Failed(TOOL_UNAVAILABLE));
        case Output(value) =>
          if !w.canonical(value) {
            if w.journaled {
              var _ := journal.MarkFailed(k);
            }
            phase := Returned(Failed(INVALID_TOOL_INPUT));
            return Some(Failed(INVALID_TOOL_INPUT));
          }
          if w.journaled {
            var committed := journal.CommitResult(k, value);
            if committed.None? {
              var _ := journal.MarkUncertain(k);
              phase := Returned(Failed(RECOVERY_BLOCKED));
              return Some(Failed(RECOVERY_BLOCKED));
            }
          }
          messages := messages + [ToolResult(call.id, call.name, value)];
          phase := if p.live || p.rest == [] then SaveTool(p.rest, p.live) else ToolHead(p.rest, p.live);
          return None;
      }
    }

    // ---- The same actions, each accounted for as one tick ----

    method MeetCallTick(call: Call, ghost rest: seq<Call>, ghost live: bool) returns (met: Met)
      requires OnTrack() && fuel > 0 && phase == ToolHead([call] + rest, live)
      modifies this`toolInvocations, this`messages, this`phase, this`fuel, this`trace, journal
      ensures OnTrack() && fuel == old(fuel) - 1 && old(trace) < trace && |trace| == |old(trace)| + 1
      ensures match met
        case Over(result) => phase == Returned(result)
        case Reused => phase == if live || rest == [] then SaveTool(rest, live) else ToolHead(rest, live)
        case Invoking(version, c) => phase == Invoke(call, rest, live, version, c)
    {
      fuel := fuel - 1;
      met := MeetCall(call, rest, live);
      assert Now() == Tick(w, old(Now()));
      ExtendTrace(w, trace, Now());
      trace := trace + [Now()];
    }

    method InvokeToolTick(call: Call, version: string) returns (reply: ToolReply)
      requires OnTrack() && fuel > 0 && phase.Invoke? && phase.call == call && phase.version == version
      modifies this`phase, this`fuel, this`trace, gateway
      ensures OnTrack() && fuel == old(fuel) - 1 && old(trace) < trace && |trace| == |old(trace)| + 1
      ensures var p := old(phase); phase == SettleCall(p.call, p.rest, p.live, p.idempotencyClass, reply)
    {
      fuel := fuel - 1;
      reply := InvokeTool(call, version);
      assert Now() == Tick(w, old(Now()));
      ExtendTrace(w, trace, Now());
      trace := trace + [Now()];
    }

    method SettleReplyTick(call: Call, c: IdempotencyClass, reply: ToolReply) returns (failure: Option<ExecutionResult>)
      requires OnTrack() && fuel > 0
      requires phase.SettleCall? && phase.call == call && phase.idempotencyClass == c && phase.reply == reply
      modifies this`messages, this`phase, this`fuel, this`trace, journal
      ensures OnTrack() && fuel == old(fuel) - 1 && old(trace) < trace && |trace| == |old(trace)| + 1
      ensures match failure
        case Some(result) => phase == Returned(result)
        case None => var p := old(phase);
          phase == if p.live || p.rest == [] then SaveTool(p.rest, p.live) else ToolHead(p.rest, p.live)
    {
      fuel := fuel - 1;
      failure := SettleReply(call, c, reply);
      assert Now() == Tick(w, old(Now()));
      ExtendTrace(w, trace, Now());
      trace := trace + [Now()];
    }

    method CommitCheckpointTick(cursor: Cursor, kind: KeyKind, pending: seq<Call>, ghost next: Phase) returns (accepted: bool)
      requires OnTrack() && fuel > 0
      requires Checkpoints(phase, cursor, kind, pending, next)
      modifies this`checkpointSequence, this`phase, this`fuel, this`trace, checkpoints
      ensures OnTrack() && fuel == old(fuel) - 1 && old(trace) < trace && |trace| == |old(trace)| + 1
      ensures phase == if accepted then next else Thrown
    {
      fuel := fuel - 1;
      accepted := CommitCheckpoint(cursor, kind, pending, next);
      assert Now() == Tick(w, old(Now()));
      ExtendTrace(w, trace, Now());
      trace := trace + [Now()];
    }

    method ExecuteToolCall(call: Call, ghost rest: seq<Call>, ghost live: bool) returns (exit: Option<Exit>)
      requires OnTrack() && phase == ToolHead([call] + rest, live)
      modifies this`messages, this`toolInvocations, this`fuel, this`phase, this`trace, journal, gateway
      ensures OnTrack() && old(trace) <= trace && |trace| + fuel == old(|trace| + fuel)
      ensures if exit.None? then phase == (if live || rest == [] then SaveTool(rest, live) else ToolHead(rest, live))
              else Stops(exit.value, phase, fuel)
    {
      if fuel == 0 { return Some(Crashed); }
      var met := MeetCallTick(call, rest, live);
      match met {
        case Over(result) => return Some(Finished(result));
        case Reused => return None;
        case Invoking(version, c) =>
          if fuel == 0 { return Some(Crashed); }
          var reply := InvokeToolTick(call, version);
          if fuel == 0 { return Some(Crashed); }
          var failure := SettleReplyTick(call, c, reply);
          return if failure.Some? then Some(Finished(failure.value)) else None;
      }
    }

    method ExecuteToolBatch(calls: seq<Call>, ghost beyond: seq<Call>, ghost live: bool) returns (exit: Option<Exit>)
      requires OnTrack() && calls != [] && phase == ToolHead(calls + beyond, live)
      requires if live then |calls| == 1 else beyond == []
      modifies this`messages, this`toolInvocations, this`fuel, this`phase, this`trace, journal, gateway
      ensures OnTrack() && old(trace) <= trace && |trace| + fuel == old(|trace| + fuel)
      ensures if exit.None? then phase == SaveTool(beyond, live) else Stops(exit.value, phase, fuel)
    {
      for i := 0 to |calls|
        invariant OnTrack() && old(trace) <= trace && |trace| + fuel == old(|trace| + fuel)
        invariant phase == if i < |calls| then ToolHead(calls[i..] + beyond, live) else SaveTool(beyond, live)
      {
        ghost var rest := calls[i + 1..] + beyond;
        assert calls[i..] + beyond == [calls[i]] + rest;
        exit := ExecuteToolCall(calls[i], rest, live);
        if exit.Some? { return; }
        assert i + 1 == |calls| ==> rest == beyond;
      }
      return None;
    }

    /** Retrieves context and builds the first messages. */
    method PrefetchContext() returns (ok: bool)
      requires phase.Prefetch?
      modifies this`messages, this`retrievedContext, this`phase
      ensures Now() == TickPrefetch(w, old(Now()))
      ensures phase == if ok then SavePrefetch else Returned(Failed(CONTEXT_UNAVAILABLE))
    {
      match w.prefetch {
        case None =>
          phase := Returned(Failed(CONTEXT_UNAVAILABLE));
          return false;
        case Some(context) =>
          messages := InitialMessages(w, context);
          retrievedContext := context;
          phase := SavePrefetch;
          return true;
      }
    }

    method PrefetchTick() returns (ok: bool)
      requires OnTrack() && fuel > 0 && phase.Prefetch?
      modifies this`messages, this`retrievedContext, this`phase, this`fuel, this`trace
      ensures OnTrack() && fuel == old(fuel) - 1 && old(trace) < trace && |trace| == |old(trace)| + 1
      ensures phase == if ok then SavePrefetch else Returned(Failed(CONTEXT_UNAVAILABLE))
    {
      fuel := fuel - 1;
      ok := PrefetchContext();
      assert Now() == Tick(w, old(Now()));
      ExtendTrace(w, trace, Now());
      trace := trace + [Now()];
    }

    method TakeRestoredCallsTick() returns (batch: seq<Call>)
      requires OnTrack() && fuel > 0 && phase.LoopHead? && pendingToolCalls != []
      modifies this`pendingToolCalls, this`phase, this`fuel, this`trace
      ensures OnTrack() && fuel == old(fuel) - 1 && old(trace) < trace && |trace| == |old(trace)| + 1
      ensures batch == old(pendingToolCalls) && pendingToolCalls == [] && phase == ToolHead(batch, false)
    {
      fuel := fuel - 1;
      batch := pendingToolCalls;
      pendingToolCalls := [];
      phase := ToolHead(batch, false);
      assert Now() == Tick(w, old(Now()));
      ExtendTrace(w, trace, Now());
      trace := trace + [Now()];
    }

    /** One model turn: it can end the run, ask for tools or give the final answer. */
    method AskModel() returns (turn: Turn)
      requires phase.LoopHead? && pendingToolCalls == []
      modifies this`messages, this`modelInvocations, this`phase
      ensures Now() == TickLoopHead(w, old(Now()))
      ensures !turn.Stopped? ==> ModelBudget(w, modelInvocations) < ModelBudget(w, old(modelInvocations))
      ensures match turn
        case Stopped(result) => phase == Returned(result)
        case Asked(calls) => calls != [] && phase == SaveModel(calls)
        case Answered(output) => phase == SaveComplete(output)
    {
      if modelInvocations >= w.maxModelInvocations {
        phase := Returned(Failed(BUDGET_EXCEEDED));
        return Stopped(Failed(BUDGET_EXCEEDED));
      }
      modelInvocations := modelInvocations + 1;
      var completion := w.model(messages, UseTools(w, toolInvocations));
      if completion.toolCalls != [] {
        if !w.hasToolGateway {
          phase := Returned(Failed(TOOL_UNAVAILABLE));
          return Stopped(Failed(TOOL_UNAVAILABLE));
        }
        messages := messages + [AssistantTurn(completion)];
        phase := SaveModel(completion.toolCalls);
        return Asked(completion.toolCalls);
      }
      var result := ReadAnswer(completion.text);
      match result {
        case Failed(code) =>
          phase := Returned(result);
          return Stopped(result);
        case Succeeded(output) =>
          phase := SaveComplete(output);
          return Answered(output);
      }
    }

    /** The final text has to parse, be canonical JSON and fit the output schema. */
    method ReadAnswer(text: Option<string>) returns (result: ExecutionResult)
      ensures forall calls :: result == Answer(w, Completion(text, calls))
    {
      if text.None? { return Failed(INVALID_MODEL_RESPONSE); }
      var rawOutput := w.parseOutput(text.value);
      if rawOutput.None? { return Failed(INVALID_MODEL_RESPONSE); }
      if !w.canonical(rawOutput.value) { return Failed(INVALID_OUTPUT); }
      if !w.acceptsOutput(rawOutput.value) { return Failed(INVALID_OUTPUT); }
      return Succeeded(rawOutput.value);
    }

    method AskModelTick() returns (turn: Turn)
      requires OnTrack() && fuel > 0 && phase.LoopHead? && pendingToolCalls == []
      modifies this`messages, this`modelInvocations, this`phase, this`fuel, this`trace
      ensures OnTrack() && fuel == old(fuel) - 1 && old(trace) < trace && |trace| == |old(trace)| + 1
      ensures !turn.Stopped? ==> ModelBudget(w, modelInvocations) < ModelBudget(w, old(modelInvocations))
      ensures match turn
        case Stopped(result) => phase == Returned(result)
        case Asked(calls) => calls != [] && phase == SaveModel(calls)
        case Answered(output) => phase == SaveComplete(output)
    {
      fuel := fuel - 1;
      turn := AskModel();
      assert Now() == Tick(w, old(Now()));
      ExtendTrace(w, trace, Now());
      trace := trace + [Now()];
    }

    /** Runs one call of a live turn and checkpoints what is left of the turn. */
    method RunLiveCall(call: Call, remaining: seq<Call>) returns (exit: Option<Exit>)
      requires OnTrack() && phase == ToolHead([call] + remaining, true)
      modifies this`messages, this`toolInvocations, this`checkpointSequence, this`fuel, this`phase, this`trace,
               journal, gateway, checkpoints
      ensures OnTrack() && old(trace) <= trace && |trace| + fuel == old(|trace| + fuel)
      ensures if exit.None? then phase == AfterSaveTool(remaining, true) else Stops(exit.value, phase, fuel)
    {
      exit := ExecuteToolBatch([call], remaining, true);
      if exit.Some? { return; }
      if fuel == 0 { return Some(Crashed); }
      var accepted := CommitCheckpointTick(AfterTool, ToolKey, remaining, AfterSaveTool(remaining, true));
      return if accepted then None else Some(Threw);
    }

    /** Runs the calls of a live turn one by one, with a checkpoint before the first and after each. */
    method RunLiveCalls(calls: seq<Call>) returns (exit: Option<Exit>)
      requires OnTrack() && calls != [] && phase == SaveModel(calls)
      modifies this`messages, this`toolInvocations, this`checkpointSequence, this`fuel, this`phase, this`trace,
               journal, gateway, checkpoints
      ensures OnTrack() && old(trace) <= trace && |trace| + fuel == old(|trace| + fuel)
      ensures if exit.None? then phase == LoopHead else Stops(exit.value, phase, fuel)
    {
      if fuel == 0 { return Some(Crashed); }
      var accepted := CommitCheckpointTick(AfterModel, ModelKey, calls, ToolHead(calls, true));
      if !accepted { return Some(Threw); }
      for index := 0 to |calls|
        invariant OnTrack() && old(trace) <= trace && |trace| + fuel == old(|trace| + fuel)
        invariant phase == if index < |calls| then ToolHead(calls[index..], true) else LoopHead
      {
        assert [calls[index]] + calls[index + 1..] == calls[index..];
        exit := RunLiveCall(calls[index], calls[index + 1..]);
        if exit.Some? { return; }
      }
      return None;
    }

    /** Runs the calls restored from a checkpoint as one batch with one checkpoint at its end. */
    method RunRestoredCalls() returns (exit: Option<Exit>)
      requires OnTrack() && fuel > 0 && phase.LoopHead? && pendingToolCalls != []
      modifies this`messages, this`toolInvocations, this`pendingToolCalls, this`checkpointSequence, this`fuel,
               this`phase, this`trace, journal, gateway, checkpoints
      ensures OnTrack() && old(trace) <= trace && |trace| + fuel == old(|trace| + fuel) && pendingToolCalls == []
      ensures if exit.None? then phase == LoopHead else Stops(exit.value, phase, fuel)
    {
      var batch := TakeRestoredCallsTick();
      assert batch + [] == batch;
      exit := ExecuteToolBatch(batch, [], false);
      if exit.Some? { return; }
      if fuel == 0 { return Some(Crashed); }
      var accepted := CommitCheckpointTick(AfterTool, ToolKey, [], AfterSaveTool([], false));
      return if accepted then None else Some(Threw);
    }

    method Begin() returns (exit: Option<Exit>)
      requires OnTrack() && phase.Prefetch?
      modifies this`messages, this`retrievedContext, this`checkpointSequence, this`fuel, this`phase, this`trace, checkpoints
      ensures OnTrack() && old(trace) <= trace && |trace| + fuel == old(|trace| + fuel)
      ensures if exit.None? then phase == LoopHead else Stops(exit.value, phase, fuel)
    {
      if fuel == 0 { return Some(Crashed); }
      var ok := PrefetchTick();
      if !ok { return Some(Finished(Failed(CONTEXT_UNAVAILABLE))); }
      if fuel == 0 { return Some(Crashed); }
      var accepted := CommitCheckpointTick(AfterPrefetch, PrefetchKey, [], LoopHead);
      return if accepted then None else Some(Threw);
    }

    method Complete(output: Json) returns (exit: Exit)
      requires OnTrack() && phase == SaveComplete(output)
      modifies this`checkpointSequence, this`fuel, this`phase, this`trace, checkpoints
      ensures OnTrack() && old(trace) <= trace && |trace| + fuel == old(|trace| + fuel)
      ensures Stops(exit, phase, fuel)
    {
      if fuel == 0 { return Crashed; }
      var accepted := CommitCheckpointTick(AfterModel, CompleteKey, [], Returned(Succeeded(output)));
      return if accepted then Finished(Succeeded(output)) else Threw;
    }

    /** One model turn: the answer ends the attempt, tool calls are run. */
    method RunTurn() returns (exit: Option<Exit>)
      requires OnTrack() && fuel > 0 && phase.LoopHead? && pendingToolCalls == []
      modifies this`messages, this`modelInvocations, this`toolInvocations, this`checkpointSequence, this`fuel,
               this`phase, this`trace, journal, gateway, checkpoints
      ensures OnTrack() && old(trace) <= trace && |trace| + fuel == old(|trace| + fuel)
      ensures if exit.Some? then Stops(exit.value, phase, fuel)
              else phase == LoopHead && ModelBudget(w, modelInvocations) < ModelBudget(w, old(modelInvocations))
    {
      var turn := AskModelTick();
      match turn {
        case Stopped(result) => return Some(Finished(result));
        case Asked(calls) => exit := RunLiveCalls(calls);
        case Answered(output) =>
          var last := Complete(output);
          return Some(last);
      }
    }

    /**
     * The loop. Its whole effect on journal, checkpoint log, tools and local variables is that of as
     * many machine ticks as it had fuel for, and it stops early only where the machine has stopped.
     */
    method RunDeclarativeExecutionLoop() returns (exit: Exit)
      requires OnTrack() && phase == (if messages == [] then Prefetch else LoopHead)
      modifies this`messages, this`modelInvocations, this`toolInvocations, this`retrievedContext,
               this`pendingToolCalls, this`checkpointSequence, this`fuel, this`phase, this`trace,
               journal, gateway, checkpoints
      ensures OnTrack() && old(trace) <= trace && |trace| + fuel == old(|trace| + fuel)
      ensures Stops(exit, phase, fuel)
    {
      if messages == [] {
        var stopped := Begin();
        if stopped.Some? { return stopped.value; }
      }
      while true
        invariant OnTrack() && old(trace) <= trace && |trace| + fuel == old(|trace| + fuel) && phase.LoopHead?
        decreases ModelBudget(w, modelInvocations) + (if pendingToolCalls != [] then 1 else 0)
      {
        if fuel == 0 { return Crashed; }
        if pendingToolCalls != [] {
          var stopped := RunRestoredCalls();
          if stopped.Some? { return stopped.value; }
          continue;
        }
        var stopped := RunTurn();
        if stopped.Some? { return stopped.value; }
      }
    }
  }

  /**
   * One attempt from its restore record on. The stores end as a history of machine steps leaves them:
   * as many as the fuel allows when the process is cut off, and all of them otherwise. `messages` is the
   * array it pushed to.
   */
  method ExecuteAttempt(w: World, id: Identity, restore: Option<CheckpointLog.Row>, fuel: nat,
                        journal: MemoryRunOperationJournalRepository,
                        checkpoints: CheckpointLog.MemoryRunCheckpointRepository, gateway: ToolGateway)
    returns (exit: Exit, messages: seq<Message>, ghost steps: nat, ghost end: Sys)
    requires checkpoints.acceptsState == w.acceptsState
    modifies journal, checkpoints, gateway
    ensures var start := Sys(old(journal.byRunOperationKey), old(journal.everFailed), old(checkpoints.State()),
                             old(gateway.invoked), Launch(id, restore));
      && end == Play(w, start, Ticks(steps)) && CrashHistory(w, start, Ticks(steps))
      && (if exit.Crashed? then steps == fuel else end == Finish(w, start))
    ensures journal.byRunOperationKey == end.journal && journal.everFailed == end.everFailed
    ensures checkpoints.State() == end.log && gateway.invoked == end.invoked && messages == end.local.messages
    ensures match exit
      case Finished(result) => end.local.phase == Returned(result)
      case Threw => end.local.phase.Thrown?
      case Crashed => !Ended(end.local)
  {
    var run := new DeclarativeRun(w, id, restore, fuel, journal, checkpoints, gateway);
    ghost var start := run.Now();
    exit := run.RunDeclarativeExecutionLoop();
    messages := run.messages;
    steps, end := |run.trace| - 1, run.Now();
    assert run.trace[0] == start;
    TraceIsAHistory(w, run.trace);
    if !exit.Crashed? {
      EndedTraceIsFinished(w, run.trace);
    }
  }
}
