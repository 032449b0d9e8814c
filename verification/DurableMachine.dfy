/**
 * The durable loop as a machine: one tick is one action between two points where a crash can
 * fall. Its durable part (journal, checkpoint log, the outside world's own record of the
 * operations it received) survives a crash; its local part does not.
 */
module DurableMachine {
  import opened Common
  import opened Conversation
  import opened OperationJournal
  import opened AgentSemantics
  import CheckpointLog

  datatype Identity = Identity(workspaceId: string, runId: string, runAttemptId: string, owner: string, generation: nat)

  datatype Phase =
    | Prefetch
    | SavePrefetch
    | LoopHead
    | SaveModel(calls: seq<Call>)
    | ToolHead(calls: seq<Call>, live: bool)
    | Invoke(call: Call, rest: seq<Call>, live: bool, version: string, idempotencyClass: IdempotencyClass)
    | SettleCall(call: Call, rest: seq<Call>, live: bool, idempotencyClass: IdempotencyClass, reply: ToolReply)
    | SaveTool(rest: seq<Call>, live: bool)
    | SaveComplete(output: Json)
    | Returned(result: ExecutionResult)
    | Thrown

  datatype Local = Local(
    id: Identity,
    messages: seq<Message>,
    modelInvocations: nat,
    toolInvocations: nat,
    retrievedContext: Option<string>,
    pending: seq<Call>,
    checkpointSequence: nat,
    phase: Phase)

  datatype Sys = Sys(
    journal: Journal,
    everFailed: set<OpKey>,
    log: CheckpointLog.Log,
    invoked: seq<OpKey>,
    local: Local)

  predicate Ended(l: Local) {
    l.phase.Returned? || l.phase.Thrown?
  }

  /** The attempt returned an output, so its completion is recorded. */
  predicate Completed(l: Local) {
    l.phase.Returned? && l.phase.result.Succeeded?
  }

  function KeyOf(l: Local, call: Call): OpKey {
    OpKey(l.id.runId, call.id)
  }

  // ---- Checkpoints ----

  function Snapshot(l: Local, pending: seq<Call>): CheckpointState {
    CheckpointState(l.messages, l.modelInvocations, l.toolInvocations, l.retrievedContext, pending)
  }

  function CommandFor(l: Local, cursor: Cursor, kind: KeyKind, pending: seq<Call>): CheckpointLog.Command {
    CheckpointLog.Command(l.id.workspaceId, l.id.runId, l.id.runAttemptId, l.id.generation, l.id.owner, cursor,
      Snapshot(l, pending), IdemKey(l.id.runAttemptId, kind, l.checkpointSequence + 1))
  }

  /** A rejected commit throws, so the attempt is gone; an accepted one moves on to `next`. */
  function Save(w: World, s: Sys, cursor: Cursor, kind: KeyKind, pending: seq<Call>, next: Phase): Sys {
    if !w.checkpointing then s.(local := s.local.(phase := next))
    else
      var cmd := CommandFor(s.local, cursor, kind, pending);
      var outcome := CheckpointLog.Decide(s.log, cmd, w.acceptsState);
      s.(log := CheckpointLog.AfterCommit(s.log, cmd, w.acceptsState),
         local := s.local.(checkpointSequence := s.local.checkpointSequence + 1,
                           phase := if outcome.Committed? || outcome.Duplicate? then next else Thrown))
  }

  // ---- The journal's verdict on a call ----

  datatype Verdict = Reuse(value: Json) | Blocked | Replay | Fresh

  predicate Matches(w: World, e: Entry, call: Call, version: string) {
    e.toolVersionId == version && e.inputFingerprint == w.fingerprint(call.args) && e.bindingName == call.name
  }

  function Judge(w: World, existing: Option<Entry>, call: Call, version: string): Verdict {
    if existing.None? then Fresh
    else
      var e := existing.value;
      if e.status == COMMITTED && e.committedResult.Some? && w.canonical(e.committedResult.value) then
        if Matches(w, e, call, version) then Reuse(e.committedResult.value) else Blocked
      else if e.status == UNCERTAIN then Blocked
      else if e.status == PENDING then
        if Matches(w, e, call, version) && SafeToAutoReplay(e.idempotencyClass, PENDING) then Replay else Blocked
      else Fresh
  }

  function NewEntry(w: World, l: Local, call: Call, version: string, c: IdempotencyClass): Entry {
    Entry(l.id.workspaceId, l.id.runAttemptId, l.id.generation, version, call.name, w.fingerprint(call.args), c,
          PENDING, None)
  }

  function Return(l: Local, result: ExecutionResult): Local {
    l.(phase := Returned(result))
  }

  /** The tool's answer joins the transcript; a live batch checkpoints after every call, a restored one at its end. */
  function PushResult(l: Local, call: Call, value: Json, rest: seq<Call>, live: bool): Local {
    l.(messages := l.messages + [ToolResult(call.id, call.name, value)],
       phase := if live || rest == [] then SaveTool(rest, live) else ToolHead(rest, live))
  }

  // ---- Ticks ----

  function TickPrefetch(w: World, s: Sys): Sys {
    match w.prefetch
    case None => s.(local := Return(s.local, Failed(CONTEXT_UNAVAILABLE)))
    case Some(context) =>
      s.(local := s.local.(messages := InitialMessages(w, context), retrievedContext := context, phase := SavePrefetch))
  }

  function TickLoopHead(w: World, s: Sys): Sys {
    var l := s.local;
    if l.pending != [] then s.(local := l.(pending := [], phase := ToolHead(l.pending, false)))
    else if l.modelInvocations >= w.maxModelInvocations then s.(local := Return(l, Failed(BUDGET_EXCEEDED)))
    else
      var completion := Ask(w, l.messages, l.toolInvocations);
      var l' := l.(modelInvocations := l.modelInvocations + 1);
      if completion.toolCalls != [] then
        if !w.hasToolGateway then s.(local := Return(l', Failed(TOOL_UNAVAILABLE)))
        else s.(local := l'.(messages := l.messages + [AssistantTurn(completion)], phase := SaveModel(completion.toolCalls)))
      else
        match Answer(w, completion)
        case Failed(code) => s.(local := Return(l', Failed(code)))
        case Succeeded(output) => s.(local := l'.(phase := SaveComplete(output)))
  }

  function TickToolHead(w: World, s: Sys, calls: seq<Call>, live: bool): Sys
    requires calls != []
  {
    var l := s.local;
    var call, rest := calls[0], calls[1..];
    match CheckCall(w, l.toolInvocations, call)
    case Refused(code) => s.(local := Return(l, Failed(code)))
    case Admitted(version, c) =>
      var counted := l.(toolInvocations := l.toolInvocations + 1);
      var invoking := counted.(phase := Invoke(call, rest, live, version, c));
      if !w.journaled then s.(local := invoking)
      else
        match Judge(w, Find(s.journal, l.id.workspaceId, KeyOf(l, call)), call, version)
        case Blocked => s.(local := Return(l, Failed(RECOVERY_BLOCKED)))
        case Reuse(value) => s.(local := PushResult(counted, call, value, rest, live))
        case Replay => s.(local := invoking)
        case Fresh => s.(journal := Recorded(s.journal, KeyOf(l, call), NewEntry(w, l, call, version, c)), local := invoking)
  }

  function TickInvoke(w: World, s: Sys): Sys
    requires s.local.phase.Invoke?
  {
    var p := s.local.phase;
    s.(invoked := s.invoked + [KeyOf(s.local, p.call)],
       local := s.local.(phase := SettleCall(p.call, p.rest, p.live, p.idempotencyClass, w.tool(p.call, p.version))))
  }

  function MarkFailedIn(s: Sys, k: OpKey): Sys {
    s.(journal := WithStatus(s.journal, k, FAILED), everFailed := s.everFailed + {k})
  }

  function TickSettle(w: World, s: Sys): Sys
    requires s.local.phase.SettleCall?
  {
    var p := s.local.phase;
    var k := KeyOf(s.local, p.call);
    match Usable(w, p.reply)
    case Ok(value) =>
      if !w.journaled then s.(local := PushResult(s.local, p.call, value, p.rest, p.live))
      else if k in s.journal then
        s.(journal := WithResult(s.journal, k, value), local := PushResult(s.local, p.call, value, p.rest, p.live))
      else s.(local := Return(s.local, Failed(RECOVERY_BLOCKED)))
    case Err(code) =>
      var done := s.(local := Return(s.local, Failed(code)));
      if !w.journaled then done
      else if p.reply.Output? then MarkFailedIn(done, k)
      else
        match FailureDisposition(p.idempotencyClass, p.reply.error, true)
        case DefinitiveFailed => MarkFailedIn(done, k)
        case Uncertain => done.(journal := WithStatus(s.journal, k, UNCERTAIN))
        case NoJournalUpdate => done
  }

  function AfterSaveTool(rest: seq<Call>, live: bool): Phase {
    if rest != [] then ToolHead(rest, live) else LoopHead
  }

  predicate WellFormed(l: Local) {
    match l.phase
    case SaveModel(calls) => calls != []
    case ToolHead(calls, _) => calls != []
    case _ => true
  }

  function Tick(w: World, s: Sys): (r: Sys)
    requires WellFormed(s.local)
    ensures WellFormed(r.local)
  {
    match s.local.phase
    case Prefetch => TickPrefetch(w, s)
    case SavePrefetch => Save(w, s, AfterPrefetch, PrefetchKey, [], LoopHead)
    case LoopHead => TickLoopHead(w, s)
    case SaveModel(calls) => Save(w, s, AfterModel, ModelKey, calls, ToolHead(calls, true))
    case ToolHead(calls, live) => TickToolHead(w, s, calls, live)
    case Invoke(_, _, _, _, _) => TickInvoke(w, s)
    case SettleCall(_, _, _, _, _) => TickSettle(w, s)
    case SaveTool(rest, live) => Save(w, s, AfterTool, ToolKey, rest, AfterSaveTool(rest, live))
    case SaveComplete(output) => Save(w, s, AfterModel, CompleteKey, [], Returned(Succeeded(output)))
    case Returned(_) => s
    case Thrown => s
  }

  // ---- Termination: the model budget, then the calls in hand, then the phase ----

  function CallsInHand(l: Local): nat {
    |l.pending| +
    match l.phase
    case SaveModel(calls) => |calls|
    case ToolHead(calls, _) => |calls|
    case Invoke(_, rest, _, _, _) => |rest| + 1
    case SettleCall(_, rest, _, _, _) => |rest| + 1
    case SaveTool(rest, _) => |rest|
    case _ => 0
  }

  function PhaseRank(p: Phase): nat {
    match p
    case Prefetch => 9
    case SavePrefetch => 8
    case SaveModel(_) => 7
    case SaveTool(_, _) => 6
    case LoopHead => 5
    case ToolHead(_, _) => 4
    case Invoke(_, _, _, _, _) => 3
    case SettleCall(_, _, _, _, _) => 2
    case SaveComplete(_) => 1
    case _ => 0
  }

  predicate Lower(w: World, l: Local, than: Local) {
    || ModelBudget(w, l.modelInvocations) < ModelBudget(w, than.modelInvocations)
    || (l.modelInvocations == than.modelInvocations
        && (CallsInHand(l) < CallsInHand(than)
            || (CallsInHand(l) == CallsInHand(than) && PhaseRank(l.phase) < PhaseRank(than.phase))))
  }

  lemma LoopHeadProgress(w: World, s: Sys)
    requires WellFormed(s.local) && s.local.phase.LoopHead?
    ensures Lower(w, TickLoopHead(w, s).local, s.local)
  {
  }

  lemma ToolHeadProgress(w: World, s: Sys)
    requires WellFormed(s.local) && s.local.phase.ToolHead?
    ensures var r := TickToolHead(w, s, s.local.phase.calls, s.local.phase.live);
      Lower(w, r.local, s.local)
  {
  }

  lemma SettleProgress(w: World, s: Sys)
    requires WellFormed(s.local) && s.local.phase.SettleCall?
    ensures Lower(w, TickSettle(w, s).local, s.local)
  {
  }

  /** Whatever the model and the tools answer, every tick of an attempt that has not ended makes progress. */
  lemma TickMakesProgress(w: World, s: Sys)
    requires WellFormed(s.local) && !Ended(s.local)
    ensures Lower(w, Tick(w, s).local, s.local)
  {
    match s.local.phase {
      case LoopHead => LoopHeadProgress(w, s);
      case ToolHead(_, _) => ToolHeadProgress(w, s);
      case SettleCall(_, _, _, _, _) => SettleProgress(w, s);
      case _ =>
    }
  }

  /** Run the current attempt until it returns or throws. */
  function Finish(w: World, s: Sys): Sys
    requires WellFormed(s.local)
    decreases ModelBudget(w, s.local.modelInvocations), CallsInHand(s.local), PhaseRank(s.local.phase)
  {
    if Ended(s.local) then s
    else
      TickMakesProgress(w, s);
      Finish(w, Tick(w, s))
  }

  predicate WithinBudgets(w: World, l: Local) {
    l.modelInvocations <= w.maxModelInvocations && l.toolInvocations <= w.maxToolInvocations
  }

  lemma TickStaysWithinBudgets(w: World, s: Sys)
    requires WellFormed(s.local) && WithinBudgets(w, s.local)
    ensures WithinBudgets(w, Tick(w, s).local)
  {
  }

  /** An attempt left alone ends, for every model behaviour, with both counters within their maxima. */
  lemma {:induction false} AttemptEndsWithinBudgets(w: World, s: Sys)
    requires WellFormed(s.local) && WithinBudgets(w, s.local)
    ensures Ended(Finish(w, s).local) && WithinBudgets(w, Finish(w, s).local)
    decreases ModelBudget(w, s.local.modelInvocations), CallsInHand(s.local), PhaseRank(s.local.phase)
  {
    if !Ended(s.local) {
      TickMakesProgress(w, s);
      TickStaysWithinBudgets(w, s);
      AttemptEndsWithinBudgets(w, Tick(w, s));
    }
  }

  // ---- Crashes and restarts ----

  /**
   * What can happen to a run: its current attempt does one action; the attempt is lost (a crash, a
   * cancellation, anything that stops it without a result) and a new one starts; an attempt is no
   * longer tracked as running, so that its later commits are refused.
   */
  datatype Event =
    | DoTick
    | DoRestart(runAttemptId: string, owner: string, generation: nat)
    | DoClear(clearedAttemptId: string)

  /** A new attempt starts from the latest checkpoint as it was committed, or from nothing. */
  function Launch(id: Identity, latest: Option<CheckpointLog.Row>): Local {
    match latest
    case None => Local(id, [], 0, 0, None, [], 0, Prefetch)
    case Some(row) =>
      var st := row.state;
      if st.messages != [] then
        Local(id, st.messages, st.modelInvocations, st.toolInvocations, st.retrievedContext, st.pendingToolCalls, 0, LoopHead)
      else
        Local(id, [], st.modelInvocations, st.toolInvocations, st.retrievedContext, st.pendingToolCalls, 0, Prefetch)
  }

  function Restart(s: Sys, runAttemptId: string, owner: string, generation: nat): Sys {
    var id := s.local.id.(runAttemptId := runAttemptId, owner := owner, generation := generation);
    s.(log := s.log.(attempts := s.log.attempts[runAttemptId := CheckpointLog.Tracked(owner, generation)]),
       local := Launch(id, CheckpointLog.FindLatest(s.log.rows, id.workspaceId, id.runId)))
  }

  function Step(w: World, s: Sys, e: Event): (r: Sys)
    requires WellFormed(s.local)
    ensures WellFormed(r.local)
  {
    match e
    case DoTick => Tick(w, s)
    case DoRestart(id, owner, generation) => Restart(s, id, owner, generation)
    case DoClear(id) => s.(log := s.log.(attempts := s.log.attempts - {id}))
  }

  function Play(w: World, s: Sys, es: seq<Event>): (r: Sys)
    requires WellFormed(s.local)
    ensures WellFormed(r.local)
    decreases |es|
  {
    if es == [] then s else Play(w, Step(w, s, es[0]), es[1..])
  }

  /** An attempt id that no checkpoint was ever written under. */
  predicate UnusedAttempt(log: CheckpointLog.Log, runAttemptId: string) {
    forall k :: k in log.index ==> k.2.runAttemptId != runAttemptId
  }

  /** Nothing was ever recorded for the run of `s`, and its first attempt is about to begin. */
  predicate FirstAttempt(s: Sys) {
    var id := s.local.id;
    && s.local == Launch(id, None)
    && (forall k :: k in s.journal ==> k.runId != id.runId)
    && (forall k :: k in s.everFailed ==> k.runId != id.runId)
    && (forall k :: k in s.invoked ==> k.runId != id.runId)
    && (forall r :: r in s.log.rows ==> r.runId != id.runId)
    && UnusedAttempt(s.log, id.runAttemptId)
  }

  /**
   * Restarts use new attempt ids, and no attempt is started once one has returned an output. Before
   * that a history may crash and restart anywhere, also after a failed result whose report was lost.
   */
  predicate CrashHistory(w: World, s: Sys, es: seq<Event>)
    requires WellFormed(s.local)
    decreases |es|
  {
    es == [] ||
    (&& (es[0].DoRestart? ==> UnusedAttempt(s.log, es[0].runAttemptId) && !Completed(s.local))
     && CrashHistory(w, Step(w, s, es[0]), es[1..]))
  }

  // ---- Traces ----

  /** An attempt left to itself for `n` actions. */
  function Ticks(n: nat): seq<Event> {
    seq(n, _ => DoTick)
  }

  predicate IsTick(w: World, trace: seq<Sys>, i: nat)
    requires i < |trace| - 1
  {
    WellFormed(trace[i].local) && trace[i + 1] == Tick(w, trace[i])
  }

  /** Consecutive states of an attempt that is only ticking. */
  ghost predicate IsTrace(w: World, trace: seq<Sys>) {
    trace != [] && forall i {:trigger IsTick(w, trace, i)} :: 0 <= i < |trace| - 1 ==> IsTick(w, trace, i)
  }

  lemma ExtendTrace(w: World, trace: seq<Sys>, next: Sys)
    requires IsTrace(w, trace) && WellFormed(trace[|trace| - 1].local) && next == Tick(w, trace[|trace| - 1])
    ensures IsTrace(w, trace + [next])
  {
    var longer := trace + [next];
    forall i | 0 <= i < |longer| - 1
      ensures IsTick(w, longer, i)
    {
      if i < |trace| - 1 {
        assert IsTick(w, trace, i);
      }
    }
  }

  lemma TraceTail(w: World, trace: seq<Sys>)
    requires IsTrace(w, trace) && |trace| > 1
    ensures IsTrace(w, trace[1..]) && WellFormed(trace[0].local) && trace[1] == Tick(w, trace[0])
  {
    assert IsTick(w, trace, 0);
    forall i | 0 <= i < |trace[1..]| - 1
      ensures IsTick(w, trace[1..], i)
    {
      assert IsTick(w, trace, i + 1);
    }
  }

  /** Ticking is a history, so whatever holds over every history holds of an execution of the loop. */
  lemma {:induction false} TraceIsAHistory(w: World, trace: seq<Sys>)
    requires IsTrace(w, trace) && WellFormed(trace[0].local)
    ensures var es := Ticks(|trace| - 1);
      CrashHistory(w, trace[0], es) && Play(w, trace[0], es) == trace[|trace| - 1]
    decreases |trace|
  {
    if |trace| > 1 {
      var es := Ticks(|trace| - 1);
      TraceTail(w, trace);
      assert es[1..] == Ticks(|trace[1..]| - 1);
      assert Step(w, trace[0], es[0]) == trace[1];
      TraceIsAHistory(w, trace[1..]);
    }
  }

  /** An execution that was not cut short ends where the attempt, left alone, ends. */
  lemma {:induction false} EndedTraceIsFinished(w: World, trace: seq<Sys>)
    requires IsTrace(w, trace) && WellFormed(trace[0].local) && Ended(trace[|trace| - 1].local)
    ensures trace[|trace| - 1] == Finish(w, trace[0])
    decreases |trace|
  {
    if |trace| > 1 {
      TraceTail(w, trace);
      EndedTraceIsFinished(w, trace[1..]);
      FinishOfTick(w, trace[0]);
    }
  }

  lemma FinishOfTick(w: World, s: Sys)
    requires WellFormed(s.local)
    ensures Finish(w, Tick(w, s)) == Finish(w, s)
  {
  }

  /** A checkpoint keeps the attempt's identity and is written under it. */
  lemma SaveUsesOwnKey(w: World, s: Sys, cursor: Cursor, kind: KeyKind, pending: seq<Call>, next: Phase)
    ensures var r := Save(w, s, cursor, kind, pending, next);
      && r.local.id == s.local.id
      && forall k :: k in r.log.index ==> k in s.log.index || k.2.runAttemptId == s.local.id.runAttemptId
  {
  }

  lemma TickUsesOwnKeys(w: World, s: Sys)
    requires WellFormed(s.local)
    ensures var r := Tick(w, s);
      && r.local.id == s.local.id
      && forall k :: k in r.log.index ==> k in s.log.index || k.2.runAttemptId == s.local.id.runAttemptId
  {
    match s.local.phase {
      case SavePrefetch => SaveUsesOwnKey(w, s, AfterPrefetch, PrefetchKey, [], LoopHead);
      case SaveModel(calls) => SaveUsesOwnKey(w, s, AfterModel, ModelKey, calls, ToolHead(calls, true));
      case SaveTool(rest, live) => SaveUsesOwnKey(w, s, AfterTool, ToolKey, rest, AfterSaveTool(rest, live));
      case SaveComplete(output) => SaveUsesOwnKey(w, s, AfterModel, CompleteKey, [], Returned(Succeeded(output)));
      case _ => assert Tick(w, s).log == s.log && Tick(w, s).local.id == s.local.id;
    }
  }

  /** So an attempt id that was unused before an attempt is unused after it, unless it is that attempt's. */
  lemma {:induction false} TicksUseOwnKeys(w: World, s: Sys, n: nat)
    requires WellFormed(s.local)
    ensures var r := Play(w, s, Ticks(n));
      && r.local.id == s.local.id
      && forall k :: k in r.log.index ==> k in s.log.index || k.2.runAttemptId == s.local.id.runAttemptId
    decreases n
  {
    if n > 0 {
      TickUsesOwnKeys(w, s);
      assert Ticks(n)[1..] == Ticks(n - 1) && Step(w, s, Ticks(n)[0]) == Tick(w, s);
      TicksUseOwnKeys(w, Tick(w, s), n - 1);
    }
  }
}
