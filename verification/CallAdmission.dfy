/**
 * Which calls reach a tool, and which code a run stops with, told by the configuration alone: allowed
 * tools, bindings, metadata, input schemas and budgets.
 */
module CallAdmission {
  import opened Common
  import opened Conversation
  import opened OperationJournal
  import opened AgentSemantics
  import opened DurableMachine

  /** What the configuration asks of a call, budgets apart. */
  predicate Authorized(w: World, call: Call) {
    && w.hasToolGateway
    && call.name in w.allowedTools
    && call.name in w.bindings
    && w.bindings[call.name] in w.metadata
    && w.acceptsInput(w.bindings[call.name], call.args)
  }

  // ---- Every invocation of every history ----

  /** One invocation of a tool: the call, the version it went to, and the tool counter at that moment. */
  datatype Invocation = Invocation(call: Call, version: string, counted: nat)

  /** The invocations that the events of a history make, in order. */
  function Invocations(w: World, s: Sys, es: seq<Event>): seq<Invocation>
    requires WellFormed(s.local)
    decreases |es|
  {
    if es == [] then []
    else
      MadeBy(s.local, es[0]) + Invocations(w, Step(w, s, es[0]), es[1..])
  }

  function MadeBy(l: Local, e: Event): seq<Invocation> {
    if e.DoTick? && l.phase.Invoke? then [Invocation(l.phase.call, l.phase.version, l.toolInvocations)] else []
  }

  function KeysOf(runId: string, calls: seq<Invocation>): seq<OpKey> {
    seq(|calls|, i requires 0 <= i < |calls| => OpKey(runId, calls[i].call.id))
  }

  /** Authorized, sent to the bound version, and counted within the tool budget. */
  predicate InOrder(w: World, i: Invocation) {
    Authorized(w, i.call) && i.version == w.bindings[i.call.name] && 1 <= i.counted <= w.maxToolInvocations
  }

  /** A call on its way to the tool was authorized and counted within the budget. */
  predicate MeetsInOrder(w: World, l: Local) {
    l.phase.Invoke? ==>
      && InOrder(w, Invocation(l.phase.call, l.phase.version, l.toolInvocations))
      && l.phase.idempotencyClass == w.metadata[l.phase.version]
  }

  lemma StepMeetsInOrder(w: World, s: Sys, e: Event)
    requires WellFormed(s.local) && MeetsInOrder(w, s.local)
    ensures var r := Step(w, s, e);
      MeetsInOrder(w, r.local) && forall i :: i in MadeBy(s.local, e) ==> InOrder(w, i)
  {
    if e.DoTick? {
      match s.local.phase {
        case ToolHead(_, _) => MeetingIsInOrder(w, s);
        case SettleCall(_, _, _, _, _) =>
        case LoopHead =>
        case _ =>
      }
    }
  }

  lemma MeetingIsInOrder(w: World, s: Sys)
    requires WellFormed(s.local) && s.local.phase.ToolHead?
    ensures MeetsInOrder(w, Tick(w, s).local)
  {
  }

  /** Two parts of a record, one after the other. */
  lemma RecordsJoin(runId: string, was: seq<OpKey>, a: seq<Invocation>, b: seq<Invocation>)
    ensures was + KeysOf(runId, a) + KeysOf(runId, b) == was + KeysOf(runId, a + b)
  {
    assert KeysOf(runId, a + b) == KeysOf(runId, a) + KeysOf(runId, b);
  }

  lemma {:induction false} InvocationsAreInOrder(w: World, s: Sys, es: seq<Event>)
    requires WellFormed(s.local) && MeetsInOrder(w, s.local)
    ensures forall i :: i in Invocations(w, s, es) ==> InOrder(w, i)
    decreases |es|
  {
    if es != [] {
      StepMeetsInOrder(w, s, es[0]);
      InvocationsAreInOrder(w, Step(w, s, es[0]), es[1..]);
    }
  }

  lemma StepInvokes(w: World, s: Sys, e: Event)
    requires WellFormed(s.local)
    ensures var r := Step(w, s, e);
      r.local.id.runId == s.local.id.runId && r.invoked == s.invoked + KeysOf(s.local.id.runId, MadeBy(s.local, e))
  {
    if e.DoTick? {
      match s.local.phase {
        case ToolHead(_, _) =>
        case SettleCall(_, _, _, _, _) =>
        case LoopHead =>
        case _ =>
      }
    }
  }

  lemma {:induction false} InvocationsAreAll(w: World, s: Sys, es: seq<Event>)
    requires WellFormed(s.local)
    ensures Play(w, s, es).invoked == s.invoked + KeysOf(s.local.id.runId, Invocations(w, s, es))
    decreases |es|
  {
    if es != [] {
      var r := Step(w, s, es[0]);
      StepInvokes(w, s, es[0]);
      InvocationsAreAll(w, r, es[1..]);
      assert Invocations(w, s, es) == MadeBy(s.local, es[0]) + Invocations(w, r, es[1..]);
      RecordsJoin(s.local.id.runId, s.invoked, MadeBy(s.local, es[0]), Invocations(w, r, es[1..]));
    }
  }

  /**
   * Over every history, whatever the model asks for: the tool gateway receives exactly the operations
   * of these invocations, and each is of a call whose name is allowed and bound, whose version has
   * metadata and accepts the arguments, and which was counted within the tool budget.
   */
  lemma OnlyAuthorizedCallsAreInvoked(w: World, first: Sys, es: seq<Event>)
    requires FirstAttempt(first)
    ensures var calls := Invocations(w, first, es);
      && Play(w, first, es).invoked == first.invoked + KeysOf(first.local.id.runId, calls)
      && forall i :: i in calls ==> InOrder(w, i)
  {
    InvocationsAreInOrder(w, first, es);
    InvocationsAreAll(w, first, es);
  }

  // ---- The undisturbed run ----

  /** The configuration at which the undisturbed run stops. */
  function Last(w: World, c: Conf): Conf
    decreases ModelBudget(w, c.modelInvocations), |c.pending|
  {
    match Advance(w, c)
    case Stop(_) => c
    case Go(next) => Last(w, next)
  }

  predicate MayAsk(w: World, d: Conf) {
    d.pending == [] && d.modelInvocations < w.maxModelInvocations
  }

  /** What the model says; tools are offered while there are any and their budget lasts. */
  function Said(w: World, d: Conf): Completion {
    w.model(d.messages, w.hasToolDefinitions && d.toolInvocations < w.maxToolInvocations)
  }

  predicate MayCall(w: World, d: Conf) {
    d.pending != [] && w.hasToolGateway && d.toolInvocations < w.maxToolInvocations
  }

  predicate Runs(w: World, d: Conf) {
    MayCall(w, d) && Authorized(w, d.pending[0])
  }

  function Told(w: World, d: Conf): ToolReply
    requires Runs(w, d)
  {
    w.tool(d.pending[0], w.bindings[d.pending[0].name])
  }

  predicate Answered(w: World, d: Conf) {
    MayAsk(w, d) && Said(w, d).toolCalls == []
  }

  function Parsed(w: World, d: Conf): Option<Json> {
    if Said(w, d).text.Some? then w.parseOutput(Said(w, d).text.value) else None
  }

  /** The run goes on from here. */
  predicate GoesOn(w: World, d: Conf) {
    || (MayAsk(w, d) && Said(w, d).toolCalls != [] && w.hasToolGateway)
    || (Runs(w, d) && Told(w, d).Output? && w.canonical(Told(w, d).value))
  }

  /** Where it goes: a turn or a tool result joins the transcript, and one of the counters is moved. */
  lemma OneStep(w: World, d: Conf)
    ensures Advance(w, d).Go? <==> GoesOn(w, d)
    ensures GoesOn(w, d) && d.pending == [] ==>
      Advance(w, d) == Go(Conf(d.messages + [Assistant(match Said(w, d).text
                                                       case Some(text) => text
                                                       case None => "Requested tools: " + Names(Said(w, d).toolCalls))],
                               d.modelInvocations + 1, d.toolInvocations, Said(w, d).toolCalls))
    ensures GoesOn(w, d) && d.pending != [] ==>
      Advance(w, d) == Go(Conf(d.messages + [ToolResult(d.pending[0].id, d.pending[0].name, Told(w, d).value)],
                               d.modelInvocations, d.toolInvocations + 1, d.pending[1..]))
  {
  }

  /** Each code, by the situation at the point where the run stops. */
  predicate CodeFits(w: World, d: Conf, r: ExecutionResult) {
    var name := if d.pending == [] then "" else d.pending[0].name;
    && (r == Failed(BUDGET_EXCEEDED) <==>
          if d.pending == [] then d.modelInvocations >= w.maxModelInvocations
          else w.hasToolGateway && d.toolInvocations >= w.maxToolInvocations)
    && (r == Failed(TOOL_NOT_AUTHORIZED) <==> MayCall(w, d) && name !in w.allowedTools)
    && (r == Failed(BINDING_MISMATCH) <==> MayCall(w, d) && name in w.allowedTools && name !in w.bindings)
    && (r == Failed(INVALID_TOOL_INPUT) <==>
          && MayCall(w, d) && name in w.allowedTools && name in w.bindings && w.bindings[name] in w.metadata
          && (w.acceptsInput(w.bindings[name], d.pending[0].args) ==> Told(w, d).Output? && !w.canonical(Told(w, d).value)))
    && (r == Failed(TOOL_UNAVAILABLE) <==>
          || (d.pending != [] && !w.hasToolGateway)
          || (MayCall(w, d) && name in w.allowedTools && name in w.bindings && w.bindings[name] !in w.metadata)
          || (Runs(w, d) && Told(w, d).Raised?)
          || (MayAsk(w, d) && Said(w, d).toolCalls != [] && !w.hasToolGateway))
    && (r == Failed(INVALID_MODEL_RESPONSE) <==> Answered(w, d) && Parsed(w, d).None?)
    && (r == Failed(INVALID_OUTPUT) <==>
          && Answered(w, d) && Parsed(w, d).Some?
          && !(w.canonical(Parsed(w, d).value) && w.acceptsOutput(Parsed(w, d).value)))
    && (r.Succeeded? <==>
          && Answered(w, d) && Parsed(w, d).Some?
          && w.canonical(Parsed(w, d).value) && w.acceptsOutput(Parsed(w, d).value))
    && (r.Succeeded? ==> r.output == Parsed(w, d).value)
  }

  /**
   * The code of an undisturbed run tells the first check that failed where it stopped: each comes up
   * exactly in its situation, given by the fields of the configuration.
   */
  lemma {:induction false} CodeTellsTheReason(w: World, c: Conf)
    ensures CodeFits(w, Last(w, c), Ideal(w, c).result) && !GoesOn(w, Last(w, c))
    decreases ModelBudget(w, c.modelInvocations), |c.pending|
  {
    match Advance(w, c) {
      case Stop(_) => StoppingCode(w, c);
      case Go(next) => CodeTellsTheReason(w, next);
    }
  }

  lemma StoppingCode(w: World, d: Conf)
    requires Advance(w, d).Stop?
    ensures CodeFits(w, d, Advance(w, d).final.result) && !GoesOn(w, d)
  {
  }

  /** The transcript is that of the stopping point, and only what was still asked or run is counted on top. */
  lemma {:induction false} FinalCounts(w: World, c: Conf)
    ensures var d, f := Last(w, c), Ideal(w, c);
      && f.messages == d.messages
      && f.modelInvocations == d.modelInvocations + (if MayAsk(w, d) then 1 else 0)
      && f.toolInvocations == d.toolInvocations + (if Runs(w, d) then 1 else 0)
    decreases ModelBudget(w, c.modelInvocations), |c.pending|
  {
    match Advance(w, c) {
      case Stop(_) =>
      case Go(next) => FinalCounts(w, next);
    }
  }

  // ---- The texts ----

  /** The run input always comes under its label, after the instructions and before the retrieved context. */
  lemma RunInputIsLabelled(w: World, context: Option<string>)
    ensures var messages := InitialMessages(w, context);
      && |messages| == 2 && messages[0] == System(w.instructions) && messages[1].User?
      && var heading := "Untrusted run input (JSON):\n";
         heading + w.runInput <= messages[1].text
         && messages[1].text[|heading + w.runInput|..] == (match context case None => "" case Some(text) => "\n\n" + text)
  {
  }

  /** The names of the requested tools, in order, are separated by a comma and a space. */
  lemma {:induction false} NamesAreJoined(calls: seq<Call>, last: Call)
    ensures Names(calls + [last]) == if calls == [] then last.name else Names(calls) + ", " + last.name
  {
    var all := calls + [last];
    if calls == [] {
      assert all == [last];
    } else if |calls| == 1 {
      assert all[1..] == [last] && all[0] == calls[0];
    } else {
      assert all[1..] == calls[1..] + [last] && all[0] == calls[0];
      NamesAreJoined(calls[1..], last);
      assert Names(all) == calls[0].name + ", " + (Names(calls[1..]) + ", " + last.name);
    }
  }
}
