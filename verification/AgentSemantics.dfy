/**
 * The meaning of a declarative agent run with nothing durable in it: no journal,
 * no checkpoints, no crashes. It is the reference the durable loop is compared with.
 */
module AgentSemantics {
  import opened Common
  import opened Conversation
  import opened OperationJournal

  datatype Completion = Completion(text: Option<string>, toolCalls: seq<Call>)

  datatype ToolReply = Output(value: Json) | Raised(error: ToolErrorKind)

  /**
   * One run's fixed configuration together with the outside world as oracles.
   * `prefetch` is None when context retrieval fails; `metadata` lacks a tool version whose
   * metadata cannot be found; `parseOutput` is None for blank or unparsable text.
   */
  datatype World = World(
    instructions: string,
    runInput: Json,
    prefetch: Option<Option<string>>,
    maxModelInvocations: nat,
    maxToolInvocations: nat,
    hasToolDefinitions: bool,
    hasToolGateway: bool,
    allowedTools: set<string>,
    bindings: map<string, string>,
    metadata: map<string, IdempotencyClass>,
    acceptsInput: (string, Json) -> bool,
    fingerprint: Json -> string,
    canonical: Json -> bool,
    parseOutput: string -> Option<Json>,
    acceptsOutput: Json -> bool,
    acceptsState: CheckpointState -> bool,
    model: (seq<Message>, bool) -> Completion,
    tool: (Call, string) -> ToolReply,
    journaled: bool,
    checkpointing: bool)

  datatype Code =
    | CONTEXT_UNAVAILABLE
    | BUDGET_EXCEEDED
    | TOOL_UNAVAILABLE
    | TOOL_NOT_AUTHORIZED
    | BINDING_MISMATCH
    | INVALID_TOOL_INPUT
    | INVALID_MODEL_RESPONSE
    | INVALID_OUTPUT
    | RECOVERY_BLOCKED

  datatype ExecutionResult = Succeeded(output: Json) | Failed(code: Code)

  /** What the loop would show at its end: the result with the transcript and both counters. */
  datatype Final = Final(result: ExecutionResult, messages: seq<Message>, modelInvocations: nat, toolInvocations: nat)

  datatype Conf = Conf(messages: seq<Message>, modelInvocations: nat, toolInvocations: nat, pending: seq<Call>)

  // ---- Building messages ----

  function UserContent(runInput: Json, context: Option<string>): string {
    "Untrusted run input (JSON):\n" + runInput + if context.Some? then "\n\n" + context.value else ""
  }

  function InitialMessages(w: World, context: Option<string>): seq<Message> {
    [System(w.instructions), User(UserContent(w.runInput, context))]
  }

  function Names(calls: seq<Call>): string {
    if calls == [] then ""
    else if |calls| == 1 then calls[0].name
    else calls[0].name + ", " + Names(calls[1..])
  }

  function AssistantTurn(completion: Completion): Message {
    Assistant(if completion.text.Some? then completion.text.value
              else "Requested tools: " + Names(completion.toolCalls))
  }

  // ---- One tool call ----

  datatype CallCheck = Refused(code: Code) | Admitted(version: string, idempotencyClass: IdempotencyClass)

  function CheckCall(w: World, toolInvocations: nat, call: Call): CallCheck {
    if !w.hasToolGateway then Refused(TOOL_UNAVAILABLE)
    else if toolInvocations >= w.maxToolInvocations then Refused(BUDGET_EXCEEDED)
    else if call.name !in w.allowedTools then Refused(TOOL_NOT_AUTHORIZED)
    else if call.name !in w.bindings then Refused(BINDING_MISMATCH)
    else if w.bindings[call.name] !in w.metadata then Refused(TOOL_UNAVAILABLE)
    else if !w.acceptsInput(w.bindings[call.name], call.args) then Refused(INVALID_TOOL_INPUT)
    else Admitted(w.bindings[call.name], w.metadata[w.bindings[call.name]])
  }

  /** A reply is usable when it is an output in canonical JSON. */
  function Usable(w: World, reply: ToolReply): Result<Json, Code> {
    match reply
    case Raised(_) => Err(TOOL_UNAVAILABLE)
    case Output(value) => if w.canonical(value) then Ok(value) else Err(INVALID_TOOL_INPUT)
  }

  // ---- One model turn ----

  predicate UseTools(w: World, toolInvocations: nat) {
    w.hasToolDefinitions && toolInvocations < w.maxToolInvocations
  }

  function Ask(w: World, messages: seq<Message>, toolInvocations: nat): Completion {
    w.model(messages, UseTools(w, toolInvocations))
  }

  function Answer(w: World, completion: Completion): ExecutionResult {
    match completion.text
    case None => Failed(INVALID_MODEL_RESPONSE)
    case Some(text) =>
      match w.parseOutput(text)
      case None => Failed(INVALID_MODEL_RESPONSE)
      case Some(output) =>
        if w.canonical(output) && w.acceptsOutput(output) then Succeeded(output) else Failed(INVALID_OUTPUT)
  }

  // ---- The whole run ----

  function ModelBudget(w: World, modelInvocations: nat): nat {
    if modelInvocations < w.maxModelInvocations then w.maxModelInvocations - modelInvocations else 0
  }

  datatype Progress = Stop(final: Final) | Go(conf: Conf)

  function Advance(w: World, c: Conf): (p: Progress)
    ensures p.Go? ==>
      || ModelBudget(w, p.conf.modelInvocations) < ModelBudget(w, c.modelInvocations)
      || (p.conf.modelInvocations == c.modelInvocations && |p.conf.pending| < |c.pending|)
  {
    if c.pending != [] then
      match CheckCall(w, c.toolInvocations, c.pending[0])
      case Refused(code) => Stop(Final(Failed(code), c.messages, c.modelInvocations, c.toolInvocations))
      case Admitted(version, _) =>
        Reply(w, c.(toolInvocations := c.toolInvocations + 1, pending := c.pending[1..]),
              c.pending[0], w.tool(c.pending[0], version))
    else if c.modelInvocations >= w.maxModelInvocations then
      Stop(Final(Failed(BUDGET_EXCEEDED), c.messages, c.modelInvocations, c.toolInvocations))
    else
      var completion := Ask(w, c.messages, c.toolInvocations);
      if completion.toolCalls == [] then
        Stop(Final(Answer(w, completion), c.messages, c.modelInvocations + 1, c.toolInvocations))
      else if !w.hasToolGateway then
        Stop(Final(Failed(TOOL_UNAVAILABLE), c.messages, c.modelInvocations + 1, c.toolInvocations))
      else
        Go(Conf(c.messages + [AssistantTurn(completion)], c.modelInvocations + 1, c.toolInvocations, completion.toolCalls))
  }

  /** `rest` is the configuration after the call was counted and taken off the pending list. */
  function Reply(w: World, rest: Conf, call: Call, reply: ToolReply): Progress {
    match Usable(w, reply)
    case Err(code) => Stop(Final(Failed(code), rest.messages, rest.modelInvocations, rest.toolInvocations))
    case Ok(value) => Go(rest.(messages := rest.messages + [ToolResult(call.id, call.name, value)]))
  }

  function Ideal(w: World, c: Conf): Final
    decreases ModelBudget(w, c.modelInvocations), |c.pending|
  {
    match Advance(w, c)
    case Stop(final) => final
    case Go(next) => Ideal(w, next)
  }

  function Settle(w: World, p: Progress): Final {
    match p
    case Stop(final) => final
    case Go(next) => Ideal(w, next)
  }

  /** Every call the model asks for from here on, whether or not it is ever run. */
  function Calls(w: World, c: Conf): set<Call>
    decreases ModelBudget(w, c.modelInvocations), |c.pending|
  {
    (set call | call in c.pending)
    + match Advance(w, c)
      case Stop(_) => {}
      case Go(next) => Calls(w, next)
  }

  /** The ids of the calls that pass every check and reach the tool gateway from here on. */
  function Reached(w: World, c: Conf): set<string>
    decreases ModelBudget(w, c.modelInvocations), |c.pending|
  {
    (if c.pending != [] && CheckCall(w, c.toolInvocations, c.pending[0]).Admitted? then {c.pending[0].id} else {})
    + match Advance(w, c)
      case Stop(_) => {}
      case Go(next) => Reached(w, next)
  }

  function Start(w: World, context: Option<string>): Conf {
    Conf(InitialMessages(w, context), 0, 0, [])
  }

  /** The outcome of a run that is never disturbed. */
  function IdealRun(w: World): Final {
    match w.prefetch
    case None => Final(Failed(CONTEXT_UNAVAILABLE), [], 0, 0)
    case Some(context) => Ideal(w, Start(w, context))
  }

  function CallsOfRun(w: World): set<Call> {
    match w.prefetch
    case None => {}
    case Some(context) => Calls(w, Start(w, context))
  }

  /** Call ids are distinct within a run: an id never names two different calls. */
  ghost predicate IdsIdentifyCalls(w: World) {
    forall a, b :: a in CallsOfRun(w) && b in CallsOfRun(w) && a.id == b.id ==> a == b
  }

  /** No ideal run ever ends in the recovery-blocked code, and its counters respect their budgets. */
  lemma {:induction false} IdealIsBounded(w: World, c: Conf)
    requires c.modelInvocations <= w.maxModelInvocations && c.toolInvocations <= w.maxToolInvocations
    ensures Ideal(w, c).result != Failed(RECOVERY_BLOCKED)
    ensures Ideal(w, c).modelInvocations <= w.maxModelInvocations
    ensures Ideal(w, c).toolInvocations <= w.maxToolInvocations
    decreases ModelBudget(w, c.modelInvocations), |c.pending|
  {
    match Advance(w, c) {
      case Stop(_) =>
      case Go(next) => IdealIsBounded(w, next);
    }
  }
}
