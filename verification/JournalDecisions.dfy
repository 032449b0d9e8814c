/**
 * What the journal does to a call, and a reply to the journal, told by the fields of the entry, the
 * class of the operation and the kind of the error; and what follows for writes over whole histories.
 */
module JournalDecisions {
  import opened Common
  import opened Conversation
  import opened OperationJournal
  import opened AgentSemantics
  import opened DurableMachine
  import opened CrashRecovery
  import opened SideEffects
  import opened CallAdmission
  import CheckpointLog

  // ---- Which entries block a recovery ----

  /** An entry blocks unless it is committed, or the operation only reads, or is pure and has failed. */
  lemma BlocksUnlessHarmless(j: Journal, runId: string, k: OpKey)
    ensures Blocking(j, runId, k) <==>
      && k in j && k.runId == runId
      && var e := j[k];
         || e.status == UNCERTAIN
         || (Writes(e.idempotencyClass) && e.status != COMMITTED)
         || (e.idempotencyClass == PURE && e.status == PENDING)
  {
  }

  // ---- Meeting a call ----

  /** The call at hand passes every check. */
  predicate Meets(w: World, s: Sys) {
    && s.local.phase.ToolHead? && s.local.phase.calls != []
    && Authorized(w, s.local.phase.calls[0]) && s.local.toolInvocations < w.maxToolInvocations
  }

  predicate SameCall(w: World, e: Entry, call: Call)
    requires call.name in w.bindings
  {
    e.toolVersionId == w.bindings[call.name] && e.inputFingerprint == w.fingerprint(call.args) && e.bindingName == call.name
  }

  /** The run's entry for the call at hand, as far as its workspace may see it. */
  function EntryAtHand(s: Sys): Option<Entry>
    requires s.local.phase.ToolHead? && s.local.phase.calls != []
  {
    var k := OpKey(s.local.id.runId, s.local.phase.calls[0].id);
    if k in s.journal && s.journal[k].workspaceId == s.local.id.workspaceId then Some(s.journal[k]) else None
  }

  predicate Reusable(w: World, e: Entry) {
    e.status == COMMITTED && e.committedResult.Some? && w.canonical(e.committedResult.value)
  }

  /** The attempt is blocked and nothing else happens. */
  predicate BlockedHere(s: Sys, r: Sys) {
    r == s.(local := s.local.(phase := Returned(Failed(RECOVERY_BLOCKED))))
  }

  /** The call is counted and goes to its tool; the journal becomes `j`. */
  predicate SentToTool(w: World, s: Sys, r: Sys, j: Journal)
    requires Meets(w, s)
  {
    var call := s.local.phase.calls[0];
    var version := w.bindings[call.name];
    r == s.(journal := j, local := s.local.(
      toolInvocations := s.local.toolInvocations + 1,
      phase := Invoke(call, s.local.phase.calls[1..], s.local.phase.live, version, w.metadata[version])))
  }

  /**
   * A committed result is used again for exactly the same call, without invoking anything, and for any
   * other call under its key the attempt is blocked. An uncertain operation blocks. A pending one is
   * invoked again only for the same call and only if it reads. Everything else is invoked, and an
   * operation that has no entry yet gets a pending one of this attempt first.
   */
  lemma EntryDecides(w: World, s: Sys)
    requires WellFormed(s.local) && w.journaled && Meets(w, s)
    ensures var r, call, found := Tick(w, s), s.local.phase.calls[0], EntryAtHand(s);
      var k := OpKey(s.local.id.runId, call.id);
      match found
      case None =>
        var version := w.bindings[call.name];
        SentToTool(w, s, r, if k in s.journal then s.journal else s.journal[k :=
          Entry(s.local.id.workspaceId, s.local.id.runAttemptId, s.local.id.generation, version, call.name,
                w.fingerprint(call.args), w.metadata[version], PENDING, None)])
      case Some(e) =>
        if Reusable(w, e) then
          if SameCall(w, e, call) then
            r.journal == s.journal && r.invoked == s.invoked && r.log == s.log && r.everFailed == s.everFailed
            && Pushes(s.local, r.local, call, e.committedResult.value)
          else BlockedHere(s, r)
        else if e.status == UNCERTAIN then BlockedHere(s, r)
        else if e.status == PENDING && !(SameCall(w, e, call) && e.idempotencyClass == READ_ONLY) then BlockedHere(s, r)
        else SentToTool(w, s, r, s.journal)
  {
  }

  /** The result joins the transcript; a live turn checkpoints next, a restored batch after its last call. */
  predicate Pushes(l: Local, l': Local, call: Call, value: Json)
    requires l.phase.ToolHead? && l.phase.calls != []
  {
    l' == l.(toolInvocations := l.toolInvocations + 1,
             messages := l.messages + [ToolResult(call.id, call.name, value)],
             phase := if l.phase.live || |l.phase.calls| == 1 then SaveTool(l.phase.calls[1..], l.phase.live)
                      else ToolHead(l.phase.calls[1..], l.phase.live))
  }

  /** Without a journal every admitted call is invoked. */
  lemma NothingDecidesWithoutJournal(w: World, s: Sys)
    requires WellFormed(s.local) && !w.journaled && Meets(w, s)
    ensures SentToTool(w, s, Tick(w, s), s.journal)
  {
  }

  /** A call that does not pass ends the attempt with the code of its first failing check, and leaves no trace. */
  lemma RefusalLeavesNoTrace(w: World, s: Sys)
    requires WellFormed(s.local) && s.local.phase.ToolHead? && !Meets(w, s)
    ensures var name := s.local.phase.calls[0].name;
      var code := if !w.hasToolGateway then TOOL_UNAVAILABLE
                  else if s.local.toolInvocations >= w.maxToolInvocations then BUDGET_EXCEEDED
                  else if name !in w.allowedTools then TOOL_NOT_AUTHORIZED
                  else if name !in w.bindings then BINDING_MISMATCH
                  else if w.bindings[name] !in w.metadata then TOOL_UNAVAILABLE
                  else INVALID_TOOL_INPUT;
      Tick(w, s) == s.(local := s.local.(phase := Returned(Failed(code))))
  {
  }

  // ---- Settling a reply ----

  /** Only the status of the operation's entry changes. */
  predicate Marked(s: Sys, r: Sys, k: OpKey, status: Status)
    requires k in s.journal
  {
    && r.journal == s.journal[k := s.journal[k].(status := status)]
    && r.everFailed == (if status == FAILED then s.everFailed + {k} else s.everFailed)
  }

  /**
   * What an error leaves in the journal. Refused before dispatch, the operation stays as it was. After
   * that a write may have taken effect and is uncertain, whatever the error; a read is uncertain only if
   * the transport leaves it open, and a pure operation has failed.
   */
  lemma ErrorIsSettled(w: World, s: Sys)
    requires s.local.phase.SettleCall? && s.local.phase.reply.Raised? && w.journaled
    requires KeyOf(s.local, s.local.phase.call) in s.journal
    ensures var r, k := Tick(w, s), KeyOf(s.local, s.local.phase.call);
      var c, error := s.local.phase.idempotencyClass, s.local.phase.reply.error;
      && r.local == s.local.(phase := Returned(Failed(TOOL_UNAVAILABLE))) && r.log == s.log && r.invoked == s.invoked
      && (error == PreDispatch ==> r.journal == s.journal && r.everFailed == s.everFailed)
      && (error != PreDispatch && Writes(c) ==> Marked(s, r, k, UNCERTAIN))
      && (error == AmbiguousTransport && c == READ_ONLY ==> Marked(s, r, k, UNCERTAIN))
      && (error == OtherToolError && c == READ_ONLY ==> Marked(s, r, k, FAILED))
      && (error != PreDispatch && c == PURE ==> Marked(s, r, k, FAILED))
  {
  }

  /** An answer is committed and joins the transcript; one that is no canonical JSON fails the operation. */
  lemma OutputIsSettled(w: World, s: Sys)
    requires s.local.phase.SettleCall? && s.local.phase.reply.Output? && w.journaled
    requires KeyOf(s.local, s.local.phase.call) in s.journal
    ensures var r, k, p := Tick(w, s), KeyOf(s.local, s.local.phase.call), s.local.phase;
      && r.log == s.log && r.invoked == s.invoked
      && if w.canonical(p.reply.value) then
           && r.journal == s.journal[k := s.journal[k].(status := COMMITTED, committedResult := Some(p.reply.value))]
           && r.everFailed == s.everFailed
           && r.local == s.local.(messages := s.local.messages + [ToolResult(p.call.id, p.call.name, p.reply.value)],
                                  phase := if p.live || p.rest == [] then SaveTool(p.rest, p.live) else ToolHead(p.rest, p.live))
         else Marked(s, r, k, FAILED) && r.local == s.local.(phase := Returned(Failed(INVALID_TOOL_INPUT)))
  {
  }

  /** Without a journal a reply touches none: an answer joins the transcript, anything else ends the attempt. */
  lemma NothingIsSettledWithoutJournal(w: World, s: Sys)
    requires s.local.phase.SettleCall? && !w.journaled
    ensures var r, p := Tick(w, s), s.local.phase;
      && r == s.(local := r.local)
      && r.local == match p.reply
           case Raised(_) => s.local.(phase := Returned(Failed(TOOL_UNAVAILABLE)))
           case Output(value) =>
             if !w.canonical(value) then s.local.(phase := Returned(Failed(INVALID_TOOL_INPUT)))
             else s.local.(messages := s.local.messages + [ToolResult(p.call.id, p.call.name, value)],
                           phase := if p.live || p.rest == [] then SaveTool(p.rest, p.live) else ToolHead(p.rest, p.live))
  {
  }

  /** A result that finds no entry to be committed to blocks the attempt, and is not shown. */
  lemma LostEntryBlocks(w: World, s: Sys)
    requires s.local.phase.SettleCall? && s.local.phase.reply.Output? && w.journaled && w.canonical(s.local.phase.reply.value)
    requires KeyOf(s.local, s.local.phase.call) !in s.journal
    ensures Tick(w, s) == s.(local := s.local.(phase := Returned(Failed(RECOVERY_BLOCKED))))
  {
  }

  // ---- Writes are never marked FAILED ----

  ghost predicate CanonicalTools(w: World) {
    forall call, version :: w.tool(call, version).Output? ==> w.canonical(w.tool(call, version).value)
  }

  /** The journal is on, tools answer in canonical JSON, and a version keeps its class. */
  ghost predicate Steady(ms: seq<Move>, canonical: Json -> bool, metadata: map<string, IdempotencyClass>) {
    forall m :: m in ms ==> m.w.journaled && m.w.canonical == canonical && m.w.metadata == metadata && CanonicalTools(m.w)
  }

  /** An entry has the class of its version, and a write among them never failed. */
  predicate NeverFailed(s: Sys, k: OpKey, canonical: Json -> bool, metadata: map<string, IdempotencyClass>) {
    && (k in s.everFailed ==> k in s.journal)
    && (k in s.journal ==>
          var e := s.journal[k];
          && e.workspaceId == s.local.id.workspaceId
          && e.toolVersionId in metadata && metadata[e.toolVersionId] == e.idempotencyClass
          && (e.status == FAILED ==> k in s.everFailed)
          && (e.status == COMMITTED ==> e.committedResult.Some? && canonical(e.committedResult.value))
          && (Writes(e.idempotencyClass) ==>
                k !in s.everFailed && (At(s.local, k) ==> s.local.phase.idempotencyClass == e.idempotencyClass)))
    && (At(s.local, k) ==> k in s.journal)
    && (s.local.phase.SettleCall? && s.local.phase.reply.Output? ==> canonical(s.local.phase.reply.value))
  }

  lemma MeetingNeverFails(w: World, s: Sys, k: OpKey)
    requires WellFormed(s.local) && w.journaled && s.local.phase.ToolHead? && k.runId == s.local.id.runId
    requires NeverFailed(s, k, w.canonical, w.metadata)
    ensures NeverFailed(Tick(w, s), k, w.canonical, w.metadata)
  {
    if Meets(w, s) {
      EntryDecides(w, s);
    } else {
      RefusalLeavesNoTrace(w, s);
    }
  }

  lemma SettlingNeverFails(w: World, s: Sys, k: OpKey)
    requires w.journaled && s.local.phase.SettleCall? && k.runId == s.local.id.runId
    requires NeverFailed(s, k, w.canonical, w.metadata)
    requires NeverFailed(s, KeyOf(s.local, s.local.phase.call), w.canonical, w.metadata)
    ensures NeverFailed(Tick(w, s), k, w.canonical, w.metadata)
  {
    if s.local.phase.reply.Raised? {
      ErrorIsSettled(w, s);
    } else {
      OutputIsSettled(w, s);
    }
  }

  lemma QuietTickNeverFails(w: World, s: Sys, k: OpKey)
    requires WellFormed(s.local) && !s.local.phase.ToolHead? && !s.local.phase.SettleCall? && CanonicalTools(w)
    requires NeverFailed(s, k, w.canonical, w.metadata)
    ensures NeverFailed(Tick(w, s), k, w.canonical, w.metadata)
  {
    match s.local.phase {
      case LoopHead => LoopHeadNeverFails(w, s, k);
      case Invoke(_, _, _, _, _) =>
      case Prefetch =>
      case Returned(_) =>
      case Thrown =>
      case _ => SaveNeverFails(w, s, k);
    }
  }

  lemma LoopHeadNeverFails(w: World, s: Sys, k: OpKey)
    requires s.local.phase.LoopHead? && NeverFailed(s, k, w.canonical, w.metadata)
    ensures NeverFailed(Tick(w, s), k, w.canonical, w.metadata)
  {
  }

  lemma SaveNeverFails(w: World, s: Sys, k: OpKey)
    requires WellFormed(s.local) && Saving(s.local.phase) && NeverFailed(s, k, w.canonical, w.metadata)
    ensures NeverFailed(Tick(w, s), k, w.canonical, w.metadata)
  {
    SaveMoves(w, s);
    SaveFlight(w, s);
  }

  ghost predicate AllNeverFailed(s: Sys, canonical: Json -> bool, metadata: map<string, IdempotencyClass>) {
    forall k: OpKey :: k.runId == s.local.id.runId ==> NeverFailed(s, k, canonical, metadata)
  }

  lemma StepNeverFails(s: Sys, m: Move)
    requires WellFormed(s.local) && m.w.journaled && CanonicalTools(m.w)
    requires AllNeverFailed(s, m.w.canonical, m.w.metadata)
    ensures var r := Step(m.w, s, m.e);
      AllNeverFailed(r, m.w.canonical, m.w.metadata) && r.local.id.runId == s.local.id.runId
  {
    var r := Step(m.w, s, m.e);
    if m.e.DoTick? {
      TickKeepsRun(m.w, s);
    }
    forall k: OpKey | k.runId == r.local.id.runId
      ensures NeverFailed(r, k, m.w.canonical, m.w.metadata)
    {
      assert NeverFailed(s, k, m.w.canonical, m.w.metadata);
      if m.e.DoTick? {
        match s.local.phase {
          case ToolHead(_, _) => MeetingNeverFails(m.w, s, k);
          case SettleCall(call, _, _, _, _) =>
            assert NeverFailed(s, KeyOf(s.local, call), m.w.canonical, m.w.metadata);
            SettlingNeverFails(m.w, s, k);
          case _ => QuietTickNeverFails(m.w, s, k);
        }
      }
    }
  }

  lemma {:induction false} MovesNeverFail(s: Sys, ms: seq<Move>, canonical: Json -> bool, metadata: map<string, IdempotencyClass>)
    requires WellFormed(s.local) && Steady(ms, canonical, metadata) && AllNeverFailed(s, canonical, metadata)
    ensures AllNeverFailed(PlayMoves(s, ms), canonical, metadata)
    ensures PlayMoves(s, ms).local.id.runId == s.local.id.runId
    decreases |ms|
  {
    if ms != [] {
      assert ms[0] in ms;
      StepNeverFails(s, ms[0]);
      MovesNeverFail(Step(ms[0].w, s, ms[0].e), ms[1..], canonical, metadata);
    }
  }

  /**
   * If tools answer in canonical JSON, no operation of a write class is ever marked FAILED, over any
   * attempts, crashes and restarts; so it is invoked at most once, with or without the eligibility check.
   */
  lemma CanonicalWritesHappenAtMostOnce(first: Sys, ms: seq<Move>, canonical: Json -> bool,
                                        metadata: map<string, IdempotencyClass>, k: OpKey)
    requires FirstAttempt(first) && Steady(ms, canonical, metadata) && k.runId == first.local.id.runId
    ensures var r := PlayMoves(first, ms);
      k in r.journal && Writes(r.journal[k].idempotencyClass) ==>
        k !in r.everFailed && r.journal[k].status != FAILED && Count(r.invoked, k) <= 1
  {
    MovesNeverFail(first, ms, canonical, metadata);
    assert NeverFailed(PlayMoves(first, ms), k, canonical, metadata);
    forall m | m in ms ensures m.w.journaled && m.w.canonical == canonical {}
    AtMostOnce(first, ms, canonical, k);
  }
}
