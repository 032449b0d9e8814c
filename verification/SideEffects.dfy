/**
 * External operations happen at most once. Nothing is assumed here about the model, the tools or
 * the configuration except that the journal is present: every action may even see a different world.
 */
module SideEffects {
  import opened Common
  import opened Conversation
  import opened OperationJournal
  import opened AgentSemantics
  import opened DurableMachine
  import CheckpointLog

  /** One event, under whatever answers the outside world gives at that moment. */
  datatype Move = Move(w: World, e: Event)

  function PlayMoves(s: Sys, ms: seq<Move>): (r: Sys)
    requires WellFormed(s.local)
    ensures WellFormed(r.local)
    decreases |ms|
  {
    if ms == [] then s else PlayMoves(Step(ms[0].w, s, ms[0].e), ms[1..])
  }

  ghost predicate Journaled(ms: seq<Move>, canonical: Json -> bool) {
    forall m :: m in ms ==> m.w.journaled && m.w.canonical == canonical
  }

  predicate At(l: Local, k: OpKey) {
    (l.phase.Invoke? || l.phase.SettleCall?) && k == KeyOf(l, l.phase.call)
  }

  predicate Repeatable(s: Sys, k: OpKey) {
    k in s.everFailed || (k in s.journal && SafeToAutoReplay(s.journal[k].idempotencyClass, PENDING))
  }

  /** The facts about one key. */
  predicate KeyFacts(s: Sys, k: OpKey, canonical: Json -> bool) {
    && (k !in s.journal ==> Count(s.invoked, k) == 0 && !At(s.local, k))
    && (k in s.journal ==>
          var e := s.journal[k];
          && e.workspaceId == s.local.id.workspaceId
          && (e.status == COMMITTED ==> e.committedResult.Some? && canonical(e.committedResult.value))
          && (e.status == FAILED ==> k in s.everFailed)
          && (At(s.local, k) ==> e.status == PENDING || e.status == FAILED)
          && (!Repeatable(s, k) ==> Count(s.invoked, k) <= (if At(s.local, k) && s.local.phase.Invoke? then 0 else 1)))
  }

  ghost predicate Once(s: Sys, canonical: Json -> bool) {
    forall k: OpKey :: k.runId == s.local.id.runId ==> KeyFacts(s, k, canonical)
  }

  lemma CountAppend<T>(s: seq<T>, x: T, y: T)
    ensures Count(s + [y], x) == Count(s, x) + (if x == y then 1 else 0)
  {
  }

  lemma ToolHeadKeepsOnce(w: World, s: Sys, k: OpKey)
    requires WellFormed(s.local) && s.local.phase.ToolHead? && w.journaled
    requires k.runId == s.local.id.runId && KeyFacts(s, k, w.canonical)
    ensures KeyFacts(Tick(w, s), k, w.canonical)
  {
  }

  lemma InvokeKeepsOnce(w: World, s: Sys, k: OpKey)
    requires s.local.phase.Invoke? && KeyFacts(s, k, w.canonical)
    ensures KeyFacts(Tick(w, s), k, w.canonical)
  {
  }

  lemma SettleKeepsOnce(w: World, s: Sys, k: OpKey)
    requires s.local.phase.SettleCall? && w.journaled
    requires k.runId == s.local.id.runId && KeyFacts(s, k, w.canonical)
    ensures KeyFacts(Tick(w, s), k, w.canonical)
  {
  }

  lemma QuietKeepsOnce(w: World, s: Sys, k: OpKey)
    requires WellFormed(s.local) && KeyFacts(s, k, w.canonical)
    requires !s.local.phase.ToolHead? && !s.local.phase.Invoke? && !s.local.phase.SettleCall?
    ensures var r := Tick(w, s); r.local.id == s.local.id && KeyFacts(r, k, w.canonical)
  {
    if s.local.phase.LoopHead? {
      LoopHeadKeepsOnce(w, s, k);
    }
  }

  lemma LoopHeadKeepsOnce(w: World, s: Sys, k: OpKey)
    requires s.local.phase.LoopHead? && KeyFacts(s, k, w.canonical)
    ensures var r := Tick(w, s); r.local.id == s.local.id && KeyFacts(r, k, w.canonical)
  {
  }

  lemma TickKeepsRun(w: World, s: Sys)
    requires WellFormed(s.local)
    ensures Tick(w, s).local.id == s.local.id
  {
  }

  lemma StepKeepsOnce(s: Sys, m: Move)
    requires WellFormed(s.local) && m.w.journaled && Once(s, m.w.canonical)
    ensures Once(Step(m.w, s, m.e), m.w.canonical) && Step(m.w, s, m.e).local.id.runId == s.local.id.runId
  {
    var r := Step(m.w, s, m.e);
    if m.e.DoTick? {
      TickKeepsRun(m.w, s);
    }
    forall k: OpKey | k.runId == r.local.id.runId
      ensures KeyFacts(r, k, m.w.canonical)
    {
      assert KeyFacts(s, k, m.w.canonical);
      if m.e.DoTick? {
        match s.local.phase {
          case ToolHead(_, _) => ToolHeadKeepsOnce(m.w, s, k);
          case Invoke(_, _, _, _, _) => InvokeKeepsOnce(m.w, s, k);
          case SettleCall(_, _, _, _, _) => SettleKeepsOnce(m.w, s, k);
          case _ => QuietKeepsOnce(m.w, s, k);
        }
      }
    }
  }

  lemma {:induction false} MovesKeepOnce(s: Sys, ms: seq<Move>, canonical: Json -> bool)
    requires WellFormed(s.local) && Journaled(ms, canonical) && Once(s, canonical)
    ensures Once(PlayMoves(s, ms), canonical) && PlayMoves(s, ms).local.id.runId == s.local.id.runId
    decreases |ms|
  {
    if ms != [] {
      assert ms[0].w.canonical == canonical;
      StepKeepsOnce(s, ms[0]);
      MovesKeepOnce(Step(ms[0].w, s, ms[0].e), ms[1..], canonical);
    }
  }

  lemma {:induction false} NeverInvoked(invoked: seq<OpKey>, k: OpKey)
    requires forall j :: j in invoked ==> j.runId != k.runId
    ensures Count(invoked, k) == 0
  {
    if invoked != [] {
      NeverInvoked(invoked[..|invoked| - 1], k);
    }
  }

  lemma FirstAttemptIsOnce(s: Sys, canonical: Json -> bool)
    requires FirstAttempt(s)
    ensures Once(s, canonical)
  {
    forall k: OpKey | k.runId == s.local.id.runId
      ensures KeyFacts(s, k, canonical)
    {
      NeverInvoked(s.invoked, k);
    }
  }

  /**
   * Over every sequence of attempts and crashes, an operation whose class is not safe to replay
   * reaches the tool gateway at most once as long as it was never marked FAILED.
   */
  lemma AtMostOnce(s: Sys, ms: seq<Move>, canonical: Json -> bool, k: OpKey)
    requires FirstAttempt(s) && Journaled(ms, canonical) && k.runId == s.local.id.runId
    ensures var r := PlayMoves(s, ms);
      && (k !in r.journal ==> Count(r.invoked, k) == 0)
      && (k in r.journal && k !in r.everFailed && !SafeToAutoReplay(r.journal[k].idempotencyClass, PENDING) ==>
            Count(r.invoked, k) <= 1)
  {
    FirstAttemptIsOnce(s, canonical);
    MovesKeepOnce(s, ms, canonical);
    assert KeyFacts(PlayMoves(s, ms), k, canonical);
  }

  // ---- A committed operation is final ----

  /** The entry and the number of invocations are what they were. */
  predicate Untouched(s: Sys, r: Sys, k: OpKey)
    requires k in s.journal
  {
    k in r.journal && r.journal[k] == s.journal[k] && Count(r.invoked, k) == Count(s.invoked, k)
  }

  lemma ToolHeadKeepsCommitted(w: World, s: Sys, k: OpKey)
    requires WellFormed(s.local) && s.local.phase.ToolHead? && k in s.journal
    ensures Untouched(s, Tick(w, s), k)
  {
  }

  lemma SettleKeepsCommitted(w: World, s: Sys, k: OpKey)
    requires s.local.phase.SettleCall? && k != KeyOf(s.local, s.local.phase.call) && k in s.journal
    ensures Untouched(s, Tick(w, s), k)
  {
  }

  lemma TickKeepsCommitted(w: World, s: Sys, k: OpKey)
    requires WellFormed(s.local) && w.journaled && k.runId == s.local.id.runId
    requires KeyFacts(s, k, w.canonical) && k in s.journal && s.journal[k].status == COMMITTED
    ensures Untouched(s, Tick(w, s), k)
  {
    match s.local.phase {
      case ToolHead(_, _) => ToolHeadKeepsCommitted(w, s, k);
      case Invoke(_, _, _, _, _) => CountAppend(s.invoked, k, KeyOf(s.local, s.local.phase.call));
      case SettleCall(_, _, _, _, _) => SettleKeepsCommitted(w, s, k);
      case LoopHead =>
      case _ =>
    }
  }

  lemma {:induction false} CommittedStays(s: Sys, ms: seq<Move>, canonical: Json -> bool, k: OpKey)
    requires WellFormed(s.local) && Once(s, canonical) && Journaled(ms, canonical)
    requires k.runId == s.local.id.runId && k in s.journal && s.journal[k].status == COMMITTED
    ensures var r := PlayMoves(s, ms);
      k in r.journal && r.journal[k] == s.journal[k] && Count(r.invoked, k) == Count(s.invoked, k)
    decreases |ms|
  {
    if ms != [] {
      var m := ms[0];
      assert m.w.canonical == canonical;
      if m.e.DoTick? {
        TickKeepsCommitted(m.w, s, k);
      }
      StepKeepsOnce(s, m);
      CommittedStays(Step(m.w, s, m.e), ms[1..], canonical, k);
    }
  }

  /**
   * Once committed, an operation is never invoked again and its entry never changes, although the
   * journal itself would let its status be overwritten.
   */
  lemma CommittedIsNeverInvokedAgain(s: Sys, before: seq<Move>, after: seq<Move>, canonical: Json -> bool, k: OpKey)
    requires FirstAttempt(s) && Journaled(before, canonical) && Journaled(after, canonical)
    requires k.runId == s.local.id.runId
    requires k in PlayMoves(s, before).journal && PlayMoves(s, before).journal[k].status == COMMITTED
    ensures var mid, end := PlayMoves(s, before), PlayMoves(PlayMoves(s, before), after);
      k in end.journal && end.journal[k] == mid.journal[k] && Count(end.invoked, k) == Count(mid.invoked, k)
  {
    FirstAttemptIsOnce(s, canonical);
    MovesKeepOnce(s, before, canonical);
    CommittedStays(PlayMoves(s, before), after, canonical, k);
  }

  // ---- With the eligibility check in front of every restart ----

  /** Restarts happen only when no entry of the run blocks, as the recovery command checks. */
  ghost predicate Gated(s: Sys, ms: seq<Move>)
    requires WellFormed(s.local)
    decreases |ms|
  {
    ms == [] ||
    (&& (ms[0].e.DoRestart? ==> forall k :: !Blocking(s.journal, s.local.id.runId, k))
     && Gated(Step(ms[0].w, s, ms[0].e), ms[1..]))
  }

  predicate Writes(c: IdempotencyClass) {
    c == IDEMPOTENT_WRITE || c == RECONCILE || c == UNKNOWN_WRITE
  }

  /** A write marked FAILED ended its attempt, and the check lets no other attempt start. */
  predicate WriteFacts(s: Sys, k: OpKey) {
    k in s.journal && Writes(s.journal[k].idempotencyClass) ==>
      && (s.journal[k].status == FAILED ==> Ended(s.local))
      && Count(s.invoked, k) <= (if At(s.local, k) && s.local.phase.Invoke? then 0 else 1)
  }

  lemma ToolHeadKeepsWriteFacts(w: World, s: Sys, k: OpKey)
    requires WellFormed(s.local) && s.local.phase.ToolHead? && w.journaled && k.runId == s.local.id.runId
    requires KeyFacts(s, k, w.canonical) && WriteFacts(s, k)
    ensures WriteFacts(Tick(w, s), k)
  {
  }

  lemma SettleKeepsWriteFacts(w: World, s: Sys, k: OpKey)
    requires s.local.phase.SettleCall? && w.journaled && k.runId == s.local.id.runId
    requires KeyFacts(s, k, w.canonical) && WriteFacts(s, k)
    ensures WriteFacts(Tick(w, s), k)
  {
  }

  lemma LoopHeadKeepsWriteFacts(w: World, s: Sys, k: OpKey)
    requires WellFormed(s.local) && s.local.phase.LoopHead? && WriteFacts(s, k)
    ensures WriteFacts(Tick(w, s), k)
  {
  }

  lemma TickKeepsWriteFacts(w: World, s: Sys, k: OpKey)
    requires WellFormed(s.local) && w.journaled && k.runId == s.local.id.runId
    requires KeyFacts(s, k, w.canonical) && WriteFacts(s, k)
    ensures WriteFacts(Tick(w, s), k)
  {
    match s.local.phase {
      case ToolHead(_, _) => ToolHeadKeepsWriteFacts(w, s, k);
      case Invoke(_, _, _, _, _) => CountAppend(s.invoked, k, KeyOf(s.local, s.local.phase.call));
      case SettleCall(_, _, _, _, _) => SettleKeepsWriteFacts(w, s, k);
      case LoopHead => LoopHeadKeepsWriteFacts(w, s, k);
      case _ =>
    }
  }

  lemma {:induction false} GatedMovesKeepWriteFacts(s: Sys, ms: seq<Move>, canonical: Json -> bool, k: OpKey)
    requires WellFormed(s.local) && Once(s, canonical) && Journaled(ms, canonical) && Gated(s, ms)
    requires k.runId == s.local.id.runId && WriteFacts(s, k)
    ensures WriteFacts(PlayMoves(s, ms), k)
    decreases |ms|
  {
    if ms != [] {
      var m := ms[0];
      assert m.w.canonical == canonical;
      if m.e.DoTick? {
        TickKeepsWriteFacts(m.w, s, k);
      } else if m.e.DoRestart? {
        assert !Blocking(s.journal, s.local.id.runId, k);
      }
      StepKeepsOnce(s, m);
      GatedMovesKeepWriteFacts(Step(m.w, s, m.e), ms[1..], canonical, k);
    }
  }

  /** Behind the eligibility check every write happens at most once, even one that was marked FAILED. */
  lemma GatedWritesHappenAtMostOnce(s: Sys, ms: seq<Move>, canonical: Json -> bool, k: OpKey)
    requires FirstAttempt(s) && Journaled(ms, canonical) && Gated(s, ms) && k.runId == s.local.id.runId
    ensures var r := PlayMoves(s, ms);
      k in r.journal && Writes(r.journal[k].idempotencyClass) ==> Count(r.invoked, k) <= 1
  {
    FirstAttemptIsOnce(s, canonical);
    GatedMovesKeepWriteFacts(s, ms, canonical, k);
  }

  /** Without the check a FAILED operation, of any class, is invoked again by the attempt that meets it. */
  lemma FailedIsInvokedAgain(w: World, s: Sys)
    requires WellFormed(s.local) && s.local.phase.ToolHead? && w.journaled
    requires CheckCall(w, s.local.toolInvocations, s.local.phase.calls[0]).Admitted?
    requires var k := KeyOf(s.local, s.local.phase.calls[0]); k in s.journal && s.journal[k].status == FAILED
    ensures var k := KeyOf(s.local, s.local.phase.calls[0]);
      Count(Tick(w, Tick(w, s)).invoked, k) == Count(s.invoked, k) + 1
  {
  }
}
