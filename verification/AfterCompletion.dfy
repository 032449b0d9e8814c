/** What becomes of a run whose completion checkpoint was written, however often it is restarted and wherever it crashes. */
module AfterCompletion {
  import opened Common
  import opened Conversation
  import opened OperationJournal
  import opened AgentSemantics
  import opened DurableMachine
  import opened CrashRecovery
  import opened RecoveryGate
  import opened LostTracking
  import CheckpointLog

  /** Restarts use new attempt ids; nothing else is asked of the history. */
  predicate AnyHistory(w: World, s: Sys, es: seq<Event>)
    requires WellFormed(s.local)
    decreases |es|
  {
    es == [] || ((es[0].DoRestart? ==> UnusedAttempt(s.log, es[0].runAttemptId)) && AnyHistory(w, Step(w, s, es[0]), es[1..]))
  }

  /** The answer of a run, and the conversation it was given to. */
  datatype Ending = Ending(output: Json, messages: seq<Message>, toolInvocations: nat, retrievedContext: Option<string>)

  function EndingOf(l: Local): Ending
    requires l.phase.SaveComplete?
  {
    Ending(l.phase.output, l.messages, l.toolInvocations, l.retrievedContext)
  }

  /** Asked with this conversation, the model gives this answer. */
  predicate Answers(w: World, c: Ending) {
    var completion := Ask(w, c.messages, c.toolInvocations);
    c.messages != [] && completion.toolCalls == [] && Answer(w, completion) == Succeeded(c.output)
  }

  /** The latest checkpoint is a completion checkpoint that counts `count` model calls. */
  predicate Stored(s: Sys, c: Ending, count: nat) {
    var latest := CheckpointLog.FindLatest(s.log.rows, s.local.id.workspaceId, s.local.id.runId);
    latest.Some? && latest.value.state == CheckpointState(c.messages, count, c.toolInvocations, c.retrievedContext, [])
  }

  predicate Talked(l: Local, c: Ending, count: nat) {
    && l.messages == c.messages && l.toolInvocations == c.toolInvocations && l.retrievedContext == c.retrievedContext
    && l.modelInvocations == count
  }

  /** Where an attempt can stand that started from it. */
  predicate Stands(w: World, l: Local, c: Ending, count: nat) {
    match l.phase
    case LoopHead => Talked(l, c, count) && l.pending == []
    case SaveComplete(output) => Talked(l, c, count + 1) && output == c.output && count < w.maxModelInvocations
    case Returned(result) =>
      && Talked(l, c, count)
      && (result == Succeeded(c.output) || (result == Failed(BUDGET_EXCEEDED) && count >= w.maxModelInvocations))
    case Thrown => true
    case _ => false
  }

  ghost predicate Repeats(w: World, s: Sys, c: Ending, count: nat) {
    && CheckpointLog.Numbered(s.log) && CheckpointLog.Indexed(s.log) && KeysAhead(s)
    && Answers(w, c) && Stored(s, c, count) && Stands(w, s.local, c, count)
  }

  lemma LoopHeadRepeats(w: World, s: Sys, c: Ending, count: nat)
    requires Repeats(w, s, c, count) && s.local.phase.LoopHead?
    ensures var r := Tick(w, s);
      Repeats(w, r, c, count) && r.log == s.log && r.journal == s.journal && r.invoked == s.invoked && !Completed(r.local)
  {
  }

  lemma SaveCompleteRepeats(w: World, s: Sys, c: Ending, count: nat)
    requires Repeats(w, s, c, count) && s.local.phase.SaveComplete? && w.checkpointing
    ensures var r := Tick(w, s);
      && r.journal == s.journal && r.invoked == s.invoked
      && if Completed(r.local) then Repeats(w, r, c, count + 1) && |r.log.rows| == |s.log.rows| + 1
         else Repeats(w, r, c, count) && r.log == s.log && r.local.phase.Thrown?
  {
    var cmd := CommandAt(s.local);
    assert CheckpointLog.KeyOf(cmd) !in s.log.index;
    if CheckpointLog.Decide(s.log, cmd, w.acceptsState).Committed? {
      CheckpointLog.AppendKeepsNumbering(s.log, cmd);
      CheckpointLog.LatestIsLastAppend(s.log, cmd);
    }
  }

  /** Whether the event writes a completion checkpoint. */
  function NewCompletion(w: World, s: Sys, e: Event): nat
    requires WellFormed(s.local)
  {
    if e.DoTick? && s.local.phase.SaveComplete? && Completed(Tick(w, s).local) then 1 else 0
  }

  /** One step: a new completion checkpoint counts one model call more, and nothing else happens to the stores. */
  lemma StepRepeats(w: World, s: Sys, e: Event, c: Ending, count: nat)
    requires WellFormed(s.local) && Repeats(w, s, c, count) && w.checkpointing
    requires e.DoRestart? ==> UnusedAttempt(s.log, e.runAttemptId)
    ensures var r, n := Step(w, s, e), NewCompletion(w, s, e);
      && Repeats(w, r, c, count + n) && |r.log.rows| == |s.log.rows| + n && count + n <= Max(count, w.maxModelInvocations)
      && r.journal == s.journal && r.invoked == s.invoked
  {
    match e {
      case DoTick =>
        match s.local.phase {
          case LoopHead => LoopHeadRepeats(w, s, c, count);
          case SaveComplete(_) => SaveCompleteRepeats(w, s, c, count);
          case _ =>
        }
      case DoRestart(_, _, _) =>
      case DoClear(_) =>
    }
  }

  /** How many completion checkpoints a history writes. */
  function Completions(w: World, s: Sys, es: seq<Event>): nat
    requires WellFormed(s.local)
    decreases |es|
  {
    if es == [] then 0 else NewCompletion(w, s, es[0]) + Completions(w, Step(w, s, es[0]), es[1..])
  }

  lemma {:induction false} HistoryRepeats(w: World, s: Sys, es: seq<Event>, c: Ending, count: nat)
    requires WellFormed(s.local) && Repeats(w, s, c, count) && w.checkpointing && AnyHistory(w, s, es)
    ensures var r, n := Play(w, s, es), Completions(w, s, es);
      && Repeats(w, r, c, count + n) && count + n <= Max(count, w.maxModelInvocations)
      && |r.log.rows| == |s.log.rows| + n && r.journal == s.journal && r.invoked == s.invoked
    decreases |es|
  {
    if es != [] {
      StepRepeats(w, s, es[0], c, count);
      HistoryRepeats(w, Step(w, s, es[0]), es[1..], c, count + NewCompletion(w, s, es[0]));
    }
  }

  lemma CompletionRepeats(w: World, s: Sys)
    requires WellFormed(s.local) && LogSound(s) && FlightSound(w, s)
    requires s.local.phase.SaveComplete? && w.checkpointing && Tick(w, s).local.phase.Returned?
    ensures Repeats(w, Tick(w, s), EndingOf(s.local), s.local.modelInvocations)
    ensures Tick(w, s).local.phase == Returned(Succeeded(s.local.phase.output))
  {
    SaveKeepsLogSound(w, s);
    SaveMoves(w, s);
    AcceptedCommitAppends(w, s);
    CheckpointLog.LatestIsLastAppend(s.log, CommandAt(s.local));
  }

  /** The completion `s` is about to write, and any history after it. */
  ghost predicate CompletesThen(w: World, s: Sys, es: seq<Event>) {
    && WellFormed(s.local) && LogSound(s) && FlightSound(w, s)
    && s.local.phase.SaveComplete? && w.checkpointing && Tick(w, s).local.phase.Returned?
    && AnyHistory(w, Tick(w, s), es)
  }

  /**
   * After the completion checkpoint: any number of restarts, crashes anywhere, tracking lost. No tool is
   * invoked and the journal stays. Each further completion checkpoint counts one model call more, never
   * past the budget; a returned result is the same output with the same transcript, or the budget code
   * once that many calls are counted.
   */
  lemma RestartsAfterCompletion(w: World, s: Sys, es: seq<Event>)
    requires CompletesThen(w, s, es)
    ensures var done := Tick(w, s);
      var r := Play(w, done, es);
      var count := s.local.modelInvocations + Completions(w, done, es);
      && r.journal == s.journal && r.invoked == s.invoked
      && |r.log.rows| == |done.log.rows| + Completions(w, done, es)
      && count <= Max(s.local.modelInvocations, w.maxModelInvocations)
      && (r.local.phase.Returned? ==>
            && r.local.messages == s.local.messages && r.local.toolInvocations == s.local.toolInvocations
            && r.local.modelInvocations == count
            && (|| r.local.phase.result == Succeeded(s.local.phase.output)
                || (r.local.phase.result == Failed(BUDGET_EXCEEDED) && count >= w.maxModelInvocations)))
  {
    CompletionRepeats(w, s);
    SaveFlight(w, s);
    HistoryRepeats(w, Tick(w, s), es, EndingOf(s.local), s.local.modelInvocations);
    assert Tick(w, s).invoked == s.invoked;
  }

  lemma RestartEndsAgain(w: World, s: Sys, x: Sys, count: nat, runAttemptId: string, owner: string, generation: nat)
    requires FlightSound(w, s) && s.local.phase.SaveComplete? && w.checkpointing
    requires Repeats(w, x, EndingOf(s.local), count) && UnusedAttempt(x.log, runAttemptId)
    ensures EndsAgain(w, s.local.(modelInvocations := count), Finish(w, Restart(x, runAttemptId, owner, generation)).local,
                      s.local.phase.output)
  {
    var again := Restart(x, runAttemptId, owner, generation);
    SecondAttemptEnds(w, s, again);
    SameEnding(w, again.local, s.local.(modelInvocations := count), Finish(w, again).local, s.local.phase.output);
  }

  lemma SameEnding(w: World, a: Local, b: Local, l: Local, output: Json)
    requires EndsAgain(w, a, l, output)
    requires a.messages == b.messages && a.toolInvocations == b.toolInvocations
    requires a.retrievedContext == b.retrievedContext && a.modelInvocations == b.modelInvocations
    ensures EndsAgain(w, b, l, output)
  {
  }

  /**
   * And the next attempt, left alone, ends as the one restarted first: one call more, the budget code,
   * or a refused checkpoint. `x` is the run after its completion, as `CompletionRepeats` gives it.
   */
  lemma NextRestartEnds(w: World, s: Sys, x: Sys, count: nat, es: seq<Event>, runAttemptId: string, owner: string,
                        generation: nat)
    requires FlightSound(w, s) && s.local.phase.SaveComplete? && w.checkpointing
    requires WellFormed(x.local) && Repeats(w, x, EndingOf(s.local), count)
    requires AnyHistory(w, x, es) && UnusedAttempt(Play(w, x, es).log, runAttemptId)
    ensures var before := s.local.(modelInvocations := count + Completions(w, x, es));
      EndsAgain(w, before, Finish(w, Restart(Play(w, x, es), runAttemptId, owner, generation)).local, s.local.phase.output)
  {
    HistoryRepeats(w, x, es, EndingOf(s.local), count);
    RestartEndsAgain(w, s, Play(w, x, es), count + Completions(w, x, es), runAttemptId, owner, generation);
  }
}
