/** Concrete histories in which a guarantee fails for want of its condition. */
module Witnesses {
  import opened Common
  import opened Conversation
  import opened OperationJournal
  import opened AgentSemantics
  import opened DurableMachine
  import opened SideEffects
  import CheckpointLog

  // ---- A FAILED write is invoked twice ----

  const CALL := Call("call-1", "pay", "{}")
  const KEY := OpKey("run", "call-1")

  /** A model that asks for one payment, and what the payment tool answers. */
  function PayingWorld(answer: Json): World {
    World("", "", Some(None), 5, 5, true, true, {"pay"}, map["pay" := "v1"], map["v1" := IDEMPOTENT_WRITE],
          (_, _) => true, args => args, value => value != "NaN", _ => None, _ => true, _ => true,
          (_, _) => Completion(Some(""), [CALL]), (_, _) => Output(answer), true, true)
  }

  /** The answer is not canonical JSON. */
  function PaymentWorld(): World {
    PayingWorld("NaN")
  }

  function Attempt(name: string): Identity {
    Identity("ws", "run", name, "worker", 1)
  }

  function Beginning(): Sys {
    Sys(map[], {}, CheckpointLog.Log([], map[], map["first" := CheckpointLog.Tracked("worker", 1)]), [],
        Launch(Attempt("first"), None))
  }

  function Opening(): seq<Message> {
    InitialMessages(PaymentWorld(), None)
  }

  function Asked(): seq<Message> {
    Opening() + [Assistant("")]
  }

  function Entered(status: Status): Journal {
    map[KEY := Entry("ws", "first", 1, "v1", "pay", "{}", IDEMPOTENT_WRITE, status, None)]
  }

  /** The first three actions write one checkpoint and ask the model. */
  lemma UpToTheModel(answer: Json) returns (log: CheckpointLog.Log)
    ensures var w := PayingWorld(answer);
      Tick(w, Tick(w, Tick(w, Beginning()))) ==
        Sys(map[], {}, log, [], Local(Attempt("first"), Asked(), 1, 0, None, [], 1, SaveModel([CALL])))
    ensures log == CheckpointLog.Append(Beginning().log, CommandFor(
      Local(Attempt("first"), Opening(), 0, 0, None, [], 0, SavePrefetch), AfterPrefetch, PrefetchKey, []))
  {
    var w := PayingWorld(answer);
    var s := Beginning();
    var s1 := Tick(w, s);
    assert s1 == s.(local := Local(Attempt("first"), Opening(), 0, 0, None, [], 0, SavePrefetch));
    var s2 := Tick(w, s1);
    var cmd := CommandFor(s1.local, AfterPrefetch, PrefetchKey, []);
    assert CheckpointLog.Decide(s1.log, cmd, w.acceptsState).Committed?;
    log := CheckpointLog.Append(s1.log, cmd);
    assert s2 == s1.(log := log, local := s1.local.(checkpointSequence := 1, phase := LoopHead));
    var s3 := Tick(w, s2);
    assert s3 == s2.(local := Local(Attempt("first"), Asked(), 1, 0, None, [], 1, SaveModel([CALL])));
  }

  /** From the beginning to the call, with two checkpoints on the way. */
  lemma UpToTheCall(answer: Json) returns (log: CheckpointLog.Log)
    ensures var w := PayingWorld(answer);
      Tick(w, Tick(w, Tick(w, Tick(w, Beginning())))) ==
        Sys(map[], {}, log, [], Local(Attempt("first"), Asked(), 1, 0, None, [], 2, ToolHead([CALL], true)))
    ensures StoredCall(log) && forall k :: k in log.index ==> k.2.sequence <= 2
  {
    var w := PayingWorld(answer);
    var log1 := UpToTheModel(answer);
    var s3 := Tick(w, Tick(w, Tick(w, Beginning())));
    var cmd := CommandFor(s3.local, AfterModel, ModelKey, [CALL]);
    assert CheckpointLog.KeyOf(cmd) !in log1.index;
    assert CheckpointLog.Decide(log1, cmd, w.acceptsState).Committed?;
    log := CheckpointLog.Append(log1, cmd);
    assert Tick(w, s3) == s3.(log := log, local := s3.local.(checkpointSequence := 2, phase := ToolHead([CALL], true)));
    assert log.rows[..|log.rows| - 1] == log1.rows;
  }

  /** The latest checkpoint has the call pending. */
  predicate StoredCall(log: CheckpointLog.Log) {
    var latest := CheckpointLog.FindLatest(log.rows, "ws", "run");
    latest.Some? && latest.value.runAttemptId == "first" && latest.value.state == CheckpointState(Asked(), 1, 0, None, [CALL])
  }

  /** The tool is invoked, its answer is refused, and the operation is marked FAILED. */
  lemma TheCallFails(log: CheckpointLog.Log)
    ensures var w := PaymentWorld();
      var s := Sys(map[], {}, log, [], Local(Attempt("first"), Asked(), 1, 0, None, [], 2, ToolHead([CALL], true)));
      Tick(w, Tick(w, Tick(w, s))) ==
        Sys(Entered(FAILED), {KEY}, log, [KEY],
            Local(Attempt("first"), Asked(), 1, 1, None, [], 2, Returned(Failed(INVALID_TOOL_INPUT))))
  {
    var w := PaymentWorld();
    var s := Sys(map[], {}, log, [], Local(Attempt("first"), Asked(), 1, 0, None, [], 2, ToolHead([CALL], true)));
    assert [CALL][1..] == [];
    var s1 := Tick(w, s);
    assert s1 == Sys(Entered(PENDING), {}, log, [],
                     Local(Attempt("first"), Asked(), 1, 1, None, [], 2, Invoke(CALL, [], true, "v1", IDEMPOTENT_WRITE)));
    var s2 := Tick(w, s1);
    assert [] + [KEY] == [KEY];
    assert s2 == s1.(invoked := [KEY],
                     local := s1.local.(phase := SettleCall(CALL, [], true, IDEMPOTENT_WRITE, Output("NaN"))));
    assert {} + {KEY} == {KEY};
  }

  /** A second attempt restores the call, finds it FAILED and invokes it again. */
  lemma TheCallIsRepeated(log: CheckpointLog.Log)
    requires StoredCall(log)
    ensures var w := PaymentWorld();
      var s := Sys(Entered(FAILED), {KEY}, log, [KEY],
                   Local(Attempt("first"), Asked(), 1, 1, None, [], 2, Returned(Failed(INVALID_TOOL_INPUT))));
      var r := Tick(w, Tick(w, Tick(w, Restart(s, "second", "worker", 2))));
      r.journal == Entered(FAILED) && r.everFailed == {KEY} && r.invoked == [KEY, KEY]
  {
    var w := PaymentWorld();
    var s := Sys(Entered(FAILED), {KEY}, log, [KEY],
                 Local(Attempt("first"), Asked(), 1, 1, None, [], 2, Returned(Failed(INVALID_TOOL_INPUT))));
    var r := Restart(s, "second", "worker", 2);
    var id := Identity("ws", "run", "second", "worker", 2);
    assert r.local == Local(id, Asked(), 1, 0, None, [CALL], 0, LoopHead);
    var r1 := Tick(w, r);
    assert r1 == r.(local := Local(id, Asked(), 1, 0, None, [], 0, ToolHead([CALL], false)));
    assert [CALL][1..] == [];
    var r2 := Tick(w, r1);
    assert r2 == r1.(local := Local(id, Asked(), 1, 1, None, [], 0, Invoke(CALL, [], false, "v1", IDEMPOTENT_WRITE)));
    assert [KEY] + [KEY] == [KEY, KEY];
  }

  lemma FirstMove(s: Sys, m: Move, rest: seq<Move>)
    requires WellFormed(s.local)
    ensures PlayMoves(s, [m] + rest) == PlayMoves(Step(m.w, s, m.e), rest)
  {
    assert ([m] + rest)[1..] == rest;
  }

  lemma ThreeTicks(w: World, s: Sys, rest: seq<Move>)
    requires WellFormed(s.local)
    ensures var t := Move(w, DoTick);
      PlayMoves(s, [t] + ([t] + ([t] + rest))) == PlayMoves(Tick(w, Tick(w, Tick(w, s))), rest)
  {
    var t := Move(w, DoTick);
    FirstMove(s, t, [t] + ([t] + rest));
    FirstMove(Tick(w, s), t, [t] + rest);
    FirstMove(Tick(w, Tick(w, s)), t, rest);
  }

  function Again(): Move {
    Move(PaymentWorld(), DoRestart("second", "worker", 2))
  }

  /** A restart and the three ticks to the repetition. */
  function Repetition(): seq<Move> {
    var t := Move(PaymentWorld(), DoTick);
    [Again()] + ([t] + ([t] + ([t] + [])))
  }

  /** Four ticks to the call and three to its failure before that. */
  function PaidTwice(): seq<Move> {
    var t := Move(PaymentWorld(), DoTick);
    [t] + ([t] + ([t] + ([t] + ([t] + ([t] + ([t] + Repetition()))))))
  }

  lemma PaidTwiceFails() returns (log: CheckpointLog.Log)
    ensures StoredCall(log)
    ensures PlayMoves(Beginning(), PaidTwice()) ==
      PlayMoves(Sys(Entered(FAILED), {KEY}, log, [KEY],
                    Local(Attempt("first"), Asked(), 1, 1, None, [], 2, Returned(Failed(INVALID_TOOL_INPUT)))), Repetition())
  {
    var w := PaymentWorld();
    var t := Move(w, DoTick);
    FirstMove(Beginning(), t, [t] + ([t] + ([t] + ([t] + ([t] + ([t] + Repetition()))))));
    ThreeTicks(w, Tick(w, Beginning()), [t] + ([t] + ([t] + Repetition())));
    log := UpToTheCall("NaN");
    ThreeTicks(w, Tick(w, Tick(w, Tick(w, Tick(w, Beginning())))), Repetition());
    TheCallFails(log);
  }

  lemma RepetitionPlays(s: Sys)
    requires WellFormed(s.local)
    ensures var w := PaymentWorld();
      PlayMoves(s, Repetition()) == Tick(w, Tick(w, Tick(w, Restart(s, "second", "worker", 2))))
  {
    var t := Move(PaymentWorld(), DoTick);
    FirstMove(s, Again(), [t] + ([t] + ([t] + [])));
    ThreeTicks(PaymentWorld(), Restart(s, "second", "worker", 2), []);
  }

  lemma OnlyPaymentMoves(m: Move)
    requires m in PaidTwice()
    ensures m.w == PaymentWorld()
  {
  }

  lemma PaidTwiceIsJournaled()
    ensures FirstAttempt(Beginning()) && Journaled(PaidTwice(), PaymentWorld().canonical)
  {
    forall m | m in PaidTwice()
      ensures m.w.journaled && m.w.canonical == PaymentWorld().canonical
    {
      OnlyPaymentMoves(m);
    }
  }

  lemma PaidTwiceEnds()
    ensures var r := PlayMoves(Beginning(), PaidTwice());
      r.journal == Entered(FAILED) && r.everFailed == {KEY} && r.invoked == [KEY, KEY]
  {
    var log := PaidTwiceFails();
    RepetitionPlays(Sys(Entered(FAILED), {KEY}, log, [KEY],
                        Local(Attempt("first"), Asked(), 1, 1, None, [], 2, Returned(Failed(INVALID_TOOL_INPUT)))));
    TheCallIsRepeated(log);
  }

  lemma CountTwo(k: OpKey)
    ensures Count([k, k], k) == 2
  {
    CountAppend([], k, k);
    CountAppend([k], k, k);
    assert [] + [k] == [k] && [k] + [k] == [k, k];
  }

  lemma InvokedTwice(r: Sys)
    requires r.journal == Entered(FAILED) && r.everFailed == {KEY} && r.invoked == [KEY, KEY]
    ensures KEY in r.journal && Writes(r.journal[KEY].idempotencyClass) && !SafeToAutoReplay(r.journal[KEY].idempotencyClass, PENDING)
    ensures KEY in r.everFailed && Count(r.invoked, KEY) == 2
  {
    CountTwo(KEY);
  }

  /**
   * At most once is lost at the first FAILED mark: in this history of one attempt and one restart, with
   * journal and checkpoints on, a write is invoked twice.
   */
  lemma FailedWriteIsInvokedTwice()
    ensures FirstAttempt(Beginning()) && Journaled(PaidTwice(), PaymentWorld().canonical)
    ensures var r := PlayMoves(Beginning(), PaidTwice());
      && KEY in r.journal && Writes(r.journal[KEY].idempotencyClass) && !SafeToAutoReplay(r.journal[KEY].idempotencyClass, PENDING)
      && KEY in r.everFailed
      && Count(r.invoked, KEY) == 2
  {
    PaidTwiceIsJournaled();
    PaidTwiceEnds();
    InvokedTwice(PlayMoves(Beginning(), PaidTwice()));
  }
}
