/** Concrete histories in which a store that keeps references loses a checkpoint. */
module StoreWitnesses {
  import opened Common
  import opened Conversation
  import opened OperationJournal
  import opened AgentSemantics
  import opened DurableMachine
  import opened RecoveryGate
  import opened ConsistentCut
  import opened CheckpointReadBack
  import opened StoredRecovery
  import opened Witnesses
  import CheckpointLog

  lemma NextTicks(w: World, s: Sys, n: nat)
    requires WellFormed(s.local)
    ensures Play(w, s, Ticks(n + 1)) == Play(w, Tick(w, s), Ticks(n))
  {
    assert Ticks(n + 1)[0] == DoTick && Ticks(n + 1)[1..] == Ticks(n);
  }

  lemma NextThreeTicks(w: World, s: Sys, n: nat)
    requires WellFormed(s.local)
    ensures Play(w, s, Ticks(n + 3)) == Play(w, Tick(w, Tick(w, Tick(w, s))), Ticks(n))
  {
    NextTicks(w, s, n + 2);
    NextTicks(w, Tick(w, s), n + 1);
    NextTicks(w, Tick(w, Tick(w, s)), n);
  }

  // ---- The first checkpoint of a run with a tool call ----

  function FirstRow(): CheckpointLog.Row {
    CheckpointLog.Row("ws", "run", 1, "first", 1, AfterPrefetch, CheckpointState(Opening(), 0, 0, None, []))
  }

  lemma ThreeTicksIn() returns (log: CheckpointLog.Log)
    ensures log.rows == [FirstRow()]
    ensures Play(PayingWorld("paid"), Beginning(), Ticks(3)) ==
      Sys(map[], {}, log, [], Local(Attempt("first"), Asked(), 1, 0, None, [], 1, SaveModel([CALL])))
  {
    log := UpToTheModel("paid");
    NextThreeTicks(PayingWorld("paid"), Beginning(), 0);
  }

  lemma ReadsTheTurn(x: Held)
    requires x.sys.local.id == Attempt("first") && x.sys.local.messages == Asked()
    ensures ReadBack(Referencing, x, FirstRow()) == FirstRow().state.(messages := Asked())
  {
  }

  lemma FirstRowIsCut()
    ensures CutRow(PayingWorld("paid"), FirstRow(), true) && Extends(FirstRow().state.messages, Asked())
  {
    InitialIsCut(PayingWorld("paid"), None, 0, true);
  }

  /**
   * Three actions into a run whose model asks for a tool, the checkpoint written before the model was
   * asked already reads back with the model's turn in it, and is no consistent cut by either count.
   */
  lemma FirstCheckpointIsAltered(digest: Digest, exact: bool)
    ensures FirstAttempt(Beginning())
    ensures var x := PlayHeld(Referencing, digest, PayingWorld("paid"), Before(Beginning()), Ticks(3));
      && x.sys.log.rows == [FirstRow()]
      && ReadBack(Referencing, x, FirstRow()) == FirstRow().state.(messages := Asked())
      && CutRow(PayingWorld("paid"), FirstRow(), true)
      && !CutRow(PayingWorld("paid"), FirstRow().(state := ReadBack(Referencing, x, FirstRow())), exact)
  {
    var log := ThreeTicksIn();
    OneAttemptDoesNotRead(Referencing, digest, PayingWorld("paid"), Before(Beginning()), Ticks(3));
    ReadsTheTurn(PlayHeld(Referencing, digest, PayingWorld("paid"), Before(Beginning()), Ticks(3)));
    FirstRowIsCut();
    GrownIsNoCut(PayingWorld("paid"), FirstRow(), Asked(), exact);
  }

  // ---- A run that passes the eligibility check and can never be recovered ----

  function Paid(): Journal {
    map[KEY := Entry("ws", "first", 1, "v1", "pay", "{}", IDEMPOTENT_WRITE, COMMITTED, Some("paid"))]
  }

  function Answered(): seq<Message> {
    Asked() + [ToolResult("call-1", "pay", "paid")]
  }

  lemma ThePaymentIsPushed(log: CheckpointLog.Log)
    ensures var w := PayingWorld("paid");
      var s := Sys(map[], {}, log, [], Local(Attempt("first"), Asked(), 1, 0, None, [], 2, ToolHead([CALL], true)));
      Tick(w, Tick(w, Tick(w, s))) ==
        Sys(Paid(), {}, log, [KEY], Local(Attempt("first"), Answered(), 1, 1, None, [], 2, SaveTool([], true)))
  {
    var w := PayingWorld("paid");
    var s := Sys(map[], {}, log, [], Local(Attempt("first"), Asked(), 1, 0, None, [], 2, ToolHead([CALL], true)));
    assert [CALL][1..] == [];
    var s1 := Tick(w, s);
    assert s1 == Sys(Entered(PENDING), {}, log, [],
                     Local(Attempt("first"), Asked(), 1, 1, None, [], 2, Invoke(CALL, [], true, "v1", IDEMPOTENT_WRITE)));
    var s2 := Tick(w, s1);
    assert [] + [KEY] == [KEY];
    assert s2 == s1.(invoked := [KEY],
                     local := s1.local.(phase := SettleCall(CALL, [], true, IDEMPOTENT_WRITE, Output("paid"))));
  }

  /** The attempt runs up to its pushed tool result, loses its tracking, and is refused its checkpoint. */
  function Disowned(): seq<Event> {
    Ticks(7) + [DoClear("first"), DoTick]
  }

  function Over(log: CheckpointLog.Log): Sys {
    Sys(Paid(), {}, log, [KEY], Local(Attempt("first"), Answered(), 1, 1, None, [], 3, Thrown))
  }

  lemma FourAndThree(w: World, s: Sys, mid: Sys)
    requires WellFormed(s.local) && WellFormed(mid.local) && Tick(w, Tick(w, Tick(w, Tick(w, s)))) == mid
    ensures Play(w, s, Ticks(7)) == Tick(w, Tick(w, Tick(w, mid)))
  {
    NextThreeTicks(w, s, 4);
    NextTicks(w, Tick(w, Tick(w, Tick(w, s))), 3);
    NextThreeTicks(w, mid, 0);
  }

  lemma SevenTicks() returns (log: CheckpointLog.Log)
    ensures StoredCall(log) && forall k :: k in log.index ==> k.2.sequence <= 2
    ensures Play(PayingWorld("paid"), Beginning(), Ticks(7)) ==
      Sys(Paid(), {}, log, [KEY], Local(Attempt("first"), Answered(), 1, 1, None, [], 2, SaveTool([], true)))
  {
    var w := PayingWorld("paid");
    log := UpToTheCall("paid");
    ThePaymentIsPushed(log);
    FourAndThree(w, Beginning(),
      Sys(map[], {}, log, [], Local(Attempt("first"), Asked(), 1, 0, None, [], 2, ToolHead([CALL], true))));
  }

  lemma Disowning(log: CheckpointLog.Log)
    requires forall k :: k in log.index ==> k.2.sequence <= 2
    ensures var w := PayingWorld("paid");
      var s := Sys(Paid(), {}, log, [KEY], Local(Attempt("first"), Answered(), 1, 1, None, [], 2, SaveTool([], true)));
      Step(w, Step(w, s, DoClear("first")), DoTick) == Over(log.(attempts := log.attempts - {"first"}))
  {
  }

  lemma TwoMore(w: World, s: Sys, es: seq<Event>, a: Event, b: Event)
    requires WellFormed(s.local)
    ensures Play(w, s, es + [a, b]) == Step(w, Step(w, Play(w, s, es), a), b)
  {
    PlayEndsWith(w, s, es, a);
    PlayEndsWith(w, s, es + [a], b);
    assert es + [a, b] == es + [a] + [b];
  }

  lemma DisownedEnds() returns (log: CheckpointLog.Log)
    ensures StoredCall(log) && Play(PayingWorld("paid"), Beginning(), Disowned()) == Over(log)
  {
    var w := PayingWorld("paid");
    var called := SevenTicks();
    Disowning(called);
    log := called.(attempts := called.attempts - {"first"});
    TwoMore(w, Beginning(), Ticks(7), DoClear("first"), DoTick);
  }

  /** What the attempt leaves behind passes the eligibility check, but its latest checkpoint is altered. */
  lemma OverIsEligible(log: CheckpointLog.Log, x: Held)
    requires StoredCall(log) && x.sys == Over(log)
    ensures Eligible(x.sys) && Corrupt(Referencing, x) && Latest(x.sys).value.state.messages == Asked()
  {
    assert Latest(x.sys) == CheckpointLog.FindLatest(log.rows, "ws", "run");
  }

  /**
   * The tool call was answered and is committed in the journal; its checkpoint was refused because the
   * attempt was no longer tracked. Every recovery of this run is refused.
   */
  lemma AlteredCheckpointEndsTheRun(digest: Digest, later: seq<Event>)
    requires Collisionless(digest)
    requires HeldHistory(Referencing, digest, PayingWorld("paid"), Before(Beginning()), Disowned() + later)
    ensures FirstAttempt(Beginning())
    ensures var x := PlayHeld(Referencing, digest, PayingWorld("paid"), Before(Beginning()), Disowned());
      Eligible(x.sys) && Altered(Referencing, x) && Latest(x.sys).value.state.messages == Asked()
    ensures var y := PlayHeld(Referencing, digest, PayingWorld("paid"), Before(Beginning()), Disowned() + later).sys;
      y.local.phase.Thrown? && y.invoked == [KEY]
  {
    var w := PayingWorld("paid");
    var x := PlayHeld(Referencing, digest, w, Before(Beginning()), Disowned());
    NoRestartInDisowned();
    OneAttemptDoesNotRead(Referencing, digest, w, Before(Beginning()), Disowned());
    var log := DisownedEnds();
    OverIsEligible(log, x);
    PlayHeldJoins(Referencing, digest, w, Before(Beginning()), Disowned(), later);
    StaysOver(digest, w, x, later);
  }

  lemma NoRestartInDisowned()
    ensures forall e :: e in Disowned() ==> !e.DoRestart?
  {
  }

  lemma StaysOver(digest: Digest, w: World, x: Held, later: seq<Event>)
    requires FirstAttempt(Beginning()) && x == PlayHeld(Referencing, digest, w, Before(Beginning()), Disowned())
    requires HeldHistory(Referencing, digest, w, Before(Beginning()), Disowned())
    requires Collisionless(digest) && Corrupt(Referencing, x) && HeldHistory(Referencing, digest, w, x, later)
    ensures var y := PlayHeld(Referencing, digest, w, x, later).sys;
      y.local.phase.Thrown? && y.invoked == x.sys.invoked
  {
    FirstAttemptIsKept(w, Beginning());
    HistoryKeepsKept(Referencing, digest, w, Before(Beginning()), Disowned());
    CorruptForever(Referencing, digest, w, x, later);
  }
}
