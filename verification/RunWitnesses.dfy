/** Concrete histories of the run store in which a guarantee fails for want of its condition. */
module RunWitnesses {
  import opened Common
  import opened RunStore
  import opened RunCoherence
  import opened RunHistory

  function ARun(id: string, status: RunState): Run {
    Run(id, "ws", status, 0, 0, None, None)
  }

  function AnAttempt(id: string, runId: string, status: AttemptState): Attempt {
    Attempt(id, runId, 1, status, 0, None, None, None, 0, None)
  }

  /** Two runs, each with its first attempt. */
  function TwoRuns(a: RunState, first: AttemptState, b: RunState, second: AttemptState): seq<Call> {
    [Call(0, CreateRun(ARun("A", a), AnAttempt("a", "A", first))), Call(0, CreateRun(ARun("B", b), AnAttempt("b", "B", second)))]
  }

  function StoreOf(a: RunState, first: AttemptState, b: RunState, second: AttemptState): Store {
    Store(map["A" := ARun("A", a), "B" := ARun("B", b)],
          map["a" := AnAttempt("a", "A", first), "b" := AnAttempt("b", "B", second)], map[])
  }

  lemma TwoCalls(st: Store, c: Call, d: Call)
    ensures Play(st, [c, d]) == After(After(st, c.now, c.command), d.now, d.command)
    ensures AllAdmissible(st, [c, d]) <==>
      && (Outcome(st, c.now, c.command).Ok? ==> Admissible(st, c.command))
      && var st' := After(st, c.now, c.command);
         Outcome(st', d.now, d.command).Ok? ==> Admissible(st', d.command)
  {
    var h, rest := [c, d], [d];
    var none: seq<Call> := [];
    assert h[1..] == rest && rest[1..] == none;
    var st' := After(st, c.now, c.command);
    assert Play(st, h) == Play(st', rest) == Play(After(st', d.now, d.command), none);
    assert AllAdmissible(After(st', d.now, d.command), none);
    assert AllAdmissible(st', rest) <==> Outcome(st', d.now, d.command).Ok? ==> Admissible(st', d.command);
  }

  lemma TwoRunsArrive(a: RunState, first: AttemptState, b: RunState, second: AttemptState)
    ensures var h := TwoRuns(a, first, b, second);
      After(After(EMPTY, 0, h[0].command), 0, h[1].command) == StoreOf(a, first, b, second)
  {
    var h := TwoRuns(a, first, b, second);
    var st := After(EMPTY, 0, h[0].command);
    assert st == Store(map["A" := ARun("A", a)], map["a" := AnAttempt("a", "A", first)], map[]);
  }

  lemma TwoRunsAreCoherent(a: RunState, first: AttemptState, b: RunState, second: AttemptState)
    requires Expect(a) == Activity(first) && Expect(b) == Activity(second)
    ensures AllAdmissible(EMPTY, TwoRuns(a, first, b, second))
    ensures Play(EMPTY, TwoRuns(a, first, b, second)) == StoreOf(a, first, b, second)
    ensures Coherent(StoreOf(a, first, b, second))
  {
    var h := TwoRuns(a, first, b, second);
    TwoCalls(EMPTY, h[0], h[1]);
    TwoRunsArrive(a, first, b, second);
    assert AllAdmissible(EMPTY, h);
    EveryReachableStoreIsCoherent(h);
  }

  // ---- Pairs that do not match ----

  /** The submitted attempt names run A, the stored one belongs to run B. */
  function StrangersMove(): Command {
    MovePair(Pair(RunState.QUEUED, ARun("A", RunState.RUNNING),
                  AttemptState.PENDING, AnAttempt("b", "A", AttemptState.RUNNING), None), 0)
  }

  /** Run A starts while its attempt is cancelled. */
  function UnfitMove(): Command {
    MovePair(Pair(RunState.QUEUED, ARun("A", RunState.RUNNING),
                  AttemptState.PENDING, AnAttempt("a", "A", AttemptState.CANCELLED), None), 0)
  }

  /** From a coherent, reachable store both succeed, and both leave it incoherent. */
  lemma UnmatchedPairsBreakCoherence(c: Command)
    requires c == StrangersMove() || c == UnfitMove()
    ensures var st := Play(EMPTY, TwoRuns(RunState.QUEUED, AttemptState.PENDING, RunState.QUEUED, AttemptState.PENDING));
      Coherent(st) && Outcome(st, 0, c).Ok? && !Coherent(After(st, 0, c))
  {
    TwoRunsAreCoherent(RunState.QUEUED, AttemptState.PENDING, RunState.QUEUED, AttemptState.PENDING);
    var st := StoreOf(RunState.QUEUED, AttemptState.PENDING, RunState.QUEUED, AttemptState.PENDING);
    assert Outcome(st, 0, c).Ok?;
    CallKeepsCoherenceIffAdmissible(st, 0, c);
  }

  // ---- A reused attempt id ----

  function TakesIdOfB(): Command {
    ScheduleRecovery("A", "a", "b", "")
  }

  /** A recovery attempt of run A that takes the id of run B's pending attempt. */
  lemma ReusedIdBreaksCoherence()
    ensures var st := Play(EMPTY, TwoRuns(RunState.INTERRUPTED, AttemptState.FAILED, RunState.QUEUED, AttemptState.PENDING));
      Coherent(st) && Outcome(st, 0, TakesIdOfB()).Ok? && !Coherent(After(st, 0, TakesIdOfB()))
  {
    TwoRunsAreCoherent(RunState.INTERRUPTED, AttemptState.FAILED, RunState.QUEUED, AttemptState.PENDING);
    var st := StoreOf(RunState.INTERRUPTED, AttemptState.FAILED, RunState.QUEUED, AttemptState.PENDING);
    assert MaySchedule(st, "A") && IsLast(st, "A", "a");
    assert Outcome(st, 0, TakesIdOfB()).Ok?;
    CallKeepsCoherenceIffAdmissible(st, 0, TakesIdOfB());
  }

  function OwnerStarts(): Command {
    MovePair(Pair(RunState.QUEUED, ARun("A", RunState.RUNNING), AttemptState.PENDING,
                  AnAttempt("b", "A", AttemptState.RUNNING).(executionOwner := Some("worker"), executionGeneration := 1), Some(1000)), 0)
  }

  /** The store in which run A has taken the id of run B's ended attempt. */
  lemma TakenOver(st: Store)
    requires st == StoreOf(RunState.INTERRUPTED, AttemptState.FAILED, RunState.FAILED, AttemptState.FAILED)
    ensures Outcome(st, 0, TakesIdOfB()).Ok?
    ensures var st' := After(st, 0, TakesIdOfB());
      && "b" in st'.attempts && st'.attempts["b"] == Attempt("b", "A", 2, AttemptState.PENDING, 0, None, None, None, 0, None)
      && "A" in st'.runs && st'.runs["A"].status == RunState.QUEUED && st'.runs["A"].createdAt == 0
  {
    assert MaySchedule(st, "A") && IsLast(st, "A", "a");
  }

  lemma OwnerStartsIt(st: Store)
    requires "b" in st.attempts && st.attempts["b"] == Attempt("b", "A", 2, AttemptState.PENDING, 0, None, None, None, 0, None)
    requires "A" in st.runs && st.runs["A"].status == RunState.QUEUED && st.runs["A"].createdAt == 0
    ensures OwnerCall(OwnerStarts(), "b") && Outcome(st, 0, OwnerStarts()).Ok?
  {
  }

  /** After an attempt has ended, the reuse of its id lets an owner move it again. */
  lemma ReusedIdBreaksFence()
    ensures var st := Play(EMPTY, TwoRuns(RunState.INTERRUPTED, AttemptState.FAILED, RunState.FAILED, AttemptState.FAILED));
      var h := [Call(0, TakesIdOfB()), Call(0, OwnerStarts())];
      && Spent(st, "b", 0) && Monotone(0, h) && Reuses(st, "b", h[0]) && !NoOwnerCallSucceeds(st, "b", h)
  {
    TwoRunsAreCoherent(RunState.INTERRUPTED, AttemptState.FAILED, RunState.FAILED, AttemptState.FAILED);
    var st := StoreOf(RunState.INTERRUPTED, AttemptState.FAILED, RunState.FAILED, AttemptState.FAILED);
    var h := [Call(0, TakesIdOfB()), Call(0, OwnerStarts())];
    assert h[1..] == [h[1]];
    TakenOver(st);
    OwnerStartsIt(After(st, 0, TakesIdOfB()));
    assert !NoOwnerCallSucceeds(After(st, 0, TakesIdOfB()), "b", h[1..]);
  }
}
