/**
 * What a checkpoint reads back as. A store that copies gives back the state that was committed. The
 * in-memory store keeps the state it was handed, whose message array the loop goes on pushing to, so a
 * row reads back with all the messages of the attempt that wrote it. A restart compares the digest
 * taken at the commit with the state it reads back.
 */
module CheckpointReadBack {
  import opened Common
  import opened Conversation
  import opened OperationJournal
  import opened AgentSemantics
  import opened DurableMachine
  import opened CrashRecovery
  import opened RecoveryGate
  import ConsistentCut
  import CheckpointLog

  datatype StoreKind = Copying | Referencing

  type Digest = CheckpointState -> string

  ghost predicate Collisionless(digest: Digest) {
    forall a, b :: digest(a) == digest(b) ==> a == b
  }

  /** A store that copies does not depend on the digest. */
  ghost predicate Reliable(kind: StoreKind, digest: Digest) {
    kind.Copying? || Collisionless(digest)
  }

  /** The machine together with the message arrays of the attempts that are over. */
  datatype Held = Held(sys: Sys, ended: map<string, seq<Message>>)

  function Before(s: Sys): Held {
    Held(s, map[])
  }

  predicate OfRun(s: Sys, row: CheckpointLog.Row) {
    row in s.log.rows && row.runId == s.local.id.runId
  }

  /** The message array of the attempt that wrote the row, as it is now. */
  function ArrayOf(x: Held, row: CheckpointLog.Row): seq<Message> {
    if row.runAttemptId == x.sys.local.id.runAttemptId then x.sys.local.messages
    else if row.runAttemptId in x.ended then x.ended[row.runAttemptId]
    else row.state.messages
  }

  function ReadBack(kind: StoreKind, x: Held, row: CheckpointLog.Row): CheckpointState {
    match kind
    case Copying => row.state
    case Referencing => row.state.(messages := ArrayOf(x, row))
  }

  /** Schema and digest of what is read back, against the digest taken when the row was committed. */
  predicate Intact(kind: StoreKind, digest: Digest, w: World, x: Held, row: CheckpointLog.Row) {
    w.acceptsState(ReadBack(kind, x, row)) && digest(ReadBack(kind, x, row)) == digest(row.state)
  }

  function Latest(s: Sys): Option<CheckpointLog.Row> {
    CheckpointLog.FindLatest(s.log.rows, s.local.id.workspaceId, s.local.id.runId)
  }

  predicate Refuses(kind: StoreKind, digest: Digest, w: World, x: Held) {
    Latest(x.sys).Some? && !Intact(kind, digest, w, x, Latest(x.sys).value)
  }

  /** The new attempt holds its lease, but throws before it has any messages. */
  function RefusedRestart(s: Sys, runAttemptId: string, owner: string, generation: nat): Sys {
    var id := s.local.id.(runAttemptId := runAttemptId, owner := owner, generation := generation);
    s.(log := s.log.(attempts := s.log.attempts[runAttemptId := CheckpointLog.Tracked(owner, generation)]),
       local := Local(id, [], 0, 0, None, [], 0, Thrown))
  }

  /** The latest checkpoint as it reads back. */
  function Restored(kind: StoreKind, x: Held): Option<CheckpointLog.Row> {
    match Latest(x.sys)
    case None => None
    case Some(row) => Some(row.(state := ReadBack(kind, x, row)))
  }

  /** The new attempt starts from it. */
  function RestartHeld(kind: StoreKind, x: Held, runAttemptId: string, owner: string, generation: nat): Sys {
    var s := x.sys;
    var id := s.local.id.(runAttemptId := runAttemptId, owner := owner, generation := generation);
    s.(log := s.log.(attempts := s.log.attempts[runAttemptId := CheckpointLog.Tracked(owner, generation)]),
       local := Launch(id, Restored(kind, x)))
  }

  function StepHeld(kind: StoreKind, digest: Digest, w: World, x: Held, e: Event): (r: Held)
    requires WellFormed(x.sys.local)
    ensures WellFormed(r.sys.local)
  {
    match e
    case DoRestart(id, owner, generation) =>
      var ended := x.ended[x.sys.local.id.runAttemptId := x.sys.local.messages];
      if Refuses(kind, digest, w, x) then Held(RefusedRestart(x.sys, id, owner, generation), ended)
      else Held(RestartHeld(kind, x, id, owner, generation), ended)
    case _ => Held(Step(w, x.sys, e), x.ended)
  }

  function PlayHeld(kind: StoreKind, digest: Digest, w: World, x: Held, es: seq<Event>): (r: Held)
    requires WellFormed(x.sys.local)
    ensures WellFormed(r.sys.local)
    decreases |es|
  {
    if es == [] then x else PlayHeld(kind, digest, w, StepHeld(kind, digest, w, x, es[0]), es[1..])
  }

  lemma {:induction false} PlayHeldJoins(kind: StoreKind, digest: Digest, w: World, x: Held, a: seq<Event>, b: seq<Event>)
    requires WellFormed(x.sys.local)
    ensures PlayHeld(kind, digest, w, x, a + b) == PlayHeld(kind, digest, w, PlayHeld(kind, digest, w, x, a), b)
    ensures HeldHistory(kind, digest, w, x, a + b) <==>
      HeldHistory(kind, digest, w, x, a) && HeldHistory(kind, digest, w, PlayHeld(kind, digest, w, x, a), b)
    decreases |a|
  {
    if a == [] {
      assert a + b == b;
    } else {
      assert (a + b)[1..] == a[1..] + b;
      PlayHeldJoins(kind, digest, w, StepHeld(kind, digest, w, x, a[0]), a[1..], b);
    }
  }

  /** Without a restart the store is not read. */
  lemma {:induction false} OneAttemptDoesNotRead(kind: StoreKind, digest: Digest, w: World, x: Held, es: seq<Event>)
    requires WellFormed(x.sys.local) && forall e :: e in es ==> !e.DoRestart?
    ensures PlayHeld(kind, digest, w, x, es) == Held(Play(w, x.sys, es), x.ended)
    ensures HeldHistory(kind, digest, w, x, es)
    decreases |es|
  {
    if es != [] {
      assert es[0] in es;
      OneAttemptDoesNotRead(kind, digest, w, StepHeld(kind, digest, w, x, es[0]), es[1..]);
    }
  }

  predicate Allowed(x: Held, e: Event) {
    e.DoRestart? ==> UnusedAttempt(x.sys.log, e.runAttemptId) && !Completed(x.sys.local)
  }

  /** Restarts use new attempt ids, and no attempt is started once one has returned an output. */
  predicate HeldHistory(kind: StoreKind, digest: Digest, w: World, x: Held, es: seq<Event>)
    requires WellFormed(x.sys.local)
    decreases |es|
  {
    es == [] || (Allowed(x, es[0]) && HeldHistory(kind, digest, w, StepHeld(kind, digest, w, x, es[0]), es[1..]))
  }

  // ---- How arrays grow ----

  /** Only turns and tool results were pushed. */
  predicate Extends(a: seq<Message>, b: seq<Message>) {
    a <= b && forall i :: |a| <= i < |b| ==> b[i].Assistant? || b[i].ToolResult?
  }

  predicate Grown(x: Held, row: CheckpointLog.Row) {
    |row.state.messages| < |ArrayOf(x, row)|
  }

  /** The event pushes to the array the row holds. */
  predicate PushesTo(w: World, x: Held, e: Event, row: CheckpointLog.Row)
    requires WellFormed(x.sys.local)
  {
    && e.DoTick? && row.runAttemptId == x.sys.local.id.runAttemptId
    && Tick(w, x.sys).local.messages != x.sys.local.messages
  }

  predicate RowKept(w: World, x: Held, row: CheckpointLog.Row) {
    && Extends(row.state.messages, ArrayOf(x, row))
    && (row.runAttemptId == x.sys.local.id.runAttemptId || row.runAttemptId in x.ended)
    && !UnusedAttempt(x.sys.log, row.runAttemptId)
    && w.acceptsState(row.state)
  }

  predicate Kept(w: World, x: Held) {
    && (forall row :: row in x.sys.log.rows && row.runId == x.sys.local.id.runId ==> RowKept(w, x, row))
    && (x.sys.local.phase.Prefetch? ==> UnusedAttempt(x.sys.log, x.sys.local.id.runAttemptId))
  }

  /** A tick pushes at most one message, a turn or a tool result, once the attempt has its first messages. */
  lemma TickPushes(w: World, s: Sys)
    requires WellFormed(s.local) && !s.local.phase.Prefetch?
    ensures Extends(s.local.messages, Tick(w, s).local.messages) && Tick(w, s).local.id == s.local.id
  {
    match s.local.phase {
      case ToolHead(_, _) =>
      case SettleCall(_, _, _, _, _) =>
      case LoopHead =>
      case _ =>
    }
  }

  /** It writes at most one row, and that holds the messages of the moment. */
  lemma TickWrites(w: World, s: Sys, row: CheckpointLog.Row)
    requires WellFormed(s.local) && row in Tick(w, s).log.rows && row !in s.log.rows
    ensures row.runAttemptId == s.local.id.runAttemptId && row.state.messages == s.local.messages == Tick(w, s).local.messages
    ensures w.acceptsState(row.state) && !UnusedAttempt(Tick(w, s).log, row.runAttemptId)
  {
    if Saving(s.local.phase) {
      SaveWrites(w, s, row);
    } else {
      TickKeepsLog(w, s);
    }
  }

  lemma TickKeepsLog(w: World, s: Sys)
    requires WellFormed(s.local) && !Saving(s.local.phase)
    ensures Tick(w, s).log == s.log
  {
    match s.local.phase {
      case ToolHead(_, _) =>
      case SettleCall(_, _, _, _, _) =>
      case LoopHead =>
      case _ =>
    }
  }

  lemma SaveWrites(w: World, s: Sys, row: CheckpointLog.Row)
    requires WellFormed(s.local) && Saving(s.local.phase) && row in Tick(w, s).log.rows && row !in s.log.rows
    ensures row.runAttemptId == s.local.id.runAttemptId && row.state.messages == s.local.messages == Tick(w, s).local.messages
    ensures w.acceptsState(row.state) && !UnusedAttempt(Tick(w, s).log, row.runAttemptId)
  {
    var cmd := CommandAt(s.local);
    var r := Tick(w, s);
    assert r.log == if w.checkpointing then CheckpointLog.AfterCommit(s.log, cmd, w.acceptsState) else s.log;
    assert row == CheckpointLog.RowFor(s.log, cmd);
    assert CheckpointLog.KeyOf(cmd) in r.log.index;
  }

  lemma TickKeepsKeys(w: World, s: Sys, id: string)
    requires WellFormed(s.local) && !UnusedAttempt(s.log, id)
    ensures !UnusedAttempt(Tick(w, s).log, id)
  {
    var k :| k in s.log.index && k.2.runAttemptId == id;
    if Saving(s.local.phase) {
      var cmd := CommandAt(s.local);
      assert Tick(w, s).log == if w.checkpointing then CheckpointLog.AfterCommit(s.log, cmd, w.acceptsState) else s.log;
    } else {
      TickKeepsLog(w, s);
    }
    assert k in Tick(w, s).log.index;
  }

  /** A row stays what it was, except that its own attempt may have pushed to its array. */
  lemma TickKeepsRow(w: World, x: Held, row: CheckpointLog.Row)
    requires WellFormed(x.sys.local) && Kept(w, x) && OfRun(x.sys, row)
    ensures var r := Held(Tick(w, x.sys), x.ended);
      && RowKept(w, r, row) && Extends(ArrayOf(x, row), ArrayOf(r, row))
      && (ArrayOf(r, row) != ArrayOf(x, row) <==> PushesTo(w, x, DoTick, row))
  {
    assert RowKept(w, x, row);
    TickUsesOwnKeys(w, x.sys);
    TickKeepsKeys(w, x.sys, row.runAttemptId);
    if row.runAttemptId == x.sys.local.id.runAttemptId {
      TickPushes(w, x.sys);
    }
  }

  lemma TickKeepsKept(w: World, x: Held)
    requires WellFormed(x.sys.local) && Kept(w, x)
    ensures Kept(w, Held(Tick(w, x.sys), x.ended))
  {
    var r := Held(Tick(w, x.sys), x.ended);
    TickUsesOwnKeys(w, x.sys);
    forall row | OfRun(r.sys, row)
      ensures RowKept(w, r, row)
    {
      if row in x.sys.log.rows {
        TickKeepsRow(w, x, row);
      } else {
        TickWrites(w, x.sys, row);
      }
    }
    if x.sys.local.phase.Prefetch? {
      assert !Tick(w, x.sys).local.phase.Prefetch?;
    } else {
      PhasesLeavePrefetch(w, x.sys);
    }
  }

  /** A new attempt pushes to an array of its own. */
  lemma RestartKeepsRow(kind: StoreKind, digest: Digest, w: World, x: Held, e: Event, row: CheckpointLog.Row)
    requires WellFormed(x.sys.local) && Kept(w, x) && OfRun(x.sys, row)
    requires e.DoRestart? && UnusedAttempt(x.sys.log, e.runAttemptId)
    ensures var r := StepHeld(kind, digest, w, x, e); RowKept(w, r, row) && ArrayOf(r, row) == ArrayOf(x, row)
  {
    assert RowKept(w, x, row);
  }

  lemma StepKeepsKept(kind: StoreKind, digest: Digest, w: World, x: Held, e: Event)
    requires WellFormed(x.sys.local) && Kept(w, x) && Allowed(x, e)
    ensures Kept(w, StepHeld(kind, digest, w, x, e))
  {
    match e {
      case DoTick => TickKeepsKept(w, x);
      case DoClear(_) => ClearKeepsKept(kind, digest, w, x, e);
      case DoRestart(_, _, _) =>
        forall row | OfRun(x.sys, row)
          ensures RowKept(w, StepHeld(kind, digest, w, x, e), row)
        {
          RestartKeepsRow(kind, digest, w, x, e, row);
        }
    }
  }

  lemma ClearKeepsKept(kind: StoreKind, digest: Digest, w: World, x: Held, e: Event)
    requires WellFormed(x.sys.local) && Kept(w, x) && e.DoClear?
    ensures Kept(w, StepHeld(kind, digest, w, x, e))
  {
    var r := StepHeld(kind, digest, w, x, e);
    forall row | OfRun(r.sys, row)
      ensures RowKept(w, r, row)
    {
      assert RowKept(w, x, row);
    }
  }

  lemma {:induction false} HistoryKeepsKept(kind: StoreKind, digest: Digest, w: World, x: Held, es: seq<Event>)
    requires WellFormed(x.sys.local) && Kept(w, x) && HeldHistory(kind, digest, w, x, es)
    ensures Kept(w, PlayHeld(kind, digest, w, x, es))
    decreases |es|
  {
    if es != [] {
      StepKeepsKept(kind, digest, w, x, es[0]);
      HistoryKeepsKept(kind, digest, w, StepHeld(kind, digest, w, x, es[0]), es[1..]);
    }
  }

  lemma FirstAttemptIsKept(w: World, s: Sys)
    requires FirstAttempt(s)
    ensures Kept(w, Before(s))
  {
  }

  /** A refused attempt is tracked under its own identity and has thrown with nothing in hand; the stores stay. */
  lemma RefusalLeavesTheStores(s: Sys, runAttemptId: string, owner: string, generation: nat)
    ensures var r := RefusedRestart(s, runAttemptId, owner, generation);
      && r.local.id == Identity(s.local.id.workspaceId, s.local.id.runId, runAttemptId, owner, generation)
      && r.local.phase.Thrown? && r.local.messages == [] && r.local.pending == [] && r.local.retrievedContext == None
      && r.local.modelInvocations == 0 && r.local.toolInvocations == 0 && r.local.checkpointSequence == 0
      && r.journal == s.journal && r.everFailed == s.everFailed && r.invoked == s.invoked
      && r.log == s.log.(attempts := s.log.attempts[runAttemptId := CheckpointLog.Tracked(owner, generation)])
  {
  }

  // ---- When a row reads back as it was committed ----

  /** One of the events pushes to the array the row holds. */
  predicate Pushed(kind: StoreKind, digest: Digest, w: World, x: Held, es: seq<Event>, row: CheckpointLog.Row)
    requires WellFormed(x.sys.local)
    decreases |es|
  {
    es != [] && (PushesTo(w, x, es[0], row) || Pushed(kind, digest, w, StepHeld(kind, digest, w, x, es[0]), es[1..], row))
  }

  lemma StepKeepsRow(kind: StoreKind, digest: Digest, w: World, x: Held, e: Event, row: CheckpointLog.Row)
    requires WellFormed(x.sys.local) && Kept(w, x) && Allowed(x, e) && OfRun(x.sys, row)
    ensures var r := StepHeld(kind, digest, w, x, e);
      && OfRun(r.sys, row) && Extends(ArrayOf(x, row), ArrayOf(r, row))
      && (ArrayOf(r, row) != ArrayOf(x, row) <==> PushesTo(w, x, e, row))
  {
    match e {
      case DoTick =>
        TickKeepsRow(w, x, row);
        TickKeepsRows(w, x.sys);
      case DoClear(_) =>
      case DoRestart(_, _, _) => RestartKeepsRow(kind, digest, w, x, e, row);
    }
  }

  lemma TickKeepsRows(w: World, s: Sys)
    requires WellFormed(s.local)
    ensures s.log.rows <= Tick(w, s).log.rows && Tick(w, s).local.id == s.local.id
  {
    TickUsesOwnKeys(w, s);
    if Saving(s.local.phase) {
      var cmd := CommandAt(s.local);
      assert Tick(w, s).log == if w.checkpointing then CheckpointLog.AfterCommit(s.log, cmd, w.acceptsState) else s.log;
    } else {
      TickKeepsLog(w, s);
    }
  }

  /** Rows stay, and their arrays grow exactly by what their attempts push. */
  lemma {:induction false} ArraysOnlyGrow(kind: StoreKind, digest: Digest, w: World, x: Held, es: seq<Event>,
                                          row: CheckpointLog.Row)
    requires WellFormed(x.sys.local) && Kept(w, x) && HeldHistory(kind, digest, w, x, es) && OfRun(x.sys, row)
    ensures var r := PlayHeld(kind, digest, w, x, es);
      && OfRun(r.sys, row) && Extends(ArrayOf(x, row), ArrayOf(r, row))
      && (ArrayOf(r, row) != ArrayOf(x, row) <==> Pushed(kind, digest, w, x, es, row))
    decreases |es|
  {
    if es != [] {
      var y := StepHeld(kind, digest, w, x, es[0]);
      StepKeepsRow(kind, digest, w, x, es[0], row);
      StepKeepsKept(kind, digest, w, x, es[0]);
      ArraysOnlyGrow(kind, digest, w, y, es[1..], row);
    }
  }

  lemma ReadsBackIffNotGrown(w: World, x: Held, row: CheckpointLog.Row)
    requires RowKept(w, x, row)
    ensures ReadBack(Referencing, x, row) == row.state <==> !Grown(x, row)
  {
  }

  /** A commit stores the array of the moment. */
  lemma CommittedNow(w: World, x: Held, row: CheckpointLog.Row)
    requires WellFormed(x.sys.local) && row in Tick(w, x.sys).log.rows && row !in x.sys.log.rows
    ensures !Grown(Held(Tick(w, x.sys), x.ended), row)
  {
    TickUsesOwnKeys(w, x.sys);
    TickWrites(w, x.sys, row);
  }

  /** `row` is the checkpoint that the last event of `es` commits. */
  predicate CommittedLast(kind: StoreKind, digest: Digest, w: World, first: Sys, es: seq<Event>, row: CheckpointLog.Row)
    requires WellFormed(first.local)
  {
    && es != [] && row.runId == first.local.id.runId
    && row !in PlayHeld(kind, digest, w, Before(first), es[..|es| - 1]).sys.log.rows
    && row in PlayHeld(kind, digest, w, Before(first), es).sys.log.rows
  }

  lemma LastEvent(kind: StoreKind, digest: Digest, w: World, x: Held, es: seq<Event>)
    requires WellFormed(x.sys.local) && es != [] && HeldHistory(kind, digest, w, x, es)
    ensures HeldHistory(kind, digest, w, x, es[..|es| - 1])
    ensures var y := PlayHeld(kind, digest, w, x, es[..|es| - 1]);
      Allowed(y, es[|es| - 1]) && PlayHeld(kind, digest, w, x, es) == StepHeld(kind, digest, w, y, es[|es| - 1])
  {
    var y := PlayHeld(kind, digest, w, x, es[..|es| - 1]);
    var last := [es[|es| - 1]];
    PlayHeldJoins(kind, digest, w, x, es[..|es| - 1], last);
    assert es == es[..|es| - 1] + last;
    assert PlayHeld(kind, digest, w, StepHeld(kind, digest, w, y, last[0]), last[1..]) == StepHeld(kind, digest, w, y, last[0]);
  }

  /** Just committed, a row has what was committed. */
  lemma CommittedIsNotGrown(kind: StoreKind, digest: Digest, w: World, first: Sys, es: seq<Event>, row: CheckpointLog.Row)
    requires FirstAttempt(first) && HeldHistory(kind, digest, w, Before(first), es)
    requires CommittedLast(kind, digest, w, first, es, row)
    ensures var y := PlayHeld(kind, digest, w, Before(first), es); Kept(w, y) && OfRun(y.sys, row) && !Grown(y, row)
  {
    LastEvent(kind, digest, w, Before(first), es);
    HistoryKeepsRun(kind, digest, w, Before(first), es);
    FirstAttemptIsKept(w, first);
    HistoryKeepsKept(kind, digest, w, Before(first), es);
    var x := PlayHeld(kind, digest, w, Before(first), es[..|es| - 1]);
    OnlyTicksWrite(kind, digest, w, x, es[|es| - 1]);
    CommittedNow(w, x, row);
  }

  lemma OnlyTicksWrite(kind: StoreKind, digest: Digest, w: World, x: Held, e: Event)
    requires WellFormed(x.sys.local) && StepHeld(kind, digest, w, x, e).sys.log.rows != x.sys.log.rows
    ensures e.DoTick?
  {
  }

  /**
   * Over every history, with restarts that are refused among them: a row reads back as it was committed
   * from a copying store always, and from a referencing one if and only if its attempt has pushed
   * nothing since the commit.
   */
  lemma RowReadsBackIffNothingPushed(kind: StoreKind, digest: Digest, w: World, first: Sys, before: seq<Event>,
                                     after: seq<Event>, row: CheckpointLog.Row)
    requires FirstAttempt(first) && HeldHistory(kind, digest, w, Before(first), before + after)
    requires CommittedLast(kind, digest, w, first, before, row)
    ensures ReadBack(kind, PlayHeld(kind, digest, w, Before(first), before + after), row) == row.state <==>
      kind.Copying? || !Pushed(kind, digest, w, PlayHeld(kind, digest, w, Before(first), before), after, row)
  {
    PlayHeldJoins(kind, digest, w, Before(first), before, after);
    CommittedIsNotGrown(kind, digest, w, first, before, row);
    var y := PlayHeld(kind, digest, w, Before(first), before);
    ReadsBackAfter(kind, digest, w, y, after, row);
  }

  lemma ReadsBackAfter(kind: StoreKind, digest: Digest, w: World, y: Held, after: seq<Event>, row: CheckpointLog.Row)
    requires WellFormed(y.sys.local) && Kept(w, y) && OfRun(y.sys, row) && !Grown(y, row)
    requires HeldHistory(kind, digest, w, y, after)
    ensures var z := PlayHeld(kind, digest, w, y, after);
      && Kept(w, z) && OfRun(z.sys, row)
      && (ReadBack(kind, z, row) == row.state <==> kind.Copying? || !Pushed(kind, digest, w, y, after, row))
      && (Grown(z, row) <==> Pushed(kind, digest, w, y, after, row))
  {
    ArraysOnlyGrow(kind, digest, w, y, after, row);
    HistoryKeepsKept(kind, digest, w, y, after);
    assert RowKept(w, y, row);
    assert RowKept(w, PlayHeld(kind, digest, w, y, after), row);
    ReadsBackIffNotGrown(w, PlayHeld(kind, digest, w, y, after), row);
  }

  lemma StepKeepsRun(kind: StoreKind, digest: Digest, w: World, x: Held, e: Event)
    requires WellFormed(x.sys.local)
    ensures var l, l' := x.sys.local, StepHeld(kind, digest, w, x, e).sys.local;
      l'.id.runId == l.id.runId && l'.id.workspaceId == l.id.workspaceId
  {
    if e.DoTick? {
      TickUsesOwnKeys(w, x.sys);
    }
  }

  lemma {:induction false} HistoryKeepsRun(kind: StoreKind, digest: Digest, w: World, x: Held, es: seq<Event>)
    requires WellFormed(x.sys.local)
    ensures var l, l' := x.sys.local, PlayHeld(kind, digest, w, x, es).sys.local;
      l'.id.runId == l.id.runId && l'.id.workspaceId == l.id.workspaceId
    decreases |es|
  {
    if es != [] {
      StepKeepsRun(kind, digest, w, x, es[0]);
      HistoryKeepsRun(kind, digest, w, StepHeld(kind, digest, w, x, es[0]), es[1..]);
    }
  }

  /** What a key gives back changes in its messages only, and those only grow. */
  lemma RecordsOnlyGrow(kind: StoreKind, digest: Digest, w: World, x: Held, es: seq<Event>, row: CheckpointLog.Row)
    requires WellFormed(x.sys.local) && Kept(w, x) && HeldHistory(kind, digest, w, x, es) && OfRun(x.sys, row)
    ensures var was, now := ReadBack(kind, x, row), ReadBack(kind, PlayHeld(kind, digest, w, x, es), row);
      && now == was.(messages := now.messages) && Extends(was.messages, now.messages)
      && (now == was <==> kind.Copying? || !Pushed(kind, digest, w, x, es, row))
  {
    ArraysOnlyGrow(kind, digest, w, x, es, row);
  }

  // ---- What a restart does with it ----

  lemma LatestIsOfRun(s: Sys)
    ensures Latest(s).Some? ==> OfRun(s, Latest(s).value)
  {
    ConsistentCut.LatestIsARow(s.log.rows, s.local.id.workspaceId, s.local.id.runId);
  }

  /** The digest finds every message that was pushed after the commit, and nothing else. */
  lemma RefusedIffGrown(kind: StoreKind, digest: Digest, w: World, x: Held)
    requires Kept(w, x) && Reliable(kind, digest)
    ensures Refuses(kind, digest, w, x) <==> kind.Referencing? && Latest(x.sys).Some? && Grown(x, Latest(x.sys).value)
  {
    LatestIsOfRun(x.sys);
    if Latest(x.sys).Some? {
      var row := Latest(x.sys).value;
      assert RowKept(w, x, row);
      ReadsBackIffNotGrown(w, x, row);
    }
  }

  /** A restart that is not refused starts from the state that was committed. */
  lemma StartsAsCommitted(kind: StoreKind, digest: Digest, w: World, x: Held, runAttemptId: string, owner: string,
                          generation: nat)
    requires Kept(w, x) && Reliable(kind, digest) && !Refuses(kind, digest, w, x)
    ensures RestartHeld(kind, x, runAttemptId, owner, generation) == Restart(x.sys, runAttemptId, owner, generation)
  {
    RefusedIffGrown(kind, digest, w, x);
    LatestIsOfRun(x.sys);
    if Latest(x.sys).Some? {
      var row := Latest(x.sys).value;
      assert RowKept(w, x, row);
      ReadsBackIffNotGrown(w, x, row);
      assert row.(state := ReadBack(kind, x, row)) == row;
    }
  }

  /**
   * The latest checkpoint was committed by the last event of `before`. A restart after any further
   * history is refused if and only if the store keeps references and that checkpoint's attempt pushed
   * after it; otherwise it starts from the state that was committed.
   */
  lemma RestartIsRefusedIffPushed(kind: StoreKind, digest: Digest, w: World, first: Sys, before: seq<Event>,
                                  after: seq<Event>, row: CheckpointLog.Row, restart: Event)
    requires FirstAttempt(first) && HeldHistory(kind, digest, w, Before(first), before + after) && Reliable(kind, digest)
    requires CommittedLast(kind, digest, w, first, before, row) && restart.DoRestart?
    requires Latest(PlayHeld(kind, digest, w, Before(first), before + after).sys) == Some(row)
    ensures var z := PlayHeld(kind, digest, w, Before(first), before + after);
      var r := StepHeld(kind, digest, w, z, restart).sys;
      if kind.Referencing? && Pushed(kind, digest, w, PlayHeld(kind, digest, w, Before(first), before), after, row)
      then r == RefusedRestart(z.sys, restart.runAttemptId, restart.owner, restart.generation)
      else && r == Restart(z.sys, restart.runAttemptId, restart.owner, restart.generation)
           && r.local == Launch(r.local.id, Some(row)) && ReadBack(kind, z, row) == row.state
  {
    PlayHeldJoins(kind, digest, w, Before(first), before, after);
    CommittedIsNotGrown(kind, digest, w, first, before, row);
    ReadsBackAfter(kind, digest, w, PlayHeld(kind, digest, w, Before(first), before), after, row);
    var z := PlayHeld(kind, digest, w, Before(first), before + after);
    RefusedIffGrown(kind, digest, w, z);
    if !Refuses(kind, digest, w, z) {
      StartsAsCommitted(kind, digest, w, z, restart.runAttemptId, restart.owner, restart.generation);
    }
  }
}
