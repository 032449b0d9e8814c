/**
 * Overlapping commits. A commit waits for the answer of its duplicate check before it goes on to the
 * fence and the write, so that another commit can come in between.
 */
module CheckpointRaces {
  import opened Common
  import opened Conversation
  import opened CheckpointLog

  datatype Phase = Started | Looked(found: Option<Row>) | Done(outcome: Outcome)

  datatype Committer = Committer(cmd: Command, phase: Phase)

  datatype World = World(log: Log, committers: seq<Committer>)

  datatype Action = Run(i: nat) | Track(runAttemptId: string, owner: string, generation: nat) | Clear(clearedAttemptId: string)

  /** The next step of a commit: validate and look the key up, then answer, or check the fence and write. */
  function Advance(log: Log, c: Committer, acceptsState: CheckpointState -> bool): (Log, Phase) {
    match c.phase
    case Started =>
      (log, if !acceptsState(c.cmd.state) then Done(InvalidState)
            else Looked(if KeyOf(c.cmd) in log.index then Some(log.index[KeyOf(c.cmd)]) else None))
    case Looked(Some(row)) => (log, Done(Duplicate(row)))
    case Looked(None) =>
      if !Fenced(log, c.cmd) then (log, Done(StaleGeneration))
      else (Append(log, c.cmd), Done(Committed(RowFor(log, c.cmd))))
    case Done(_) => (log, c.phase)
  }

  function Step(s: World, a: Action, acceptsState: CheckpointState -> bool): World {
    match a
    case Run(i) =>
      if i >= |s.committers| then s
      else
        var (log, phase) := Advance(s.log, s.committers[i], acceptsState);
        World(log, s.committers[i := s.committers[i].(phase := phase)])
    case Track(id, owner, generation) => s.(log := s.log.(attempts := s.log.attempts[id := Tracked(owner, generation)]))
    case Clear(id) => s.(log := s.log.(attempts := s.log.attempts - {id}))
  }

  function Play(s: World, h: seq<Action>, acceptsState: CheckpointState -> bool): World
    decreases |h|
  {
    if h == [] then s else Play(Step(s, h[0], acceptsState), h[1..], acceptsState)
  }

  /** A commit nobody comes in between of does what the whole commit does. */
  lemma UninterruptedCommit(s: World, i: nat, acceptsState: CheckpointState -> bool)
    requires i < |s.committers| && s.committers[i].phase.Started?
    ensures var r := Step(Step(s, Run(i), acceptsState), Run(i), acceptsState);
      && r.log == AfterCommit(s.log, s.committers[i].cmd, acceptsState)
      && r.committers[i].phase == Done(Decide(s.log, s.committers[i].cmd, acceptsState))
  {
  }

  /** The action writes a record under the key: its commit found none when it looked, and passes the fence now. */
  predicate Writes(s: World, a: Action, k: IndexKey) {
    && a.Run? && a.i < |s.committers| && InFlight(s.committers[a.i], k)
    && Fenced(s.log, s.committers[a.i].cmd)
  }

  /** A commit of the key that found no record and has not gone on yet. */
  predicate InFlight(c: Committer, k: IndexKey) {
    c.phase == Looked(None) && KeyOf(c.cmd) == k
  }

  predicate Racing(s: World, k: IndexKey) {
    exists i :: 0 <= i < |s.committers| && InFlight(s.committers[i], k)
  }

  /** One of the actions writes a record under the key. */
  predicate WritesIn(s: World, h: seq<Action>, k: IndexKey, acceptsState: CheckpointState -> bool)
    decreases |h|
  {
    h != [] && (Writes(s, h[0], k) || WritesIn(Step(s, h[0], acceptsState), h[1..], k, acceptsState))
  }

  lemma StepIsAppendOrQuiet(s: World, a: Action, acceptsState: CheckpointState -> bool)
    ensures var r := Step(s, a, acceptsState);
      if exists k :: Writes(s, a, k)
      then && Writes(s, a, KeyOf(s.committers[a.i].cmd)) && r.log == Append(s.log, s.committers[a.i].cmd)
           && Fenced(s.log, s.committers[a.i].cmd)
      else r.log.rows == s.log.rows && r.log.index == s.log.index
  {
    if a.Run? && a.i < |s.committers| && s.committers[a.i].phase == Looked(None) && Fenced(s.log, s.committers[a.i].cmd) {
      assert Writes(s, a, KeyOf(s.committers[a.i].cmd));
    }
  }

  /**
   * Numbering and fence survive every overlap: the sequences of a run are 1 to n, records are only
   * appended, and each by a commit whose owner and generation are tracked at that moment.
   */
  lemma {:induction false} RacesKeepNumbering(s: World, h: seq<Action>, acceptsState: CheckpointState -> bool)
    requires Numbered(s.log) && Indexed(s.log)
    ensures var r := Play(s, h, acceptsState).log; Numbered(r) && Indexed(r) && s.log.rows <= r.rows
    decreases |h|
  {
    if h != [] {
      StepIsAppendOrQuiet(s, h[0], acceptsState);
      if exists k :: Writes(s, h[0], k) {
        AppendKeepsNumbering(s.log, s.committers[h[0].i].cmd);
      }
      RacesKeepNumbering(Step(s, h[0], acceptsState), h[1..], acceptsState);
    }
  }

  lemma {:induction false} RowIsOfItsRun(rows: seq<Row>, row: Row)
    requires row in rows
    ensures row in RowsOf(rows, row.runId)
  {
    if row != rows[|rows| - 1] {
      RowIsOfItsRun(rows[..|rows| - 1], row);
    }
  }

  /** A new record of a key has a greater sequence than the one it takes the place of. */
  lemma NextIsGreater(log: Log, cmd: Command)
    requires Numbered(log) && Indexed(log) && KeyOf(cmd) in log.index
    ensures log.index[KeyOf(cmd)].sequence < RowFor(log, cmd).sequence
  {
    NextSequenceIsGapFree(log, cmd);
    RowIsOfItsRun(log.rows, log.index[KeyOf(cmd)]);
  }

  /** A key gives the record it gave before if and only if no commit of it has written since. */
  lemma {:induction false} KeyKeepsItsRecordIffNoOtherWrite(s: World, h: seq<Action>, k: IndexKey,
                                                            acceptsState: CheckpointState -> bool)
    requires Numbered(s.log) && Indexed(s.log) && k in s.log.index
    ensures var r := Play(s, h, acceptsState).log;
      && k in r.index && s.log.index[k].sequence <= r.index[k].sequence
      && (r.index[k] == s.log.index[k] <==> !WritesIn(s, h, k, acceptsState))
      && (WritesIn(s, h, k, acceptsState) ==> s.log.index[k].sequence < r.index[k].sequence)
    decreases |h|
  {
    if h != [] {
      var t := Step(s, h[0], acceptsState);
      StepIsAppendOrQuiet(s, h[0], acceptsState);
      RacesKeepNumbering(s, [h[0]], acceptsState);
      assert Play(s, [h[0]], acceptsState) == t;
      if exists j :: Writes(s, h[0], j) {
        var cmd := s.committers[h[0].i].cmd;
        if KeyOf(cmd) == k {
          NextIsGreater(s.log, cmd);
        } else {
          assert !Writes(s, h[0], k);
        }
      } else {
        assert !Writes(s, h[0], k);
      }
      KeyKeepsItsRecordIffNoOtherWrite(t, h[1..], k, acceptsState);
    }
  }

  /** Once a key has a record, no further commit of it can come to be in flight. */
  lemma {:induction false} NoRaceNoWrite(s: World, h: seq<Action>, k: IndexKey, acceptsState: CheckpointState -> bool)
    requires k in s.log.index && !Racing(s, k)
    ensures !WritesIn(s, h, k, acceptsState)
    decreases |h|
  {
    if h != [] {
      StepIsAppendOrQuiet(s, h[0], acceptsState);
      var t := Step(s, h[0], acceptsState);
      assert forall i :: 0 <= i < |t.committers| && InFlight(t.committers[i], k) ==> InFlight(s.committers[i], k);
      NoRaceNoWrite(t, h[1..], k, acceptsState);
    }
  }

  lemma RaceIsWon(s: World, k: IndexKey, i: nat, acceptsState: CheckpointState -> bool) returns (h: seq<Action>)
    requires i < |s.committers| && InFlight(s.committers[i], k)
    ensures WritesIn(s, h, k, acceptsState)
  {
    var cmd := s.committers[i].cmd;
    h := [Track(cmd.runAttemptId, cmd.executionOwner, cmd.executionGeneration), Run(i)];
    assert h[1..] == [Run(i)];
    var t := Step(s, h[0], acceptsState);
    assert Writes(t, Run(i), k);
    assert WritesIn(t, [Run(i)], k, acceptsState);
  }

  predicate Replaced(s: World, h: seq<Action>, k: IndexKey, acceptsState: CheckpointState -> bool)
    requires k in s.log.index
  {
    var r := Play(s, h, acceptsState).log;
    k !in r.index || r.index[k] != s.log.index[k]
  }

  /**
   * A record can still be replaced if and only if a commit of its key looked before the record was
   * there and has not gone on: exactly the overlapping commits endanger it.
   */
  lemma RecordCanChangeIffRacing(s: World, k: IndexKey, acceptsState: CheckpointState -> bool)
    requires Numbered(s.log) && Indexed(s.log) && k in s.log.index
    ensures (exists h :: Replaced(s, h, k, acceptsState)) <==> Racing(s, k)
  {
    if i: nat :| i < |s.committers| && InFlight(s.committers[i], k) {
      var h := RaceIsWon(s, k, i, acceptsState);
      KeyKeepsItsRecordIffNoOtherWrite(s, h, k, acceptsState);
      assert Replaced(s, h, k, acceptsState);
    }
    if h :| Replaced(s, h, k, acceptsState) {
      KeyKeepsItsRecordIffNoOtherWrite(s, h, k, acceptsState);
      if !Racing(s, k) {
        NoRaceNoWrite(s, h, k, acceptsState);
      }
    }
  }
}
