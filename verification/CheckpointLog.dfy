/**
 * The fenced, append-only log of run checkpoints. A row holds the state as it was committed, which is
 * what a store that copies gives back; `CheckpointReadBack` is about one that keeps references, and
 * `CheckpointRaces` about commits that overlap.
 */
module CheckpointLog {
  import opened Common
  import opened Conversation

  datatype Command = Command(
    workspaceId: string,
    runId: string,
    runAttemptId: string,
    executionGeneration: nat,
    executionOwner: string,
    cursor: Cursor,
    state: CheckpointState,
    idempotencyKey: IdemKey)

  datatype Row = Row(
    workspaceId: string,
    runId: string,
    sequence: nat,
    runAttemptId: string,
    executionGeneration: nat,
    cursor: Cursor,
    state: CheckpointState)

  /** An attempt is in the map exactly while it is tracked as running. */
  datatype Tracked = Tracked(owner: string, generation: nat)

  type IndexKey = (string, string, IdemKey)

  datatype Log = Log(rows: seq<Row>, index: map<IndexKey, Row>, attempts: map<string, Tracked>)

  datatype Outcome =
    | Committed(row: Row)
    | Duplicate(row: Row)
    | StaleGeneration
    | InvalidState

  function MaxSequence(rows: seq<Row>, runId: string): nat {
    if rows == [] then 0
    else
      var m := MaxSequence(rows[..|rows| - 1], runId);
      var last := rows[|rows| - 1];
      if last.runId == runId then Max(m, last.sequence) else m
  }

  predicate Fenced(log: Log, cmd: Command) {
    cmd.runAttemptId in log.attempts
    && log.attempts[cmd.runAttemptId] == Tracked(cmd.executionOwner, cmd.executionGeneration)
  }

  function RowFor(log: Log, cmd: Command): Row {
    Row(cmd.workspaceId, cmd.runId, MaxSequence(log.rows, cmd.runId) + 1, cmd.runAttemptId,
        cmd.executionGeneration, cmd.cursor, cmd.state)
  }

  function KeyOf(cmd: Command): IndexKey {
    (cmd.workspaceId, cmd.runId, cmd.idempotencyKey)
  }

  function Append(log: Log, cmd: Command): Log {
    log.(rows := log.rows + [RowFor(log, cmd)], index := log.index[KeyOf(cmd) := RowFor(log, cmd)])
  }

  function Decide(log: Log, cmd: Command, acceptsState: CheckpointState -> bool): Outcome {
    if !acceptsState(cmd.state) then InvalidState
    else if KeyOf(cmd) in log.index then Duplicate(log.index[KeyOf(cmd)])
    else if !Fenced(log, cmd) then StaleGeneration
    else Committed(RowFor(log, cmd))
  }

  function AfterCommit(log: Log, cmd: Command, acceptsState: CheckpointState -> bool): Log {
    if Decide(log, cmd, acceptsState).Committed? then Append(log, cmd) else log
  }

  /** The row with the greatest sequence of the run; the source sorts descending and takes the head. */
  function FindLatest(rows: seq<Row>, workspaceId: string, runId: string): Option<Row> {
    if rows == [] then None
    else
      var best := FindLatest(rows[..|rows| - 1], workspaceId, runId);
      var last := rows[|rows| - 1];
      if last.workspaceId == workspaceId && last.runId == runId
         && (best.None? || best.value.sequence < last.sequence)
      then Some(last) else best
  }

  // ---- Laws of every log that starts empty ----

  /** The rows of one run, in the order they were appended. */
  function RowsOf(rows: seq<Row>, runId: string): seq<Row> {
    if rows == [] then []
    else
      var init := RowsOf(rows[..|rows| - 1], runId);
      var last := rows[|rows| - 1];
      if last.runId == runId then init + [last] else init
  }

  ghost predicate Numbered(log: Log) {
    forall runId, i :: 0 <= i < |RowsOf(log.rows, runId)| ==> RowsOf(log.rows, runId)[i].sequence == i + 1
  }

  ghost predicate Indexed(log: Log) {
    forall k :: k in log.index ==>
      log.index[k] in log.rows && log.index[k].workspaceId == k.0 && log.index[k].runId == k.1
  }

  lemma {:induction false} MaxIsCount(log: Log, n: nat, runId: string)
    requires n <= |log.rows|
    requires forall i :: 0 <= i < |RowsOf(log.rows[..n], runId)| ==> RowsOf(log.rows[..n], runId)[i].sequence == i + 1
    ensures MaxSequence(log.rows[..n], runId) == |RowsOf(log.rows[..n], runId)|
  {
    if n > 0 {
      var rows := log.rows[..n];
      assert rows[..n - 1] == log.rows[..n - 1];
      var init := RowsOf(rows[..n - 1], runId);
      assert forall i :: 0 <= i < |init| ==> init[i] == RowsOf(rows, runId)[i];
      MaxIsCount(log, n - 1, runId);
      if rows[n - 1].runId == runId {
        assert RowsOf(rows, runId)[|init|] == rows[n - 1];
      }
    }
  }

  /** The next sequence number handed out is one more than the number of rows the run already has. */
  lemma NextSequenceIsGapFree(log: Log, cmd: Command)
    requires Numbered(log)
    ensures RowFor(log, cmd).sequence == |RowsOf(log.rows, cmd.runId)| + 1
  {
    assert log.rows[..|log.rows|] == log.rows;
    MaxIsCount(log, |log.rows|, cmd.runId);
  }

  lemma AppendKeepsNumbering(log: Log, cmd: Command)
    requires Numbered(log) && Indexed(log)
    ensures Numbered(Append(log, cmd)) && Indexed(Append(log, cmd))
  {
    NextSequenceIsGapFree(log, cmd);
    var rows := log.rows + [RowFor(log, cmd)];
    assert rows[..|rows| - 1] == log.rows;
  }

  lemma CommitKeepsNumbering(log: Log, cmd: Command, acceptsState: CheckpointState -> bool)
    requires Numbered(log) && Indexed(log)
    ensures Numbered(AfterCommit(log, cmd, acceptsState)) && Indexed(AfterCommit(log, cmd, acceptsState))
  {
    if Decide(log, cmd, acceptsState).Committed? {
      AppendKeepsNumbering(log, cmd);
    }
  }

  /** The latest record is one of the run's, in its workspace, that no other of them exceeds. */
  lemma {:induction false} LatestIsGreatest(rows: seq<Row>, workspaceId: string, runId: string)
    ensures match FindLatest(rows, workspaceId, runId)
      case None => forall r :: r in rows ==> r.workspaceId != workspaceId || r.runId != runId
      case Some(latest) =>
        && latest in rows && latest.workspaceId == workspaceId && latest.runId == runId
        && forall r :: r in rows && r.workspaceId == workspaceId && r.runId == runId ==> r.sequence <= latest.sequence
  {
    if rows != [] {
      LatestIsGreatest(rows[..|rows| - 1], workspaceId, runId);
    }
  }

  /**
   * What a commit answers and writes, by the fields of the command. An invalid state, a known key and a
   * fence that does not fit write nothing, in this order; an accepted command gets one record, numbered
   * after the run's others, that its key finds from then on.
   */
  lemma CommitIsDecided(log: Log, cmd: Command, acceptsState: CheckpointState -> bool)
    requires Numbered(log)
    ensures var key := (cmd.workspaceId, cmd.runId, cmd.idempotencyKey);
      var record := Row(cmd.workspaceId, cmd.runId, |RowsOf(log.rows, cmd.runId)| + 1, cmd.runAttemptId,
                        cmd.executionGeneration, cmd.cursor, cmd.state);
      var outcome, after := Decide(log, cmd, acceptsState), AfterCommit(log, cmd, acceptsState);
      if !acceptsState(cmd.state) then outcome == InvalidState && after == log
      else if key in log.index then outcome == Duplicate(log.index[key]) && after == log
      else if cmd.runAttemptId in log.attempts && log.attempts[cmd.runAttemptId].owner == cmd.executionOwner
              && log.attempts[cmd.runAttemptId].generation == cmd.executionGeneration
      then outcome == Committed(record) && after == Log(log.rows + [record], log.index[key := record], log.attempts)
      else outcome == StaleGeneration && after == log
  {
    NextSequenceIsGapFree(log, cmd);
  }

  lemma {:induction false} LatestIsBelow(rows: seq<Row>, workspaceId: string, runId: string, n: nat)
    requires forall r :: r in RowsOf(rows, runId) ==> r.sequence <= n
    ensures var l := FindLatest(rows, workspaceId, runId); l.Some? ==> l.value.sequence <= n
  {
    if rows != [] {
      var init := rows[..|rows| - 1];
      assert forall r :: r in RowsOf(init, runId) ==> r in RowsOf(rows, runId);
      LatestIsBelow(init, workspaceId, runId, n);
      if rows[|rows| - 1].runId == runId {
        assert rows[|rows| - 1] in RowsOf(rows, runId);
      }
    }
  }

  /** After an accepted commit the new row is what a later attempt of that run restores from. */
  lemma LatestIsLastAppend(log: Log, cmd: Command)
    requires Numbered(log)
    ensures FindLatest(Append(log, cmd).rows, cmd.workspaceId, cmd.runId) == Some(RowFor(log, cmd))
    ensures forall ws, run :: run != cmd.runId ==>
      FindLatest(Append(log, cmd).rows, ws, run) == FindLatest(log.rows, ws, run)
  {
    NextSequenceIsGapFree(log, cmd);
    var rows := Append(log, cmd).rows;
    assert rows[..|rows| - 1] == log.rows;
    LatestIsBelow(log.rows, cmd.workspaceId, cmd.runId, |RowsOf(log.rows, cmd.runId)|);
  }

  // ---- Whole histories of the log ----

  datatype Event =
    | DoCommit(cmd: Command)
    | DoTrack(runAttemptId: string, owner: string, generation: nat)
    | DoClear(clearedAttemptId: string)

  function Apply(log: Log, e: Event, acceptsState: CheckpointState -> bool): Log {
    match e
    case DoCommit(cmd) => AfterCommit(log, cmd, acceptsState)
    case DoTrack(id, owner, generation) => log.(attempts := log.attempts[id := Tracked(owner, generation)])
    case DoClear(id) => log.(attempts := log.attempts - {id})
  }

  function Play(log: Log, es: seq<Event>, acceptsState: CheckpointState -> bool): Log
    decreases |es|
  {
    if es == [] then log else Play(Apply(log, es[0], acceptsState), es[1..], acceptsState)
  }

  const Empty := Log([], map[], map[])

  /** Over any history the sequences of a run are 1..n in append order and the index only names stored rows. */
  lemma {:induction false} HistoryIsNumbered(log: Log, es: seq<Event>, acceptsState: CheckpointState -> bool)
    requires Numbered(log) && Indexed(log)
    ensures Numbered(Play(log, es, acceptsState)) && Indexed(Play(log, es, acceptsState))
    decreases |es|
  {
    if es != [] {
      match es[0] {
        case DoCommit(cmd) => CommitKeepsNumbering(log, cmd, acceptsState);
        case DoTrack(_, _, _) =>
        case DoClear(_) =>
      }
      HistoryIsNumbered(Apply(log, es[0], acceptsState), es[1..], acceptsState);
    }
  }

  /** Tracking is by attempt, with owner and generation; clearing ends it for that attempt alone. */
  lemma TrackingIsByAttempt(log: Log, id: string, owner: string, generation: nat, other: string,
                            acceptsState: CheckpointState -> bool)
    ensures var tracked, cleared := Apply(log, DoTrack(id, owner, generation), acceptsState), Apply(log, DoClear(id), acceptsState);
      && tracked.rows == cleared.rows == log.rows && tracked.index == cleared.index == log.index
      && id in tracked.attempts && tracked.attempts[id] == Tracked(owner, generation) && id !in cleared.attempts
      && (other != id ==>
            && (other in tracked.attempts <==> other in log.attempts) && (other in cleared.attempts <==> other in log.attempts)
            && (other in log.attempts ==> tracked.attempts[other] == cleared.attempts[other] == log.attempts[other]))
  {
  }

  /** Nothing committed is ever removed or replaced: rows only grow at the end and a key keeps its first record. */
  lemma {:induction false} KeysKeepTheirRecord(log: Log, es: seq<Event>, acceptsState: CheckpointState -> bool)
    ensures log.rows <= Play(log, es, acceptsState).rows
    ensures forall k :: k in log.index ==>
      k in Play(log, es, acceptsState).index && Play(log, es, acceptsState).index[k] == log.index[k]
    decreases |es|
  {
    if es != [] {
      KeysKeepTheirRecord(Apply(log, es[0], acceptsState), es[1..], acceptsState);
    }
  }

  /**
   * A retried commit, however much later and under whatever owner, is answered with the record
   * its key got the first time (or refused because its state is invalid), and appends nothing.
   */
  lemma RetryReturnsFirstRecord(log: Log, first: Command, es: seq<Event>, retry: Command,
                                acceptsState: CheckpointState -> bool)
    requires Decide(log, first, acceptsState).Committed? && KeyOf(retry) == KeyOf(first)
    ensures var later := Play(AfterCommit(log, first, acceptsState), es, acceptsState);
      && Decide(later, retry, acceptsState)
         == (if acceptsState(retry.state) then Duplicate(RowFor(log, first)) else InvalidState)
      && AfterCommit(later, retry, acceptsState) == later
  {
    KeysKeepTheirRecord(AfterCommit(log, first, acceptsState), es, acceptsState);
  }

  /** A row is written only for the owner and generation tracked for its attempt at that moment. */
  lemma OnlyTheTrackedOwnerWrites(log: Log, cmd: Command, acceptsState: CheckpointState -> bool)
    ensures AfterCommit(log, cmd, acceptsState).rows != log.rows <==>
      && acceptsState(cmd.state)
      && KeyOf(cmd) !in log.index
      && cmd.runAttemptId in log.attempts
      && log.attempts[cmd.runAttemptId].owner == cmd.executionOwner
      && log.attempts[cmd.runAttemptId].generation == cmd.executionGeneration
  {
  }

  class MemoryRunCheckpointRepository {
    const acceptsState: CheckpointState -> bool
    var checkpoints: seq<Row>
    var idempotencyIndex: map<IndexKey, Row>
    var attempts: map<string, Tracked>

    ghost function State(): Log
      reads this
    {
      Log(checkpoints, idempotencyIndex, attempts)
    }

    constructor (acceptsState: CheckpointState -> bool)
      ensures State() == Empty && this.acceptsState == acceptsState
    {
      this.acceptsState := acceptsState;
      checkpoints, idempotencyIndex, attempts := [], map[], map[];
    }

    method TrackRunningAttempt(runAttemptId: string, owner: string, generation: nat)
      modifies this
      ensures State() == Apply(old(State()), DoTrack(runAttemptId, owner, generation), acceptsState)
    {
      attempts := attempts[runAttemptId := Tracked(owner, generation)];
    }

    method ClearAttempt(runAttemptId: string)
      modifies this
      ensures State() == Apply(old(State()), DoClear(runAttemptId), acceptsState)
    {
      attempts := attempts - {runAttemptId};
    }

    method Commit(cmd: Command) returns (outcome: Outcome)
      modifies this
      ensures State() == AfterCommit(old(State()), cmd, acceptsState)
      ensures outcome == Decide(old(State()), cmd, acceptsState)
    {
      if !acceptsState(cmd.state) {
        return InvalidState;
      }
      var key := (cmd.workspaceId, cmd.runId, cmd.idempotencyKey);
      if key in idempotencyIndex {
        return Duplicate(idempotencyIndex[key]);
      }
      if cmd.runAttemptId !in attempts
         || attempts[cmd.runAttemptId].generation != cmd.executionGeneration
         || attempts[cmd.runAttemptId].owner != cmd.executionOwner {
        return StaleGeneration;
      }
      var max := 0;
      for i := 0 to |checkpoints|
        invariant max == MaxSequence(checkpoints[..i], cmd.runId)
        invariant State() == old(State())
      {
        assert checkpoints[..i + 1][..i] == checkpoints[..i];
        if checkpoints[i].runId == cmd.runId && max < checkpoints[i].sequence {
          max := checkpoints[i].sequence;
        }
      }
      assert checkpoints[..|checkpoints|] == checkpoints;
      var row := Row(cmd.workspaceId, cmd.runId, max + 1, cmd.runAttemptId,
                     cmd.executionGeneration, cmd.cursor, cmd.state);
      checkpoints := checkpoints + [row];
      idempotencyIndex := idempotencyIndex[key := row];
      return Committed(row);
    }

    method FindLatestByRun(workspaceId: string, runId: string) returns (latest: Option<Row>)
      ensures latest == FindLatest(checkpoints, workspaceId, runId)
    {
      latest := None;
      for i := 0 to |checkpoints|
        invariant latest == FindLatest(checkpoints[..i], workspaceId, runId)
      {
        assert checkpoints[..i + 1][..i] == checkpoints[..i];
        var row := checkpoints[i];
        if row.workspaceId == workspaceId && row.runId == runId
           && (latest.None? || latest.value.sequence < row.sequence) {
          latest := Some(row);
        }
      }
      assert checkpoints[..|checkpoints|] == checkpoints;
    }
  }
}
