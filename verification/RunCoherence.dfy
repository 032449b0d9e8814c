/** Runs and attempts stay coherent: which operations keep it, and exactly when. */
module RunCoherence {
  import opened Common
  import opened RunStore

  // ---- Coherence of one run, from its status and its attempts ----

  datatype Slot = Slot(sequence: nat, status: AttemptState)

  /** The attempts of a run, reduced to what coherence is about. */
  function Roster(st: Store, runId: string): map<string, Slot> {
    map id | id in st.attempts && st.attempts[id].runId == runId :: Slot(st.attempts[id].sequence, st.attempts[id].status)
  }

  predicate HasSequence(m: map<string, Slot>, k: nat) {
    exists id :: id in m && m[id].sequence == k
  }

  /** The sequences are 1..n, each once. */
  ghost predicate Numbered(m: map<string, Slot>, n: nat) {
    && (forall id :: id in m ==> 1 <= m[id].sequence <= n)
    && (forall k: nat :: 1 <= k <= n ==> HasSequence(m, k))
    && (forall a, b :: a in m && b in m && m[a].sequence == m[b].sequence ==> a == b)
  }

  ghost predicate GapFree(m: map<string, Slot>) {
    exists n: nat :: n >= 1 && Numbered(m, n)
  }

  predicate ActiveIn(m: map<string, Slot>, id: string) {
    id in m && !Terminal(m[id].status)
  }

  /** The status a run's own status calls for in its one active attempt, if it calls for one. */
  function Expect(s: RunState): Option<AttemptState> {
    match s
    case PENDING => Some(AttemptState.PENDING)
    case QUEUED => Some(AttemptState.PENDING)
    case RUNNING => Some(AttemptState.RUNNING)
    case _ => None
  }

  function Activity(s: AttemptState): Option<AttemptState> {
    if Terminal(s) then None else Some(s)
  }

  predicate ActivityFits(s: RunState, m: map<string, Slot>) {
    match Expect(s)
    case None => forall id :: id in m ==> !ActiveIn(m, id)
    case Some(a) =>
      exists id :: id in m && ActiveIn(m, id) && m[id].status == a && forall j :: j in m && j != id ==> !ActiveIn(m, j)
  }

  ghost predicate RunCoherent(s: RunState, m: map<string, Slot>) {
    GapFree(m) && ActivityFits(s, m)
  }

  predicate Keyed(st: Store) {
    && (forall id :: id in st.runs ==> st.runs[id].id == id)
    && (forall id :: id in st.attempts ==> st.attempts[id].id == id && st.attempts[id].runId in st.runs)
  }

  ghost predicate Coherent(st: Store) {
    Keyed(st) && forall runId {:trigger Roster(st, runId)} :: runId in st.runs ==> RunCoherent(st.runs[runId].status, Roster(st, runId))
  }

  /** What coherence means to a reader of the store. */
  lemma CoherentRunsAreReadable(st: Store, runId: string)
    requires Coherent(st) && runId in st.runs
    ensures forall a, b :: ActiveIn(Roster(st, runId), a) && ActiveIn(Roster(st, runId), b) ==> a == b
    ensures st.runs[runId].status == RunState.QUEUED ==>
      exists id :: ActiveIn(Roster(st, runId), id) && st.attempts[id].status == AttemptState.PENDING
    ensures st.runs[runId].status == RunState.RUNNING ==>
      exists id :: ActiveIn(Roster(st, runId), id) && st.attempts[id].status == AttemptState.RUNNING
    ensures st.runs[runId].status == RunState.INTERRUPTED ==> !HasActive(st, runId)
  {
    assert RunCoherent(st.runs[runId].status, Roster(st, runId));
    if HasActive(st, runId) {
      var id :| id in st.attempts && st.attempts[id].runId == runId && Active(st.attempts[id]);
      assert ActiveIn(Roster(st, runId), id);
    }
  }

  // ---- One run's attempts as a map ----

  /** Sequences do not depend on the statuses. */
  lemma StatusKeepsNumbering(m: map<string, Slot>, id: string, state: AttemptState)
    requires id in m
    ensures GapFree(m) ==> GapFree(m[id := Slot(m[id].sequence, state)])
  {
    var m' := m[id := Slot(m[id].sequence, state)];
    if GapFree(m) {
      var n: nat :| n >= 1 && Numbered(m, n);
      forall k: nat | 1 <= k <= n
        ensures HasSequence(m', k)
      {
        assert HasSequence(m, k);
        var j :| j in m && m[j].sequence == k;
        assert j in m' && m'[j].sequence == k;
      }
      assert Numbered(m', n);
    }
  }

  /** Moving the active attempt keeps the run coherent exactly when the run moves along. */
  lemma MovingTheActiveAttempt(s: RunState, m: map<string, Slot>, s': RunState, id: string, state: AttemptState)
    requires RunCoherent(s, m) && ActiveIn(m, id)
    ensures RunCoherent(s', m[id := Slot(m[id].sequence, state)]) <==> Expect(s') == Activity(state)
  {
    var m' := m[id := Slot(m[id].sequence, state)];
    StatusKeepsNumbering(m, id, state);
    forall j | j in m' && j != id
      ensures !ActiveIn(m', j)
    {
      assert !ActiveIn(m, j);
    }
    assert id in m' && (ActiveIn(m', id) <==> !Terminal(state));
  }

  /** Moving the run alone keeps it coherent exactly when both statuses call for the same activity. */
  lemma MovingTheRunAlone(s: RunState, m: map<string, Slot>, s': RunState)
    requires RunCoherent(s, m)
    ensures RunCoherent(s', m) <==> Expect(s) == Expect(s')
  {
  }

  lemma MissingNumberIsAGap(m: map<string, Slot>, id: string, k: nat)
    requires id in m && (k == 1 || 1 <= k <= m[id].sequence)
    ensures !HasSequence(m, k) ==> !GapFree(m)
  {
  }

  lemma FirstAttemptIsCoherent(s: RunState, id: string, slot: Slot)
    ensures RunCoherent(s, map[id := slot]) <==> slot.sequence == 1 && Expect(s) == Activity(slot.status)
  {
    var m := map[id := slot];
    assert id in m;
    if slot.sequence == 1 {
      assert HasSequence(m, 1);
      assert Numbered(m, 1);
    } else {
      MissingNumberIsAGap(m, id, 1);
    }
  }

  /** A further attempt after the last one of an inactive run. */
  lemma ContinuingTheSequence(s: RunState, m: map<string, Slot>, last: string, id: string)
    requires RunCoherent(s, m) && Expect(s).None? && last in m && id !in m
    requires forall j :: j in m ==> m[j].sequence <= m[last].sequence
    ensures RunCoherent(RunState.QUEUED, m[id := Slot(m[last].sequence + 1, AttemptState.PENDING)])
  {
    var m' := m[id := Slot(m[last].sequence + 1, AttemptState.PENDING)];
    var n: nat :| n >= 1 && Numbered(m, n);
    assert HasSequence(m, n);
    forall k: nat | 1 <= k <= n + 1
      ensures HasSequence(m', k)
    {
      if k <= n {
        assert HasSequence(m, k);
        var j :| j in m && m[j].sequence == k;
        assert j in m' && m'[j].sequence == k;
      } else {
        assert id in m';
      }
    }
    assert Numbered(m', n + 1);
    forall j | j in m' && j != id
      ensures !ActiveIn(m', j)
    {
      assert !ActiveIn(m, j);
    }
    assert ActiveIn(m', id);
  }

  /** Losing an attempt goes unnoticed exactly when it was ended and the last of several. */
  lemma LosingAnAttempt(s: RunState, m: map<string, Slot>, id: string)
    requires RunCoherent(s, m) && id in m
    ensures RunCoherent(s, m - {id}) <==>
      Terminal(m[id].status) && m[id].sequence > 1 && forall j :: j in m ==> m[j].sequence <= m[id].sequence
  {
    var m' := m - {id};
    var n: nat :| n >= 1 && Numbered(m, n);
    assert !HasSequence(m', m[id].sequence);
    assert HasSequence(m, n);
    if m[id].sequence < n {
      var top :| top in m && m[top].sequence == n;
      MissingNumberIsAGap(m', top, m[id].sequence);
    } else if n == 1 {
      assert forall j :: j in m ==> j == id;
      assert m' == map[];
      assert !HasSequence(m', 1);
      assert !GapFree(m');
    } else {
      forall k: nat | 1 <= k <= n - 1
        ensures HasSequence(m', k)
      {
        assert HasSequence(m, k);
        var j :| j in m && m[j].sequence == k;
        assert j in m' && m'[j].sequence == k;
      }
      assert Numbered(m', n - 1);
      assert ActivityFits(s, m') <==> Terminal(m[id].status) by {
        if Terminal(m[id].status) {
          assert forall j :: j in m ==> (ActiveIn(m, j) <==> ActiveIn(m', j));
        } else {
          assert ActiveIn(m, id);
          assert forall j :: j in m' ==> !ActiveIn(m', j);
        }
      }
    }
  }

  // ---- How store updates show in the rosters ----

  lemma RosterAfter(st: Store, st': Store, id: string, a: Attempt, runId: string)
    requires st'.attempts == st.attempts[id := a]
    requires id in st.attempts ==> a.runId == st.attempts[id].runId
    ensures Roster(st', runId) ==
      if runId == a.runId then Roster(st, runId)[id := Slot(a.sequence, a.status)] else Roster(st, runId)
  {
  }

  /** Replacing one run and the active attempt `id`, which may belong to another run. */
  lemma MoveBoth(st: Store, st': Store, id: string, a: Attempt, runId: string, r: Run)
    requires Coherent(st) && id in st.attempts && Active(st.attempts[id]) && runId in st.runs
    requires st'.attempts == st.attempts[id := a] && st'.runs == st.runs[runId := r]
    requires a.id == id && a.runId == st.attempts[id].runId && a.sequence == st.attempts[id].sequence && r.id == runId
    requires a.status != st.attempts[id].status
    ensures Coherent(st') <==> a.runId == runId && Expect(r.status) == Activity(a.status)
  {
    var own := a.runId;
    assert RunCoherent(st.runs[own].status, Roster(st, own));
    assert ActiveIn(Roster(st, own), id);
    MovingTheActiveAttempt(st.runs[own].status, Roster(st, own), st'.runs[own].status, id, a.status);
    RosterAfter(st, st', id, a, own);
    if own == runId {
      forall other | other in st'.runs && other != own
        ensures RunCoherent(st'.runs[other].status, Roster(st', other))
      {
        RosterAfter(st, st', id, a, other);
        assert RunCoherent(st.runs[other].status, Roster(st, other));
      }
      assert Keyed(st');
    } else {
      // The attempt's own run stayed where it was, and called for the old status.
      assert st'.runs[own] == st.runs[own];
      assert Expect(st.runs[own].status) == Some(st.attempts[id].status);
      assert !RunCoherent(st'.runs[own].status, Roster(st', own));
    }
  }

  // ---- The operations ----

  /**
   * A paired transition keeps the store coherent if and only if it is matched: the stored attempt
   * belongs to the run, and the two new statuses fit each other.
   */
  lemma PairKeepsCoherenceIffMatched(st: Store, p: Pair, now: int, wall: int)
    requires Coherent(st) && TransitionPair(st, p, now, wall).Ok?
    ensures p.attempt.id in st.attempts
    ensures Coherent(TransitionPair(st, p, now, wall).value) <==>
      st.attempts[p.attempt.id].runId == p.run.id && Expect(p.run.status) == Activity(p.attempt.status)
  {
    var st' := TransitionPair(st, p, now, wall).value;
    MoveBoth(st, st', p.attempt.id, st'.attempts[p.attempt.id], p.run.id, st'.runs[p.run.id]);
  }

  /** A run transition on its own keeps coherence if and only if both states call for the same activity. */
  lemma RunAloneKeepsCoherenceIffNeutral(st: Store, expected: RunState, next: Run)
    requires Coherent(st) && TransitionRun(st, expected, next).Ok?
    ensures Coherent(TransitionRun(st, expected, next).value) <==> Expect(expected) == Expect(next.status)
  {
    var st' := TransitionRun(st, expected, next).value;
    assert forall runId :: Roster(st', runId) == Roster(st, runId);
    assert RunCoherent(expected, Roster(st, next.id));
    MovingTheRunAlone(expected, Roster(st, next.id), next.status);
    assert Keyed(st');
    assert Coherent(st') <==> RunCoherent(next.status, Roster(st', next.id));
  }

  /** An attempt transition on its own breaks coherence, always: the run stays behind with a status that no longer fits. */
  lemma AttemptAloneBreaksCoherence(st: Store, expected: AttemptState, next: Attempt)
    requires Coherent(st) && NextAttempt(st, expected, next).Ok?
    ensures !Coherent(st.(attempts := st.attempts[next.id := NextAttempt(st, expected, next).value]))
  {
    var a := NextAttempt(st, expected, next).value;
    var own := a.runId;
    assert RunCoherent(st.runs[own].status, Roster(st, own));
    assert ActiveIn(Roster(st, own), next.id);
    MovingTheActiveAttempt(st.runs[own].status, Roster(st, own), st.runs[own].status, next.id, a.status);
    var st' := st.(attempts := st.attempts[next.id := a]);
    RosterAfter(st, st', next.id, a, own);
    assert !RunCoherent(st'.runs[own].status, Roster(st', own));
  }

  /** Creation keeps coherence if and only if the attempt is the first one and fits the run. */
  lemma CreateKeepsCoherenceIffFirst(st: Store, r: Run, a: Attempt)
    requires Coherent(st) && Create(st, r, a).Ok?
    ensures Coherent(Create(st, r, a).value) <==> a.sequence == 1 && Expect(r.status) == Activity(a.status)
  {
    var st' := Create(st, r, a).value;
    FirstAttemptIsCoherent(r.status, a.id, Slot(a.sequence, a.status));
    RosterAfter(st, st', a.id, a, r.id);
    assert Roster(st, r.id) == map[];
    assert Roster(st', r.id) == map[a.id := Slot(a.sequence, a.status)];
    forall other | other in st'.runs && other != r.id
      ensures RunCoherent(st'.runs[other].status, Roster(st', other))
    {
      RosterAfter(st, st', a.id, a, other);
      assert RunCoherent(st.runs[other].status, Roster(st, other));
    }
    assert Keyed(st');
  }

  lemma FailExpiredKeepsCoherence(st: Store, id: string, generation: nat, now: int)
    requires Coherent(st) && FailExpired(st, id, generation, now).Ok?
    ensures Coherent(FailExpired(st, id, generation, now).value)
  {
    var st' := FailExpired(st, id, generation, now).value;
    var runId := st.attempts[id].runId;
    MoveBoth(st, st', id, st'.attempts[id], runId, st'.runs[runId]);
  }

  lemma InterruptKeepsCoherence(st: Store, id: string, generation: nat, metadata: string, now: int)
    requires Coherent(st) && Interrupt(st, id, generation, metadata, now).Ok?
    ensures Coherent(Interrupt(st, id, generation, metadata, now).value)
  {
    var st' := Interrupt(st, id, generation, metadata, now).value;
    var runId := st.attempts[id].runId;
    MoveBoth(st, st', id, st'.attempts[id], runId, st'.runs[runId]);
  }

  lemma RenewKeepsCoherence(st: Store, id: string, owner: string, generation: nat, now: int, ttl: int)
    requires Coherent(st) && Renew(st, id, owner, generation, now, ttl).Ok?
    ensures Coherent(Renew(st, id, owner, generation, now, ttl).value)
  {
    var st' := Renew(st, id, owner, generation, now, ttl).value;
    assert forall runId :: Roster(st', runId) == Roster(st, runId);
  }

  /** The id chosen for a recovery attempt is new, or its loss does not show. */
  predicate Spare(st: Store, runId: string, id: string) {
    || id !in st.attempts
    || (&& st.attempts[id].runId != runId && Terminal(st.attempts[id].status) && st.attempts[id].sequence > 1
        && IsLast(st, st.attempts[id].runId, id))
  }

  /** The run that takes the new attempt. */
  lemma SchedulingRun(st: Store, st': Store, runId: string, last: string, newId: string)
    requires Coherent(st) && MaySchedule(st, runId) && IsLast(st, runId, last)
    requires newId in st'.attempts && st'.attempts == st.attempts[newId := st'.attempts[newId]]
    requires var a := st'.attempts[newId];
      a.runId == runId && a.sequence == st.attempts[last].sequence + 1 && a.status == AttemptState.PENDING
    ensures RunCoherent(RunState.QUEUED, Roster(st', runId)) <==> newId !in st.attempts || st.attempts[newId].runId != runId
  {
    var m, m' := Roster(st, runId), Roster(st', runId);
    assert RunCoherent(st.runs[runId].status, m);
    assert m' == m[newId := Slot(m[last].sequence + 1, AttemptState.PENDING)];
    if newId in m {
      var lost := m[newId].sequence;
      assert forall j :: j in m' && j != newId ==> j in m && m'[j] == m[j];
      assert !HasSequence(m', lost);
      MissingNumberIsAGap(m', newId, lost);
    } else {
      ContinuingTheSequence(st.runs[runId].status, m, last, newId);
    }
  }

  /** A run whose attempt, if any, was overwritten. */
  lemma OtherRunOf(st: Store, st': Store, runId: string, newId: string, other: string)
    requires Coherent(st) && other in st.runs && other != runId
    requires newId in st'.attempts && st'.attempts == st.attempts[newId := st'.attempts[newId]] && st'.attempts[newId].runId == runId
    ensures RunCoherent(st.runs[other].status, Roster(st', other)) <==>
      newId !in st.attempts || st.attempts[newId].runId != other || Spare(st, runId, newId)
  {
    var m := Roster(st, other);
    assert RunCoherent(st.runs[other].status, m);
    if newId in m {
      assert Roster(st', other) == m - {newId};
      LosingAnAttempt(st.runs[other].status, m, newId);
      assert (forall j :: j in m ==> m[j].sequence <= m[newId].sequence) <==> IsLast(st, other, newId) by {
        if forall j :: j in m ==> m[j].sequence <= m[newId].sequence {
          forall j | j in st.attempts && st.attempts[j].runId == other
            ensures st.attempts[j].sequence <= st.attempts[newId].sequence
          {
            assert j in m;
          }
        }
      }
    } else {
      assert Roster(st', other) == m;
    }
  }

  /**
   * Scheduling a recovery attempt keeps coherence if and only if its id is new, or is that of the
   * ended, last and not only attempt of another run. The store itself does not look.
   */
  lemma ScheduleKeepsCoherenceIffSpare(st: Store, runId: string, last: string, newId: string, metadata: string, now: int)
    requires Coherent(st) && MaySchedule(st, runId) && IsLast(st, runId, last)
    requires Schedule(st, runId, last, newId, metadata, now).Ok?
    ensures Coherent(Schedule(st, runId, last, newId, metadata, now).value) <==> Spare(st, runId, newId)
  {
    var st' := Schedule(st, runId, last, newId, metadata, now).value;
    SchedulingRun(st, st', runId, last, newId);
    assert st'.runs[runId].status == RunState.QUEUED;
    forall other | other in st.runs && other != runId
      ensures RunCoherent(st.runs[other].status, Roster(st', other)) <==>
        newId !in st.attempts || st.attempts[newId].runId != other || Spare(st, runId, newId)
    {
      OtherRunOf(st, st', runId, newId, other);
    }
    assert Keyed(st');
    if newId in st.attempts {
      assert !Spare(st, runId, newId) ==>
          !RunCoherent(st'.runs[st.attempts[newId].runId].status, Roster(st', st.attempts[newId].runId));
    }
  }
}
