/** Cron schedules and their occurrences: materialisation of due schedules, and what every history keeps. */
module Schedules {
  import opened Common

  /** Identifiers are numbered in the order in which the source compares them. */
  type Id = int

  /** `plan` stands for the agent, its version and the input, which an occurrence copies. */
  datatype Schedule = Schedule(
    cronExpression: string,
    timezone: string,
    plan: string,
    enabled: bool,
    nextRunAt: Option<int>,
    updatedAt: int)

  datatype Occurrence = Occurrence(
    scheduleId: Id,
    plan: string,
    scheduledFor: int,
    createdAt: int,
    runId: Option<string>,
    dispatchedAt: Option<int>)

  /** The next instant of a cron expression in a timezone after a given one. */
  type Cron = (string, string, int) -> int

  ghost predicate StrictlyAfter(cron: Cron) {
    forall expression, timezone, after :: cron(expression, timezone, after) > after
  }

  datatype Store = Store(schedules: map<Id, Schedule>, occurrences: map<Id, Occurrence>, taken: set<(Id, int)>)

  // ---- Which schedules are due ----

  predicate Due(st: Store, id: Id, now: int) {
    && id in st.schedules && st.schedules[id].enabled
    && st.schedules[id].nextRunAt.Some? && st.schedules[id].nextRunAt.value <= now
  }

  function DueSet(st: Store, now: int): set<Id> {
    set id | id in st.schedules && Due(st, id, now)
  }

  predicate CanFire(st: Store, id: Id) {
    id in st.schedules && st.schedules[id].nextRunAt.Some?
  }

  /** Earlier next run first, then the smaller id. */
  predicate Before(st: Store, a: Id, b: Id) {
    && CanFire(st, a) && CanFire(st, b)
    && var s, t := st.schedules[a].nextRunAt.value, st.schedules[b].nextRunAt.value;
       s < t || (s == t && a < b)
  }

  /** The first `limit` due schedules, in order. */
  predicate Earliest(st: Store, now: int, limit: nat, due: seq<Id>) {
    && |due| <= limit
    && (forall i :: 0 <= i < |due| ==> Due(st, due[i], now))
    && (forall i, j :: 0 <= i < j < |due| ==> Before(st, due[i], due[j]))
    && (forall id :: id in DueSet(st, now) && id !in due ==>
          |due| == limit && forall i :: 0 <= i < |due| ==> Before(st, due[i], id))
  }

  // ---- Materialisation ----

  /** Firing one schedule; nothing happens for an instant that has its occurrence already. */
  function Fire(st: Store, id: Id, newId: Id, now: int, cron: Cron): (Store, seq<Occurrence>)
    requires CanFire(st, id)
  {
    var s := st.schedules[id];
    var at := s.nextRunAt.value;
    if (id, at) in st.taken then (st, [])
    else
      var o := Occurrence(id, s.plan, at, now, None, None);
      (Store(st.schedules[id := s.(nextRunAt := Some(cron(s.cronExpression, s.timezone, now)), updatedAt := now)],
             st.occurrences[newId := o],
             st.taken + {(id, at)}),
       [o])
  }

  /** Firing the schedules of `due` in order: the store afterwards, and the occurrences made. */
  function FireAll(st: Store, due: seq<Id>, newIds: seq<Id>, now: int, cron: Cron): (Store, seq<Occurrence>)
    requires |newIds| >= |due|
    decreases |due|
  {
    if due == [] then (st, [])
    else
      var last := |due| - 1;
      var (before, made) := FireAll(st, due[..last], newIds, now, cron);
      if !CanFire(before, due[last]) then (before, made)
      else
        var (after, more) := Fire(before, due[last], newIds[last], now, cron);
        (after, made + more)
  }

  /** A schedule that is not fired stays as it is. */
  lemma {:induction false} FireAllFrames(st: Store, due: seq<Id>, newIds: seq<Id>, now: int, cron: Cron, id: Id)
    requires |newIds| >= |due| && id !in due
    ensures var st' := FireAll(st, due, newIds, now, cron).0;
      && (id in st.schedules <==> id in st'.schedules)
      && (id in st.schedules ==> st'.schedules[id] == st.schedules[id])
    decreases |due|
  {
    if due != [] {
      FireAllFrames(st, due[..|due| - 1], newIds, now, cron, id);
    }
  }

  lemma SomeMember(s: set<Id>)
    ensures s == {} || exists id :: id in s
  {
    if forall id :: id !in s {
      assert s == {};
    }
  }

  class MemoryScheduleRepository {
    var schedules: map<Id, Schedule>
    var occurrences: map<Id, Occurrence>
    var occurrenceUniqueKeys: set<(Id, int)>

    ghost function State(): Store
      reads this
    {
      Store(schedules, occurrences, occurrenceUniqueKeys)
    }

    constructor ()
      ensures State() == Store(map[], map[], {})
    {
      schedules, occurrences, occurrenceUniqueKeys := map[], map[], {};
    }

    /** Where a due schedule belongs among those already in order. */
    method PlaceFor(due: seq<Id>, id: Id) returns (k: nat)
      requires CanFire(State(), id) && id !in due && forall i :: 0 <= i < |due| ==> CanFire(State(), due[i])
      requires forall i, j :: 0 <= i < j < |due| ==> Before(State(), due[i], due[j])
      ensures k <= |due|
      ensures forall i :: 0 <= i < k ==> Before(State(), due[i], id)
      ensures forall i :: k <= i < |due| ==> Before(State(), id, due[i])
    {
      var at := schedules[id].nextRunAt.value;
      k := |due|;
      while k > 0 && (var t := schedules[due[k - 1]].nextRunAt.value; at < t || (at == t && id < due[k - 1]))
        invariant k <= |due|
        invariant forall i :: k <= i < |due| ==> Before(State(), id, due[i])
      {
        k := k - 1;
      }
    }

    /** Filter and sort: every due schedule, in order, put in place one by one. */
    method SortedDue(now: int) returns (due: seq<Id>)
      ensures forall i :: 0 <= i < |due| ==> Due(State(), due[i], now)
      ensures forall i, j :: 0 <= i < j < |due| ==> Before(State(), due[i], due[j])
      ensures forall id :: id in DueSet(State(), now) ==> id in due
    {
      due := [];
      var left := schedules.Keys;
      while left != {}
        invariant left <= schedules.Keys
        invariant forall i :: 0 <= i < |due| ==> Due(State(), due[i], now) && due[i] !in left
        invariant forall i, j :: 0 <= i < j < |due| ==> Before(State(), due[i], due[j])
        invariant forall id :: id in DueSet(State(), now) && id !in left ==> id in due
        decreases left
      {
        SomeMember(left);
        var id :| id in left;
        left := left - {id};
        var s := schedules[id];
        if s.enabled && s.nextRunAt.Some? && s.nextRunAt.value <= now {
          var k := PlaceFor(due, id);
          ghost var was := due;
          due := due[..k] + [id] + due[k..];
          assert forall x :: x in due <==> x in was || x == id;
        }
      }
    }

    method MaterializeDueOccurrences(now: int, limit: nat, newIds: seq<Id>, cron: Cron)
      returns (materialized: seq<Occurrence>, ghost due: seq<Id>)
      requires |newIds| >= limit
      modifies this
      ensures Earliest(old(State()), now, limit, due)
      ensures (State(), materialized) == FireAll(old(State()), due, newIds, now, cron)
    {
      ghost var st := State();
      var all := SortedDue(now);
      var list := if |all| > limit then all[..limit] else all;
      due := list;
      EarliestOfSorted(st, now, limit, all, list);
      var snapshot := schedules;
      materialized := [];
      for i := 0 to |list|
        invariant (State(), materialized) == FireAll(st, list[..i], newIds, now, cron)
      {
        var id := list[i];
        assert id !in list[..i];
        FireAllFrames(st, list[..i], newIds, now, cron, id);
        assert list[..i + 1][..i] == list[..i];
        assert materialized + [] == materialized;
        var schedule := snapshot[id];
        if schedule.nextRunAt.None? { continue; }
        var scheduledFor := schedule.nextRunAt.value;
        if (id, scheduledFor) in occurrenceUniqueKeys { continue; }
        var occurrence := Occurrence(id, schedule.plan, scheduledFor, now, None, None);
        schedules := schedules[id := schedule.(
          nextRunAt := Some(cron(schedule.cronExpression, schedule.timezone, now)), updatedAt := now)];
        occurrences := occurrences[newIds[i] := occurrence];
        occurrenceUniqueKeys := occurrenceUniqueKeys + {(id, scheduledFor)};
        materialized := materialized + [occurrence];
      }
      assert list[..|list|] == list;
    }

    method AttachOccurrenceRunId(id: Id, runId: string) returns (r: Result<Occurrence, ()>)
      modifies this`occurrences
      ensures r == Attached(old(State()), id, runId)
      ensures occurrences == if r.Ok? then old(occurrences)[id := r.value] else old(occurrences)
    {
      if id !in occurrences { return Err(()); }
      var existing := occurrences[id];
      if existing.runId.Some? && existing.runId != Some(runId) { return Err(()); }
      if runId == "" { return Err(()); }
      occurrences := occurrences[id := existing.(runId := Some(runId))];
      return Ok(occurrences[id]);
    }

    method MarkOccurrenceDispatched(id: Id, at: int) returns (r: Result<Occurrence, ()>)
      modifies this`occurrences
      ensures r == Dispatched(old(State()), id, at)
      ensures occurrences == if r.Ok? then old(occurrences)[id := r.value] else old(occurrences)
    {
      if id !in occurrences { return Err(()); }
      var existing := occurrences[id];
      if existing.dispatchedAt.Some? { return Ok(existing); }
      occurrences := occurrences[id := existing.(dispatchedAt := Some(at))];
      return Ok(occurrences[id]);
    }
  }

  lemma EarliestOfSorted(st: Store, now: int, limit: nat, all: seq<Id>, list: seq<Id>)
    requires forall i :: 0 <= i < |all| ==> Due(st, all[i], now)
    requires forall i, j :: 0 <= i < j < |all| ==> Before(st, all[i], all[j])
    requires forall id :: id in DueSet(st, now) ==> id in all
    requires list == if |all| > limit then all[..limit] else all
    ensures Earliest(st, now, limit, list)
  {
  }

  function Attached(st: Store, id: Id, runId: string): Result<Occurrence, ()> {
    if id !in st.occurrences || (st.occurrences[id].runId.Some? && st.occurrences[id].runId != Some(runId)) || runId == ""
    then Err(())
    else Ok(st.occurrences[id].(runId := Some(runId)))
  }

  function Dispatched(st: Store, id: Id, at: int): Result<Occurrence, ()> {
    if id !in st.occurrences then Err(())
    else if st.occurrences[id].dispatchedAt.Some? then Ok(st.occurrences[id])
    else Ok(st.occurrences[id].(dispatchedAt := Some(at)))
  }
}
