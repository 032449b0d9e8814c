/**
 * Starvation. A tick takes the first `limit` due schedules before it skips the frozen ones, so frozen
 * schedules use up places of the tick without ever giving them back.
 */
module ScheduleStarvation {
  import opened Common
  import opened Schedules
  import opened ScheduleHistory

  // ---- What a tick does to one schedule ----

  lemma {:induction false} TakenFrames(st: Store, due: seq<Id>, newIds: seq<Id>, now: int, cron: Cron, id: Id, t: int)
    requires |newIds| >= |due| && id !in due
    ensures (id, t) in FireAll(st, due, newIds, now, cron).0.taken <==> (id, t) in st.taken
    decreases |due|
  {
    if due != [] {
      TakenFrames(st, due[..|due| - 1], newIds, now, cron, id, t);
    }
  }

  /** A schedule that is not taken keeps its record, and stays frozen or not. */
  lemma NotTaken(st: Store, due: seq<Id>, newIds: seq<Id>, now: int, cron: Cron, id: Id)
    requires |newIds| >= |due| && id !in due && id in st.schedules
    ensures var st' := FireAll(st, due, newIds, now, cron).0;
      id in st'.schedules && st'.schedules[id] == st.schedules[id] && (Frozen(st', id) <==> Frozen(st, id))
  {
    FireAllFrames(st, due, newIds, now, cron, id);
    if CanFire(st, id) {
      TakenFrames(st, due, newIds, now, cron, id, st.schedules[id].nextRunAt.value);
    }
  }

  /** A schedule that is taken moves on to its next instant, unless it is frozen: then it stays as it is. */
  lemma {:induction false} TakenFiresUnlessFrozen(st: Store, due: seq<Id>, newIds: seq<Id>, now: int, cron: Cron, id: Id)
    requires |newIds| >= |due| && Distinct(due) && id in due && CanFire(st, id)
    ensures var st' := FireAll(st, due, newIds, now, cron).0;
      && CanFire(st', id)
      && if Frozen(st, id) then Frozen(st', id) && st'.schedules[id] == st.schedules[id]
         else st'.schedules[id].nextRunAt == Some(cron(st.schedules[id].cronExpression, st.schedules[id].timezone, now))
    decreases |due|
  {
    var front := due[..|due| - 1];
    if Frozen(st, id) {
      FrozenScheduleNeverFires(st, due, newIds, now, cron, id);
    } else if id in front {
      TakenFiresUnlessFrozen(st, front, newIds, now, cron, id);
    } else {
      NotTaken(st, front, newIds, now, cron, id);
    }
  }

  /** So at its own instant a tick leaves due what it did not take and what is frozen. */
  lemma TickLeavesDue(st: Store, limit: nat, due: seq<Id>, newIds: seq<Id>, now: int, cron: Cron, id: Id)
    requires StrictlyAfter(cron) && Earliest(st, now, limit, due) && |newIds| >= |due| && id in st.schedules
    ensures var st' := FireAll(st, due, newIds, now, cron).0;
      && id in st'.schedules
      && (Due(st', id, now) <==> Due(st, id, now) && (id in due ==> Frozen(st, id)))
      && (Due(st', id, now) ==> st'.schedules[id] == st.schedules[id] && (Frozen(st', id) <==> Frozen(st, id)))
  {
    EarliestIsAllDue(st, now, limit, due);
    if id in due {
      TakenFiresUnlessFrozen(st, due, newIds, now, cron, id);
    } else {
      NotTaken(st, due, newIds, now, cron, id);
    }
  }

  lemma {:induction false} SchedulesStay(st: Store, due: seq<Id>, newIds: seq<Id>, now: int, cron: Cron)
    requires |newIds| >= |due|
    ensures FireAll(st, due, newIds, now, cron).0.schedules.Keys == st.schedules.Keys
    decreases |due|
  {
    if due != [] {
      SchedulesStay(st, due[..|due| - 1], newIds, now, cron);
    }
  }

  // ---- Starved for ever ----

  datatype Pass = Pass(at: int, due: seq<Id>, newIds: seq<Id>)

  /** Ticks at any instants from `now` on. */
  predicate TicksFrom(st: Store, ticks: seq<Pass>, limit: nat, now: int, cron: Cron)
    decreases |ticks|
  {
    ticks == [] ||
    (var t := ticks[0];
     && now <= t.at && Earliest(st, t.at, limit, t.due) && |t.newIds| >= |t.due|
     && TicksFrom(FireAll(st, t.due, t.newIds, t.at, cron).0, ticks[1..], limit, now, cron))
  }

  function AfterAll(st: Store, ticks: seq<Pass>, cron: Cron): Store
    decreases |ticks|
  {
    if ticks == [] || |ticks[0].newIds| < |ticks[0].due| then st
    else AfterAll(FireAll(st, ticks[0].due, ticks[0].newIds, ticks[0].at, cron).0, ticks[1..], cron)
  }

  /** The frozen schedules that come before this one among the due. */
  function FrozenAhead(st: Store, id: Id, now: int): set<Id> {
    set j | j in st.schedules && Due(st, j, now) && Frozen(st, j) && Before(st, j, id)
  }

  /** The others that do. */
  function UnfrozenAhead(st: Store, id: Id, now: int): set<Id> {
    set j | j in st.schedules && Due(st, j, now) && !Frozen(st, j) && Before(st, j, id)
  }

  lemma CrowdedOut(st: Store, limit: nat, due: seq<Id>, now: int, at: int, id: Id)
    requires now <= at && Earliest(st, at, limit, due) && |FrozenAhead(st, id, now)| >= limit
    ensures id !in due
  {
    if i :| 0 <= i < |due| && due[i] == id {
      EarliestIsAllDue(st, at, limit, due);
      var front := set x | x in due[..i];
      DistinctHaveSize(due[..i]);
      forall j | j in FrozenAhead(st, id, now)
        ensures j in front
      {
        assert j in DueSet(st, at);
        assert j in due;
      }
      SubsetSize(FrozenAhead(st, id, now), front);
    }
  }

  lemma StillAhead(st: Store, limit: nat, t: Pass, now: int, cron: Cron, id: Id)
    requires now <= t.at && Earliest(st, t.at, limit, t.due) && |t.newIds| >= |t.due|
    requires |FrozenAhead(st, id, now)| >= limit && id in st.schedules
    ensures var st' := FireAll(st, t.due, t.newIds, t.at, cron).0;
      && id in st'.schedules && st'.schedules[id] == st.schedules[id] && (Frozen(st', id) <==> Frozen(st, id))
      && |FrozenAhead(st', id, now)| >= limit
  {
    var st' := FireAll(st, t.due, t.newIds, t.at, cron).0;
    CrowdedOut(st, limit, t.due, now, t.at, id);
    NotTaken(st, t.due, t.newIds, t.at, cron, id);
    forall j | j in FrozenAhead(st, id, now)
      ensures j in FrozenAhead(st', id, now)
    {
      FrozenScheduleNeverFires(st, t.due, t.newIds, t.at, cron, j);
    }
    SubsetSize(FrozenAhead(st, id, now), FrozenAhead(st', id, now));
  }

  /**
   * With as many frozen schedules before it as a tick takes, a schedule is never reached, at whatever
   * instants the ticks come.
   */
  lemma {:induction false} StarvedForever(st: Store, ticks: seq<Pass>, limit: nat, now: int, cron: Cron, id: Id)
    requires id in st.schedules && |FrozenAhead(st, id, now)| >= limit && TicksFrom(st, ticks, limit, now, cron)
    ensures var st' := AfterAll(st, ticks, cron); id in st'.schedules && st'.schedules[id] == st.schedules[id]
    decreases |ticks|
  {
    if ticks != [] {
      StillAhead(st, limit, ticks[0], now, cron, id);
      StarvedForever(FireAll(st, ticks[0].due, ticks[0].newIds, ticks[0].at, cron).0, ticks[1..], limit, now, cron, id);
    }
  }

  // ---- And reached otherwise ----

  /** A tick that does not reach the schedule fires one that comes before it. */
  lemma SomethingElseFires(st: Store, limit: nat, due: seq<Id>, now: int, id: Id) returns (x: Id)
    requires Earliest(st, now, limit, due) && Due(st, id, now) && id !in due && |FrozenAhead(st, id, now)| < limit
    ensures x in due && x in UnfrozenAhead(st, id, now)
  {
    EarliestIsAllDue(st, now, limit, due);
    DistinctHaveSize(due);
    assert id in DueSet(st, now);
    if forall y :: y in due ==> Frozen(st, y) {
      SubsetSize((set y | y in due), FrozenAhead(st, id, now));
      assert false;
    }
    x :| x in due && !Frozen(st, x);
  }

  /** It is then one tick nearer, with no more frozen schedules before it. */
  lemma OneNearer(st: Store, limit: nat, due: seq<Id>, newIds: seq<Id>, now: int, cron: Cron, id: Id)
    requires StrictlyAfter(cron) && Earliest(st, now, limit, due) && |newIds| >= |due|
    requires Due(st, id, now) && id !in due && |FrozenAhead(st, id, now)| < limit
    ensures var st' := FireAll(st, due, newIds, now, cron).0;
      && |FrozenAhead(st', id, now)| < limit
      && |UnfrozenAhead(st', id, now)| < |UnfrozenAhead(st, id, now)|
  {
    var st' := FireAll(st, due, newIds, now, cron).0;
    TickLeavesDue(st, limit, due, newIds, now, cron, id);
    SchedulesStay(st, due, newIds, now, cron);
    forall j | j in st'.schedules && Due(st', j, now)
      ensures Due(st, j, now) && st'.schedules[j] == st.schedules[j] && (Frozen(st', j) <==> Frozen(st, j))
      ensures j in due ==> Frozen(st, j)
    {
      TickLeavesDue(st, limit, due, newIds, now, cron, j);
    }
    SubsetSize(FrozenAhead(st', id, now), FrozenAhead(st, id, now));
    var x := SomethingElseFires(st, limit, due, now, id);
    assert UnfrozenAhead(st', id, now) <= UnfrozenAhead(st, id, now) - {x};
    SubsetSize(UnfrozenAhead(st', id, now), UnfrozenAhead(st, id, now) - {x});
  }

  /** Ticks at the instant at which it is no longer due do not make it due again. */
  lemma {:induction false} NotDueAgain(st: Store, ticks: seq<(seq<Id>, seq<Id>)>, limit: nat, now: int, cron: Cron, id: Id)
    requires StrictlyAfter(cron) && TicksAt(st, ticks, limit, now, cron) && id in st.schedules && !Due(st, id, now)
    ensures !Due(AfterTicks(st, ticks, now, cron), id, now)
    decreases |ticks|
  {
    if ticks != [] {
      TickLeavesDue(st, limit, ticks[0].0, ticks[0].1, now, cron, id);
      NotDueAgain(FireAll(st, ticks[0].0, ticks[0].1, now, cron).0, ticks[1..], limit, now, cron, id);
    }
  }

  lemma {:induction false} ReachedInTime(st: Store, ticks: seq<(seq<Id>, seq<Id>)>, limit: nat, now: int, cron: Cron, id: Id)
    requires StrictlyAfter(cron) && TicksAt(st, ticks, limit, now, cron)
    requires Due(st, id, now) && !Frozen(st, id) && |FrozenAhead(st, id, now)| < limit
    requires |ticks| > |UnfrozenAhead(st, id, now)|
    ensures !Due(AfterTicks(st, ticks, now, cron), id, now)
    decreases |ticks|
  {
    var st' := FireAll(st, ticks[0].0, ticks[0].1, now, cron).0;
    TickLeavesDue(st, limit, ticks[0].0, ticks[0].1, now, cron, id);
    if id in ticks[0].0 {
      NotDueAgain(st', ticks[1..], limit, now, cron, id);
    } else {
      OneNearer(st, limit, ticks[0].0, ticks[0].1, now, cron, id);
      ReachedInTime(st', ticks[1..], limit, now, cron, id);
    }
  }

  lemma {:induction false} StarvedAt(st: Store, ticks: seq<(seq<Id>, seq<Id>)>, limit: nat, now: int, cron: Cron, id: Id)
    requires TicksAt(st, ticks, limit, now, cron) && Due(st, id, now) && |FrozenAhead(st, id, now)| >= limit
    ensures Due(AfterTicks(st, ticks, now, cron), id, now)
    decreases |ticks|
  {
    if ticks != [] {
      StillAhead(st, limit, Pass(now, ticks[0].0, ticks[0].1), now, cron, id);
      StarvedAt(FireAll(st, ticks[0].0, ticks[0].1, now, cron).0, ticks[1..], limit, now, cron, id);
    }
  }

  /**
   * A due schedule that is not frozen itself is reached, after at most one tick for each unfrozen
   * schedule before it and one more, if and only if fewer than `limit` frozen schedules come before it.
   */
  lemma ReachedIffFewFrozenAhead(st: Store, ticks: seq<(seq<Id>, seq<Id>)>, limit: nat, now: int, cron: Cron, id: Id)
    requires StrictlyAfter(cron) && TicksAt(st, ticks, limit, now, cron)
    requires Due(st, id, now) && !Frozen(st, id) && |ticks| > |UnfrozenAhead(st, id, now)|
    ensures !Due(AfterTicks(st, ticks, now, cron), id, now) <==> |FrozenAhead(st, id, now)| < limit
  {
    if |FrozenAhead(st, id, now)| < limit {
      ReachedInTime(st, ticks, limit, now, cron, id);
    } else {
      StarvedAt(st, ticks, limit, now, cron, id);
    }
  }

  /** A tick makes no occurrence at all if and only if every schedule it takes is frozen. */
  lemma {:induction false} TickIsIdleIffAllFrozen(st: Store, due: seq<Id>, newIds: seq<Id>, now: int, cron: Cron)
    requires |newIds| >= |due| && Distinct(due) && forall i :: 0 <= i < |due| ==> CanFire(st, due[i])
    ensures FireAll(st, due, newIds, now, cron).1 == [] <==> forall i :: 0 <= i < |due| ==> Frozen(st, due[i])
    ensures FireAll(st, due, newIds, now, cron).1 == [] ==> FireAll(st, due, newIds, now, cron).0 == st
    decreases |due|
  {
    if due != [] {
      var front, last := due[..|due| - 1], due[|due| - 1];
      TickIsIdleIffAllFrozen(st, front, newIds, now, cron);
      NotTaken(st, front, newIds, now, cron, last);
    }
  }
}
