/** What every history of schedules keeps, how a backlog drains, and what a lost update does. */
module ScheduleHistory {
  import opened Common
  import opened Schedules

  // ---- The invariant ----

  /** No occurrence of the schedule reaches up to its next run. */
  ghost predicate Clear(st: Store, id: Id, s: Schedule) {
    s.nextRunAt.Some? ==>
      && (forall t :: (id, t) in st.taken ==> t < s.nextRunAt.value)
      && (forall o :: o in st.occurrences && st.occurrences[o].scheduleId == id ==> st.occurrences[o].createdAt < s.nextRunAt.value)
  }

  /** One of the two was over, and done, before the other one's instant. */
  predicate Apart(a: Occurrence, b: Occurrence) {
    a.createdAt < b.scheduledFor || b.createdAt < a.scheduledFor
  }

  predicate Unrelated(a: Occurrence, b: Occurrence) {
    a.scheduleId != b.scheduleId
  }

  ghost predicate Sound(st: Store, clock: int) {
    && (forall id :: id in st.schedules ==> Clear(st, id, st.schedules[id]))
    && (forall id, t :: (id, t) in st.taken ==> id in st.schedules && t <= clock)
    && (forall o :: o in st.occurrences ==>
          && (st.occurrences[o].scheduleId, st.occurrences[o].scheduledFor) in st.taken
          && st.occurrences[o].scheduledFor <= st.occurrences[o].createdAt <= clock)
    && (forall a, b :: a in st.occurrences && b in st.occurrences && a != b ==>
          Unrelated(st.occurrences[a], st.occurrences[b]) || Apart(st.occurrences[a], st.occurrences[b]))
  }

  /** Occurrences of one schedule strictly increase: by instant exactly as by creation, and none repeats. */
  lemma OccurrencesStrictlyIncrease(st: Store, clock: int, a: Id, b: Id)
    requires Sound(st, clock) && a in st.occurrences && b in st.occurrences && a != b
    requires st.occurrences[a].scheduleId == st.occurrences[b].scheduleId
    ensures st.occurrences[a].scheduledFor != st.occurrences[b].scheduledFor
    ensures st.occurrences[a].scheduledFor < st.occurrences[b].scheduledFor <==>
      st.occurrences[a].createdAt < st.occurrences[b].createdAt
    ensures st.occurrences[a].createdAt != st.occurrences[b].createdAt
  {
  }

  // ---- Firing ----

  lemma FireKeepsSound(st: Store, clock: int, id: Id, newId: Id, now: int, cron: Cron)
    requires Sound(st, clock) && clock <= now && StrictlyAfter(cron)
    requires Due(st, id, now) && newId !in st.occurrences
    ensures Sound(Fire(st, id, newId, now, cron).0, now)
    ensures Fire(st, id, newId, now, cron).1 ==
      [Occurrence(id, st.schedules[id].plan, st.schedules[id].nextRunAt.value, now, None, None)]
  {
  }

  predicate Distinct(s: seq<Id>) {
    forall i, j :: 0 <= i < j < |s| ==> s[i] != s[j]
  }

  predicate Fresh(st: Store, newIds: seq<Id>) {
    Distinct(newIds) && forall i :: 0 <= i < |newIds| ==> newIds[i] !in st.occurrences
  }

  function Expected(st: Store, id: Id, now: int): Occurrence
    requires CanFire(st, id)
  {
    Occurrence(id, st.schedules[id].plan, st.schedules[id].nextRunAt.value, now, None, None)
  }

  predicate AllDue(st: Store, due: seq<Id>, now: int) {
    Distinct(due) && forall i :: 0 <= i < |due| ==> Due(st, due[i], now)
  }

  // What firing `due` does, one part of the store at a time.

  predicate NoneDueAfter(st: Store, due: seq<Id>, now: int, st': Store) {
    st'.schedules.Keys == st.schedules.Keys && forall i :: 0 <= i < |due| ==> !Due(st', due[i], now)
  }

  predicate OccurrencesAdded(st: Store, newIds: seq<Id>, n: nat, st': Store)
    requires n <= |newIds|
  {
    && st'.occurrences.Keys == st.occurrences.Keys + (set i | 0 <= i < n :: newIds[i])
    && forall o :: o in st.occurrences ==> o in st'.occurrences && st'.occurrences[o] == st.occurrences[o]
  }

  predicate MadeEach(st: Store, due: seq<Id>, now: int, made: seq<Occurrence>) {
    |made| == |due| && forall i :: 0 <= i < |due| ==> CanFire(st, due[i]) && made[i] == Expected(st, due[i], now)
  }

  lemma NoneDueAfterNext(st: Store, front: seq<Id>, d: Id, newId: Id, now: int, cron: Cron, before: Store)
    requires NoneDueAfter(st, front, now, before) && CanFire(before, d) && StrictlyAfter(cron)
    requires (d, before.schedules[d].nextRunAt.value) !in before.taken
    ensures NoneDueAfter(st, front + [d], now, Fire(before, d, newId, now, cron).0)
  {
    var st' := Fire(before, d, newId, now, cron).0;
    assert !Due(st', d, now);
    forall i | 0 <= i < |front|
      ensures !Due(st', front[i], now)
    {
      assert !Due(before, front[i], now);
    }
  }

  lemma OccurrencesAddedNext(st: Store, newIds: seq<Id>, n: nat, d: Id, now: int, cron: Cron, before: Store)
    requires n < |newIds| && OccurrencesAdded(st, newIds, n, before) && newIds[n] !in st.occurrences
    requires CanFire(before, d) && (d, before.schedules[d].nextRunAt.value) !in before.taken
    ensures OccurrencesAdded(st, newIds, n + 1, Fire(before, d, newIds[n], now, cron).0)
  {
    var st' := Fire(before, d, newIds[n], now, cron).0;
    assert st'.occurrences.Keys == before.occurrences.Keys + {newIds[n]};
    assert (set i | 0 <= i < n + 1 :: newIds[i]) == (set i | 0 <= i < n :: newIds[i]) + {newIds[n]};
  }

  /** A new id is new also to the store in which the earlier ones have been used. */
  lemma StillFresh(st: Store, newIds: seq<Id>, n: nat, before: Store)
    requires Fresh(st, newIds) && n < |newIds| && OccurrencesAdded(st, newIds, n, before)
    ensures newIds[n] !in before.occurrences
  {
  }

  /** Everything there is to say about a store in which the schedules of `due` have fired. */
  ghost predicate Fired(st: Store, due: seq<Id>, newIds: seq<Id>, now: int, st': Store, made: seq<Occurrence>)
    requires |newIds| >= |due|
  {
    Sound(st', now) && NoneDueAfter(st, due, now, st') && MadeEach(st, due, now, made) && OccurrencesAdded(st, newIds, |due|, st')
  }

  lemma NextFires(st: Store, front: seq<Id>, d: Id, newIds: seq<Id>, now: int, cron: Cron, before: Store, made: seq<Occurrence>)
    requires StrictlyAfter(cron) && |newIds| > |front| && Fresh(st, newIds) && Fired(st, front, newIds, now, before, made)
    requires Due(st, d, now) && d in before.schedules && before.schedules[d] == st.schedules[d]
    ensures CanFire(before, d)
    ensures var (st', more) := Fire(before, d, newIds[|front|], now, cron);
      Fired(st, front + [d], newIds, now, st', made + more)
  {
    StillFresh(st, newIds, |front|, before);
    FireKeepsSound(before, now, d, newIds[|front|], now, cron);
    assert Clear(before, d, before.schedules[d]);
    NoneDueAfterNext(st, front, d, newIds[|front|], now, cron, before);
    OccurrencesAddedNext(st, newIds, |front|, d, now, cron, before);
  }

  /**
   * Firing due schedules of a sound store makes exactly one occurrence for each, in order, for its
   * next run: the duplicate is never met. Afterwards none of them is due.
   */
  lemma {:induction false} FireAllFiresEach(st: Store, clock: int, due: seq<Id>, newIds: seq<Id>, now: int, cron: Cron)
    requires Sound(st, clock) && clock <= now && StrictlyAfter(cron)
    requires AllDue(st, due, now) && |newIds| >= |due| && Fresh(st, newIds)
    ensures var (st', made) := FireAll(st, due, newIds, now, cron); Fired(st, due, newIds, now, st', made)
    decreases |due|
  {
    if due == [] {
      LaterIsSound(st, clock, now);
    } else {
      var last := |due| - 1;
      var front, d := due[..last], due[last];
      assert due == front + [d] && AllDue(st, front, now);
      FireAllFiresEach(st, clock, front, newIds, now, cron);
      var (before, made) := FireAll(st, front, newIds, now, cron);
      FireAllFrames(st, front, newIds, now, cron, d);
      NextFires(st, front, d, newIds, now, cron, before, made);
    }
  }

  lemma EarliestIsAllDue(st: Store, now: int, limit: nat, due: seq<Id>)
    requires Earliest(st, now, limit, due)
    ensures AllDue(st, due, now)
  {
  }

  // ---- Histories ----

  datatype Change = Change(plan: Option<string>, cronExpression: Option<string>, timezone: Option<string>, enabled: Option<bool>)

  function Created(cronExpression: string, timezone: string, plan: string, enabled: bool, now: int, cron: Cron): Schedule {
    Schedule(cronExpression, timezone, plan, enabled, if enabled then Some(cron(cronExpression, timezone, now)) else None, now)
  }

  function OrElse<T>(o: Option<T>, d: T): T {
    if o.Some? then o.value else d
  }

  function Updated(s: Schedule, c: Change, now: int, cron: Cron): Schedule {
    var expression, timezone := OrElse(c.cronExpression, s.cronExpression), OrElse(c.timezone, s.timezone);
    var enabled := OrElse(c.enabled, s.enabled);
    var next :=
      if !enabled then None
      else if c.enabled == Some(true) || c.cronExpression.Some? || c.timezone.Some? then Some(cron(expression, timezone, now))
      else s.nextRunAt;
    Schedule(expression, timezone, OrElse(c.plan, s.plan), enabled, next, now)
  }

  datatype Event =
    | Save(id: Id, cronExpression: string, timezone: string, plan: string, enabled: bool)
    | Update(id: Id, change: Change)
    | Tick(limit: nat, due: seq<Id>, newIds: seq<Id>)
    | Attach(occurrence: Id, runId: string)
    | Dispatch(occurrence: Id)

  function Step(st: Store, e: Event, now: int, cron: Cron): Store {
    match e
    case Save(id, expression, timezone, plan, enabled) =>
      st.(schedules := st.schedules[id := Created(expression, timezone, plan, enabled, now, cron)])
    case Update(id, change) =>
      if id in st.schedules then st.(schedules := st.schedules[id := Updated(st.schedules[id], change, now, cron)]) else st
    case Tick(_, due, newIds) => if |newIds| >= |due| then FireAll(st, due, newIds, now, cron).0 else st
    case Attach(o, runId) =>
      var r := Attached(st, o, runId);
      if r.Ok? then st.(occurrences := st.occurrences[o := r.value]) else st
    case Dispatch(o) =>
      var r := Dispatched(st, o, now);
      if r.Ok? then st.(occurrences := st.occurrences[o := r.value]) else st
  }

  /** The clock is monotone, a tick takes the schedules the scan gives it, and new ids are new. */
  predicate Possible(st: Store, clock: int, e: Event, now: int) {
    && clock <= now
    && (e.Tick? ==> Earliest(st, now, e.limit, e.due) && |e.newIds| >= |e.due| && Fresh(st, e.newIds))
  }

  predicate AllPossible(st: Store, clock: int, h: seq<(Event, int)>, cron: Cron)
    decreases |h|
  {
    h == [] || (Possible(st, clock, h[0].0, h[0].1) && AllPossible(Step(st, h[0].0, h[0].1, cron), h[0].1, h[1..], cron))
  }

  function Play(st: Store, h: seq<(Event, int)>, cron: Cron): Store
    decreases |h|
  {
    if h == [] then st else Play(Step(st, h[0].0, h[0].1, cron), h[1..], cron)
  }

  /**
   * Replacing a schedule keeps the store sound if and only if its next run lies past all its
   * occurrences.
   */
  lemma ReplacingKeepsSoundIffClear(st: Store, clock: int, id: Id, s: Schedule)
    requires Sound(st, clock)
    ensures Sound(st.(schedules := st.schedules[id := s]), clock) <==> Clear(st, id, s)
  {
  }

  lemma LaterIsSound(st: Store, clock: int, now: int)
    requires Sound(st, clock) && clock <= now
    ensures Sound(st, now)
  {
  }

  lemma AnnotatingKeepsSound(st: Store, clock: int, id: Id, o: Occurrence)
    requires Sound(st, clock) && id in st.occurrences
    requires o.scheduleId == st.occurrences[id].scheduleId && o.scheduledFor == st.occurrences[id].scheduledFor
    requires o.createdAt == st.occurrences[id].createdAt
    ensures Sound(st.(occurrences := st.occurrences[id := o]), clock)
  {
  }

  lemma StepKeepsSound(st: Store, clock: int, e: Event, now: int, cron: Cron)
    requires Sound(st, clock) && Possible(st, clock, e, now) && StrictlyAfter(cron)
    ensures Sound(Step(st, e, now, cron), now)
  {
    LaterIsSound(st, clock, now);
    match e
    case Save(id, expression, timezone, plan, enabled) =>
      ReplacingKeepsSoundIffClear(st, now, id, Created(expression, timezone, plan, enabled, now, cron));
    case Update(id, change) =>
      if id in st.schedules {
        assert Clear(st, id, st.schedules[id]);
        ReplacingKeepsSoundIffClear(st, now, id, Updated(st.schedules[id], change, now, cron));
      }
    case Tick(limit, due, newIds) =>
      EarliestIsAllDue(st, now, limit, due);
      FireAllFiresEach(st, now, due, newIds, now, cron);
    case Attach(o, runId) =>
      if Attached(st, o, runId).Ok? { AnnotatingKeepsSound(st, now, o, Attached(st, o, runId).value); }
    case Dispatch(o) =>
      if Dispatched(st, o, now).Ok? { AnnotatingKeepsSound(st, now, o, Dispatched(st, o, now).value); }
  }

  lemma {:induction false} HistoryKeepsSound(st: Store, clock: int, h: seq<(Event, int)>, cron: Cron)
    requires Sound(st, clock) && AllPossible(st, clock, h, cron) && StrictlyAfter(cron)
    ensures Sound(Play(st, h, cron), if h == [] then clock else h[|h| - 1].1)
    decreases |h|
  {
    if h != [] {
      StepKeepsSound(st, clock, h[0].0, h[0].1, cron);
      HistoryKeepsSound(Step(st, h[0].0, h[0].1, cron), h[0].1, h[1..], cron);
    }
  }

  /** From the empty store on: every occurrence lies before its schedule's next run, and none repeats. */
  lemma NoHistoryRepeatsAnOccurrence(h: seq<(Event, int)>, clock: int, cron: Cron, a: Id, b: Id)
    requires AllPossible(Store(map[], map[], {}), clock, h, cron) && StrictlyAfter(cron)
    ensures var st := Play(Store(map[], map[], {}), h, cron);
      && (a in st.occurrences && CanFire(st, st.occurrences[a].scheduleId) ==>
            st.occurrences[a].scheduledFor < st.schedules[st.occurrences[a].scheduleId].nextRunAt.value)
      && (a in st.occurrences && b in st.occurrences && a != b ==>
            (st.occurrences[a].scheduleId, st.occurrences[a].scheduledFor)
            != (st.occurrences[b].scheduleId, st.occurrences[b].scheduledFor))
  {
    HistoryKeepsSound(Store(map[], map[], {}), clock, h, cron);
    var st, end := Play(Store(map[], map[], {}), h, cron), if h == [] then clock else h[|h| - 1].1;
    if a in st.occurrences {
      var id := st.occurrences[a].scheduleId;
      assert Clear(st, id, st.schedules[id]);
      if b in st.occurrences && a != b && st.occurrences[b].scheduleId == id {
        OccurrencesStrictlyIncrease(st, end, a, b);
      }
    }
  }

  /** An occurrence keeps its run and its dispatch instant once it has them. */
  lemma OccurrencesAreWriteOnce(st: Store, clock: int, e: Event, now: int, cron: Cron, o: Id)
    requires Sound(st, clock) && Possible(st, clock, e, now) && StrictlyAfter(cron) && o in st.occurrences
    ensures var st' := Step(st, e, now, cron);
      && o in st'.occurrences
      && st'.occurrences[o].scheduledFor == st.occurrences[o].scheduledFor
      && (st.occurrences[o].runId.Some? ==> st'.occurrences[o].runId == st.occurrences[o].runId)
      && (st.occurrences[o].dispatchedAt.Some? ==> st'.occurrences[o].dispatchedAt == st.occurrences[o].dispatchedAt)
  {
    if e.Tick? {
      EarliestIsAllDue(st, now, e.limit, e.due);
      FireAllFiresEach(st, clock, e.due, e.newIds, now, cron);
    }
  }

  // ---- Draining a backlog ----

  lemma {:induction false} DistinctHaveSize(s: seq<Id>)
    requires Distinct(s)
    ensures |set x | x in s| == |s|
  {
    if s != [] {
      var front := s[..|s| - 1];
      DistinctHaveSize(front);
      assert (set x | x in s) == (set x | x in front) + {s[|s| - 1]};
    }
  }

  /** A tick takes min(limit, due) schedules. */
  lemma EarliestTakes(st: Store, now: int, limit: nat, due: seq<Id>)
    requires Earliest(st, now, limit, due)
    ensures |due| == Min(limit, |DueSet(st, now)|)
    ensures (set x | x in due) <= DueSet(st, now)
  {
    EarliestIsAllDue(st, now, limit, due);
    DistinctHaveSize(due);
    var taken := set x | x in due;
    var all := DueSet(st, now);
    assert taken <= all;
    SubsetSize(taken, all);
    if |due| < limit {
      assert all <= taken;
    }
  }

  lemma {:induction false} SubsetSize(a: set<Id>, b: set<Id>)
    requires a <= b
    ensures |a| <= |b| && |b - a| == |b| - |a|
  {
  }

  lemma TickLeaves(st: Store, clock: int, limit: nat, due: seq<Id>, newIds: seq<Id>, now: int, cron: Cron)
    requires Sound(st, clock) && clock <= now && StrictlyAfter(cron)
    requires Earliest(st, now, limit, due) && |newIds| >= |due| && Fresh(st, newIds)
    ensures var (st', made) := FireAll(st, due, newIds, now, cron);
      && Sound(st', now)
      && DueSet(st', now) == DueSet(st, now) - (set x | x in due)
      && |DueSet(st', now)| == Max(0, |DueSet(st, now)| - limit)
      && |made| == Min(limit, |DueSet(st, now)|)
  {
    var st' := FireAll(st, due, newIds, now, cron).0;
    EarliestIsAllDue(st, now, limit, due);
    FireAllFiresEach(st, clock, due, newIds, now, cron);
    forall id
      ensures id in DueSet(st', now) <==> id in DueSet(st, now) && id !in due
    {
      if id !in due { FireAllFrames(st, due, newIds, now, cron, id); }
    }
    EarliestTakes(st, now, limit, due);
    DistinctHaveSize(due);
    SubsetSize((set x | x in due), DueSet(st, now));
    assert DueSet(st', now) == DueSet(st, now) - (set x | x in due);
  }

  /** Ticks, one after the other, at one instant. */
  predicate TicksAt(st: Store, ticks: seq<(seq<Id>, seq<Id>)>, limit: nat, now: int, cron: Cron)
    decreases |ticks|
  {
    ticks == [] ||
    (&& Earliest(st, now, limit, ticks[0].0) && |ticks[0].1| >= |ticks[0].0| && Fresh(st, ticks[0].1)
     && TicksAt(FireAll(st, ticks[0].0, ticks[0].1, now, cron).0, ticks[1..], limit, now, cron))
  }

  function AfterTicks(st: Store, ticks: seq<(seq<Id>, seq<Id>)>, now: int, cron: Cron): Store
    decreases |ticks|
  {
    if ticks == [] || |ticks[0].1| < |ticks[0].0| then st
    else AfterTicks(FireAll(st, ticks[0].0, ticks[0].1, now, cron).0, ticks[1..], now, cron)
  }

  lemma TwoSteps(n: nat, limit: nat, k: nat)
    ensures Max(0, Max(0, n - limit) - limit * k) == Max(0, n - limit * (k + 1))
  {
  }

  /** After k ticks at one instant limit * k schedules fewer are due. */
  lemma {:induction false} BacklogDrains(st: Store, clock: int, ticks: seq<(seq<Id>, seq<Id>)>, limit: nat, now: int, cron: Cron)
    requires Sound(st, clock) && clock <= now && StrictlyAfter(cron) && TicksAt(st, ticks, limit, now, cron)
    ensures |DueSet(AfterTicks(st, ticks, now, cron), now)| == Max(0, |DueSet(st, now)| - limit * |ticks|)
    ensures Sound(AfterTicks(st, ticks, now, cron), now)
    decreases |ticks|
  {
    if ticks == [] {
      LaterIsSound(st, clock, now);
    } else {
      var st' := FireAll(st, ticks[0].0, ticks[0].1, now, cron).0;
      TickLeaves(st, clock, limit, ticks[0].0, ticks[0].1, now, cron);
      BacklogDrains(st', now, ticks[1..], limit, now, cron);
      var k := |ticks| - 1;
      var n := |DueSet(st, now)|;
      assert |DueSet(AfterTicks(st', ticks[1..], now, cron), now)| == Max(0, Max(0, n - limit) - limit * k);
      TwoSteps(n, limit, k);
    }
  }

  /** ceil(n / limit) ticks clear n due schedules, and one tick fewer does not. */
  lemma BacklogIsClearedInCeilTicks(st: Store, clock: int, ticks: seq<(seq<Id>, seq<Id>)>, limit: nat, now: int, cron: Cron)
    requires Sound(st, clock) && clock <= now && StrictlyAfter(cron) && TicksAt(st, ticks, limit, now, cron) && limit >= 1
    ensures DueSet(AfterTicks(st, ticks, now, cron), now) == {} <==> |ticks| >= (|DueSet(st, now)| + limit - 1) / limit
  {
    BacklogDrains(st, clock, ticks, limit, now, cron);
    CeilDivision(|DueSet(st, now)|, limit, |ticks|);
  }

  lemma TimesKeepsOrder(factor: nat, x: int, y: int)
    requires x <= y
    ensures factor * x <= factor * y
  {
  }

  lemma QuotientBounds(a: nat, d: nat)
    requires d >= 1
    ensures d * (a / d) <= a < d * (a / d) + d
  {
  }

  lemma CeilDivision(n: nat, limit: nat, k: nat)
    requires limit >= 1
    ensures n <= limit * k <==> k >= (n + limit - 1) / limit
  {
    var q := (n + limit - 1) / limit;
    QuotientBounds(n + limit - 1, limit);
    if k >= q {
      TimesKeepsOrder(limit, q, k);
    } else {
      TimesKeepsOrder(limit, k + 1, q);
      assert limit * (k + 1) == limit * k + limit;
    }
  }

  // ---- A lost update ----

  /** The next run of the schedule already has its occurrence. */
  predicate Frozen(st: Store, id: Id) {
    CanFire(st, id) && (id, st.schedules[id].nextRunAt.value) in st.taken
  }

  /**
   * A schedule written back from before a tick points at an instant that was materialised already.
   * Every later tick passes it over without moving its next run, so it makes no occurrence ever again.
   */
  lemma {:induction false} FrozenScheduleNeverFires(st: Store, due: seq<Id>, newIds: seq<Id>, now: int, cron: Cron, id: Id)
    requires Frozen(st, id) && |newIds| >= |due|
    ensures var (st', made) := FireAll(st, due, newIds, now, cron);
      && Frozen(st', id) && st'.schedules[id] == st.schedules[id]
      && forall i :: 0 <= i < |made| ==> made[i].scheduleId != id
    decreases |due|
  {
    if due != [] {
      FrozenScheduleNeverFires(st, due[..|due| - 1], newIds, now, cron, id);
    }
  }

  /** Writing back the schedule as it was before the tick that fired it freezes it. */
  lemma WritingBackAfterATickFreezes(st: Store, clock: int, id: Id, newId: Id, now: int, cron: Cron)
    requires Sound(st, clock) && clock <= now && StrictlyAfter(cron) && Due(st, id, now) && newId !in st.occurrences
    ensures var ticked := Fire(st, id, newId, now, cron).0;
      var restored := ticked.(schedules := ticked.schedules[id := st.schedules[id]]);
      Frozen(restored, id) && !Sound(restored, now)
  {
  }
}
