/** Which schedules a tick takes, and how creation and updates set the next run, by the fields. */
module ScheduleDecisions {
  import opened Common
  import opened Schedules
  import opened ScheduleHistory
  import opened ScheduleStarvation

  // ---- Which schedules are taken ----

  /** Enabled, with a next run that is not in the future. */
  predicate Waiting(st: Store, id: Id, now: int) {
    id in st.schedules
    && match st.schedules[id].nextRunAt
       case None => false
       case Some(at) => st.schedules[id].enabled && at <= now
  }

  /** The waiting schedules that come before this one: by next run, and at the same instant by id. */
  function Ahead(st: Store, id: Id, now: int): set<Id>
    requires Waiting(st, id, now)
  {
    var at := st.schedules[id].nextRunAt.value;
    set j | j in st.schedules && Waiting(st, j, now)
            && (var other := st.schedules[j].nextRunAt.value; other < at || (other == at && j < id))
  }

  /** A tick takes exactly the waiting schedules that have fewer than `limit` others before them. */
  lemma TakenIffFewAhead(st: Store, now: int, limit: nat, due: seq<Id>, id: Id)
    requires Earliest(st, now, limit, due)
    ensures id in due <==> Waiting(st, id, now) && |Ahead(st, id, now)| < limit
  {
    EarliestIsAllDue(st, now, limit, due);
    assert id in due ==> Due(st, id, now);
    if Waiting(st, id, now) {
      assert id in DueSet(st, now);
      if i :| 0 <= i < |due| && due[i] == id {
        var front := set x | x in due[..i];
        DistinctHaveSize(due[..i]);
        forall j | j in Ahead(st, id, now)
          ensures j in front
        {
          assert j in DueSet(st, now) && Before(st, j, id);
          assert j in due;
        }
        SubsetSize(Ahead(st, id, now), front);
      } else {
        DistinctHaveSize(due);
        SubsetSize((set x | x in due), Ahead(st, id, now));
      }
    }
  }

  // ---- Occurrences ----

  /** A run is attached to an occurrence that has none or the same, and is named. */
  lemma RunsAreAttachedOnce(st: Store, id: Id, runId: string)
    ensures Attached(st, id, runId).Ok? <==>
      id in st.occurrences && runId != "" && (st.occurrences[id].runId == None || st.occurrences[id].runId == Some(runId))
    ensures Attached(st, id, runId).Ok? ==> Attached(st, id, runId).value == st.occurrences[id].(runId := Some(runId))
  {
  }

  /** The first dispatch is recorded, and a later one changes nothing. */
  lemma DispatchIsRecordedOnce(st: Store, id: Id, at: int)
    ensures Dispatched(st, id, at) ==
      if id !in st.occurrences then Err(())
      else match st.occurrences[id].dispatchedAt
           case Some(_) => Ok(st.occurrences[id])
           case None => Ok(st.occurrences[id].(dispatchedAt := Some(at)))
  {
  }

  // ---- The next run ----

  /** A schedule that is created has a next run exactly if it is enabled: the first instant after now. */
  lemma CreationSetsTheNextRun(st: Store, id: Id, cronExpression: string, timezone: string, plan: string, enabled: bool,
                               now: int, cron: Cron)
    ensures var st' := Step(st, Save(id, cronExpression, timezone, plan, enabled), now, cron);
      && id in st'.schedules && st' == st.(schedules := st.schedules[id := st'.schedules[id]])
      && var s := st'.schedules[id];
      && s.cronExpression == cronExpression && s.timezone == timezone && s.plan == plan && s.enabled == enabled
      && s.updatedAt == now
      && (s.nextRunAt.Some? <==> enabled) && (enabled ==> s.nextRunAt.value == cron(cronExpression, timezone, now))
  {
  }

  /**
   * An update keeps what it does not name. A schedule that ends up disabled has no next run; one that is
   * enabled expressly, or gets a new expression or timezone, has the first instant after now; any other
   * keeps the one it had.
   */
  lemma UpdateSetsTheNextRun(st: Store, id: Id, c: Change, now: int, cron: Cron)
    requires id in st.schedules
    ensures var s, st' := st.schedules[id], Step(st, Update(id, c), now, cron);
      && id in st'.schedules && st' == st.(schedules := st.schedules[id := st'.schedules[id]])
      && var r := st'.schedules[id];
      && (c.cronExpression == None ==> r.cronExpression == s.cronExpression)
      && (c.cronExpression.Some? ==> c.cronExpression == Some(r.cronExpression))
      && (c.timezone == None ==> r.timezone == s.timezone) && (c.timezone.Some? ==> c.timezone == Some(r.timezone))
      && (c.plan == None ==> r.plan == s.plan) && (c.plan.Some? ==> c.plan == Some(r.plan))
      && (c.enabled == None ==> r.enabled == s.enabled) && (c.enabled.Some? ==> c.enabled == Some(r.enabled))
      && r.updatedAt == now
      && (!r.enabled ==> r.nextRunAt == None)
      && (r.enabled && (c.enabled.Some? || c.cronExpression.Some? || c.timezone.Some?) ==>
            r.nextRunAt == Some(cron(r.cronExpression, r.timezone, now)))
      && (r.enabled && c.enabled.None? && c.cronExpression.None? && c.timezone.None? ==> r.nextRunAt == s.nextRunAt)
  {
  }
}
