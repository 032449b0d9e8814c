/**
 * What resolves a wait, told by the fields of the wait and of the stored events: which event, from which
 * instants on, and never one of another source, type, correlation or workspace.
 */
module WaitResolutions {
  import opened Common
  import opened WorkflowEvents
  import opened WorkflowWaits
  import Pagination

  /** The event is of the kind the wait is for, and came in its window. */
  predicate Answers(w: Wait, e: Event, now: int) {
    match w.arm
    case Timer(_) => false
    case OnEvent(source, eventType, correlationKey, eligibleFrom, expiresAt) =>
      && e.workspaceId == w.workspaceId && e.source == source
      && e.eventType == eventType && e.correlationKey == correlationKey
      && e.receivedAt >= eligibleFrom && e.receivedAt <= now
      && (match expiresAt case None => true case Some(end) => e.receivedAt <= end)
  }

  /** Received before, or at the same instant under the smaller id. */
  predicate CameFirst(a: Event, b: Event) {
    a.receivedAt < b.receivedAt || (a.receivedAt == b.receivedAt && Pagination.Less(a.id, b.id))
  }

  // ---- One decision ----

  /**
   * What becomes of an unresolved event wait at an instant, from the stored events: an event that
   * answers it resolves it, the first one that came; only if there is none and the deadline is reached
   * it times out; otherwise it stays as it is.
   */
  lemma EventWaitIsDecided(w: Wait, es: Events, now: int)
    requires Keyed(es) && w.resolution.None? && w.arm.OnEvent? && w.armedAt <= now
    ensures DecideEvent(w, es, now).Ok?
    ensures var next := DecideEvent(w, es, now).value;
      if exists id :: id in es && Answers(w, es[id], now) then
        exists id :: id in es && Answers(w, es[id], now)
          && next == w.(resolution := Some(Resolution(EventReceived, now, Some(id))))
          && forall j :: j in es && j != id && Answers(w, es[j], now) ==> CameFirst(es[id], es[j])
      else if w.arm.expiresAt.Some? && w.arm.expiresAt.value <= now then
        next == w.(resolution := Some(Resolution(TimedOut, now, None)))
      else next == w
  {
    if exists id :: id in es && Answers(w, es[id], now) {
      var some :| some in es && Answers(w, es[some], now);
      var id := SomebodyWins(w, es, now, es.Keys, some);
      assert Wins(w, es, now, id);
      WinnerIsUnique(w, es, now, id, Winner(w, es, now).value);
      assert Answers(w, es[id], now);
      forall j | j in es && j != id && Answers(w, es[j], now)
        ensures CameFirst(es[id], es[j])
      {
        assert Eligible(w, es[j], now);
      }
    } else {
      assert forall id :: id in es ==> !Eligible(w, es[id], now);
    }
  }

  /** The selected event answers the wait and came first of all stored events that do; without one none is selected. */
  lemma SelectedCameFirst(w: Wait, es: Events, now: int)
    requires Keyed(es)
    ensures match Winner(w, es, now)
      case None => forall id :: id in es ==> !Answers(w, es[id], now)
      case Some(id) =>
        && id in es && Answers(w, es[id], now)
        && forall j :: j in es && j != id && Answers(w, es[j], now) ==> CameFirst(es[id], es[j])
  {
    if some :| some in es && Answers(w, es[some], now) {
      var id := SomebodyWins(w, es, now, es.Keys, some);
      assert Wins(w, es, now, id);
      WinnerIsUnique(w, es, now, id, Winner(w, es, now).value);
      assert forall j :: j in es && Answers(w, es[j], now) ==> Eligible(w, es[j], now);
    }
  }

  /** A resolver leaves a resolved wait as it is, and has no business with a timer or a wait not yet armed. */
  lemma OtherWaitsAreLeft(w: Wait, es: Events, now: int)
    requires Keyed(es)
    ensures w.resolution.Some? ==> DecideEvent(w, es, now) == Ok(w) && DecideTimer(w, now) == Ok(w)
    ensures w.resolution.None? && w.arm.Timer? ==> DecideEvent(w, es, now) == Err(Invariant)
    ensures w.resolution.None? && w.arm.OnEvent? ==> DecideTimer(w, now) == Ok(w)
    ensures w.resolution.None? && w.arm.OnEvent? && now < w.armedAt ==>
      DecideEvent(w, es, now) ==
        if (exists id :: id in es && Answers(w, es[id], now)) || (w.arm.expiresAt.Some? && w.arm.expiresAt.value <= now)
        then Err(Invariant) else Ok(w)
  {
    if w.resolution.None? && w.arm.OnEvent? && now < w.armedAt {
      if exists id :: id in es && Answers(w, es[id], now) {
        var some :| some in es && Answers(w, es[some], now);
        var id := SomebodyWins(w, es, now, es.Keys, some);
        assert Wins(w, es, now, id);
      } else {
        assert forall id :: id in es ==> !Eligible(w, es[id], now);
      }
    }
  }

  /** Resolving for the first time: a timer and a timeout have to be due, an event has to answer the wait. */
  lemma ResolvingOnce(w: Wait, e: Event, now: int)
    requires w.resolution.None?
    ensures var done := (kind: Kind, eventId: Option<string>) => w.(resolution := Some(Resolution(kind, now, eventId)));
      && ResolveTimer(w, now) ==
           (if !w.arm.Timer? then Err(Invariant)
            else if now < w.arm.wakeAt then Err(NotDue)
            else if now < w.armedAt then Err(Invariant)
            else Ok(done(TimerFired, None)))
      && ResolveTimeout(w, now) ==
           (if !w.arm.OnEvent? || w.arm.expiresAt.None? then Err(Invariant)
            else if now < w.arm.expiresAt.value then Err(NotDue)
            else if now < w.armedAt then Err(Invariant)
            else Ok(done(TimedOut, None)))
      && ResolveEvent(w, e, now) ==
           (if !w.arm.OnEvent? || now < w.armedAt then Err(Invariant)
            else if !Answers(w, e, now) then Err(NotEligible)
            else Ok(done(EventReceived, Some(e.id))))
  {
    assert w.arm.OnEvent? ==> (Answers(w, e, now) <==> Eligible(w, e, now));
  }

  /** Resolving again: the same resolution gives the wait back as it is, another one is a conflict. */
  lemma ResolvingAgain(w: Wait, e: Event, now: int)
    requires w.resolution.Some?
    ensures var r := w.resolution.value;
      && ResolveTimer(w, now) ==
           (if !w.arm.Timer? then Err(Invariant)
            else if r.kind == TimerFired then Ok(w) else Err(Conflict))
      && ResolveTimeout(w, now) ==
           (if !w.arm.OnEvent? || w.arm.expiresAt.None? then Err(Invariant)
            else if r.kind == TimedOut then Ok(w) else Err(Conflict))
      && ResolveEvent(w, e, now) ==
           (if !w.arm.OnEvent? || now < w.armedAt then Err(Invariant)
            else if r.kind == EventReceived && r.eventId == Some(e.id) then Ok(w) else Err(Conflict))
  {
  }

  /** A timer fires from its instant on, and not before the wait was armed. */
  lemma TimerFiresWhenDue(w: Wait, now: int)
    requires w.resolution.None? && w.arm.Timer?
    ensures DecideTimer(w, now) ==
      if now < w.arm.wakeAt then Err(NotDue)
      else if now < w.armedAt then Err(Invariant)
      else Ok(w.(resolution := Some(Resolution(TimerFired, now, None))))
  {
  }

  /**
   * Saving decides a race: the first resolution is stored; one of the same kind, and for events by the
   * same event, gets the stored wait back; any other is a conflict; and nothing else is written.
   */
  lemma FirstResolutionIsKept(ws: Waits, next: Wait)
    requires next.resolution.Some? && next.nodeRunId in ws
    requires ws[next.nodeRunId].workspaceId == next.workspaceId && ws[next.nodeRunId].workflowRunId == next.workflowRunId
    ensures var stored, mine := ws[next.nodeRunId], next.resolution.value;
      SaveResolution(ws, next) ==
        match stored.resolution
        case None => (ws[next.nodeRunId := next], Ok(next))
        case Some(first) =>
          (ws, if first.kind == mine.kind && (mine.kind != EventReceived || first.eventId == mine.eventId)
               then Ok(stored) else Err(Conflict))
  {
  }

  /** A resolution for another workspace or run, or for a wait that is not there, is refused. */
  lemma StrangersAreRefused(ws: Waits, next: Wait)
    ensures next.resolution.None? ==> SaveResolution(ws, next) == (ws, Err(Invariant))
    ensures next.resolution.Some? && next.nodeRunId !in ws ==> SaveResolution(ws, next) == (ws, Err(NotFound))
    ensures next.resolution.Some? && next.nodeRunId in ws && ws[next.nodeRunId].workspaceId != next.workspaceId ==>
      SaveResolution(ws, next) == (ws, Err(Invariant))
    ensures next.resolution.Some? && next.nodeRunId in ws && ws[next.nodeRunId].workflowRunId != next.workflowRunId ==>
      SaveResolution(ws, next) == (ws, Err(Invariant))
  {
  }

  // ---- Whole histories ----

  /** Nothing is resolved yet, and no resolver has begun. */
  predicate Fresh(s: World) {
    && Keyed(s.events) && Unique(s.events)
    && (forall id :: id in s.waits ==> s.waits[id].nodeRunId == id && s.waits[id].resolution.None?)
    && (forall i :: 0 <= i < |s.resolvers| ==> s.resolvers[i].phase.Started?)
  }

  /** Why a wait was resolved, by the fields alone. */
  predicate HasReason(w: Wait, es: Events) {
    match w.resolution
    case None => true
    case Some(r) =>
      && r.at >= w.armedAt
      && match r.kind
         case TimerFired => w.arm.Timer? && w.arm.wakeAt <= r.at && r.eventId.None?
         case EventReceived => r.eventId.Some? && r.eventId.value in es && Answers(w, es[r.eventId.value], r.at)
         case TimedOut => w.arm.OnEvent? && w.arm.expiresAt.Some? && w.arm.expiresAt.value <= r.at && r.eventId.None?
         case Cancelled => false
  }

  /**
   * Over every history of racing resolvers, arriving events and ending runs, a wait resolved by an event
   * names a stored event of its own workspace, source, type and correlation key, received within its
   * window and not after the resolution; a timeout lies at or past the deadline, and a fired timer at or
   * past its instant.
   */
  lemma EveryResolutionHasItsReason(s: World, h: seq<Action>, id: string)
    requires Fresh(s) && id in WorkflowWaits.Play(s, h).waits
    ensures HasReason(WorkflowWaits.Play(s, h).waits[id], WorkflowWaits.Play(s, h).events)
  {
    HistoryKeepsSound(s, h);
    assert Justified(WorkflowWaits.Play(s, h).waits[id], WorkflowWaits.Play(s, h).events);
  }

  /** A resolver reads the wait, then the run, then the events, and only then saves what it decided. */
  lemma ResolverSteps(s: World, i: nat)
    requires i < |s.resolvers|
    ensures var r, s' := s.resolvers[i], Step(s, Run(i));
      && s'.events == s.events && s'.ended == s.ended && s' == s.(waits := s'.waits, resolvers := s'.resolvers)
      && s'.resolvers == s.resolvers[i := r.(phase := s'.resolvers[i].phase)]
      && match r.phase
         case Started =>
           s'.waits == s.waits
           && s'.resolvers[i].phase == if r.nodeRunId in s.waits then HasWait(s.waits[r.nodeRunId]) else Done(Err(NotFound))
         case HasWait(w) =>
           s'.waits == s.waits && s'.resolvers[i].phase == if w.workflowRunId in s.ended then Done(Ok(w)) else MayResolve(w)
         case MayResolve(w) =>
           s'.waits == s.waits
           && var next := if r.onEvent then DecideEvent(w, s.events, r.now) else DecideTimer(w, r.now);
              s'.resolvers[i].phase == if next.Ok? && next.value != w then Saving(next.value) else Done(next)
         case Saving(next) =>
           s'.waits == SaveResolution(s.waits, next).0 && s'.resolvers[i].phase == Done(SaveResolution(s.waits, next).1)
         case Done(_) => s' == s
  {
  }
}
