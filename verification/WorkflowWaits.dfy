/**
 * Workflow waits: armed once, resolved once. Event and timer resolvers read, decide and save in
 * separate steps; any number of them may race.
 */
module WorkflowWaits {
  import opened Common
  import opened WorkflowEvents
  import Pagination

  datatype Kind = TimerFired | EventReceived | TimedOut | Cancelled

  datatype Resolution = Resolution(kind: Kind, at: int, eventId: Option<string>)

  datatype Arm =
    | Timer(wakeAt: int)
    | OnEvent(source: string, eventType: string, correlationKey: string, eligibleFrom: int, expiresAt: Option<int>)

  datatype Wait = Wait(workspaceId: string, workflowRunId: string, nodeRunId: string, armedAt: int, arm: Arm, resolution: Option<Resolution>)

  datatype WaitError = NotFound | Invariant | NotDue | NotEligible | Conflict

  // ---- The wait itself ----

  predicate Eligible(w: Wait, e: Event, now: int) {
    && w.arm.OnEvent?
    && w.workspaceId == e.workspaceId && w.arm.source == e.source
    && w.arm.eventType == e.eventType && w.arm.correlationKey == e.correlationKey
    && w.arm.eligibleFrom <= e.receivedAt <= now
    && (w.arm.expiresAt.Some? ==> e.receivedAt <= w.arm.expiresAt.value)
  }

  function Resolve(w: Wait, kind: Kind, at: int, eventId: Option<string>): Result<Wait, WaitError> {
    if w.resolution.Some? then Err(Conflict)
    else if at < w.armedAt then Err(Invariant)
    else Ok(w.(resolution := Some(Resolution(kind, at, eventId))))
  }

  function ResolveTimer(w: Wait, now: int): Result<Wait, WaitError> {
    if !w.arm.Timer? then Err(Invariant)
    else if w.resolution.Some? && w.resolution.value.kind == TimerFired then Ok(w)
    else if w.resolution.None? && now < w.arm.wakeAt then Err(NotDue)
    else Resolve(w, TimerFired, now, None)
  }

  function ResolveTimeout(w: Wait, now: int): Result<Wait, WaitError> {
    if !w.arm.OnEvent? || w.arm.expiresAt.None? then Err(Invariant)
    else if w.resolution.Some? && w.resolution.value.kind == TimedOut then Ok(w)
    else if w.resolution.None? && now < w.arm.expiresAt.value then Err(NotDue)
    else Resolve(w, TimedOut, now, None)
  }

  function ResolveEvent(w: Wait, e: Event, now: int): Result<Wait, WaitError> {
    if !w.arm.OnEvent? || now < w.armedAt then Err(Invariant)
    else if w.resolution.Some? && w.resolution.value.kind == EventReceived && w.resolution.value.eventId == Some(e.id) then Ok(w)
    else if w.resolution.None? && !Eligible(w, e, now) then Err(NotEligible)
    else Resolve(w, EventReceived, now, Some(e.id))
  }

  /** Received earlier, or at the same instant with the smaller id. */
  predicate Sooner(a: Event, b: Event) {
    a.receivedAt < b.receivedAt || (a.receivedAt == b.receivedAt && Pagination.Less(a.id, b.id))
  }

  /** The event that wins the wait: of the eligible ones the soonest. */
  predicate Wins(w: Wait, es: Events, now: int, id: string) {
    && id in es && Eligible(w, es[id], now)
    && forall j :: j in es && j != id && Eligible(w, es[j], now) ==> Sooner(es[id], es[j])
  }

  ghost function Winner(w: Wait, es: Events, now: int): (r: Option<string>)
    ensures r.Some? ==> Wins(w, es, now, r.value)
  {
    if exists id :: Wins(w, es, now, id) then
      var id :| Wins(w, es, now, id);
      Some(id)
    else None
  }

  /** What a resolver makes of the wait it read: itself if nothing is to be done. */
  ghost function DecideEvent(w: Wait, es: Events, now: int): Result<Wait, WaitError> {
    if w.resolution.Some? then Ok(w)
    else if !w.arm.OnEvent? then Err(Invariant)
    else
      var winner := Winner(w, es, now);
      if winner.Some? then ResolveEvent(w, es[winner.value], now)
      else if w.arm.expiresAt.Some? && now >= w.arm.expiresAt.value then ResolveTimeout(w, now)
      else Ok(w)
  }

  function DecideTimer(w: Wait, now: int): Result<Wait, WaitError> {
    if w.resolution.Some? || !w.arm.Timer? then Ok(w) else ResolveTimer(w, now)
  }

  // ---- The repository ----

  type Waits = map<string, Wait>

  predicate SameDurableResolution(a: Wait, b: Wait) {
    && a.resolution.Some? && b.resolution.Some? && a.resolution.value.kind == b.resolution.value.kind
    && (a.resolution.value.kind == EventReceived ==> a.resolution.value.eventId == b.resolution.value.eventId)
  }

  function SaveResolution(ws: Waits, next: Wait): (Waits, Result<Wait, WaitError>) {
    if next.resolution.None? then (ws, Err(Invariant))
    else if next.nodeRunId !in ws then (ws, Err(NotFound))
    else
      var existing := ws[next.nodeRunId];
      if existing.workspaceId != next.workspaceId || existing.workflowRunId != next.workflowRunId then (ws, Err(Invariant))
      else if existing.resolution.None? then (ws[next.nodeRunId := next], Ok(next))
      else if SameDurableResolution(existing, next) then (ws, Ok(existing))
      else (ws, Err(Conflict))
  }

  function SaveWait(ws: Waits, w: Wait): (Waits, Result<(), WaitError>) {
    if w.nodeRunId in ws then (ws, Err(Invariant)) else (ws[w.nodeRunId := w], Ok(()))
  }

  class MemoryWorkflowWaitRepository {
    var waits: Waits

    constructor ()
      ensures waits == map[]
    {
      waits := map[];
    }

    method SaveWorkflowWait(w: Wait) returns (r: Result<(), WaitError>)
      modifies this
      ensures (waits, r) == SaveWait(old(waits), w)
      ensures if w.nodeRunId in old(waits) then r == Err(Invariant) && waits == old(waits)
              else r.Ok? && waits == old(waits)[w.nodeRunId := w]
    {
      if w.nodeRunId in waits { return Err(Invariant); }
      waits := waits[w.nodeRunId := w];
      return Ok(());
    }

    method SaveWorkflowWaitResolution(next: Wait) returns (r: Result<Wait, WaitError>)
      modifies this
      ensures (waits, r) == SaveResolution(old(waits), next)
    {
      if next.resolution.None? { return Err(Invariant); }
      if next.nodeRunId !in waits { return Err(NotFound); }
      var existing := waits[next.nodeRunId];
      if existing.workspaceId != next.workspaceId || existing.workflowRunId != next.workflowRunId { return Err(Invariant); }
      if existing.resolution.None? {
        waits := waits[next.nodeRunId := next];
        return Ok(next);
      }
      if SameDurableResolution(existing, next) { return Ok(existing); }
      return Err(Conflict);
    }

    /** One resolver that nobody interferes with; the stores it does not write are parameters. */
    method ResolveWorkflowEventWait(nodeRunId: string, es: Events, ended: set<string>, now: int) returns (r: Result<Wait, WaitError>)
      requires Keyed(es)
      modifies this
      ensures nodeRunId !in old(waits) ==> r == Err(NotFound) && waits == old(waits)
      ensures nodeRunId in old(waits) ==>
        var w := old(waits)[nodeRunId];
        var next := DecideEvent(w, es, now);
        (waits, r) ==
          if w.workflowRunId in ended then (old(waits), Ok(w))
          else if next.Err? || next.value == w then (old(waits), next)
          else SaveResolution(old(waits), next.value)
    {
      if nodeRunId !in waits { return Err(NotFound); }
      var w := waits[nodeRunId];
      if w.workflowRunId in ended { return Ok(w); }
      if w.resolution.Some? { return Ok(w); }
      if !w.arm.OnEvent? { return Err(Invariant); }
      var winner := SelectWorkflowEventForWait(w, es, now);
      var next: Result<Wait, WaitError>;
      if winner.Some? {
        next := ResolveEvent(w, es[winner.value], now);
      } else if w.arm.expiresAt.Some? && now >= w.arm.expiresAt.value {
        next := ResolveTimeout(w, now);
      } else {
        return Ok(w);
      }
      if next.Err? { return next; }
      r := SaveWorkflowWaitResolution(next.value);
    }

    method ResolveWorkflowTimerWait(nodeRunId: string, ended: set<string>, now: int) returns (r: Result<Wait, WaitError>)
      modifies this
      ensures nodeRunId !in old(waits) ==> r == Err(NotFound) && waits == old(waits)
      ensures nodeRunId in old(waits) ==>
        var w := old(waits)[nodeRunId];
        var next := DecideTimer(w, now);
        (waits, r) ==
          if w.workflowRunId in ended then (old(waits), Ok(w))
          else if next.Err? || next.value == w then (old(waits), next)
          else SaveResolution(old(waits), next.value)
    {
      if nodeRunId !in waits { return Err(NotFound); }
      var w := waits[nodeRunId];
      if w.workflowRunId in ended { return Ok(w); }
      if w.resolution.Some? || !w.arm.Timer? { return Ok(w); }
      var next := ResolveTimer(w, now);
      if next.Err? { return next; }
      r := SaveWorkflowWaitResolution(next.value);
    }
  }

  lemma SoonerIsTransitive(a: Event, b: Event, c: Event)
    requires Sooner(a, b) && Sooner(b, c)
    ensures Sooner(a, c)
  {
    if a.receivedAt == b.receivedAt && b.receivedAt == c.receivedAt {
      Pagination.LessIsTransitive(a.id, b.id, c.id);
    }
  }

  lemma WinnerIsUnique(w: Wait, es: Events, now: int, a: string, b: string)
    requires Keyed(es) && Wins(w, es, now, a) && Wins(w, es, now, b)
    ensures a == b
  {
    Pagination.LessIsStrict(a, b);
  }

  /** The first of the sorted candidates, found by one pass. */
  method SelectWorkflowEventForWait(w: Wait, es: Events, now: int) returns (best: Option<string>)
    requires Keyed(es)
    ensures best == Winner(w, es, now)
    ensures best.None? <==> forall id :: id in es ==> !Eligible(w, es[id], now)
  {
    best := None;
    var left := es.Keys;
    while left != {}
      invariant left <= es.Keys
      invariant best.Some? ==> best.value in es && best.value !in left && Eligible(w, es[best.value], now)
      invariant best.None? ==> forall j :: j in es && j !in left ==> !Eligible(w, es[j], now)
      invariant best.Some? ==>
        forall j :: j in es && j !in left && j != best.value && Eligible(w, es[j], now) ==> Sooner(es[best.value], es[j])
      decreases left
    {
      var id :| id in left;
      left := left - {id};
      if Eligible(w, es[id], now) {
        if best.None? {
          best := Some(id);
        } else {
          Pagination.LessIsStrict(id, best.value);
          if Sooner(es[id], es[best.value]) {
            forall j | j in es && j !in left && j != id && Eligible(w, es[j], now)
              ensures Sooner(es[id], es[j])
            {
              if j != best.value { SoonerIsTransitive(es[id], es[best.value], es[j]); }
            }
            best := Some(id);
          }
        }
      }
    }
    if best.Some? {
      assert Wins(w, es, now, best.value);
      WinnerIsUnique(w, es, now, best.value, Winner(w, es, now).value);
    }
  }

  // ---- Racing resolvers ----

  datatype Phase = Started | HasWait(wait: Wait) | MayResolve(wait: Wait) | Saving(next: Wait) | Done(result: Result<Wait, WaitError>)

  /** A resolver of one wait, for events or for the timer, with the instant it works with. */
  datatype Resolver = Resolver(onEvent: bool, nodeRunId: string, now: int, phase: Phase)

  datatype World = World(waits: Waits, events: Events, ended: set<string>, resolvers: seq<Resolver>)

  datatype Action = Run(i: nat) | Ingest(event: Event) | ArmWait(wait: Wait) | EndRun(workflowRunId: string)

  /** The next step of a resolver: read the wait, read its run, read events and decide, save. */
  ghost function Advance(s: World, r: Resolver): (Waits, Phase) {
    match r.phase
    case Started =>
      (s.waits, if r.nodeRunId in s.waits then HasWait(s.waits[r.nodeRunId]) else Done(Err(NotFound)))
    case HasWait(w) => (s.waits, if w.workflowRunId in s.ended then Done(Ok(w)) else MayResolve(w))
    case MayResolve(w) =>
      var next := if r.onEvent then DecideEvent(w, s.events, r.now) else DecideTimer(w, r.now);
      (s.waits, if next.Err? || next.value == w then Done(next) else Saving(next.value))
    case Saving(next) =>
      var (ws, result) := SaveResolution(s.waits, next);
      (ws, Done(result))
    case Done(_) => (s.waits, r.phase)
  }

  ghost function Step(s: World, a: Action): World {
    match a
    case Run(i) =>
      if i >= |s.resolvers| then s
      else
        var (ws, phase) := Advance(s, s.resolvers[i]);
        s.(waits := ws, resolvers := s.resolvers[i := s.resolvers[i].(phase := phase)])
    case Ingest(e) => s.(events := Save(s.events, e).0)
    case ArmWait(w) => if w.resolution.None? then s.(waits := SaveWait(s.waits, w).0) else s
    case EndRun(id) => s.(ended := s.ended + {id})
  }

  ghost function Play(s: World, h: seq<Action>): World
    decreases |h|
  {
    if h == [] then s else Play(Step(s, h[0]), h[1..])
  }

  /** A resolution has its reason in the stores: the timer was due, the deadline past, the event there and eligible. */
  predicate Justified(w: Wait, es: Events) {
    w.resolution.Some? ==>
      var r := w.resolution.value;
      && r.at >= w.armedAt
      && match r.kind
         case TimerFired => w.arm.Timer? && r.at >= w.arm.wakeAt && r.eventId.None?
         case EventReceived => r.eventId.Some? && r.eventId.value in es && Eligible(w, es[r.eventId.value], r.at)
         case TimedOut => w.arm.OnEvent? && w.arm.expiresAt.Some? && r.at >= w.arm.expiresAt.value && r.eventId.None?
         case Cancelled => false
  }

  /** The stored wait is the one that was read, unless it was resolved since. */
  predicate Descends(read: Wait, stored: Wait) {
    read.(resolution := None) == stored.(resolution := None) && (read.resolution.Some? ==> read == stored)
  }

  predicate ResolverFits(s: World, r: Resolver) {
    match r.phase
    case Started => true
    case HasWait(w) => r.nodeRunId in s.waits && Descends(w, s.waits[r.nodeRunId])
    case MayResolve(w) => r.nodeRunId in s.waits && Descends(w, s.waits[r.nodeRunId])
    case Saving(next) =>
      && r.nodeRunId in s.waits && next.resolution.Some? && Justified(next, s.events)
      && next.(resolution := None) == s.waits[r.nodeRunId].(resolution := None)
    case Done(result) => result.Ok? ==> r.nodeRunId in s.waits && Descends(result.value, s.waits[r.nodeRunId])
  }

  predicate Sound(s: World) {
    && Keyed(s.events) && Unique(s.events)
    && (forall id :: id in s.waits ==> s.waits[id].nodeRunId == id && Justified(s.waits[id], s.events))
    && (forall i :: 0 <= i < |s.resolvers| ==> ResolverFits(s, s.resolvers[i]))
  }

  lemma DecisionIsJustified(w: Wait, es: Events, now: int)
    requires Keyed(es)
    ensures var e := DecideEvent(w, es, now); e.Ok? && e.value != w ==>
      w.resolution.None? && e.value.resolution.Some? && Justified(e.value, es) && e.value.(resolution := None) == w
    ensures var t := DecideTimer(w, now); t.Ok? && t.value != w ==>
      w.resolution.None? && t.value.resolution.Some? && Justified(t.value, es) && t.value.(resolution := None) == w
  {
  }

  /** Later states: resolved waits are unchanged, the others keep what they were armed with. */
  predicate Later(s: World, s': World) {
    && (forall id :: id in s.waits ==> id in s'.waits && Descends(s.waits[id], s'.waits[id]))
    && (forall id :: id in s.events ==> id in s'.events && s'.events[id] == s.events[id])
  }

  lemma FitsLater(s: World, s': World, r: Resolver)
    requires Later(s, s') && ResolverFits(s, r)
    ensures ResolverFits(s', r)
  {
  }

  lemma RunKeepsSound(s: World, i: nat)
    requires Sound(s) && i < |s.resolvers|
    ensures Sound(Step(s, Run(i))) && Later(s, Step(s, Run(i)))
  {
    var r := s.resolvers[i];
    var s' := Step(s, Run(i));
    if r.phase.MayResolve? {
      DecisionIsJustified(r.phase.wait, s.events, r.now);
    }
    assert ResolverFits(s, r);
    assert Later(s, s');
    assert ResolverFits(s', s'.resolvers[i]);
    forall j | 0 <= j < |s.resolvers| && j != i
      ensures ResolverFits(s', s'.resolvers[j])
    {
      FitsLater(s, s', s.resolvers[j]);
    }
  }

  lemma StepKeepsSound(s: World, a: Action)
    requires Sound(s)
    ensures Sound(Step(s, a)) && Later(s, Step(s, a))
  {
    var s' := Step(s, a);
    if a.Run? {
      if a.i < |s.resolvers| { RunKeepsSound(s, a.i); }
    } else {
      assert Later(s, s');
      forall j | 0 <= j < |s.resolvers|
        ensures ResolverFits(s', s'.resolvers[j])
      {
        FitsLater(s, s', s.resolvers[j]);
      }
    }
  }

  lemma {:induction false} HistoryKeepsSound(s: World, h: seq<Action>)
    requires Sound(s)
    ensures Sound(Play(s, h)) && Later(s, Play(s, h)) && |Play(s, h).resolvers| == |s.resolvers|
    ensures forall i :: 0 <= i < |s.resolvers| ==> Play(s, h).resolvers[i].nodeRunId == s.resolvers[i].nodeRunId
    decreases |h|
  {
    if h != [] {
      StepKeepsSound(s, h[0]);
      HistoryKeepsSound(Step(s, h[0]), h[1..]);
    }
  }

  /** A wait resolved at any point of a history is the same record at its end. */
  lemma ResolutionIsSetOnce(s: World, h: seq<Action>, id: string)
    requires Sound(s) && id in s.waits && s.waits[id].resolution.Some?
    ensures id in Play(s, h).waits && Play(s, h).waits[id] == s.waits[id]
  {
    HistoryKeepsSound(s, h);
  }

  /**
   * Resolvers of one wait that come back with a resolution come back with the same record: the stored
   * one, and it is justified. A resolver that lost the race to a different resolution gets an error.
   */
  lemma RacingResolversAgree(s: World, h: seq<Action>, i: nat, j: nat)
    requires Sound(s) && i < |s.resolvers| && j < |s.resolvers| && s.resolvers[i].nodeRunId == s.resolvers[j].nodeRunId
    ensures |Play(s, h).resolvers| == |s.resolvers|
    ensures var s' := Play(s, h);
      var a, b := s'.resolvers[i].phase, s'.resolvers[j].phase;
      a.Done? && a.result.Ok? && a.result.value.resolution.Some? ==>
        && s.resolvers[i].nodeRunId in s'.waits && s'.waits[s.resolvers[i].nodeRunId] == a.result.value
        && Justified(a.result.value, s'.events)
        && (b.Done? && b.result.Ok? && b.result.value.resolution.Some? ==> b.result.value == a.result.value)
  {
    HistoryKeepsSound(s, h);
    var s' := Play(s, h);
    assert ResolverFits(s', s'.resolvers[i]) && ResolverFits(s', s'.resolvers[j]);
  }

  // ---- Events beat timeouts ----

  /** A resolver times a wait out exactly when, of the events it sees, none is eligible and the deadline is past. */
  lemma TimeoutOnlyWithoutEvent(w: Wait, es: Events, now: int)
    requires Keyed(es) && w.resolution.None? && w.arm.OnEvent? && now >= w.armedAt
    ensures (DecideEvent(w, es, now).Ok? && DecideEvent(w, es, now).value.resolution.Some?
             && DecideEvent(w, es, now).value.resolution.value.kind == TimedOut) <==>
      (w.arm.expiresAt.Some? && now >= w.arm.expiresAt.value && forall id :: id in es ==> !Eligible(w, es[id], now))
    ensures DecideEvent(w, es, now).Ok?
  {
    if exists id :: id in es && Eligible(w, es[id], now) {
      var id :| id in es && Eligible(w, es[id], now);
      var winner := SomebodyWins(w, es, now, es.Keys, id);
      assert Wins(w, es, now, winner);
    }
  }

  predicate WinsAmong(w: Wait, es: Events, now: int, among: set<string>, id: string) {
    && id in es && id in among && Eligible(w, es[id], now)
    && forall j :: j in among && j in es && j != id && Eligible(w, es[j], now) ==> Sooner(es[id], es[j])
  }

  lemma {:induction false} SomebodyWins(w: Wait, es: Events, now: int, among: set<string>, some: string) returns (winner: string)
    requires Keyed(es) && among <= es.Keys && some in among && Eligible(w, es[some], now)
    ensures WinsAmong(w, es, now, among, winner)
    decreases among
  {
    var rest := among - {some};
    if exists id :: id in rest && Eligible(w, es[id], now) {
      var other :| other in rest && Eligible(w, es[other], now);
      var best := SomebodyWins(w, es, now, rest, other);
      Pagination.LessIsStrict(some, best);
      if Sooner(es[some], es[best]) {
        forall j | j in rest && Eligible(w, es[j], now)
          ensures Sooner(es[some], es[j])
        {
          if j != best { SoonerIsTransitive(es[some], es[best], es[j]); }
        }
        return some;
      }
      return best;
    }
    return some;
  }
}
