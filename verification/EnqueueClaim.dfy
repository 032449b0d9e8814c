/**
 * The enqueue claim: an atomic script on two shared keys, the bounded retry loop around it, and any
 * number of callers of it that interleave, fail and crash.
 */
module EnqueueClaim {
  import opened Common

  const TTL_MS := 60000
  const IN_FLIGHT_PTTL_MS := 45000

  /** Time after a claim at which another caller may take it away. */
  const GRACE_MS := TTL_MS - IN_FLIGHT_PTTL_MS

  datatype Claim = Claim(token: nat, expiresAt: int)

  /** What the shared store knows about one job id. */
  datatype Keys = Keys(claim: Option<Claim>, job: bool)

  datatype ScriptResult = Claimed | AlreadyPresent | InFlight | Steal | Retry

  predicate Held(k: Keys, now: int) {
    k.claim.Some? && now < k.claim.value.expiresAt
  }

  /** A claim that another caller must respect. */
  predicate Fresh(k: Keys, now: int) {
    Held(k, now) && k.claim.value.expiresAt - now > IN_FLIGHT_PTTL_MS
  }

  /** The script as one step: its answer and the keys afterwards. */
  function Acquire(k: Keys, token: nat, now: int): (ScriptResult, Keys) {
    if k.job then (AlreadyPresent, k)
    else if !Held(k, now) then (Claimed, k.(claim := Some(Claim(token, now + TTL_MS))))
    else if Fresh(k, now) then (InFlight, k)
    else (Steal, k.(claim := None))
  }

  // ---- One caller at a time ----

  datatype Outcome = Enqueued | Present | Failed

  class Valkey {
    var claim: Option<Claim>
    var job: bool

    ghost function State(): Keys
      reads this
    {
      Keys(claim, job)
    }

    method Exists(now: int) returns (r: bool)
      ensures r == Held(State(), now)
    {
      r := claim.Some? && now < claim.value.expiresAt;
    }

    method SetIfAbsent(token: nat, now: int) returns (r: bool)
      modifies this`claim
      ensures r == !Held(old(State()), now)
      ensures claim == if r then Some(Claim(token, now + TTL_MS)) else old(claim)
    {
      var present := Exists(now);
      if present { return false; }
      claim := Some(Claim(token, now + TTL_MS));
      return true;
    }

    /** The script, command by command. Time stands still while it runs, so `Retry` cannot come up. */
    method AcquireEnqueueClaim(token: nat, now: int) returns (r: ScriptResult)
      modifies this`claim
      ensures (r, State()) == Acquire(old(State()), token, now)
      ensures r != Retry
    {
      if job { return AlreadyPresent; }
      var taken := SetIfAbsent(token, now);
      if taken { return Claimed; }
      if job { assert false; }
      var pttl := claim.value.expiresAt - now;
      if pttl > IN_FLIGHT_PTTL_MS { return InFlight; }
      var present := Exists(now);
      if !present { assert false; }
      claim := None;
      return Steal;
    }

    /**
     * The retry loop for a caller nobody interferes with. `instants` are the times of its script
     * calls, `tokens` its claim tokens; `addWorks` tells whether the queue accepts the job.
     */
    method EnqueueWithTransportClaim(tokens: seq<nat>, instants: seq<int>, addWorks: bool)
      returns (outcome: Outcome, rounds: nat)
      requires |tokens| == 3 && |instants| == 3 && instants[0] <= instants[1] <= instants[2]
      modifies this
      ensures outcome ==
        if old(job) || Fresh(old(State()), instants[0]) then Present else if addWorks then Enqueued else Failed
      ensures rounds == if !old(job) && Held(old(State()), instants[0]) && !Fresh(old(State()), instants[0]) then 2 else 1
      ensures job == (old(job) || outcome == Enqueued)
      ensures outcome == Present ==> claim == old(claim)
      ensures outcome == Failed ==> claim == None
      ensures outcome == Enqueued ==> claim == Some(Claim(tokens[rounds - 1], instants[rounds - 1] + TTL_MS))
    {
      ghost var start := State();
      rounds := 0;
      while rounds < 3
        invariant rounds == 0 ==> State() == start
        invariant rounds == 1 ==>
          Acquire(start, tokens[0], instants[0]).0 == Steal && State() == Acquire(start, tokens[0], instants[0]).1
        invariant rounds <= 1
      {
        var result := AcquireEnqueueClaim(tokens[rounds], instants[rounds]);
        rounds := rounds + 1;
        if result == AlreadyPresent || result == InFlight { return Present, rounds; }
        if result == Retry || result == Steal { continue; }
        if addWorks {
          job := true;
          return Enqueued, rounds;
        }
        claim := None;
        return Failed, rounds;
      }
      assert false;
    }
  }

  // ---- Any number of callers ----

  /**
   * Where a call stands. `Adding` and `Cleaning` remember when the claim was made. A caller that dies
   * may leave a command behind that still arrives: its add, or its deletion of the claim.
   */
  datatype Caller =
    | Trying(left: nat)
    | Adding(since: int)
    | Cleaning(since: int)
    | Returned(outcome: Outcome)
    | Dead
    | DeadAdding
    | DeadCleaning(since: int)

  datatype System = System(keys: Keys, callers: seq<Caller>, now: int)

  datatype Event =
    | Script(i: nat)
    | AddOk(i: nat)
    | AddFails(i: nat, landed: bool)
    | Delete(i: nat)
    | Crash(i: nat)
    | LateAdd(i: nat)
    | LateDelete(i: nat)
    | Advance(ms: nat)

  function With(s: System, keys: Keys, i: nat, c: Caller): System
    requires i < |s.callers|
  {
    System(keys, s.callers[i := c], s.now)
  }

  function RunScript(s: System, i: nat): System
    requires i < |s.callers| && s.callers[i].Trying?
  {
    var left := s.callers[i].left;
    if left == 0 then With(s, s.keys, i, Returned(Present))
    else
      var (result, keys) := Acquire(s.keys, i, s.now);
      match result
      case Claimed => With(s, keys, i, Adding(s.now))
      case Steal => With(s, keys, i, Trying(left - 1))
      case Retry => With(s, keys, i, Trying(left - 1))
      case _ => With(s, keys, i, Returned(Present))
  }

  /**
   * One event; an event that cannot happen changes nothing. The queue accepts an add for a job id it
   * already holds without adding again, so the caller still learns of success. A failed add may
   * nevertheless have landed.
   */
  function Step(s: System, e: Event): System {
    match e
    case Advance(ms) => s.(now := s.now + ms)
    case Script(i) => if i < |s.callers| && s.callers[i].Trying? then RunScript(s, i) else s
    case AddOk(i) =>
      if i < |s.callers| && s.callers[i].Adding? then With(s, s.keys.(job := true), i, Returned(Enqueued)) else s
    case AddFails(i, landed) =>
      if i < |s.callers| && s.callers[i].Adding?
      then With(s, s.keys.(job := s.keys.job || landed), i, Cleaning(s.callers[i].since)) else s
    case Delete(i) =>
      if i < |s.callers| && s.callers[i].Cleaning? then With(s, s.keys.(claim := None), i, Returned(Failed)) else s
    case Crash(i) =>
      if i >= |s.callers| then s
      else (match s.callers[i]
            case Trying(_) => With(s, s.keys, i, Dead)
            case Adding(_) => With(s, s.keys, i, DeadAdding)
            case Cleaning(since) => With(s, s.keys, i, DeadCleaning(since))
            case _ => s)
    case LateAdd(i) =>
      if i < |s.callers| && s.callers[i].DeadAdding? then With(s, s.keys.(job := true), i, Dead) else s
    case LateDelete(i) =>
      if i < |s.callers| && s.callers[i].DeadCleaning? then With(s, s.keys.(claim := None), i, Dead) else s
  }

  function Play(s: System, events: seq<Event>): System
    decreases |events|
  {
    if events == [] then s else Play(Step(s, events[0]), events[1..])
  }

  /** Surviving claimers settle within one deadline, and deletions left behind arrive within another. */
  predicate Timely(s: System, e: Event, settle: int, arrive: int) {
    match e
    case Advance(ms) =>
      forall i :: 0 <= i < |s.callers| && (s.callers[i].Adding? || s.callers[i].Cleaning?) ==>
        s.now + ms < s.callers[i].since + settle
    case LateDelete(i) =>
      i < |s.callers| && s.callers[i].DeadCleaning? ==> s.now < s.callers[i].since + arrive
    case _ => true
  }

  predicate AllTimely(s: System, events: seq<Event>, settle: int, arrive: int)
    decreases |events|
  {
    events == [] || (Timely(s, events[0], settle, arrive) && AllTimely(Step(s, events[0]), events[1..], settle, arrive))
  }

  predicate Busy(c: Caller) {
    c.Adding? || c.Cleaning?
  }

  /** The caller relies on the claim being its own. */
  predicate Holds(s: System, i: nat)
    requires i < |s.callers|
  {
    Busy(s.callers[i]) || (s.callers[i].DeadCleaning? && s.now < s.callers[i].since + GRACE_MS)
  }

  predicate Guarded(s: System) {
    && (forall i :: 0 <= i < |s.callers| && Holds(s, i) ==>
          s.callers[i].since <= s.now < s.callers[i].since + GRACE_MS
          && s.keys.claim == Some(Claim(i, s.callers[i].since + TTL_MS)))
    && (forall i :: 0 <= i < |s.callers| && s.callers[i].DeadCleaning? ==> s.callers[i].since <= s.now)
    && (forall i :: 0 <= i < |s.callers| && s.callers[i] == Returned(Enqueued) ==>
          s.keys.job && forall j :: 0 <= j < |s.callers| ==> !s.callers[j].Adding?)
    && (forall i, j :: 0 <= i < j < |s.callers| ==> !(s.callers[i] == Returned(Enqueued) && s.callers[j] == Returned(Enqueued)))
  }

  lemma ScriptKeepsGuarded(s: System, i: nat)
    requires Guarded(s) && i < |s.callers| && s.callers[i].Trying?
    ensures Guarded(RunScript(s, i))
  {
    var s' := RunScript(s, i);
    forall j | 0 <= j < |s.callers| && j != i
      ensures s'.callers[j] == s.callers[j] && (Holds(s', j) <==> Holds(s, j))
    {
    }
    if exists j :: 0 <= j < |s.callers| && Holds(s, j) {
      var j :| 0 <= j < |s.callers| && Holds(s, j);
      assert Fresh(s.keys, s.now);
    }
  }

  lemma AdvanceKeepsGuarded(s: System, ms: nat)
    requires Guarded(s) && Timely(s, Advance(ms), GRACE_MS, GRACE_MS)
    ensures Guarded(Step(s, Advance(ms)))
  {
  }

  /** The caller that settles was the only one to hold the claim, so it can give it up. */
  lemma SettlingKeepsGuarded(s: System, keys: Keys, i: nat, c: Caller)
    requires Guarded(s) && i < |s.callers| && (s.keys.job ==> keys.job)
    requires Holds(s, i) || (s.callers[i].DeadAdding? && keys.claim == s.keys.claim)
    requires c == Dead || (c == Returned(Failed) && s.callers[i].Cleaning?)
             || (c == Returned(Enqueued) && s.callers[i].Adding? && keys.job)
    ensures Guarded(With(s, keys, i, c))
  {
  }

  /** Going from adding to cleaning, or dying, without touching the claim. */
  lemma MovingOnKeepsGuarded(s: System, keys: Keys, i: nat, c: Caller)
    requires Guarded(s) && i < |s.callers| && (s.keys.job ==> keys.job) && keys.claim == s.keys.claim
    requires c == Dead || c == DeadAdding
             || (c == Cleaning(if Holds(s, i) then s.callers[i].since else 0) && s.callers[i].Adding?)
             || (s.callers[i].Cleaning? && c == DeadCleaning(s.callers[i].since))
    ensures Guarded(With(s, keys, i, c))
  {
  }

  lemma TimelyStepKeepsGuarded(s: System, e: Event)
    requires Guarded(s) && Timely(s, e, GRACE_MS, GRACE_MS)
    ensures Guarded(Step(s, e))
  {
    if e.Advance? {
      AdvanceKeepsGuarded(s, e.ms);
    } else if e.i < |s.callers| {
      var i, c := e.i, s.callers[e.i];
      match e
      case Script(_) => if c.Trying? { ScriptKeepsGuarded(s, i); }
      case AddOk(_) => if c.Adding? { SettlingKeepsGuarded(s, s.keys.(job := true), i, Returned(Enqueued)); }
      case AddFails(_, landed) => if c.Adding? { MovingOnKeepsGuarded(s, s.keys.(job := s.keys.job || landed), i, Cleaning(c.since)); }
      case Delete(_) => if c.Cleaning? { SettlingKeepsGuarded(s, s.keys.(claim := None), i, Returned(Failed)); }
      case LateAdd(_) => if c.DeadAdding? { SettlingKeepsGuarded(s, s.keys.(job := true), i, Dead); }
      case LateDelete(_) => if c.DeadCleaning? { SettlingKeepsGuarded(s, s.keys.(claim := None), i, Dead); }
      case Crash(_) =>
        if c.Trying? { MovingOnKeepsGuarded(s, s.keys, i, Dead); }
        else if c.Adding? { MovingOnKeepsGuarded(s, s.keys, i, DeadAdding); }
        else if c.Cleaning? { MovingOnKeepsGuarded(s, s.keys, i, DeadCleaning(c.since)); }
    }
  }

  lemma {:induction false} TimelyHistoryKeepsGuarded(s: System, events: seq<Event>, settle: int, arrive: int)
    requires Guarded(s) && AllTimely(s, events, settle, arrive) && settle <= GRACE_MS && arrive <= GRACE_MS
    ensures Guarded(Play(s, events))
    decreases |events|
  {
    if events != [] {
      TimelyStepKeepsGuarded(s, events[0]);
      TimelyHistoryKeepsGuarded(Step(s, events[0]), events[1..], settle, arrive);
    }
  }

  function Newcomers(n: nat): seq<Caller> {
    seq(n, _ => Trying(3))
  }

  predicate ReportedAtMostOnce(s: System) {
    forall i, j :: 0 <= i < j < |s.callers| ==> !(s.callers[i] == Returned(Enqueued) && s.callers[j] == Returned(Enqueued))
  }

  /**
   * For any number of callers, any leftover claim and any interleaving of their steps, failures and
   * crashes within deadlines of the grace period, at most one call reports that it enqueued the job.
   */
  lemma AtMostOneCallEnqueues(keys: Keys, n: nat, start: int, events: seq<Event>, settle: int, arrive: int)
    requires AllTimely(System(keys, Newcomers(n), start), events, settle, arrive)
    requires settle <= GRACE_MS && arrive <= GRACE_MS
    ensures ReportedAtMostOnce(Play(System(keys, Newcomers(n), start), events))
  {
    TimelyHistoryKeepsGuarded(System(keys, Newcomers(n), start), events, settle, arrive);
  }

  predicate ReportsHold(s: System) {
    (exists i :: 0 <= i < |s.callers| && s.callers[i] == Returned(Enqueued)) ==> s.keys.job
  }

  lemma StepKeepsReports(s: System, e: Event)
    requires ReportsHold(s)
    ensures ReportsHold(Step(s, e)) && (s.keys.job ==> Step(s, e).keys.job)
  {
  }

  /** The job never goes away, and a call that reports success leaves it there, timely or not. */
  lemma {:induction false} ReportedJobsExist(s: System, events: seq<Event>)
    requires ReportsHold(s)
    ensures ReportsHold(Play(s, events)) && (s.keys.job ==> Play(s, events).keys.job)
    decreases |events|
  {
    if events != [] {
      StepKeepsReports(s, events[0]);
      ReportedJobsExist(Step(s, events[0]), events[1..]);
    }
  }

  // ---- Why both deadlines are needed ----

  function SlowAdd(): seq<Event> {
    [Script(0), Advance(GRACE_MS)] + ([Script(1), Script(1)] + ([AddOk(0), AddOk(1)] + []))
  }

  /** An add that takes the whole grace period lets a second caller report success too. */
  lemma SlowAddEnqueuesTwice(settle: int, arrive: int)
    requires settle > GRACE_MS
    ensures AllTimely(System(Keys(None, false), Newcomers(2), 0), SlowAdd(), settle, arrive)
    ensures Play(System(Keys(None, false), Newcomers(2), 0), SlowAdd()).callers == [Returned(Enqueued), Returned(Enqueued)]
  {
    var s0 := System(Keys(None, false), Newcomers(2), 0);
    var s1 := Step(s0, Script(0));
    assert s1 == System(Keys(Some(Claim(0, TTL_MS)), false), [Adding(0), Trying(3)], 0);
    var s2 := Step(s1, Advance(GRACE_MS));
    var s3 := Step(s2, Script(1));
    assert s3 == System(Keys(None, false), [Adding(0), Trying(2)], GRACE_MS);
    var s4 := Step(s3, Script(1));
    assert s4 == System(Keys(Some(Claim(1, GRACE_MS + TTL_MS)), false), [Adding(0), Adding(GRACE_MS)], GRACE_MS);
    var s5 := Step(s4, AddOk(0));
    var s6 := Step(s5, AddOk(1));
    PlayTwo(s4, AddOk(0), AddOk(1), [], settle, arrive);
    PlayTwo(s2, Script(1), Script(1), [AddOk(0), AddOk(1)] + [], settle, arrive);
    PlayTwo(s0, Script(0), Advance(GRACE_MS), [Script(1), Script(1)] + ([AddOk(0), AddOk(1)] + []), settle, arrive);
  }

  /**
   * The deletion takes any claim away: if one caller's add fails and its deletion arrives only after a
   * second caller has claimed, a third caller claims as well and both report success.
   */
  lemma LateDeleteEnqueuesTwice(settle: int, arrive: int)
    requires arrive > GRACE_MS
    ensures AllTimely(System(Keys(None, false), Newcomers(3), 0), LateDeletion(), settle, arrive)
    ensures Play(System(Keys(None, false), Newcomers(3), 0), LateDeletion()).callers ==
      [Dead, Returned(Enqueued), Returned(Enqueued)]
  {
    var s0 := System(Keys(None, false), Newcomers(3), 0);
    var s2 := System(Keys(Some(Claim(0, TTL_MS)), false), [Cleaning(0), Trying(3), Trying(3)], 0);
    assert Step(Step(s0, Script(0)), AddFails(0, false)) == s2;
    var s4 := System(Keys(Some(Claim(0, TTL_MS)), false), [DeadCleaning(0), Trying(3), Trying(3)], GRACE_MS);
    assert Step(Step(s2, Crash(0)), Advance(GRACE_MS)) == s4;
    var s6 := System(Keys(Some(Claim(1, GRACE_MS + TTL_MS)), false), [DeadCleaning(0), Adding(GRACE_MS), Trying(3)], GRACE_MS);
    assert Step(Step(s4, Script(1)), Script(1)) == s6;
    LateDeleteEnding(s6, settle, arrive);
    PlayTwo(s4, Script(1), Script(1), LateDeleteEnd(), settle, arrive);
    PlayTwo(s2, Crash(0), Advance(GRACE_MS), [Script(1), Script(1)] + LateDeleteEnd(), settle, arrive);
    PlayTwo(s0, Script(0), AddFails(0, false), [Crash(0), Advance(GRACE_MS)] + ([Script(1), Script(1)] + LateDeleteEnd()),
            settle, arrive);
  }

  function LateDeletion(): seq<Event> {
    [Script(0), AddFails(0, false)] + ([Crash(0), Advance(GRACE_MS)] + ([Script(1), Script(1)] + LateDeleteEnd()))
  }

  function LateDeleteEnd(): seq<Event> {
    [LateDelete(0), Script(2)] + ([AddOk(1), AddOk(2)] + [])
  }

  lemma LateDeleteEnding(s: System, settle: int, arrive: int)
    requires s == System(Keys(Some(Claim(1, GRACE_MS + TTL_MS)), false), [DeadCleaning(0), Adding(GRACE_MS), Trying(3)], GRACE_MS)
    requires arrive > GRACE_MS
    ensures AllTimely(s, LateDeleteEnd(), settle, arrive)
    ensures Play(s, LateDeleteEnd()).callers == [Dead, Returned(Enqueued), Returned(Enqueued)]
  {
    PlayTwo(s, LateDelete(0), Script(2), [AddOk(1), AddOk(2)] + [], settle, arrive);
    PlayTwo(Step(Step(s, LateDelete(0)), Script(2)), AddOk(1), AddOk(2), [], settle, arrive);
  }

  lemma PlayTwo(s: System, a: Event, b: Event, rest: seq<Event>, settle: int, arrive: int)
    ensures Play(s, [a, b] + rest) == Play(Step(Step(s, a), b), rest)
    ensures AllTimely(s, [a, b] + rest, settle, arrive) <==>
      && Timely(s, a, settle, arrive) && Timely(Step(s, a), b, settle, arrive)
      && AllTimely(Step(Step(s, a), b), rest, settle, arrive)
  {
    assert ([a, b] + rest)[1..] == [b] + rest && ([b] + rest)[1..] == rest;
  }

  /** No history within the deadlines has two reports. */
  ghost predicate Safe(settle: int, arrive: int) {
    forall keys, n: nat, start, events | AllTimely(System(keys, Newcomers(n), start), events, settle, arrive) ::
      ReportedAtMostOnce(Play(System(keys, Newcomers(n), start), events))
  }

  /** The grace period is the threshold for both deadlines, and the only one. */
  lemma SafeIffWithinGrace(settle: int, arrive: int)
    ensures Safe(settle, arrive) <==> settle <= GRACE_MS && arrive <= GRACE_MS
  {
    if settle <= GRACE_MS && arrive <= GRACE_MS {
      forall keys, n: nat, start, events | AllTimely(System(keys, Newcomers(n), start), events, settle, arrive)
        ensures ReportedAtMostOnce(Play(System(keys, Newcomers(n), start), events))
      {
        AtMostOneCallEnqueues(keys, n, start, events, settle, arrive);
      }
    } else if settle > GRACE_MS {
      SlowAddEnqueuesTwice(settle, arrive);
      TwoReports(Play(System(Keys(None, false), Newcomers(2), 0), SlowAdd()), 0, 1);
    } else {
      LateDeleteEnqueuesTwice(settle, arrive);
      TwoReports(Play(System(Keys(None, false), Newcomers(3), 0), LateDeletion()), 1, 2);
    }
  }

  lemma TwoReports(s: System, i: nat, j: nat)
    requires i < j < |s.callers| && s.callers[i] == Returned(Enqueued) && s.callers[j] == Returned(Enqueued)
    ensures !ReportedAtMostOnce(s)
  {
  }

  // ---- The protocol in milliseconds ----

  /** Fifteen seconds are safe for both deadlines, and a millisecond more for either one is not. */
  lemma FifteenSecondsAreSafe(other: int)
    ensures Safe(15000, 15000) && !Safe(15001, other) && !Safe(other, 15001)
  {
    SafeIffWithinGrace(15000, 15000);
    SafeIffWithinGrace(15001, other);
    SafeIffWithinGrace(other, 15001);
  }

  /**
   * A claim made at `t`, as later callers find it while there is no job: respected for fifteen seconds,
   * taken away and left for the next round until a minute is over, and gone after that.
   */
  lemma ClaimAges(k: Keys, a: nat, t: int, b: nat, now: int)
    requires Acquire(k, a, t).0 == Claimed && t <= now
    ensures var made := Acquire(k, a, t).1;
      && made == Keys(Some(Claim(a, t + 60000)), false)
      && Acquire(made, b, now) ==
           if now < t + 15000 then (InFlight, made)
           else if now < t + 60000 then (Steal, Keys(None, false))
           else (Claimed, Keys(Some(Claim(b, now + 60000)), false))
  {
  }

  /** A claim is given exactly when there is neither a job nor a claim that lives; with a job nothing changes. */
  lemma ClaimedIffFree(k: Keys, a: nat, now: int)
    ensures Acquire(k, a, now).0 == Claimed <==> !k.job && (k.claim.None? || k.claim.value.expiresAt <= now)
    ensures Acquire(k, a, now).0 == AlreadyPresent <==> k.job
    ensures k.job ==> Acquire(k, a, now).1 == k
  {
  }

  /**
   * What settles a call: an add that works, or one that fails and the deletion of the claim after it. A
   * dead caller can still have its add or its deletion arrive, and nothing else happens in its name.
   */
  lemma CallsAreSettled(s: System, i: nat, landed: bool)
    requires i < |s.callers|
    ensures var c := s.callers[i];
      && Step(s, AddOk(i)) == (if c.Adding? then With(s, s.keys.(job := true), i, Returned(Enqueued)) else s)
      && (c.Adding? ==>
            var failed := Step(s, AddFails(i, landed));
            Step(failed, Delete(i)) == With(s, Keys(None, s.keys.job || landed), i, Returned(Failed)))
      && Step(s, LateAdd(i)) == (if c.DeadAdding? then With(s, s.keys.(job := true), i, Dead) else s)
      && Step(s, LateDelete(i)) == (if c.DeadCleaning? then With(s, s.keys.(claim := None), i, Dead) else s)
  {
  }

  /** A caller gives up after three rounds: then it answers that the job is there already. */
  lemma ThreeRounds(s: System, i: nat)
    requires i < |s.callers| && s.callers[i].Trying?
    ensures var (r, keys) := Acquire(s.keys, i, s.now);
      Step(s, Script(i)) ==
        if s.callers[i].left == 0 || r == InFlight || r == AlreadyPresent
        then s.(callers := s.callers[i := Returned(Present)])
        else s.(keys := keys, callers := s.callers[i :=
               if r == Claimed then Adding(s.now) else Trying(s.callers[i].left - 1)])
    ensures forall n: nat, j :: 0 <= j < n ==> Newcomers(n)[j] == Trying(3)
  {
  }
}
