/** Leases over time: how long the owner of an attempt keeps it, and from when on it can be taken away. */
module Leases {
  import opened Common
  import opened RunStore
  import opened RunHistory

  /** A running attempt that its owner holds until an instant. */
  predicate Leased(st: Store, id: string, owner: string, generation: nat, until: int) {
    && id in st.attempts
    && var a := st.attempts[id];
    && a.status == AttemptState.RUNNING && a.executionOwner == Some(owner) && a.executionGeneration == generation
    && a.leaseExpiresAt == Some(until)
  }

  /** The calls that can move an attempt that exists are those that name it. */
  predicate Concerns(c: Command, id: string) {
    match c
    case CreateRun(_, _) => false
    case MoveRun(_, _) => false
    case MovePair(p, _) => p.attempt.id == id
    case RenewLease(i, _, _, _) => i == id
    case ExpireLease(i, _) => i == id
    case InterruptRun(i, _, _) => i == id
    case ScheduleRecovery(_, _, newId, _) => newId == id
  }

  lemma OtherCallsLeaveIt(st: Store, now: int, c: Command, id: string)
    requires id in st.attempts && (Concerns(c, id) ==> Outcome(st, now, c).Err?)
    ensures id in After(st, now, c).attempts && After(st, now, c).attempts[id] == st.attempts[id]
  {
  }

  /** No call that names the attempt succeeds. */
  predicate LeftAlone(st: Store, id: string, h: seq<Call>)
    decreases |h|
  {
    h == [] || (&& (Concerns(h[0].command, id) ==> Outcome(st, h[0].now, h[0].command).Err?)
                && LeftAlone(After(st, h[0].now, h[0].command), id, h[1..]))
  }

  lemma {:induction false} StaysAsItIs(st: Store, id: string, h: seq<Call>)
    requires id in st.attempts && LeftAlone(st, id, h)
    ensures id in Play(st, h).attempts && Play(st, h).attempts[id] == st.attempts[id]
    decreases |h|
  {
    if h != [] {
      OtherCallsLeaveIt(st, h[0].now, h[0].command, id);
      StaysAsItIs(After(st, h[0].now, h[0].command), id, h[1..]);
    }
  }

  /** The attempt and its run were there before the instant at which the attempt is to end. */
  predicate Before(st: Store, id: string, now: int)
    requires id in st.attempts
  {
    var a := st.attempts[id];
    && a.sequence >= 1
    && (if a.startedAt.Some? then a.createdAt <= a.startedAt.value <= now else a.createdAt <= now)
    && a.runId in st.runs && st.runs[a.runId].createdAt <= now
  }

  /** Who may renew and who may expire a leased attempt, at any instant. */
  ghost predicate HoldsUntil(st: Store, id: string, owner: string, generation: nat, until: int, now: int)
    requires id in st.attempts
  {
    && (forall o, g, ttl {:trigger RenewLease(id, o, g, ttl)} ::
          Outcome(st, now, RenewLease(id, o, g, ttl)).Ok? <==> o == owner && g == generation && now < until)
    && (forall g {:trigger ExpireLease(id, g)} ::
          Outcome(st, now, ExpireLease(id, g)).Ok? <==>
            && g == generation && until <= now && Before(st, id, now)
            && st.runs[st.attempts[id].runId].status == RunState.RUNNING)
  }

  lemma LeaseDecides(st: Store, id: string, owner: string, generation: nat, until: int, now: int)
    requires Leased(st, id, owner, generation, until) && generation >= 1
    ensures HoldsUntil(st, id, owner, generation, until, now)
  {
  }

  /**
   * After any history that leaves the attempt alone: before the lease runs out its owner, and nobody
   * else, renews it and it does not expire; from then on nobody renews it, and it expires as soon as
   * somebody asks while its run is running.
   */
  lemma LeaseLasts(st: Store, id: string, owner: string, generation: nat, until: int, h: seq<Call>, now: int)
    requires Leased(st, id, owner, generation, until) && generation >= 1 && LeftAlone(st, id, h)
    ensures id in Play(st, h).attempts && HoldsUntil(Play(st, h), id, owner, generation, until, now)
  {
    StaysAsItIs(st, id, h);
    LeaseDecides(Play(st, h), id, owner, generation, until, now);
  }

  /** A renewal is refused to anybody but the owner in time; a generation below one is no lease. */
  lemma RenewalIsDecided(st: Store, now: int, id: string, owner: string, generation: nat, ttl: int)
    ensures var o := Outcome(st, now, RenewLease(id, owner, generation, ttl));
      if exists until :: Leased(st, id, owner, generation, until) && now < until
      then (if generation >= 1 then o.Ok? else o == Err(InvariantViolation))
      else o == Err(LifecycleConflict)
  {
    if id in st.attempts && st.attempts[id].leaseExpiresAt.Some? {
      var until := st.attempts[id].leaseExpiresAt.value;
      assert Leased(st, id, owner, generation, until) || !MayRenew(st, id, owner, generation, now);
    }
  }

  /** A renewal at `t` holds until `t + ttl`, and changes nothing but the lease. */
  lemma RenewedLeaseLasts(st: Store, t: int, id: string, owner: string, generation: nat, ttl: int, h: seq<Call>, now: int)
    requires Outcome(st, t, RenewLease(id, owner, generation, ttl)).Ok?
    requires LeftAlone(After(st, t, RenewLease(id, owner, generation, ttl)), id, h)
    ensures var st' := After(st, t, RenewLease(id, owner, generation, ttl));
      && id in st.attempts
      && st' == st.(attempts := st.attempts[id := st.attempts[id].(leaseExpiresAt := Some(t + ttl))])
      && id in Play(st', h).attempts && HoldsUntil(Play(st', h), id, owner, generation, t + ttl, now)
  {
    LeaseLasts(After(st, t, RenewLease(id, owner, generation, ttl)), id, owner, generation, t + ttl, h, now);
  }

  /** An attempt that is started with an owner and a lease holds until its start plus that lease. */
  lemma StartedLeaseLasts(st: Store, t: int, p: Pair, wall: int, h: seq<Call>, now: int)
    requires Outcome(st, t, MovePair(p, wall)).Ok? && LeftAlone(After(st, t, MovePair(p, wall)), p.attempt.id, h)
    requires p.attempt.status == AttemptState.RUNNING && p.attempt.executionOwner.Some? && p.leaseTtl.Some?
    ensures var st' := After(st, t, MovePair(p, wall));
      var start := if p.attempt.startedAt.Some? then p.attempt.startedAt.value else wall;
      && p.attempt.id in Play(st', h).attempts
      && HoldsUntil(Play(st', h), p.attempt.id, p.attempt.executionOwner.value, p.attempt.executionGeneration,
                    start + p.leaseTtl.value, now)
  {
    var start := if p.attempt.startedAt.Some? then p.attempt.startedAt.value else wall;
    LeaseLasts(After(st, t, MovePair(p, wall)), p.attempt.id, p.attempt.executionOwner.value, p.attempt.executionGeneration,
               start + p.leaseTtl.value, h, now);
  }

  // ---- Heartbeats ----

  predicate IsBeat(c: Command, id: string, owner: string, generation: nat) {
    c.RenewLease? && c.id == id && c.owner == owner && c.generation == generation
  }

  /**
   * Every call comes before the lease as last renewed runs out. The attempt may be renewed and asked to
   * expire by anybody; nothing else names it.
   */
  predicate BeatsInTime(until: int, h: seq<Call>, id: string, owner: string, generation: nat)
    decreases |h|
  {
    h == [] ||
    (&& h[0].now < until
     && (Concerns(h[0].command, id) ==> h[0].command.RenewLease? || h[0].command.ExpireLease?)
     && BeatsInTime(if IsBeat(h[0].command, id, owner, generation) then h[0].now + h[0].command.ttl else until,
                    h[1..], id, owner, generation))
  }

  predicate NeverExpires(st: Store, h: seq<Call>, id: string)
    decreases |h|
  {
    h == [] ||
    (&& (h[0].command.ExpireLease? && h[0].command.id == id ==> Outcome(st, h[0].now, h[0].command).Err?)
     && NeverExpires(After(st, h[0].now, h[0].command), h[1..], id))
  }

  /** An owner whose every renewal comes in time keeps its attempt: no expiry succeeds against it. */
  lemma {:induction false} HeartbeatsKeepTheAttempt(st: Store, id: string, owner: string, generation: nat, until: int, h: seq<Call>)
    requires Leased(st, id, owner, generation, until) && generation >= 1 && BeatsInTime(until, h, id, owner, generation)
    ensures NeverExpires(st, h, id)
    ensures id in Play(st, h).attempts && Play(st, h).attempts[id].status == AttemptState.RUNNING
    decreases |h|
  {
    if h != [] {
      var c, now := h[0].command, h[0].now;
      LeaseDecides(st, id, owner, generation, until, now);
      if IsBeat(c, id, owner, generation) {
        assert Outcome(st, now, RenewLease(id, owner, generation, c.ttl)).Ok?;
        HeartbeatsKeepTheAttempt(After(st, now, c), id, owner, generation, now + c.ttl, h[1..]);
      } else {
        if c.RenewLease? && c.id == id {
          assert Outcome(st, now, RenewLease(id, c.owner, c.generation, c.ttl)).Err?;
        } else if c.ExpireLease? && c.id == id {
          assert Outcome(st, now, ExpireLease(id, c.generation)).Err?;
        }
        OtherCallsLeaveIt(st, now, c, id);
        HeartbeatsKeepTheAttempt(After(st, now, c), id, owner, generation, until, h[1..]);
      }
    }
  }
}
