/**
 * External operations happen at most once on a real checkpoint store too, whatever its rows read back
 * as and whatever the digest makes of them.
 */
module StoredSideEffects {
  import opened Common
  import opened Conversation
  import opened OperationJournal
  import opened AgentSemantics
  import opened DurableMachine
  import opened SideEffects
  import opened CheckpointReadBack
  import CheckpointLog

  function PlayHeldMoves(kind: StoreKind, digest: Digest, x: Held, ms: seq<Move>): (r: Held)
    requires WellFormed(x.sys.local)
    ensures WellFormed(r.sys.local)
    decreases |ms|
  {
    if ms == [] then x else PlayHeldMoves(kind, digest, StepHeld(kind, digest, ms[0].w, x, ms[0].e), ms[1..])
  }

  /** Restarts happen only when no entry of the run blocks, as the recovery command checks. */
  ghost predicate HeldGated(kind: StoreKind, digest: Digest, x: Held, ms: seq<Move>)
    requires WellFormed(x.sys.local)
    decreases |ms|
  {
    ms == [] ||
    (&& (ms[0].e.DoRestart? ==> forall k :: !Blocking(x.sys.journal, x.sys.local.id.runId, k))
     && HeldGated(kind, digest, StepHeld(kind, digest, ms[0].w, x, ms[0].e), ms[1..]))
  }

  /** A restart, refused or not and from whatever state, is no operation and puts none in flight. */
  lemma RestartIsQuiet(kind: StoreKind, digest: Digest, w: World, x: Held, e: Event, k: OpKey)
    requires WellFormed(x.sys.local) && e.DoRestart?
    ensures var r := StepHeld(kind, digest, w, x, e).sys;
      && r.journal == x.sys.journal && r.everFailed == x.sys.everFailed && r.invoked == x.sys.invoked
      && r.local.id.runId == x.sys.local.id.runId && r.local.id.workspaceId == x.sys.local.id.workspaceId
      && !At(r.local, k)
  {
  }

  lemma HeldStepKeepsOnce(kind: StoreKind, digest: Digest, x: Held, m: Move)
    requires WellFormed(x.sys.local) && m.w.journaled && Once(x.sys, m.w.canonical)
    ensures var r := StepHeld(kind, digest, m.w, x, m.e).sys;
      Once(r, m.w.canonical) && r.local.id.runId == x.sys.local.id.runId
  {
    if m.e.DoRestart? {
      var r := StepHeld(kind, digest, m.w, x, m.e).sys;
      forall k: OpKey | k.runId == r.local.id.runId
        ensures KeyFacts(r, k, m.w.canonical)
      {
        RestartIsQuiet(kind, digest, m.w, x, m.e, k);
        assert KeyFacts(x.sys, k, m.w.canonical);
      }
    } else {
      StepKeepsOnce(x.sys, m);
    }
  }

  lemma HeldStepKeepsWriteFacts(kind: StoreKind, digest: Digest, x: Held, m: Move, k: OpKey)
    requires WellFormed(x.sys.local) && m.w.journaled && k.runId == x.sys.local.id.runId
    requires KeyFacts(x.sys, k, m.w.canonical) && WriteFacts(x.sys, k)
    requires m.e.DoRestart? ==> !Blocking(x.sys.journal, x.sys.local.id.runId, k)
    ensures WriteFacts(StepHeld(kind, digest, m.w, x, m.e).sys, k)
  {
    match m.e {
      case DoTick => TickKeepsWriteFacts(m.w, x.sys, k);
      case DoRestart(_, _, _) => RestartIsQuiet(kind, digest, m.w, x, m.e, k);
      case DoClear(_) =>
    }
  }

  lemma {:induction false} HeldMovesKeepOnce(kind: StoreKind, digest: Digest, x: Held, ms: seq<Move>,
                                             canonical: Json -> bool, k: OpKey)
    requires WellFormed(x.sys.local) && Journaled(ms, canonical) && Once(x.sys, canonical) && k.runId == x.sys.local.id.runId
    ensures var r := PlayHeldMoves(kind, digest, x, ms).sys;
      && KeyFacts(r, k, canonical)
      && (WriteFacts(x.sys, k) && HeldGated(kind, digest, x, ms) ==> WriteFacts(r, k))
    decreases |ms|
  {
    if ms == [] {
      assert KeyFacts(x.sys, k, canonical);
    } else {
      var m := ms[0];
      assert m.w.canonical == canonical && KeyFacts(x.sys, k, canonical);
      HeldStepKeepsOnce(kind, digest, x, m);
      if WriteFacts(x.sys, k) && HeldGated(kind, digest, x, ms) {
        HeldStepKeepsWriteFacts(kind, digest, x, m, k);
      }
      HeldMovesKeepOnce(kind, digest, StepHeld(kind, digest, m.w, x, m.e), ms[1..], canonical, k);
    }
  }

  /**
   * Over every sequence of attempts, refusals and crashes on either store: an operation that is not safe
   * to replay is invoked at most once as long as it was never marked FAILED, and a write at most once
   * behind the eligibility check even then.
   */
  lemma AtMostOnceOnStore(kind: StoreKind, digest: Digest, first: Sys, ms: seq<Move>, canonical: Json -> bool, k: OpKey)
    requires FirstAttempt(first) && Journaled(ms, canonical) && k.runId == first.local.id.runId
    ensures var r := PlayHeldMoves(kind, digest, Before(first), ms).sys;
      && (k !in r.journal ==> Count(r.invoked, k) == 0)
      && (k in r.journal && k !in r.everFailed && !SafeToAutoReplay(r.journal[k].idempotencyClass, PENDING) ==>
            Count(r.invoked, k) <= 1)
      && (HeldGated(kind, digest, Before(first), ms) && k in r.journal && Writes(r.journal[k].idempotencyClass) ==>
            Count(r.invoked, k) <= 1)
  {
    FirstAttemptIsOnce(first, canonical);
    HeldMovesKeepOnce(kind, digest, Before(first), ms, canonical, k);
  }
}
