/**
 * The write-ahead journal of external tool operations and the policy that says
 * which of its entries may be replayed without asking anybody.
 */
module OperationJournal {
  import opened Common

  type Json = string

  datatype IdempotencyClass = PURE | READ_ONLY | IDEMPOTENT_WRITE | RECONCILE | UNKNOWN_WRITE

  datatype Status = PENDING | COMMITTED | UNCERTAIN | FAILED

  /** What kind of error a tool gateway raised, as the disposition table tells them apart. */
  datatype ToolErrorKind = PreDispatch | AmbiguousTransport | OtherToolError

  datatype Disposition = DefinitiveFailed | Uncertain | NoJournalUpdate

  /** The map key: an operation key always starts with its run id. */
  datatype OpKey = OpKey(runId: string, callId: string)

  datatype Entry = Entry(
    workspaceId: string,
    runAttemptId: string,
    executionGeneration: nat,
    toolVersionId: string,
    bindingName: string,
    inputFingerprint: string,
    idempotencyClass: IdempotencyClass,
    status: Status,
    committedResult: Option<Json>)

  type Journal = map<OpKey, Entry>

  predicate SafeToAutoReplay(c: IdempotencyClass, status: Status) {
    if status == COMMITTED then true
    else if status == UNCERTAIN then false
    else if c == UNKNOWN_WRITE || c == RECONCILE then false
    else if status == FAILED then c == PURE || c == READ_ONLY
    else c == READ_ONLY
  }

  function FailureDisposition(c: IdempotencyClass, error: ToolErrorKind, pendingRecorded: bool): Disposition {
    if !pendingRecorded || error == PreDispatch then NoJournalUpdate
    else if c == READ_ONLY then (if error == AmbiguousTransport then Uncertain else DefinitiveFailed)
    else if c == PURE then DefinitiveFailed
    else Uncertain
  }

  // ---- The repository's operations as functions on the map ----

  function Recorded(j: Journal, k: OpKey, draft: Entry): Journal {
    if k in j then j else j[k := draft.(status := PENDING, committedResult := None)]
  }

  function WithResult(j: Journal, k: OpKey, result: Json): Journal {
    if k in j then j[k := j[k].(status := COMMITTED, committedResult := Some(result))] else j
  }

  function WithStatus(j: Journal, k: OpKey, status: Status): Journal {
    if k in j then j[k := j[k].(status := status)] else j
  }

  function Find(j: Journal, workspaceId: string, k: OpKey): Option<Entry> {
    if k in j && j[k].workspaceId == workspaceId then Some(j[k]) else None
  }

  predicate Blocking(j: Journal, runId: string, k: OpKey) {
    k in j && k.runId == runId && !SafeToAutoReplay(j[k].idempotencyClass, j[k].status)
  }

  class MemoryRunOperationJournalRepository {
    var byRunOperationKey: Journal
    // Every key that was ever marked FAILED; history only.
    ghost var everFailed: set<OpKey>

    constructor ()
      ensures byRunOperationKey == map[] && everFailed == {}
    {
      byRunOperationKey := map[];
      everFailed := {};
    }

    method RecordPending(k: OpKey, draft: Entry) returns (entry: Entry)
      modifies this`byRunOperationKey
      ensures byRunOperationKey == Recorded(old(byRunOperationKey), k, draft)
      ensures k in byRunOperationKey && entry == byRunOperationKey[k]
      ensures k in old(byRunOperationKey) ==> entry == old(byRunOperationKey)[k]
      ensures k !in old(byRunOperationKey) ==> entry == draft.(status := PENDING, committedResult := None)
    {
      if k in byRunOperationKey {
        return byRunOperationKey[k];
      }
      entry := draft.(status := PENDING, committedResult := None);
      byRunOperationKey := byRunOperationKey[k := entry];
    }

    method CommitResult(k: OpKey, result: Json) returns (updated: Option<Entry>)
      modifies this`byRunOperationKey
      ensures byRunOperationKey == WithResult(old(byRunOperationKey), k, result)
      ensures updated == if k in old(byRunOperationKey) then Some(byRunOperationKey[k]) else None
    {
      if k !in byRunOperationKey {
        return None;
      }
      var entry := byRunOperationKey[k].(status := COMMITTED, committedResult := Some(result));
      byRunOperationKey := byRunOperationKey[k := entry];
      return Some(entry);
    }

    method MarkUncertain(k: OpKey) returns (updated: Option<Entry>)
      modifies this`byRunOperationKey
      ensures byRunOperationKey == WithStatus(old(byRunOperationKey), k, UNCERTAIN)
      ensures updated == if k in old(byRunOperationKey) then Some(byRunOperationKey[k]) else None
    {
      updated := UpdateStatus(k, UNCERTAIN);
    }

    method MarkFailed(k: OpKey) returns (updated: Option<Entry>)
      modifies this
      ensures byRunOperationKey == WithStatus(old(byRunOperationKey), k, FAILED)
      ensures everFailed == old(everFailed) + {k}
      ensures updated == if k in old(byRunOperationKey) then Some(byRunOperationKey[k]) else None
    {
      updated := UpdateStatus(k, FAILED);
      everFailed := everFailed + {k};
    }

    method UpdateStatus(k: OpKey, status: Status) returns (updated: Option<Entry>)
      modifies this`byRunOperationKey
      ensures byRunOperationKey == WithStatus(old(byRunOperationKey), k, status)
      ensures updated == if k in old(byRunOperationKey) then Some(byRunOperationKey[k]) else None
    {
      if k !in byRunOperationKey {
        return None;
      }
      var entry := byRunOperationKey[k].(status := status);
      byRunOperationKey := byRunOperationKey[k := entry];
      return Some(entry);
    }

    method FindByRunAndOperationKey(workspaceId: string, k: OpKey) returns (entry: Option<Entry>)
      ensures entry == Find(byRunOperationKey, workspaceId, k)
    {
      if k !in byRunOperationKey || byRunOperationKey[k].workspaceId != workspaceId {
        return None;
      }
      return Some(byRunOperationKey[k]);
    }

    method FindBlockingOperationsForRun(runId: string) returns (blocking: set<OpKey>)
      ensures forall k :: k in blocking <==> Blocking(byRunOperationKey, runId, k)
    {
      blocking := set k | k in byRunOperationKey && Blocking(byRunOperationKey, runId, k);
    }
  }
}
