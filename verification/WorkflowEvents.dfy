/** Workflow events: one per workspace, source and idempotency key, found through a nested index. */
module WorkflowEvents {
  import opened Common

  /** The payload is carried as its canonical text. */
  datatype Event = Event(
    id: string,
    workspaceId: string,
    source: string,
    eventType: string,
    correlationKey: string,
    idempotencyKey: string,
    payload: string,
    occurredAt: Option<int>,
    receivedAt: int)

  datatype EventError = IdempotencyConflict | IdInUse

  predicate SameIdentity(a: Event, b: Event) {
    a.workspaceId == b.workspaceId && a.source == b.source && a.idempotencyKey == b.idempotencyKey
  }

  predicate Equivalent(existing: Event, submission: Event) {
    && SameIdentity(existing, submission)
    && existing.eventType == submission.eventType && existing.correlationKey == submission.correlationKey
    && existing.payload == submission.payload && existing.occurredAt == submission.occurredAt
  }

  // ---- The store by scanning ----

  type Events = map<string, Event>

  predicate Keyed(es: Events) {
    forall id :: id in es ==> es[id].id == id
  }

  predicate Unique(es: Events) {
    forall a, b :: a in es && b in es && SameIdentity(es[a], es[b]) ==> a == b
  }

  predicate Knows(es: Events, e: Event) {
    exists id :: id in es && SameIdentity(es[id], e)
  }

  /** The event with the identity of `e`, by a scan. */
  ghost function Scan(es: Events, e: Event): (r: Event)
    requires Knows(es, e)
    ensures r in es.Values && SameIdentity(r, e)
  {
    var id :| id in es && SameIdentity(es[id], e);
    es[id]
  }

  ghost function Save(es: Events, e: Event): (Events, Result<Event, EventError>) {
    if Knows(es, e) then (es, if Equivalent(Scan(es, e), e) then Ok(Scan(es, e)) else Err(IdempotencyConflict))
    else if e.id in es then (es, Err(IdInUse))
    else (es[e.id := e], Ok(e))
  }

  // ---- The store with its index ----

  type Index = map<string, map<string, map<string, Event>>>

  function Lookup(index: Index, workspaceId: string, source: string, key: string): Option<Event> {
    if workspaceId in index && source in index[workspaceId] && key in index[workspaceId][source]
    then Some(index[workspaceId][source][key]) else None
  }

  /** The event is stored, under this identity. */
  predicate StoredAs(es: Events, e: Event, workspaceId: string, source: string, key: string) {
    e.id in es && es[e.id] == e && e.workspaceId == workspaceId && e.source == source && e.idempotencyKey == key
  }

  /** The index holds exactly the stored events, each under its identity. */
  ghost predicate Agrees(index: Index, es: Events) {
    && (forall id :: id in es ==> Lookup(index, es[id].workspaceId, es[id].source, es[id].idempotencyKey) == Some(es[id]))
    && (forall w, s, k :: Lookup(index, w, s, k).Some? ==> StoredAs(es, Lookup(index, w, s, k).value, w, s, k))
  }

  function OrEmpty<V>(m: map<string, map<string, V>>, k: string): map<string, V> {
    if k in m then m[k] else map[]
  }

  /** The index with one more entry, its inner maps created where they are missing. */
  function Indexed(index: Index, e: Event): Index {
    var byWorkspace := OrEmpty(index, e.workspaceId);
    index[e.workspaceId := byWorkspace[e.source := OrEmpty(byWorkspace, e.source)[e.idempotencyKey := e]]]
  }

  lemma IndexedLookup(index: Index, e: Event, w: string, s: string, k: string)
    ensures Lookup(Indexed(index, e), w, s, k) ==
      if w == e.workspaceId && s == e.source && k == e.idempotencyKey then Some(e) else Lookup(index, w, s, k)
  {
  }

  lemma IndexedAgrees(index: Index, es: Events, e: Event)
    requires Keyed(es) && Agrees(index, es) && e.id !in es && !Knows(es, e)
    ensures Agrees(Indexed(index, e), es[e.id := e])
  {
    var index', es' := Indexed(index, e), es[e.id := e];
    forall id | id in es'
      ensures Lookup(index', es'[id].workspaceId, es'[id].source, es'[id].idempotencyKey) == Some(es'[id])
    {
      IndexedLookup(index, e, es'[id].workspaceId, es'[id].source, es'[id].idempotencyKey);
      assert id in es ==> !SameIdentity(es[id], e);
    }
    forall w, s, k | Lookup(index', w, s, k).Some?
      ensures StoredAs(es', Lookup(index', w, s, k).value, w, s, k)
    {
      IndexedLookup(index, e, w, s, k);
    }
  }

  class MemoryWorkflowEventRepository {
    var eventsById: Events
    var eventsByIngestion: Index

    ghost predicate Valid()
      reads this
    {
      Keyed(eventsById) && Unique(eventsById) && Agrees(eventsByIngestion, eventsById)
    }

    constructor ()
      ensures Valid() && eventsById == map[]
    {
      eventsById, eventsByIngestion := map[], map[];
    }

    method FindByIngestionIdentity(e: Event) returns (r: Option<Event>)
      requires Valid()
      ensures r == if Knows(eventsById, e) then Some(Scan(eventsById, e)) else None
    {
      r := Lookup(eventsByIngestion, e.workspaceId, e.source, e.idempotencyKey);
      if r.Some? {
        assert SameIdentity(eventsById[r.value.id], e);
      }
      if Knows(eventsById, e) {
        var found := Scan(eventsById, e);
        assert SameIdentity(found, e) && found.id in eventsById;
      }
    }

    method IndexIngestion(e: Event)
      modifies this`eventsByIngestion
      ensures eventsByIngestion == Indexed(old(eventsByIngestion), e)
    {
      var byWorkspace := if e.workspaceId in eventsByIngestion then eventsByIngestion[e.workspaceId] else map[];
      var bySource := if e.source in byWorkspace then byWorkspace[e.source] else map[];
      bySource := bySource[e.idempotencyKey := e];
      byWorkspace := byWorkspace[e.source := bySource];
      eventsByIngestion := eventsByIngestion[e.workspaceId := byWorkspace];
    }

    method SaveWorkflowEvent(e: Event) returns (r: Result<Event, EventError>)
      requires Valid()
      modifies this
      ensures Valid() && (eventsById, r) == Save(old(eventsById), e)
    {
      var existing := FindByIngestionIdentity(e);
      if existing.Some? {
        if !Equivalent(existing.value, e) { return Err(IdempotencyConflict); }
        return Ok(existing.value);
      }
      if e.id in eventsById {
        // An equivalent event under this id would have been found by its identity.
        if Equivalent(eventsById[e.id], e) { assert false; }
        return Err(IdInUse);
      }
      IndexedAgrees(eventsByIngestion, eventsById, e);
      IndexIngestion(e);
      eventsById := eventsById[e.id := e];
      return Ok(e);
    }
  }

  // ---- Histories ----

  ghost function Play(es: Events, h: seq<Event>): Events
    decreases |h|
  {
    if h == [] then es else Play(Save(es, h[0]).0, h[1..])
  }

  /** Whatever is submitted later, stored events stay as they are and identities stay unique. */
  lemma {:induction false} StoredEventsStay(es: Events, h: seq<Event>)
    requires Keyed(es) && Unique(es)
    ensures Keyed(Play(es, h)) && Unique(Play(es, h))
    ensures forall id :: id in es ==> id in Play(es, h) && Play(es, h)[id] == es[id]
    decreases |h|
  {
    if h != [] {
      StoredEventsStay(Save(es, h[0]).0, h[1..]);
    }
  }

  /** A retry gets the event stored first, however late it comes; a different one is a conflict. */
  lemma RetriesReturnTheFirst(es: Events, first: Event, h: seq<Event>, retry: Event)
    requires Keyed(es) && Unique(es) && Save(es, first).1.Ok? && SameIdentity(first, retry)
    ensures var stored := Save(es, first).1.value;
      Save(Play(Save(es, first).0, h), retry) ==
        (Play(Save(es, first).0, h), if Equivalent(stored, retry) then Ok(stored) else Err(IdempotencyConflict))
  {
    var (es', r) := Save(es, first);
    var stored := r.value;
    assert stored.id in es' && es'[stored.id] == stored && SameIdentity(stored, first);
    StoredEventsStay(es', h);
    var later := Play(es', h);
    assert SameIdentity(later[stored.id], retry);
    var found := Scan(later, retry);
    assert found.id in later && SameIdentity(later[found.id], later[stored.id]);
  }

  /** Both are submitted as the same event: workspace, source and idempotency key agree. */
  predicate Names(a: Event, b: Event) {
    a.workspaceId == b.workspaceId && a.source == b.source && a.idempotencyKey == b.idempotencyKey
  }

  /**
   * Submitting an event again: the stored event comes back exactly if type, correlation key, payload and
   * instant of occurrence are the same, whatever id and reception the retry has. Only an
   * event that nobody submitted yet is stored, under an id of its own.
   */
  lemma SubmissionIsDecided(es: Events, e: Event)
    requires Keyed(es) && Unique(es)
    ensures forall id :: id in es && Names(es[id], e) ==>
      Save(es, e) ==
        (es, if es[id].eventType == e.eventType && es[id].correlationKey == e.correlationKey
                && es[id].payload == e.payload && es[id].occurredAt == e.occurredAt
             then Ok(es[id]) else Err(IdempotencyConflict))
    ensures (forall id :: id in es ==> !Names(es[id], e)) ==>
      Save(es, e) == if e.id in es then (es, Err(IdInUse)) else (es[e.id := e], Ok(e))
  {
    forall id | id in es && Names(es[id], e)
      ensures Knows(es, e) && Scan(es, e) == es[id]
    {
      assert SameIdentity(es[id], e);
      var found := Scan(es, e);
      assert SameIdentity(es[found.id], es[id]);
    }
  }
}
