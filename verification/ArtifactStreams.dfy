/**
 * Artifact contents over one shared message channel: senders cut their streams into bounded chunks,
 * receivers keep one session per call and put the streams together again.
 */
module ArtifactStreams {
  import opened Common

  type CallId = string
  type Bytes = seq<int>

  const CHUNK_BYTES := 262144

  /**
   * The messages of both directions: the create request or the open metadata starts a transfer, and
   * only an open can fail.
   */
  datatype Message = Start(callId: CallId) | Chunk(callId: CallId, bytes: Bytes) | End(callId: CallId) | Fail(callId: CallId)

  // ---- Cutting ----

  function Slices(buffer: Bytes): seq<Bytes>
    decreases |buffer|
  {
    if buffer == [] then []
    else if |buffer| <= CHUNK_BYTES then [buffer]
    else [buffer[..CHUNK_BYTES]] + Slices(buffer[CHUNK_BYTES..])
  }

  /** Nothing lost, nothing empty, nothing too long. */
  lemma {:induction false} SlicesAreBoundedAndComplete(buffer: Bytes)
    ensures Concat(Slices(buffer)) == buffer
    ensures forall i :: 0 <= i < |Slices(buffer)| ==> 1 <= |Slices(buffer)[i]| <= CHUNK_BYTES
    decreases |buffer|
  {
    if |buffer| > CHUNK_BYTES {
      SlicesAreBoundedAndComplete(buffer[CHUNK_BYTES..]);
      assert Slices(buffer)[1..] == Slices(buffer[CHUNK_BYTES..]);
    } else if buffer != [] {
      var none: seq<Bytes> := [];
      assert [buffer][1..] == none;
      assert Concat(none) == [];
    }
  }

  function AllSlices(buffers: seq<Bytes>): seq<Bytes> {
    if buffers == [] then [] else AllSlices(buffers[..|buffers| - 1]) + Slices(buffers[|buffers| - 1])
  }

  lemma ConcatOfOne(b: Bytes)
    ensures Concat([b]) == b
  {
    var none: seq<Bytes> := [];
    assert [b][1..] == none && b + [] == b;
    assert Concat(none) == [];
  }

  lemma {:induction false} AllSlicesAreComplete(buffers: seq<Bytes>)
    ensures Concat(AllSlices(buffers)) == Concat(buffers)
  {
    if buffers != [] {
      var front, last := buffers[..|buffers| - 1], buffers[|buffers| - 1];
      AllSlicesAreComplete(front);
      SlicesAreBoundedAndComplete(last);
      ConcatAppend(AllSlices(front), Slices(last));
      ConcatAppend(front, [last]);
      assert buffers == front + [last];
      ConcatOfOne(last);
    }
  }

  lemma {:induction false} AllSlicesAreBounded(buffers: seq<Bytes>, b: Bytes)
    requires b in AllSlices(buffers)
    ensures 1 <= |b| <= CHUNK_BYTES
  {
    var front, last := buffers[..|buffers| - 1], buffers[|buffers| - 1];
    if b in AllSlices(front) {
      AllSlicesAreBounded(front, b);
    } else {
      SlicesAreBoundedAndComplete(last);
      assert b in Slices(last);
    }
  }

  function Chunks(id: CallId, parts: seq<Bytes>): seq<Message> {
    seq(|parts|, i requires 0 <= i < |parts| => Chunk(id, parts[i]))
  }

  /** The whole transfer of a source. */
  function Transfer(id: CallId, buffers: seq<Bytes>): seq<Message> {
    [Start(id)] + Chunks(id, AllSlices(buffers)) + [End(id)]
  }

  // ---- Senders ----

  /**
   * A channel that answers true to `capacity` more messages. It answers false when it is closed, and also
   * when its backlog is full, but then it delivers the message all the same.
   */
  class Channel {
    var sent: seq<Message>
    var capacity: nat
    const queues: bool

    constructor (capacity: nat, queues: bool)
      ensures sent == [] && this.capacity == capacity && this.queues == queues
    {
      sent, this.capacity, this.queues := [], capacity, queues;
    }

    method Send(m: Message) returns (ok: bool)
      modifies this
      ensures ok == (old(capacity) > 0)
      ensures sent == (if ok || queues then old(sent) + [m] else old(sent))
      ensures capacity == (if ok then old(capacity) - 1 else 0)
    {
      ok := capacity > 0;
      if ok || queues {
        sent := sent + [m];
      }
      if ok {
        capacity := capacity - 1;
      }
    }
  }

  /** How many messages arrive, up to and including the first that is answered false. */
  function Delivers(capacity: nat, queues: bool): nat {
    capacity + if queues then 1 else 0
  }

  /** As much of `all` as is delivered to a channel that has `room` true answers left. */
  ghost predicate SentInto(all: seq<Message>, before: seq<Message>, room: nat, queues: bool, after: seq<Message>, left: nat) {
    && after == before + all[..Min(|all|, Delivers(room, queues))]
    && left == Max(0, room - |all|)
  }

  /** Sends one buffer, slice by slice, until a send answers false. */
  method SendBuffer(channel: Channel, id: CallId, buffer: Bytes) returns (ok: bool)
    modifies channel
    ensures SentInto(Chunks(id, Slices(buffer)), old(channel.sent), old(channel.capacity), channel.queues, channel.sent,
                     channel.capacity)
    ensures ok <==> |Slices(buffer)| <= old(channel.capacity)
  {
    ghost var parts := Slices(buffer);
    ghost var done := 0;
    var offset := 0;
    while offset < |buffer|
      invariant 0 <= offset && done <= |parts|
      invariant offset >= |buffer| ==> done == |parts|
      invariant offset <= |buffer| ==> parts[done..] == Slices(buffer[offset..])
      invariant done <= old(channel.capacity)
      invariant channel.sent == old(channel.sent) + Chunks(id, parts)[..done] && channel.capacity == old(channel.capacity) - done
      decreases |buffer| - offset
    {
      var slice := buffer[offset..Min(offset + CHUNK_BYTES, |buffer|)];
      NextSlice(buffer, offset, parts, done);
      ok := channel.Send(Chunk(id, slice));
      if !ok {
        return false;
      }
      done := done + 1;
      offset := offset + CHUNK_BYTES;
    }
    ok := true;
  }

  lemma NextSlice(buffer: Bytes, offset: nat, parts: seq<Bytes>, done: nat)
    requires offset < |buffer| && done <= |parts| && parts[done..] == Slices(buffer[offset..])
    ensures done < |parts| && parts[done] == buffer[offset..Min(offset + CHUNK_BYTES, |buffer|)]
    ensures offset + CHUNK_BYTES <= |buffer| ==> parts[done + 1..] == Slices(buffer[offset + CHUNK_BYTES..])
    ensures offset + CHUNK_BYTES >= |buffer| ==> done + 1 == |parts|
  {
  }

  lemma SentThen(a: seq<Message>, b: seq<Message>, before: seq<Message>, room: nat, queues: bool, mid: seq<Message>,
                 between: nat, after: seq<Message>, left: nat)
    requires SentInto(a, before, room, queues, mid, between) && |a| <= room && SentInto(b, mid, between, queues, after, left)
    ensures SentInto(a + b, before, room, queues, after, left)
  {
  }

  lemma RefusedWithin(part: seq<Message>, all: seq<Message>, before: seq<Message>, room: nat, queues: bool,
                      after: seq<Message>, left: nat)
    requires SentInto(part, before, room, queues, after, left) && part <= all && room < |part|
    ensures SentInto(all, before, room, queues, after, left)
  {
  }

  /** The transfer up to and including the buffers of `content[..i]`. */
  function Begun(id: CallId, content: seq<Bytes>, i: nat): seq<Message>
    requires i <= |content|
  {
    [Start(id)] + Chunks(id, AllSlices(content[..i]))
  }

  lemma BegunGoesOn(id: CallId, content: seq<Bytes>, i: nat)
    requires i < |content|
    ensures Begun(id, content, i + 1) == Begun(id, content, i) + Chunks(id, Slices(content[i]))
    ensures Begun(id, content, i + 1) <= Begun(id, content, |content|)
  {
    assert content[..i + 1][..i] == content[..i];
    assert content[..|content|] == content;
    SlicesArePrefix(content, i);
  }

  /** What an upload sends: a source that breaks off after `content` gets no end message. */
  function Upload(id: CallId, content: seq<Bytes>, breaks: bool): seq<Message> {
    Begun(id, content, |content|) + if breaks then [] else [End(id)]
  }

  /** One more buffer of a transfer that went well so far. */
  method SendNext(channel: Channel, id: CallId, content: seq<Bytes>, i: nat, ghost before: seq<Message>, ghost room: nat)
    returns (ok: bool)
    requires i < |content| && |Begun(id, content, i)| <= room
    requires SentInto(Begun(id, content, i), before, room, channel.queues, channel.sent, channel.capacity)
    modifies channel
    ensures SentInto(Begun(id, content, i + 1), before, room, channel.queues, channel.sent, channel.capacity)
    ensures ok <==> |Begun(id, content, i + 1)| <= room
  {
    ghost var mid, between := channel.sent, channel.capacity;
    ok := SendBuffer(channel, id, content[i]);
    BegunGoesOn(id, content, i);
    SentThen(Begun(id, content, i), Chunks(id, Slices(content[i])), before, room, channel.queues, mid, between,
             channel.sent, channel.capacity);
  }

  /** The request and every buffer, until a send answers false. */
  method SendContent(channel: Channel, id: CallId, content: seq<Bytes>) returns (ok: bool)
    modifies channel
    ensures SentInto(Begun(id, content, |content|), old(channel.sent), old(channel.capacity), channel.queues, channel.sent,
                     channel.capacity)
    ensures ok <==> |Begun(id, content, |content|)| <= old(channel.capacity)
  {
    ghost var before, room := channel.sent, channel.capacity;
    NothingBegun(id, content, before);
    ok := channel.Send(Start(id));
    if !ok {
      RefusedWithin(Begun(id, content, 0), Begun(id, content, |content|), before, room, channel.queues, channel.sent,
                    channel.capacity);
      return;
    }
    for i := 0 to |content|
      invariant SentInto(Begun(id, content, i), before, room, channel.queues, channel.sent, channel.capacity)
      invariant |Begun(id, content, i)| <= room
    {
      ok := SendNext(channel, id, content, i, before, room);
      if !ok {
        BegunIsPrefix(id, content, i + 1);
        RefusedWithin(Begun(id, content, i + 1), Begun(id, content, |content|), before, room, channel.queues, channel.sent,
                      channel.capacity);
        return;
      }
    }
    return true;
  }

  lemma NothingBegun(id: CallId, content: seq<Bytes>, before: seq<Message>)
    ensures Begun(id, content, 0) == [Start(id)] && Begun(id, content, 0) <= Begun(id, content, |content|)
    ensures before + Begun(id, content, 0)[..0] == before && Begun(id, content, 0)[..1] == [Start(id)]
  {
  }

  lemma BegunIsPrefix(id: CallId, content: seq<Bytes>, i: nat)
    requires 1 <= i <= |content|
    ensures Begun(id, content, i) <= Begun(id, content, |content|)
  {
    BegunGoesOn(id, content, i - 1);
  }

  /**
   * An upload succeeds when its source does not break and every send answers true, and then the whole
   * transfer was sent. The first answer of false ends it, whether or not that message is delivered.
   */
  method StreamArtifactCreate(channel: Channel, id: CallId, content: seq<Bytes>, breaks: bool) returns (ok: bool)
    modifies channel
    ensures SentInto(Upload(id, content, breaks), old(channel.sent), old(channel.capacity), channel.queues, channel.sent,
                     channel.capacity)
    ensures ok <==> !breaks && |Upload(id, content, breaks)| <= old(channel.capacity)
    ensures ok ==> channel.sent == old(channel.sent) + Transfer(id, content)
  {
    ghost var before, room, begun := channel.sent, channel.capacity, Begun(id, content, |content|);
    ok := SendContent(channel, id, content);
    if !ok {
      RefusedWithin(begun, Upload(id, content, breaks), before, room, channel.queues, channel.sent, channel.capacity);
      return;
    }
    if breaks {
      assert Upload(id, content, breaks) == begun;
      return false;
    }
    ghost var mid, between := channel.sent, channel.capacity;
    ok := channel.Send(End(id));
    SentThen(begun, [End(id)], before, room, channel.queues, mid, between, channel.sent, channel.capacity);
    UploadIsTransfer(id, content, breaks);
  }

  /** A complete upload is the transfer, a broken one a proper part of it. */
  lemma UploadIsTransfer(id: CallId, content: seq<Bytes>, breaks: bool)
    ensures var all := Transfer(id, content);
      Upload(id, content, breaks) == if breaks then all[..|all| - 1] else all
  {
    assert content[..|content|] == content;
  }

  /**
   * What arrives is the whole transfer if and only if the source does not break and every message but
   * the last is answered true, the last being answered true or queued: an upload reported as failed may
   * have arrived whole.
   */
  lemma ArrivesWholeIff(id: CallId, content: seq<Bytes>, breaks: bool, before: seq<Message>, room: nat, queues: bool,
                        after: seq<Message>, left: nat)
    requires SentInto(Upload(id, content, breaks), before, room, queues, after, left)
    ensures after == before + Transfer(id, content) <==> !breaks && |Transfer(id, content)| <= Delivers(room, queues)
  {
    UploadIsTransfer(id, content, breaks);
    var sent := Upload(id, content, breaks)[..Min(|Upload(id, content, breaks)|, Delivers(room, queues))];
    assert |after| == |before| + |sent|;
  }

  lemma {:induction false} SlicesArePrefix(content: seq<Bytes>, i: nat)
    requires i < |content|
    ensures AllSlices(content[..i + 1]) <= AllSlices(content)
    decreases |content| - i
  {
    if i + 1 < |content| {
      SlicesArePrefix(content, i + 1);
      assert content[..i + 2][..i + 1] == content[..i + 1];
    } else {
      assert content[..i + 1] == content;
    }
  }

  // ---- Receivers ----

  /** Open sessions with what was written to them, and the streams that were ended, in order. */
  datatype Receiver = Receiver(sessions: map<CallId, Bytes>, ended: seq<(CallId, Bytes)>)

  function Deliver(r: Receiver, m: Message): Receiver {
    match m
    case Start(id) => r.(sessions := r.sessions[id := []])
    case Chunk(id, bytes) => if id in r.sessions then r.(sessions := r.sessions[id := r.sessions[id] + bytes]) else r
    case End(id) => if id in r.sessions then Receiver(r.sessions - {id}, r.ended + [(id, r.sessions[id])]) else r
    case Fail(id) => r.(sessions := r.sessions - {id})
  }

  function DeliverAll(r: Receiver, h: seq<Message>): Receiver
    decreases |h|
  {
    if h == [] then r else DeliverAll(Deliver(r, h[0]), h[1..])
  }

  /** The parent's sessions for uploads. */
  class ArtifactCreateIpcSessions {
    var sessions: map<CallId, Bytes>
    ghost var ended: seq<(CallId, Bytes)>

    ghost function State(): Receiver
      reads this
    {
      Receiver(sessions, ended)
    }

    constructor ()
      ensures State() == Receiver(map[], [])
    {
      sessions, ended := map[], [];
    }

    method StartSession(id: CallId)
      modifies this
      ensures State() == Deliver(old(State()), Start(id))
    {
      sessions := sessions[id := []];
    }

    method WriteChunk(id: CallId, chunk: Bytes) returns (written: bool)
      modifies this
      ensures State() == Deliver(old(State()), Chunk(id, chunk)) && written == (id in old(sessions))
    {
      if id !in sessions { return false; }
      sessions := sessions[id := sessions[id] + chunk];
      return true;
    }

    /** Hands the finished stream to its reader. */
    method EndSession(id: CallId) returns (stream: Option<Bytes>)
      modifies this
      ensures State() == Deliver(old(State()), End(id))
      ensures stream == if id in old(sessions) then Some(old(sessions)[id]) else None
    {
      if id !in sessions { return None; }
      stream := Some(sessions[id]);
      ended := ended + [(id, sessions[id])];
      sessions := sessions - {id};
    }
  }

  datatype Answer = Resolved(stream: Bytes) | Rejected

  /** The child's side of opening: sessions, and a waiter for each call that was requested. */
  class OpenSessions {
    var openSessions: map<CallId, Bytes>
    var pending: set<CallId>
    var answers: map<CallId, Answer>
    ghost var ended: seq<(CallId, Bytes)>

    ghost function State(): Receiver
      reads this
    {
      Receiver(openSessions, ended)
    }

    constructor (pending: set<CallId>)
      ensures State() == Receiver(map[], []) && this.pending == pending && answers == map[]
    {
      openSessions, this.pending, answers, ended := map[], pending, map[], [];
    }

    /** A waiter is answered at most once: with its stream at the end message, or by the failure. */
    method DispatchArtifactOpen(m: Message)
      modifies this
      ensures State() == Deliver(old(State()), m)
      ensures if m.callId in old(pending) && ((m.End? && m.callId in old(openSessions)) || m.Fail?)
              then pending == old(pending) - {m.callId}
                   && answers == old(answers)[m.callId := if m.Fail? then Rejected else Resolved(old(openSessions)[m.callId])]
              else pending == old(pending) && answers == old(answers)
    {
      var id := m.callId;
      match m
      case Start(_) => openSessions := openSessions[id := []];
      case Chunk(_, bytes) =>
        if id in openSessions { openSessions := openSessions[id := openSessions[id] + bytes]; }
      case End(_) =>
        if id !in openSessions { return; }
        var stream := openSessions[id];
        ended := ended + [(id, stream)];
        openSessions := openSessions - {id};
        if id !in pending { return; }
        pending := pending - {id};
        answers := answers[id := Resolved(stream)];
      case Fail(_) =>
        openSessions := openSessions - {id};
        if id !in pending { return; }
        pending := pending - {id};
        answers := answers[id := Rejected];
    }
  }

  // ---- Interleaved transfers ----

  /** The messages of one call. */
  function Of(h: seq<Message>, id: CallId): seq<Message>
    decreases |h|
  {
    if h == [] then [] else (if h[0].callId == id then [h[0]] else []) + Of(h[1..], id)
  }

  function EndedOf(ended: seq<(CallId, Bytes)>, id: CallId): seq<Bytes> {
    if ended == [] then []
    else EndedOf(ended[..|ended| - 1], id) + (if ended[|ended| - 1].0 == id then [ended[|ended| - 1].1] else [])
  }

  /** What a receiver knows about one call. */
  datatype View = View(open: Option<Bytes>, ended: seq<Bytes>)

  function ViewOf(r: Receiver, id: CallId): View {
    View(if id in r.sessions then Some(r.sessions[id]) else None, EndedOf(r.ended, id))
  }

  function DeliverView(v: View, m: Message): View {
    match m
    case Start(_) => v.(open := Some([]))
    case Chunk(_, bytes) => if v.open.Some? then v.(open := Some(v.open.value + bytes)) else v
    case End(_) => if v.open.Some? then View(None, v.ended + [v.open.value]) else v
    case Fail(_) => v.(open := None)
  }

  function DeliverViewAll(v: View, h: seq<Message>): View
    decreases |h|
  {
    if h == [] then v else DeliverViewAll(DeliverView(v, h[0]), h[1..])
  }

  lemma DeliverOnView(r: Receiver, m: Message, id: CallId)
    ensures ViewOf(Deliver(r, m), id) == if m.callId == id then DeliverView(ViewOf(r, id), m) else ViewOf(r, id)
  {
  }

  /** A call is not affected by the messages of other calls, wherever they come in between. */
  lemma {:induction false} CallsDoNotInterfere(r: Receiver, h: seq<Message>, id: CallId)
    ensures ViewOf(DeliverAll(r, h), id) == DeliverViewAll(ViewOf(r, id), Of(h, id))
    decreases |h|
  {
    if h != [] {
      DeliverOnView(r, h[0], id);
      CallsDoNotInterfere(Deliver(r, h[0]), h[1..], id);
      if h[0].callId == id {
        assert Of(h, id)[1..] == Of(h[1..], id);
      } else {
        assert Of(h, id) == Of(h[1..], id);
      }
    }
  }

  lemma {:induction false} ChunksAccumulate(v: View, id: CallId, parts: seq<Bytes>, tail: seq<Message>)
    requires v.open.Some?
    ensures DeliverViewAll(v, Chunks(id, parts) + tail) == DeliverViewAll(v.(open := Some(v.open.value + Concat(parts))), tail)
    decreases |parts|
  {
    if parts == [] {
      assert Chunks(id, parts) + tail == tail;
      assert v.open.value + [] == v.open.value;
    } else {
      assert (Chunks(id, parts) + tail)[1..] == Chunks(id, parts[1..]) + tail;
      ChunksAccumulate(DeliverView(v, Chunk(id, parts[0])), id, parts[1..], tail);
      assert v.open.value + parts[0] + Concat(parts[1..]) == v.open.value + Concat(parts);
    }
  }

  lemma TransferArrives(v: View, id: CallId, content: seq<Bytes>)
    ensures DeliverViewAll(v, Transfer(id, content)) == View(None, v.ended + [Concat(content)])
  {
    var parts := AllSlices(content);
    var started := v.(open := Some([]));
    assert Transfer(id, content)[1..] == Chunks(id, parts) + [End(id)];
    ChunksAccumulate(started, id, parts, [End(id)]);
    AllSlicesAreComplete(content);
    assert [] + Concat(parts) == Concat(content);
    var full := v.(open := Some(Concat(content)));
    assert [End(id)][1..] == [];
    assert DeliverViewAll(full, [End(id)]) == DeliverView(full, End(id));
  }

  /**
   * Any number of transfers, interleaved in any way: each call whose messages all arrived has ended
   * exactly one stream, and that stream is its source.
   */
  lemma InterleavedTransfersArrive(h: seq<Message>, id: CallId, content: seq<Bytes>)
    requires Of(h, id) == Transfer(id, content)
    ensures ViewOf(DeliverAll(Receiver(map[], []), h), id) == View(None, [Concat(content)])
  {
    CallsDoNotInterfere(Receiver(map[], []), h, id);
    TransferArrives(View(None, []), id, content);
  }

  lemma {:induction false} PartOfChunks(v: View, id: CallId, parts: seq<Bytes>, k: nat)
    requires v.open.Some? && k <= |parts|
    ensures DeliverViewAll(v, Chunks(id, parts)[..k]) == v.(open := Some(v.open.value + Concat(parts[..k])))
  {
    assert Chunks(id, parts)[..k] == Chunks(id, parts[..k]) + [];
    ChunksAccumulate(v, id, parts[..k], []);
  }

  lemma {:induction false} ConcatOfPrefix(parts: seq<Bytes>, k: nat)
    requires k <= |parts|
    ensures Concat(parts[..k]) <= Concat(parts)
  {
    ConcatAppend(parts[..k], parts[k..]);
    assert parts[..k] + parts[k..] == parts;
  }

  /** A transfer cut short ends no stream: its reader never takes a part for the whole. */
  lemma CutTransferEndsNothing(h: seq<Message>, id: CallId, content: seq<Bytes>, k: nat)
    requires k < |Transfer(id, content)| && Of(h, id) == Transfer(id, content)[..k]
    ensures var v := ViewOf(DeliverAll(Receiver(map[], []), h), id);
      v.ended == [] && (v.open.Some? ==> v.open.value <= Concat(content)) && (v.open.None? <==> k == 0)
  {
    CallsDoNotInterfere(Receiver(map[], []), h, id);
    if k > 0 {
      var parts := AllSlices(content);
      assert Of(h, id)[1..] == Chunks(id, parts)[..k - 1];
      PartOfChunks(View(Some([]), []), id, parts, k - 1);
      ConcatOfPrefix(parts, k - 1);
      AllSlicesAreComplete(content);
      assert [] + Concat(parts[..k - 1]) == Concat(parts[..k - 1]);
    }
  }

  // ---- Opening ----

  /** What opening the artifact gives: nothing, or a content stream that may break off after `content`. */
  datatype Source = Unavailable | Opened(content: seq<Bytes>, breaks: bool)

  /**
   * What the parent sends for an open. `settledAt` is the first look at which the run is found settled:
   * look 0 comes before the metadata, or before the failure of an artifact that cannot be opened, look
   * i + 1 before buffer i, one more before a later failure is reported. The end message is sent without
   * another look.
   */
  function OpenMessages(id: CallId, source: Source, settledAt: Option<nat>): seq<Message> {
    if settledAt == Some(0) then []
    else
      match source
      case Unavailable => [Fail(id)]
      case Opened(content, breaks) =>
        var seen := if settledAt.Some? then Min(settledAt.value - 1, |content|) else |content|;
        [Start(id)] + Chunks(id, AllSlices(content[..seen])) +
        (if settledAt.Some? && settledAt.value <= |content| then []
         else if !breaks then [End(id)]
         else if settledAt == Some(|content| + 1) then [] else [Fail(id)])
  }

  /** The buffers of an opened artifact, as far as the looks before them let through. */
  method SendOpened(id: CallId, content: seq<Bytes>, settledAt: Option<nat>) returns (sent: seq<Message>, seen: nat)
    requires settledAt != Some(0)
    ensures seen == if settledAt.Some? then Min(settledAt.value - 1, |content|) else |content|
    ensures sent == Chunks(id, AllSlices(content[..seen]))
  {
    sent := [];
    for i := 0 to |content|
      invariant settledAt.Some? ==> settledAt.value > i
      invariant sent == Chunks(id, AllSlices(content[..i]))
    {
      if settledAt == Some(i + 1) { return sent, i; }
      var channel := new Channel(|content[i]| + 1, false);
      FewSlices(content[i]);
      var ok := SendBuffer(channel, id, content[i]);
      sent := sent + channel.sent;
      assert content[..i + 1][..i] == content[..i];
      assert Chunks(id, AllSlices(content[..i + 1])) == Chunks(id, AllSlices(content[..i])) + Chunks(id, Slices(content[i]));
    }
    return sent, |content|;
  }

  method HandleArtifactOpenIpc(id: CallId, source: Source, settledAt: Option<nat>) returns (sent: seq<Message>)
    ensures sent == OpenMessages(id, source, settledAt)
  {
    if source.Unavailable? {
      return if settledAt == Some(0) then [] else [Fail(id)];
    }
    if settledAt == Some(0) { return []; }
    var chunks, seen := SendOpened(id, source.content, settledAt);
    sent := [Start(id)] + chunks;
    if settledAt.Some? && settledAt.value <= |source.content| { return; }
    if !source.breaks {
      sent := sent + [End(id)];
    } else if settledAt != Some(|source.content| + 1) {
      sent := sent + [Fail(id)];
    }
  }

  lemma {:induction false} FewSlices(buffer: Bytes)
    ensures |Slices(buffer)| <= |buffer|
    decreases |buffer|
  {
    if |buffer| > CHUNK_BYTES {
      FewSlices(buffer[CHUNK_BYTES..]);
    }
  }

  lemma LastMessage(v: View, m: Message)
    ensures DeliverViewAll(v, [m]) == DeliverView(v, m)
  {
  }

  lemma PartlyOpened(id: CallId, parts: seq<Bytes>, tail: seq<Message>)
    requires tail == [] || tail == [End(id)] || tail == [Fail(id)]
    ensures DeliverViewAll(View(None, []), [Start(id)] + Chunks(id, parts) + tail).ended ==
      if tail == [End(id)] then [Concat(parts)] else []
  {
    var all := [Start(id)] + Chunks(id, parts) + tail;
    var started, full := View(Some([]), []), View(Some(Concat(parts)), []);
    assert all[0] == Start(id) && all[1..] == Chunks(id, parts) + tail;
    ChunksAccumulate(started, id, parts, tail);
    assert [] + Concat(parts) == Concat(parts);
    if tail != [] {
      LastMessage(full, tail[0]);
    }
  }

  lemma NeverOpened(id: CallId, messages: seq<Message>)
    requires messages == [] || messages == [Fail(id)]
    ensures DeliverViewAll(View(None, []), messages).ended == []
  {
    if messages != [] {
      LastMessage(View(None, []), messages[0]);
    }
  }

  /** An open resolves with the whole source or not at all. */
  lemma OpenEndsOnlyWithTheWholeSource(h: seq<Message>, id: CallId, source: Source, settledAt: Option<nat>)
    requires Of(h, id) == OpenMessages(id, source, settledAt)
    ensures ViewOf(DeliverAll(Receiver(map[], []), h), id).ended ==
      if source.Opened? && !source.breaks && (settledAt.None? || settledAt.value > |source.content|)
      then [Concat(source.content)] else []
  {
    CallsDoNotInterfere(Receiver(map[], []), h, id);
    if settledAt == Some(0) || source.Unavailable? {
      NeverOpened(id, Of(h, id));
    } else {
      var content := source.content;
      var seen := if settledAt.Some? then Min(settledAt.value - 1, |content|) else |content|;
      var tail := if settledAt.Some? && settledAt.value <= |content| then []
                  else if !source.breaks then [End(id)]
                  else if settledAt == Some(|content| + 1) then [] else [Fail(id)];
      PartlyOpened(id, AllSlices(content[..seen]), tail);
      AllSlicesAreComplete(content[..seen]);
      assert tail == [End(id)] ==> content[..seen] == content;
    }
  }

  // ---- In numbers, and to the end ----

  /** A buffer is cut into as few chunks of 262144 bytes as hold it. */
  lemma {:induction false} NumberOfSlices(buffer: Bytes)
    ensures |Slices(buffer)| == (|buffer| + 262143) / 262144
    decreases |buffer|
  {
    if |buffer| > CHUNK_BYTES {
      NumberOfSlices(buffer[CHUNK_BYTES..]);
    }
  }

  predicate Settles(m: Message) {
    m.End? || m.Fail?
  }

  /**
   * An open of a run that does not settle meanwhile is answered exactly once, by the last message: with
   * the end of the stream if the artifact could be opened and did not break off, and else by a failure.
   */
  lemma UnsettledOpenIsAnsweredOnce(id: CallId, source: Source)
    ensures var messages := OpenMessages(id, source, None);
      && messages != []
      && messages[|messages| - 1] == (if source.Opened? && !source.breaks then End(id) else Fail(id))
      && (forall i :: 0 <= i < |messages| - 1 ==> !Settles(messages[i]))
      && (source.Opened? ==> messages[0] == Start(id))
  {
  }

  /** Once the run is found settled, nothing more is sent: what was sent is the front of what would have been. */
  lemma SettledOpenIsCutShort(id: CallId, source: Source, settledAt: nat)
    ensures OpenMessages(id, source, Some(settledAt)) <= OpenMessages(id, source, None)
    ensures settledAt == 0 ==> OpenMessages(id, source, Some(settledAt)) == []
  {
    if source.Opened? && settledAt > 0 {
      var seen := Min(settledAt - 1, |source.content|);
      AllSlicesOfPrefix(source.content, seen);
      assert source.content[..|source.content|] == source.content;
    }
  }

  lemma {:induction false} AllSlicesOfPrefix(content: seq<Bytes>, i: nat)
    requires i <= |content|
    ensures AllSlices(content[..i]) <= AllSlices(content)
    decreases |content| - i
  {
    if i < |content| {
      AllSlicesOfPrefix(content, i + 1);
      assert content[..i + 1][..i] == content[..i];
    } else {
      assert content[..i] == content;
    }
  }
}
