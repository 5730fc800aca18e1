/** The bounded in-memory event store, proved against the unbounded history it keeps a window of. */
module EventStore {
  import opened Wrappers
  import opened EventHistory

  type Deques = map<StreamId, seq<Event>>

  /** Appending to a deque that holds at most `k`. */
  function Push(q: seq<Event>, e: Event, k: nat): seq<Event>
    requires k >= 1
  {
    (if |q| >= k then q[1..] else q) + [e]
  }

  ghost predicate TidyDeque(q: seq<Event>, s: StreamId) {
    && (forall i | 0 <= i < |q| :: q[i].stream == s)
    && (forall i, j | 0 <= i < j < |q| :: q[i].id != q[j].id)
  }

  /** Every deque holds events of its own stream, each once. */
  ghost predicate Tidy(streams: Deques) {
    forall s <- streams :: TidyDeque(streams[s], s)
  }

  ghost predicate AllIndexed(index: map<EventId, Event>, q: seq<Event>) {
    forall i | 0 <= i < |q| :: q[i].id in index && index[q[i].id] == q[i]
  }

  ghost predicate InItsDeque(e: Event, id: EventId, streams: Deques) {
    e.id == id && e.stream in streams && e in streams[e.stream]
  }

  /** The index holds exactly the events in the deques. */
  ghost predicate IndexMatches(index: map<EventId, Event>, streams: Deques) {
    && (forall s <- streams :: AllIndexed(index, streams[s]))
    && (forall id <- index :: InItsDeque(index[id], id, streams))
  }

  /** The stream in place `i` is the one of the `i`th life, with the window of that life. */
  ghost predicate PlaceMatches(order: seq<StreamId>, streams: Deques, l: Life, h: seq<Event>, k: nat, i: nat)
    requires i < |order|
  {
    && order[i] == l.stream && l.born <= |h| && order[i] in streams && streams[order[i]] == Window(h, l, k)
  }

  /** The streams are those alive after `h`, oldest first, each with the window of its current life. */
  ghost predicate StreamsMatch(order: seq<StreamId>, streams: Deques, lives: seq<Life>, h: seq<Event>, k: nat) {
    && |order| == |lives|
    && (forall s <- streams :: s in order)
    && (forall i | 0 <= i < |order| :: PlaceMatches(order, streams, lives[i], h, k, i))
  }

  ghost function IdsOf(q: seq<Event>): set<EventId> {
    set e <- q :: e.id
  }

  ghost predicate Consistent(order: seq<StreamId>, streams: Deques, index: map<EventId, Event>, h: seq<Event>, k: nat) {
    && Tidy(streams) && IndexMatches(index, streams) && index.Keys <= IdsOf(h) && UniqueIds(h)
    && InOrder(Lives(h), h) && StreamsMatch(order, streams, Lives(h), h, k)
  }

  // ------------------------------------------------------------ one store

  lemma PushTidy(streams: Deques, index: map<EventId, Event>, e: Event, k: nat)
    requires k >= 1 && Tidy(streams) && IndexMatches(index, streams) && e.stream in streams && e.id !in index
    requires |streams[e.stream]| <= k
    ensures
      var q := streams[e.stream];
      var rest := if |q| == k then index - {q[0].id} else index;
      var streams' := streams[e.stream := Push(q, e, k)];
      Tidy(streams') && IndexMatches(rest[e.id := e], streams')
  {
    var q := streams[e.stream];
    var q' := Push(q, e, k);
    var rest := if |q| == k then index - {q[0].id} else index;
    var index' := rest[e.id := e];
    var streams' := streams[e.stream := q'];
    assert AllIndexed(index, q) && TidyDeque(q, e.stream);
    assert TidyDeque(q', e.stream) && AllIndexed(index', q');
    forall s <- streams' | s != e.stream ensures AllIndexed(index', streams'[s]) {
      assert AllIndexed(index, streams[s]) && TidyDeque(streams[s], s);
    }
    forall id <- index' ensures InItsDeque(index'[id], id, streams') {
      if id == e.id {
        assert q'[|q'| - 1] == e;
      } else {
        assert InItsDeque(index[id], id, streams);
        if index[id].stream == e.stream {
          var i :| 0 <= i < |q| && q[i] == index[id];
          assert q'[if |q| == k then i - 1 else i] == q[i];
        }
      }
    }
  }

  lemma PlaceOf(
      order: seq<StreamId>, streams: Deques, lives: seq<Life>, h: seq<Event>, k: nat, s: StreamId) returns
      (i: nat)
    requires StreamsMatch(order, streams, lives, h, k) && s in streams
    ensures i < |order| == |lives| && order[i] == s && PlaceMatches(order, streams, lives[i], h, k, i)
  {
    i :| 0 <= i < |order| && order[i] == s;
  }

  /** A stream is known to the store exactly when it is alive. */
  lemma KnownIsAlive(order: seq<StreamId>, streams: Deques, lives: seq<Life>, h: seq<Event>, k: nat, s: StreamId)
    requires StreamsMatch(order, streams, lives, h, k)
    ensures s in streams <==> HasLife(lives, s)
  {
    if s in streams {
      var i := PlaceOf(order, streams, lives, h, k, s);
      assert lives[i] in lives && lives[i].stream == s;
    }
    if HasLife(lives, s) {
      var l :| l in lives && l.stream == s;
      var i :| 0 <= i < |lives| && lives[i] == l;
      assert PlaceMatches(order, streams, lives[i], h, k, i);
    }
  }

  lemma KnownStreamMatches(order: seq<StreamId>, streams: Deques, lives: seq<Life>, h: seq<Event>, k: nat, e: Event)
    requires k >= 1 && InOrder(lives, h) && StreamsMatch(order, streams, lives, h, k) && e.stream in streams
    ensures |streams[e.stream]| <= k
    ensures StreamsMatch(order, streams[e.stream := Push(streams[e.stream], e, k)], lives, h + [e], k)
  {
    var i := PlaceOf(order, streams, lives, h, k, e.stream);
    var streams' := streams[e.stream := Push(streams[e.stream], e, k)];
    forall j | 0 <= j < |order| ensures PlaceMatches(order, streams', lives[j], h + [e], k, j) {
      assert PlaceMatches(order, streams, lives[j], h, k, j);
      WindowExtends(h, e, lives[j], k);
    }
  }

  lemma NewStreamMatches(order: seq<StreamId>, streams: Deques, lives: seq<Life>, h: seq<Event>, k: nat, e: Event)
    requires k >= 1 && StreamsMatch(order, streams, lives, h, k) && e.stream !in streams
    ensures StreamsMatch(order + [e.stream], streams[e.stream := [e]], lives + [Life(e.stream, |h|)], h + [e], k)
  {
    var order', streams', lives' := order + [e.stream], streams[e.stream := [e]], lives + [Life(e.stream, |h|)];
    forall j | 0 <= j < |order'| ensures PlaceMatches(order', streams', lives'[j], h + [e], k, j) {
      if j < |order| {
        assert PlaceMatches(order, streams, lives[j], h, k, j);
        WindowExtends(h, e, lives[j], k);
      } else {
        assert (h + [e])[|h|..] == [e];
        assert OnStream([e], e.stream) == [e];
      }
    }
  }

  lemma EvictedMatches(order: seq<StreamId>, streams: Deques, lives: seq<Life>, h: seq<Event>, k: nat)
    requires InOrder(lives, h) && StreamsMatch(order, streams, lives, h, k) && order != []
    ensures StreamsMatch(order[1..], streams - {order[0]}, lives[1..], h, k)
  {
    var order', streams' := order[1..], streams - {order[0]};
    assert PlaceMatches(order, streams, lives[0], h, k, 0);
    forall j | 0 <= j < |order'| ensures PlaceMatches(order', streams', lives[1..][j], h, k, j) {
      assert PlaceMatches(order, streams, lives[j + 1], h, k, j + 1);
      EvictedPlace(order, streams, lives[j + 1], h, k, j);
    }
  }

  /** A stream other than the first moves up one place and keeps its deque. */
  lemma EvictedPlace(order: seq<StreamId>, streams: Deques, l: Life, h: seq<Event>, k: nat, j: nat)
    requires j + 1 < |order| && PlaceMatches(order, streams, l, h, k, j + 1) && order[0] != l.stream
    ensures PlaceMatches(order[1..], streams - {order[0]}, l, h, k, j)
  {
  }

  lemma EvictedTidy(streams: Deques, index: map<EventId, Event>, s: StreamId)
    requires Tidy(streams) && IndexMatches(index, streams) && s in streams
    ensures Tidy(streams - {s}) && IndexMatches(index - IdsOf(streams[s]), streams - {s})
  {
    var index' := index - IdsOf(streams[s]);
    var streams': Deques := streams - {s};
    assert AllIndexed(index, streams[s]);
    forall r <- streams' ensures AllIndexed(index', streams'[r]) {
      assert AllIndexed(index, streams[r]) && TidyDeque(streams[r], r) && TidyDeque(streams[s], s);
    }
    forall id <- index' ensures InItsDeque(index'[id], id, streams') {
      assert InItsDeque(index[id], id, streams);
    }
  }

  /** All that is left of storing `e` is to append it to its deque and enter it in the index. */
  ghost predicate Ready(
      order: seq<StreamId>, streams: Deques, index: map<EventId, Event>, lives: seq<Life>, h: seq<Event>,
      k: nat, e: Event)
  {
    && k >= 1 && Tidy(streams) && IndexMatches(index, streams)
    && e.stream in streams && |streams[e.stream]| <= k
    && StreamsMatch(order, streams[e.stream := Push(streams[e.stream], e, k)], lives, h, k)
  }

  /** And the longer history is in order. */
  ghost predicate Prepared(
      order: seq<StreamId>, streams: Deques, index: map<EventId, Event>, h: seq<Event>, k: nat, e: Event)
  {
    && Ready(order, streams, index, Lives(h), h, k, e) && UniqueIds(h) && InOrder(Lives(h), h)
    && index.Keys + {e.id} <= IdsOf(h) && e.id !in index
  }

  lemma UniqueExtends(h: seq<Event>, e: Event)
    requires UniqueIds(h) && e.id !in IdsOf(h)
    ensures UniqueIds(h + [e]) && IdsOf(h + [e]) == IdsOf(h) + {e.id}
  {
  }

  /** An event with an id of its own. */
  lemma NewEntry(index: map<EventId, Event>, h: seq<Event>, e: Event)
    requires UniqueIds(h) && index.Keys <= IdsOf(h) && e.id !in IdsOf(h)
    ensures UniqueIds(h + [e]) && InOrder(Lives(h + [e]), h + [e])
    ensures index.Keys + {e.id} <= IdsOf(h + [e]) && e.id !in index
  {
    UniqueExtends(h, e);
    LivesInOrder(h + [e]);
  }

  lemma OpeningTidy(streams: Deques, index: map<EventId, Event>, s: StreamId)
    requires Tidy(streams) && IndexMatches(index, streams) && s !in streams
    ensures Tidy(streams[s := []]) && IndexMatches(index, streams[s := []])
  {
    forall id <- index ensures InItsDeque(index[id], id, streams[s := []]) {
      assert InItsDeque(index[id], id, streams);
    }
  }

  lemma ReadyNew(
      order: seq<StreamId>, streams: Deques, index: map<EventId, Event>, lives: seq<Life>, h: seq<Event>,
      k: nat, e: Event)
    requires k >= 1 && Tidy(streams) && IndexMatches(index, streams) && StreamsMatch(order, streams, lives, h, k)
    requires e.stream !in streams
    ensures Ready(order + [e.stream], streams[e.stream := []], index, lives + [Life(e.stream, |h|)], h + [e], k, e)
  {
    NewStreamMatches(order, streams, lives, h, k, e);
    OpeningTidy(streams, index, e.stream);
    assert Push([], e, k) == [e];
    assert streams[e.stream := []][e.stream := Push([], e, k)] == streams[e.stream := [e]];
  }

  class InMemoryEventStore {
    const maxEvents: nat
    /** `streams` is an OrderedDict: its keys in order of insertion, and its values. */
    var order: seq<StreamId>
    var streams: Deques
    var eventIndex: map<EventId, Event>
    ghost var history: seq<Event>

    ghost predicate Valid()
      reads this
    {
      maxEvents >= 1 && Consistent(order, streams, eventIndex, history, maxEvents)
    }

    constructor (maxEvents: nat)
      requires maxEvents >= 1
      ensures Valid() && history == [] && this.maxEvents == maxEvents
    {
      this.maxEvents := maxEvents;
      order, streams, eventIndex, history := [], map[], map[], [];
    }

    /** `popitem(last=False)` and the loop that takes its events out of the index. */
    method EvictOldest()
      requires Tidy(streams) && IndexMatches(eventIndex, streams) && order != [] && order[0] in streams
      modifies this`order, this`streams, this`eventIndex
      ensures order == old(order)[1..] && streams == old(streams) - {old(order)[0]}
      ensures Tidy(streams) && IndexMatches(eventIndex, streams)
      ensures eventIndex.Keys <= old(eventIndex).Keys
    {
      EvictedTidy(streams, eventIndex, order[0]);
      var evicted := streams[order[0]];
      streams := streams - {order[0]};
      order := order[1..];
      var i := 0;
      while i < |evicted|
        invariant 0 <= i <= |evicted| && order == old(order[1..]) && streams == old(streams - {order[0]})
        invariant eventIndex == old(eventIndex) - IdsOf(evicted[..i])
      {
        eventIndex := eventIndex - {evicted[i].id};
        i := i + 1;
        assert evicted[..i] == evicted[..i - 1] + [evicted[i - 1]];
      }
      assert evicted[..i] == evicted;
      assert eventIndex == old(eventIndex - IdsOf(streams[order[0]]));
    }

    /** Makes sure the stream of `entry` has a deque, forgetting the oldest stream for it if need be. */
    method OpenStream(entry: Event, ghost h: seq<Event>)
      requires Valid() && h == history + [entry]
      modifies this`order, this`streams, this`eventIndex
      ensures Ready(order, streams, eventIndex, Lives(h), h, maxEvents, entry)
      ensures eventIndex.Keys <= old(eventIndex).Keys
    {
      ghost var lives := Lives(history);
      LivesExtend(history, entry);
      KnownIsAlive(order, streams, lives, history, maxEvents, entry.stream);
      if entry.stream !in streams {
        if |order| >= MAX_STREAMS {
          assert PlaceMatches(order, streams, lives[0], history, maxEvents, 0);
          EvictedMatches(order, streams, lives, history, maxEvents);
          EvictOldest();
          lives := lives[1..];
        }
        ReadyNew(order, streams, eventIndex, lives, history, maxEvents, entry);
        order := order + [entry.stream];
        streams := streams[entry.stream := []];
      } else {
        KnownStreamMatches(order, streams, lives, history, maxEvents, entry);
      }
    }

    /** `store_event`; the caller supplies the fresh id that `uuid4` draws. */
    method StoreEvent(id: EventId, stream: StreamId, message: Option<Message>)
      requires Valid() && id !in IdsOf(history)
      modifies this
      ensures Valid() && history == old(history) + [Event(id, stream, message)]
      ensures id in eventIndex && eventIndex[id] == Event(id, stream, message)
    {
      var entry := Event(id, stream, message);
      ghost var h := history + [entry];
      Prepare(entry, h);
      Append(entry, h);
    }

    /** Everything up to the append. */
    method Prepare(entry: Event, ghost h: seq<Event>)
      requires Valid() && entry.id !in IdsOf(history) && h == history + [entry]
      modifies this`order, this`streams, this`eventIndex
      ensures Prepared(order, streams, eventIndex, h, maxEvents, entry)
    {
      NewEntry(eventIndex, history, entry);
      OpenStream(entry, h);
    }

    /** Drops the oldest event of a full deque from the index, then enters the new one in both. */
    method Append(entry: Event, ghost h: seq<Event>)
      requires Prepared(order, streams, eventIndex, h, maxEvents, entry)
      modifies this
      ensures Valid() && history == h
      ensures entry.id in eventIndex && eventIndex[entry.id] == entry
    {
      PushTidy(streams, eventIndex, entry, maxEvents);
      var stream := entry.stream;
      if |streams[stream]| == maxEvents {
        eventIndex := eventIndex - {streams[stream][0].id};
      }
      streams := streams[stream := Push(streams[stream], entry, maxEvents)];
      eventIndex := eventIndex[entry.id := entry];
      history := h;
    }

    /**
      `replay_events_after`: the stream of the cursor and what is sent.  A cursor is
      honoured exactly when its event is retained, and then everything non-empty
      stored on its stream since is sent, in order and once.
     */
    method ReplayEventsAfter(last: EventId) returns (r: Option<StreamId>, sent: seq<Sent>)
      requires Valid()
      ensures r.None? ==> sent == [] && Gone(history, maxEvents, last)
      ensures r.Some? ==> exists p, ps :: IsExactReplay(history, maxEvents, last, p, ps, r.value, sent)
    {
      if last !in eventIndex {
        UnindexedIsGone(order, streams, eventIndex, history, maxEvents, last);
        return None, [];
      }
      var stream := eventIndex[last].stream;
      ghost var p;
      sent, p := Replay(last);
      r := Some(stream);
      ghost var ps := ReplayIsExact(history, maxEvents, last, p, stream, sent);
      assert IsExactReplay(history, maxEvents, last, p, ps, stream, sent);
    }

    method Replay(last: EventId) returns (sent: seq<Sent>, ghost p: nat)
      requires Valid() && last in eventIndex
      ensures IsReplay(history, maxEvents, last, p, eventIndex[last].stream, sent)
    {
      ghost var j;
      j, p := IndexedIsRetained(order, streams, eventIndex, history, maxEvents, last);
      sent := SendAfter(streams[eventIndex[last].stream], last, j);
    }
  }

  /**
    No event with this id is retained: it was never stored, fell out of its
    window, or its stream was forgotten since.
   */
  ghost predicate Gone(h: seq<Event>, k: nat, id: EventId) {
    forall p | 0 <= p < |h| && h[p].id == id :: !Retained(h, p, k)
  }

  /** The right answer to a cursor whose event is at `p`. */
  ghost predicate IsReplay(h: seq<Event>, k: nat, id: EventId, p: int, s: StreamId, sent: seq<Sent>) {
    0 <= p < |h| && h[p].id == id && Retained(h, p, k) && s == h[p].stream && sent == Missed(h, p)
  }

  /** The same, with the positions of what is sent: all later events of the stream that have a message. */
  ghost predicate IsExactReplay(
      h: seq<Event>, k: nat, id: EventId, p: nat, ps: seq<nat>, s: StreamId, sent: seq<Sent>)
  {
    p < |h| && h[p].id == id && Retained(h, p, k) && s == h[p].stream && SentFrom(h, p + 1, s, ps, sent)
  }

  lemma ReplayIsExact(h: seq<Event>, k: nat, id: EventId, p: nat, s: StreamId, sent: seq<Sent>) returns (ps: seq<nat>)
    requires IsReplay(h, k, id, p, s, sent)
    ensures IsExactReplay(h, k, id, p, ps, s, sent)
  {
    ps := DeliveriesAreExact(h, p + 1, s);
  }

  /** What a client whose last event is at `p` has yet to be sent. */
  ghost function Missed(h: seq<Event>, p: nat): seq<Sent>
    requires p < |h|
  {
    Deliveries(OnStream(h[p + 1..], h[p].stream))
  }

  /** The replay loop with its `found_last` flag; the cursor is in place `j` and nowhere else. */
  method SendAfter(events: seq<Event>, last: EventId, ghost j: nat) returns (sent: seq<Sent>)
    requires j < |events| && events[j].id == last
    requires forall i | 0 <= i < |events| && i != j :: events[i].id != last
    ensures sent == Deliveries(events[j + 1..])
  {
    sent := [];
    var foundLast := false;
    var i := 0;
    while i < |events|
      invariant 0 <= i <= |events|
      invariant foundLast <==> i > j
      invariant if foundLast then sent + Deliveries(events[i..]) == Deliveries(events[j + 1..]) else sent == []
    {
      var event := events[i];
      if foundLast {
        DeliveriesFrom(events, i);
        if event.message.Some? {
          sent := sent + [Sent(event.message.value, event.id)];
        }
      } else if event.id == last {
        foundLast := true;
      }
      i := i + 1;
    }
    assert events[i..] == [];
  }

  lemma UnindexedIsGone(
      order: seq<StreamId>, streams: Deques, index: map<EventId, Event>, h: seq<Event>, k: nat,
      id: EventId)
    requires Consistent(order, streams, index, h, k) && id !in index
    ensures Gone(h, k, id)
  {
    forall p | 0 <= p < |h| && h[p].id == id ensures !Retained(h, p, k) {
      if Retained(h, p, k) { RetainedIsIndexed(order, streams, index, h, k, p); }
    }
  }

  ghost function Delivery(e: Event): seq<Sent> {
    if e.message.Some? then [Sent(e.message.value, e.id)] else []
  }

  lemma DeliveriesFrom(q: seq<Event>, i: nat)
    requires i < |q|
    ensures Deliveries(q[i..]) == Delivery(q[i]) + Deliveries(q[i + 1..])
  {
    assert q[i..][1..] == q[i + 1..];
  }

  lemma RetainedIsIndexed(
      order: seq<StreamId>, streams: Deques, index: map<EventId, Event>, h: seq<Event>, k: nat, p: nat)
    requires Consistent(order, streams, index, h, k) && p < |h| && Retained(h, p, k)
    ensures h[p].id in index && index[h[p].id] == h[p]
  {
    var j := WindowIsDeque(order, streams, Lives(h), h, k, p);
    assert AllIndexed(index, streams[h[p].stream]);
    IndexedAt(index, streams[h[p].stream], j, h, p);
  }

  lemma IndexedAt(index: map<EventId, Event>, q: seq<Event>, j: nat, h: seq<Event>, p: nat)
    requires AllIndexed(index, q) && SitsAt(q, j, h, p)
    ensures h[p].id in index && index[h[p].id] == h[p]
  {
  }

  /** A retained event is in the deque of its stream. */
  lemma WindowIsDeque(
      order: seq<StreamId>, streams: Deques, lives: seq<Life>, h: seq<Event>, k: nat, p: nat)
    returns (j: nat)
    requires StreamsMatch(order, streams, lives, h, k) && p < |h|
    requires KnownSince(lives, h[p].stream, p) && |OnStream(h[p + 1..], h[p].stream)| < k
    ensures h[p].stream in streams && SitsAt(streams[h[p].stream], j, h, p)
  {
    var l :| l in lives && l.stream == h[p].stream && l.born <= p;
    var i :| 0 <= i < |lives| && lives[i] == l;
    assert PlaceMatches(order, streams, lives[i], h, k, i);
    j := InWindow(h, l, k, p);
  }

  lemma IndexedIsRetained(
      order: seq<StreamId>, streams: Deques, index: map<EventId, Event>, h: seq<Event>, k: nat,
      id: EventId)
    returns (j: nat, p: nat)
    requires Consistent(order, streams, index, h, k) && id in index
    ensures index[id].stream in streams
    ensures
      var q := streams[index[id].stream];
      && j < |q| && q[j].id == id && (forall i | 0 <= i < |q| && i != j :: q[i].id != id)
      && IsReplay(h, k, id, p, index[id].stream, Deliveries(q[j + 1..]))
  {
    var s := index[id].stream;
    j := InOnePlace(streams, index, id);
    p := DequeIsWindow(order, streams, h, k, s, j);
  }

  lemma InOnePlace(streams: Deques, index: map<EventId, Event>, id: EventId) returns (j: nat)
    requires Tidy(streams) && IndexMatches(index, streams) && id in index
    ensures index[id].stream in streams
    ensures
      var q := streams[index[id].stream];
      j < |q| && q[j].id == id && forall i | 0 <= i < |q| && i != j :: q[i].id != id
  {
    assert InItsDeque(index[id], id, streams);
    var q := streams[index[id].stream];
    j :| 0 <= j < |q| && q[j] == index[id];
    assert TidyDeque(q, index[id].stream);
  }

  /** An event in a deque is retained, and what is behind it there is what its reader has missed. */
  lemma DequeIsWindow(order: seq<StreamId>, streams: Deques, h: seq<Event>, k: nat, s: StreamId, j: nat)
    returns (p: nat)
    requires InOrder(Lives(h), h) && StreamsMatch(order, streams, Lives(h), h, k) && s in streams && j < |streams[s]|
    ensures IsReplay(h, k, streams[s][j].id, p, s, Deliveries(streams[s][j + 1..]))
  {
    var lives := Lives(h);
    var i := PlaceOf(order, streams, lives, h, k, s);
    p := OutOfWindow(h, lives[i], k, j);
    assert lives[i] in lives;
    assert KnownSince(lives, h[p].stream, p);
  }

  // ---------------------------------------------------------- size of the index

  ghost function Total(order: seq<StreamId>, streams: Deques): nat
    requires forall s <- order :: s in streams
  {
    if order == [] then 0 else |streams[order[0]]| + Total(order[1..], streams)
  }

  ghost function IdsOfAll(order: seq<StreamId>, streams: Deques): set<EventId>
    requires forall s <- order :: s in streams
  {
    if order == [] then {} else IdsOf(streams[order[0]]) + IdsOfAll(order[1..], streams)
  }

  lemma {:induction false} IdsOfSize(q: seq<Event>)
    requires forall i, j | 0 <= i < j < |q| :: q[i].id != q[j].id
    ensures |IdsOf(q)| == |q|
  {
    if q != [] {
      IdsOfSize(q[1..]);
      assert IdsOf(q) == {q[0].id} + IdsOf(q[1..]);
    }
  }

  lemma {:induction false} IdInSomeDeque(order: seq<StreamId>, streams: Deques, id: EventId)
    requires forall s <- order :: s in streams
    ensures id in IdsOfAll(order, streams) <==> exists s <- order :: id in IdsOf(streams[s])
  {
    if order != [] {
      IdInSomeDeque(order[1..], streams, id);
      assert order == [order[0]] + order[1..];
    }
  }

  lemma {:induction false} IdsOfAllSize(order: seq<StreamId>, streams: Deques, index: map<EventId, Event>)
    requires Tidy(streams) && IndexMatches(index, streams) && (forall s <- order :: s in streams)
    requires forall i, j | 0 <= i < j < |order| :: order[i] != order[j]
    ensures |IdsOfAll(order, streams)| == Total(order, streams)
  {
    if order != [] {
      var s, rest := order[0], order[1..];
      IdsOfAllSize(rest, streams, index);
      assert TidyDeque(streams[s], s);
      IdsOfSize(streams[s]);
      forall r <- rest ensures IdsOf(streams[r]) !! IdsOf(streams[s]) {
        DequesDisjoint(streams, index, r, s);
      }
      forall id | id in IdsOf(streams[s]) ensures id !in IdsOfAll(rest, streams) {
        IdInSomeDeque(rest, streams, id);
      }
    }
  }

  lemma DequesDisjoint(streams: Deques, index: map<EventId, Event>, r: StreamId, s: StreamId)
    requires Tidy(streams) && IndexMatches(index, streams) && r in streams && s in streams && r != s
    ensures IdsOf(streams[r]) !! IdsOf(streams[s])
  {
    assert AllIndexed(index, streams[r]) && TidyDeque(streams[r], r);
    assert AllIndexed(index, streams[s]) && TidyDeque(streams[s], s);
  }

  lemma IndexKeys(order: seq<StreamId>, streams: Deques, index: map<EventId, Event>)
    requires IndexMatches(index, streams) && (forall s :: s in order <==> s in streams)
    ensures index.Keys == IdsOfAll(order, streams)
  {
    forall id ensures id in index <==> id in IdsOfAll(order, streams) {
      IdInSomeDeque(order, streams, id);
      if id in index {
        assert InItsDeque(index[id], id, streams);
        assert id in IdsOf(streams[index[id].stream]);
      }
      if s :| s in order && id in IdsOf(streams[s]) {
        assert AllIndexed(index, streams[s]);
      }
    }
  }

  /** The index is as large as the deques together. */
  lemma IndexSizeIsTotal(order: seq<StreamId>, streams: Deques, index: map<EventId, Event>, h: seq<Event>, k: nat)
    requires Consistent(order, streams, index, h, k)
    ensures |order| <= MAX_STREAMS && (forall s <- order :: s in streams) && |index| == Total(order, streams)
  {
    var lives := Lives(h);
    forall i | 0 <= i < |order| ensures order[i] in streams && order[i] == lives[i].stream {
      assert PlaceMatches(order, streams, lives[i], h, k, i);
    }
    IdsOfAllSize(order, streams, index);
    IndexKeys(order, streams, index);
  }
}
