/**
  The event log as the MCP specification sees it: an unbounded history of
  stored events, of which the gateway keeps a window.  Everything here is
  defined on the history alone.
 */
module EventHistory {
  import opened Wrappers

  type EventId = string
  type StreamId = string
  type Message = string

  const MAX_STREAMS: nat := 10_000

  datatype Event = Event(id: EventId, stream: StreamId, message: Option<Message>)

  /** One period during which a stream name was known to the store; `born` is the history position that began it. */
  datatype Life = Life(stream: StreamId, born: nat)

  /** The events stored on one stream, in order. */
  ghost function OnStream(h: seq<Event>, s: StreamId): seq<Event> {
    if h == [] then [] else (if h[0].stream == s then [h[0]] else []) + OnStream(h[1..], s)
  }

  ghost function LastK<T>(q: seq<T>, k: nat): (r: seq<T>)
    ensures |r| == if |q| <= k then |q| else k
    ensures r == q[|q| - |r|..]
  {
    if |q| <= k then q else q[|q| - k..]
  }

  predicate HasLife(lives: seq<Life>, s: StreamId) {
    exists l <- lives :: l.stream == s
  }

  /** An event on stream `s` at position `n`: a full store forgets the oldest stream before it takes a new one. */
  ghost function Admit(lives: seq<Life>, s: StreamId, n: nat): seq<Life> {
    if HasLife(lives, s) then lives
    else (if |lives| >= MAX_STREAMS then lives[1..] else lives) + [Life(s, n)]
  }

  /** The streams known after `h`, oldest first. */
  ghost function Lives(h: seq<Event>): seq<Life>
    decreases |h|
  {
    if h == [] then [] else Admit(Lives(h[..|h| - 1]), h[|h| - 1].stream, |h| - 1)
  }

  /** What the store keeps of one life: its last `k` events. */
  ghost function Window(h: seq<Event>, l: Life, k: nat): seq<Event>
    requires l.born <= |h|
  {
    LastK(OnStream(h[l.born..], l.stream), k)
  }

  ghost predicate KnownSince(lives: seq<Life>, s: StreamId, p: nat) {
    exists l <- lives :: l.stream == s && l.born <= p
  }

  /**
    The event at `p` is still kept: its stream has not been forgotten since, and
    fewer than `k` events followed it there.
   */
  ghost predicate Retained(h: seq<Event>, p: nat, k: nat)
    requires p < |h|
  {
    && KnownSince(Lives(h), h[p].stream, p)
    && |OnStream(h[p + 1..], h[p].stream)| < k
  }

  /** What is sent for a list of events: empty messages are skipped. */
  datatype Sent = Sent(message: Message, id: EventId)

  ghost function Deliveries(q: seq<Event>): seq<Sent> {
    if q == [] then []
    else (if q[0].message.Some? then [Sent(q[0].message.value, q[0].id)] else []) + Deliveries(q[1..])
  }

  /**
    What is sent, said position by position: at `ps`, in order, are all events of
    the stream from `from` on that have a message, and each is sent with its own
    message and id.
   */
  ghost predicate SentFrom(h: seq<Event>, from: nat, s: StreamId, ps: seq<nat>, sent: seq<Sent>) {
    && |ps| == |sent|
    && (forall i | 0 <= i < |ps| :: IsSent(h, from, s, ps[i], sent[i]))
    && (forall i, j | 0 <= i < j < |ps| :: ps[i] < ps[j])
    && (forall n | HasMessage(h, from, s, n) :: n in ps)
  }

  ghost predicate HasMessage(h: seq<Event>, from: nat, s: StreamId, n: nat) {
    from <= n < |h| && h[n].stream == s && h[n].message.Some?
  }

  ghost predicate IsSent(h: seq<Event>, from: nat, s: StreamId, n: nat, x: Sent) {
    HasMessage(h, from, s, n) && x.message == h[n].message.value && x.id == h[n].id
  }

  ghost predicate UniqueIds(h: seq<Event>) {
    forall i, j | 0 <= i < j < |h| :: h[i].id != h[j].id
  }

  // ------------------------------------------------------------------- lemmas

  lemma {:induction false} OnStreamConcat(a: seq<Event>, b: seq<Event>, s: StreamId)
    ensures OnStream(a + b, s) == OnStream(a, s) + OnStream(b, s)
  {
    if a == [] {
      assert a + b == b;
    } else {
      assert (a + b)[0] == a[0] && (a + b)[1..] == a[1..] + b;
      OnStreamConcat(a[1..], b, s);
    }
  }

  /** In order of birth, of distinct streams, each begun by an event of its own stream, and no more than the limit. */
  ghost predicate InOrder(lives: seq<Life>, h: seq<Event>) {
    && |lives| <= 10_000
    && (forall i | 0 <= i < |lives| :: lives[i].born < |h| && h[lives[i].born].stream == lives[i].stream)
    && (forall i, j | 0 <= i < j < |lives| :: lives[i].born < lives[j].born && lives[i].stream != lives[j].stream)
  }

  lemma AdmitInOrder(lives: seq<Life>, h: seq<Event>, e: Event)
    requires InOrder(lives, h)
    ensures InOrder(Admit(lives, e.stream, |h|), h + [e])
  {
    if !HasLife(lives, e.stream) {
      forall i | 0 <= i < |lives| ensures lives[i].stream != e.stream {
        assert lives[i] in lives;
      }
    }
  }

  lemma {:induction false} LivesInOrder(h: seq<Event>)
    ensures InOrder(Lives(h), h)
    decreases |h|
  {
    if h != [] {
      var n := |h| - 1;
      assert h == h[..n] + [h[n]];
      LivesInOrder(h[..n]);
      AdmitInOrder(Lives(h[..n]), h[..n], h[n]);
    }
  }

  lemma LivesExtend(h: seq<Event>, e: Event)
    ensures Lives(h + [e]) == Admit(Lives(h), e.stream, |h|)
  {
    assert (h + [e])[..|h|] == h;
  }

  /** An event on a live stream that is not the first of its life has the same stream's window grow by itself. */
  lemma {:induction false} WindowExtends(h: seq<Event>, e: Event, l: Life, k: nat)
    requires l.born <= |h| && k >= 1
    ensures
      var w := Window(h, l, k);
      Window(h + [e], l, k) ==
        if e.stream != l.stream then w else (if |w| == k then w[1..] else w) + [e]
  {
    assert (h + [e])[l.born..] == h[l.born..] + [e];
    OnStreamConcat(h[l.born..], [e], l.stream);
    assert OnStream([e], l.stream) == if e.stream == l.stream then [e] else [];
  }

  /** One event further back: it comes first if it is of the stream and has a message. */
  lemma SentFromOneMore(h: seq<Event>, from: nat, s: StreamId, ps: seq<nat>, sent: seq<Sent>, x: Sent)
    requires SentFrom(h, from + 1, s, ps, sent) && IsSent(h, from, s, from, x)
    ensures SentFrom(h, from, s, [from] + ps, [x] + sent)
  {
    var ps', sent' := [from] + ps, [x] + sent;
    forall i | 0 <= i < |ps'| ensures IsSent(h, from, s, ps'[i], sent'[i]) {
      if i > 0 { assert IsSent(h, from + 1, s, ps[i - 1], sent[i - 1]); }
    }
    forall i, j | 0 <= i < j < |ps'| ensures ps'[i] < ps'[j] {
      assert IsSent(h, from + 1, s, ps[j - 1], sent[j - 1]);
    }
    forall n | HasMessage(h, from, s, n) ensures n in ps' {
      assert n != from ==> HasMessage(h, from + 1, s, n);
    }
  }

  lemma SentFromOther(h: seq<Event>, from: nat, s: StreamId, ps: seq<nat>, sent: seq<Sent>)
    requires SentFrom(h, from + 1, s, ps, sent) && !HasMessage(h, from, s, from)
    ensures SentFrom(h, from, s, ps, sent)
  {
    forall i | 0 <= i < |ps| ensures IsSent(h, from, s, ps[i], sent[i]) {
      assert IsSent(h, from + 1, s, ps[i], sent[i]);
    }
    forall n | HasMessage(h, from, s, n) ensures n in ps {
      assert n != from && HasMessage(h, from + 1, s, n);
    }
  }

  lemma DeliveriesCons(e: Event, later: seq<Event>)
    ensures Deliveries([e] + later) ==
            (if e.message.Some? then [Sent(e.message.value, e.id)] else []) + Deliveries(later)
  {
    assert ([e] + later)[0] == e && ([e] + later)[1..] == later;
  }

  lemma OnStreamFrom(h: seq<Event>, from: nat, s: StreamId)
    requires from < |h|
    ensures OnStream(h[from..], s) == (if h[from].stream == s then [h[from]] else []) + OnStream(h[from + 1..], s)
  {
    assert h[from..][0] == h[from] && h[from..][1..] == h[from + 1..];
  }

  /** The deliveries of a stream are exactly those. */
  lemma {:induction false} DeliveriesAreExact(h: seq<Event>, from: nat, s: StreamId) returns (ps: seq<nat>)
    requires from <= |h|
    ensures SentFrom(h, from, s, ps, Deliveries(OnStream(h[from..], s)))
    decreases |h| - from
  {
    ps := [];
    if from < |h| {
      ps := DeliveriesAreExact(h, from + 1, s);
      var later := OnStream(h[from + 1..], s);
      OnStreamFrom(h, from, s);
      DeliveriesCons(h[from], later);
      ps := OneMoreSent(h, from, s, later, ps);
    }
  }

  lemma OneMoreSent(h: seq<Event>, from: nat, s: StreamId, later: seq<Event>, ps: seq<nat>) returns (ps': seq<nat>)
    requires from < |h| && SentFrom(h, from + 1, s, ps, Deliveries(later))
    ensures SentFrom(h, from, s, ps', Deliveries((if h[from].stream == s then [h[from]] else []) + later))
  {
    DeliveriesCons(h[from], later);
    assert [] + later == later && [] + Deliveries(later) == Deliveries(later);
    if HasMessage(h, from, s, from) {
      SentFromOneMore(h, from, s, ps, Deliveries(later), Sent(h[from].message.value, h[from].id));
      ps' := [from] + ps;
    } else {
      SentFromOther(h, from, s, ps, Deliveries(later));
      ps' := ps;
    }
  }

  /** A position in a stream's events since `from` is a position in the history. */
  lemma {:induction false} Locate(h: seq<Event>, from: nat, s: StreamId, j: nat) returns (p: nat)
    requires from <= |h| && j < |OnStream(h[from..], s)|
    ensures from <= p < |h| && h[p].stream == s && h[p] == OnStream(h[from..], s)[j]
    ensures OnStream(h[p + 1..], s) == OnStream(h[from..], s)[j + 1..]
    decreases |h| - from
  {
    OnStreamFrom(h, from, s);
    var later := OnStream(h[from + 1..], s);
    if h[from].stream != s {
      assert [] + later == later;
      p := Locate(h, from + 1, s, j);
    } else if j == 0 {
      p := from;
    } else {
      p := Locate(h, from + 1, s, j - 1);
      ConsAt(h[from], later, j);
    }
  }

  lemma ConsAt<T>(x: T, later: seq<T>, j: nat)
    requires 0 < j <= |later|
    ensures ([x] + later)[j] == later[j - 1] && ([x] + later)[j + 1..] == later[j..]
  {
  }

  /** And conversely: an event of the stream splits its list into what came before and what came after. */
  lemma {:induction false} SplitAt(h: seq<Event>, p: nat, s: StreamId)
    requires p < |h| && h[p].stream == s
    ensures OnStream(h, s) == OnStream(h[..p], s) + [h[p]] + OnStream(h[p + 1..], s)
  {
    assert h == h[..p] + ([h[p]] + h[p + 1..]);
    OnStreamConcat(h[..p], [h[p]] + h[p + 1..], s);
    OnStreamConcat([h[p]], h[p + 1..], s);
  }

  /** What was stored on the stream of `l` since its birth. */
  ghost function Since(h: seq<Event>, l: Life): seq<Event>
    requires l.born <= |h|
  {
    OnStream(h[l.born..], l.stream)
  }

  /** The event at `p` of the history is in place `j` of `q`, with exactly the later events of its stream behind it. */
  ghost predicate SitsAt(q: seq<Event>, j: int, h: seq<Event>, p: int) {
    0 <= j < |q| && 0 <= p < |h| && q[j] == h[p] && q[j + 1..] == OnStream(h[p + 1..], h[p].stream)
  }

  lemma TailOf<T>(h: seq<T>, b: nat, q: nat)
    requires b <= |h| && q < |h[b..]|
    ensures h[b..][q] == h[b + q] && h[b..][q + 1..] == h[b + q + 1..]
  {
  }

  lemma {:induction false} SitsSince(h: seq<Event>, l: Life, p: nat) returns (n: nat)
    requires l.born <= p < |h| && h[p].stream == l.stream
    ensures SitsAt(Since(h, l), n, h, p)
  {
    var tail, q := h[l.born..], p - l.born;
    TailOf(h, l.born, q);
    SplitAt(tail, q, l.stream);
    n := |OnStream(tail[..q], l.stream)|;
  }

  lemma {:induction false} LocateSince(h: seq<Event>, l: Life, n: nat) returns (p: nat)
    requires l.born <= |h| && n < |Since(h, l)|
    ensures l.born <= p < |h| && h[p].stream == l.stream && SitsAt(Since(h, l), n, h, p)
  {
    p := Locate(h, l.born, l.stream, n);
  }

  /** Dropping the front of a list moves places down and leaves what is behind them. */
  lemma SitsInSuffix(all: seq<Event>, w: seq<Event>, j: int, h: seq<Event>, p: int)
    requires |w| <= |all| && w == all[|all| - |w|..] && 0 <= j < |w|
    ensures SitsAt(w, j, h, p) <==> SitsAt(all, |all| - |w| + j, h, p)
  {
    assert w[j + 1..] == all[|all| - |w| + j + 1..];
  }

  /** An event followed by fewer than `k` sits in the window. */
  lemma {:induction false} InWindow(h: seq<Event>, l: Life, k: nat, p: nat) returns (j: nat)
    requires l.born <= p < |h| && h[p].stream == l.stream && |OnStream(h[p + 1..], l.stream)| < k
    ensures SitsAt(Window(h, l, k), j, h, p)
  {
    var n := SitsSince(h, l, p);
    var all, w := Since(h, l), Window(h, l, k);
    j := n + |w| - |all|;
    SitsInSuffix(all, w, j, h, p);
  }

  /** And whatever sits in the window is an event stored on the stream in this life. */
  lemma {:induction false} OutOfWindow(h: seq<Event>, l: Life, k: nat, j: nat) returns (p: nat)
    requires l.born <= |h| && j < |Window(h, l, k)|
    ensures l.born <= p < |h| && h[p].stream == l.stream && SitsAt(Window(h, l, k), j, h, p)
  {
    var all, w := Since(h, l), Window(h, l, k);
    p := LocateSince(h, l, |all| - |w| + j);
    SitsInSuffix(all, w, j, h, p);
  }

  // -------------------------------------------------------- over whole histories

  /** A full store that meets a new stream forgets exactly the stream that was born first. */
  lemma OldestIsForgotten(h: seq<Event>, e: Event)
    requires |Lives(h)| == 10_000 && !HasLife(Lives(h), e.stream)
    ensures
      var oldest := Lives(h)[0];
      && (forall l <- Lives(h) | l != oldest :: oldest.born < l.born && l in Lives(h + [e]))
      && (forall l <- Lives(h + [e]) :: l == Life(e.stream, |h|) || (l in Lives(h) && l != oldest))
  {
    LivesInOrder(h);
    LivesExtend(h, e);
    var lives := Lives(h);
    forall l <- lives | l != lives[0] ensures lives[0].born < l.born && l in lives[1..] {
      var i :| 0 <= i < |lives| && lives[i] == l;
      assert lives[1..][i - 1] == l;
    }
  }

  /** An event that is no longer retained never is again, whatever is stored later. */
  lemma {:induction false} GoneForGood(h: seq<Event>, later: seq<Event>, p: nat, k: nat)
    requires p < |h| && !Retained(h, p, k)
    ensures !Retained(h + later, p, k)
    decreases |later|
  {
    if later == [] {
      assert h + later == h;
    } else {
      GoneAfterOne(h, later[0], p, k);
      GoneForGood(h + [later[0]], later[1..], p, k);
      assert h + later == h + [later[0]] + later[1..];
    }
  }

  lemma GoneAfterOne(h: seq<Event>, e: Event, p: nat, k: nat)
    requires p < |h| && !Retained(h, p, k)
    ensures !Retained(h + [e], p, k)
  {
    LivesExtend(h, e);
    var s := h[p].stream;
    assert (h + [e])[p + 1..] == h[p + 1..] + [e];
    OnStreamConcat(h[p + 1..], [e], s);
    if l :| l in Lives(h + [e]) && l.stream == s && l.born <= p {
      assert l in Lives(h);
    }
  }
}
