/** The key-value stores with time-to-live: one in memory, several over one Redis keyspace told apart by prefix. */
module Stores {
  import opened Wrappers
  import opened Expiry

  type Cells = map<string, Cell<string>>

  datatype Op = Set(key: string, value: string, ttl: Option<Time>) | Get(key: string) | Pop(key: string) | Clear

  datatype Answer = Done | Value(value: Option<string>) | Raised

  datatype Outcome = Outcome(cells: Cells, answer: Answer)

  /** A call and the instant it is made. */
  datatype Call = Call(op: Op, at: Time)

  function ExpiryFrom(ttl: Option<Time>, now: Time): Option<Time> {
    if ttl.Some? then Some(now + ttl.value) else None
  }

  // ------------------------------------------------------------------ references

  function Purge(m: Cells, now: Time): Cells {
    map k | k in m && Live(m[k].expiry, now) :: m[k]
  }

  /** A map from which every entry disappears by itself the moment it expires. */
  function EagerOp(m: Cells, op: Op, now: Time): Outcome {
    var live := Purge(m, now);
    match op
    case Set(key, value, ttl) => Outcome(Purge(live[key := Cell(value, ExpiryFrom(ttl, now))], now), Done)
    case Get(key) => Outcome(live, Value(if key in live then Some(live[key].value) else None))
    case Pop(key) => Outcome(live - {key}, Value(if key in live then Some(live[key].value) else None))
    case Clear => Outcome(map[], Done)
  }

  // ------------------------------------------------------------- the memory store

  /** What `InMemoryStore` does: expired entries stay until somebody looks at them. */
  function LazyOp(m: Cells, op: Op, now: Time): Outcome {
    match op
    case Set(key, value, ttl) => Outcome(m[key := Cell(value, ExpiryFrom(ttl, now))], Done)
    case Get(key) =>
      if key in m && !Live(m[key].expiry, now) then Outcome(m - {key}, Value(None))
      else Outcome(m, Value(Lookup(m, key, now)))
    case Pop(key) => Outcome(m - {key}, Value(Lookup(m, key, now)))
    case Clear => Outcome(map[], Done)
  }

  // ------------------------------------------------- laziness cannot be observed

  function LazyAnswers(m: Cells, calls: seq<Call>): seq<Answer>
    decreases |calls|
  {
    if calls == [] then [] else
      var o := LazyOp(m, calls[0].op, calls[0].at);
      [o.answer] + LazyAnswers(o.cells, calls[1..])
  }

  function EagerAnswers(m: Cells, calls: seq<Call>): seq<Answer>
    decreases |calls|
  {
    if calls == [] then [] else
      var o := EagerOp(m, calls[0].op, calls[0].at);
      [o.answer] + EagerAnswers(o.cells, calls[1..])
  }

  ghost predicate InTime(calls: seq<Call>, from: Time) {
    calls != [] ==> from <= calls[0].at && InTime(calls[1..], calls[0].at)
  }

  function LiveCell(m: Cells, key: string, now: Time): Option<Cell<string>> {
    if key in m && Live(m[key].expiry, now) then Some(m[key]) else None
  }

  /** Two maps hold the same live entries. */
  ghost predicate Alike(m: Cells, n: Cells, now: Time) {
    forall k :: LiveCell(m, k, now) == LiveCell(n, k, now)
  }

  lemma AlikeLater(m: Cells, n: Cells, now: Time, later: Time)
    requires Alike(m, n, now) && now <= later
    ensures Alike(m, n, later)
  {
    forall k ensures LiveCell(m, k, later) == LiveCell(n, k, later) {
      assert LiveCell(m, k, now) == LiveCell(n, k, now);
    }
  }

  lemma AlikeStep(m: Cells, n: Cells, op: Op, now: Time)
    requires Alike(m, n, now)
    ensures LazyOp(m, op, now).answer == EagerOp(n, op, now).answer
    ensures Alike(LazyOp(m, op, now).cells, EagerOp(n, op, now).cells, now)
  {
    if !op.Clear? { assert LiveCell(m, op.key, now) == LiveCell(n, op.key, now); }
    forall k ensures LiveCell(LazyOp(m, op, now).cells, k, now) == LiveCell(EagerOp(n, op, now).cells, k, now) {
      assert LiveCell(m, k, now) == LiveCell(n, k, now);
    }
  }

  lemma {:induction false} LazyIsEagerFrom(m: Cells, n: Cells, calls: seq<Call>, from: Time)
    requires InTime(calls, from) && Alike(m, n, from)
    ensures LazyAnswers(m, calls) == EagerAnswers(n, calls)
    decreases |calls|
  {
    if calls != [] {
      var c := calls[0];
      AlikeLater(m, n, from, c.at);
      AlikeStep(m, n, c.op, c.at);
      LazyIsEagerFrom(LazyOp(m, c.op, c.at).cells, EagerOp(n, c.op, c.at).cells, calls[1..], c.at);
    }
  }

  /** Whatever is asked of it, on a clock that does not run back, the memory store answers as the eager map does. */
  lemma LazyIsEager(calls: seq<Call>, start: Time)
    requires InTime(calls, start)
    ensures LazyAnswers(map[], calls) == EagerAnswers(map[], calls)
  {
    LazyIsEagerFrom(map[], map[], calls, start);
  }

  // ---------------------------------------------------------- a value lives for its TTL

  /** The call can change what is stored under `key`. */
  predicate Touches(op: Op, key: string) {
    op.Clear? || ((op.Set? || op.Pop?) && op.key == key)
  }

  function EagerAfter(m: Cells, calls: seq<Call>): Cells
    decreases |calls|
  {
    if calls == [] then m else EagerAfter(EagerOp(m, calls[0].op, calls[0].at).cells, calls[1..])
  }

  lemma {:induction false} EagerAnswersConcat(m: Cells, a: seq<Call>, b: seq<Call>)
    ensures EagerAnswers(m, a + b) == EagerAnswers(m, a) + EagerAnswers(EagerAfter(m, a), b)
    decreases |a|
  {
    if a == [] {
      assert a + b == b;
    } else {
      assert (a + b)[0] == a[0] && (a + b)[1..] == a[1..] + b;
      EagerAnswersConcat(EagerOp(m, a[0].op, a[0].at).cells, a[1..], b);
    }
  }

  lemma {:induction false} InTimeSplit(a: seq<Call>, b: seq<Call>, from: Time)
    requires InTime(a + b, from)
    ensures InTime(a, from) && InTime(b, EndOf(a, from))
    decreases |a|
  {
    if a == [] {
      assert a + b == b;
    } else {
      assert (a + b)[0] == a[0] && (a + b)[1..] == a[1..] + b;
      InTimeSplit(a[1..], b, a[0].at);
    }
  }

  /** The instant of the last call. */
  function EndOf(calls: seq<Call>, from: Time): Time
    decreases |calls|
  {
    if calls == [] then from else EndOf(calls[1..], calls[0].at)
  }

  /** Calls that do not touch a key leave it alone, but for its expiry. */
  lemma {:induction false} Untouched(m: Cells, calls: seq<Call>, key: string, from: Time)
    requires InTime(calls, from) && forall c <- calls :: !Touches(c.op, key)
    ensures EndOf(calls, from) >= from
    ensures forall later | later >= EndOf(calls, from) ::
              LiveCell(EagerAfter(m, calls), key, later) == LiveCell(m, key, later)
    decreases |calls|
  {
    if calls != [] {
      var c := calls[0];
      assert c in calls && forall x <- calls[1..] :: x in calls;
      Untouched(EagerOp(m, c.op, c.at).cells, calls[1..], key, c.at);
    }
  }

  /** What is found under `key` at `now`, if `last` was the last call to touch it. */
  function Found(last: Call, key: string, now: Time): Option<string> {
    match last.op
    case Set(_, value, ttl) => if ttl.None? || now <= last.at + ttl.value then Some(value) else None
    case _ => None
  }

  /**
    After any calls, the last call that touches a key decides what is found there,
    read or popped.  A value that was set is found exactly until its time-to-live
    is over, at the last instant still, and for ever if it has none; after a pop
    or a clear nothing is.
   */
  lemma LastTouchDecides(
      before: seq<Call>, touch: Call, between: seq<Call>, read: Call, key: string, start: Time)
    requires InTime(before + [touch] + between + [read], start)
    requires Touches(touch.op, key) && forall c <- between :: !Touches(c.op, key)
    requires read.op == Get(key) || read.op == Pop(key)
    ensures
      var answers := LazyAnswers(map[], before + [touch] + between + [read]);
      answers != [] && answers[|answers| - 1] == Value(Found(touch, key, read.at))
  {
    var calls := before + [touch] + between + [read];
    LazyIsEager(calls, start);
    var m := EagerAfter(map[], before);
    var n := EagerOp(m, touch.op, touch.at).cells;
    assert calls == before + ([touch] + (between + [read]));
    InTimeSplit(before, [touch] + (between + [read]), start);
    assert ([touch] + (between + [read]))[1..] == between + [read];
    InTimeSplit(between, [read], touch.at);
    assert [read][0] == read;
    EagerAnswersConcat(map[], before, [touch] + (between + [read]));
    EagerAnswersConcat(n, between, [read]);
    Untouched(n, between, key, touch.at);
    LastAnswer(EagerAfter(n, between), m, touch, key, read);
  }

  lemma LastAnswer(now: Cells, m: Cells, touch: Call, key: string, read: Call)
    requires (read.op == Get(key) || read.op == Pop(key)) && read.at >= touch.at && Touches(touch.op, key)
    requires LiveCell(now, key, read.at) == LiveCell(EagerOp(m, touch.op, touch.at).cells, key, read.at)
    ensures EagerAnswers(now, [read]) == [Value(Found(touch, key, read.at))]
  {
    assert [read][1..] == [];
  }

  /** And where nothing was ever put nothing is found. */
  lemma NothingUntouched(calls: seq<Call>, read: Call, key: string, start: Time)
    requires InTime(calls + [read], start) && forall c <- calls :: !Touches(c.op, key)
    requires read.op == Get(key) || read.op == Pop(key)
    ensures
      var answers := LazyAnswers(map[], calls + [read]);
      answers != [] && answers[|answers| - 1] == Value(None)
  {
    LazyIsEager(calls + [read], start);
    InTimeSplit(calls, [read], start);
    EagerAnswersConcat(map[], calls, [read]);
    Untouched(map[], calls, key, start);
    assert LiveCell(EagerAfter(map[], calls), key, read.at) == LiveCell(map[], key, read.at);
    assert [read][0] == read && [read][1..] == [];
  }

  /** The store, beside the eager map it stands for and the instant of the last call. */
  class InMemoryStore {
    var data: Cells
    ghost var eager: Cells
    ghost var clock: Time

    /** The same live entries, whatever expired ones have not been noticed yet. */
    ghost predicate Valid()
      reads this
    {
      Alike(data, eager, clock)
    }

    constructor (ghost now: Time)
      ensures Valid() && eager == map[] && clock == now
    {
      data, eager, clock := map[], map[], now;
    }

    /** The eager map takes part in every call; `op` is what is asked of it. */
    ghost method Follow(op: Op, now: Time)
      requires Valid() && clock <= now
      modifies this`eager, this`clock
      ensures clock == now && eager == EagerOp(old(eager), op, now).cells
      ensures LazyOp(data, op, now).answer == EagerOp(old(eager), op, now).answer
      ensures Alike(LazyOp(data, op, now).cells, eager, now)
    {
      AlikeLater(data, eager, clock, now);
      AlikeStep(data, eager, op, now);
      eager, clock := EagerOp(eager, op, now).cells, now;
    }

    method Set(key: string, value: string, ttl: Option<Time>, now: Time)
      requires Valid() && clock <= now
      modifies this
      ensures Valid() && clock == now && Outcome(eager, Done) == EagerOp(old(eager), Op.Set(key, value, ttl), now)
    {
      Follow(Op.Set(key, value, ttl), now);
      var expiresAt := if ttl.Some? then Some(now + ttl.value) else None;
      data := data[key := Cell(value, expiresAt)];
    }

    method Get(key: string, now: Time) returns (r: Option<string>)
      requires Valid() && clock <= now
      modifies this
      ensures Valid() && clock == now && Outcome(eager, Value(r)) == EagerOp(old(eager), Op.Get(key), now)
    {
      Follow(Op.Get(key), now);
      if key !in data { return None; }
      var entry := data[key];
      if entry.expiry.Some? && now > entry.expiry.value {
        data := data - {key};
        return None;
      }
      r := Some(entry.value);
    }

    method Pop(key: string, now: Time) returns (r: Option<string>)
      requires Valid() && clock <= now
      modifies this
      ensures Valid() && clock == now && Outcome(eager, Value(r)) == EagerOp(old(eager), Op.Pop(key), now)
    {
      Follow(Op.Pop(key), now);
      if key !in data {
        assert data - {key} == data;
        return None;
      }
      var entry := data[key];
      data := data - {key};
      if entry.expiry.Some? && now > entry.expiry.value { return None; }
      r := Some(entry.value);
    }

    method Clear(ghost now: Time)
      requires Valid() && clock <= now
      modifies this
      ensures Valid() && clock == now && Outcome(eager, Done) == EagerOp(old(eager), Op.Clear, now)
    {
      Follow(Op.Clear, now);
      data := map[];
    }
  }

  // --------------------------------------------------------------- shared keyspace

  /** The answer of a character class for one character, and the pattern behind it. */
  datatype ClassMatch = ClassMatch(hit: bool, rest: string)

  predicate InRange(c: char, x: char, y: char) {
    x <= c <= y || y <= c <= x
  }

  /** A class from behind its '[' and '^'; one that is not closed reaches to the end of the pattern. */
  function ReadClass(p: string, c: char): (m: ClassMatch)
    ensures |m.rest| <= |p|
  {
    if p == "" then ClassMatch(false, "")
    else if p[0] == '\\' && |p| >= 2 then
      var m := ReadClass(p[2..], c);
      m.(hit := m.hit || p[1] == c)
    else if p[0] == ']' then ClassMatch(false, p[1..])
    else if |p| >= 3 && p[1] == '-' then
      var m := ReadClass(p[3..], c);
      m.(hit := m.hit || InRange(c, p[0], p[2]))
    else
      var m := ReadClass(p[1..], c);
      m.(hit := m.hit || p[0] == c)
  }

  /** Redis's glob matching. */
  predicate Glob(p: string, s: string)
    decreases |p| + |s|
  {
    if p == "" then s == ""
    else if p[0] == '*' then Glob(p[1..], s) || (s != "" && Glob(p, s[1..]))
    else if s == "" then false
    else if p[0] == '?' then Glob(p[1..], s[1..])
    else if p[0] == '[' then
      var negated := |p| > 1 && p[1] == '^';
      var m := ReadClass(if negated then p[2..] else p[1..], s[0]);
      m.hit != negated && Glob(m.rest, s[1..])
    else if p[0] == '\\' && |p| > 1 then s[0] == p[1] && Glob(p[2..], s[1..])
    else s[0] == p[0] && Glob(p[1..], s[1..])
  }

  /** A class of ordinary characters matches one character, any of them. */
  lemma {:induction false} ClassMatchesItsMembers(cs: string, c: char, rest: string)
    requires forall i | 0 <= i < |cs| :: cs[i] != ']' && cs[i] != '\\' && cs[i] != '-' && cs[i] != '^'
    ensures ReadClass(cs + "]" + rest, c) == ClassMatch(c in cs, rest)
    decreases |cs|
  {
    var p := cs + "]" + rest;
    if cs == "" {
      assert p[1..] == rest;
    } else {
      assert p[1..] == cs[1..] + "]" + rest && p[0] == cs[0];
      assert |p| >= 2 && p[1] == if |cs| > 1 then cs[1] else ']';
      ClassMatchesItsMembers(cs[1..], c, rest);
      assert c in cs <==> c == cs[0] || c in cs[1..];
    }
  }

  predicate Plain(c: char) {
    c != '*' && c != '?' && c != '[' && c != '\\'
  }

  predicate PlainPrefix(p: string) {
    forall i | 0 <= i < |p| :: Plain(p[i])
  }

  lemma {:induction false} StarMatchesAll(s: string)
    ensures Glob("*", s)
    decreases |s|
  {
    assert "*"[1..] == "";
    if s != "" { StarMatchesAll(s[1..]); }
  }

  /** For a prefix without metacharacters, `prefix*` matches what begins with the prefix. */
  lemma {:induction false} PrefixGlob(p: string, s: string)
    requires PlainPrefix(p)
    ensures Glob(p + "*", s) <==> p <= s
    decreases |p|
  {
    if p == "" {
      assert p + "*" == "*";
      StarMatchesAll(s);
    } else {
      assert (p + "*")[1..] == p[1..] + "*";
      if s != "" {
        PrefixGlob(p[1..], s[1..]);
        assert p <= s <==> p[0] == s[0] && p[1..] <= s[1..];
      }
    }
  }

  /** SET with an expiry that is not positive is refused. */
  predicate BadTtl(op: Op) {
    op.Set? && op.ttl.Some? && op.ttl.value <= 0.0
  }

  /** What `RedisStore` with prefix `p` does to the shared keyspace. */
  ghost function RedisOp(ks: Cells, p: string, op: Op, now: Time): Outcome {
    if BadTtl(op) then Outcome(ks, Raised) else
      match op
      case Set(key, value, ttl) => Outcome(ks[p + key := Cell(value, ExpiryFrom(ttl, now))], Done)
      case Get(key) => Outcome(ks, Value(Lookup(ks, p + key, now)))
      case Pop(key) => Outcome(ks - {p + key}, Value(Lookup(ks, p + key, now)))
      case Clear => Outcome(map x | x in ks && !Glob(p + "*", x) :: ks[x], Done)
  }

  /** A store of one's own. */
  function OwnOp(m: Cells, op: Op, now: Time): Outcome {
    if BadTtl(op) then Outcome(m, Raised) else EagerOp(m, op, now)
  }

  predicate Separate(p: string, q: string) {
    !(p <= q) && !(q <= p)
  }

  lemma SeparateKeys(p: string, q: string, k: string, l: string)
    requires Separate(p, q)
    ensures p + k != q + l && !(q <= p + k)
  {
    assert q <= q + l;
  }

  /** The keys under one prefix are those of the store's own map. */
  ghost predicate SeesOwn(ks: Cells, p: string, m: Cells, now: Time) {
    forall k :: LiveCell(ks, p + k, now) == LiveCell(m, k, now)
  }

  /** Several stores over one keyspace: a call names its store by prefix. */
  datatype SharedCall = SharedCall(prefix: string, op: Op, at: Time)

  /** `clear` of the store `p` finds every key of its own. */
  ghost predicate ClearsItsOwn(p: string) {
    forall k :: Glob(p + "*", p + k)
  }

  /** `clear` of the store `p` finds no key of the store `q`. */
  ghost predicate Spares(p: string, q: string) {
    forall k :: !Glob(p + "*", q + k)
  }

  /** No prefix begins another, and every scan pattern matches the keys of its own store and of no other. */
  ghost predicate PrefixesOk(ps: set<string>) {
    && (forall p <- ps :: ClearsItsOwn(p))
    && (forall p, q | p in ps && q in ps && p != q :: Separate(p, q) && Spares(p, q))
  }

  ghost predicate CallsOk(ps: set<string>, calls: seq<SharedCall>, from: Time)
    decreases |calls|
  {
    calls != [] ==> calls[0].prefix in ps && from <= calls[0].at && CallsOk(ps, calls[1..], calls[0].at)
  }

  ghost function SharedAnswers(ks: Cells, calls: seq<SharedCall>): seq<Answer>
    decreases |calls|
  {
    if calls == [] then [] else
      var o := RedisOp(ks, calls[0].prefix, calls[0].op, calls[0].at);
      [o.answer] + SharedAnswers(o.cells, calls[1..])
  }

  /** The same calls, each to a map that no other store can reach. */
  ghost function OwnAnswers(maps: map<string, Cells>, calls: seq<SharedCall>, from: Time): seq<Answer>
    requires CallsOk(maps.Keys, calls, from)
    decreases |calls|
  {
    if calls == [] then [] else
      var c := calls[0];
      var o := OwnOp(maps[c.prefix], c.op, c.at);
      assert maps[c.prefix := o.cells].Keys == maps.Keys;
      [o.answer] + OwnAnswers(maps[c.prefix := o.cells], calls[1..], c.at)
  }

  lemma SeesOwnLater(ks: Cells, p: string, m: Cells, now: Time, later: Time)
    requires SeesOwn(ks, p, m, now) && now <= later
    ensures SeesOwn(ks, p, m, later)
  {
    forall k ensures LiveCell(ks, p + k, later) == LiveCell(m, k, later) {
      assert LiveCell(ks, p + k, now) == LiveCell(m, k, now);
    }
  }

  lemma SameKey(p: string, k: string, l: string)
    ensures p + k == p + l <==> k == l
  {
    assert (p + k)[|p|..] == k && (p + l)[|p|..] == l;
  }

  /** A call to one store changes its own view as it would its own map. */
  lemma OwnStep(ks: Cells, p: string, m: Cells, op: Op, now: Time)
    requires SeesOwn(ks, p, m, now) && ClearsItsOwn(p)
    ensures RedisOp(ks, p, op, now).answer == OwnOp(m, op, now).answer
    ensures SeesOwn(RedisOp(ks, p, op, now).cells, p, OwnOp(m, op, now).cells, now)
  {
    if !op.Clear? { assert LiveCell(ks, p + op.key, now) == LiveCell(m, op.key, now); }
    forall k ensures LiveCell(RedisOp(ks, p, op, now).cells, p + k, now) == LiveCell(OwnOp(m, op, now).cells, k, now) {
      assert LiveCell(ks, p + k, now) == LiveCell(m, k, now);
      if !op.Clear? { SameKey(p, k, op.key); }
    }
  }

  /** And nobody else's. */
  lemma OtherStep(ks: Cells, p: string, q: string, m: Cells, op: Op, now: Time)
    requires SeesOwn(ks, q, m, now) && Separate(p, q) && Spares(p, q)
    ensures SeesOwn(RedisOp(ks, p, op, now).cells, q, m, now)
  {
    forall k ensures LiveCell(RedisOp(ks, p, op, now).cells, q + k, now) == LiveCell(m, k, now) {
      assert LiveCell(ks, q + k, now) == LiveCell(m, k, now);
      if !op.Clear? { SeparateKeys(p, q, op.key, k); }
    }
  }

  ghost predicate AllSeeOwn(ks: Cells, maps: map<string, Cells>, now: Time) {
    forall p <- maps :: SeesOwn(ks, p, maps[p], now)
  }

  lemma {:induction false} SharedIsOwnFrom(ks: Cells, maps: map<string, Cells>, calls: seq<SharedCall>, from: Time)
    requires PrefixesOk(maps.Keys) && CallsOk(maps.Keys, calls, from) && AllSeeOwn(ks, maps, from)
    ensures SharedAnswers(ks, calls) == OwnAnswers(maps, calls, from)
    decreases |calls|
  {
    if calls != [] {
      var c := calls[0];
      var ks' := RedisOp(ks, c.prefix, c.op, c.at).cells;
      var maps' := maps[c.prefix := OwnOp(maps[c.prefix], c.op, c.at).cells];
      assert maps'.Keys == maps.Keys;
      forall p <- maps' ensures SeesOwn(ks', p, maps'[p], c.at) {
        SeesOwnLater(ks, p, maps[p], from, c.at);
        if p == c.prefix {
          OwnStep(ks, p, maps[p], c.op, c.at);
        } else {
          OtherStep(ks, c.prefix, p, maps[p], c.op, c.at);
        }
      }
      SeesOwnLater(ks, c.prefix, maps[c.prefix], from, c.at);
      OwnStep(ks, c.prefix, maps[c.prefix], c.op, c.at);
      SharedIsOwnFrom(ks', maps', calls[1..], c.at);
    }
  }

  ghost function NewMaps(ps: set<string>): (maps: map<string, Cells>)
    ensures maps.Keys == ps
  {
    map p | p in ps :: map[]
  }

  /** Under that condition the stores behave, over one keyspace, as if each had its own. */
  lemma PrefixedStoresAreIndependent(ps: set<string>, calls: seq<SharedCall>, start: Time)
    requires PrefixesOk(ps) && CallsOk(ps, calls, start)
    ensures SharedAnswers(map[], calls) == OwnAnswers(NewMaps(ps), calls, start)
  {
    SharedIsOwnFrom(map[], NewMaps(ps), calls, start);
  }

  // -------------------------------------------------------- and only under that condition

  lemma SharedThree(ks: Cells, a: SharedCall, b: SharedCall, c: SharedCall)
    ensures
      var o := RedisOp(ks, a.prefix, a.op, a.at);
      var o' := RedisOp(o.cells, b.prefix, b.op, b.at);
      SharedAnswers(ks, [a, b, c]) == [o.answer, o'.answer, RedisOp(o'.cells, c.prefix, c.op, c.at).answer]
  {
    var o := RedisOp(ks, a.prefix, a.op, a.at);
    var o' := RedisOp(o.cells, b.prefix, b.op, b.at);
    assert [a, b, c][1..] == [b, c] && [b, c][1..] == [c] && [c][1..] == [];
    assert SharedAnswers(o'.cells, [c]) == [RedisOp(o'.cells, c.prefix, c.op, c.at).answer];
  }

  lemma OwnThree(maps: map<string, Cells>, a: SharedCall, b: SharedCall, c: SharedCall, from: Time)
    requires a.prefix in maps && b.prefix in maps && c.prefix in maps && from <= a.at <= b.at <= c.at
    ensures CallsOk(maps.Keys, [a, b, c], from)
    ensures
      var o := OwnOp(maps[a.prefix], a.op, a.at);
      var maps1 := maps[a.prefix := o.cells];
      var o' := OwnOp(maps1[b.prefix], b.op, b.at);
      var maps2 := maps1[b.prefix := o'.cells];
      OwnAnswers(maps, [a, b, c], from) == [o.answer, o'.answer, OwnOp(maps2[c.prefix], c.op, c.at).answer]
  {
    var maps1 := maps[a.prefix := OwnOp(maps[a.prefix], a.op, a.at).cells];
    var maps2 := maps1[b.prefix := OwnOp(maps1[b.prefix], b.op, b.at).cells];
    assert maps1.Keys == maps.Keys && maps2.Keys == maps.Keys;
    assert [a, b, c][1..] == [b, c] && [b, c][1..] == [c] && [c][1..] == [];
    assert CallsOk(maps.Keys, [c], b.at) && CallsOk(maps.Keys, [b, c], a.at);
    assert OwnAnswers(maps2, [c], b.at) == [OwnOp(maps2[c.prefix], c.op, c.at).answer];
  }

  /** These calls are answered otherwise than by stores of their own. */
  ghost predicate Interferes(ps: set<string>, calls: seq<SharedCall>) {
    CallsOk(ps, calls, 0.0) && SharedAnswers(map[], calls) != OwnAnswers(NewMaps(ps), calls, 0.0)
  }

  /** If one prefix begins another, what is written through the longer is read through the shorter. */
  lemma OverlappingPrefixesInterfere(ps: set<string>, p: string, q: string) returns (calls: seq<SharedCall>)
    requires p in ps && q in ps && p != q && p <= q
    ensures Interferes(ps, calls)
  {
    var get := SharedCall(p, Get(q[|p|..]), 0.0);
    var put := SharedCall(q, Set("", "v", None), 0.0);
    calls := [get, put, get];
    assert p + q[|p|..] == q + "";
    SharedThree(map[], get, put, get);
    OwnThree(NewMaps(ps), get, put, get, 0.0);
  }

  /** If the scan pattern of one store matches a key of another, clearing the one loses the other's value. */
  lemma StrayPatternLosesValue(ps: set<string>, p: string, q: string, k: string) returns (calls: seq<SharedCall>)
    requires p in ps && q in ps && p != q && Glob(p + "*", q + k)
    ensures Interferes(ps, calls)
  {
    var put, clear, get := SharedCall(q, Set(k, "v", None), 0.0), SharedCall(p, Clear, 0.0), SharedCall(q, Get(k), 0.0);
    calls := [put, clear, get];
    SharedThree(map[], put, clear, get);
    OwnThree(NewMaps(ps), put, clear, get, 0.0);
  }

  /** If the scan pattern of a store misses a key of its own, the value survives being cleared. */
  lemma BlindPatternKeepsValue(ps: set<string>, p: string, k: string) returns (calls: seq<SharedCall>)
    requires p in ps && !Glob(p + "*", p + k)
    ensures Interferes(ps, calls)
  {
    var put, clear, get := SharedCall(p, Set(k, "v", None), 0.0), SharedCall(p, Clear, 0.0), SharedCall(p, Get(k), 0.0);
    calls := [put, clear, get];
    SharedThree(map[], put, clear, get);
    OwnThree(NewMaps(ps), put, clear, get, 0.0);
  }

  /** So the condition is exact: without it some calls are answered otherwise. */
  lemma DependentOtherwise(ps: set<string>) returns (calls: seq<SharedCall>)
    requires !PrefixesOk(ps)
    ensures Interferes(ps, calls)
  {
    if p :| p in ps && !ClearsItsOwn(p) {
      var k :| !Glob(p + "*", p + k);
      calls := BlindPatternKeepsValue(ps, p, k);
    } else {
      var p, q :| p in ps && q in ps && p != q && !(Separate(p, q) && Spares(p, q));
      if p <= q {
        calls := OverlappingPrefixesInterfere(ps, p, q);
      } else if q <= p {
        calls := OverlappingPrefixesInterfere(ps, q, p);
      } else {
        var k :| Glob(p + "*", q + k);
        calls := StrayPatternLosesValue(ps, p, q, k);
      }
    }
  }

  /**
    Separate prefixes are not enough: a '?' in one reaches into the other, and a
    '\\' at the end hides the store's own keys.
   */
  lemma MetacharactersInterfere()
    ensures Separate("a?", "ab") && !Spares("a?", "ab") && !ClearsItsOwn("a\\")
  {
    assert "a?*"[1..] == "?*" && "?*"[1..] == "*" && "ab"[1..] == "b" && "b"[1..] == "" && "*"[1..] == "";
    assert "a?" + "*" == "a?*" && "ab" + "" == "ab";
    assert Glob("a?" + "*", "ab" + "");
    var p, s := "a\\" + "*", "a\\" + "";
    assert p[1..] == "\\*" && s[1..] == "\\" && p[1..][0] == '\\' && p[1..][1] == '*' && s[1..][0] == '\\';
    assert !Glob("a\\" + "*", "a\\" + "");
  }

  /** Without metacharacters they are. */
  lemma PlainPrefixesOk(ps: set<string>)
    requires forall p <- ps :: PlainPrefix(p)
    requires forall p, q | p in ps && q in ps && p != q :: Separate(p, q)
    ensures PrefixesOk(ps)
  {
    forall p, k | p in ps ensures Glob(p + "*", p + k) { PrefixGlob(p, p + k); }
    forall p, q, k | p in ps && q in ps && p != q ensures !Glob(p + "*", q + k) {
      SeparateKeys(q, p, k, "");
      PrefixGlob(p, q + k);
    }
  }

  /** The four stores the application builds. */
  lemma ApplicationStoresAreSeparate()
    ensures PrefixesOk({"state:", "client:", "token:", "slack:token:"})
  {
    assert "state:"[0] == 's' && "client:"[0] == 'c' && "token:"[0] == 't' && "slack:token:"[0] == 's';
    assert "state:"[1] == 't' && "slack:token:"[1] == 'l';
    PlainPrefixesOk({"state:", "client:", "token:", "slack:token:"});
  }

  /** The connection the stores share. */
  class Redis {
    var cells: Cells
  }

  class RedisStore {
    const redis: Redis
    const prefix: string

    constructor (redis: Redis, prefix: string)
      ensures this.redis == redis && this.prefix == prefix
    {
      this.redis, this.prefix := redis, prefix;
    }

    /** False when Redis refuses the expiry. */
    method Set(key: string, value: string, ttl: Option<Time>, now: Time) returns (ok: bool)
      modifies redis
      ensures ok <==> ttl.None? || ttl.value > 0.0
      ensures Outcome(redis.cells, if ok then Done else Raised) ==
              RedisOp(old(redis.cells), prefix, Op.Set(key, value, ttl), now)
    {
      if ttl.Some? && ttl.value <= 0.0 { return false; }
      redis.cells := redis.cells[prefix + key := Cell(value, ExpiryFrom(ttl, now))];
      ok := true;
    }

    method Get(key: string, now: Time) returns (r: Option<string>)
      ensures Outcome(redis.cells, Value(r)) == RedisOp(redis.cells, prefix, Op.Get(key), now)
    {
      r := Lookup(redis.cells, prefix + key, now);
    }

    /** GETDEL. */
    method Pop(key: string, now: Time) returns (r: Option<string>)
      modifies redis
      ensures Outcome(redis.cells, Value(r)) == RedisOp(old(redis.cells), prefix, Op.Pop(key), now)
    {
      r := Lookup(redis.cells, prefix + key, now);
      redis.cells := redis.cells - {prefix + key};
    }

    /**
      A scan for `prefix*`, then one DEL of what it found; `meanwhile` is what
      others have made of the keyspace when the DEL arrives.  What the scan saw is
      gone, what it did not see stays, and so do the keys of every other store.
     */
    method Clear(meanwhile: Cells)
      modifies redis
      ensures forall k :: k in redis.cells <==> k in meanwhile && !(k in old(redis.cells) && Glob(prefix + "*", k))
      ensures forall k <- redis.cells :: redis.cells[k] == meanwhile[k]
      ensures meanwhile == old(redis.cells) ==>
                forall now :: redis.cells == RedisOp(old(redis.cells), prefix, Op.Clear, now).cells
      ensures PlainPrefix(prefix) ==> forall k <- old(redis.cells) | prefix <= k :: k !in redis.cells
      ensures PlainPrefix(prefix) ==> forall p, k | Separate(p, prefix) && p + k in meanwhile :: p + k in redis.cells
    {
      var todo := redis.cells.Keys;
      var keys: set<string> := {};
      while todo != {}
        invariant redis.cells == old(redis.cells) && keys <= redis.cells.Keys
        invariant forall k <- redis.cells :: k in keys <==> k !in todo && Glob(prefix + "*", k)
        decreases todo
      {
        var k :| k in todo;
        todo := todo - {k};
        if Glob(prefix + "*", k) { keys := keys + {k}; }
      }
      redis.cells := meanwhile;
      if keys != {} {
        redis.cells := redis.cells - keys;
      }
      if PlainPrefix(prefix) {
        forall k ensures Glob(prefix + "*", k) <==> prefix <= k { PrefixGlob(prefix, k); }
        forall p, k | Separate(p, prefix) && p + k in meanwhile ensures p + k in redis.cells {
          SeparateKeys(p, prefix, k, "");
        }
      }
    }
  }
}
