/** The fixed-window rate limiter: the Lua script as one atomic step, and what it does over whole request traces. */
module RateLimiter {
  import opened Wrappers
  import opened Expiry
  import opened Counting

  /** Redis counts in milliseconds. */
  type Millis = int

  datatype Counter = Counter(n: nat, expiry: Option<Millis>)

  predicate LiveAt(c: Counter, now: Millis) {
    Live(if c.expiry.Some? then Some(c.expiry.value as real) else None, now as real)
  }

  datatype Outcome = Outcome(counter: Option<Counter>, allowed: bool, ttl: Millis)

  /** The script on one key: INCR, PEXPIRE for a fresh counter, PTTL, and the comparison with the limit. */
  function Script(c: Option<Counter>, limit: int, window: int, now: Millis): Outcome {
    var current := if c.Some? && LiveAt(c.value, now) then c.value else Counter(0, None);
    var n := current.n + 1;
    var stored :=
      if n != 1 then Some(Counter(n, current.expiry))
      else if window * 1000 <= 0 then None               // a deadline not in the future deletes the key
      else Some(Counter(1, Some(now + window * 1000)));
    var ttl := if stored.None? then -2 else if stored.value.expiry.None? then -1 else stored.value.expiry.value - now;
    Outcome(stored, n <= limit, ttl)
  }

  /** The time left in whole seconds, rounded up; nothing for a key that is gone or never expires. */
  function RetryAfter(ttl: Millis): nat {
    if ttl > 0 then (ttl + 999) / 1000 else 0
  }

  datatype RateLimitResult = RateLimitResult(allowed: bool, retryAfter: nat)

  function Get(counters: map<string, Counter>, key: string): Option<Counter> {
    if key in counters then Some(counters[key]) else None
  }

  class Limiter {
    var counters: map<string, Counter>

    ghost predicate Valid()
      reads this
    {
      forall k <- counters :: counters[k].expiry.Some? && counters[k].n >= 1
    }

    constructor ()
      ensures Valid() && counters == map[]
    {
      counters := map[];
    }

    /** `check_rate_limit`. */
    method CheckRateLimit(key: string, limit: int, window: int, now: Millis) returns (r: RateLimitResult)
      requires Valid()
      modifies this
      ensures Valid()
      ensures var o := Script(old(Get(counters, key)), limit, window, now);
              r == RateLimitResult(o.allowed, RetryAfter(o.ttl)) && Get(counters, key) == o.counter
      ensures forall k | k != key :: Get(counters, k) == old(Get(counters, k))
    {
      var n := 1;
      var expiry: Option<Millis> := None;
      if key in counters && LiveAt(counters[key], now) {
        n := counters[key].n + 1;
        expiry := counters[key].expiry;
      }
      counters := counters[key := Counter(n, expiry)];
      if n == 1 {
        if window * 1000 > 0 {
          counters := counters[key := Counter(n, Some(now + window * 1000))];
        } else {
          counters := counters - {key};
        }
      }
      var ttl := if key !in counters then -2
                 else if counters[key].expiry.None? then -1
                 else counters[key].expiry.value - now;
      r := RateLimitResult(n <= limit, RetryAfter(ttl));
    }
  }

  // ------------------------------------------------------------- request traces

  /** The arrival times of the requests on one key. */
  ghost predicate Trace(ts: seq<Millis>) {
    forall i, j | 0 <= i < j < |ts| :: ts[i] <= ts[j]
  }

  /** The counter after the requests of `ts`, starting with no key. */
  function After(ts: seq<Millis>, limit: int, window: int): Option<Counter>
    decreases |ts|
  {
    if ts == [] then None else Script(After(ts[..|ts| - 1], limit, window), limit, window, ts[|ts| - 1]).counter
  }

  /** What the `i`th request is told. */
  function Reply(ts: seq<Millis>, limit: int, window: int, i: nat): Outcome
    requires i < |ts|
  {
    Script(After(ts[..i], limit, window), limit, window, ts[i])
  }

  /**
    The windows as a function of the arrival times alone: a request later than
    the current window's end opens the next.  This is the first request of the
    window that request `i` falls in.
   */
  function Opener(ts: seq<Millis>, window: int, i: nat): (o: nat)
    requires i < |ts|
    ensures o <= i
  {
    if i == 0 then 0 else
      var o := Opener(ts, window, i - 1);
      if ts[i] > ts[o] + window * 1000 then i else o
  }

  /** The counter after the first `i` requests: how many of them fell in the current window, and its end. */
  lemma {:induction false} CounterFollowsWindow(ts: seq<Millis>, limit: int, window: int, i: nat)
    requires Trace(ts) && window >= 1 && 1 <= i <= |ts|
    ensures
      var o := Opener(ts, window, i - 1);
      After(ts[..i], limit, window) == Some(Counter(i - o, Some(ts[o] + window * 1000)))
  {
    var now := ts[i - 1];
    assert ts[..i][..i - 1] == ts[..i - 1] && ts[..i][i - 1] == now;
    if i == 1 {
      assert ts[..0] == [];
      ScriptAfresh(None, limit, window, now);
    } else {
      CounterFollowsWindow(ts, limit, window, i - 1);
      var p := Opener(ts, window, i - 2);
      ScriptInTurn(Counter(i - 1 - p, Some(ts[p] + window * 1000)), limit, window, now);
    }
  }

  /**
    Each window admits exactly its first `limit` requests, and the time left it
    reports is that of a window fixed by its first request: neither admitted nor
    denied requests move its end.
   */
  lemma WindowAdmitsItsFirst(ts: seq<Millis>, limit: int, window: int, i: nat)
    requires Trace(ts) && window >= 1 && i < |ts|
    ensures
      var o := Opener(ts, window, i);
      var r := Reply(ts, limit, window, i);
      && (r.allowed <==> i - o < limit)
      && r.ttl == ts[o] + window * 1000 - ts[i] && 0 <= r.ttl <= window * 1000
      && r.counter == Some(Counter(i - o + 1, Some(ts[o] + window * 1000)))
  {
    OpenerInTime(ts, window, i);
    ReplyInWindow(ts, limit, window, i);
  }

  lemma ReplyInWindow(ts: seq<Millis>, limit: int, window: int, i: nat)
    requires Trace(ts) && window >= 1 && i < |ts|
    ensures
      var o := Opener(ts, window, i);
      var end := ts[o] + window * 1000;
      Reply(ts, limit, window, i) == Outcome(Some(Counter(i - o + 1, Some(end))), i - o < limit, end - ts[i])
  {
    if i == 0 {
      assert ts[..0] == [];
      ScriptAfresh(None, limit, window, ts[0]);
    } else {
      CounterFollowsWindow(ts, limit, window, i);
      var p := Opener(ts, window, i - 1);
      ScriptInTurn(Counter(i - p, Some(ts[p] + window * 1000)), limit, window, ts[i]);
    }
  }

  lemma ScriptInTurn(c: Counter, limit: int, window: int, now: Millis)
    requires window >= 1 && c.n >= 1 && c.expiry.Some?
    ensures Script(Some(c), limit, window, now) ==
              if now > c.expiry.value
              then Outcome(Some(Counter(1, Some(now + window * 1000))), 1 <= limit, window * 1000)
              else Outcome(Some(Counter(c.n + 1, c.expiry)), c.n + 1 <= limit, c.expiry.value - now)
  {
    if now > c.expiry.value {
      ScriptAfresh(Some(c), limit, window, now);
    } else {
      ScriptWithin(c, limit, window, now);
    }
  }

  /** A request within the window only counts. */
  lemma ScriptWithin(c: Counter, limit: int, window: int, now: Millis)
    requires c.n >= 1 && c.expiry.Some? && now <= c.expiry.value
    ensures Script(Some(c), limit, window, now)
         == Outcome(Some(Counter(c.n + 1, c.expiry)), c.n + 1 <= limit, c.expiry.value - now)
  {
  }

  /** A request with no live counter opens a window. */
  lemma ScriptAfresh(c: Option<Counter>, limit: int, window: int, now: Millis)
    requires window >= 1 && (c.Some? ==> c.value.expiry.Some? && c.value.expiry.value < now)
    ensures Script(c, limit, window, now)
         == Outcome(Some(Counter(1, Some(now + window * 1000))), 1 <= limit, window * 1000)
  {
  }

  lemma {:induction false} OpenerInTime(ts: seq<Millis>, window: int, i: nat)
    requires Trace(ts) && window >= 0 && i < |ts|
    ensures ts[Opener(ts, window, i)] <= ts[i] <= ts[Opener(ts, window, i)] + window * 1000
  {
    if i > 0 { OpenerInTime(ts, window, i - 1); }
  }

  /** With no window to speak of nothing is counted: each request is the first of its own. */
  lemma {:induction false} NoWindowCountsNothing(ts: seq<Millis>, limit: int, window: int, i: nat)
    requires window <= 0 && i < |ts|
    ensures After(ts[..i], limit, window) == None
    ensures
      var r := Reply(ts, limit, window, i);
      r.counter == None && (r.allowed <==> limit >= 1) && RetryAfter(r.ttl) == 0
  {
    if i > 0 {
      NoWindowCountsNothing(ts, limit, window, i - 1);
      assert ts[..i][..i - 1] == ts[..i - 1] && ts[..i][i - 1] == ts[i - 1];
    } else {
      assert ts[..0] == [];
    }
  }

  // ------------------------------------------------------- any interval of a window

  lemma {:induction false} OpenerGrows(ts: seq<Millis>, window: int, i: nat, j: nat)
    requires i <= j < |ts|
    ensures Opener(ts, window, i) <= Opener(ts, window, j)
  {
    if i < j { OpenerGrows(ts, window, i, j - 1); }
  }

  lemma {:induction false} OpenerOpensItself(ts: seq<Millis>, window: int, i: nat)
    requires Trace(ts) && window >= 0 && i < |ts|
    ensures Opener(ts, window, Opener(ts, window, i)) == Opener(ts, window, i)
  {
    if i > 0 { OpenerOpensItself(ts, window, i - 1); }
  }

  /** A later window starts more than a window's length after the earlier one started. */
  lemma WindowsApart(ts: seq<Millis>, window: int, i: nat, j: nat)
    requires Trace(ts) && window >= 1 && i < |ts| && j < |ts|
    requires Opener(ts, window, i) < Opener(ts, window, j)
    ensures i < Opener(ts, window, j)
    ensures ts[Opener(ts, window, i)] + window * 1000 < ts[Opener(ts, window, j)]
  {
    var o := Opener(ts, window, j);
    OpenerOpensItself(ts, window, j);
    if i >= o { OpenerGrows(ts, window, o, i); }
    OpenerGrows(ts, window, i, o - 1);
    var p := Opener(ts, window, o - 1);
    assert ts[o] > ts[p] + window * 1000;
    assert ts[Opener(ts, window, i)] <= ts[p];
  }

  /** The admitted requests that arrive from `from` to `to`, both included. */
  ghost function Admitted(ts: seq<Millis>, limit: int, window: int, from: Millis, to: Millis): set<nat> {
    set i: nat | i < |ts| && from <= ts[i] <= to && Reply(ts, limit, window, i).allowed
  }

  /** An interval no longer than a window meets at most two windows. */
  lemma NoThreeWindows(ts: seq<Millis>, window: int, from: Millis, i: nat, j: nat, k: nat)
    requires Trace(ts) && window >= 1 && i < |ts| && j < |ts| && k < |ts|
    requires from <= ts[i] && ts[k] <= from + window * 1000
    ensures !(Opener(ts, window, i) < Opener(ts, window, j) < Opener(ts, window, k))
  {
    if Opener(ts, window, i) < Opener(ts, window, j) < Opener(ts, window, k) {
      WindowsApart(ts, window, i, j);
      WindowsApart(ts, window, j, k);
    }
  }

  /** Admitted requests of one window, among those after its first, fill at most `limit - 1` places. */
  lemma AdmittedPlace(ts: seq<Millis>, limit: int, window: int, from: Millis, to: Millis, i: nat)
    requires Trace(ts) && window >= 1 && i in Admitted(ts, limit, window, from, to)
    ensures Opener(ts, window, i) <= i < Opener(ts, window, i) + limit
  {
    WindowAdmitsItsFirst(ts, limit, window, i);
  }

  /** Two requests of the interval in different windows: the first request of the earlier window is outside it. */
  lemma EarlierOpenerOutside(ts: seq<Millis>, window: int, from: Millis, i: nat, j: nat)
    requires Trace(ts) && window >= 1 && i < |ts| && j < |ts|
    requires from <= ts[i] && ts[j] <= from + window * 1000
    requires Opener(ts, window, i) < Opener(ts, window, j)
    ensures Opener(ts, window, i) < i
  {
    WindowsApart(ts, window, i, j);
    OpenerInTime(ts, window, j);
  }

  /** The requests of the interval fall in the windows of `a` and `b`; `a`'s comes first. */
  lemma TwoWindowsBound(ts: seq<Millis>, limit: int, window: int, from: Millis, a: nat, b: nat)
    requires Trace(ts) && window >= 1
    requires
      var s := Admitted(ts, limit, window, from, from + window * 1000);
      a in s && b in s && Opener(ts, window, a) < Opener(ts, window, b)
    ensures |Admitted(ts, limit, window, from, from + window * 1000)| <= 2 * limit - 1
  {
    var s := Admitted(ts, limit, window, from, from + window * 1000);
    var oa, ob := Opener(ts, window, a), Opener(ts, window, b);
    var cover := Between(oa + 1, oa + limit) + Between(ob, ob + limit);
    AdmittedPlace(ts, limit, window, from, from + window * 1000, a);
    forall i <- s ensures i in cover {
      AdmittedPlace(ts, limit, window, from, from + window * 1000, i);
      NoThreeWindows(ts, window, from, a, b, i);
      NoThreeWindows(ts, window, from, a, i, b);
      NoThreeWindows(ts, window, from, i, a, b);
      if Opener(ts, window, i) == oa { EarlierOpenerOutside(ts, window, from, i, b); }
    }
    SubsetSize(s, cover);
    assert |Between(oa + 1, oa + limit) + Between(ob, ob + limit)|
        <= |Between(oa + 1, oa + limit)| + |Between(ob, ob + limit)|;
  }

  /**
    Any interval of one window's length, both ends included, admits at most
    2 * limit - 1 requests (and none when the limit is not positive).
   */
  lemma IntervalAdmitsAtMost(ts: seq<Millis>, limit: int, window: int, from: Millis)
    requires Trace(ts) && window >= 1
    ensures |Admitted(ts, limit, window, from, from + window * 1000)| <= if limit >= 1 then 2 * limit - 1 else 0
  {
    var s := Admitted(ts, limit, window, from, from + window * 1000);
    if s != {} {
      var a :| a in s;
      AdmittedPlace(ts, limit, window, from, from + window * 1000, a);
      if b :| b in s && Opener(ts, window, b) != Opener(ts, window, a) {
        if Opener(ts, window, a) < Opener(ts, window, b) {
          TwoWindowsBound(ts, limit, window, from, a, b);
        } else {
          TwoWindowsBound(ts, limit, window, from, b, a);
        }
      } else {
        var o := Opener(ts, window, a);
        forall i <- s ensures i in Between(o, o + limit) {
          AdmittedPlace(ts, limit, window, from, from + window * 1000, i);
        }
        SubsetSize(s, Between(o, o + limit));
      }
    }
  }

  // --------------------------------------------------- and the bound is reached

  /** One request to open a window, the rest of its quota at its last instant, a full quota just after. */
  function Burst(limit: nat, window: int): seq<Millis> {
    seq(2 * limit, i => if i == 0 then 0 else if i < limit then window * 1000 else window * 1000 + 1)
  }

  lemma {:induction false} BurstOpeners(limit: nat, window: int, i: nat)
    requires limit >= 1 && window >= 1 && i < 2 * limit
    ensures Opener(Burst(limit, window), window, i) == if i < limit then 0 else limit
  {
    if i > 0 { BurstOpeners(limit, window, i - 1); }
  }

  lemma BurstAdmits(limit: nat, window: int, i: nat)
    requires limit >= 1 && window >= 1 && i < 2 * limit
    ensures Trace(Burst(limit, window)) && Reply(Burst(limit, window), limit, window, i).allowed
    ensures 1 <= Burst(limit, window)[i] <= window * 1000 + 1 <==> i >= 1
  {
    assert Trace(Burst(limit, window));
    BurstOpeners(limit, window, i);
    WindowAdmitsItsFirst(Burst(limit, window), limit, window, i);
  }

  lemma BoundIsReached(limit: nat, window: int)
    requires limit >= 1 && window >= 1
    ensures Trace(Burst(limit, window))
    ensures |Admitted(Burst(limit, window), limit, window, 1, window * 1000 + 1)| == 2 * limit - 1
  {
    forall i: nat | i < 2 * limit
      ensures Reply(Burst(limit, window), limit, window, i).allowed
      ensures 1 <= Burst(limit, window)[i] <= window * 1000 + 1 <==> i >= 1
    {
      BurstAdmits(limit, window, i);
    }
    BurstAdmits(limit, window, 0);
    assert Admitted(Burst(limit, window), limit, window, 1, window * 1000 + 1) == Between(1, 2 * limit);
  }

  // ---------------------------------------------------------------- Retry-After

  /** The advertised wait covers the time left, by less than a second, and never exceeds the window. */
  lemma RetryAfterIsTight(ts: seq<Millis>, limit: int, window: int, i: nat)
    requires Trace(ts) && window >= 1 && i < |ts|
    ensures
      var r := Reply(ts, limit, window, i);
      var wait := RetryAfter(r.ttl) * 1000;
      r.ttl <= wait < r.ttl + 1000 && RetryAfter(r.ttl) <= window
  {
    WindowAdmitsItsFirst(ts, limit, window, i);
  }

  /** Requests from `i` to `j` within the window of `i` leave it open. */
  lemma {:induction false} WindowStaysOpen(ts: seq<Millis>, window: int, i: nat, j: nat)
    requires Trace(ts) && window >= 1 && i <= j < |ts| && ts[j] <= ts[Opener(ts, window, i)] + window * 1000
    ensures Opener(ts, window, j) == Opener(ts, window, i)
  {
    if i < j { WindowStaysOpen(ts, window, i, j - 1); }
  }

  /** The first request past the end of a window is admitted, if anything ever is. */
  lemma FirstAfterWindowIsAdmitted(ts: seq<Millis>, limit: int, window: int, i: nat, j: nat)
    requires Trace(ts) && window >= 1 && limit >= 1 && i < j < |ts|
    requires ts[j] > ts[i] + Reply(ts, limit, window, i).ttl
    requires ts[j - 1] <= ts[i] + Reply(ts, limit, window, i).ttl
    ensures Reply(ts, limit, window, j).allowed && Opener(ts, window, j) == j
  {
    FirstPastOpens(ts, limit, window, i, j);
    WindowAdmitsItsFirst(ts, limit, window, j);
  }

  lemma FirstPastOpens(ts: seq<Millis>, limit: int, window: int, i: nat, j: nat)
    requires Trace(ts) && window >= 1 && i < j < |ts|
    requires ts[j - 1] <= ts[i] + Reply(ts, limit, window, i).ttl < ts[j]
    ensures Opener(ts, window, j) == j
  {
    WindowAdmitsItsFirst(ts, limit, window, i);
    WindowStaysOpen(ts, window, i, j - 1);
  }

  /** The first request from `k` on that arrives later than `end`; the number of requests if there is none. */
  function FirstPast(ts: seq<Millis>, end: Millis, k: nat): (f: nat)
    requires k <= |ts|
    ensures k <= f <= |ts| && (forall i | k <= i < f :: ts[i] <= end) && (f < |ts| ==> ts[f] > end)
    decreases |ts| - k
  {
    if k == |ts| || ts[k] > end then k else FirstPast(ts, end, k + 1)
  }

  /**
    A denied client that returns after exactly the advertised wait is admitted if
    and only if the time left was not a whole number of seconds (otherwise it is
    back at the very instant of expiry, when the counter is still alive) and
    fewer than `limit` requests of the key came past the end before it.
   */
  lemma ReturnAfterExactWait(ts: seq<Millis>, limit: int, window: int, i: nat, j: nat)
    requires Trace(ts) && window >= 1 && i < j < |ts|
    requires !Reply(ts, limit, window, i).allowed
    requires ts[j] == ts[i] + RetryAfter(Reply(ts, limit, window, i).ttl) * 1000
    ensures
      var ttl := Reply(ts, limit, window, i).ttl;
      Reply(ts, limit, window, j).allowed <==> ttl % 1000 != 0 && j - FirstPast(ts, ts[i] + ttl, i) < limit
  {
    var ttl := Reply(ts, limit, window, i).ttl;
    WindowAdmitsItsFirst(ts, limit, window, i);
    RoundedUp(ttl);
    if ttl % 1000 == 0 {
      BackInWindow(ts, limit, window, i, j);
    } else {
      BackPastWindow(ts, limit, window, i, j);
    }
  }

  lemma RoundedUp(ttl: Millis)
    requires ttl >= 0
    ensures ttl <= RetryAfter(ttl) * 1000 < ttl + 1000 && (RetryAfter(ttl) * 1000 == ttl <==> ttl % 1000 == 0)
  {
  }

  /** Once a request has been denied, so is every later one of its window. */
  lemma BackInWindow(ts: seq<Millis>, limit: int, window: int, i: nat, j: nat)
    requires Trace(ts) && window >= 1 && i < j < |ts| && !Reply(ts, limit, window, i).allowed
    requires ts[j] <= ts[i] + Reply(ts, limit, window, i).ttl
    ensures !Reply(ts, limit, window, j).allowed
  {
    WindowAdmitsItsFirst(ts, limit, window, i);
    WindowStaysOpen(ts, window, i, j);
    WindowAdmitsItsFirst(ts, limit, window, j);
  }

  /** Within a window's length past the end, the first `limit` requests are admitted. */
  lemma BackPastWindow(ts: seq<Millis>, limit: int, window: int, i: nat, j: nat)
    requires Trace(ts) && window >= 1 && i < j < |ts|
    requires
      var end := ts[i] + Reply(ts, limit, window, i).ttl;
      end < ts[j] <= end + window * 1000
    ensures Reply(ts, limit, window, j).allowed <==>
            j - FirstPast(ts, ts[i] + Reply(ts, limit, window, i).ttl, i) < limit
  {
    var end := ts[i] + Reply(ts, limit, window, i).ttl;
    var f := FirstPast(ts, end, i);
    assert ts[i] <= end by { WindowAdmitsItsFirst(ts, limit, window, i); }
    FirstPastOpens(ts, limit, window, i, f);
    WindowStaysOpen(ts, window, f, j);
    WindowAdmitsItsFirst(ts, limit, window, j);
  }

  /** A client told to come back in a second can find the next window used up. */
  lemma ReturnCanBeDenied()
    ensures
      var ts := [0, 500, 1001, 1500];
      && Trace(ts) && !Reply(ts, 1, 1, 1).allowed && Reply(ts, 1, 1, 1).ttl == 500
      && ts[3] == ts[1] + RetryAfter(500) * 1000 && !Reply(ts, 1, 1, 3).allowed
  {
    var ts := [0, 500, 1001, 1500];
    assert Opener(ts, 1, 1) == 0 && Opener(ts, 1, 2) == 2 && Opener(ts, 1, 3) == 2;
    WindowAdmitsItsFirst(ts, 1, 1, 1);
    WindowAdmitsItsFirst(ts, 1, 1, 3);
  }
}
