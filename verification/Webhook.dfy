/**
  The Slack webhook: a freshness window, a dedup key set if absent, and an
  append, with any number of handlers in flight and retries of the sender.
 */
module Webhook {
  import opened Wrappers
  import opened Expiry

  const MAX_AGE_SECONDS: Time := 300.0
  const DEDUP_TTL_SECONDS: Time := 3600.0

  /** The headers are "" when missing. */
  datatype Request = Request(timestamp: string, signature: string, raw: string)

  datatype Body = NotJson | NotObject | UrlVerification(challenge: string) | Event(id: string, kind: string)

  /**
    What lies outside: the configured secret, `float`, the HMAC comparison and
    the JSON reader.  `parseTime` is None where `float` raises and for the
    values, infinite or not a number, that are never within any distance.
   */
  datatype Env = Env(
    secret: string,
    parseTime: string -> Option<Time>,
    signed: Request -> bool,
    parseBody: string -> Body)

  function Distance(a: Time, b: Time): Time {
    if a >= b then a - b else b - a
  }

  /** `is_timestamp_fresh`. */
  predicate Fresh(env: Env, timestamp: string, now: Time) {
    env.parseTime(timestamp).Some? && Distance(now, env.parseTime(timestamp).value) <= MAX_AGE_SECONDS
  }

  datatype Response =
    | NotConfigured | MissingHeaders | Stale | BadSignature | BadBody
    | Challenge(challenge: string) | Duplicate | Ok

  /** Everything before Redis: the answer if there is one already, else the event to store. */
  datatype Verdict = Answer(response: Response) | Store(id: string, kind: string)

  function Check(env: Env, r: Request, now: Time): Verdict {
    if env.secret == "" then Answer(NotConfigured)
    else if r.timestamp == "" || r.signature == "" then Answer(MissingHeaders)
    else if !Fresh(env, r.timestamp, now) then Answer(Stale)
    else if !env.signed(r) then Answer(BadSignature)
    else match env.parseBody(r.raw)
      case NotJson => Answer(BadBody)
      case NotObject => Answer(BadBody)
      case UrlVerification(c) => Answer(Challenge(c))
      case Event(id, kind) => Store(id, kind)
  }

  // ---------------------------------------------------------------------- state

  /** A successful SET NX, or the passage of an event without id, which has no dedup key. */
  datatype Claim = Claim(request: Request, id: string, checkedAt: Time, at: Time)

  datatype Handler =
    | Checked(request: Request, id: string, at: Time)   // before SET NX
    | Claimed(claim: nat, at: Time)                     // before XADD; names an entry of the claims made so far

  /** An entry of events:slack. */
  datatype Posted = Posted(claim: nat, at: Time)

  datatype State = State(
    now: Time, dedup: map<string, Cell<bool>>, handlers: map<nat, Handler>,
    claims: seq<Claim>, posted: seq<Posted>)

  datatype Step =
    | Tick(elapsed: Time)
    | Arrive(h: nat, request: Request)
    | Dedup(h: nat)
    | Append(h: nat)
    | Drop(h: nat)

  /** How long a handler may take between its freshness check and SET NX, and from there to XADD. */
  datatype Delays = Delays(toDedup: Time, toAppend: Time)

  predicate Enabled(env: Env, d: Delays, s: State, step: Step) {
    match step
    case Tick(dt) => dt >= 0.0
    case Arrive(h, r) => h !in s.handlers && Check(env, r, s.now).Store?
    case Dedup(h) => h in s.handlers && s.handlers[h].Checked? && s.now <= s.handlers[h].at + d.toDedup
    case Append(h) => h in s.handlers && s.handlers[h].Claimed? && s.now <= s.handlers[h].at + d.toAppend
    case Drop(h) => h in s.handlers
  }

  function Apply(env: Env, d: Delays, s: State, step: Step): State
    requires Enabled(env, d, s, step)
  {
    match step
    case Tick(dt) => s.(now := s.now + dt)
    case Arrive(h, r) => s.(handlers := s.handlers[h := Checked(r, Check(env, r, s.now).id, s.now)])
    case Dedup(h) => SetIfAbsent(s, h)
    case Append(h) =>
      s.(handlers := s.handlers - {h}, posted := s.posted + [Posted(s.handlers[h].claim, s.now)])
    case Drop(h) => s.(handlers := s.handlers - {h})
  }

  /** SET key 1 NX EX 3600, skipped for an event without id. */
  function SetIfAbsent(s: State, h: nat): State
    requires h in s.handlers && s.handlers[h].Checked?
  {
    var c := s.handlers[h];
    if c.id != "" && Lookup(s.dedup, c.id, s.now).Some? then s.(handlers := s.handlers - {h})
    else
      s.(dedup := if c.id == "" then s.dedup else s.dedup[c.id := Cell(true, Some(s.now + DEDUP_TTL_SECONDS))],
         handlers := s.handlers[h := Claimed(|s.claims|, s.now)],
         claims := s.claims + [Claim(c.request, c.id, c.at, s.now)])
  }

  predicate CanRun(env: Env, d: Delays, s: State, steps: seq<Step>)
    decreases |steps|
  {
    steps == [] || (Enabled(env, d, s, steps[0]) && CanRun(env, d, Apply(env, d, s, steps[0]), steps[1..]))
  }

  function Run(env: Env, d: Delays, s: State, steps: seq<Step>): State
    requires CanRun(env, d, s, steps)
    decreases |steps|
  {
    if steps == [] then s else Run(env, d, Apply(env, d, s, steps[0]), steps[1..])
  }

  function Initial(now: Time): State {
    State(now, map[], map[], [], [])
  }

  // ------------------------------------------------------------------ invariants

  /** Slack's own, and new: signed with the configured secret and within five minutes of its timestamp. */
  ghost predicate Authentic(env: Env, r: Request, at: Time) {
    && env.secret != "" && r.timestamp != "" && r.signature != "" && env.signed(r)
    && env.parseTime(r.timestamp).Some? && -300.0 <= at - env.parseTime(r.timestamp).value <= 300.0
  }

  ghost predicate CheckedOk(env: Env, r: Request, id: string, at: Time) {
    Authentic(env, r, at) && env.parseBody(r.raw).Event? && env.parseBody(r.raw).id == id
  }

  ghost predicate ClaimOk(env: Env, d: Delays, c: Claim) {
    CheckedOk(env, c.request, c.id, c.checkedAt) && c.at <= c.checkedAt + d.toDedup
  }

  /** Handlers passed their check in the past, and so did claims, in time. */
  ghost predicate TimesInv(env: Env, d: Delays, s: State) {
    && (forall h <- s.handlers | s.handlers[h].Checked? ::
          && CheckedOk(env, s.handlers[h].request, s.handlers[h].id, s.handlers[h].at)
          && s.handlers[h].at <= s.now)
    && (forall i | 0 <= i < |s.claims| ::
          ClaimOk(env, d, s.claims[i]) && s.claims[i].checkedAt <= s.claims[i].at <= s.now)
  }

  /** The dedup key of every claimed event outlasts the claim by the TTL, so claims of one id lie a TTL apart. */
  ghost predicate ApartInv(s: State) {
    && (forall i | 0 <= i < |s.claims| && s.claims[i].id != "" ::
          && s.claims[i].id in s.dedup && s.dedup[s.claims[i].id].expiry.Some?
          && s.claims[i].at + DEDUP_TTL_SECONDS <= s.dedup[s.claims[i].id].expiry.value)
    && (forall i, j | 0 <= i < j < |s.claims| && s.claims[i].id == s.claims[j].id != "" ::
          s.claims[i].at + DEDUP_TTL_SECONDS < s.claims[j].at)
  }

  /** Every claim is held by at most one handler or posted at most once, never both. */
  ghost predicate OnceInv(d: Delays, s: State) {
    && (forall h <- s.handlers | s.handlers[h].Claimed? ::
          s.handlers[h].claim < |s.claims| && s.handlers[h].at == s.claims[s.handlers[h].claim].at)
    && (forall i | 0 <= i < |s.posted| ::
          && s.posted[i].claim < |s.claims|
          && s.claims[s.posted[i].claim].at <= s.posted[i].at <= s.claims[s.posted[i].claim].at + d.toAppend)
    && (forall g, h | g in s.handlers && h in s.handlers && g != h
                      && s.handlers[g].Claimed? && s.handlers[h].Claimed? ::
          s.handlers[g].claim != s.handlers[h].claim)
    && (forall i, j | 0 <= i < j < |s.posted| :: s.posted[i].claim != s.posted[j].claim)
    && (forall h, i | h in s.handlers && s.handlers[h].Claimed? && 0 <= i < |s.posted| ::
          s.handlers[h].claim != s.posted[i].claim)
  }

  ghost predicate Inv(env: Env, d: Delays, s: State) {
    TimesInv(env, d, s) && ApartInv(s) && OnceInv(d, s)
  }

  lemma TimesStep(env: Env, d: Delays, s: State, step: Step)
    requires TimesInv(env, d, s) && Enabled(env, d, s, step)
    ensures TimesInv(env, d, Apply(env, d, s, step))
  {
  }

  lemma ApartStep(env: Env, d: Delays, s: State, step: Step)
    requires ApartInv(s) && TimesInv(env, d, s) && Enabled(env, d, s, step)
    ensures ApartInv(Apply(env, d, s, step))
  {
  }

  lemma OnceStep(env: Env, d: Delays, s: State, step: Step)
    requires OnceInv(d, s) && TimesInv(env, d, s) && Enabled(env, d, s, step)
    ensures OnceInv(d, Apply(env, d, s, step))
  {
    if step.Dedup? {
      DedupOnce(env, d, s, step.h);
    } else if step.Append? {
      AppendOnce(env, d, s, step.h);
    }
  }

  lemma DedupOnce(env: Env, d: Delays, s: State, h: nat)
    requires OnceInv(d, s) && TimesInv(env, d, s) && Enabled(env, d, s, Dedup(h))
    ensures OnceInv(d, SetIfAbsent(s, h))
  {
  }

  lemma AppendOnce(env: Env, d: Delays, s: State, h: nat)
    requires OnceInv(d, s) && TimesInv(env, d, s) && Enabled(env, d, s, Append(h))
    ensures OnceInv(d, Apply(env, d, s, Append(h)))
  {
    var t := Apply(env, d, s, Append(h));
    assert t.posted[|s.posted|].claim == s.handlers[h].claim;
  }

  lemma {:induction false} RunKeeps(env: Env, d: Delays, s: State, steps: seq<Step>)
    requires Inv(env, d, s) && CanRun(env, d, s, steps)
    ensures Inv(env, d, Run(env, d, s, steps))
    decreases |steps|
  {
    if steps != [] {
      TimesStep(env, d, s, steps[0]);
      ApartStep(env, d, s, steps[0]);
      OnceStep(env, d, s, steps[0]);
      RunKeeps(env, d, Apply(env, d, s, steps[0]), steps[1..]);
    }
  }

  // -------------------------------------------------------------------- theorems

  /**
    In every run, whatever has set a dedup key or been appended was sent by a
    request with both headers and a good signature, checked against a configured
    secret and within five minutes of its timestamp.
   */
  lemma OnlyAuthenticIsPosted(env: Env, d: Delays, start: Time, steps: seq<Step>, i: nat)
    requires CanRun(env, d, Initial(start), steps)
    ensures
      var s := Run(env, d, Initial(start), steps);
      && (i < |s.claims| ==> ClaimIsAuthentic(env, s.claims[i]))
      && (i < |s.posted| ==>
            && s.posted[i].claim < |s.claims| && s.claims[s.posted[i].claim].at <= s.posted[i].at
            && ClaimIsAuthentic(env, s.claims[s.posted[i].claim]))
  {
    RunKeeps(env, d, Initial(start), steps);
    var s := Run(env, d, Initial(start), steps);
    if i < |s.claims| { assert ClaimOk(env, d, s.claims[i]); }
    if i < |s.posted| { assert ClaimOk(env, d, s.claims[s.posted[i].claim]); }
  }

  ghost predicate ClaimIsAuthentic(env: Env, c: Claim) {
    && Authentic(env, c.request, c.checkedAt) && c.checkedAt <= c.at
    && env.parseBody(c.request.raw).Event? && env.parseBody(c.request.raw).id == c.id
  }

  /** The same signed request: what the signature covers is the timestamp and the body. */
  predicate SameSigned(a: Request, b: Request) {
    a.timestamp == b.timestamp && a.raw == b.raw
  }

  ghost function PostedRequest(s: State, i: nat): Request
    requires i < |s.posted| && s.posted[i].claim < |s.claims|
  {
    s.claims[s.posted[i].claim].request
  }

  /** Two stream entries come from sendings of the same signed request. */
  ghost predicate PostedTwice(s: State, r: Request) {
    exists i, j :: 0 <= i < j < |s.posted| && s.posted[i].claim < |s.claims| && s.posted[j].claim < |s.claims|
                   && SameSigned(PostedRequest(s, i), r) && SameSigned(PostedRequest(s, j), r)
  }

  /** Claims of one signed request are all made while it is fresh, give or take the handler's delay. */
  lemma ClaimsAreClose(env: Env, d: Delays, s: State, i: nat, j: nat)
    requires Inv(env, d, s) && i < |s.claims| && j < |s.claims| && SameSigned(s.claims[i].request, s.claims[j].request)
    ensures s.claims[i].id == s.claims[j].id
    ensures s.claims[j].at <= s.claims[i].at + 2.0 * MAX_AGE_SECONDS + d.toDedup
  {
    assert ClaimOk(env, d, s.claims[i]) && ClaimOk(env, d, s.claims[j]);
  }

  /**
    Over any run, with any retries and interleaving, a signed request with an
    event id is appended at most once, provided no handler takes longer from its
    freshness check to SET NX than the dedup key outlasts the freshness window.
   */
  lemma PostedAtMostOnce(env: Env, d: Delays, start: Time, steps: seq<Step>, r: Request)
    requires CanRun(env, d, Initial(start), steps)
    requires d.toDedup <= 3000.0
    requires env.parseBody(r.raw).Event? && env.parseBody(r.raw).id != ""
    ensures !PostedTwice(Run(env, d, Initial(start), steps), r)
  {
    var s := Run(env, d, Initial(start), steps);
    RunKeeps(env, d, Initial(start), steps);
    forall i, j | 0 <= i < j < |s.posted| && SameSigned(PostedRequest(s, i), r) && SameSigned(PostedRequest(s, j), r)
      ensures false
    {
      var a, b := s.posted[i].claim, s.posted[j].claim;
      assert ClaimOk(env, d, s.claims[a]);
      ClaimsAreClose(env, d, s, a, b);
      ClaimsAreClose(env, d, s, b, a);
    }
  }

  /** Two entries with one event id are a dedup TTL apart, less at most the delay of an append. */
  lemma AppendsAreApart(env: Env, d: Delays, start: Time, steps: seq<Step>, i: nat, j: nat)
    requires CanRun(env, d, Initial(start), steps)
    requires
      var s := Run(env, d, Initial(start), steps);
      && i < |s.posted| && j < |s.posted| && i != j
      && s.posted[i].claim < |s.claims| && s.posted[j].claim < |s.claims|
      && s.claims[s.posted[i].claim].id == s.claims[s.posted[j].claim].id != ""
    ensures
      var s := Run(env, d, Initial(start), steps);
      Distance(s.posted[i].at, s.posted[j].at) > 3600.0 - d.toAppend
  {
    var s := Run(env, d, Initial(start), steps);
    RunKeeps(env, d, Initial(start), steps);
    assert s.posted[i].claim != s.posted[j].claim;
  }

  // --------------------------------------------------- and its conditions are needed

  lemma FirstStep(env: Env, d: Delays, s: State, step: Step, rest: seq<Step>)
    requires Enabled(env, d, s, step) && CanRun(env, d, Apply(env, d, s, step), rest)
    ensures CanRun(env, d, s, [step] + rest)
    ensures Run(env, d, s, [step] + rest) == Run(env, d, Apply(env, d, s, step), rest)
  {
    assert ([step] + rest)[1..] == rest;
  }

  /** A request that meets no live dedup key goes through: check, SET NX, append. */
  function Delivered(s: State, r: Request, id: string): State {
    s.(dedup := if id == "" then s.dedup else s.dedup[id := Cell(true, Some(s.now + DEDUP_TTL_SECONDS))],
       claims := s.claims + [Claim(r, id, s.now, s.now)],
       posted := s.posted + [Posted(|s.claims|, s.now)])
  }

  lemma DeliverThen(env: Env, d: Delays, s: State, h: nat, r: Request, rest: seq<Step>)
    requires h !in s.handlers && d.toDedup >= 0.0 && d.toAppend >= 0.0
    requires Check(env, r, s.now).Store?
    requires var id := Check(env, r, s.now).id; id == "" || Lookup(s.dedup, id, s.now).None?
    requires CanRun(env, d, Delivered(s, r, Check(env, r, s.now).id), rest)
    ensures
      var steps := [Arrive(h, r)] + ([Dedup(h)] + ([Append(h)] + rest));
      CanRun(env, d, s, steps) && Run(env, d, s, steps) == Run(env, d, Delivered(s, r, Check(env, r, s.now).id), rest)
  {
    var s1 := Apply(env, d, s, Arrive(h, r));
    var s2 := Apply(env, d, s1, Dedup(h));
    var s3 := Apply(env, d, s2, Append(h));
    assert s3.handlers == s.handlers;
    assert s3 == Delivered(s, r, Check(env, r, s.now).id);
    FirstStep(env, d, s2, Append(h), rest);
    FirstStep(env, d, s1, Dedup(h), [Append(h)] + rest);
    FirstStep(env, d, s, Arrive(h, r), [Dedup(h)] + ([Append(h)] + rest));
  }

  /** Without an event id nothing stops the sender's retry: it is appended again. */
  lemma EmptyIdIsPostedTwice(env: Env, d: Delays, r: Request, now: Time) returns (steps: seq<Step>)
    requires Check(env, r, now).Store? && Check(env, r, now).id == "" && d.toDedup >= 0.0 && d.toAppend >= 0.0
    ensures CanRun(env, d, Initial(now), steps) && PostedTwice(Run(env, d, Initial(now), steps), r)
  {
    var s := Initial(now);
    var t := Delivered(s, r, "");
    DeliverThen(env, d, t, 0, r, []);
    steps := [Arrive(0, r)] + ([Dedup(0)] + ([Append(0)] + []));
    DeliverThen(env, d, s, 0, r, steps);
    steps := [Arrive(0, r)] + ([Dedup(0)] + ([Append(0)] + steps));
    var end := Run(env, d, Initial(now), steps);
    assert SameSigned(PostedRequest(end, 0), r) && SameSigned(PostedRequest(end, 1), r);
  }

  /** And if a handler may take any longer than the bound, a retry checked early can be stored late. */
  lemma LongDelayPostsTwice(env: Env, d: Delays, r: Request) returns (start: Time, steps: seq<Step>)
    requires env.secret != "" && r.timestamp != "" && r.signature != "" && env.signed(r)
    requires env.parseTime(r.timestamp).Some? && env.parseBody(r.raw).Event? && env.parseBody(r.raw).id != ""
    requires d.toDedup > 3000.0 && d.toAppend >= 0.0
    ensures CanRun(env, d, Initial(start), steps) && PostedTwice(Run(env, d, Initial(start), steps), r)
  {
    start := env.parseTime(r.timestamp).value - MAX_AGE_SECONDS;
    var id := env.parseBody(r.raw).id;
    var s := Initial(start);
    var a := Delivered(s, r, id);
    var b := Apply(env, d, a, Tick(2.0 * MAX_AGE_SECONDS));
    var c := Apply(env, d, b, Arrive(0, r));
    var e := Apply(env, d, c, Tick(d.toDedup));
    var f := Apply(env, d, e, Dedup(0));
    var g := Apply(env, d, f, Append(0));
    FirstStep(env, d, f, Append(0), []);
    steps := [Append(0)] + [];
    FirstStep(env, d, e, Dedup(0), steps);
    steps := [Dedup(0)] + steps;
    FirstStep(env, d, c, Tick(d.toDedup), steps);
    steps := [Tick(d.toDedup)] + steps;
    FirstStep(env, d, b, Arrive(0, r), steps);
    steps := [Arrive(0, r)] + steps;
    FirstStep(env, d, a, Tick(2.0 * MAX_AGE_SECONDS), steps);
    steps := [Tick(2.0 * MAX_AGE_SECONDS)] + steps;
    DeliverThen(env, d, s, 0, r, steps);
    steps := [Arrive(0, r)] + ([Dedup(0)] + ([Append(0)] + steps));
    var end := Run(env, d, Initial(start), steps);
    assert end == g;
    assert SameSigned(PostedRequest(end, 0), r) && SameSigned(PostedRequest(end, 1), r);
  }

  ghost predicate PostsEvent(s: State, k: int, id: string) {
    0 <= k < |s.posted| && s.posted[k].claim < |s.claims| && s.claims[s.posted[k].claim].id == id
  }

  ghost predicate ClaimsEvent(s: State, a: int, id: string) {
    0 <= a < |s.claims| && s.claims[a].id == id
  }

  ghost predicate ClaimedWithinTtl(s: State, id: string) {
    forall a, b | ClaimsEvent(s, a, id) && ClaimsEvent(s, b, id) ::
      Distance(s.claims[a].at, s.claims[b].at) <= 3600.0
  }

  /** The dedup key is held for one TTL: an event all of whose claims lie within that time is appended at most once. */
  lemma EventPostedAtMostOnce(env: Env, d: Delays, start: Time, steps: seq<Step>, id: string, j: int, k: int)
    requires CanRun(env, d, Initial(start), steps) && id != ""
    requires ClaimedWithinTtl(Run(env, d, Initial(start), steps), id)
    ensures
      var s := Run(env, d, Initial(start), steps);
      PostsEvent(s, j, id) && PostsEvent(s, k, id) ==> j == k
  {
    var s := Run(env, d, Initial(start), steps);
    RunKeeps(env, d, Initial(start), steps);
    if PostsEvent(s, j, id) && PostsEvent(s, k, id) && j != k {
      var a, b := s.posted[j].claim, s.posted[k].claim;
      assert a != b && ClaimsEvent(s, a, id) && ClaimsEvent(s, b, id);
    }
  }

  /**
    Beyond that nothing stops it: the event, signed anew when the key has gone, is
    appended again, without any delay.
   */
  lemma ResignedEventIsPostedTwice(env: Env, d: Delays, r: Request, r': Request, now: Time, wait: Time)
    returns (steps: seq<Step>)
    requires wait > 3600.0 && d.toDedup >= 0.0 && d.toAppend >= 0.0
    requires Check(env, r, now).Store? && Check(env, r', now + wait).Store?
    requires Check(env, r, now).id == Check(env, r', now + wait).id != ""
    ensures CanRun(env, d, Initial(now), steps)
    ensures
      var s := Run(env, d, Initial(now), steps);
      PostsEvent(s, 0, Check(env, r, now).id) && PostsEvent(s, 1, Check(env, r, now).id)
  {
    var id := Check(env, r, now).id;
    var s := Initial(now);
    var t := Delivered(s, r, id);
    var u := Apply(env, d, t, Tick(wait));
    DeliverThen(env, d, u, 0, r', []);
    steps := [Arrive(0, r')] + ([Dedup(0)] + ([Append(0)] + []));
    FirstStep(env, d, t, Tick(wait), steps);
    steps := [Tick(wait)] + steps;
    DeliverThen(env, d, s, 0, r, steps);
    steps := [Arrive(0, r)] + ([Dedup(0)] + ([Append(0)] + steps));
  }

  // ------------------------------------------------------------ events that are lost

  ghost predicate PostedFor(s: State, r: Request) {
    exists k :: 0 <= k < |s.posted| && s.posted[k].claim < |s.claims| && SameSigned(PostedRequest(s, k), r)
  }

  ghost predicate ClaimPosted(s: State, i: nat) {
    exists k :: 0 <= k < |s.posted| && s.posted[k].claim == i
  }

  /** Nobody is going to append the event of this claim, and nobody has. */
  ghost predicate Abandoned(s: State, i: nat) {
    i < |s.claims| && !ClaimPosted(s, i) && forall h <- s.handlers | s.handlers[h].Claimed? :: s.handlers[h].claim != i
  }

  lemma {:induction false} AbandonedForGood(env: Env, d: Delays, s: State, steps: seq<Step>, i: nat)
    requires CanRun(env, d, s, steps) && Abandoned(s, i)
    ensures Abandoned(Run(env, d, s, steps), i) && s.claims <= Run(env, d, s, steps).claims
    decreases |steps|
  {
    if steps != [] {
      var t := Apply(env, d, s, steps[0]);
      assert forall k | 0 <= k < |t.posted| && t.posted[k].claim == i :: k < |s.posted|;
      AbandonedForGood(env, d, t, steps[1..], i);
    }
  }

  lemma OnlyItsClaim(env: Env, d: Delays, s: State, i: nat)
    requires Inv(env, d, s) && d.toDedup <= 3000.0
    requires i < |s.claims| && s.claims[i].id != ""
    ensures PostedFor(s, s.claims[i].request) <==> ClaimPosted(s, i)
  {
    if k :| 0 <= k < |s.posted| && s.posted[k].claim == i {
      assert SameSigned(PostedRequest(s, k), s.claims[i].request);
    }
    forall k | 0 <= k < |s.posted| && SameSigned(PostedRequest(s, k), s.claims[i].request)
      ensures s.posted[k].claim == i
    {
      ClaimsAreClose(env, d, s, s.posted[k].claim, i);
      ClaimsAreClose(env, d, s, i, s.posted[k].claim);
    }
  }

  /** In every run, a signed request has been appended if and only if the handler that set its dedup key appended it. */
  lemma PostedIffItsClaimIs(env: Env, d: Delays, start: Time, steps: seq<Step>, i: nat)
    requires CanRun(env, d, Initial(start), steps) && d.toDedup <= 3000.0
    requires var s := Run(env, d, Initial(start), steps); i < |s.claims| && s.claims[i].id != ""
    ensures
      var s := Run(env, d, Initial(start), steps);
      PostedFor(s, s.claims[i].request) <==> ClaimPosted(s, i)
  {
    RunKeeps(env, d, Initial(start), steps);
    OnlyItsClaim(env, d, Run(env, d, Initial(start), steps), i);
  }

  /**
    If the handler that set the dedup key dies before its append, no retry of the
    request is ever appended, in any continuation; and none of the same event,
    signed anew, that is claimed within the dedup TTL.
   */
  lemma DroppedEventIsLost(env: Env, d: Delays, start: Time, before: seq<Step>, h: nat, after: seq<Step>)
    requires CanRun(env, d, Initial(start), before) && d.toDedup <= 3000.0
    requires
      var s := Run(env, d, Initial(start), before);
      && h in s.handlers && s.handlers[h].Claimed? && s.handlers[h].claim < |s.claims|
      && s.claims[s.handlers[h].claim].id != "" && CanRun(env, d, Apply(env, d, s, Drop(h)), after)
    ensures
      var s := Run(env, d, Initial(start), before);
      var c := s.claims[s.handlers[h].claim];
      var t := Run(env, d, Apply(env, d, s, Drop(h)), after);
      && !PostedFor(t, c.request)
      && forall k | PostsEvent(t, k, c.id) ::
           Distance(t.claims[t.posted[k].claim].at, c.at) > 3600.0
  {
    var s := Run(env, d, Initial(start), before);
    var s1 := Apply(env, d, s, Drop(h));
    RunKeeps(env, d, Initial(start), before);
    TimesStep(env, d, s, Drop(h));
    ApartStep(env, d, s, Drop(h));
    OnceStep(env, d, s, Drop(h));
    RunKeeps(env, d, s1, after);
    AbandonedForGood(env, d, s1, after, s.handlers[h].claim);
    AbandonedIsLost(env, d, Run(env, d, s1, after), s.handlers[h].claim);
  }

  lemma AbandonedIsLost(env: Env, d: Delays, t: State, i: nat)
    requires Inv(env, d, t) && d.toDedup <= 3000.0
    requires Abandoned(t, i) && t.claims[i].id != ""
    ensures !PostedFor(t, t.claims[i].request)
    ensures forall k | PostsEvent(t, k, t.claims[i].id) ::
              Distance(t.claims[t.posted[k].claim].at, t.claims[i].at) > DEDUP_TTL_SECONDS
  {
    OnlyItsClaim(env, d, t, i);
  }

  /** It happens: the first handler dies, and the sender's retry is taken for a duplicate. */
  lemma RetryOfDroppedIsDuplicate(env: Env, d: Delays, r: Request, now: Time) returns (steps: seq<Step>)
    requires Check(env, r, now).Store? && Check(env, r, now).id != "" && d.toDedup >= 0.0
    ensures CanRun(env, d, Initial(now), steps)
    ensures var s := Run(env, d, Initial(now), steps); |s.claims| == 1 && s.handlers == map[] && s.posted == []
    ensures Arrive(1, r) in steps && Dedup(1) in steps
  {
    var a := Apply(env, d, Initial(now), Arrive(0, r));
    var b := Apply(env, d, a, Dedup(0));
    var c := Apply(env, d, b, Drop(0));
    var e := Apply(env, d, c, Arrive(1, r));
    FirstStep(env, d, e, Dedup(1), []);
    steps := [Dedup(1)] + [];
    FirstStep(env, d, c, Arrive(1, r), steps);
    steps := [Arrive(1, r)] + steps;
    FirstStep(env, d, b, Drop(0), steps);
    steps := [Drop(0)] + steps;
    FirstStep(env, d, a, Dedup(0), steps);
    steps := [Dedup(0)] + steps;
    FirstStep(env, d, Initial(now), Arrive(0, r), steps);
    steps := [Arrive(0, r)] + steps;
  }

  // ---------------------------------------------------------------- the handler

  /** One request at a time; the method performs a run of the steps above. */
  class Gateway {
    const env: Env
    const delays: Delays
    var s: State
    ghost const start: Time
    ghost var trace: seq<Step>

    ghost predicate Valid()
      reads this
    {
      && delays.toDedup >= 0.0 && delays.toAppend >= 0.0
      && CanRun(env, delays, Initial(start), trace) && s == Run(env, delays, Initial(start), trace)
    }

    constructor (env: Env, delays: Delays, now: Time)
      requires delays.toDedup >= 0.0 && delays.toAppend >= 0.0
      ensures Valid() && this.env == env && this.delays == delays && s == Initial(now)
    {
      this.env := env;
      this.delays := delays;
      s := Initial(now);
      start := now;
      trace := [];
    }

    method Do(step: Step)
      requires Valid() && Enabled(env, delays, s, step)
      modifies this
      ensures Valid() && s == Apply(env, delays, old(s), step) && trace == old(trace) + [step]
    {
      RunThen(env, delays, Initial(start), trace, step);
      s := Apply(env, delays, s, step);
      trace := trace + [step];
    }

    /** `slack_webhook`, undisturbed, by the handler `h`. */
    method SlackWebhook(h: nat, r: Request) returns (response: Response)
      requires Valid() && h !in s.handlers
      modifies this
      ensures Valid() && old(trace) <= trace && s.now == old(s.now) && s.handlers == old(s.handlers)
      ensures response == NotConfigured <==> env.secret == ""
      ensures response == MissingHeaders <==> env.secret != "" && (r.timestamp == "" || r.signature == "")
      ensures response == Stale <==>
                && env.secret != "" && r.timestamp != "" && r.signature != ""
                && (env.parseTime(r.timestamp).None?
                    || !(-300.0 <= s.now - env.parseTime(r.timestamp).value <= 300.0))
      ensures response == BadSignature <==>
                && env.secret != "" && r.timestamp != "" && r.signature != "" && !env.signed(r)
                && env.parseTime(r.timestamp).Some? && -300.0 <= s.now - env.parseTime(r.timestamp).value <= 300.0
      ensures response == BadBody <==>
                Authentic(env, r, s.now) && (env.parseBody(r.raw).NotJson? || env.parseBody(r.raw).NotObject?)
      ensures forall c ::
                response == Challenge(c) <==> Authentic(env, r, s.now) && env.parseBody(r.raw) == UrlVerification(c)
      ensures response == Duplicate <==>
                && Authentic(env, r, s.now) && env.parseBody(r.raw).Event? && env.parseBody(r.raw).id != ""
                && Lookup(old(s.dedup), env.parseBody(r.raw).id, s.now).Some?
      ensures if response == Ok then Appended(env, old(s), s, r) else s == old(s)
    {
      if env.secret == "" { return NotConfigured; }
      if r.timestamp == "" || r.signature == "" { return MissingHeaders; }
      if !Fresh(env, r.timestamp, s.now) { return Stale; }
      if !env.signed(r) { return BadSignature; }
      var body := env.parseBody(r.raw);
      if body.NotJson? || body.NotObject? { return BadBody; }
      if body.UrlVerification? { return Challenge(body.challenge); }
      response := Accept(h, r);
    }

    /** From the dedup key on. */
    method Accept(h: nat, r: Request) returns (response: Response)
      requires Valid() && h !in s.handlers && Check(env, r, s.now).Store?
      modifies this
      ensures Valid() && old(trace) <= trace
      ensures s.now == old(s.now) && s.handlers == old(s.handlers)
      ensures
        var id := Check(env, r, old(s.now)).id;
        if id != "" && Lookup(old(s.dedup), id, s.now).Some? then response == Duplicate && s == old(s)
        else response == Ok && s == Delivered(old(s), r, id)
    {
      ghost var s0 := s;
      var id := Check(env, r, s.now).id;
      var duplicate := id != "" && Lookup(s.dedup, id, s.now).Some?;
      Do(Arrive(h, r));
      Do(Dedup(h));
      if duplicate {
        assert s.handlers == s0.handlers;
        return Duplicate;
      }
      Do(Append(h));
      assert s.handlers == s0.handlers;
      response := Ok;
    }
  }

  /** An authentic event has been stored: one entry more, from this request, and its id, if any, is held for an hour. */
  ghost predicate Appended(env: Env, s: State, t: State, r: Request) {
    && Authentic(env, r, s.now) && env.parseBody(r.raw).Event?
    && var id := env.parseBody(r.raw).id;
    && |t.claims| == |s.claims| + 1 && t.claims[|s.claims|].request == r && s.claims <= t.claims
    && t.posted == s.posted + [Posted(|s.claims|, s.now)]
    && t.dedup == if id == "" then s.dedup else s.dedup[id := Cell(true, Some(s.now + 3600.0))]
  }

  lemma RunThen(env: Env, d: Delays, s: State, steps: seq<Step>, step: Step)
    requires CanRun(env, d, s, steps) && Enabled(env, d, Run(env, d, s, steps), step)
    ensures CanRun(env, d, s, steps + [step])
    ensures Run(env, d, s, steps + [step]) == Apply(env, d, Run(env, d, s, steps), step)
    decreases |steps|
  {
    if steps == [] {
      FirstStep(env, d, s, step, []);
      assert steps + [step] == [step] + [];
    } else {
      assert steps + [step] == [steps[0]] + (steps[1..] + [step]);
      RunThen(env, d, Apply(env, d, s, steps[0]), steps[1..], step);
      FirstStep(env, d, s, steps[0], steps[1..] + [step]);
    }
  }
}
