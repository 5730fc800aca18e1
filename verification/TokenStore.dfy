/**
  The stored Google tokens under interleaving: processes that seed the shared one
  at start (a check, then a separate write) and calls that read a user's record,
  refresh it against Google and write it back, each store access a step of its own.
 */
module TokenStore {
  import opened Wrappers
  import opened Expiry

  const REFRESH_MARGIN_SECONDS: Time := 60.0
  const DEFAULT_EXPIRES_IN: Time := 3600.0

  /** The one user whose record the application seeds. */
  const SHARED_USER := "google:shared"

  /** The JSON under `token:<user>`; it has no time-to-live. */
  datatype TokenData = TokenData(access: string, refreshEnc: string, expiresAt: Time)

  /** Fernet's decryption, and the refresh token every process is configured with ("" for none). */
  datatype Env = Env(decrypt: string -> string, refreshToken: string)

  datatype Process =
    | Seeding                                            // found nothing stored, about to write
    | HasRead(user: string, data: TokenData)             // before the clock is read
    | Refreshing(user: string, data: TokenData)          // waiting for Google
    | Writing(user: string, data: TokenData)             // before the store is written

  /** An access token Google issued: to which call, when, and the lifetime it gave, if it gave one. */
  datatype Mint = Mint(call: nat, token: string, at: Time, expiresIn: Option<Time>)

  /** When the token expires: without a lifetime it is taken to be an hour. */
  ghost function ExpiryOf(m: Mint): Time {
    m.at + match m.expiresIn { case Some(seconds) => seconds case None => 3600.0 }
  }

  /** More than a minute is left until `expiresAt`. */
  predicate MinuteLeft(expiresAt: Time, now: Time) {
    expiresAt - now > 60.0
  }

  datatype Returned = Returned(call: nat, user: string, token: string, at: Time)

  /**
    `used` are the processes that ever began: no two are the same.  The rest of
    the log says which of them wrote each record last, what Google issued, which
    refresh tokens it was shown, and what the calls returned.
   */
  datatype State = State(
    now: Time, stored: map<string, TokenData>, processes: map<nat, Process>,
    used: set<nat>, writer: map<string, nat>, minted: set<Mint>, presented: set<string>, returned: seq<Returned>)

  datatype Step =
    | Tick(elapsed: Time)
    | SeedCheck(p: nat)
    | SeedWrite(p: nat, enc: string)
    | Read(p: nat, user: string)
    | UseStored(p: nat)
    | NeedRefresh(p: nat)
    | Minted(p: nat, token: string, expiresIn: Option<Time>)
    | Write(p: nat)
    | Fail(p: nat)                                       // Google refuses, the network fails, the process dies

  /** More than a minute is left. */
  predicate StillGood(data: TokenData, now: Time) {
    data.expiresAt - REFRESH_MARGIN_SECONDS > now
  }

  function Placeholder(enc: string): TokenData {
    TokenData("", enc, 0.0)
  }

  function Lifetime(expiresIn: Option<Time>): Time {
    if expiresIn.Some? then expiresIn.value else DEFAULT_EXPIRES_IN
  }

  predicate Enabled(env: Env, s: State, step: Step) {
    match step
    case Tick(dt) => dt >= 0.0
    case SeedCheck(p) => p !in s.used && env.refreshToken != ""
    case SeedWrite(p, enc) => p in s.processes && s.processes[p].Seeding? && env.decrypt(enc) == env.refreshToken
    case Read(p, _) => p !in s.used
    case UseStored(p) => p in s.processes && s.processes[p].HasRead? && StillGood(s.processes[p].data, s.now)
    case NeedRefresh(p) => p in s.processes && s.processes[p].HasRead? && !StillGood(s.processes[p].data, s.now)
    case Minted(p, _, _) => p in s.processes && s.processes[p].Refreshing?
    case Write(p) => p in s.processes && s.processes[p].Writing?
    case Fail(p) => p in s.processes
  }

  function Apply(env: Env, s: State, step: Step): State
    requires Enabled(env, s, step)
  {
    match step
    case Tick(dt) => s.(now := s.now + dt)
    case SeedCheck(p) => Begin(s, p, if SHARED_USER in s.stored then None else Some(Seeding))
    case SeedWrite(p, enc) => Store(s, p, SHARED_USER, Placeholder(enc))
    case Read(p, user) => Begin(s, p, if user in s.stored then Some(HasRead(user, s.stored[user])) else None)
    case UseStored(p) => Return(s, p, s.processes[p].user, s.processes[p].data.access)
    case NeedRefresh(p) => OnNeedRefresh(env, s, p)
    case Minted(p, token, expiresIn) => OnMinted(s, p, Mint(p, token, s.now, expiresIn))
    case Write(p) =>
      var c := s.processes[p];
      Return(Store(s, p, c.user, c.data), p, c.user, c.data.access)
    case Fail(p) => s.(processes := s.processes - {p})
  }

  function Begin(s: State, p: nat, process: Option<Process>): State {
    s.(used := s.used + {p}, processes := if process.Some? then s.processes[p := process.value] else s.processes)
  }

  function Store(s: State, p: nat, user: string, data: TokenData): State {
    s.(stored := s.stored[user := data], writer := s.writer[user := p], processes := s.processes - {p})
  }

  function Return(s: State, p: nat, user: string, token: string): State {
    s.(processes := s.processes - {p}, returned := s.returned + [Returned(p, user, token, s.now)])
  }

  function OnNeedRefresh(env: Env, s: State, p: nat): State
    requires p in s.processes && s.processes[p].HasRead?
  {
    var c := s.processes[p];
    s.(processes := s.processes[p := Refreshing(c.user, c.data)],
       presented := s.presented + {env.decrypt(c.data.refreshEnc)})
  }

  function OnMinted(s: State, p: nat, m: Mint): State
    requires p in s.processes && s.processes[p].Refreshing?
  {
    var c := s.processes[p];
    var renewed := c.data.(access := m.token, expiresAt := s.now + Lifetime(m.expiresIn));
    s.(processes := s.processes[p := Writing(c.user, renewed)],
       minted := s.minted + {m})
  }

  predicate CanRun(env: Env, s: State, steps: seq<Step>)
    decreases |steps|
  {
    steps == [] || (Enabled(env, s, steps[0]) && CanRun(env, Apply(env, s, steps[0]), steps[1..]))
  }

  function Run(env: Env, s: State, steps: seq<Step>): State
    requires CanRun(env, s, steps)
    decreases |steps|
  {
    if steps == [] then s else Run(env, Apply(env, s, steps[0]), steps[1..])
  }

  function Initial(now: Time): State {
    State(now, map[], map[], {}, map[], {}, {}, [])
  }

  // ------------------------------------------------------------------ invariants

  /** Google issued this token with this expiry. */
  ghost predicate Issued(minted: set<Mint>, token: string, expiresAt: Time) {
    exists m <- minted :: m.token == token && ExpiryOf(m) == expiresAt
  }

  ghost predicate IssuedTo(minted: set<Mint>, p: nat, token: string, expiresAt: Time) {
    exists m <- minted :: m.call == p && m.token == token && ExpiryOf(m) == expiresAt
  }

  /** The refresh token is the configured one; the access token is Google's with its own expiry, or the placeholder. */
  ghost predicate GoodData(env: Env, minted: set<Mint>, data: TokenData) {
    && env.decrypt(data.refreshEnc) == env.refreshToken
    && (Issued(minted, data.access, data.expiresAt) || data == Placeholder(data.refreshEnc))
  }

  ghost predicate GoodProcess(env: Env, minted: set<Mint>, p: nat, c: Process) {
    c.Seeding? ||
    (&& c.user == SHARED_USER && GoodData(env, minted, c.data)
     && (c.Writing? ==> IssuedTo(minted, p, c.data.access, c.data.expiresAt)))
  }

  /** Issued to this very call, or with more than a minute left when it was returned. */
  ghost predicate Usable(minted: set<Mint>, r: Returned) {
    exists m <- minted :: m.token == r.token && (m.call == r.call || MinuteLeft(ExpiryOf(m), r.at))
  }

  ghost predicate DataInv(env: Env, s: State) {
    && s.now >= 0.0
    && (forall user <- s.stored :: user == SHARED_USER && GoodData(env, s.minted, s.stored[user]))
    && (forall p <- s.processes :: GoodProcess(env, s.minted, p, s.processes[p]))
    && (forall i | 0 <= i < |s.returned| :: s.returned[i].user == SHARED_USER && Usable(s.minted, s.returned[i]))
    && (forall t <- s.presented :: t == env.refreshToken)
  }

  /** A call that has been issued a token is about to write it, or over. */
  ghost predicate PastRefresh(s: State, p: nat) {
    p in s.used && (p in s.processes ==> s.processes[p].Writing?)
  }

  ghost predicate Over(s: State, p: nat) {
    p in s.used && p !in s.processes
  }

  ghost predicate IdsInv(s: State) {
    && s.processes.Keys <= s.used && s.writer.Keys == s.stored.Keys
    && (forall user <- s.writer :: Over(s, s.writer[user]))
    && (forall m <- s.minted :: PastRefresh(s, m.call))
    && (forall m, n | m in s.minted && n in s.minted && m.call == n.call :: m == n)
    && (forall i | 0 <= i < |s.returned| :: Over(s, s.returned[i].call))
    && (forall i, j | 0 <= i < j < |s.returned| :: s.returned[i].call != s.returned[j].call)
  }

  ghost predicate Inv(env: Env, s: State) {
    DataInv(env, s) && IdsInv(s)
  }

  /** More tokens issued never make anything worse. */
  lemma MintingKeeps(env: Env, s: State, more: set<Mint>)
    requires DataInv(env, s) && s.minted <= more
    ensures DataInv(env, s.(minted := more))
  {
    forall i | 0 <= i < |s.returned| ensures Usable(more, s.returned[i]) {
      assert Usable(s.minted, s.returned[i]);
    }
  }

  lemma MintedKeeps(env: Env, s: State, p: nat, m: Mint)
    requires DataInv(env, s) && p in s.processes && s.processes[p].Refreshing? && m.call == p && m.at == s.now
    ensures DataInv(env, OnMinted(s, p, m))
  {
    MintingKeeps(env, s, s.minted + {m});
    assert GoodProcess(env, s.minted, p, s.processes[p]);
    assert m in s.minted + {m};
  }

  lemma ReturnKeeps(env: Env, s: State, p: nat, token: string)
    requires DataInv(env, s) && Usable(s.minted, Returned(p, SHARED_USER, token, s.now))
    ensures DataInv(env, Return(s, p, SHARED_USER, token))
  {
  }

  lemma DataStep(env: Env, s: State, step: Step)
    requires DataInv(env, s) && Enabled(env, s, step)
    ensures DataInv(env, Apply(env, s, step))
  {
    if step.Minted? {
      MintedKeeps(env, s, step.p, Mint(step.p, step.token, s.now, step.expiresIn));
    } else if step.UseStored? {
      assert GoodProcess(env, s.minted, step.p, s.processes[step.p]);
      ReturnKeeps(env, s, step.p, s.processes[step.p].data.access);
    } else if step.Write? {
      var c := s.processes[step.p];
      assert GoodProcess(env, s.minted, step.p, c);
      ReturnKeeps(env, Store(s, step.p, c.user, c.data), step.p, c.data.access);
    } else if step.NeedRefresh? {
      assert GoodProcess(env, s.minted, step.p, s.processes[step.p]);
    }
  }

  lemma IdsStep(env: Env, s: State, step: Step)
    requires IdsInv(s) && Enabled(env, s, step)
    ensures IdsInv(Apply(env, s, step))
  {
  }

  lemma {:induction false} RunKeeps(env: Env, s: State, steps: seq<Step>)
    requires Inv(env, s) && CanRun(env, s, steps)
    ensures Inv(env, Run(env, s, steps))
    decreases |steps|
  {
    if steps != [] {
      DataStep(env, s, steps[0]);
      IdsStep(env, s, steps[0]);
      RunKeeps(env, Apply(env, s, steps[0]), steps[1..]);
    }
  }

  // -------------------------------------------------------------------- theorems

  ghost predicate Reachable(env: Env, start: Time, steps: seq<Step>) {
    start >= 0.0 && CanRun(env, Initial(start), steps)
  }

  ghost function Reached(env: Env, start: Time, steps: seq<Step>): State
    requires Reachable(env, start, steps)
  {
    Run(env, Initial(start), steps)
  }

  lemma ReachedKeeps(env: Env, start: Time, steps: seq<Step>)
    requires Reachable(env, start, steps)
    ensures Inv(env, Reached(env, start, steps))
  {
    RunKeeps(env, Initial(start), steps);
  }

  /** In every interleaving the stored refresh token decrypts to the configured one, and no other is ever presented. */
  lemma RefreshTokenSurvives(env: Env, start: Time, steps: seq<Step>)
    requires Reachable(env, start, steps)
    ensures
      var s := Reached(env, start, steps);
      && (forall user <- s.stored :: env.decrypt(s.stored[user].refreshEnc) == env.refreshToken)
      && (forall t <- s.presented :: t == env.refreshToken)
  {
    ReachedKeeps(env, start, steps);
  }

  /**
    Every returned token was issued by Google, never the placeholder: either to
    this very call, which is issued but one, or with an expiry that lay more than
    a minute ahead when the call returned it.
   */
  lemma ReturnedTokenIsUsable(env: Env, start: Time, steps: seq<Step>, i: nat)
    requires Reachable(env, start, steps) && i < |Reached(env, start, steps).returned|
    ensures
      var s := Reached(env, start, steps);
      var r := s.returned[i];
      && (exists m <- s.minted ::
            m.token == r.token && (m.call == r.call || MinuteLeft(ExpiryOf(m), r.at)))
      && (forall m, n | m in s.minted && n in s.minted && m.call == n.call :: m == n)
      && (forall j | 0 <= j < |s.returned| && j != i :: s.returned[j].call != r.call)
  {
    ReachedKeeps(env, start, steps);
    var s := Reached(env, start, steps);
    assert Usable(s.minted, s.returned[i]);
  }

  /**
    Nobody but the shared user is ever authorized: no other record is written, and
    no call for another returns a token.
   */
  lemma OnlyTheSharedUserIsAuthorized(env: Env, start: Time, steps: seq<Step>)
    requires Reachable(env, start, steps)
    ensures
      var s := Reached(env, start, steps);
      s.stored.Keys <= {"google:shared"} && forall i | 0 <= i < |s.returned| :: s.returned[i].user == "google:shared"
  {
    ReachedKeeps(env, start, steps);
  }

  /** Any process can go on from where it is, and can fail. */
  lemma AnyProcessCanGoOn(env: Env, s: State, p: nat, user: string, enc: string)
    ensures p !in s.used ==> Enabled(env, s, Read(p, user))
    ensures p !in s.used && env.refreshToken != "" ==> Enabled(env, s, SeedCheck(p))
    ensures p in s.processes ==>
            && Enabled(env, s, Fail(p))
            && match s.processes[p]
               case Seeding => env.decrypt(enc) == env.refreshToken ==> Enabled(env, s, SeedWrite(p, enc))
               case HasRead(_, _) => Enabled(env, s, UseStored(p)) || Enabled(env, s, NeedRefresh(p))
               case Refreshing(_, _) => forall token, expiresIn :: Enabled(env, s, Minted(p, token, expiresIn))
               case Writing(_, _) => Enabled(env, s, Write(p))
  {
  }

  // ------------------------------------------------- which token later calls are given

  /** The steps that write the shared record. */
  predicate Overwrites(step: Step) {
    step.SeedWrite? || step.Write?
  }

  /** A process that is over never writes again. */
  lemma {:induction false} NeverAgain(env: Env, s: State, steps: seq<Step>, p: nat)
    requires Inv(env, s) && CanRun(env, s, steps) && Over(s, p)
    requires SHARED_USER in s.writer && s.writer[SHARED_USER] != p
    ensures var t := Run(env, s, steps); SHARED_USER in t.writer && t.writer[SHARED_USER] != p
    decreases |steps|
  {
    if steps != [] {
      DataStep(env, s, steps[0]);
      IdsStep(env, s, steps[0]);
      if steps[0].Write? { assert GoodProcess(env, s.minted, steps[0].p, s.processes[steps[0].p]); }
      NeverAgain(env, Apply(env, s, steps[0]), steps[1..], p);
    }
  }

  /** A record stays as it was written exactly until the next write. */
  lemma {:induction false} StaysUntilOverwritten(env: Env, s: State, steps: seq<Step>)
    requires Inv(env, s) && CanRun(env, s, steps) && SHARED_USER in s.stored
    ensures
      var t := Run(env, s, steps);
      && SHARED_USER in t.stored && SHARED_USER in t.writer
      && (t.writer[SHARED_USER] == s.writer[SHARED_USER] <==> forall x <- steps :: !Overwrites(x))
      && ((forall x <- steps :: !Overwrites(x)) ==> t.stored[SHARED_USER] == s.stored[SHARED_USER])
    decreases |steps|
  {
    if steps != [] {
      var step, t := steps[0], Apply(env, s, steps[0]);
      DataStep(env, s, step);
      IdsStep(env, s, step);
      if step.Write? { assert GoodProcess(env, s.minted, step.p, s.processes[step.p]); }
      StaysUntilOverwritten(env, t, steps[1..]);
      assert steps == [step] + steps[1..];
      if Overwrites(step) { NeverAgain(env, t, steps[1..], s.writer[SHARED_USER]); }
    }
  }

  /** `q` takes no part in `steps`. */
  predicate WithoutCall(steps: seq<Step>, q: nat) {
    forall step <- steps :: step.Tick? || step.p != q
  }

  /** A call goes by what it read, whatever others do before it looks at the clock. */
  lemma {:induction false} KeepsWhatItRead(env: Env, s: State, steps: seq<Step>, q: nat)
    requires CanRun(env, s, steps) && q in s.processes && WithoutCall(steps, q)
    ensures q in Run(env, s, steps).processes && Run(env, s, steps).processes[q] == s.processes[q]
    decreases |steps|
  {
    if steps != [] {
      assert steps[0] in steps && forall x <- steps[1..] :: x in steps;
      KeepsWhatItRead(env, Apply(env, s, steps[0]), steps[1..], q);
    }
  }

  /** The call `q` will be answered with the token of `data`, without a request to Google. */
  ghost predicate AnswersWith(env: Env, u: State, q: nat, data: TokenData) {
    && Enabled(env, u, UseStored(q)) && !Enabled(env, u, NeedRefresh(q))
    && var v := Apply(env, u, UseStored(q));
    && v.returned == u.returned + [Returned(q, SHARED_USER, data.access, u.now)]
    && v.presented == u.presented && v.minted == u.minted && v.stored == u.stored
  }

  /**
    What one call renews the next ones share.  After the write of `p`, `steps`
    happen; then `q` reads the store, `more` happens, and `q` looks at the clock.
    The record `q` has read is the one `p` wrote if and only if `steps` contain no
    other write, of a seeder or of another refresh; and then `q` returns the token
    of `p`, without asking Google, exactly if more than a minute is left of it.
   */
  lemma RenewedTokenIsShared(
      env: Env, start: Time, before: seq<Step>, p: nat, steps: seq<Step>, q: nat, more: seq<Step>)
    requires Reachable(env, start, before) && Enabled(env, Reached(env, start, before), Write(p))
    requires
      var s := Apply(env, Reached(env, start, before), Write(p));
      && CanRun(env, s, steps) && q !in Run(env, s, steps).used
      && CanRun(env, Apply(env, Run(env, s, steps), Read(q, SHARED_USER)), more) && WithoutCall(more, q)
    ensures
      var data := Reached(env, start, before).processes[p].data;
      var t := Run(env, Apply(env, Reached(env, start, before), Write(p)), steps);
      var u := Run(env, Apply(env, t, Read(q, SHARED_USER)), more);
      && SHARED_USER in t.writer && (t.writer[SHARED_USER] == p <==> forall x <- steps :: !Overwrites(x))
      && ((forall x <- steps :: !Overwrites(x)) ==>
            if MinuteLeft(data.expiresAt, u.now) then AnswersWith(env, u, q, data)
            else Enabled(env, u, NeedRefresh(q)) && !Enabled(env, u, UseStored(q)))
  {
    var s0 := Reached(env, start, before);
    var s := Apply(env, s0, Write(p));
    ReachedKeeps(env, start, before);
    DataStep(env, s0, Write(p));
    IdsStep(env, s0, Write(p));
    assert GoodProcess(env, s0.minted, p, s0.processes[p]);
    StaysUntilOverwritten(env, s, steps);
    KeepsWhatItRead(env, Apply(env, Run(env, s, steps), Read(q, SHARED_USER)), more, q);
  }

  /**
    After the write of a seeder, and until another write, every call that reads
    the store must ask Google, however long it has been.
   */
  lemma SeededTokenIsRefreshed(
      env: Env, start: Time, before: seq<Step>, p: nat, enc: string, steps: seq<Step>, q: nat,
      more: seq<Step>)
    requires Reachable(env, start, before) && Enabled(env, Reached(env, start, before), SeedWrite(p, enc))
    requires
      var s := Apply(env, Reached(env, start, before), SeedWrite(p, enc));
      && CanRun(env, s, steps) && q !in Run(env, s, steps).used && (forall x <- steps :: !Overwrites(x))
      && CanRun(env, Apply(env, Run(env, s, steps), Read(q, SHARED_USER)), more) && WithoutCall(more, q)
    ensures
      var t := Run(env, Apply(env, Reached(env, start, before), SeedWrite(p, enc)), steps);
      var u := Run(env, Apply(env, t, Read(q, SHARED_USER)), more);
      Enabled(env, u, NeedRefresh(q)) && !Enabled(env, u, UseStored(q))
  {
    var s0 := Reached(env, start, before);
    var s := Apply(env, s0, SeedWrite(p, enc));
    ReachedKeeps(env, start, before);
    DataStep(env, s0, SeedWrite(p, enc));
    IdsStep(env, s0, SeedWrite(p, enc));
    StaysUntilOverwritten(env, s, steps);
    var r := Apply(env, Run(env, s, steps), Read(q, SHARED_USER));
    KeepsWhatItRead(env, r, more, q);
    RunKeeps(env, s, steps);
    DataStep(env, Run(env, s, steps), Read(q, SHARED_USER));
    IdsStep(env, Run(env, s, steps), Read(q, SHARED_USER));
    RunKeeps(env, r, more);
  }

  // ----------------------------------------- when a renewed token is sure to be shared

  /** A call that will not go to Google while `data` is good. */
  predicate Harmless(c: Process, data: TokenData) {
    c.HasRead? && c.data.expiresAt >= data.expiresAt
  }

  /**
    Nobody else is seeding or refreshing, or has read a record that goes stale
    before the one `p` is about to write.
   */
  ghost predicate Alone(s: State, p: nat)
    requires p in s.processes && s.processes[p].Writing?
  {
    forall r <- s.processes | r != p :: Harmless(s.processes[r], s.processes[p].data)
  }

  ghost predicate Undisturbed(s: State, data: TokenData) {
    && SHARED_USER in s.stored && s.stored[SHARED_USER] == data
    && (forall r <- s.processes :: Harmless(s.processes[r], data))
  }

  lemma UndisturbedStep(env: Env, s: State, step: Step, data: TokenData)
    requires Undisturbed(s, data) && DataInv(env, s) && Enabled(env, s, step) && StillGood(data, s.now)
    ensures Undisturbed(Apply(env, s, step), data) && !Overwrites(step)
  {
    if !step.Tick? { assert step.p in s.processes ==> Harmless(s.processes[step.p], data); }
  }

  lemma {:induction false} UndisturbedRun(env: Env, s: State, steps: seq<Step>, data: TokenData)
    requires Undisturbed(s, data) && Inv(env, s) && CanRun(env, s, steps) && StillGood(data, Run(env, s, steps).now)
    ensures Undisturbed(Run(env, s, steps), data) && s.now <= Run(env, s, steps).now
    ensures forall x <- steps :: !Overwrites(x)
    decreases |steps|
  {
    RunLater(env, s, steps);
    if steps != [] {
      UndisturbedStep(env, s, steps[0], data);
      DataStep(env, s, steps[0]);
      IdsStep(env, s, steps[0]);
      UndisturbedRun(env, Apply(env, s, steps[0]), steps[1..], data);
    }
  }

  lemma {:induction false} RunLater(env: Env, s: State, steps: seq<Step>)
    requires CanRun(env, s, steps)
    ensures s.now <= Run(env, s, steps).now
    decreases |steps|
  {
    if steps != [] { RunLater(env, Apply(env, s, steps[0]), steps[1..]); }
  }

  /**
    If the writer is alone, its token is what the store holds, and so what every
    call returns, in every run for as long as the token is good.
   */
  lemma TokenOfALoneWriterIsKept(env: Env, start: Time, before: seq<Step>, p: nat, steps: seq<Step>)
    requires Reachable(env, start, before) && Enabled(env, Reached(env, start, before), Write(p))
    requires Alone(Reached(env, start, before), p)
    requires
      var s := Apply(env, Reached(env, start, before), Write(p));
      && CanRun(env, s, steps)
      && MinuteLeft(Reached(env, start, before).processes[p].data.expiresAt, Run(env, s, steps).now)
    ensures
      var t := Run(env, Apply(env, Reached(env, start, before), Write(p)), steps);
      && (forall x <- steps :: !Overwrites(x))
      && SHARED_USER in t.stored && t.stored[SHARED_USER] == Reached(env, start, before).processes[p].data
  {
    var s0 := Reached(env, start, before);
    ReachedKeeps(env, start, before);
    DataStep(env, s0, Write(p));
    IdsStep(env, s0, Write(p));
    assert GoodProcess(env, s0.minted, p, s0.processes[p]);
    UndisturbedRun(env, Apply(env, s0, Write(p)), steps, s0.processes[p].data);
  }

  lemma RunThen(env: Env, s: State, steps: seq<Step>, step: Step)
    requires CanRun(env, s, steps) && Enabled(env, Run(env, s, steps), step)
    ensures CanRun(env, s, steps + [step]) && Run(env, s, steps + [step]) == Apply(env, Run(env, s, steps), step)
    decreases |steps|
  {
    if steps == [] {
      assert CanRun(env, Apply(env, s, step), []);
      assert steps + [step] == [step] && [step][1..] == [];
    } else {
      assert (steps + [step])[0] == steps[0] && (steps + [step])[1..] == steps[1..] + [step];
      RunThen(env, Apply(env, s, steps[0]), steps[1..], step);
    }
  }

  /** What another process can go on to do while `data` is good: overwrite it. */
  lemma Disturb(env: Env, s: State, r: nat, data: TokenData, enc: string) returns (steps: seq<Step>)
    requires r in s.processes && !Harmless(s.processes[r], data) && StillGood(data, s.now) && s.now >= 0.0
    requires s.processes[r].Seeding? || s.processes[r].user == SHARED_USER
    requires env.decrypt(enc) == env.refreshToken
    ensures CanRun(env, s, steps) && StillGood(data, Run(env, s, steps).now) && exists x <- steps :: Overwrites(x)
    ensures SHARED_USER in Run(env, s, steps).stored
    ensures s.processes[r] == Writing(SHARED_USER, data) || Run(env, s, steps).stored[SHARED_USER] != data
  {
    var token := data.access + "x";
    steps := [];
    var last := if s.processes[r].Seeding? then SeedWrite(r, enc) else Write(r);
    if s.processes[r].HasRead? {
      var stale := s.processes[r].data.expiresAt - REFRESH_MARGIN_SECONDS;
      RunThen(env, s, [], Tick(if stale <= s.now then 0.0 else stale - s.now));
      steps := [] + [Tick(if stale <= s.now then 0.0 else stale - s.now)];
      RunThen(env, s, steps, NeedRefresh(r));
      steps := steps + [NeedRefresh(r)];
    }
    if s.processes[r].HasRead? || s.processes[r].Refreshing? {
      RunThen(env, s, steps, Minted(r, token, None));
      steps := steps + [Minted(r, token, None)];
    }
    RunThen(env, s, steps, last);
    steps := steps + [last];
    assert last in steps;
  }

  /**
    And only then: if the writer is not alone, some run overwrites its token while
    it is still good, and later calls see another record, unless Google has issued
    the very same token twice.
   */
  lemma TokenOfADisturbedWriterIsLost(env: Env, start: Time, before: seq<Step>, p: nat, enc: string)
    returns (steps: seq<Step>)
    requires Reachable(env, start, before) && Enabled(env, Reached(env, start, before), Write(p))
    requires
      var s := Reached(env, start, before);
      !Alone(s, p) && MinuteLeft(s.processes[p].data.expiresAt, s.now) && env.decrypt(enc) == env.refreshToken
    ensures
      var s := Apply(env, Reached(env, start, before), Write(p));
      && CanRun(env, s, steps)
      && MinuteLeft(Reached(env, start, before).processes[p].data.expiresAt, Run(env, s, steps).now)
      && var data, t := Reached(env, start, before).processes[p].data, Run(env, s, steps);
      && SHARED_USER in t.writer && t.writer[SHARED_USER] != p && SHARED_USER in t.stored
      && (t.stored[SHARED_USER] != data || exists r <- s.processes :: s.processes[r] == Writing(SHARED_USER, data))
  {
    var s0 := Reached(env, start, before);
    var s := Apply(env, s0, Write(p));
    ReachedKeeps(env, start, before);
    DataStep(env, s0, Write(p));
    IdsStep(env, s0, Write(p));
    assert GoodProcess(env, s0.minted, p, s0.processes[p]);
    var r :| r in s0.processes && r != p && !Harmless(s0.processes[r], s0.processes[p].data);
    assert GoodProcess(env, s0.minted, r, s0.processes[r]) && r in s.processes;
    steps := Disturb(env, s, r, s0.processes[p].data, enc);
    StaysUntilOverwritten(env, s, steps);
  }

  /**
    It happens from the start: of two processes that found nothing stored, one
    seeds, a call renews the token, and then the other seeds over it.  A call at
    that very instant must go to Google again.
   */
  lemma LateSeederUndoesRenewal(env: Env, enc: string, token: string) returns (steps: seq<Step>)
    requires env.refreshToken != "" && env.decrypt(enc) == env.refreshToken
    ensures CanRun(env, Initial(0.0), steps)
    ensures
      var s := Run(env, Initial(0.0), steps);
      && s.now == 0.0 && s.minted == {Mint(3, token, 0.0, None)}
      && s.returned == [Returned(3, SHARED_USER, token, 0.0)]
      && Enabled(env, s, NeedRefresh(4)) && !Enabled(env, s, UseStored(4))
  {
    steps := RenewedBesideASeeder(env, enc, token);
    RunThen(env, Initial(0.0), steps, SeedWrite(2, enc));
    steps := steps + [SeedWrite(2, enc)];
    RunThen(env, Initial(0.0), steps, Read(4, SHARED_USER));
    steps := steps + [Read(4, SHARED_USER)];
  }

  lemma TwoSeeders(env: Env, enc: string) returns (steps: seq<Step>)
    requires env.refreshToken != "" && env.decrypt(enc) == env.refreshToken
    ensures CanRun(env, Initial(0.0), steps)
    ensures Run(env, Initial(0.0), steps) == State(0.0, map[SHARED_USER := Placeholder(enc)], map[2 := Seeding],
                                                   {1, 2}, map[SHARED_USER := 1], {}, {}, [])
  {
    steps := [];
    RunThen(env, Initial(0.0), steps, SeedCheck(1));
    steps := steps + [SeedCheck(1)];
    RunThen(env, Initial(0.0), steps, SeedCheck(2));
    steps := steps + [SeedCheck(2)];
    RunThen(env, Initial(0.0), steps, SeedWrite(1, enc));
    steps := steps + [SeedWrite(1, enc)];
  }

  lemma RefreshingBesideASeeder(env: Env, enc: string) returns (steps: seq<Step>)
    requires env.refreshToken != "" && env.decrypt(enc) == env.refreshToken
    ensures CanRun(env, Initial(0.0), steps)
    ensures
      var s := Run(env, Initial(0.0), steps);
      && s.now == 0.0 && s.processes == map[2 := Seeding, 3 := Refreshing(SHARED_USER, Placeholder(enc))]
      && s.used == {1, 2, 3} && s.minted == {} && s.returned == []
  {
    steps := TwoSeeders(env, enc);
    RunThen(env, Initial(0.0), steps, Read(3, SHARED_USER));
    steps := steps + [Read(3, SHARED_USER)];
    RunThen(env, Initial(0.0), steps, NeedRefresh(3));
    steps := steps + [NeedRefresh(3)];
  }

  lemma RenewedBesideASeeder(env: Env, enc: string, token: string) returns (steps: seq<Step>)
    requires env.refreshToken != "" && env.decrypt(enc) == env.refreshToken
    ensures CanRun(env, Initial(0.0), steps)
    ensures
      var s := Run(env, Initial(0.0), steps);
      && s.now == 0.0 && s.processes == map[2 := Seeding] && 4 !in s.used
      && s.minted == {Mint(3, token, 0.0, None)} && s.returned == [Returned(3, SHARED_USER, token, 0.0)]
  {
    steps := RefreshingBesideASeeder(env, enc);
    RunThen(env, Initial(0.0), steps, Minted(3, token, None));
    steps := steps + [Minted(3, token, None)];
    RunThen(env, Initial(0.0), steps, Write(3));
    steps := steps + [Write(3)];
  }

  // ------------------------------------------------------------ the code itself

  lemma LastIsUsable(env: Env, start: Time, trace: seq<Step>)
    requires Reachable(env, start, trace)
    ensures
      var s := Reached(env, start, trace);
      s.returned != [] ==> Usable(s.minted, s.returned[|s.returned| - 1])
  {
    ReachedKeeps(env, start, trace);
  }

  lemma NotUnderWay(env: Env, start: Time, trace: seq<Step>, p: nat)
    requires Reachable(env, start, trace) && p !in Reached(env, start, trace).used
    ensures p !in Reached(env, start, trace).processes
  {
    ReachedKeeps(env, start, trace);
  }

  /** Only the configured refresh token is decrypted from a record. */
  lemma StoredIsGood(env: Env, start: Time, trace: seq<Step>, user: string)
    requires Reachable(env, start, trace) && user in Reached(env, start, trace).stored
    ensures user == SHARED_USER
    ensures env.decrypt(Reached(env, start, trace).stored[user].refreshEnc) == env.refreshToken
  {
    ReachedKeeps(env, start, trace);
  }

  datatype GoogleReply = Tokens(access: string, expiresIn: Option<Time>) | Revoked | HttpError

  datatype CallResult = Token(token: string) | NotAuthorized | RefreshRevoked | UpstreamError

  /** One caller at a time; every method performs a run of the steps above. */
  class Gateway {
    const env: Env
    var s: State
    ghost const start: Time
    ghost var trace: seq<Step>

    ghost predicate Valid()
      reads this
    {
      Reachable(env, start, trace) && s == Reached(env, start, trace)
    }

    constructor (env: Env, now: Time)
      requires now >= 0.0
      ensures Valid() && this.env == env && s == Initial(now)
    {
      this.env := env;
      s := Initial(now);
      start := now;
      trace := [];
    }

    method Do(step: Step)
      requires Valid() && Enabled(env, s, step)
      modifies this
      ensures Valid() && s == Apply(env, old(s), step) && trace == old(trace) + [step]
    {
      RunThen(env, Initial(start), trace, step);
      s := Apply(env, s, step);
      trace := trace + [step];
    }

    /**
      `seed_shared_token_if_absent` by the process `p`; `enc` is what encrypting the
      token gave.  Afterwards there is a record with the configured refresh token;
      one that was there already is untouched, and a new one is good for nothing
      but to be refreshed, at any time.
     */
    method SeedIfAbsent(p: nat, enc: string)
      requires Valid() && p !in s.used && (env.refreshToken != "" ==> env.decrypt(enc) == env.refreshToken)
      modifies this
      ensures Valid() && old(trace) <= trace
      ensures SHARED_USER in old(s.stored) || env.refreshToken == "" ==> s.stored == old(s.stored)
      ensures env.refreshToken != "" ==> SHARED_USER in s.stored
      ensures SHARED_USER in s.stored ==> env.decrypt(s.stored[SHARED_USER].refreshEnc) == env.refreshToken
      ensures SHARED_USER !in old(s.stored) && SHARED_USER in s.stored ==>
                && s.stored[SHARED_USER].access == "" && s.stored[SHARED_USER].expiresAt == 0.0
                && forall later | later >= s.now :: !MinuteLeft(s.stored[SHARED_USER].expiresAt, later)
      ensures s.minted == old(s.minted) && s.returned == old(s.returned) && s.processes == old(s.processes)
    {
      if env.refreshToken != "" {
        ReachedKeeps(env, start, trace);
        var found := SHARED_USER in s.stored;
        Do(SeedCheck(p));
        if !found {
          Do(SeedWrite(p, enc));
        }
      }
      RefreshTokenSurvives(env, start, trace);
      ReachedKeeps(env, start, trace);
    }

    /** The record of `user` makes a request to Google unnecessary. */
    ghost predicate Cached(user: string)
      reads this
    {
      user in s.stored && MinuteLeft(s.stored[user].expiresAt, s.now)
    }

    /**
      `get_valid_google_token` by the call `p`; `reply` is what Google would answer.
      A token it returns is usable and is the one stored from then on, beside the
      same refresh token as before.
     */
    method GetValidGoogleToken(p: nat, user: string, reply: GoogleReply) returns (r: CallResult)
      requires Valid() && p !in s.used
      modifies this
      ensures Valid() && old(trace) <= trace && s.now == old(s.now) && p !in s.processes
      ensures r.NotAuthorized? <==> user != SHARED_USER || SHARED_USER !in old(s.stored)
      ensures r.Token? ==> s.returned == old(s.returned) + [Returned(p, SHARED_USER, r.token, s.now)]
      ensures r.Token? ==> Usable(s.minted, Returned(p, SHARED_USER, r.token, s.now))
      ensures r.Token? ==>
                && user in s.stored && s.stored[user].access == r.token
                && user in old(s.stored) && s.stored[user].refreshEnc == old(s.stored)[user].refreshEnc
      ensures !r.Token? ==> s.returned == old(s.returned) && s.stored == old(s.stored) && s.minted == old(s.minted)
      ensures old(Cached(user)) ==> r.Token? && s.stored == old(s.stored) && s.presented == old(s.presented)
      ensures r.Token? && !old(Cached(user)) ==>
                && reply.Tokens? && r.token == reply.access
                && s.stored[user].expiresAt ==
                   s.now + match reply.expiresIn { case Some(seconds) => seconds case None => 3600.0 }
      ensures r.RefreshRevoked? || r.UpstreamError? || (r.Token? && !old(Cached(user))) ==>
                env.refreshToken in s.presented && (r.Token? <==> reply.Tokens?)
                    && (r.RefreshRevoked? <==> reply.Revoked?)
    {
      NotUnderWay(env, start, trace, p);
      var found := user in s.stored;
      if found { StoredIsGood(env, start, trace, user); }
      Do(Read(p, user));
      if !found { return NotAuthorized; }
      var data := s.processes[p].data;
      if StillGood(data, s.now) {
        Do(UseStored(p));
        r := Token(data.access);
      } else {
        Do(NeedRefresh(p));
        r := Refresh(p, reply);
      }
      LastIsUsable(env, start, trace);
    }

    /** From Google's reply on. */
    method Refresh(p: nat, reply: GoogleReply) returns (r: CallResult)
      requires Valid() && p in s.processes && s.processes[p].Refreshing?
      modifies this
      ensures Valid() && old(trace) <= trace && s.now == old(s.now) && s.presented == old(s.presented)
      ensures p !in s.processes
      ensures r.Token? <==> reply.Tokens?
      ensures r.RefreshRevoked? <==> reply.Revoked?
      ensures !r.NotAuthorized?
      ensures r.Token? ==>
                var c := old(s.processes[p]);
                && c.user in s.stored && s.stored == old(s.stored)[c.user := s.stored[c.user]]
                && s.stored[c.user].access == r.token && s.stored[c.user].refreshEnc == c.data.refreshEnc
                && r.token == reply.access
                && s.stored[c.user].expiresAt ==
                   s.now + (match reply.expiresIn { case Some(seconds) => seconds case None => 3600.0 })
                && s.returned == old(s.returned) + [Returned(p, c.user, r.token, s.now)]
      ensures !r.Token? ==> s.stored == old(s.stored) && s.returned == old(s.returned) && s.minted == old(s.minted)
    {
      if reply.Tokens? {
        Do(Minted(p, reply.access, reply.expiresIn));
        Do(Write(p));
        r := Token(reply.access);
      } else {
        Do(Step.Fail(p));
        r := if reply.Revoked? then RefreshRevoked else UpstreamError;
      }
    }
  }
}
