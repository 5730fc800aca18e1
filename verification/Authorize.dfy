/**
  The authorization endpoint and its cache of client registrations, with any
  number of requests in flight: cache lookup, metadata fetch, enrolment and
  cache write are separate steps.
 */
module Authorize {
  import opened Wrappers
  import opened Expiry
  import opened Pkce

  const CLIENT_REGISTRY_TTL: Time := 86400.0

  type Params = map<string, string>

  function Param(params: Params, name: string): Option<string> {
    if name in params then Some(params[name]) else None
  }

  predicate Present(params: Params, name: string) {
    name in params && params[name] != ""
  }

  /** `_authorize_params_valid`: the error description, or None. */
  function ParamsError(params: Params): Option<string> {
    if !Present(params, "client_id") then Some("client_id is required")
    else if Param(params, "response_type") != Some("code") then Some("response_type must be code")
    else if !Present(params, "redirect_uri") then Some("redirect_uri is required")
    else if !Present(params, "state") then Some("state is required")
    else ValidatePkce(Param(params, "code_challenge"), Param(params, "code_challenge_method"))
  }

  /** What a request must carry before anything else is looked at. */
  lemma ParamsErrorIsExact(params: Params)
    ensures ParamsError(params).None? <==>
            && "client_id" in params && params["client_id"] != ""
            && "response_type" in params && params["response_type"] == "code"
            && "redirect_uri" in params && params["redirect_uri"] != ""
            && "state" in params && params["state"] != ""
            && "code_challenge" in params && |params["code_challenge"]| == 43
            && (forall c <- params["code_challenge"] ::
                  'A' <= c <= 'Z' || 'a' <= c <= 'z' || '0' <= c <= '9' || c == '-' || c == '_')
            && "code_challenge_method" in params
            && var m := params["code_challenge_method"];
            && (m == "S256" || m == "s256" || m == "\U{017F}256")
  {
    ValidatePkceIsExact(Param(params, "code_challenge"), Param(params, "code_challenge_method"));
  }

  /** The description names the first thing that is missing or wrong. */
  lemma ParamsErrorIsNamed(params: Params)
    ensures
      var missing := (name: string) => name !in params || params[name] == "";
      var e := ParamsError(params);
      && (e == Some("client_id is required") <==> missing("client_id"))
      && (e == Some("response_type must be code") <==>
            !missing("client_id") && !("response_type" in params && params["response_type"] == "code"))
      && (e == Some("redirect_uri is required") <==>
            && !missing("client_id") && "response_type" in params && params["response_type"] == "code"
            && missing("redirect_uri"))
      && (e == Some("state is required") <==>
            && !missing("client_id") && "response_type" in params && params["response_type"] == "code"
            && !missing("redirect_uri") && missing("state"))
  {
    assert |"client_id is required"| == 21 && |"response_type must be code"| == 26;
    assert |"redirect_uri is required"| == 24 && |"state is required"| == 17;
    assert |"code_challenge is required"| == 26 && |"code_challenge_method is required"| == 33;
    assert |"only S256 is supported"| == 22 && |"code_challenge must be URL-safe base64"| == 38;
    assert "response_type must be code"[0] == 'r' && "code_challenge is required"[0] == 'c';
  }

  datatype RegisteredClient = RegisteredClient(clientId: string, clientSecret: string, redirectUris: seq<string>)

  /** A cached value: a registration (and the place of its save in the log), or text that does not decode. */
  datatype Cached = Saved(client: RegisteredClient, entry: nat) | Undecodable

  /** `invalid_request`, `invalid_client` or `server_error`, always answered locally. */
  datatype Failure = InvalidRequest | InvalidClient | ServerError

  datatype Phase =
    | LookingUp
    | Fetching
    | Enrolling(uris: seq<string>)
    | Saving(client: RegisteredClient)

  datatype Request = Request(params: Params, phase: Phase)

  /** A metadata document fetched by request `q`, and the redirect URIs in it. */
  datatype Fetch = Fetch(q: nat, url: string, uris: seq<string>)

  /** An enrolment made by request `q`: the redirect URIs enrolled, and the client id given for them. */
  datatype Enrolment = Enrolment(q: nat, uris: seq<string>, clientId: string)

  /** A registration written to the cache: by which request, and when. */
  datatype Save = Save(q: nat, url: string, client: RegisteredClient, at: Time)

  /**
    A redirect: of which request, what was asked, what is sent on, when, and by
    which save (None if the client id is no URL).
   */
  datatype Redirect = Redirect(q: nat, asked: Params, sent: Params, at: Time, entry: Option<nat>)

  /** `seen` are the requests that ever arrived: no two are the same. */
  datatype State = State(
    now: Time, registry: map<string, Cell<Cached>>, requests: map<nat, Request>, seen: set<nat>,
    fetched: set<Fetch>, enrolled: set<Enrolment>, saves: seq<Save>, redirects: seq<Redirect>, failures: seq<Failure>)

  datatype Step =
    | Tick(elapsed: Time)
    | Arrive(q: nat, params: Params)
    | LookUp(q: nat)
    | Fetched(q: nat, uris: seq<string>)
    | FetchFails(q: nat)
    | Enrolled(q: nat, clientId: string, clientSecret: string)
    | EnrolFails(q: nat)
    | Finish(q: nat)
    | Drop(q: nat)
    | Spoil(url: string)                      // somebody leaves text in the cache that does not decode

  function ClientId(params: Params): string {
    if "client_id" in params then params["client_id"] else ""
  }

  function RedirectUri(params: Params): string {
    if "redirect_uri" in params then params["redirect_uri"] else ""
  }

  predicate Enabled(isUrl: string -> bool, s: State, step: Step) {
    match step
    case Tick(dt) => dt >= 0.0
    case Arrive(q, _) => q !in s.seen
    case LookUp(q) => q in s.requests && s.requests[q].phase.LookingUp?
    case Fetched(q, _) => q in s.requests && s.requests[q].phase.Fetching?
    case FetchFails(q) => q in s.requests && s.requests[q].phase.Fetching?
    case Enrolled(q, _, _) => q in s.requests && s.requests[q].phase.Enrolling?
    case EnrolFails(q) => q in s.requests && s.requests[q].phase.Enrolling?
    case Finish(q) => q in s.requests && s.requests[q].phase.Saving?
    case Drop(q) => q in s.requests
    case Spoil(_) => true
  }

  /** `client_repository.get`: expired and undecodable values are misses. */
  function CacheGet(s: State, url: string): Option<Cached> {
    var found := Lookup(s.registry, url, s.now);
    if found.Some? && found.value.Saved? then found else None
  }

  function Fail(s: State, q: nat, f: Failure): State {
    s.(requests := s.requests - {q}, failures := s.failures + [f])
  }

  function Send(s: State, q: nat, asked: Params, clientId: string, entry: nat): State {
    s.(requests := s.requests - {q},
       redirects := s.redirects + [Redirect(q, asked, asked["client_id" := clientId], s.now, Some(entry))])
  }

  function Apply(isUrl: string -> bool, s: State, step: Step): State
    requires Enabled(isUrl, s, step)
  {
    match step
    case Tick(dt) => s.(now := s.now + dt)
    case Arrive(q, params) => OnArrive(isUrl, s.(seen := s.seen + {q}), q, params)
    case LookUp(q) => OnLookUp(s, q)
    case Fetched(q, uris) => OnFetched(s, q, uris)
    case FetchFails(q) => Fail(s, q, InvalidClient)
    case Enrolled(q, id, secret) => OnEnrolled(s, q, id, secret)
    case EnrolFails(q) => Fail(s, q, ServerError)
    case Finish(q) => OnFinish(s, q)
    case Drop(q) => s.(requests := s.requests - {q})
    case Spoil(url) => s.(registry := s.registry[url := Cell(Undecodable, None)])
  }

  /** The parameter check; a client id that is no URL is sent on as it is. */
  function OnArrive(isUrl: string -> bool, s: State, q: nat, params: Params): State {
    if ParamsError(params).Some? then s.(failures := s.failures + [InvalidRequest])
    else if !isUrl(ClientId(params)) then s.(redirects := s.redirects + [Redirect(q, params, params, s.now, None)])
    else s.(requests := s.requests[q := Request(params, LookingUp)])
  }

  function OnLookUp(s: State, q: nat): State
    requires q in s.requests
  {
    var r := s.requests[q];
    var cached := CacheGet(s, ClientId(r.params));
    if cached.None? || cached.value.Undecodable? then s.(requests := s.requests[q := r.(phase := Fetching)])
    else if RedirectUri(r.params) !in cached.value.client.redirectUris then Fail(s, q, InvalidRequest)
    else Send(s, q, r.params, cached.value.client.clientId, cached.value.entry)
  }

  function OnFetched(s: State, q: nat, uris: seq<string>): State
    requires q in s.requests
  {
    var r := s.requests[q];
    var s1 := s.(fetched := s.fetched + {Fetch(q, ClientId(r.params), uris)});
    if RedirectUri(r.params) !in uris then Fail(s1, q, InvalidRequest)
    else s1.(requests := s.requests[q := r.(phase := Enrolling(uris))])
  }

  function OnEnrolled(s: State, q: nat, id: string, secret: string): State
    requires q in s.requests && s.requests[q].phase.Enrolling?
  {
    var r := s.requests[q];
    s.(requests := s.requests[q := r.(phase := Saving(RegisteredClient(id, secret, r.phase.uris)))],
       enrolled := s.enrolled + {Enrolment(q, r.phase.uris, id)})
  }

  /** `client_repository.set`, then the redirect. */
  function OnFinish(s: State, q: nat): State
    requires q in s.requests && s.requests[q].phase.Saving?
  {
    var r := s.requests[q];
    var url, client := ClientId(r.params), r.phase.client;
    var s1 := s.(registry := s.registry[url := Cell(Saved(client, |s.saves|), Some(s.now + CLIENT_REGISTRY_TTL))],
                 saves := s.saves + [Save(q, url, client, s.now)]);
    Send(s1, q, r.params, client.clientId, |s.saves|)
  }

  predicate CanRun(isUrl: string -> bool, s: State, steps: seq<Step>)
    decreases |steps|
  {
    steps == [] || (Enabled(isUrl, s, steps[0]) && CanRun(isUrl, Apply(isUrl, s, steps[0]), steps[1..]))
  }

  function Run(isUrl: string -> bool, s: State, steps: seq<Step>): State
    requires CanRun(isUrl, s, steps)
    decreases |steps|
  {
    if steps == [] then s else Run(isUrl, Apply(isUrl, s, steps[0]), steps[1..])
  }

  function Initial(now: Time): State {
    State(now, map[], map[], {}, {}, {}, [], [], [])
  }

  // ------------------------------------------------------------------ invariants

  /**
    Every saved registration holds the redirect URIs its own request fetched from,
    and had enrolled for, the URL it is filed under.
   */
  ghost predicate SaveOk(s: State, e: Save) {
    && Fetch(e.q, e.url, e.client.redirectUris) in s.fetched
    && Enrolment(e.q, e.client.redirectUris, e.client.clientId) in s.enrolled
    && e.at <= s.now
    && e.q in s.seen && e.q !in s.requests
  }

  ghost predicate CellOk(s: State, url: string, c: Cell<Cached>) {
    c.value.Saved? ==>
      && c.value.entry < |s.saves|
      && var e := s.saves[c.value.entry];
      && e.url == url && e.client == c.value.client && c.expiry == Some(e.at + CLIENT_REGISTRY_TTL)
  }

  ghost predicate RequestOk(s: State, q: nat, r: Request) {
    && q in s.seen
    && match r.phase
       case Enrolling(uris) => Fetch(q, ClientId(r.params), uris) in s.fetched && RedirectUri(r.params) in uris
       case Saving(c) =>
         && Fetch(q, ClientId(r.params), c.redirectUris) in s.fetched && RedirectUri(r.params) in c.redirectUris
         && Enrolment(q, c.redirectUris, c.clientId) in s.enrolled
       case _ => true
  }

  /**
    The save a redirect relies on is for the client id asked and allows the
    redirect_uri asked; it was made by the very request, at that instant, or by
    another, at most one TTL before.
   */
  ghost predicate RestsOn(r: Redirect, e: Save) {
    && e.url == ClientId(r.asked) && RedirectUri(r.asked) in e.client.redirectUris
    && r.sent == r.asked["client_id" := e.client.clientId]
    && (if e.q == r.q then e.at == r.at else e.at <= r.at <= e.at + CLIENT_REGISTRY_TTL)
  }

  ghost predicate RedirectOk(s: State, r: Redirect) {
    if r.entry.Some? then r.entry.value < |s.saves| && RestsOn(r, s.saves[r.entry.value]) else r.sent == r.asked
  }

  /**
    Requests in flight and redirects made passed the parameter check; those with a
    URL for client id go by a registration.
   */
  ghost predicate CheckedInv(isUrl: string -> bool, s: State) {
    && (forall q <- s.requests :: ParamsError(s.requests[q].params).None? && isUrl(ClientId(s.requests[q].params)))
    && (forall i | 0 <= i < |s.redirects| ::
          && ParamsError(s.redirects[i].asked).None?
          && (isUrl(ClientId(s.redirects[i].asked)) <==> s.redirects[i].entry.Some?))
  }

  ghost predicate Inv(s: State) {
    && (forall i | 0 <= i < |s.saves| :: SaveOk(s, s.saves[i]))
    && (forall url <- s.registry :: CellOk(s, url, s.registry[url]))
    && (forall q <- s.requests :: RequestOk(s, q, s.requests[q]))
    && (forall i | 0 <= i < |s.redirects| :: RedirectOk(s, s.redirects[i]))
  }

  /** What has been fetched, enrolled and saved only grows, and a request that is over is not taken up again. */
  ghost predicate Extends(s: State, t: State) {
    && s.fetched <= t.fetched && s.enrolled <= t.enrolled && s.saves <= t.saves && s.now <= t.now && s.seen <= t.seen
    && (forall q <- t.requests :: q in s.requests || q !in s.seen)
  }

  lemma Kept(s: State, t: State)
    requires Inv(s) && Extends(s, t)
    ensures forall i | 0 <= i < |s.saves| :: SaveOk(t, s.saves[i])
    ensures forall url <- s.registry :: CellOk(t, url, s.registry[url])
    ensures forall q <- s.requests :: RequestOk(t, q, s.requests[q])
    ensures forall i | 0 <= i < |s.redirects| :: RedirectOk(t, s.redirects[i])
  {
  }

  lemma LookUpKeeps(isUrl: string -> bool, s: State, q: nat)
    requires Inv(s) && Enabled(isUrl, s, LookUp(q))
    ensures Inv(OnLookUp(s, q))
  {
    Kept(s, OnLookUp(s, q));
    assert RequestOk(s, q, s.requests[q]);
    if CacheGet(s, ClientId(s.requests[q].params)).Some? { HitIsSaved(s, q); }
  }

  /** What a look-up finds is a save of another request, at most one TTL old. */
  lemma HitIsSaved(s: State, q: nat)
    requires Inv(s) && q in s.requests && CacheGet(s, ClientId(s.requests[q].params)).Some?
    ensures
      var url := ClientId(s.requests[q].params);
      var cached := CacheGet(s, url).value;
      && cached.Saved? && cached.entry < |s.saves|
      && var e := s.saves[cached.entry];
      && e.url == url && e.client == cached.client && e.q != q && e.at <= s.now <= e.at + CLIENT_REGISTRY_TTL
  {
    var url := ClientId(s.requests[q].params);
    assert CellOk(s, url, s.registry[url]);
    assert SaveOk(s, s.saves[s.registry[url].value.entry]);
  }

  lemma FetchedKeeps(isUrl: string -> bool, s: State, q: nat, uris: seq<string>)
    requires Inv(s) && Enabled(isUrl, s, Fetched(q, uris))
    ensures Inv(OnFetched(s, q, uris))
  {
    Kept(s, OnFetched(s, q, uris));
    assert RequestOk(s, q, s.requests[q]);
  }

  lemma FinishKeeps(isUrl: string -> bool, s: State, q: nat)
    requires Inv(s) && Enabled(isUrl, s, Finish(q))
    ensures Inv(OnFinish(s, q))
  {
    var t := OnFinish(s, q);
    Kept(s, t);
    assert RequestOk(s, q, s.requests[q]);
    assert SaveOk(t, t.saves[|s.saves|]);
    assert RedirectOk(t, t.redirects[|s.redirects|]);
  }

  lemma ArriveKeeps(isUrl: string -> bool, s: State, q: nat, params: Params)
    requires Inv(s) && Enabled(isUrl, s, Arrive(q, params))
    ensures Inv(Apply(isUrl, s, Arrive(q, params)))
  {
    Kept(s, Apply(isUrl, s, Arrive(q, params)));
  }

  lemma EnrolledKeeps(isUrl: string -> bool, s: State, q: nat, id: string, secret: string)
    requires Inv(s) && Enabled(isUrl, s, Enrolled(q, id, secret))
    ensures Inv(OnEnrolled(s, q, id, secret))
  {
    Kept(s, OnEnrolled(s, q, id, secret));
    assert RequestOk(s, q, s.requests[q]);
  }

  /** Steps that end a request, pass time or spoil the cache add nothing that needs a reason. */
  lemma EndKeeps(s: State, t: State)
    requires Inv(s) && Extends(s, t) && t.saves == s.saves && t.redirects == s.redirects
    requires forall q <- t.requests :: q in s.requests && t.requests[q] == s.requests[q]
    requires forall url <- t.registry ::
               t.registry[url].value.Undecodable? || (url in s.registry && t.registry[url] == s.registry[url])
    ensures Inv(t)
  {
    Kept(s, t);
  }

  lemma StepKeeps(isUrl: string -> bool, s: State, step: Step)
    requires Inv(s) && Enabled(isUrl, s, step)
    ensures Inv(Apply(isUrl, s, step))
  {
    match step
    case Arrive(q, params) => ArriveKeeps(isUrl, s, q, params);
    case LookUp(q) => LookUpKeeps(isUrl, s, q);
    case Fetched(q, uris) => FetchedKeeps(isUrl, s, q, uris);
    case Enrolled(q, id, secret) => EnrolledKeeps(isUrl, s, q, id, secret);
    case Finish(q) => FinishKeeps(isUrl, s, q);
    case _ => EndKeeps(s, Apply(isUrl, s, step));
  }

  lemma CheckedStep(isUrl: string -> bool, s: State, step: Step)
    requires CheckedInv(isUrl, s) && Enabled(isUrl, s, step)
    ensures CheckedInv(isUrl, Apply(isUrl, s, step))
  {
    if !step.Arrive? { ContinuesStep(isUrl, s, step); }
  }

  /** No request is new or changes its parameters, and a redirect is what one of them asked. */
  ghost predicate Continues(s: State, t: State) {
    && (forall q <- t.requests :: q in s.requests && t.requests[q].params == s.requests[q].params)
    && s.redirects <= t.redirects
    && (forall i | |s.redirects| <= i < |t.redirects| ::
          && t.redirects[i].entry.Some? && t.redirects[i].q in s.requests
          && t.redirects[i].asked == s.requests[t.redirects[i].q].params)
  }

  lemma ContinuesStep(isUrl: string -> bool, s: State, step: Step)
    requires Enabled(isUrl, s, step) && !step.Arrive?
    ensures Continues(s, Apply(isUrl, s, step))
  {
  }

  lemma {:induction false} RunKeeps(isUrl: string -> bool, s: State, steps: seq<Step>)
    requires Inv(s) && CheckedInv(isUrl, s) && CanRun(isUrl, s, steps)
    ensures Inv(Run(isUrl, s, steps)) && CheckedInv(isUrl, Run(isUrl, s, steps))
    decreases |steps|
  {
    if steps != [] {
      StepKeeps(isUrl, s, steps[0]);
      CheckedStep(isUrl, s, steps[0]);
      RunKeeps(isUrl, Apply(isUrl, s, steps[0]), steps[1..]);
    }
  }

  // -------------------------------------------------------------------- theorems

  /** The state after `steps`, starting with an empty cache at `start`. */
  function Reached(isUrl: string -> bool, start: Time, steps: seq<Step>): State
    requires CanRun(isUrl, Initial(start), steps)
  {
    Run(isUrl, Initial(start), steps)
  }

  lemma ReachedKeeps(isUrl: string -> bool, start: Time, steps: seq<Step>)
    requires CanRun(isUrl, Initial(start), steps)
    ensures Inv(Reached(isUrl, start, steps)) && CheckedInv(isUrl, Reached(isUrl, start, steps))
  {
    RunKeeps(isUrl, Initial(start), steps);
  }

  /**
    In every interleaving, a redirect for a URL client id uses a redirect_uri
    from a metadata document fetched for that same client id, and changes nothing
    but client_id, to the id enrolled for those URIs.  Fetch, enrolment and save
    were made by this very request, the save at the instant of the redirect; or
    all by one other request, the save at most one TTL before.
   */
  lemma RedirectsAreRegistered(isUrl: string -> bool, start: Time, steps: seq<Step>, i: nat)
    requires CanRun(isUrl, Initial(start), steps)
    requires var s := Reached(isUrl, start, steps);
             && i < |s.redirects| && "client_id" in s.redirects[i].asked
             && isUrl(s.redirects[i].asked["client_id"])
    ensures
      var s := Reached(isUrl, start, steps);
      var r := s.redirects[i];
      && "redirect_uri" in r.asked
      && exists e <- s.saves ::
        && Fetch(e.q, r.asked["client_id"], e.client.redirectUris) in s.fetched
        && r.asked["redirect_uri"] in e.client.redirectUris
        && Enrolment(e.q, e.client.redirectUris, e.client.clientId) in s.enrolled
        && r.sent == r.asked["client_id" := e.client.clientId]
        && (if e.q == r.q then e.at == r.at else e.at <= r.at <= e.at + 86400.0)
  {
    ReachedKeeps(isUrl, start, steps);
    var s := Reached(isUrl, start, steps);
    ParamsErrorIsExact(s.redirects[i].asked);
    assert RedirectOk(s, s.redirects[i]);
    var e := s.saves[s.redirects[i].entry.value];
    assert SaveOk(s, e) && e in s.saves;
  }

  /**
    Every redirect is of a request that passes the parameter check, and sends on
    what was asked but for the client id of a URL client.
   */
  lemma RedirectsAreValidated(isUrl: string -> bool, start: Time, steps: seq<Step>, i: nat)
    requires CanRun(isUrl, Initial(start), steps) && i < |Reached(isUrl, start, steps).redirects|
    ensures
      var r := Reached(isUrl, start, steps).redirects[i];
      && ParamsError(r.asked).None?
      && "client_id" in r.asked && "client_id" in r.sent
      && r.sent == r.asked["client_id" := r.sent["client_id"]]
      && (!isUrl(r.asked["client_id"]) ==> r.sent == r.asked)
  {
    ReachedKeeps(isUrl, start, steps);
    var s := Reached(isUrl, start, steps);
    ParamsErrorIsExact(s.redirects[i].asked);
    assert RedirectOk(s, s.redirects[i]);
  }

  /** Any request can go on from where it is, its fetch and its enrolment can fail, and it can be given up. */
  lemma AnyRequestCanGoOn(isUrl: string -> bool, s: State, q: nat, params: Params)
    ensures q !in s.seen ==> Enabled(isUrl, s, Arrive(q, params))
    ensures q in s.requests ==>
            && Enabled(isUrl, s, Drop(q))
            && match s.requests[q].phase
               case LookingUp => Enabled(isUrl, s, LookUp(q))
               case Fetching => Enabled(isUrl, s, FetchFails(q)) && forall uris :: Enabled(isUrl, s, Fetched(q, uris))
               case Enrolling(_) =>
                 Enabled(isUrl, s, EnrolFails(q)) && forall id, secret :: Enabled(isUrl, s, Enrolled(q, id, secret))
               case Saving(_) => Enabled(isUrl, s, Finish(q))
    ensures forall url :: Enabled(isUrl, s, Spoil(url))
  {
  }

  // -------------------------------------------------- which registration decides later requests

  /** The step writes the cache under `url`. */
  predicate Files(s: State, step: Step, url: string) {
    step == Spoil(url) || (step.Finish? && step.q in s.requests && ClientId(s.requests[step.q].params) == url)
  }

  predicate NeverFiles(isUrl: string -> bool, s: State, steps: seq<Step>, url: string)
    requires CanRun(isUrl, s, steps)
    decreases |steps|
  {
    steps != [] ==> !Files(s, steps[0], url) && NeverFiles(isUrl, Apply(isUrl, s, steps[0]), steps[1..], url)
  }

  /** The cache under `url` holds the save at place `n` of the log, expired or not. */
  predicate Holds(s: State, url: string, n: nat) {
    url in s.registry && s.registry[url].value.Saved? && s.registry[url].value.entry == n
  }

  lemma FilesStep(isUrl: string -> bool, s: State, step: Step, url: string, n: nat)
    requires Enabled(isUrl, s, step) && n < |s.saves|
    ensures n < |Apply(isUrl, s, step).saves|
    ensures Holds(Apply(isUrl, s, step), url, n) <==> Holds(s, url, n) && !Files(s, step, url)
    ensures Holds(Apply(isUrl, s, step), url, n) ==> Apply(isUrl, s, step).registry[url] == s.registry[url]
  {
  }

  /** A save stays in the cache exactly until the next write under its URL. */
  lemma {:induction false} HeldUntilFiled(isUrl: string -> bool, s: State, steps: seq<Step>, url: string, n: nat)
    requires CanRun(isUrl, s, steps) && n < |s.saves|
    ensures
      var t := Run(isUrl, s, steps);
      && (Holds(t, url, n) <==> Holds(s, url, n) && NeverFiles(isUrl, s, steps, url))
      && (Holds(t, url, n) ==> t.registry[url] == s.registry[url])
    decreases |steps|
  {
    if steps != [] {
      FilesStep(isUrl, s, steps[0], url, n);
      HeldUntilFiled(isUrl, Apply(isUrl, s, steps[0]), steps[1..], url, n);
    }
  }

  /** The cache answers for `url` until `until`. */
  ghost predicate Answers(s: State, url: string, until: Time) {
    && url in s.registry && s.registry[url].value.Saved?
    && s.registry[url].expiry.Some? && until <= s.registry[url].expiry.value
  }

  lemma {:induction false} AnswersUntilSpoilt(
      isUrl: string -> bool, s: State, steps: seq<Step>, url: string, until: Time)
    requires CanRun(isUrl, s, steps) && Answers(s, url, until) && until <= s.now + CLIENT_REGISTRY_TTL
    requires Spoil(url) !in steps
    ensures Answers(Run(isUrl, s, steps), url, until)
    decreases |steps|
  {
    if steps != [] {
      assert steps[0] in steps && forall x <- steps[1..] :: x in steps;
      AnswersStep(isUrl, s, steps[0], url, until);
      AnswersUntilSpoilt(isUrl, Apply(isUrl, s, steps[0]), steps[1..], url, until);
    }
  }

  lemma AnswersStep(isUrl: string -> bool, s: State, step: Step, url: string, until: Time)
    requires Enabled(isUrl, s, step) && Answers(s, url, until) && until <= s.now + CLIENT_REGISTRY_TTL
    requires step != Spoil(url)
    ensures Answers(Apply(isUrl, s, step), url, until) && s.now <= Apply(isUrl, s, step).now
  {
  }

  /** Request `q` is answered from the save at place `n`, with `client`, without a fetch. */
  ghost predicate DecidedBy(t: State, q: nat, client: RegisteredClient, n: nat)
    requires q in t.requests
  {
    var params, u := t.requests[q].params, OnLookUp(t, q);
    && q !in u.requests && u.fetched == t.fetched && u.enrolled == t.enrolled
    && u.redirects == t.redirects +
         if RedirectUri(params) in client.redirectUris
         then [Redirect(q, params, params["client_id" := client.clientId], t.now, Some(n))] else []
  }

  /**
    The cache is used.  After `q` has saved its registration, `steps` happen, for
    at most one TTL; then `q2` looks up the same client id.  It finds the
    registration of `q` if and only if `steps` contain no other write under that
    client id; and unless somebody spoilt the cache it is decided without a fetch
    in any case.
   */
  lemma SavedRegistrationIsReused(
      isUrl: string -> bool, start: Time, before: seq<Step>, q: nat, steps: seq<Step>, q2: nat)
    requires CanRun(isUrl, Initial(start), before) && Enabled(isUrl, Reached(isUrl, start, before), Finish(q))
    requires
      var s := Reached(isUrl, start, before);
      && CanRun(isUrl, OnFinish(s, q), steps)
      && var t := Run(isUrl, OnFinish(s, q), steps);
      && t.now <= s.now + 86400.0
      && Enabled(isUrl, t, LookUp(q2)) && ClientId(t.requests[q2].params) == ClientId(s.requests[q].params)
    ensures
      var s := Reached(isUrl, start, before);
      var url, client := ClientId(s.requests[q].params), s.requests[q].phase.client;
      var t := Run(isUrl, OnFinish(s, q), steps);
      && (CacheGet(t, url) == Some(Saved(client, |s.saves|)) <==> NeverFiles(isUrl, OnFinish(s, q), steps, url))
      && (NeverFiles(isUrl, OnFinish(s, q), steps, url) ==> DecidedBy(t, q2, client, |s.saves|))
      && (Spoil(url) !in steps ==> q2 !in OnLookUp(t, q2).requests)
  {
    var s := Reached(isUrl, start, before);
    var url, s1 := ClientId(s.requests[q].params), OnFinish(s, q);
    HeldUntilFiled(isUrl, s1, steps, url, |s.saves|);
    if Spoil(url) !in steps { AnswersUntilSpoilt(isUrl, s1, steps, url, s.now + CLIENT_REGISTRY_TTL); }
  }

  // ------------------------------------------- when a registration is sure to be reused

  predicate Concerns(s: State, q: nat, url: string) {
    q in s.requests && ClientId(s.requests[q].params) == url
  }

  /** No other request for the same client id has missed the cache and not ended yet. */
  ghost predicate Alone(s: State, q: nat)
    requires q in s.requests
  {
    forall r <- s.requests | r != q && Concerns(s, r, ClientId(s.requests[q].params)) :: s.requests[r].phase.LookingUp?
  }

  ghost predicate Undisturbed(s: State, url: string, until: Time) {
    Answers(s, url, until) && forall r <- s.requests | Concerns(s, r, url) :: s.requests[r].phase.LookingUp?
  }

  lemma UndisturbedStep(isUrl: string -> bool, s: State, step: Step, url: string, until: Time)
    requires Enabled(isUrl, s, step) && Undisturbed(s, url, until) && s.now <= until && step != Spoil(url)
    ensures Undisturbed(Apply(isUrl, s, step), url, until) && !Files(s, step, url)
  {
    if step.Finish? && Concerns(s, step.q, url) {
      assert false;
    } else if step.LookUp? && Concerns(s, step.q, url) {
      assert CacheGet(s, url).Some?;
    } else {
      assert Answers(Apply(isUrl, s, step), url, until);
    }
  }

  lemma {:induction false} RunLater(isUrl: string -> bool, s: State, steps: seq<Step>)
    requires CanRun(isUrl, s, steps)
    ensures s.now <= Run(isUrl, s, steps).now
    decreases |steps|
  {
    if steps != [] { RunLater(isUrl, Apply(isUrl, s, steps[0]), steps[1..]); }
  }

  lemma {:induction false} UndisturbedRun(isUrl: string -> bool, s: State, steps: seq<Step>, url: string, until: Time)
    requires CanRun(isUrl, s, steps) && Undisturbed(s, url, until) && Run(isUrl, s, steps).now <= until
    requires Spoil(url) !in steps
    ensures NeverFiles(isUrl, s, steps, url)
    decreases |steps|
  {
    if steps != [] {
      RunLater(isUrl, s, steps);
      assert steps[0] in steps && forall x <- steps[1..] :: x in steps;
      UndisturbedStep(isUrl, s, steps[0], url, until);
      UndisturbedRun(isUrl, Apply(isUrl, s, steps[0]), steps[1..], url, until);
    }
  }

  /**
    If the request is alone, its registration decides every other for the same
    client id within the TTL, in every run that spoils nothing.
   */
  lemma RegistrationOfALoneRequestIsKept(
      isUrl: string -> bool, start: Time, before: seq<Step>, q: nat, steps: seq<Step>)
    requires CanRun(isUrl, Initial(start), before) && Enabled(isUrl, Reached(isUrl, start, before), Finish(q))
    requires
      var s := Reached(isUrl, start, before);
      && Alone(s, q) && CanRun(isUrl, OnFinish(s, q), steps) && Spoil(ClientId(s.requests[q].params)) !in steps
      && Run(isUrl, OnFinish(s, q), steps).now <= s.now + 86400.0
    ensures
      var s := Reached(isUrl, start, before);
      var url := ClientId(s.requests[q].params);
      && NeverFiles(isUrl, OnFinish(s, q), steps, url)
      && CacheGet(Run(isUrl, OnFinish(s, q), steps), url) == Some(Saved(s.requests[q].phase.client, |s.saves|))
  {
    var s := Reached(isUrl, start, before);
    var url, s1 := ClientId(s.requests[q].params), OnFinish(s, q);
    UndisturbedRun(isUrl, s1, steps, url, s.now + CLIENT_REGISTRY_TTL);
    HeldUntilFiled(isUrl, s1, steps, url, |s.saves|);
  }

  lemma RunThen(isUrl: string -> bool, s: State, steps: seq<Step>, step: Step)
    requires CanRun(isUrl, s, steps) && Enabled(isUrl, Run(isUrl, s, steps), step)
    ensures CanRun(isUrl, s, steps + [step])
    ensures Run(isUrl, s, steps + [step]) == Apply(isUrl, Run(isUrl, s, steps), step)
    decreases |steps|
  {
    if steps == [] {
      assert CanRun(isUrl, Apply(isUrl, s, step), []);
      assert steps + [step] == [step] && [step][1..] == [];
    } else {
      assert (steps + [step])[0] == steps[0] && (steps + [step])[1..] == steps[1..] + [step];
      RunThen(isUrl, Apply(isUrl, s, steps[0]), steps[1..], step);
    }
  }

  /** A request that has missed the cache can go on to write it at once. */
  lemma GoesOnToFile(isUrl: string -> bool, s: State, r: nat, clientId: string) returns (steps: seq<Step>)
    requires r in s.requests && !s.requests[r].phase.LookingUp?
    ensures forall url | Concerns(s, r, url) :: Spoil(url) !in steps
    ensures CanRun(isUrl, s, steps)
    ensures
      var url, t := ClientId(s.requests[r].params), Run(isUrl, s, steps);
      && t.now == s.now && |t.saves| == |s.saves| + 1 && Holds(t, url, |s.saves|)
      && CacheGet(t, url) == Some(t.registry[url].value)
      && t.registry[url].value.client.clientId ==
         if s.requests[r].phase.Saving? then s.requests[r].phase.client.clientId else clientId
  {
    steps := [];
    if s.requests[r].phase.Fetching? {
      var uris := [RedirectUri(s.requests[r].params)];
      RunThen(isUrl, s, steps, Fetched(r, uris));
      steps := steps + [Fetched(r, uris)];
    }
    if !s.requests[r].phase.Saving? {
      RunThen(isUrl, s, steps, Enrolled(r, clientId, ""));
      steps := steps + [Enrolled(r, clientId, "")];
    }
    RunThen(isUrl, s, steps, Finish(r));
    steps := steps + [Finish(r)];
  }

  /**
    And only then: if it is not alone, some run that spoils nothing replaces its
    registration at once, and later requests are sent on with another client id,
    unless the same id has been given to two enrolments.
   */
  lemma RegistrationOfADisturbedRequestIsReplaced(isUrl: string -> bool, start: Time, before: seq<Step>, q: nat)
    returns (steps: seq<Step>)
    requires CanRun(isUrl, Initial(start), before) && Enabled(isUrl, Reached(isUrl, start, before), Finish(q))
    requires !Alone(Reached(isUrl, start, before), q)
    ensures
      var s := Reached(isUrl, start, before);
      var url := ClientId(s.requests[q].params);
      && CanRun(isUrl, OnFinish(s, q), steps) && Spoil(url) !in steps
      && var t := Run(isUrl, OnFinish(s, q), steps);
      && t.now == s.now && CacheGet(t, url).Some? && CacheGet(t, url).value.Saved?
      && CacheGet(t, url) != Some(Saved(s.requests[q].phase.client, |s.saves|))
      && (CacheGet(t, url).value.client.clientId != s.requests[q].phase.client.clientId
          || exists r <- s.requests ::
               r != q && Concerns(s, r, url) && SavesId(s, r, s.requests[q].phase.client.clientId))
  {
    var s := Reached(isUrl, start, before);
    var url, s1 := ClientId(s.requests[q].params), OnFinish(s, q);
    var r :| r in s.requests && r != q && Concerns(s, r, url) && !s.requests[r].phase.LookingUp?;
    assert Concerns(s1, r, url);
    steps := GoesOnToFile(isUrl, s1, r, s.requests[q].phase.client.clientId + "x");
  }

  /** The request has been given this client id and is about to save it. */
  predicate SavesId(s: State, r: nat, id: string) {
    r in s.requests && s.requests[r].phase.Saving? && s.requests[r].phase.client.clientId == id
  }

  /**
    From the start: of two requests for one client id that both miss the cache,
    the second to finish decides the third.
   */
  lemma ConcurrentRegistrationReplaces(isUrl: string -> bool, start: Time, params: Params) returns (steps: seq<Step>)
    requires ParamsError(params).None? && isUrl(ClientId(params))
    ensures CanRun(isUrl, Initial(start), steps)
    ensures
      var s := Reached(isUrl, start, steps);
      && s.now == start && |s.saves| == 2
      && s.saves[0].q == 1 && s.saves[0].url == s.saves[1].url == ClientId(params) && s.saves[0].client.clientId == "A"
      && s.redirects != [] && var last := s.redirects[|s.redirects| - 1];
      && last == Redirect(3, params, params["client_id" := "B"], start, Some(1))
  {
    steps := BothSave(isUrl, start, params);
    RunThen(isUrl, Initial(start), steps, Arrive(3, params));
    steps := steps + [Arrive(3, params)];
    RunThen(isUrl, Initial(start), steps, LookUp(3));
    steps := steps + [LookUp(3)];
  }

  lemma BothSave(isUrl: string -> bool, start: Time, params: Params) returns (steps: seq<Step>)
    requires ParamsError(params).None? && isUrl(ClientId(params))
    ensures CanRun(isUrl, Initial(start), steps)
    ensures
      var s := Reached(isUrl, start, steps);
      var url, uris := ClientId(params), [RedirectUri(params)];
      && s.now == start && s.seen == {1, 2}
      && s.saves == [Save(1, url, RegisteredClient("A", "", uris), start),
          Save(2, url, RegisteredClient("B", "", uris), start)]
      && url in s.registry
      && s.registry[url] == Cell(Saved(RegisteredClient("B", "", uris), 1), Some(start + CLIENT_REGISTRY_TTL))
  {
    var s := Initial(start);
    steps := BothMiss(isUrl, start, params);
    RunThen(isUrl, s, steps, Enrolled(1, "A", ""));
    steps := steps + [Enrolled(1, "A", "")];
    RunThen(isUrl, s, steps, Finish(1));
    steps := steps + [Finish(1)];
    RunThen(isUrl, s, steps, Enrolled(2, "B", ""));
    steps := steps + [Enrolled(2, "B", "")];
    RunThen(isUrl, s, steps, Finish(2));
    steps := steps + [Finish(2)];
  }

  lemma BothMiss(isUrl: string -> bool, start: Time, params: Params) returns (steps: seq<Step>)
    requires ParamsError(params).None? && isUrl(ClientId(params))
    ensures CanRun(isUrl, Initial(start), steps)
    ensures
      var s := Reached(isUrl, start, steps);
      var enrolling := Request(params, Enrolling([RedirectUri(params)]));
      && s.now == start && s.requests == map[1 := enrolling, 2 := enrolling] && s.seen == {1, 2}
      && s.saves == [] && s.redirects == [] && s.registry == map[]
  {
    var s := Initial(start);
    var uris := [RedirectUri(params)];
    steps := [];
    RunThen(isUrl, s, steps, Arrive(1, params));
    steps := steps + [Arrive(1, params)];
    RunThen(isUrl, s, steps, Arrive(2, params));
    steps := steps + [Arrive(2, params)];
    RunThen(isUrl, s, steps, LookUp(1));
    steps := steps + [LookUp(1)];
    RunThen(isUrl, s, steps, LookUp(2));
    steps := steps + [LookUp(2)];
    RunThen(isUrl, s, steps, Fetched(1, uris));
    steps := steps + [Fetched(1, uris)];
    RunThen(isUrl, s, steps, Fetched(2, uris));
    steps := steps + [Fetched(2, uris)];
  }

  // ------------------------------------------------------------ the code itself

  datatype Response = Redirected(params: Params) | Refused(failure: Failure)

  /** One request at a time; the method performs a run of the steps above. */
  class Endpoint {
    const isUrl: string -> bool
    var s: State
    ghost const start: Time
    ghost var trace: seq<Step>

    ghost predicate Valid()
      reads this
    {
      CanRun(isUrl, Initial(start), trace) && s == Reached(isUrl, start, trace)
    }

    constructor (isUrl: string -> bool, now: Time)
      ensures Valid() && this.isUrl == isUrl && s == Initial(now)
    {
      this.isUrl := isUrl;
      s := Initial(now);
      start := now;
      trace := [];
    }

    method Do(step: Step)
      requires Valid() && Enabled(isUrl, s, step)
      modifies this
      ensures Valid() && s == Apply(isUrl, old(s), step) && trace == old(trace) + [step]
    {
      RunThen(isUrl, Initial(start), trace, step);
      s := Apply(isUrl, s, step);
      trace := trace + [step];
    }

    /**
      `authorize`: `metadata` is what a fetch would give, `enrolment` the id and
      secret of an enrolment.  A redirect rests on a registration that from then
      on decides the same request, for the same client id, without a fetch; a
      refusal leaves no trace in the cache.
     */
    method Authorize(q: nat, params: Params, metadata: Option<seq<string>>, enrolment: Option<(string, string)>)
      returns (r: Response)
      requires Valid() && q !in s.seen
      modifies this
      ensures Valid() && old(trace) <= trace && s.now == old(s.now)
      ensures q !in s.requests && s.requests - {q} == old(s.requests)
      ensures ParamsError(params).Some? ==> r == Refused(InvalidRequest)
      ensures ParamsError(params).None? ==>
                && "client_id" in params && "redirect_uri" in params
                && r == if isUrl(params["client_id"]) then AnswerTo(old(s), params, metadata, enrolment)
                        else Redirected(params)
      ensures r.Redirected? ==>
                s.redirects != [] && IsAnswer(isUrl, s, s.redirects[|s.redirects| - 1], q, params, r.params)
      ensures r.Redirected? && isUrl(ClientId(params)) ==> WouldDecide(s, params, r.params)
      ensures r.Refused? ==> s.redirects == old(s.redirects) && s.registry == old(s.registry)
      ensures r.Refused? ==> s.failures == old(s.failures) + [r.failure]
      ensures "client_id" in params && CachedClient(old(s), params["client_id"]).Some? ==>
                s.fetched == old(s.fetched) && s.registry == old(s.registry)
    {
      ParamsErrorIsExact(params);
      NotInFlight(isUrl, start, trace, q);
      var answer := Receive(q, params);
      if answer.Some? {
        r := answer.value;
      } else {
        r := ViaRegistration(q, metadata, enrolment);
      }
    }

    /** The parameter check, and the answer to a client id that is no URL. */
    method Receive(q: nat, params: Params) returns (answer: Option<Response>)
      requires Valid() && q !in s.seen && q !in s.requests
      modifies this
      ensures Valid() && old(trace) <= trace && s.now == old(s.now)
      ensures ParamsError(params).Some? ==> answer == Some(Refused(InvalidRequest))
      ensures ParamsError(params).None? ==> answer == if isUrl(ClientId(params)) then None else Some(Redirected(params))
      ensures if answer.None? then q in s.requests && s.requests[q] == Request(params, LookingUp) else q !in s.requests
      ensures s.requests - {q} == old(s.requests)
      ensures answer == Some(Redirected(params)) ==>
                s.redirects != [] && IsAnswer(isUrl, s, s.redirects[|s.redirects| - 1], q, params, params)
      ensures answer != Some(Redirected(params)) ==> s.redirects == old(s.redirects)
      ensures s.failures == old(s.failures) + if ParamsError(params).Some? then [InvalidRequest] else []
      ensures s.registry == old(s.registry) && s.fetched == old(s.fetched)
    {
      Do(Arrive(q, params));
      if ParamsError(params).Some? { return Some(Refused(InvalidRequest)); }
      answer := if isUrl(ClientId(params)) then None else Some(Redirected(params));
    }

    /** The part for a client id that is a URL. */
    method ViaRegistration(q: nat, metadata: Option<seq<string>>, enrolment: Option<(string, string)>)
      returns (r: Response)
      requires Valid() && q in s.requests && s.requests[q].phase.LookingUp?
      requires "client_id" in s.requests[q].params && "redirect_uri" in s.requests[q].params
      modifies this
      ensures Valid() && old(trace) <= trace && s.now == old(s.now) && s.requests == old(s.requests) - {q}
      ensures r == AnswerTo(old(s), old(s.requests[q].params), metadata, enrolment)
      ensures r.Refused? ==> s.failures == old(s.failures) + [r.failure]
      ensures r.Redirected? ==>
                && s.redirects != [] && WouldDecide(s, old(s.requests[q].params), r.params)
                && IsAnswer(isUrl, s, s.redirects[|s.redirects| - 1], q, old(s.requests[q].params), r.params)
      ensures r.Refused? ==> s.redirects == old(s.redirects) && s.registry == old(s.registry)
      ensures CachedClient(old(s), old(s.requests[q].params)["client_id"]).Some? ==>
                s.fetched == old(s.fetched) && s.registry == old(s.registry)
    {
      var params := s.requests[q].params;
      var cached := CacheGet(s, ClientId(params));
      Do(LookUp(q));
      if cached.Some? {
        if RedirectUri(params) !in cached.value.client.redirectUris { return Refused(InvalidRequest); }
        LastIsRegistered(isUrl, start, trace);
        return Redirected(params["client_id" := cached.value.client.clientId]);
      }
      r := Register(q, metadata, enrolment);
      LastIsRegistered(isUrl, start, trace);
    }

    /** Fetch, check, enrol, save. */
    method Register(q: nat, metadata: Option<seq<string>>, enrolment: Option<(string, string)>) returns (r: Response)
      requires Valid() && q in s.requests && s.requests[q].phase.Fetching?
      requires "client_id" in s.requests[q].params && "redirect_uri" in s.requests[q].params
      modifies this
      ensures Valid() && old(trace) <= trace && s.now == old(s.now) && s.requests == old(s.requests) - {q}
      ensures r == AnswerToNew(old(s.requests[q].params), metadata, enrolment)
      ensures r.Refused? ==> s.failures == old(s.failures) + [r.failure]
      ensures r.Redirected? ==>
                && |s.redirects| == |old(s.redirects)| + 1
                && var last, params := s.redirects[|s.redirects| - 1], old(s.requests[q].params);
                && last.q == q && last.asked == params && last.sent == r.params && last.at == s.now
                && WouldDecide(s, params, r.params)
      ensures r.Refused? ==> s.redirects == old(s.redirects) && s.registry == old(s.registry)
    {
      var params := s.requests[q].params;
      if metadata.None? {
        Do(FetchFails(q));
        return Refused(InvalidClient);
      }
      Do(Fetched(q, metadata.value));
      if RedirectUri(params) !in metadata.value { return Refused(InvalidRequest); }
      r := Enrol(q, enrolment);
    }

    /** Enrol, save. */
    method Enrol(q: nat, enrolment: Option<(string, string)>) returns (r: Response)
      requires Valid() && q in s.requests && s.requests[q].phase.Enrolling?
      requires "client_id" in s.requests[q].params && "redirect_uri" in s.requests[q].params
      requires s.requests[q].params["redirect_uri"] in s.requests[q].phase.uris
      modifies this
      ensures Valid() && old(trace) <= trace && s.now == old(s.now) && s.requests == old(s.requests) - {q}
      ensures r == if enrolment.None? then Refused(ServerError)
                   else Redirected(old(s.requests[q].params)["client_id" := enrolment.value.0])
      ensures r.Refused? ==> s.failures == old(s.failures) + [r.failure]
      ensures r.Redirected? ==>
                && |s.redirects| == |old(s.redirects)| + 1
                && var last, params := s.redirects[|s.redirects| - 1], old(s.requests[q].params);
                && last.q == q && last.asked == params && last.sent == r.params && last.at == s.now
                && WouldDecide(s, params, r.params)
      ensures r.Refused? ==> s.redirects == old(s.redirects) && s.registry == old(s.registry)
    {
      var params := s.requests[q].params;
      if enrolment.None? {
        Do(EnrolFails(q));
        return Refused(ServerError);
      }
      Do(Enrolled(q, enrolment.value.0, enrolment.value.1));
      Do(Finish(q));
      r := Redirected(params["client_id" := enrolment.value.0]);
    }
  }

  /** The registration the cache holds for a client id: one that decodes and has not expired. */
  ghost function CachedClient(s: State, url: string): Option<RegisteredClient> {
    if url in s.registry && s.registry[url].value.Saved?
       && (s.registry[url].expiry.None? || s.now <= s.registry[url].expiry.value)
    then Some(s.registry[url].value.client) else None
  }

  /** The answer to a valid request whose client id is a URL and not cached. */
  ghost function AnswerToNew(
      params: Params, metadata: Option<seq<string>>, enrolment: Option<(string, string)>): Response
    requires "redirect_uri" in params
  {
    if metadata.None? then Refused(InvalidClient)
    else if params["redirect_uri"] !in metadata.value then Refused(InvalidRequest)
    else if enrolment.None? then Refused(ServerError)
    else Redirected(params["client_id" := enrolment.value.0])
  }

  /** The answer to a valid request whose client id is a URL. */
  ghost function AnswerTo(
      s: State, params: Params, metadata: Option<seq<string>>, enrolment: Option<(string, string)>): Response
    requires "client_id" in params && "redirect_uri" in params
  {
    match CachedClient(s, params["client_id"])
    case None => AnswerToNew(params, metadata, enrolment)
    case Some(client) =>
      if params["redirect_uri"] in client.redirectUris then Redirected(params["client_id" := client.clientId])
      else Refused(InvalidRequest)
  }

  /** The redirect is the answer to the request, and for a URL client id it rests on a save. */
  ghost predicate IsAnswer(isUrl: string -> bool, s: State, r: Redirect, q: nat, asked: Params, sent: Params) {
    && r.q == q && r.asked == asked && r.sent == sent && r.at == s.now
    && RedirectOk(s, r) && (r.entry.Some? <==> isUrl(ClientId(asked)))
  }

  /** Asked again, the same request would be sent on likewise, from the cache. */
  ghost predicate WouldDecide(s: State, asked: Params, sent: Params) {
    && "client_id" in asked && "redirect_uri" in asked
    && AnswerTo(s, asked, None, None) == Redirected(sent)
  }

  lemma NotInFlight(isUrl: string -> bool, start: Time, trace: seq<Step>, q: nat)
    requires CanRun(isUrl, Initial(start), trace) && q !in Reached(isUrl, start, trace).seen
    ensures q !in Reached(isUrl, start, trace).requests
  {
    ReachedKeeps(isUrl, start, trace);
    var s := Reached(isUrl, start, trace);
    assert q in s.requests ==> RequestOk(s, q, s.requests[q]);
  }

  lemma LastIsRegistered(isUrl: string -> bool, start: Time, trace: seq<Step>)
    requires CanRun(isUrl, Initial(start), trace)
    ensures
      var s := Reached(isUrl, start, trace);
      s.redirects != [] ==>
        && var r := s.redirects[|s.redirects| - 1];
        && RedirectOk(s, r) && (r.entry.Some? <==> isUrl(ClientId(r.asked)))
  {
    ReachedKeeps(isUrl, start, trace);
  }
}
