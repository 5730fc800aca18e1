/**
  The export job queue as a step system.  Any number of workers, enqueuing
  handlers and waiting readers share one Redis; every Redis call is one step,
  so every interleaving of the calls is a run.  Faults are steps too: a call
  that raises (whether or not it took effect), a cancelled task, a killed
  process, a handler that dies between its two writes.
 */
module JobQueue {
  import opened Wrappers
  import opened Expiry

  type JobId = string
  type UserId = string
  type Consumer = string
  type Bytes = seq<bv8>

  /** Entries of the jobs stream are named by their position: stream ids only grow. */
  type EntryId = nat

  const RESULT_TTL_SECONDS: Time := 3600.0
  const OWNER_TTL_SECONDS: Time := 3600.0
  const RECLAIM_IDLE_SECONDS: Time := 60.0
  const RECLAIM_COUNT: nat := 10

  datatype Format = Format(mime: string, ext: string)

  const EXPORT_FORMATS: map<string, Format> := map[
    "pdf" := Format("application/pdf", "pdf"),
    "docx" := Format("application/vnd.openxmlformats-officedocument.wordprocessingml.document", "docx"),
    "txt" := Format("text/plain", "txt")
  ]

  /** One entry of `jobs:drive_export`. */
  datatype Fields = Fields(jobId: JobId, userId: UserId, fileId: string, format: string)

  /** One entry of `results:<job>`. */
  datatype Record =
    | Completed(path: string, sizeBytes: nat, mime: string, userId: UserId)
    | Failed(error: string, userId: UserId)

  // ---------------------------------------------------------------- Redis

  datatype Delivery = Delivery(consumer: Consumer, at: Time)

  /** The consumer group: everything below `next` has been delivered at least once. */
  datatype Group = Group(next: nat, pending: map<EntryId, Delivery>)

  datatype Db = Db(
    owners: map<JobId, Cell<UserId>>,
    results: map<JobId, Cell<seq<Record>>>,
    jobs: seq<Fields>,
    group: Option<Group>)

  /** XADD results:<job>: a missing or expired stream is created anew, without an expiry. */
  function AddResult(db: Db, now: Time, job: JobId, record: Record): Db {
    match Lookup(db.results, job, now)
    case Some(records) => db.(results := db.results[job := Cell(records + [record], db.results[job].expiry)])
    case None => db.(results := db.results[job := Cell([record], None)])
  }

  /** EXPIRE results:<job>: does nothing when the key is not there. */
  function ExpireResult(db: Db, now: Time, job: JobId): Db {
    match Lookup(db.results, job, now)
    case Some(records) => db.(results := db.results[job := Cell(records, Some(now + RESULT_TTL_SECONDS))])
    case None => db
  }

  /** EXPIRE job:owner:<job>. */
  function ExpireOwner(db: Db, now: Time, job: JobId): Db {
    match Lookup(db.owners, job, now)
    case Some(user) => db.(owners := db.owners[job := Cell(user, Some(now + RESULT_TTL_SECONDS))])
    case None => db
  }

  /** XACK takes the entry out of the pending list, whichever consumer holds it. */
  function AckEntry(g: Group, e: EntryId): Group {
    g.(pending := g.pending - {e})
  }

  /** XAUTOCLAIM moves the given entries to `w` and restarts their idle time. */
  function ClaimEntries(g: Group, w: Consumer, entries: seq<EntryId>, now: Time): Group {
    g.(pending := map e | e in g.pending :: if e in entries then Delivery(w, now) else g.pending[e])
  }

  /** What XAUTOCLAIM may hand out: at most ten pending entries, each once, each idle long enough. */
  predicate Claimable(g: Group, entries: seq<EntryId>, now: Time) {
    && |entries| <= RECLAIM_COUNT
    && (forall i :: 0 <= i < |entries| ==>
          entries[i] in g.pending && g.pending[entries[i]].at + RECLAIM_IDLE_SECONDS <= now)
    && (forall i, j :: 0 <= i < j < |entries| ==> entries[i] < entries[j])
  }

  // -------------------------------------------------------------- workers

  /** The next call of `_publish`. */
  datatype Stage = ToAdd | ToExpireResult | ToExpireOwner

  /** What follows the ack in `finally`: the rest of the loop, or the exception in flight. */
  datatype After = Resume | Raising | Cancelled

  datatype Phase =
    | Polling                                    // before xautoclaim
    | Draining                                   // between entries, or before xreadgroup
    | Exporting(entry: EntryId)                  // token, export, file write
    | Publishing(entry: EntryId, record: Record, stage: Stage, recovering: bool)
    | Acking(entry: EntryId, after: After)
    | Stopped

  /**
    `todo` is what is left of the batch, `hasRead` whether xreadgroup was called
    in this pass, `didWork` the loop's own flag.  `ackedBefore` (what had been
    acked when the pass claimed its batch) and `worked` (passes that found work
    and came to their end) record the past for the progress results.
   */
  datatype Worker = Worker(
    phase: Phase, todo: seq<EntryId>, hasRead: bool, didWork: bool,
    ackedBefore: set<EntryId>, worked: nat)

  const FRESH_WORKER := Worker(Polling, [], false, false, {}, 0)

  /** The top of the `while True` loop. */
  function Restart(wk: Worker): Worker {
    wk.(phase := Polling, todo := [], hasRead := false, didWork := false)
  }

  function Halt(wk: Worker): Worker {
    wk.(phase := Stopped, todo := [])
  }

  // ---------------------------------------------------------------- state

  /** A `wait-for-job` call that passed the owner check. */
  datatype Reader = Reader(caller: UserId, job: JobId)

  datatype Reply = NotFound | StillPending | Found(record: Record)
  datatype Answer = Answer(caller: UserId, job: JobId, reply: Reply)

  /** An export written to its file. */
  datatype Export = Export(job: JobId, path: string, data: Bytes)

  /** What has happened so far; it decides nothing but what else is noted in it, and that job ids are fresh. */
  datatype Log = Log(
    accepted: map<JobId, Fields>,            // jobs a handler created an owner key for
    groupStart: nat,                         // length of the stream when the group was created
    acked: set<EntryId>,
    exported: set<Export>,                   // files written with what Drive returned
    published: map<JobId, seq<Record>>,      // every record ever added, in order
    forsaken: set<EntryId>,                  // a worker gave up on them before adding a record
    leftUnexpired: set<JobId>,               // a publisher stopped between XADD and the first EXPIRE
    leftHalfExpired: set<JobId>,             // a publisher stopped between the two EXPIRE calls
    ownerGone: set<JobId>,                   // the owner key had expired when a publisher came to extend it
    answers: seq<Answer>)

  /** `tokens` are the users with a record in the Google token store; such a record never expires. */
  datatype State = State(
    now: Time, db: Db, tokens: set<UserId>, workers: map<Consumer, Worker>, readers: map<nat, Reader>,
    enqueuing: map<JobId, Fields>, log: Log)

  const INITIAL_LOG := Log(map[], 0, {}, {}, map[], {}, {}, {}, {}, [])

  function Initial(now: Time): State {
    State(now, Db(map[], map[], [], None), {}, map[], map[], map[], INITIAL_LOG)
  }

  function PublishedFor(l: Log, job: JobId): seq<Record> {
    if job in l.published then l.published[job] else []
  }

  // ---------------------------------------------------------------- steps

  /** What one worker can do, or have done to it, next. */
  datatype Action =
    | Start
    // the loop of `run`
    | Claim(entries: seq<EntryId>)
    | ClaimRaises(entries: seq<EntryId>)        // what was claimed all the same
    | Deliver
    | NothingNew
    | ReadRaises(applied: bool)
    | EndPass
    // `_process` and `_publish`
    | Begin
    | ExportOk(data: Bytes, dir: string)
    | ExportRaises(error: string)
    | Publish
    | PublishRaises(error: string, applied: bool)
    | Ack
    | AckRaises(applied: bool)
    // the end of the task or of the process
    | Cancel
    | Crash

  /** The actions that change the consumer group. */
  predicate TouchesGroup(action: Action) {
    || action.Start? || action.Claim? || action.ClaimRaises? || action.Deliver? || TakesAck(action)
    || (action.ReadRaises? && action.applied)
  }

  /** The actions by which an XACK takes effect. */
  predicate TakesAck(action: Action) {
    action.Ack? || (action.AckRaises? && action.applied)
  }

  datatype Step =
    | Tick(elapsed: Time)
    | Grant(user: UserId)                        // a record appears in the token store
    // drive-export-large-file
    | SetOwner(fields: Fields)
    | AddJob(job: JobId)
    | DropJob(job: JobId)
    | Work(w: Consumer, action: Action)
    // wait-for-job
    | CheckOwner(reader: nat, caller: UserId, job: JobId)
    | ReadResult(reader: nat)

  predicate CanClaim(s: State, w: Consumer, entries: seq<EntryId>) {
    w in s.workers && s.workers[w].phase.Polling? && s.db.group.Some? && Claimable(s.db.group.value, entries, s.now)
  }

  predicate CanRead(s: State, w: Consumer) {
    && w in s.workers && s.workers[w].phase.Draining? && s.workers[w].todo == [] && !s.workers[w].hasRead
    && s.db.group.Some?
  }

  predicate CanDeliver(s: State, w: Consumer) {
    CanRead(s, w) && s.db.group.value.next < |s.db.jobs|
  }

  predicate CanEndPass(s: State, w: Consumer) {
    w in s.workers && s.workers[w].phase.Draining? && s.workers[w].todo == [] && s.workers[w].hasRead
  }

  predicate CanBegin(s: State, w: Consumer) {
    w in s.workers && s.workers[w].phase.Draining? && s.workers[w].todo != []
  }

  predicate CanExport(s: State, w: Consumer) {
    w in s.workers && s.workers[w].phase.Exporting? && s.workers[w].phase.entry < |s.db.jobs|
  }

  /** The table knows the format of the job. */
  predicate FormatKnown(s: State, w: Consumer) {
    CanExport(s, w) && s.db.jobs[s.workers[w].phase.entry].format in EXPORT_FORMATS
  }

  /** `get_valid_google_token` finds a record for the user of the job. */
  predicate HasToken(s: State, w: Consumer) {
    CanExport(s, w) && s.db.jobs[s.workers[w].phase.entry].userId in s.tokens
  }

  predicate CanPublish(s: State, w: Consumer) {
    w in s.workers && s.workers[w].phase.Publishing? && s.workers[w].phase.entry < |s.db.jobs|
  }

  predicate CanAck(s: State, w: Consumer) {
    w in s.workers && s.workers[w].phase.Acking? && s.db.group.Some?
  }

  predicate Running(s: State, w: Consumer) {
    w in s.workers && !s.workers[w].phase.Stopped?
  }

  predicate CanAct(s: State, w: Consumer, action: Action) {
    match action
    case Start => !Running(s, w)
    case Claim(es) => CanClaim(s, w, es)
    case ClaimRaises(es) => CanClaim(s, w, es)
    case Deliver => CanDeliver(s, w)
    case NothingNew => CanRead(s, w) && !CanDeliver(s, w)
    case ReadRaises(applied) => if applied then CanDeliver(s, w) else CanRead(s, w)
    case EndPass => CanEndPass(s, w)
    case Begin => CanBegin(s, w)
    case ExportOk(_, _) => FormatKnown(s, w) && HasToken(s, w)
    case ExportRaises(_) => CanExport(s, w)
    case Publish => CanPublish(s, w)
    case PublishRaises(_, _) => CanPublish(s, w)
    case Ack => CanAck(s, w)
    case AckRaises(_) => CanAck(s, w)
    case Cancel => Running(s, w)
    case Crash => Running(s, w)
  }

  function Act(s: State, w: Consumer, action: Action): State
    requires CanAct(s, w, action)
  {
    match action
    case Start => OnStart(s, w)
    case Claim(es) => OnClaim(s, w, es)
    case ClaimRaises(es) => OnClaimRaises(s, w, es)
    case Deliver => OnDeliver(s, w)
    case NothingNew => SetWorker(s, w, s.workers[w].(hasRead := true))
    case ReadRaises(applied) => SetWorker(if applied then OnDeliver(s, w) else s, w, Restart(s.workers[w]))
    case EndPass => SetWorker(s, w, PassEnded(s.workers[w]))
    case Begin => OnBegin(s, w)
    case ExportOk(data, dir) => OnExportOk(s, w, data, dir)
    case ExportRaises(error) => OnExportRaises(s, w, error)
    case Publish => Written(s, w, AfterWrite(s.workers[w].phase))
    case PublishRaises(error, applied) => OnPublishRaises(s, w, error, applied)
    case Ack => OnAck(s, w)
    case AckRaises(applied) => SetWorker(if applied then OnAck(s, w) else s, w, Restart(s.workers[w]))
    case Cancel => OnCancel(s, w)
    case Crash => OnCrash(s, w)
  }

  predicate Enabled(s: State, step: Step) {
    match step
    case Tick(dt) => dt >= 0.0
    case Grant(_) => true
    case SetOwner(f) => f.format in EXPORT_FORMATS && f.jobId !in s.log.accepted
    case AddJob(j) => j in s.enqueuing
    case DropJob(j) => j in s.enqueuing
    case Work(w, action) => CanAct(s, w, action)
    case CheckOwner(r, _, _) => r !in s.readers
    case ReadResult(r) => r in s.readers
  }

  function Apply(s: State, step: Step): State
    requires Enabled(s, step)
  {
    match step
    case Tick(dt) => s.(now := s.now + dt)
    case Grant(user) => s.(tokens := s.tokens + {user})
    case SetOwner(f) => OnSetOwner(s, f)
    case AddJob(j) => OnAddJob(s, j)
    case DropJob(j) => s.(enqueuing := s.enqueuing - {j})
    case Work(w, action) => Act(s, w, action)
    case CheckOwner(r, caller, job) => OnCheckOwner(s, r, caller, job)
    case ReadResult(r) => OnReadResult(s, r)
  }

  function SetWorker(s: State, w: Consumer, wk: Worker): State {
    s.(workers := s.workers[w := wk])
  }

  function OnSetOwner(s: State, f: Fields): State {
    s.(db := s.db.(owners := s.db.owners[f.jobId := Cell(f.userId, Some(s.now + OWNER_TTL_SECONDS))]),
       enqueuing := s.enqueuing[f.jobId := f],
       log := s.log.(accepted := s.log.accepted[f.jobId := f]))
  }

  function OnAddJob(s: State, j: JobId): State
    requires j in s.enqueuing
  {
    s.(db := s.db.(jobs := s.db.jobs + [s.enqueuing[j]]), enqueuing := s.enqueuing - {j})
  }

  /** `ensure_group`: the first worker creates the group at the end of the stream, later ones find it there. */
  function OnStart(s: State, w: Consumer): State {
    var s1 := SetWorker(s, w, FRESH_WORKER);
    if s.db.group.Some? then s1
    else s1.(db := s.db.(group := Some(Group(|s.db.jobs|, map[]))), log := s.log.(groupStart := |s.db.jobs|))
  }

  function OnClaim(s: State, w: Consumer, es: seq<EntryId>): State
    requires CanClaim(s, w, es)
  {
    SetWorker(s, w, s.workers[w].(phase := Draining, todo := es, ackedBefore := s.log.acked))
    .(db := s.db.(group := Some(ClaimEntries(s.db.group.value, w, es, s.now))))
  }

  /** `_reclaim` answers an exception with an empty batch; the entries may be claimed nevertheless. */
  function OnClaimRaises(s: State, w: Consumer, es: seq<EntryId>): State
    requires CanClaim(s, w, es)
  {
    var t := OnClaim(s, w, es);
    SetWorker(t, w, t.workers[w].(todo := []))
  }

  function OnDeliver(s: State, w: Consumer): State
    requires CanDeliver(s, w)
  {
    var g := s.db.group.value;
    SetWorker(s, w, s.workers[w].(todo := [g.next], hasRead := true))
    .(db := s.db.(group := Some(Group(g.next + 1, g.pending[g.next := Delivery(w, s.now)]))))
  }

  /** The bottom of the loop: a pass that found work is counted. */
  function PassEnded(wk: Worker): Worker {
    Restart(wk).(worked := wk.worked + if wk.didWork then 1 else 0)
  }

  function OnBegin(s: State, w: Consumer): State
    requires CanBegin(s, w)
  {
    var wk := s.workers[w];
    SetWorker(s, w, wk.(phase := Exporting(wk.todo[0]), todo := wk.todo[1..]))
  }

  function OnExportOk(s: State, w: Consumer, data: Bytes, dir: string): State
    requires FormatKnown(s, w)
  {
    var e := s.workers[w].phase.entry;
    var f := s.db.jobs[e];
    var fmt := EXPORT_FORMATS[f.format];
    var record := Completed(ExportPath(dir, f.jobId, fmt.ext), |data|, fmt.mime, f.userId);
    SetWorker(s, w, s.workers[w].(phase := Publishing(e, record, ToAdd, false)))
    .(log := s.log.(exported := s.log.exported + {Export(f.jobId, record.path, data)}))
  }

  function ExportPath(dir: string, job: JobId, ext: string): string {
    dir + "/" + job + "." + ext
  }

  function OnExportRaises(s: State, w: Consumer, error: string): State
    requires CanExport(s, w)
  {
    var e := s.workers[w].phase.entry;
    SetWorker(s, w, s.workers[w].(phase := Publishing(e, Failed(error, s.db.jobs[e].userId), ToAdd, true)))
  }

  function AfterWrite(p: Phase): Phase
    requires p.Publishing?
  {
    match p.stage
    case ToAdd => p.(stage := ToExpireResult)
    case ToExpireResult => p.(stage := ToExpireOwner)
    case ToExpireOwner => Acking(p.entry, Resume)
  }

  /** The next write of `_publish` takes effect and the worker goes on to `next`. */
  function Written(s: State, w: Consumer, next: Phase): State
    requires CanPublish(s, w)
  {
    var p := s.workers[w].phase;
    var job := s.db.jobs[p.entry].jobId;
    var s1 := SetWorker(s, w, s.workers[w].(phase := next));
    match p.stage
    case ToAdd =>
      s1.(db := AddResult(s.db, s.now, job, p.record),
          log := s.log.(published := s.log.published[job := PublishedFor(s.log, job) + [p.record]]))
    case ToExpireResult => s1.(db := ExpireResult(s.db, s.now, job))
    case ToExpireOwner =>
      s1.(db := ExpireOwner(s.db, s.now, job),
          log := if Lookup(s.db.owners, job, s.now).None?
                 then s.log.(ownerGone := s.log.ownerGone + {job}) else s.log)
  }

  /** What follows a write that raised: the `except` branch, or the ack with the exception in flight. */
  function AfterRaise(s: State, p: Phase, error: string): Phase
    requires p.Publishing? && p.entry < |s.db.jobs|
  {
    if p.recovering then Acking(p.entry, Raising)
    else Publishing(p.entry, Failed(error, s.db.jobs[p.entry].userId), ToAdd, true)
  }

  function OnPublishRaises(s: State, w: Consumer, error: string, applied: bool): State
    requires CanPublish(s, w)
  {
    var p := s.workers[w].phase;
    var next := AfterRaise(s, p, error);
    var s1 := Leave(s, w, applied);
    if applied then Written(s1, w, next)
    else SetWorker(if p.recovering then Forsake(s1, p) else s1, w, s.workers[w].(phase := next))
  }

  /** Notes in the log which EXPIRE calls `w` leaves undone when it does not go on from here. */
  function Leave(s: State, w: Consumer, applied: bool): State
    requires w in s.workers
  {
    var p := s.workers[w].phase;
    if p.Publishing? && p.entry < |s.db.jobs| then
      var job := s.db.jobs[p.entry].jobId;
      if p.stage.ToAdd? && !applied then s
      else if p.stage.ToAdd? || (p.stage.ToExpireResult? && !applied)
      then s.(log := s.log.(leftUnexpired := s.log.leftUnexpired + {job}))
      else s.(log := s.log.(leftHalfExpired := s.log.leftHalfExpired + {job}))
    else s
  }

  /** Notes in the log that a worker goes on to ack an entry nobody has published a record for. */
  function Forsake(s: State, p: Phase): State
    requires p.Exporting? || p.Publishing?
  {
    if p.entry < |s.db.jobs| && PublishedFor(s.log, s.db.jobs[p.entry].jobId) == []
    then s.(log := s.log.(forsaken := s.log.forsaken + {p.entry}))
    else s
  }

  function OnAck(s: State, w: Consumer): State
    requires CanAck(s, w)
  {
    var wk := s.workers[w];
    var e := wk.phase.entry;
    var wk' := match wk.phase.after
               case Resume => wk.(phase := Draining, didWork := true)
               case Raising => Restart(wk)
               case Cancelled => Halt(wk);
    SetWorker(s, w, wk')
    .(db := s.db.(group := Some(AckEntry(s.db.group.value, e))),
      log := if e in s.db.group.value.pending then s.log.(acked := s.log.acked + {e}) else s.log)
  }

  /** A cancelled `_process` still runs its `finally`; anywhere else the task just ends. */
  function OnCancel(s: State, w: Consumer): State
    requires Running(s, w)
  {
    var wk := s.workers[w];
    var s1 := Leave(s, w, false);
    if wk.phase.Exporting? || wk.phase.Publishing?
    then SetWorker(Forsake(s1, wk.phase), w, wk.(phase := Acking(wk.phase.entry, Cancelled)))
    else SetWorker(s1, w, Halt(wk))
  }

  /** The process is gone between two calls; nothing of `finally` runs. */
  function OnCrash(s: State, w: Consumer): State
    requires Running(s, w)
  {
    SetWorker(Leave(s, w, false), w, Halt(s.workers[w]))
  }

  /** GET job:owner:<job>, compared with the caller. */
  function OnCheckOwner(s: State, r: nat, caller: UserId, job: JobId): State {
    if Lookup(s.db.owners, job, s.now) == Some(caller)
    then s.(readers := s.readers[r := Reader(caller, job)])
    else s.(log := s.log.(answers := s.log.answers + [Answer(caller, job, NotFound)]))
  }

  /** XREAD results:<job> from the start, returning the first entry of what is there. */
  function Visible(s: State, job: JobId): Reply {
    match Lookup(s.db.results, job, s.now)
    case Some(records) => if records == [] then StillPending else Found(records[0])
    case None => StillPending
  }

  function OnReadResult(s: State, r: nat): State
    requires r in s.readers
  {
    var rd := s.readers[r];
    s.(readers := s.readers - {r},
       log := s.log.(answers := s.log.answers + [Answer(rd.caller, rd.job, Visible(s, rd.job))]))
  }

  // ----------------------------------------------------------------- runs

  /** Every step of `steps` is possible in turn from `s`. */
  predicate CanRun(s: State, steps: seq<Step>)
    decreases |steps|
  {
    steps == [] || (Enabled(s, steps[0]) && CanRun(Apply(s, steps[0]), steps[1..]))
  }

  function Run(s: State, steps: seq<Step>): State
    requires CanRun(s, steps)
    decreases |steps|
  {
    if steps == [] then s else Run(Apply(s, steps[0]), steps[1..])
  }
}
