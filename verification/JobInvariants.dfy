/** What every step of the job queue keeps. */
module JobInvariants {
  import opened Wrappers
  import opened Expiry
  import opened JobQueue

  // ------------------------------------------------------------- statements

  type Accepted = map<JobId, Fields>

  /** Every entry of the stream, and every job still to be added, is an accepted job; no job is added twice. */
  ghost predicate JobsInv(a: Accepted, jobs: seq<Fields>, enqueuing: map<JobId, Fields>) {
    && (forall j <- a :: a[j].jobId == j && a[j].format in EXPORT_FORMATS)
    && (forall i | 0 <= i < |jobs| :: jobs[i].jobId in a && a[jobs[i].jobId] == jobs[i])
    && (forall j <- enqueuing :: j in a && a[j] == enqueuing[j])
    && (forall i, k | 0 <= i < k < |jobs| :: jobs[i].jobId != jobs[k].jobId)
    && (forall i | 0 <= i < |jobs| :: jobs[i].jobId !in enqueuing)
  }

  ghost predicate Owns(a: Accepted, user: UserId, job: JobId) {
    job in a && a[job].userId == user
  }

  ghost predicate OwnersInv(a: Accepted, owners: map<JobId, Cell<UserId>>) {
    forall j <- owners :: Owns(a, owners[j].value, j)
  }

  /** A record fit for publication: its user enqueued the job, and a completed one describes a real export. */
  ghost predicate GoodRecord(a: Accepted, exported: set<Export>, job: JobId, r: Record) {
    && Owns(a, r.userId, job)
    && (r.Completed? ==>
          && a[job].format in EXPORT_FORMATS
          && r.mime == EXPORT_FORMATS[a[job].format].mime
          && exists data :: Export(job, r.path, data) in exported && r.sizeBytes == |data|)
  }

  ghost predicate IsSuffix<T>(a: seq<T>, b: seq<T>) {
    |a| <= |b| && a == b[|b| - |a|..]
  }

  ghost predicate PublishedInv(a: Accepted, exported: set<Export>, published: map<JobId, seq<Record>>) {
    forall j <- published, r <- published[j] :: GoodRecord(a, exported, j, r)
  }

  /** A results stream holds the last records published for its job, at least one. */
  ghost predicate ResultsInv(published: map<JobId, seq<Record>>, results: map<JobId, Cell<seq<Record>>>) {
    forall j <- results ::
      results[j].value != [] && j in published && IsSuffix(results[j].value, published[j])
  }

  /** `e` belongs to the group and has been delivered. */
  ghost predicate Delivered(s: State, e: EntryId) {
    s.db.group.Some? && s.log.groupStart <= e < s.db.group.value.next <= |s.db.jobs|
  }

  ghost predicate Answered(s: State, e: EntryId) {
    e < |s.db.jobs| && PublishedFor(s.log, s.db.jobs[e].jobId) != []
  }

  ghost predicate PhaseInv(s: State, p: Phase) {
    match p
    case Exporting(e) => Delivered(s, e)
    case Publishing(e, r, stage, _) =>
      Delivered(s, e) && GoodRecord(s.log.accepted, s.log.exported, s.db.jobs[e].jobId, r)
          && (!stage.ToAdd? ==> Answered(s, e))
    case Acking(e, _) => Delivered(s, e) && (Answered(s, e) || e in s.log.forsaken)
    case _ => true
  }

  ghost predicate WorkersInv(s: State) {
    forall w <- s.workers :: PhaseInv(s, s.workers[w].phase) && (forall e <- s.workers[w].todo :: Delivered(s, e))
  }

  /** Each entry since the group began is undelivered, pending under one consumer, or acked: exactly one of them. */
  ghost predicate GroupInv(s: State) {
    match s.db.group
    case None => s.log.acked == {} && (forall w <- s.workers :: s.workers[w].phase.Stopped?)
    case Some(g) =>
      && s.log.groupStart <= g.next <= |s.db.jobs|
      && (forall e: EntryId :: s.log.groupStart <= e < g.next <==> e in g.pending || e in s.log.acked)
      && g.pending.Keys !! s.log.acked
  }

  ghost predicate AckedInv(s: State) {
    forall e <- s.log.acked :: Answered(s, e) || e in s.log.forsaken
  }

  /** Readers past the owner check concern the caller's own jobs. */
  ghost predicate ReadersInv(a: Accepted, readers: map<nat, Reader>) {
    forall r <- readers :: Owns(a, readers[r].caller, readers[r].job)
  }

  /** So do the records already handed out. */
  ghost predicate AnswersInv(a: Accepted, exported: set<Export>, answers: seq<Answer>) {
    forall x <- answers | x.reply.Found? ::
      Owns(a, x.caller, x.job) && GoodRecord(a, exported, x.job, x.reply.record)
  }

  /** Everything about records, owners and readers. */
  ghost predicate DataInv(s: State) {
    && JobsInv(s.log.accepted, s.db.jobs, s.enqueuing)
    && OwnersInv(s.log.accepted, s.db.owners)
    && PublishedInv(s.log.accepted, s.log.exported, s.log.published)
    && ResultsInv(s.log.published, s.db.results)
    && ReadersInv(s.log.accepted, s.readers)
    && AnswersInv(s.log.accepted, s.log.exported, s.log.answers)
  }

  ghost predicate Inv(s: State) {
    DataInv(s) && WorkersInv(s) && GroupInv(s) && AckedInv(s)
  }

  // ------------------------------------------------------------ preservation

  /** The log only grows: nothing accepted, published, exported or forsaken is ever taken back. */
  ghost predicate Grows(s: State, t: State) {
    && s.db.jobs <= t.db.jobs
    && (forall j <- s.log.accepted :: j in t.log.accepted && t.log.accepted[j] == s.log.accepted[j])
    && (forall j :: PublishedFor(s.log, j) <= PublishedFor(t.log, j))
    && s.log.exported <= t.log.exported
    && s.log.forsaken <= t.log.forsaken
    && s.log.acked <= t.log.acked
    && s.log.answers <= t.log.answers
    && (s.db.group.Some? ==>
          t.db.group.Some? && s.db.group.value.next <= t.db.group.value.next && s.log.groupStart == t.log.groupStart)
  }

  /** What holds of a worker's phase still holds once the log has grown. */
  lemma PhaseKept(s: State, t: State, p: Phase)
    requires Grows(s, t) && PhaseInv(s, p) && GroupBounds(t)
    ensures PhaseInv(t, p)
  {
    if p.Publishing? && p.record.Completed? {
      var job := s.db.jobs[p.entry].jobId;
      var data :| Export(job, p.record.path, data) in s.log.exported && p.record.sizeBytes == |data|;
      assert Export(job, p.record.path, data) in t.log.exported;
    }
  }

  ghost predicate GroupBounds(s: State) {
    s.db.group.Some? ==> s.log.groupStart <= s.db.group.value.next <= |s.db.jobs|
  }

  /** A step of one worker keeps what holds of all workers if it holds of that worker afterwards. */
  lemma WorkersKept(s: State, t: State, w: Consumer)
    requires Grows(s, t) && WorkersInv(s) && GroupBounds(t)
    requires w in t.workers && t.workers == s.workers[w := t.workers[w]]
    requires PhaseInv(t, t.workers[w].phase) && (forall e <- t.workers[w].todo :: Delivered(t, e))
    ensures WorkersInv(t)
  {
    forall v <- t.workers ensures PhaseInv(t, t.workers[v].phase) {
      if v != w { PhaseKept(s, t, s.workers[v].phase); }
    }
  }

  lemma AllWorkersKept(s: State, t: State)
    requires Grows(s, t) && WorkersInv(s) && GroupBounds(t) && t.workers == s.workers
    ensures WorkersInv(t)
  {
    forall w <- t.workers ensures PhaseInv(t, t.workers[w].phase) {
      PhaseKept(s, t, s.workers[w].phase);
    }
  }

  lemma GoodRecordKept(a: Accepted, b: Accepted, x: set<Export>, y: set<Export>, job: JobId, r: Record)
    requires GoodRecord(a, x, job, r) && x <= y
    requires job in b && b[job] == a[job]
    ensures GoodRecord(b, y, job, r)
  {
    if r.Completed? {
      var data :| Export(job, r.path, data) in x && r.sizeBytes == |data|;
      assert Export(job, r.path, data) in y;
    }
  }

  /** Records stay good when more jobs are accepted and more exports recorded. */
  lemma RecordsKept(s: State, t: State)
    requires DataInv(s)
    requires forall j <- s.log.accepted :: j in t.log.accepted && t.log.accepted[j] == s.log.accepted[j]
    requires s.log.exported <= t.log.exported
    ensures PublishedInv(t.log.accepted, t.log.exported, s.log.published)
    ensures AnswersInv(t.log.accepted, t.log.exported, s.log.answers)
  {
    forall j <- s.log.published, r <- s.log.published[j]
      ensures GoodRecord(t.log.accepted, t.log.exported, j, r)
    {
      GoodRecordKept(s.log.accepted, t.log.accepted, s.log.exported, t.log.exported, j, r);
    }
    forall x <- s.log.answers | x.reply.Found?
      ensures GoodRecord(t.log.accepted, t.log.exported, x.job, x.reply.record)
    {
      GoodRecordKept(s.log.accepted, t.log.accepted, s.log.exported, t.log.exported, x.job, x.reply.record);
    }
  }

  /** A step that leaves Redis, readers and handlers alone, and at most adds to the notes on faults and exports. */
  ghost predicate LocalTo(s: State, t: State, w: Consumer) {
    && t.now == s.now && t.db == s.db && t.readers == s.readers && t.enqueuing == s.enqueuing
    && w in s.workers && w in t.workers && t.workers == s.workers[w := t.workers[w]]
    && t.log == s.log.(exported := t.log.exported, forsaken := t.log.forsaken,
                       leftUnexpired := t.log.leftUnexpired, leftHalfExpired := t.log.leftHalfExpired)
    && s.log.exported <= t.log.exported && s.log.forsaken <= t.log.forsaken
  }

  lemma LocalKeeps(s: State, t: State, w: Consumer)
    requires Inv(s) && LocalTo(s, t, w)
    requires s.db.group.Some? || (s.workers[w].phase.Stopped? ==> t.workers[w].phase.Stopped?)
    requires PhaseInv(t, t.workers[w].phase) && (forall e <- t.workers[w].todo :: Delivered(t, e))
    ensures Inv(t)
  {
    WorkersKept(s, t, w);
    RecordsKept(s, t);
  }

  lemma PollingKeeps(s: State, w: Consumer, wk: Worker)
    requires Inv(s) && w in s.workers && (Running(s, w) || s.db.group.Some?)
    requires (wk.phase.Polling? || wk.phase.Draining? || wk.phase.Stopped?)
            && (wk.todo == [] || wk.todo == s.workers[w].todo)
    ensures Inv(SetWorker(s, w, wk))
  {
    LocalKeeps(s, SetWorker(s, w, wk), w);
  }

  lemma BeginKeeps(s: State, w: Consumer)
    requires Inv(s) && CanBegin(s, w)
    ensures Inv(OnBegin(s, w))
  {
    var todo := s.workers[w].todo;
    assert todo[0] in todo && forall e <- todo[1..] :: e in todo;
    LocalKeeps(s, OnBegin(s, w), w);
  }

  lemma ExportOkKeeps(s: State, w: Consumer, data: Bytes, dir: string)
    requires Inv(s) && FormatKnown(s, w)
    ensures Inv(OnExportOk(s, w, data, dir))
  {
    var t := OnExportOk(s, w, data, dir);
    var job := s.db.jobs[s.workers[w].phase.entry].jobId;
    assert Export(job, t.workers[w].phase.record.path, data) in t.log.exported;
    assert GoodRecord(t.log.accepted, t.log.exported, job, t.workers[w].phase.record);
    LocalKeeps(s, t, w);
  }

  lemma ExportRaisesKeeps(s: State, w: Consumer, error: string)
    requires Inv(s) && CanExport(s, w)
    ensures Inv(OnExportRaises(s, w, error))
  {
    LocalKeeps(s, OnExportRaises(s, w, error), w);
  }

  /** Leaving a publish unfinished only adds to the notes. */
  lemma LeaveLocal(s: State, w: Consumer, applied: bool)
    requires w in s.workers
    ensures LocalTo(s, Leave(s, w, applied), w) && Leave(s, w, applied).workers == s.workers
    ensures Leave(s, w, applied).log.forsaken == s.log.forsaken
    ensures Leave(s, w, applied).log.exported == s.log.exported
  {
    assert s.workers == s.workers[w := s.workers[w]];
  }

  lemma CancelKeeps(s: State, w: Consumer)
    requires Inv(s) && Running(s, w)
    ensures Inv(OnCancel(s, w))
  {
    LeaveLocal(s, w, false);
    LocalKeeps(s, OnCancel(s, w), w);
  }

  lemma CrashKeeps(s: State, w: Consumer)
    requires Inv(s) && Running(s, w)
    ensures Inv(OnCrash(s, w))
  {
    LeaveLocal(s, w, false);
    LocalKeeps(s, OnCrash(s, w), w);
  }

  lemma RaiseKeeps(s: State, w: Consumer, error: string)
    requires Inv(s) && CanPublish(s, w)
    ensures Inv(OnPublishRaises(s, w, error, false))
  {
    LeaveLocal(s, w, false);
    LocalKeeps(s, OnPublishRaises(s, w, error, false), w);
  }

  // Steps that change the consumer group.

  ghost predicate GroupOnly(s: State, t: State, w: Consumer) {
    && t.now == s.now && t.db == s.db.(group := t.db.group) && t.readers == s.readers && t.enqueuing == s.enqueuing
    && w in t.workers && t.workers == s.workers[w := t.workers[w]]
    && t.log == s.log.(groupStart := t.log.groupStart, acked := t.log.acked)
    && t.db.group.Some?
  }

  lemma GroupKeeps(s: State, t: State, w: Consumer)
    requires Inv(s) && GroupOnly(s, t, w) && Grows(s, t) && GroupInv(t) && AckedInv(t)
    requires PhaseInv(t, t.workers[w].phase) && (forall e <- t.workers[w].todo :: Delivered(t, e))
    ensures Inv(t)
  {
    WorkersKept(s, t, w);
  }

  lemma StartKeeps(s: State, w: Consumer)
    requires Inv(s) && !Running(s, w)
    ensures Inv(OnStart(s, w))
  {
    GroupKeeps(s, OnStart(s, w), w);
  }

  lemma ClaimKeeps(s: State, w: Consumer, es: seq<EntryId>)
    requires Inv(s) && CanClaim(s, w, es)
    ensures Inv(OnClaim(s, w, es))
  {
    var t := OnClaim(s, w, es);
    assert t.db.group.value.pending.Keys == s.db.group.value.pending.Keys;
    forall e <- es ensures Delivered(t, e) {
      assert e in s.db.group.value.pending;
    }
    GroupKeeps(s, t, w);
  }

  lemma DeliverKeeps(s: State, w: Consumer)
    requires Inv(s) && CanDeliver(s, w)
    ensures Inv(OnDeliver(s, w))
  {
    GroupKeeps(s, OnDeliver(s, w), w);
  }

  lemma AckKeeps(s: State, w: Consumer)
    requires Inv(s) && CanAck(s, w)
    ensures Inv(OnAck(s, w))
  {
    GroupKeeps(s, OnAck(s, w), w);
  }

  // A lost reply: the call took effect and the worker goes on as if it had not.

  lemma ClaimRaisesKeeps(s: State, w: Consumer, es: seq<EntryId>)
    requires Inv(s) && CanClaim(s, w, es)
    ensures Inv(OnClaimRaises(s, w, es))
  {
    var t := OnClaim(s, w, es);
    ClaimKeeps(s, w, es);
    PollingKeeps(t, w, t.workers[w].(todo := []));
  }

  lemma ReadRaisesKeeps(s: State, w: Consumer, applied: bool)
    requires Inv(s) && CanAct(s, w, ReadRaises(applied))
    ensures Inv(Act(s, w, ReadRaises(applied)))
  {
    if applied { DeliverKeeps(s, w); }
    PollingKeeps(if applied then OnDeliver(s, w) else s, w, Restart(s.workers[w]));
  }

  lemma AckRaisesKeeps(s: State, w: Consumer, applied: bool)
    requires Inv(s) && CanAck(s, w)
    ensures Inv(Act(s, w, AckRaises(applied)))
  {
    if applied { AckKeeps(s, w); }
    PollingKeeps(if applied then OnAck(s, w) else s, w, Restart(s.workers[w]));
  }

  // Steps that write records and expiries.

  lemma AddKeepsResults(s: State, job: JobId, r: Record)
    requires DataInv(s)
    ensures ResultsInv(s.log.published[job := PublishedFor(s.log, job) + [r]], AddResult(s.db, s.now, job, r).results)
  {
    var all := PublishedFor(s.log, job);
    match Lookup(s.db.results, job, s.now)
    case None => assert IsSuffix([r], all + [r]);
    case Some(now) => assert IsSuffix(now + [r], all + [r]);
  }

  lemma AddKeepsPublished(s: State, job: JobId, r: Record)
    requires DataInv(s) && GoodRecord(s.log.accepted, s.log.exported, job, r)
    ensures PublishedInv(s.log.accepted, s.log.exported, s.log.published[job := PublishedFor(s.log, job) + [r]])
  {
  }

  /** A write of `_publish` touches only the worker, the two keys of the job, and the log of publications. */
  lemma WrittenData(s: State, w: Consumer, next: Phase)
    requires Inv(s) && CanPublish(s, w)
    ensures DataInv(Written(s, w, next))
  {
    var p := s.workers[w].phase;
    var job := s.db.jobs[p.entry].jobId;
    match p.stage
    case ToAdd =>
      AddKeepsResults(s, job, p.record);
      AddKeepsPublished(s, job, p.record);
    case ToExpireResult =>
    case ToExpireOwner =>
  }

  lemma WrittenGrows(s: State, w: Consumer, next: Phase)
    requires CanPublish(s, w)
    ensures Grows(s, Written(s, w, next))
    ensures Written(s, w, next).db.group == s.db.group && Written(s, w, next).db.jobs == s.db.jobs
    ensures Written(s, w, next).log.acked == s.log.acked && Written(s, w, next).now == s.now
    ensures Written(s, w, next).workers == s.workers[w := s.workers[w].(phase := next)]
  {
  }

  lemma WrittenKeeps(s: State, w: Consumer, next: Phase)
    requires Inv(s) && CanPublish(s, w)
    requires PhaseInv(Written(s, w, next), next)
    ensures Inv(Written(s, w, next))
  {
    var t := Written(s, w, next);
    WrittenData(s, w, next);
    WrittenGrows(s, w, next);
    WorkersKept(s, t, w);
  }

  lemma PublishKeeps(s: State, w: Consumer)
    requires Inv(s) && CanPublish(s, w)
    ensures Inv(Written(s, w, AfterWrite(s.workers[w].phase)))
  {
    WrittenKeeps(s, w, AfterWrite(s.workers[w].phase));
  }

  /** The same for a write that took effect although the worker was told otherwise. */
  lemma AppliedRaiseKeeps(s: State, w: Consumer, error: string)
    requires Inv(s) && CanPublish(s, w)
    ensures Inv(OnPublishRaises(s, w, error, true))
  {
    var s1 := Leave(s, w, true);
    LeaveLocal(s, w, true);
    LocalKeeps(s, s1, w);
    WrittenKeeps(s1, w, AfterRaise(s, s.workers[w].phase, error));
  }

  // Steps of the handlers.

  lemma SetOwnerKeeps(s: State, f: Fields)
    requires Inv(s) && Enabled(s, SetOwner(f))
    ensures Inv(OnSetOwner(s, f))
  {
    SetOwnerData(s, f);
    AllWorkersKept(s, OnSetOwner(s, f));
  }

  lemma SetOwnerData(s: State, f: Fields)
    requires DataInv(s) && Enabled(s, SetOwner(f))
    ensures DataInv(OnSetOwner(s, f))
  {
    RecordsKept(s, OnSetOwner(s, f));
  }

  lemma AddJobKeeps(s: State, j: JobId)
    requires Inv(s) && j in s.enqueuing
    ensures Inv(OnAddJob(s, j))
  {
    var t := OnAddJob(s, j);
    AllWorkersKept(s, t);
  }

  /** Steps that touch neither Redis nor the workers nor what the log says about jobs. */
  lemma ReaderKeeps(s: State, t: State)
    requires Inv(s)
    requires t == s.(now := t.now, tokens := t.tokens, readers := t.readers, enqueuing := t.enqueuing, log := t.log)
    requires t.log == s.log.(answers := t.log.answers) && s.log.answers <= t.log.answers
    requires forall j <- t.enqueuing :: j in s.enqueuing && t.enqueuing[j] == s.enqueuing[j]
    requires ReadersInv(s.log.accepted, t.readers)
    requires AnswersInv(s.log.accepted, s.log.exported, t.log.answers)
    ensures Inv(t)
  {
    AllWorkersKept(s, t);
  }

  /** The owner check lets a caller through only to a job that caller enqueued. */
  lemma CheckOwnerKeeps(s: State, r: nat, caller: UserId, job: JobId)
    requires Inv(s)
    ensures Inv(OnCheckOwner(s, r, caller, job))
  {
    ReaderKeeps(s, OnCheckOwner(s, r, caller, job));
  }

  /** What a reader is shown is one of the records published for that job. */
  lemma VisibleWasPublished(s: State, job: JobId)
    requires DataInv(s) && Visible(s, job).Found?
    ensures job in s.log.published && Visible(s, job).record in s.log.published[job]
  {
    var stream := s.db.results[job].value;
    var all := s.log.published[job];
    assert stream[0] == all[|all| - |stream|];
  }

  lemma ReadResultKeeps(s: State, r: nat)
    requires Inv(s) && r in s.readers
    ensures Inv(OnReadResult(s, r))
  {
    var job := s.readers[r].job;
    var t := OnReadResult(s, r);
    forall x <- t.log.answers | x.reply.Found?
      ensures Owns(s.log.accepted, x.caller, x.job)
      ensures GoodRecord(s.log.accepted, s.log.exported, x.job, x.reply.record)
    {
      if x !in s.log.answers { VisibleWasPublished(s, job); }
    }
    ReaderKeeps(s, t);
  }

  lemma RaiseKeepsEither(s: State, w: Consumer, error: string, applied: bool)
    requires Inv(s) && CanPublish(s, w)
    ensures Inv(OnPublishRaises(s, w, error, applied))
  {
    if applied { AppliedRaiseKeeps(s, w, error); } else { RaiseKeeps(s, w, error); }
  }

  lemma ActKeeps(s: State, w: Consumer, action: Action)
    requires Inv(s) && CanAct(s, w, action)
    ensures Inv(Act(s, w, action))
  {
    match action
    case Start => StartKeeps(s, w);
    case Claim(es) => ClaimKeeps(s, w, es);
    case ClaimRaises(es) => ClaimRaisesKeeps(s, w, es);
    case Deliver => DeliverKeeps(s, w);
    case NothingNew => PollingKeeps(s, w, s.workers[w].(hasRead := true));
    case ReadRaises(applied) => ReadRaisesKeeps(s, w, applied);
    case EndPass => PollingKeeps(s, w, PassEnded(s.workers[w]));
    case Begin => BeginKeeps(s, w);
    case ExportOk(data, dir) => ExportOkKeeps(s, w, data, dir);
    case ExportRaises(error) => ExportRaisesKeeps(s, w, error);
    case Publish => PublishKeeps(s, w);
    case PublishRaises(error, applied) => RaiseKeepsEither(s, w, error, applied);
    case Ack => AckKeeps(s, w);
    case AckRaises(applied) => AckRaisesKeeps(s, w, applied);
    case Cancel => CancelKeeps(s, w);
    case Crash => CrashKeeps(s, w);
  }

  /** Every step of every participant, faults included, keeps the invariant. */
  lemma StepKeeps(s: State, step: Step)
    requires Inv(s) && Enabled(s, step)
    ensures Inv(Apply(s, step))
  {
    match step
    case Tick(_) => ReaderKeeps(s, Apply(s, step));
    case Grant(_) => ReaderKeeps(s, Apply(s, step));
    case SetOwner(f) => SetOwnerKeeps(s, f);
    case AddJob(j) => AddJobKeeps(s, j);
    case DropJob(j) => ReaderKeeps(s, Apply(s, step));
    case Work(w, action) => ActKeeps(s, w, action);
    case CheckOwner(r, caller, job) => CheckOwnerKeeps(s, r, caller, job);
    case ReadResult(r) => ReadResultKeeps(s, r);
  }
}
