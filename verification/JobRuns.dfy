/** Runs from an empty Redis that show what can happen to a job. */
module JobRuns {
  import opened Wrappers
  import opened Expiry
  import opened JobQueue
  import opened JobInvariants
  import opened JobFrames
  import opened JobTheorems
  import opened JobExpiry
  import opened JobFiles

  // ------------------------------------------------------------------ a job begun

  /** One job in the stream, its owner key just set, and `w` at the top of its loop. */
  ghost predicate JustEnqueued(s: State, start: Time, w: Consumer, f: Fields) {
    && s.now == start && s.db.jobs == [f] && s.log.published == map[] && s.db.results == map[]
    && s.db.owners == map[f.jobId := Cell(f.userId, Some(start + 3600.0))]
    && s.db.group == Some(Group(0, map[])) && s.workers == map[w := FRESH_WORKER]
  }

  lemma EnqueuedJob(start: Time, w: Consumer, f: Fields) returns (steps: seq<Step>)
    requires f.format in EXPORT_FORMATS
    ensures CanRun(Initial(start), steps) && JustEnqueued(Reached(start, steps), start, w, f)
  {
    steps := [Work(w, Start), SetOwner(f), AddJob(f.jobId)];
    RunThree(Initial(start), steps[0], steps[1], steps[2]);
  }

  /** `w` has been delivered that job and begun it. */
  ghost predicate JustBegun(s: State, start: Time, w: Consumer, f: Fields) {
    && s.now == start && s.db.jobs == [f] && s.log.published == map[] && s.db.results == map[]
    && s.db.owners == map[f.jobId := Cell(f.userId, Some(start + 3600.0))]
    && s.db.group == Some(Group(1, map[0 := Delivery(w, start)]))
    && w in s.workers && s.workers.Keys == {w} && s.workers[w].phase == Exporting(0)
  }

  lemma BegunJob(start: Time, w: Consumer, f: Fields) returns (steps: seq<Step>)
    requires f.format in EXPORT_FORMATS
    ensures CanRun(Initial(start), steps) && JustBegun(Reached(start, steps), start, w, f)
  {
    var enqueued := EnqueuedJob(start, w, f);
    var begin := [Work(w, Claim([])), Work(w, Deliver), Work(w, Begin)];
    RunThree(Reached(start, enqueued), begin[0], begin[1], begin[2]);
    RunConcat(Initial(start), enqueued, begin);
    steps := enqueued + begin;
  }

  /** The worker of a job so begun is cancelled: the job is acked and never answered. */
  lemma CancelledJobIsLost(start: Time, w: Consumer, f: Fields) returns (steps: seq<Step>)
    requires f.format in EXPORT_FORMATS
    ensures CanRun(Initial(start), steps)
    ensures
      var t := Reached(start, steps);
      [f] <= t.db.jobs && 0 in t.log.acked && !PendingEntry(t, 0) && !Answered(t, 0)
  {
    var end := [Work(w, Cancel), Work(w, Ack)];
    var begun := BegunJob(start, w, f);
    ReachedKeeps(start, begun);
    CutOffIsLost(Reached(start, begun), end[0]);
    RunConcat(Initial(start), begun, end);
    RunGrows(Reached(start, begun), end);
    steps := begun + end;
  }

  // ------------------------------------------------------------- a job exported and published

  function RecordOf(f: Fields, data: Bytes, dir: string): Record
    requires f.format in EXPORT_FORMATS
  {
    var fmt := EXPORT_FORMATS[f.format];
    Completed(ExportPath(dir, f.jobId, fmt.ext), |data|, fmt.mime, f.userId)
  }

  /** The export has taken `wait`; its record is about to be published. */
  ghost predicate JustExported(s: State, start: Time, w: Consumer, f: Fields, r: Record, wait: Time) {
    && s.now == start + wait && s.db.jobs == [f] && s.log.published == map[] && s.db.results == map[]
    && s.db.owners == map[f.jobId := Cell(f.userId, Some(start + 3600.0))]
    && s.db.group == Some(Group(1, map[0 := Delivery(w, start)]))
    && w in s.workers && s.workers.Keys == {w} && s.workers[w].phase == Publishing(0, r, ToAdd, false)
    && f.userId in s.tokens
  }

  lemma ExportedJob(start: Time, w: Consumer, f: Fields, data: Bytes, dir: string, wait: Time)
    returns (steps: seq<Step>)
    requires f.format in EXPORT_FORMATS && wait >= 0.0
    ensures CanRun(Initial(start), steps) && Grant(f.userId) in steps
    ensures JustExported(Reached(start, steps), start, w, f, RecordOf(f, data, dir), wait)
  {
    var begun := BegunJob(start, w, f);
    var exporting := [Grant(f.userId), Tick(wait), Work(w, ExportOk(data, dir))];
    RunThree(Reached(start, begun), exporting[0], exporting[1], exporting[2]);
    RunConcat(Initial(start), begun, exporting);
    steps := begun + exporting;
  }

  /** The publish is complete, `wait` after the job was enqueued. */
  ghost predicate PublishDone(s: State, start: Time, w: Consumer, f: Fields, r: Record, wait: Time) {
    && s.now == start + wait && s.db.jobs == [f] && PublishedFor(s.log, f.jobId) == [r]
    && f.jobId in s.db.results && s.db.results[f.jobId] == Cell([r], Some(s.now + 3600.0))
    && Lookup(s.db.owners, f.jobId, s.now) == (if wait <= 3600.0 then Some(f.userId) else None)
    && s.db.group == Some(Group(1, map[0 := Delivery(w, start)]))
    && w in s.workers && s.workers.Keys == {w} && s.workers[w].phase == Acking(0, Resume) && f.userId in s.tokens
  }

  /** The record has been added; `stage` is the call that comes next. */
  ghost predicate JustAdded(s: State, start: Time, w: Consumer, f: Fields, r: Record, wait: Time, stage: Stage) {
    && s.now == start + wait && s.db.jobs == [f] && PublishedFor(s.log, f.jobId) == [r]
    && f.jobId in s.db.results && s.db.results[f.jobId].value == [r] && Live(s.db.results[f.jobId].expiry, s.now)
    && (stage.ToExpireOwner? ==> s.db.results[f.jobId].expiry == Some(s.now + 3600.0))
    && s.db.owners == map[f.jobId := Cell(f.userId, Some(start + 3600.0))]
    && s.db.group == Some(Group(1, map[0 := Delivery(w, start)]))
    && w in s.workers && s.workers.Keys == {w} && s.workers[w].phase == Publishing(0, r, stage, false)
    && f.userId in s.tokens
  }

  lemma PublishFirst(s: State, start: Time, w: Consumer, f: Fields, r: Record, wait: Time)
    requires JustExported(s, start, w, f, r, wait)
    ensures Enabled(s, Work(w, Publish))
    ensures JustAdded(Apply(s, Work(w, Publish)), start, w, f, r, wait, ToExpireResult)
  {
    assert [] + [r] == [r];
  }

  lemma PublishSecond(s: State, start: Time, w: Consumer, f: Fields, r: Record, wait: Time)
    requires JustAdded(s, start, w, f, r, wait, ToExpireResult)
    ensures Enabled(s, Work(w, Publish))
    ensures JustAdded(Apply(s, Work(w, Publish)), start, w, f, r, wait, ToExpireOwner)
  {
  }

  lemma PublishThird(s: State, start: Time, w: Consumer, f: Fields, r: Record, wait: Time)
    requires JustAdded(s, start, w, f, r, wait, ToExpireOwner)
    ensures Enabled(s, Work(w, Publish)) && PublishDone(Apply(s, Work(w, Publish)), start, w, f, r, wait)
  {
  }

  /** With a token, the job of any user completes; and its owner can read it if the publish was in time. */
  lemma GrantedJobCompletes(start: Time, w: Consumer, f: Fields, data: Bytes, dir: string, wait: Time)
    returns (steps: seq<Step>)
    requires f.format in EXPORT_FORMATS && wait >= 0.0
    ensures CanRun(Initial(start), steps) && Grant(f.userId) in steps
    ensures PublishDone(Reached(start, steps), start, w, f, RecordOf(f, data, dir), wait)
    ensures Visible(Reached(start, steps), f.jobId) == Found(RecordOf(f, data, dir))
  {
    var exported := ExportedJob(start, w, f, data, dir, wait);
    var publish := Work(w, Publish);
    var s := Reached(start, exported);
    PublishFirst(s, start, w, f, RecordOf(f, data, dir), wait);
    PublishSecond(Apply(s, publish), start, w, f, RecordOf(f, data, dir), wait);
    PublishThird(Apply(Apply(s, publish), publish), start, w, f, RecordOf(f, data, dir), wait);
    RunThree(s, publish, publish, publish);
    RunConcat(Initial(start), exported, [publish, publish, publish]);
    steps := exported + [publish, publish, publish];
  }

  /** Published more than an hour after the job was enqueued, the record is there and its owner can never read it. */
  lemma LateResultIsUnreadable(start: Time, w: Consumer, f: Fields, data: Bytes, dir: string, wait: Time)
    returns (steps: seq<Step>)
    requires f.format in EXPORT_FORMATS && wait > 3600.0
    ensures CanRun(Initial(start), steps)
    ensures
      var s := Reached(start, steps);
      Visible(s, f.jobId) == Found(RecordOf(f, data, dir)) && Ownerless(s, f.jobId)
  {
    steps := GrantedJobCompletes(start, w, f, data, dir, wait);
    ReachedKeeps(start, steps);
    assert f in Reached(start, steps).db.jobs;
  }

  // ------------------------------------------------------------- a job exported twice

  /** Before `w` has acked the published job, another worker claims it, a minute later, and begins it. */
  lemma ClaimedAgain(start: Time, w: Consumer, v: Consumer, f: Fields, data: Bytes, dir: string)
    returns (steps: seq<Step>)
    requires f.format in EXPORT_FORMATS && w != v
    ensures CanRun(Initial(start), steps)
    ensures
      var s := Reached(start, steps);
      && s.db.jobs == [f] && f.userId in s.tokens && v in s.workers && s.workers[v].phase == Exporting(0)
      && Visible(s, f.jobId) == Found(RecordOf(f, data, dir))
  {
    var published := GrantedJobCompletes(start, w, f, data, dir, 0.0);
    var s := Reached(start, published);
    var claim := [Work(v, Start), Tick(60.0), Work(v, Claim([0]))];
    RunThree(s, claim[0], claim[1], claim[2]);
    RunConcat(Initial(start), published, claim);
    RunThen(Initial(start), published + claim, Work(v, Begin));
    steps := published + claim + [Work(v, Begin)];
  }

  /** Its export goes to the same file, while the record that readers see is still the first. */
  lemma DuplicateExportBeliesTheRecord(
      start: Time, w: Consumer, v: Consumer, f: Fields, data: Bytes, data': Bytes, dir: string)
    returns (steps: seq<Step>)
    requires f.format in EXPORT_FORMATS && w != v
    ensures CanRun(Initial(start), steps)
    ensures
      var r := RecordOf(f, data, dir);
      && Visible(Reached(start, steps), f.jobId) == Found(r)
      && FileAfter(Initial(start), steps, r.path) == Some(data')
  {
    var claimed := ClaimedAgain(start, w, v, f, data, dir);
    var again := Work(v, ExportOk(data', dir));
    RunThen(Initial(start), claimed, again);
    RecordDescribesItsFile(start, claimed, v, data', dir, []);
    steps := claimed + [again];
    assert WithExport(claimed, v, data', dir, []) == steps;
  }
}
