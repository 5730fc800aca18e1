/** Safety of the job queue over whole runs. */
module JobTheorems {
  import opened Wrappers
  import opened Expiry
  import opened JobQueue
  import opened JobInvariants
  import opened JobFrames

  // ------------------------------------------- no entry is lost or duplicated

  ghost predicate Undelivered(s: State, e: EntryId) {
    s.db.group.Some? && s.db.group.value.next <= e < |s.db.jobs|
  }

  ghost predicate PendingEntry(s: State, e: EntryId) {
    s.db.group.Some? && e in s.db.group.value.pending
  }

  /** In every run, each entry added since the group began is undelivered, pending or acked, and only one of them. */
  lemma EntryIsInExactlyOnePlace(start: Time, steps: seq<Step>, e: EntryId)
    requires CanRun(Initial(start), steps)
    requires var s := Reached(start, steps); s.db.group.Some? && s.log.groupStart <= e < |s.db.jobs|
    ensures
      var s := Reached(start, steps);
      || (Undelivered(s, e) && !PendingEntry(s, e) && e !in s.log.acked)
      || (!Undelivered(s, e) && PendingEntry(s, e) && e !in s.log.acked)
      || (!Undelivered(s, e) && !PendingEntry(s, e) && e in s.log.acked)
  {
    ReachedKeeps(start, steps);
  }

  /** Only an ack, known to the worker or not, takes an entry out of the pending list. */
  lemma OnlyAckEndsPending(s: State, step: Step, e: EntryId)
    requires Inv(s) && Enabled(s, step) && PendingEntry(s, e) && !PendingEntry(Apply(s, step), e)
    ensures step.Work? && TakesAck(step.action) && s.workers[step.w].phase.entry == e
    ensures e in Apply(s, step).log.acked
  {
    if step.Work? { ActFrame(s, step.w, step.action); }
  }

  // --------------------------------------------- an acked job has been answered

  /** In every run an acked entry has a record, unless some worker was cut off before adding one. */
  lemma AckedIsAnsweredOrForsaken(start: Time, steps: seq<Step>, e: EntryId)
    requires CanRun(Initial(start), steps) && e in Reached(start, steps).log.acked
    ensures Answered(Reached(start, steps), e) || e in Reached(start, steps).log.forsaken
  {
    ReachedKeeps(start, steps);
  }

  /**
    The two ways to reach the ack in `finally` with nothing published: a
    cancelled task, which `except Exception` does not catch, and a failure
    record that could not be added.
   */
  predicate CutsOff(s: State, step: Step) {
    && step.Work? && step.w in s.workers
    && var p := s.workers[step.w].phase;
    && (p.Exporting? || p.Publishing?) && p.entry < |s.db.jobs|
    && PublishedFor(s.log, s.db.jobs[p.entry].jobId) == []
    && (step.action.Cancel? || (step.action.PublishRaises? && p.Publishing? && p.recovering && !step.action.applied))
  }

  /** Exactly those steps leave an entry forsaken. */
  lemma ForsakenExactly(s: State, step: Step)
    requires Enabled(s, step)
    ensures Apply(s, step).log.forsaken ==
            if CutsOff(s, step) then s.log.forsaken + {s.workers[step.w].phase.entry} else s.log.forsaken
  {
    if step.Work? {
      if step.action.Cancel? {
        CancelForsakes(s, step.w);
      } else if step.action.PublishRaises? {
        RaiseForsakes(s, step.w, step.action.error, step.action.applied);
      } else {
        ActFrame(s, step.w, step.action);
      }
    }
  }

  lemma CancelForsakes(s: State, w: Consumer)
    requires Running(s, w)
    ensures OnCancel(s, w).log.forsaken ==
            if CutsOff(s, Work(w, Cancel)) then s.log.forsaken + {s.workers[w].phase.entry} else s.log.forsaken
  {
    LeaveLocal(s, w, false);
  }

  lemma RaiseForsakes(s: State, w: Consumer, error: string, applied: bool)
    requires CanPublish(s, w)
    ensures OnPublishRaises(s, w, error, applied).log.forsaken ==
            if CutsOff(s, Work(w, PublishRaises(error, applied)))
            then s.log.forsaken + {s.workers[w].phase.entry} else s.log.forsaken
  {
    LeaveLocal(s, w, applied);
  }

  predicate NeverCutsOff(s: State, steps: seq<Step>)
    requires CanRun(s, steps)
    decreases |steps|
  {
    steps != [] ==> !CutsOff(s, steps[0]) && NeverCutsOff(Apply(s, steps[0]), steps[1..])
  }

  lemma NothingForsaken(s: State, steps: seq<Step>)
    requires CanRun(s, steps) && NeverCutsOff(s, steps)
    ensures Run(s, steps).log.forsaken == s.log.forsaken
    decreases |steps|
  {
    if steps != [] {
      ForsakenExactly(s, steps[0]);
      NothingForsaken(Apply(s, steps[0]), steps[1..]);
    }
  }

  /**
    If no step cuts a job off, then crashes, failed writes and duplicates
    notwithstanding, every acked entry is answered.
   */
  lemma AckedIsAnswered(start: Time, steps: seq<Step>, e: EntryId)
    requires CanRun(Initial(start), steps) && NeverCutsOff(Initial(start), steps)
    requires e in Reached(start, steps).log.acked
    ensures Answered(Reached(start, steps), e)
  {
    AckedIsAnsweredOrForsaken(start, steps, e);
    NothingForsaken(Initial(start), steps);
  }

  /** Conversely each such step on a pending entry, followed by the ack it leads to, loses the job. */
  lemma CutOffIsLost(s: State, step: Step)
    requires Inv(s) && Enabled(s, step) && CutsOff(s, step) && PendingEntry(s, s.workers[step.w].phase.entry)
    ensures
      var e := s.workers[step.w].phase.entry;
      && CanRun(s, [step, Work(step.w, Ack)])
      && var t := Run(s, [step, Work(step.w, Ack)]);
      && e in t.log.acked && !PendingEntry(t, e) && !Answered(t, e)
  {
    var w := step.w;
    CutOffThenAck(s, w, step.action);
    var s1 := Apply(s, step);
    assert [step, Work(w, Ack)][1..] == [Work(w, Ack)];
    assert CanRun(Apply(s1, Work(w, Ack)), []);
    assert CanRun(s1, [Work(w, Ack)]);
    assert Run(s1, [Work(w, Ack)]) == Apply(s1, Work(w, Ack));
  }

  lemma CutOffThenAck(s: State, w: Consumer, action: Action)
    requires CanAct(s, w, action) && CutsOff(s, Work(w, action)) && PendingEntry(s, s.workers[w].phase.entry)
    ensures
      var e := s.workers[w].phase.entry;
      var s1 := Act(s, w, action);
      && CanAct(s1, w, Ack)
      && var t := Act(s1, w, Ack);
      && e in t.log.acked && !PendingEntry(t, e) && !Answered(t, e)
  {
    LeaveLocal(s, w, false);
  }

  /** The three formats, with what Drive is asked for. */
  ghost predicate IsMimeOf(format: string, mime: string) {
    || (format == "pdf" && mime == "application/pdf")
    || (format == "docx" && mime == "application/vnd.openxmlformats-officedocument.wordprocessingml.document")
    || (format == "txt" && mime == "text/plain")
  }

  lemma FormatsAreExact(format: string)
    ensures format in EXPORT_FORMATS <==> format == "pdf" || format == "docx" || format == "txt"
    ensures format in EXPORT_FORMATS ==>
            IsMimeOf(format, EXPORT_FORMATS[format].mime) && EXPORT_FORMATS[format].ext == format
  {
  }

  /**
    A completed record names the mime type of the requested format, and the file
    and size of an export made for that job.
   */
  lemma PublishedRecordIsTrue(start: Time, steps: seq<Step>, job: JobId, r: Record)
    requires CanRun(Initial(start), steps)
    requires r in PublishedFor(Reached(start, steps).log, job)
    ensures
      var l := Reached(start, steps).log;
      && job in l.accepted && r.userId == l.accepted[job].userId
      && (r.Completed? ==>
            && IsMimeOf(l.accepted[job].format, r.mime)
            && exists data :: Export(job, r.path, data) in l.exported && r.sizeBytes == |data|)
  {
    ReachedKeeps(start, steps);
    FormatsAreExact(Reached(start, steps).log.accepted[job].format);
  }

  // ------------------------------------------------- only the owner sees a record

  /** In every run, a record handed to a caller bears that caller's id and comes from a job that caller enqueued. */
  lemma RecordsReachOnlyTheirOwner(start: Time, steps: seq<Step>, x: Answer)
    requires CanRun(Initial(start), steps)
    requires x in Reached(start, steps).log.answers && x.reply.Found?
    ensures x.reply.record.userId == x.caller
    ensures Owns(Reached(start, steps).log.accepted, x.caller, x.job)
    ensures x.job in Reached(start, steps).log.published
    ensures x.reply.record in Reached(start, steps).log.published[x.job]
  {
    ReachedKeeps(start, steps);
    AnswersWerePublished(Initial(start), steps);
  }

  ghost predicate AnswersPublished(s: State) {
    forall x <- s.log.answers | x.reply.Found? :: x.reply.record in PublishedFor(s.log, x.job)
  }

  lemma AnswersWerePublished(s: State, steps: seq<Step>)
    requires Inv(s) && AnswersPublished(s) && CanRun(s, steps)
    ensures AnswersPublished(Run(s, steps))
    decreases |steps|
  {
    if steps != [] {
      var t := Apply(s, steps[0]);
      StepKeeps(s, steps[0]);
      StepGrows(s, steps[0]);
      AnswerStep(s, steps[0]);
      AnswersWerePublished(t, steps[1..]);
    }
  }

  lemma AnswerStep(s: State, step: Step)
    requires Inv(s) && AnswersPublished(s) && Enabled(s, step) && Grows(s, Apply(s, step))
    ensures AnswersPublished(Apply(s, step))
  {
    var t := Apply(s, step);
    forall x <- t.log.answers | x.reply.Found? ensures x.reply.record in PublishedFor(t.log, x.job) {
      if x in s.log.answers {
        assert PublishedFor(s.log, x.job) <= PublishedFor(t.log, x.job);
      } else {
        if step.Work? { ActFrame(s, step.w, step.action); }
        VisibleWasPublished(s, x.job);
      }
    }
  }

  // -------------------------------------------- the first record is the one seen

  ghost predicate ResultLive(s: State, job: JobId) {
    Lookup(s.db.results, job, s.now).Some?
  }

  /** The results key of `job` is there before the run, after it, and after every step between. */
  ghost predicate LiveThroughout(s: State, steps: seq<Step>, job: JobId)
    requires CanRun(s, steps)
    decreases |steps|
  {
    ResultLive(s, job) && (steps != [] ==> LiveThroughout(Apply(s, steps[0]), steps[1..], job))
  }

  lemma WrittenResults(s: State, w: Consumer, next: Phase, job: JobId)
    requires CanPublish(s, w) && ResultLive(s, job)
    ensures ResultLive(Written(s, w, next), job)
    ensures s.db.results[job].value <= Written(s, w, next).db.results[job].value
  {
  }

  lemma StepExtendsResults(s: State, step: Step, job: JobId)
    requires Enabled(s, step) && ResultLive(s, job)
    ensures job in Apply(s, step).db.results && s.db.results[job].value <= Apply(s, step).db.results[job].value
  {
    if step.Work? {
      var w := step.w;
      if step.action.Publish? {
        WrittenResults(s, w, AfterWrite(s.workers[w].phase), job);
      } else if step.action.PublishRaises? {
        LeaveLocal(s, w, step.action.applied);
        if step.action.applied {
          WrittenResults(Leave(s, w, true), w, AfterRaise(s, s.workers[w].phase, step.action.error), job);
        }
      } else {
        ActFrame(s, w, step.action);
      }
    }
  }

  /** While its results key lives, what a job's reader sees never changes, whoever publishes again. */
  lemma VisibleRecordIsStable(s: State, steps: seq<Step>, job: JobId)
    requires Inv(s) && CanRun(s, steps) && LiveThroughout(s, steps, job)
    ensures Visible(s, job).Found? && Visible(Run(s, steps), job) == Visible(s, job)
    decreases |steps|
  {
    if steps != [] {
      StepExtendsResults(s, steps[0], job);
      StepKeeps(s, steps[0]);
      VisibleRecordIsStable(Apply(s, steps[0]), steps[1..], job);
    }
  }

  /**
    If the key has lived since the job's first record was added, every reader
    sees that first record, however many workers have published for the job.
   */
  lemma FirstPublishedIsSeen(start: Time, before: seq<Step>, step: Step, after: seq<Step>, job: JobId)
    requires CanRun(Initial(start), before) && PublishedFor(Reached(start, before).log, job) == []
    requires Enabled(Reached(start, before), step)
    requires var s := Apply(Reached(start, before), step);
             |PublishedFor(s.log, job)| == 1 && CanRun(s, after) && LiveThroughout(s, after, job)
    ensures var t := Run(Apply(Reached(start, before), step), after);
            PublishedFor(t.log, job) != [] && Visible(t, job) == Found(PublishedFor(t.log, job)[0])
  {
    var s0 := Reached(start, before);
    ReachedKeeps(start, before);
    var s := Apply(s0, step);
    StepKeeps(s0, step);
    VisibleRecordIsStable(s, after, job);
    VisibleWasPublished(s, job);
    RunGrows(s, after);
    assert PublishedFor(s.log, job) <= PublishedFor(Run(s, after).log, job);
  }
}
