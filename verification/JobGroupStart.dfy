/** Where the consumer group begins, and what becomes of jobs added before it. */
module JobGroupStart {
  import opened Wrappers
  import opened Expiry
  import opened JobQueue
  import opened JobInvariants
  import opened JobFrames
  import opened JobTheorems

  /** Records are published only for entries that were delivered. */
  ghost predicate PublishedDelivered(s: State) {
    forall j <- s.log.published :: FromDelivered(s, j)
  }

  ghost predicate FromDelivered(s: State, j: JobId) {
    exists e: EntryId :: Delivered(s, e) && s.db.jobs[e].jobId == j
  }

  lemma FromDeliveredKept(s: State, t: State, j: JobId)
    requires FromDelivered(s, j) && Grows(s, t) && GroupBounds(t)
    ensures FromDelivered(t, j)
  {
    var e: EntryId :| Delivered(s, e) && s.db.jobs[e].jobId == j;
    assert Delivered(t, e) && t.db.jobs[e].jobId == j;
  }

  lemma DeliveredKept(s: State, t: State)
    requires PublishedDelivered(s) && Grows(s, t) && t.log.published == s.log.published && GroupBounds(t)
    ensures PublishedDelivered(t)
  {
    forall j <- t.log.published ensures FromDelivered(t, j) {
      FromDeliveredKept(s, t, j);
    }
  }

  lemma WrittenDelivered(s: State, w: Consumer, next: Phase)
    requires Inv(s) && PublishedDelivered(s) && CanPublish(s, w)
    ensures PublishedDelivered(Written(s, w, next))
  {
    var t := Written(s, w, next);
    var job := s.db.jobs[s.workers[w].phase.entry].jobId;
    WrittenGrows(s, w, next);
    HeldIsDelivered(s, w);
    forall j <- t.log.published ensures FromDelivered(t, j) {
      assert j == job || j in s.log.published;
      FromDeliveredKept(s, t, j);
    }
  }

  lemma HeldIsDelivered(s: State, w: Consumer)
    requires Inv(s) && CanPublish(s, w)
    ensures FromDelivered(s, s.db.jobs[s.workers[w].phase.entry].jobId) && GroupBounds(s)
  {
    assert PhaseInv(s, s.workers[w].phase);
  }

  lemma ActDelivered(s: State, w: Consumer, action: Action)
    requires Inv(s) && PublishedDelivered(s) && CanAct(s, w, action) && GroupBounds(Act(s, w, action))
    ensures PublishedDelivered(Act(s, w, action))
  {
    if action.Publish? {
      WrittenDelivered(s, w, AfterWrite(s.workers[w].phase));
    } else if action.PublishRaises? {
      RaiseDelivered(s, w, action.error, action.applied);
    } else {
      ActFrame(s, w, action);
      ActGrows(s, w, action);
      DeliveredKept(s, Act(s, w, action));
    }
  }

  lemma RaiseDelivered(s: State, w: Consumer, error: string, applied: bool)
    requires Inv(s) && PublishedDelivered(s) && CanPublish(s, w)
    ensures PublishedDelivered(OnPublishRaises(s, w, error, applied))
  {
    var s1 := Leave(s, w, applied);
    LeaveLocal(s, w, applied);
    if applied {
      LocalKeeps(s, s1, w);
      DeliveredKept(s, s1);
      WrittenDelivered(s1, w, AfterRaise(s, s.workers[w].phase, error));
    } else {
      RaiseGrows(s, w, error, false);
      DeliveredKept(s, OnPublishRaises(s, w, error, false));
    }
  }

  lemma StepDelivered(s: State, step: Step)
    requires Inv(s) && PublishedDelivered(s) && Enabled(s, step) && GroupBounds(Apply(s, step))
    ensures PublishedDelivered(Apply(s, step))
  {
    if step.Work? {
      ActDelivered(s, step.w, step.action);
    } else {
      QuietDelivered(s, step);
    }
  }

  lemma QuietDelivered(s: State, step: Step)
    requires PublishedDelivered(s) && Enabled(s, step) && !step.Work? && GroupBounds(Apply(s, step))
    ensures PublishedDelivered(Apply(s, step))
  {
    StepGrows(s, step);
    DeliveredKept(s, Apply(s, step));
  }

  lemma {:induction false} PublishedStayDelivered(s: State, steps: seq<Step>)
    requires Inv(s) && PublishedDelivered(s) && CanRun(s, steps)
    ensures PublishedDelivered(Run(s, steps))
    decreases |steps|
  {
    if steps != [] {
      var t := Apply(s, steps[0]);
      StepKeeps(s, steps[0]);
      StepDelivered(s, steps[0]);
      PublishedStayDelivered(t, steps[1..]);
    }
  }

  /**
    The group begins at the end of the stream.  A job added before that is never
    delivered, acked or answered, in any continuation of any run.
   */
  lemma JobBeforeTheGroupIsNeverAnswered(start: Time, steps: seq<Step>, e: EntryId)
    requires CanRun(Initial(start), steps)
    requires var s := Reached(start, steps); s.db.group.Some? && e < s.log.groupStart
    ensures
      var s := Reached(start, steps);
      !PendingEntry(s, e) && !Undelivered(s, e) && e !in s.log.acked && !Answered(s, e)
  {
    ReachedKeeps(start, steps);
    PublishedStayDelivered(Initial(start), steps);
    assert GroupInv(Reached(start, steps));
  }

  /** Such a job there is whenever a handler is done before the first worker starts. */
  lemma JobCanPrecedeTheGroup(start: Time, w: Consumer, f: Fields) returns (steps: seq<Step>)
    requires f.format in EXPORT_FORMATS
    ensures CanRun(Initial(start), steps)
    ensures var s := Reached(start, steps); s.db.jobs == [f] && s.db.group.Some? && 0 < s.log.groupStart
  {
    steps := [SetOwner(f), AddJob(f.jobId), Work(w, Start)];
    RunThree(Initial(start), steps[0], steps[1], steps[2]);
  }
}
