/** What a worker can always do next, what ends it, and where the errors in failure records come from. */
module JobFaults {
  import opened Expiry
  import opened JobQueue
  import opened JobInvariants
  import opened JobFrames
  import opened JobTheorems

  // ------------------------------------------------------------- no worker is ever stuck

  /** Whatever its phase, the worker's next call is possible, and can fail with and without effect. */
  ghost predicate CanGoOn(s: State, w: Consumer)
    requires w in s.workers
  {
    match s.workers[w].phase
    case Polling => CanAct(s, w, Claim([])) && CanAct(s, w, ClaimRaises([]))
    case Draining =>
      if s.workers[w].todo != [] then CanAct(s, w, Begin)
      else if s.workers[w].hasRead then CanAct(s, w, EndPass)
      else
        && CanAct(s, w, ReadRaises(false))
        && (if Waiting(s) then CanAct(s, w, Deliver) && CanAct(s, w, ReadRaises(true)) else CanAct(s, w, NothingNew))
    case Exporting(e) =>
      && (forall error :: CanAct(s, w, ExportRaises(error)))
      && (e < |s.db.jobs| && s.db.jobs[e].userId in s.tokens ==>
            forall data, dir :: CanAct(s, w, ExportOk(data, dir)))
    case Publishing(_, _, _, _) =>
      CanAct(s, w, Publish) && forall error, applied :: CanAct(s, w, PublishRaises(error, applied))
    case Acking(_, _) => CanAct(s, w, Ack) && CanAct(s, w, AckRaises(false)) && CanAct(s, w, AckRaises(true))
    case Stopped => CanAct(s, w, Start)
  }

  /** An entry of the stream is still to be delivered. */
  ghost predicate Waiting(s: State) {
    s.db.group.Some? && s.db.group.value.next < |s.db.jobs|
  }

  /** In every run every worker can go on, and one that has not stopped can be cancelled or killed at any point. */
  lemma NeverStuck(start: Time, steps: seq<Step>, w: Consumer)
    requires CanRun(Initial(start), steps) && w in Reached(start, steps).workers
    ensures
      var s := Reached(start, steps);
      CanGoOn(s, w) && (!s.workers[w].phase.Stopped? ==> CanAct(s, w, Cancel) && CanAct(s, w, Crash))
  {
    ReachedKeeps(start, steps);
    InHand(Reached(start, steps), w);
    GoesOn(Reached(start, steps), w);
  }

  /** The group is there and the entry in hand is a job with a known format. */
  ghost predicate Sound(s: State, w: Consumer)
    requires w in s.workers
  {
    var p := s.workers[w].phase;
    && (!p.Stopped? ==> s.db.group.Some?)
    && (p.Exporting? || p.Publishing? ==> p.entry < |s.db.jobs| && s.db.jobs[p.entry].format in EXPORT_FORMATS)
  }

  lemma InHand(s: State, w: Consumer)
    requires Inv(s) && w in s.workers
    ensures Sound(s, w)
  {
    assert PhaseInv(s, s.workers[w].phase);
  }

  lemma GoesOn(s: State, w: Consumer)
    requires w in s.workers && Sound(s, w)
    ensures CanGoOn(s, w) && (!s.workers[w].phase.Stopped? ==> CanAct(s, w, Cancel) && CanAct(s, w, Crash))
  {
  }

  // --------------------------------------------------------------- the end of a worker

  predicate IsOver(wk: Worker) {
    wk.phase.Stopped? || (wk.phase.Acking? && wk.phase.after.Cancelled?)
  }

  /** The step is an action of `w` other than these: its last ack, another blow, or a new start. */
  predicate DoesWork(step: Step, w: Consumer) {
    && step.Work? && step.w == w && !step.action.Ack? && !step.action.AckRaises?
    && !step.action.Cancel? && !step.action.Crash? && !step.action.Start?
  }

  predicate Revives(step: Step, w: Consumer) {
    step.Work? && step.w == w && (step.action.Start? || step.action.AckRaises?)
  }

  lemma OverStep(s: State, step: Step, w: Consumer)
    requires Enabled(s, step) && w in s.workers && IsOver(s.workers[w]) && !Revives(step, w)
    ensures !DoesWork(step, w) && w in Apply(s, step).workers && IsOver(Apply(s, step).workers[w])
  {
    if step.Work? { ActFrame(s, step.w, step.action); }
  }

  lemma {:induction false} OverRun(s: State, steps: seq<Step>, w: Consumer)
    requires CanRun(s, steps) && w in s.workers && IsOver(s.workers[w]) && forall x <- steps :: !Revives(x, w)
    ensures forall x <- steps :: !DoesWork(x, w)
    decreases |steps|
  {
    if steps != [] {
      assert steps[0] in steps && forall x <- steps[1..] :: x in steps;
      OverStep(s, steps[0], w);
      OverRun(Apply(s, steps[0]), steps[1..], w);
    }
  }

  /**
    A worker that was cancelled or killed does nothing more, but for the ack of
    the entry it held when cancelled, until it is started again; except that an
    ack that raises takes the place of the cancellation, and the loop goes on.
   */
  lemma StoppedWorkerDoesNothing(s: State, w: Consumer, blow: Action, steps: seq<Step>)
    requires CanAct(s, w, blow) && (blow.Crash? || (blow.Cancel? && !s.workers[w].phase.Acking?))
    requires CanRun(Act(s, w, blow), steps) && forall x <- steps :: !Revives(x, w)
    ensures forall x <- steps :: !DoesWork(x, w)
    ensures blow.Crash? ==> forall x <- steps :: !(x.Work? && x.w == w && x.action.Ack?)
  {
    BlowEnds(s, w, blow);
    OverRun(Act(s, w, blow), steps, w);
    if blow.Crash? { CrashedAcksNothing(Act(s, w, blow), steps, w); }
  }

  lemma BlowEnds(s: State, w: Consumer, blow: Action)
    requires CanAct(s, w, blow) && (blow.Crash? || (blow.Cancel? && !s.workers[w].phase.Acking?))
    ensures w in Act(s, w, blow).workers && IsOver(Act(s, w, blow).workers[w])
    ensures blow.Crash? ==> Act(s, w, blow).workers[w].phase.Stopped?
  {
    LeaveLocal(s, w, false);
  }

  lemma {:induction false} CrashedAcksNothing(s: State, steps: seq<Step>, w: Consumer)
    requires CanRun(s, steps) && w in s.workers && s.workers[w].phase.Stopped? && forall x <- steps :: !Revives(x, w)
    ensures forall x <- steps :: !(x.Work? && x.w == w && x.action.Ack?)
    decreases |steps|
  {
    if steps != [] {
      assert steps[0] in steps && forall x <- steps[1..] :: x in steps;
      if steps[0].Work? { ActFrame(s, steps[0].w, steps[0].action); }
      CrashedAcksNothing(Apply(s, steps[0]), steps[1..], w);
    }
  }

  // ---------------------------------------------------------- what an exception leaves behind

  /** The action lets an exception out of `_process` or of the read: the loop starts over. */
  predicate Escapes(s: State, w: Consumer, action: Action) {
    action.ReadRaises? || action.AckRaises?
    || (action.Ack? && w in s.workers && s.workers[w].phase.Acking? && s.workers[w].phase.after.Raising?)
  }

  /** An exception abandons the batch; what is left of it stays pending as it was, unless it is the entry acked. */
  lemma ExceptionAbandonsBatch(s: State, w: Consumer, action: Action, e: EntryId)
    requires CanAct(s, w, action) && Escapes(s, w, action)
    ensures
      var t := Act(s, w, action);
      && w in t.workers && t.workers[w].phase.Polling? && t.workers[w].todo == []
      && (PendingEntry(s, e) && !(TakesAck(action) && e == s.workers[w].phase.entry)
            && !(action.ReadRaises? && e == s.db.group.value.next) ==>
          PendingEntry(t, e) && t.db.group.value.pending[e] == s.db.group.value.pending[e])
  {
  }

  /** A claim whose reply is lost gives the worker nothing to do, though the entries are now its own for a minute. */
  lemma LostClaimGivesNothing(s: State, w: Consumer, es: seq<EntryId>)
    requires CanAct(s, w, ClaimRaises(es))
    ensures
      var t := Act(s, w, ClaimRaises(es));
      && w in t.workers && t.workers[w].phase.Draining? && t.workers[w].todo == []
      && (forall e <- es :: PendingEntry(t, e) && t.db.group.value.pending[e] == Delivery(w, s.now))
  {
    forall e <- es ensures e in s.db.group.value.pending {}
  }

  // ---------------------------------------------------------------- where errors come from

  predicate Raises(step: Step, error: string) {
    step.Work? && ((step.action.ExportRaises? || step.action.PublishRaises?) && step.action.error == error)
  }

  ghost predicate Known(errors: set<string>, r: Record) {
    r.Failed? ==> r.error in errors
  }

  ghost predicate ErrorsKnown(s: State, errors: set<string>) {
    && (forall w <- s.workers | s.workers[w].phase.Publishing? :: Known(errors, s.workers[w].phase.record))
    && (forall j :: AllKnown(errors, PublishedFor(s.log, j)))
  }

  ghost predicate AllKnown(errors: set<string>, rs: seq<Record>) {
    forall r <- rs :: Known(errors, r)
  }

  lemma MoreErrors(s: State, errors: set<string>, more: set<string>)
    requires ErrorsKnown(s, errors) && errors <= more
    ensures ErrorsKnown(s, more)
  {
    forall j ensures AllKnown(more, PublishedFor(s.log, j)) {
      assert AllKnown(errors, PublishedFor(s.log, j));
    }
  }

  function ErrorOf(step: Step): set<string> {
    if step.Work? && (step.action.ExportRaises? || step.action.PublishRaises?) then {step.action.error} else {}
  }

  lemma WrittenKnown(s: State, w: Consumer, next: Phase, errors: set<string>)
    requires ErrorsKnown(s, errors) && CanPublish(s, w) && (next.Publishing? ==> Known(errors, next.record))
    ensures ErrorsKnown(Written(s, w, next), errors)
  {
    var p := s.workers[w].phase;
    var job := s.db.jobs[p.entry].jobId;
    var t := Written(s, w, next);
    WrittenFrame(s, w, next);
    assert Known(errors, p.record) && AllKnown(errors, PublishedFor(s.log, job));
    forall j ensures AllKnown(errors, PublishedFor(t.log, j)) {
      assert AllKnown(errors, PublishedFor(s.log, j));
    }
  }

  lemma RaiseKnown(s: State, w: Consumer, error: string, applied: bool, errors: set<string>)
    requires ErrorsKnown(s, errors) && CanPublish(s, w) && error in errors
    ensures ErrorsKnown(OnPublishRaises(s, w, error, applied), errors)
  {
    RaiseFrame(s, w, error, applied);
    LeaveLocal(s, w, applied);
    var t := OnPublishRaises(s, w, error, applied);
    if applied {
      var s1 := Leave(s, w, true);
      assert forall j :: PublishedFor(s1.log, j) == PublishedFor(s.log, j);
      WrittenKnown(s1, w, AfterRaise(s, s.workers[w].phase, error), errors);
    } else {
      assert forall j :: PublishedFor(t.log, j) == PublishedFor(s.log, j);
    }
  }

  lemma ActKnown(s: State, w: Consumer, action: Action, errors: set<string>)
    requires ErrorsKnown(s, errors) && CanAct(s, w, action)
    ensures ErrorsKnown(Act(s, w, action), errors + ErrorOf(Work(w, action)))
  {
    var more := errors + ErrorOf(Work(w, action));
    MoreErrors(s, errors, more);
    if action.Publish? {
      WrittenKnown(s, w, AfterWrite(s.workers[w].phase), more);
    } else if action.PublishRaises? {
      RaiseKnown(s, w, action.error, action.applied, more);
    } else {
      ActFrame(s, w, action);
      OtherKnown(s, w, action, more);
      assert forall j :: PublishedFor(Act(s, w, action).log, j) == PublishedFor(s.log, j);
    }
  }

  lemma OtherKnown(s: State, w: Consumer, action: Action, errors: set<string>)
    requires CanAct(s, w, action) && !Publishes(action) && w in Act(s, w, action).workers
    requires action.ExportRaises? ==> action.error in errors
    ensures
      var p := Act(s, w, action).workers[w].phase;
      p.Publishing? ==> Known(errors, p.record)
  {
  }

  function ErrorsOf(steps: seq<Step>): set<string> {
    if steps == [] then {} else ErrorOf(steps[0]) + ErrorsOf(steps[1..])
  }

  lemma {:induction false} RaisedBySome(steps: seq<Step>, error: string)
    requires error in ErrorsOf(steps)
    ensures exists x <- steps :: Raises(x, error)
  {
    if error in ErrorOf(steps[0]) {
      assert steps[0] in steps && Raises(steps[0], error);
    } else {
      RaisedBySome(steps[1..], error);
      assert forall x <- steps[1..] :: x in steps;
    }
  }

  lemma StepKnown(s: State, step: Step, errors: set<string>)
    requires ErrorsKnown(s, errors) && Enabled(s, step)
    ensures ErrorsKnown(Apply(s, step), errors + ErrorOf(step))
  {
    if step.Work? {
      ActKnown(s, step.w, step.action, errors);
    } else {
      assert forall j :: PublishedFor(Apply(s, step).log, j) == PublishedFor(s.log, j);
      MoreErrors(s, errors, errors + ErrorOf(step));
    }
  }

  lemma {:induction false} RunKnown(s: State, steps: seq<Step>, errors: set<string>)
    requires ErrorsKnown(s, errors) && CanRun(s, steps)
    ensures ErrorsKnown(Run(s, steps), errors + ErrorsOf(steps))
    decreases |steps|
  {
    if steps == [] {
      assert errors + ErrorsOf(steps) == errors;
    } else {
      StepKnown(s, steps[0], errors);
      RunKnown(Apply(s, steps[0]), steps[1..], errors + ErrorOf(steps[0]));
      assert errors + ErrorsOf(steps) == errors + ErrorOf(steps[0]) + ErrorsOf(steps[1..]);
    }
  }

  /** In every run, the error in a failure record was raised by an export or by a write of a publish. */
  lemma ErrorsWereRaised(start: Time, steps: seq<Step>, job: JobId, r: Record)
    requires CanRun(Initial(start), steps) && r in PublishedFor(Reached(start, steps).log, job) && r.Failed?
    ensures exists x <- steps :: Raises(x, r.error)
  {
    RunKnown(Initial(start), steps, {});
    assert AllKnown({} + ErrorsOf(steps), PublishedFor(Reached(start, steps).log, job));
    RaisedBySome(steps, r.error);
  }
}
