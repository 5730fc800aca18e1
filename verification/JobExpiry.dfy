/** How the expiries of a job's two keys move while any number of workers publish for it. */
module JobExpiry {
  import opened Wrappers
  import opened Expiry
  import opened JobQueue
  import opened JobInvariants
  import opened JobFrames
  import opened JobTheorems

  /** No expiry lies further ahead than one TTL; an owner key always has one. */
  ghost predicate TimesInv(s: State) {
    && (forall j <- s.db.results :: s.db.results[j].expiry.Some? ==>
          s.db.results[j].expiry.value <= s.now + RESULT_TTL_SECONDS)
    && (forall j <- s.db.owners ::
          s.db.owners[j].expiry.Some? && s.db.owners[j].expiry.value <= s.now + RESULT_TTL_SECONDS)
  }

  ghost predicate AtStage(s: State, w: Consumer, job: JobId, stage: Stage) {
    CanPublish(s, w) && s.workers[w].phase.stage == stage && s.db.jobs[s.workers[w].phase.entry].jobId == job
  }

  ghost predicate SomeoneAt(s: State, job: JobId, stage: Stage) {
    exists w :: AtStage(s, w, job, stage)
  }

  ghost predicate OwnerCovers(s: State, job: JobId, x: Time) {
    job in s.db.owners && s.db.owners[job].expiry.Some? && x <= s.db.owners[job].expiry.value
  }

  /** A results key without expiry has a publisher about to set it, or one that stopped there. */
  ghost predicate UnexpiredInv(s: State) {
    forall j <- s.db.results | s.db.results[j].expiry.None? ::
      j in s.log.leftUnexpired || SomeoneAt(s, j, ToExpireResult)
  }

  /**
    A results key with an expiry is outlived by the owner key, unless a publisher
    is (or stopped) between its two EXPIRE calls, or found the owner key gone.
   */
  ghost predicate CoveredInv(s: State) {
    forall j <- s.db.results | s.db.results[j].expiry.Some? ::
      || j in s.log.leftHalfExpired || j in s.log.ownerGone || SomeoneAt(s, j, ToExpireOwner)
      || OwnerCovers(s, j, s.db.results[j].expiry.value)
  }

  ghost predicate ExpiryInv(s: State) {
    TimesInv(s) && UnexpiredInv(s) && CoveredInv(s)
  }

  // ------------------------------------------------------------ preservation

  /** Witnesses survive a step of `w` that does not take `w` off its stage without a note in the log. */
  lemma FrameKeeps(s: State, t: State, w: Consumer)
    requires ExpiryInv(s) && t.db.results == s.db.results && t.db.owners == s.db.owners
    requires s.now <= t.now && s.db.jobs <= t.db.jobs
    requires s.log.leftUnexpired <= t.log.leftUnexpired && s.log.leftHalfExpired <= t.log.leftHalfExpired
    requires s.log.ownerGone <= t.log.ownerGone
    requires forall v <- s.workers | v != w :: v in t.workers && t.workers[v] == s.workers[v]
    requires forall job | AtStage(s, w, job, ToExpireResult) :: job in t.log.leftUnexpired
    requires forall job | AtStage(s, w, job, ToExpireOwner) :: job in t.log.leftHalfExpired
    ensures ExpiryInv(t)
  {
    forall j, st, v | AtStage(s, v, j, st) && v != w ensures SomeoneAt(t, j, st) {
      assert AtStage(t, v, j, st);
    }
  }

  lemma QuietKeeps(s: State, t: State)
    requires ExpiryInv(s) && t.db.results == s.db.results && t.db.owners == s.db.owners
    requires s.now <= t.now && s.db.jobs <= t.db.jobs && t.workers == s.workers
    requires t.log.leftUnexpired == s.log.leftUnexpired && t.log.leftHalfExpired == s.log.leftHalfExpired
    requires t.log.ownerGone == s.log.ownerGone
    ensures ExpiryInv(t)
  {
    forall j, st, v | AtStage(s, v, j, st) ensures SomeoneAt(t, j, st) {
      assert AtStage(t, v, j, st);
    }
  }

  ghost predicate MovesOn(p: Phase, next: Phase, stage: Stage)
    requires p.Publishing?
  {
    next.Publishing? && next.stage == stage && next.entry == p.entry
  }

  /** The write itself; `next` is where the worker goes on from. */
  lemma WrittenKeepsExpiry(s: State, w: Consumer, next: Phase)
    requires ExpiryInv(s) && CanPublish(s, w)
    requires
      var p := s.workers[w].phase;
      var job := s.db.jobs[p.entry].jobId;
      && (p.stage.ToAdd? ==> job in s.log.leftUnexpired || MovesOn(p, next, ToExpireResult))
      && (p.stage.ToExpireResult? ==> job in s.log.leftHalfExpired || MovesOn(p, next, ToExpireOwner))
    ensures ExpiryInv(Written(s, w, next))
  {
    var t := Written(s, w, next);
    var p := s.workers[w].phase;
    var job := s.db.jobs[p.entry].jobId;
    forall j, st, v | AtStage(s, v, j, st) && v != w ensures SomeoneAt(t, j, st) {
      assert AtStage(t, v, j, st);
    }
    if p.stage.ToAdd? {
      assert job in t.log.leftUnexpired || AtStage(t, w, job, ToExpireResult);
    } else if p.stage.ToExpireResult? {
      assert job in t.log.leftHalfExpired || AtStage(t, w, job, ToExpireOwner);
    }
  }

  lemma RaiseKeepsExpiry(s: State, w: Consumer, error: string, applied: bool)
    requires ExpiryInv(s) && CanPublish(s, w)
    ensures ExpiryInv(OnPublishRaises(s, w, error, applied))
  {
    LeaveLocal(s, w, applied);
    if applied {
      var s1 := Leave(s, w, true);
      forall j, st, v | AtStage(s, v, j, st) ensures AtStage(s1, v, j, st) {}
      WrittenKeepsExpiry(s1, w, AfterRaise(s, s.workers[w].phase, error));
    } else {
      FrameKeeps(s, OnPublishRaises(s, w, error, false), w);
    }
  }

  lemma ActKeepsExpiry(s: State, w: Consumer, action: Action)
    requires ExpiryInv(s) && CanAct(s, w, action)
    ensures ExpiryInv(Act(s, w, action))
  {
    if action.Publish? {
      WrittenKeepsExpiry(s, w, AfterWrite(s.workers[w].phase));
    } else if action.PublishRaises? {
      RaiseKeepsExpiry(s, w, action.error, action.applied);
    } else {
      ActFrame(s, w, action);
      StageLeft(s, w, action);
      FrameKeeps(s, Act(s, w, action), w);
    }
  }

  /** A publisher that does anything but its next write leaves a note of where it stopped. */
  lemma StageLeft(s: State, w: Consumer, action: Action)
    requires CanAct(s, w, action) && !action.Publish? && !action.PublishRaises?
    ensures forall job | AtStage(s, w, job, ToExpireResult) :: job in Act(s, w, action).log.leftUnexpired
    ensures forall job | AtStage(s, w, job, ToExpireOwner) :: job in Act(s, w, action).log.leftHalfExpired
  {
  }

  lemma StepKeepsExpiry(s: State, step: Step)
    requires OwnersInv(s.log.accepted, s.db.owners) && ExpiryInv(s) && Enabled(s, step)
    ensures ExpiryInv(Apply(s, step))
  {
    if step.Work? {
      ActKeepsExpiry(s, step.w, step.action);
    } else if step.SetOwner? {
      SetOwnerKeepsExpiry(s, step.fields);
    } else {
      QuietStep(s, step);
    }
  }

  lemma QuietStep(s: State, step: Step)
    requires ExpiryInv(s) && Enabled(s, step) && !step.Work? && !step.SetOwner?
    ensures ExpiryInv(Apply(s, step))
  {
    QuietKeeps(s, Apply(s, step));
  }

  lemma SetOwnerKeepsExpiry(s: State, f: Fields)
    requires OwnersInv(s.log.accepted, s.db.owners) && ExpiryInv(s) && Enabled(s, SetOwner(f))
    ensures ExpiryInv(OnSetOwner(s, f))
  {
    var t := OnSetOwner(s, f);
    forall j, st, v | AtStage(s, v, j, st) ensures SomeoneAt(t, j, st) {
      assert AtStage(t, v, j, st);
    }
    assert f.jobId !in s.db.owners;
  }

  lemma RunKeepsExpiry(s: State, steps: seq<Step>)
    requires Inv(s) && ExpiryInv(s) && CanRun(s, steps)
    ensures ExpiryInv(Run(s, steps))
    decreases |steps|
  {
    if steps != [] {
      StepKeeps(s, steps[0]);
      StepKeepsExpiry(s, steps[0]);
      RunKeepsExpiry(Apply(s, steps[0]), steps[1..]);
    }
  }

  // ---------------------------------------------------------------- theorems

  /**
    In every run: when no publisher of a job is between two of its writes, none
    ever stopped there, and the owner key was alive whenever it was extended,
    then the results key has an expiry and the owner key expires no earlier.
   */
  lemma OwnerOutlivesResult(start: Time, steps: seq<Step>, job: JobId)
    requires CanRun(Initial(start), steps)
    requires
      var s := Reached(start, steps);
      && job in s.db.results
      && job !in s.log.leftUnexpired && job !in s.log.leftHalfExpired && job !in s.log.ownerGone
      && !SomeoneAt(s, job, ToExpireResult) && !SomeoneAt(s, job, ToExpireOwner)
    ensures
      var s := Reached(start, steps);
      s.db.results[job].expiry.Some? && OwnerCovers(s, job, s.db.results[job].expiry.value)
  {
    RunKeepsExpiry(Initial(start), steps);
  }

  /** The write that completes a publish leaves the owner key, if still alive, outliving the results key. */
  lemma CompletedPublishCovers(start: Time, steps: seq<Step>, w: Consumer)
    requires CanRun(Initial(start), steps) && CanPublish(Reached(start, steps), w)
    requires
      var s := Reached(start, steps);
      s.workers[w].phase.stage.ToExpireOwner?
      && Lookup(s.db.owners, s.db.jobs[s.workers[w].phase.entry].jobId, s.now).Some?
    ensures
      var s := Reached(start, steps);
      var job := s.db.jobs[s.workers[w].phase.entry].jobId;
      var t := Apply(s, Work(w, Publish));
      && job in t.db.owners && t.db.owners[job].expiry == Some(t.now + 3600.0)
      && (job in t.db.results && t.db.results[job].expiry.Some? ==>
            OwnerCovers(t, job, t.db.results[job].expiry.value))
  {
    RunKeepsExpiry(Initial(start), steps);
  }

  /** From `s` to `t` neither key of the job, where it is alive, comes to expire earlier. */
  ghost predicate LaterIn(s: State, t: State, job: JobId) {
    && (ResultLive(s, job) && s.db.results[job].expiry.Some? ==>
          && job in t.db.results && t.db.results[job].expiry.Some?
          && s.db.results[job].expiry.value <= t.db.results[job].expiry.value)
    && (job in s.db.owners && s.db.owners[job].expiry.Some? ==> OwnerCovers(t, job, s.db.owners[job].expiry.value))
  }

  lemma ActLater(s: State, w: Consumer, action: Action, job: JobId)
    requires TimesInv(s) && CanAct(s, w, action)
    ensures LaterIn(s, Act(s, w, action), job)
  {
    if action.Publish? {
      WrittenLater(s, w, AfterWrite(s.workers[w].phase), job);
    } else if action.PublishRaises? {
      RaiseLater(s, w, action.error, action.applied, job);
    } else {
      ActFrame(s, w, action);
    }
  }

  lemma StepLater(s: State, step: Step, job: JobId)
    requires OwnersInv(s.log.accepted, s.db.owners) && TimesInv(s) && Enabled(s, step)
    ensures LaterIn(s, Apply(s, step), job)
  {
    if step.Work? { ActLater(s, step.w, step.action, job); }
  }

  /** No step of anyone, in any run, moves the expiry of a live key to an earlier instant. */
  lemma NoExpiryMovesEarlier(start: Time, steps: seq<Step>, step: Step, job: JobId)
    requires CanRun(Initial(start), steps) && Enabled(Reached(start, steps), step)
    ensures LaterIn(Reached(start, steps), Apply(Reached(start, steps), step), job)
  {
    ReachedKeeps(start, steps);
    RunKeepsExpiry(Initial(start), steps);
    StepLater(Reached(start, steps), step, job);
  }

  lemma RaiseLater(s: State, w: Consumer, error: string, applied: bool, job: JobId)
    requires TimesInv(s) && CanPublish(s, w)
    ensures LaterIn(s, OnPublishRaises(s, w, error, applied), job)
  {
    LeaveLocal(s, w, applied);
    if applied { WrittenLater(Leave(s, w, true), w, AfterRaise(s, s.workers[w].phase, error), job); }
  }

  lemma WrittenLater(s: State, w: Consumer, next: Phase, job: JobId)
    requires TimesInv(s) && CanPublish(s, w)
    ensures LaterIn(s, Written(s, w, next), job)
  {
  }

  // ------------------------------------------------------------- and so the owner is answered

  /** Both keys of the job live at least until `until`. */
  ghost predicate LivesTo(s: State, job: JobId, until: Time) {
    && job in s.db.results && s.db.results[job].expiry.Some? && until <= s.db.results[job].expiry.value
    && OwnerCovers(s, job, until)
  }

  lemma {:induction false} BothKeysLive(s: State, steps: seq<Step>, job: JobId, until: Time)
    requires Inv(s) && ExpiryInv(s) && CanRun(s, steps) && LivesTo(s, job, until) && Run(s, steps).now <= until
    ensures LiveThroughout(s, steps, job) && LivesTo(Run(s, steps), job, until)
    decreases |steps|
  {
    RunLater(s, steps);
    if steps != [] {
      StepLater(s, steps[0], job);
      StepKeeps(s, steps[0]);
      StepKeepsExpiry(s, steps[0]);
      BothKeysLive(Apply(s, steps[0]), steps[1..], job, until);
    }
  }

  /** A publish has just come to its end with both keys of the job alive. */
  ghost predicate JustPublished(s: State, w: Consumer, job: JobId) {
    && AtStage(s, w, job, ToExpireOwner) && Lookup(s.db.owners, job, s.now).Some?
    && ResultLive(s, job)
  }

  lemma CompletedPublish(start: Time, before: seq<Step>, w: Consumer, job: JobId)
    requires CanRun(Initial(start), before) && JustPublished(Reached(start, before), w, job)
    ensures
      var t := Apply(Reached(start, before), Work(w, Publish));
      && Inv(t) && ExpiryInv(t) && job in t.db.results
      && (t.db.results[job].expiry.Some? ==> LivesTo(t, job, t.db.results[job].expiry.value))
  {
    var s := Reached(start, before);
    ReachedKeeps(start, before);
    RunKeepsExpiry(Initial(start), before);
    StepKeeps(s, Work(w, Publish));
    StepKeepsExpiry(s, Work(w, Publish));
    CompletedPublishCovers(start, before, w);
    StepExtendsResults(s, Work(w, Publish), job);
  }

  /**
    From a publish completed in time until the expiry the results key then has,
    whatever anyone does: the owner passes the owner check, and every reader
    that passed it, then or before, is given the record that was visible when
    the publish completed.
   */
  lemma PublishedJobIsReadable(start: Time, before: seq<Step>, w: Consumer, job: JobId, after: seq<Step>, r: nat)
    requires CanRun(Initial(start), before) && JustPublished(Reached(start, before), w, job)
    requires
      var t := Apply(Reached(start, before), Work(w, Publish));
      CanRun(t, after) && job in t.db.results && t.db.results[job].expiry.Some?
      && Run(t, after).now <= t.db.results[job].expiry.value
    ensures
      var t := Apply(Reached(start, before), Work(w, Publish));
      Visible(t, job).Found? && OwnerIsServed(Run(t, after), job, Visible(t, job), r)
  {
    CompletedPublish(start, before, w, job);
    ServedWhileLive(Apply(Reached(start, before), Work(w, Publish)), after, job, r);
  }

  /** The owner passes the owner check, and whoever has passed it is told `reply`. */
  ghost predicate OwnerIsServed(u: State, job: JobId, reply: Reply, r: nat) {
    && job in u.log.accepted
    && var user := u.log.accepted[job].userId;
    && (r !in u.readers ==> r in Apply(u, CheckOwner(r, user, job)).readers)
    && (r in u.readers && u.readers[r].job == job ==>
          Apply(u, ReadResult(r)).log.answers == u.log.answers + [Answer(user, job, reply)])
  }

  lemma ServedWhileLive(t: State, after: seq<Step>, job: JobId, r: nat)
    requires Inv(t) && ExpiryInv(t) && CanRun(t, after)
    requires job in t.db.results && t.db.results[job].expiry.Some? && LivesTo(t, job, t.db.results[job].expiry.value)
    requires Run(t, after).now <= t.db.results[job].expiry.value
    ensures Visible(t, job).Found? && OwnerIsServed(Run(t, after), job, Visible(t, job), r)
  {
    BothKeysLive(t, after, job, t.db.results[job].expiry.value);
    VisibleRecordIsStable(t, after, job);
    RunKeeps(t, after);
    OwnerPasses(Run(t, after), job, r);
  }

  lemma OwnerPasses(u: State, job: JobId, r: nat)
    requires Inv(u) && job in u.db.owners && Live(u.db.owners[job].expiry, u.now)
    ensures OwnerIsServed(u, job, Visible(u, job), r)
  {
  }

  // ------------------------------------------------------------- unless its owner key is gone

  ghost predicate Ownerless(s: State, job: JobId) {
    job in s.log.accepted && Lookup(s.db.owners, job, s.now).None?
  }

  lemma WrittenOwnerless(s: State, w: Consumer, next: Phase, job: JobId)
    requires CanPublish(s, w) && Lookup(s.db.owners, job, s.now).None?
    ensures Lookup(Written(s, w, next).db.owners, job, s.now).None?
  {
  }

  lemma ActOwnerless(s: State, w: Consumer, action: Action, job: JobId)
    requires Ownerless(s, job) && CanAct(s, w, action)
    ensures Ownerless(Act(s, w, action), job)
  {
    ActFrame(s, w, action);
    if action.Publish? {
      WrittenOwnerless(s, w, AfterWrite(s.workers[w].phase), job);
    } else if action.PublishRaises? {
      LeaveLocal(s, w, action.applied);
      if action.applied {
        WrittenOwnerless(Leave(s, w, true), w, AfterRaise(s, s.workers[w].phase, action.error), job);
      }
    }
  }

  lemma {:induction false} OwnerlessForGood(s: State, steps: seq<Step>, job: JobId)
    requires Ownerless(s, job) && CanRun(s, steps)
    ensures Ownerless(Run(s, steps), job)
    decreases |steps|
  {
    if steps != [] {
      if steps[0].Work? { ActOwnerless(s, steps[0].w, steps[0].action, job); }
      OwnerlessForGood(Apply(s, steps[0]), steps[1..], job);
    }
  }

  /**
    An accepted job whose owner key has gone, whether or not a record exists or
    is published later, is "not found" to everybody for ever: in no continuation
    does the owner check let anyone through.
   */
  lemma OwnerlessJobIsNeverRead(start: Time, before: seq<Step>, job: JobId, after: seq<Step>, r: nat, caller: UserId)
    requires CanRun(Initial(start), before) && Ownerless(Reached(start, before), job)
    requires CanRun(Reached(start, before), after) && r !in Run(Reached(start, before), after).readers
    ensures
      var u := Run(Reached(start, before), after);
      var v := Apply(u, CheckOwner(r, caller, job));
      v.readers == u.readers && v.log.answers == u.log.answers + [Answer(caller, job, NotFound)]
  {
    OwnerlessForGood(Reached(start, before), after, job);
  }
}
