/** What a worker's action leaves alone, and that nothing in the log is ever taken back. */
module JobFrames {
  import opened Expiry
  import opened JobQueue
  import opened JobInvariants

  /** The actions that write the two keys of a job. */
  predicate Publishes(action: Action) {
    action.Publish? || action.PublishRaises?
  }

  ghost predicate KeysSame(s: State, t: State) {
    && t.db.results == s.db.results && t.db.owners == s.db.owners
    && t.log.published == s.log.published && t.log.ownerGone == s.log.ownerGone
  }

  /** An action of `w` concerns `w` alone, and each part of Redis and of the log has its own few actions. */
  ghost predicate Framed(s: State, t: State, w: Consumer, action: Action) {
    && t.now == s.now && t.tokens == s.tokens && t.readers == s.readers && t.enqueuing == s.enqueuing
    && t.db.jobs == s.db.jobs && t.log.accepted == s.log.accepted && t.log.answers == s.log.answers
    && w in t.workers && t.workers == s.workers[w := t.workers[w]]
    && (TouchesGroup(action) || (t.db.group == s.db.group && t.log.groupStart == s.log.groupStart))
    && (TakesAck(action) || t.log.acked == s.log.acked)
    && (action.ExportOk? || t.log.exported == s.log.exported)
    && (action.Cancel? || action.PublishRaises? || t.log.forsaken == s.log.forsaken)
    && (Publishes(action) || KeysSame(s, t))
    && s.log.leftUnexpired <= t.log.leftUnexpired && s.log.leftHalfExpired <= t.log.leftHalfExpired
  }

  lemma WrittenFrame(s: State, w: Consumer, next: Phase)
    requires CanPublish(s, w)
    ensures Framed(s, Written(s, w, next), w, Publish)
    ensures Written(s, w, next).workers[w] == s.workers[w].(phase := next)
  {
  }

  lemma RaiseFrame(s: State, w: Consumer, error: string, applied: bool)
    requires CanPublish(s, w)
    ensures Framed(s, OnPublishRaises(s, w, error, applied), w, PublishRaises(error, applied))
    ensures OnPublishRaises(s, w, error, applied).workers[w]
         == s.workers[w].(phase := AfterRaise(s, s.workers[w].phase, error))
  {
    LeaveLocal(s, w, applied);
    if applied { WrittenFrame(Leave(s, w, true), w, AfterRaise(s, s.workers[w].phase, error)); }
  }

  lemma StopFrame(s: State, w: Consumer)
    requires Running(s, w)
    ensures Framed(s, OnCancel(s, w), w, Cancel) && Framed(s, OnCrash(s, w), w, Crash)
  {
    LeaveLocal(s, w, false);
  }

  predicate Lost(action: Action) {
    action.ClaimRaises? || action.ReadRaises? || action.AckRaises?
  }

  lemma GroupFrame(s: State, w: Consumer, action: Action)
    requires CanAct(s, w, action) && TouchesGroup(action) && !Lost(action)
    ensures Framed(s, Act(s, w, action), w, action)
  {
  }

  lemma LostFrame(s: State, w: Consumer, action: Action)
    requires CanAct(s, w, action) && TouchesGroup(action) && Lost(action)
    ensures Framed(s, Act(s, w, action), w, action)
  {
  }

  lemma LocalFrame(s: State, w: Consumer, action: Action)
    requires CanAct(s, w, action) && !TouchesGroup(action) && !Publishes(action) && !action.Cancel? && !action.Crash?
    ensures Framed(s, Act(s, w, action), w, action)
  {
  }

  lemma ActFrame(s: State, w: Consumer, action: Action)
    requires CanAct(s, w, action)
    ensures Framed(s, Act(s, w, action), w, action)
  {
    if action.Publish? {
      WrittenFrame(s, w, AfterWrite(s.workers[w].phase));
    } else if action.PublishRaises? {
      RaiseFrame(s, w, action.error, action.applied);
    } else if action.Cancel? || action.Crash? {
      StopFrame(s, w);
    } else if !TouchesGroup(action) {
      LocalFrame(s, w, action);
    } else if Lost(action) {
      LostFrame(s, w, action);
    } else {
      GroupFrame(s, w, action);
    }
  }

  // ------------------------------------------------------------ the log only grows

  lemma GroupGrows(s: State, w: Consumer, action: Action)
    requires CanAct(s, w, action) && TouchesGroup(action)
    ensures Grows(s, Act(s, w, action))
  {
  }

  lemma LocalGrows(s: State, w: Consumer, action: Action)
    requires CanAct(s, w, action) && !TouchesGroup(action) && !Publishes(action) && !action.Cancel? && !action.Crash?
    ensures Grows(s, Act(s, w, action))
  {
  }

  lemma StopGrows(s: State, w: Consumer)
    requires Running(s, w)
    ensures Grows(s, OnCancel(s, w)) && Grows(s, OnCrash(s, w))
  {
    LeaveLocal(s, w, false);
  }

  lemma ActGrows(s: State, w: Consumer, action: Action)
    requires CanAct(s, w, action)
    ensures Grows(s, Act(s, w, action))
  {
    if action.Publish? {
      WrittenGrows(s, w, AfterWrite(s.workers[w].phase));
    } else if action.PublishRaises? {
      RaiseGrows(s, w, action.error, action.applied);
    } else if action.Cancel? || action.Crash? {
      StopGrows(s, w);
    } else if TouchesGroup(action) {
      GroupGrows(s, w, action);
    } else {
      LocalGrows(s, w, action);
    }
  }

  lemma RaiseGrows(s: State, w: Consumer, error: string, applied: bool)
    requires CanPublish(s, w)
    ensures Grows(s, OnPublishRaises(s, w, error, applied))
  {
    LeaveLocal(s, w, applied);
    if applied { WrittenGrows(Leave(s, w, true), w, AfterRaise(s, s.workers[w].phase, error)); }
  }

  lemma StepGrows(s: State, step: Step)
    requires Enabled(s, step)
    ensures Grows(s, Apply(s, step))
  {
    if step.Work? { ActGrows(s, step.w, step.action); }
  }

  // --------------------------------------------------------------------- runs

  lemma RunKeeps(s: State, steps: seq<Step>)
    requires Inv(s) && CanRun(s, steps)
    ensures Inv(Run(s, steps))
    decreases |steps|
  {
    if steps != [] {
      StepKeeps(s, steps[0]);
      RunKeeps(Apply(s, steps[0]), steps[1..]);
    }
  }

  /** The state after `steps`, starting from an empty Redis at `start`. */
  function Reached(start: Time, steps: seq<Step>): State
    requires CanRun(Initial(start), steps)
  {
    Run(Initial(start), steps)
  }

  lemma ReachedKeeps(start: Time, steps: seq<Step>)
    requires CanRun(Initial(start), steps)
    ensures Inv(Reached(start, steps))
  {
    RunKeeps(Initial(start), steps);
  }

  lemma RunGrows(s: State, steps: seq<Step>)
    requires Inv(s) && CanRun(s, steps)
    ensures Grows(s, Run(s, steps))
    decreases |steps|
  {
    if steps != [] {
      var t := Apply(s, steps[0]);
      StepKeeps(s, steps[0]);
      StepGrows(s, steps[0]);
      RunGrows(t, steps[1..]);
    }
  }

  lemma {:induction false} RunLater(s: State, steps: seq<Step>)
    requires CanRun(s, steps)
    ensures s.now <= Run(s, steps).now
    decreases |steps|
  {
    if steps != [] {
      if steps[0].Work? { ActFrame(s, steps[0].w, steps[0].action); }
      RunLater(Apply(s, steps[0]), steps[1..]);
    }
  }

  lemma RunOne(s: State, step: Step)
    requires Enabled(s, step)
    ensures CanRun(s, [step]) && Run(s, [step]) == Apply(s, step)
  {
    assert CanRun(Apply(s, step), []);
    assert [step][1..] == [];
  }

  lemma RunConcat(s: State, a: seq<Step>, b: seq<Step>)
    requires CanRun(s, a) && CanRun(Run(s, a), b)
    ensures CanRun(s, a + b) && Run(s, a + b) == Run(Run(s, a), b)
    decreases |a|
  {
    if a == [] {
      assert a + b == b;
    } else {
      assert (a + b)[0] == a[0] && (a + b)[1..] == a[1..] + b;
      RunConcat(Apply(s, a[0]), a[1..], b);
    }
  }

  lemma RunThree(s: State, a: Step, b: Step, c: Step)
    requires Enabled(s, a) && Enabled(Apply(s, a), b) && Enabled(Apply(Apply(s, a), b), c)
    ensures CanRun(s, [a, b, c]) && Run(s, [a, b, c]) == Apply(Apply(Apply(s, a), b), c)
  {
    RunOne(Apply(Apply(s, a), b), c);
    assert [b, c][1..] == [c] && [a, b, c][1..] == [b, c];
    assert CanRun(Apply(s, a), [b, c]);
  }

  lemma RunSplit(s: State, a: seq<Step>, b: seq<Step>)
    requires CanRun(s, a + b)
    ensures CanRun(s, a) && CanRun(Run(s, a), b) && Run(s, a + b) == Run(Run(s, a), b)
    decreases |a|
  {
    if a == [] {
      assert a + b == b;
    } else {
      assert (a + b)[0] == a[0] && (a + b)[1..] == a[1..] + b;
      RunSplit(Apply(s, a[0]), a[1..], b);
    }
  }

  /** One more step at the end of a run. */
  lemma RunThen(s: State, steps: seq<Step>, step: Step)
    requires CanRun(s, steps) && Enabled(Run(s, steps), step)
    ensures CanRun(s, steps + [step]) && Run(s, steps + [step]) == Apply(Run(s, steps), step)
  {
    RunOne(Run(s, steps), step);
    RunConcat(s, steps, [step]);
  }
}
