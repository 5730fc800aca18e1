/** Every pass of a worker's loop that finds work and comes to its end brings the queue closer to empty. */
module JobProgress {
  import opened Wrappers
  import opened Expiry
  import opened Counting
  import opened JobQueue
  import opened JobInvariants
  import opened JobFrames
  import opened JobTheorems

  predicate MidPass(wk: Worker) {
    !wk.phase.Polling? && !wk.phase.Stopped?
  }

  /** What a worker holds in this pass was unacked when the pass began; work done means something was acked since. */
  ghost predicate PassOk(wk: Worker, acked: set<EntryId>) {
    MidPass(wk) ==>
      && wk.ackedBefore <= acked
      && (forall e <- wk.todo :: e !in wk.ackedBefore)
      && (wk.phase.Exporting? || wk.phase.Publishing? || wk.phase.Acking? ==> wk.phase.entry !in wk.ackedBefore)
      && (wk.didWork ==> wk.ackedBefore < acked)
  }

  ghost predicate PassInv(s: State) {
    forall w <- s.workers :: PassOk(s.workers[w], s.log.acked)
  }

  lemma AckPass(s: State, w: Consumer)
    requires Inv(s) && PassInv(s) && CanAck(s, w)
    ensures PassInv(OnAck(s, w))
  {
    var t := OnAck(s, w);
    var e := s.workers[w].phase.entry;
    assert Delivered(s, e);
    assert e in t.log.acked;
  }

  lemma ClaimPass(s: State, w: Consumer, es: seq<EntryId>)
    requires Inv(s) && PassInv(s) && CanClaim(s, w, es)
    requires !s.workers[w].didWork
    ensures PassInv(OnClaim(s, w, es))
  {
    forall e <- es ensures e !in s.log.acked {
      assert e in s.db.group.value.pending;
    }
  }

  lemma DeliverPass(s: State, w: Consumer)
    requires Inv(s) && PassInv(s) && CanDeliver(s, w)
    ensures PassInv(OnDeliver(s, w))
  {
    assert s.db.group.value.next !in s.log.acked;
  }

  /** The worker only moves its entries along, or ends or abandons the pass. */
  ghost predicate MovesAlong(wk: Worker, wk': Worker) {
    if !MidPass(wk') then wk'.todo == [] else
      && MidPass(wk) && wk'.ackedBefore == wk.ackedBefore && wk'.didWork == wk.didWork && wk'.worked == wk.worked
      && (forall e <- wk'.todo :: e in wk.todo)
      && (wk'.phase.Draining? || HoldsEntry(wk, wk'.phase.entry))
  }

  ghost predicate HoldsEntry(wk: Worker, e: EntryId) {
    e in wk.todo || ((wk.phase.Exporting? || wk.phase.Publishing? || wk.phase.Acking?) && wk.phase.entry == e)
  }

  /** A write of `_publish`, raising or not, changes nothing of the worker but its phase. */
  lemma PublishedFrom(s: State, w: Consumer, action: Action)
    requires CanAct(s, w, action) && Publishes(action)
    ensures
      var wk := Act(s, w, action).workers[w];
      && wk == s.workers[w].(phase := wk.phase) && MidPass(wk)
      && (wk.phase.Publishing? || wk.phase.Acking?) && wk.phase.entry == s.workers[w].phase.entry
  {
    if action.Publish? {
      WrittenFrame(s, w, AfterWrite(s.workers[w].phase));
    } else {
      RaiseFrame(s, w, action.error, action.applied);
    }
  }

  lemma BeginMoves(s: State, w: Consumer)
    requires CanBegin(s, w)
    ensures MovesAlong(s.workers[w], OnBegin(s, w).workers[w])
  {
    var todo := s.workers[w].todo;
    assert todo[0] in todo && forall e <- todo[1..] :: e in todo;
  }

  lemma OtherMoves(s: State, w: Consumer, action: Action)
    requires CanAct(s, w, action) && !TouchesGroup(action)
    ensures w in Act(s, w, action).workers && MovesAlong(s.workers[w], Act(s, w, action).workers[w])
  {
    if action.Begin? {
      BeginMoves(s, w);
    } else if Publishes(action) {
      PublishedFrom(s, w, action);
    } else if action.Cancel? || action.Crash? {
      StopMoves(s, w);
    }
  }

  lemma StopMoves(s: State, w: Consumer)
    requires Running(s, w)
    ensures MovesAlong(s.workers[w], OnCancel(s, w).workers[w]) && MovesAlong(s.workers[w], OnCrash(s, w).workers[w])
  {
    LeaveLocal(s, w, false);
  }

  lemma ActKeepsPass(s: State, w: Consumer, action: Action)
    requires Inv(s) && PassInv(s) && CanAct(s, w, action) && PollingClean(s)
    ensures PassInv(Act(s, w, action))
  {
    if action.Claim? || action.ClaimRaises? {
      ClaimPass(s, w, action.entries);
    } else if action.Deliver? {
      DeliverPass(s, w);
    } else if TakesAck(action) {
      AckPass(s, w);
    } else if !TouchesGroup(action) {
      OtherKeepsPass(s, w, action);
    }
  }

  lemma OtherKeepsPass(s: State, w: Consumer, action: Action)
    requires PassInv(s) && CanAct(s, w, action) && !TouchesGroup(action)
    ensures PassInv(Act(s, w, action))
  {
    ActFrame(s, w, action);
    OtherMoves(s, w, action);
  }

  /** A pass starts with the loop's flag cleared. */
  ghost predicate PollingClean(s: State) {
    forall w <- s.workers | s.workers[w].phase.Polling? :: !s.workers[w].didWork
  }

  lemma ActKeepsClean(s: State, w: Consumer, action: Action)
    requires CanAct(s, w, action) && PollingClean(s)
    ensures PollingClean(Act(s, w, action))
  {
    ActFrame(s, w, action);
    if Publishes(action) { PublishedFrom(s, w, action); }
  }

  lemma StepKeepsPass(s: State, step: Step)
    requires Inv(s) && PassInv(s) && PollingClean(s) && Enabled(s, step)
    ensures PassInv(Apply(s, step)) && PollingClean(Apply(s, step))
  {
    if step.Work? {
      ActKeepsPass(s, step.w, step.action);
      ActKeepsClean(s, step.w, step.action);
    }
  }

  // ------------------------------------------------------------ counting passes

  /** At least `base` acks more than passes of `w` that found work; inside a pass, not counting its own. */
  ghost predicate Ahead(s: State, w: Consumer, base: int) {
    && base <= |s.log.acked|
    && (w in s.workers ==>
          var wk := s.workers[w];
          wk.worked + base <= |s.log.acked| && (MidPass(wk) ==> wk.worked + base <= |wk.ackedBefore|))
  }

  lemma OwnActAhead(s: State, w: Consumer, action: Action, base: int)
    requires Inv(s) && PassInv(s) && Ahead(s, w, base) && CanAct(s, w, action)
    ensures Ahead(Act(s, w, action), w, base)
  {
    ActFrame(s, w, action);
    ActGrows(s, w, action);
    SubsetSize(s.log.acked, Act(s, w, action).log.acked);
    if action.EndPass? && s.workers[w].didWork {
      SubsetSize(s.workers[w].ackedBefore, s.log.acked);
    } else if !action.EndPass? {
      WorkedFrame(s, w, action);
    }
  }

  /** Only the end of a pass counts a pass, and only a claim takes a new reading of the acks. */
  lemma WorkedFrame(s: State, w: Consumer, action: Action)
    requires CanAct(s, w, action) && !action.EndPass?
    ensures CountKept(s, Act(s, w, action), w, action.Claim? || action.ClaimRaises?)
  {
    if Publishes(action) {
      PublishedFrom(s, w, action);
    } else if action.Cancel? || action.Crash? {
      StopCountKept(s, w);
    } else if TouchesGroup(action) {
      GroupCountKept(s, w, action);
    }
  }

  lemma GroupCountKept(s: State, w: Consumer, action: Action)
    requires CanAct(s, w, action) && TouchesGroup(action)
    ensures CountKept(s, Act(s, w, action), w, action.Claim? || action.ClaimRaises?)
  {
  }

  ghost predicate CountKept(s: State, t: State, w: Consumer, claims: bool) {
    && w in t.workers
    && t.workers[w].worked <= (if w in s.workers then s.workers[w].worked else 0)
    && (MidPass(t.workers[w]) ==>
          && w in s.workers && (claims || MidPass(s.workers[w]))
          && t.workers[w].ackedBefore == if claims then s.log.acked else s.workers[w].ackedBefore)
  }

  lemma StopCountKept(s: State, w: Consumer)
    requires Running(s, w)
    ensures CountKept(s, OnCancel(s, w), w, false) && CountKept(s, OnCrash(s, w), w, false)
  {
    LeaveLocal(s, w, false);
  }

  lemma StepAhead(s: State, step: Step, w: Consumer, base: int)
    requires Inv(s) && PassInv(s) && Ahead(s, w, base) && Enabled(s, step)
    ensures Ahead(Apply(s, step), w, base)
  {
    if step.Work? {
      if step.w == w {
        OwnActAhead(s, w, step.action, base);
      } else {
        ActFrame(s, step.w, step.action);
        ActGrows(s, step.w, step.action);
        SubsetSize(s.log.acked, Act(s, step.w, step.action).log.acked);
      }
    }
  }

  lemma RunAhead(s: State, steps: seq<Step>, w: Consumer, base: int)
    requires Inv(s) && PassInv(s) && PollingClean(s) && Ahead(s, w, base) && CanRun(s, steps)
    ensures Ahead(Run(s, steps), w, base)
    decreases |steps|
  {
    if steps != [] {
      StepKeeps(s, steps[0]);
      StepKeepsPass(s, steps[0]);
      StepAhead(s, steps[0], w, base);
      RunAhead(Apply(s, steps[0]), steps[1..], w, base);
    }
  }

  lemma RunKeepsPass(s: State, steps: seq<Step>)
    requires Inv(s) && PassInv(s) && PollingClean(s) && CanRun(s, steps)
    ensures PassInv(Run(s, steps)) && PollingClean(Run(s, steps))
    decreases |steps|
  {
    if steps != [] {
      StepKeeps(s, steps[0]);
      StepKeepsPass(s, steps[0]);
      RunKeepsPass(Apply(s, steps[0]), steps[1..]);
    }
  }

  // --------------------------------------------------------------- theorems

  /** Entries of the group not yet acked: undelivered plus pending. */
  ghost function Outstanding(s: State): int
    requires s.db.group.Some?
  {
    |s.db.jobs| - s.db.group.value.next + |s.db.group.value.pending|
  }

  lemma OutstandingCount(s: State)
    requires Inv(s) && s.db.group.Some?
    ensures Outstanding(s) == |s.db.jobs| - s.log.groupStart - |s.log.acked|
  {
    var g := s.db.group.value;
    assert Between(s.log.groupStart, g.next) == g.pending.Keys + s.log.acked;
    assert |g.pending.Keys + s.log.acked| == |g.pending.Keys| + |s.log.acked|;
  }

  lemma NoNewJobs(s: State, steps: seq<Step>)
    requires CanRun(s, steps) && forall step <- steps :: !step.AddJob?
    ensures Run(s, steps).db.jobs == s.db.jobs
    decreases |steps|
  {
    if steps != [] {
      var step := steps[0];
      assert !step.AddJob?;
      if step.Work? { ActFrame(s, step.w, step.action); }
      NoNewJobs(Apply(s, step), steps[1..]);
    }
  }

  /**
    Take any moment of any run at which a worker is about to poll, and any
    continuation without new jobs, with whatever faults and interleaving.  The
    number of outstanding entries drops at least by the number of passes this
    worker has since completed with work found.
   */
  lemma EveryWorkingPassShrinksTheQueue(start: Time, before: seq<Step>, after: seq<Step>, w: Consumer)
    requires CanRun(Initial(start), before) && CanRun(Reached(start, before), after)
    requires forall step <- after :: !step.AddJob?
    requires
      var s := Reached(start, before);
      s.db.group.Some? && w in s.workers && s.workers[w].phase.Polling? && w in Run(s, after).workers
    ensures
      var s := Reached(start, before);
      var t := Run(s, after);
      t.db.group.Some? && 0 <= Outstanding(t)
      && Outstanding(t) + t.workers[w].worked <= Outstanding(s) + s.workers[w].worked
  {
    var s := Reached(start, before);
    var t := Run(s, after);
    ReachedKeeps(start, before);
    RunKeeps(s, after);
    RunKeepsPass(Initial(start), before);
    RunAhead(s, after, w, |s.log.acked| - s.workers[w].worked);
    RunGrows(s, after);
    NoNewJobs(s, after);
    OutstandingCount(s);
    OutstandingCount(t);
  }

  /** So as many such passes as there are outstanding entries leave every entry acked. */
  lemma EnoughPassesEmptyTheQueue(start: Time, before: seq<Step>, after: seq<Step>, w: Consumer, e: EntryId)
    requires CanRun(Initial(start), before) && CanRun(Reached(start, before), after)
    requires forall step <- after :: !step.AddJob?
    requires
      var s := Reached(start, before);
      && s.db.group.Some? && s.log.groupStart <= e < |s.db.jobs|
      && w in s.workers && s.workers[w].phase.Polling? && w in Run(s, after).workers
      && Run(s, after).workers[w].worked >= s.workers[w].worked + Outstanding(s)
    ensures
      var t := Run(Reached(start, before), after);
      e in t.log.acked && (Answered(t, e) || e in t.log.forsaken)
  {
    var s := Reached(start, before);
    var t := Run(s, after);
    ReachedKeeps(start, before);
    RunKeeps(s, after);
    EveryWorkingPassShrinksTheQueue(start, before, after, w);
    RunGrows(s, after);
    assert t.db.group.value.pending == map[] by {
      assert |t.db.group.value.pending| == 0;
    }
  }
}
