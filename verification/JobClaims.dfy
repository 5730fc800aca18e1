/** Claiming idle entries: which of them a claim hands out, and how long it holds. */
module JobClaims {
  import opened Wrappers
  import opened Expiry
  import opened JobQueue
  import opened JobInvariants
  import opened JobFrames
  import opened JobTheorems
  import opened JobProgress

  // ------------------------------------------------------- the first idle entries

  predicate Idle(g: Group, e: EntryId, now: Time) {
    e in g.pending && g.pending[e].at + RECLAIM_IDLE_SECONDS <= now
  }

  /** The idle entries from `lo` up to `hi` in order, as many as there is room for. */
  function IdleFrom(g: Group, now: Time, lo: nat, hi: nat, room: nat): seq<EntryId>
    decreases hi - lo
  {
    if lo >= hi || room == 0 then []
    else if Idle(g, lo, now) then [lo] + IdleFrom(g, now, lo + 1, hi, room - 1)
    else IdleFrom(g, now, lo + 1, hi, room)
  }

  /** What XAUTOCLAIM finds when it starts from 0-0. */
  function FirstIdle(g: Group, now: Time): seq<EntryId> {
    IdleFrom(g, now, 0, g.next, RECLAIM_COUNT)
  }

  lemma {:induction false} IdleFromInOrder(g: Group, now: Time, lo: nat, hi: nat, room: nat)
    ensures
      var es := IdleFrom(g, now, lo, hi, room);
      && |es| <= room
      && (forall i | 0 <= i < |es| :: Idle(g, es[i], now) && lo <= es[i] < hi)
      && (forall i, j | 0 <= i < j < |es| :: es[i] < es[j])
    decreases hi - lo
  {
    if lo < hi && room > 0 {
      IdleFromInOrder(g, now, lo + 1, hi, if Idle(g, lo, now) then room - 1 else room);
    }
  }

  ghost function IdleBefore(g: Group, now: Time, lo: nat, e: EntryId): set<EntryId> {
    set x | x in g.pending && Idle(g, x, now) && lo <= x < e
  }

  /** An idle entry is among them exactly when those before it leave room. */
  lemma {:induction false} IdleFromExactly(g: Group, now: Time, lo: nat, hi: nat, room: nat, e: EntryId)
    requires lo <= e < hi
    ensures e in IdleFrom(g, now, lo, hi, room) <==> Idle(g, e, now) && |IdleBefore(g, now, lo, e)| < room
    decreases hi - lo
  {
    if e == lo {
      assert IdleBefore(g, now, lo, e) == {};
      IdleFromInOrder(g, now, lo + 1, hi, room);
    } else if room > 0 {
      var rest := IdleBefore(g, now, lo + 1, e);
      if Idle(g, lo, now) {
        assert IdleBefore(g, now, lo, e) == {lo} + rest;
        IdleFromExactly(g, now, lo + 1, hi, room - 1, e);
      } else {
        assert IdleBefore(g, now, lo, e) == rest;
        IdleFromExactly(g, now, lo + 1, hi, room, e);
      }
    }
  }

  // --------------------------------------------------------- leftovers come back

  /** Deliveries lie in the past. */
  ghost predicate DeliveriesPast(s: State) {
    s.db.group.Some? ==> forall e <- s.db.group.value.pending :: s.db.group.value.pending[e].at <= s.now
  }

  lemma DeliveryStep(s: State, step: Step)
    requires DeliveriesPast(s) && Enabled(s, step)
    ensures DeliveriesPast(Apply(s, step))
  {
    if step.Work? { ActFrame(s, step.w, step.action); }
  }

  lemma DeliveriesStayPast(s: State, steps: seq<Step>)
    requires DeliveriesPast(s) && CanRun(s, steps)
    ensures DeliveriesPast(Run(s, steps))
    decreases |steps|
  {
    if steps != [] {
      DeliveryStep(s, steps[0]);
      DeliveriesStayPast(Apply(s, steps[0]), steps[1..]);
    }
  }

  ghost function PendingBefore(s: State, e: EntryId): set<EntryId>
    requires s.db.group.Some?
  {
    set x | x in s.db.group.value.pending && x < e
  }

  /** After a minute's rest every pending entry is idle, and a claim takes the first ten. */
  lemma RestedBatch(t: State, e: EntryId)
    requires Inv(t) && DeliveriesPast(t) && PendingEntry(t, e)
    ensures
      var batch := FirstIdle(t.db.group.value, t.now + RECLAIM_IDLE_SECONDS);
      && Claimable(t.db.group.value, batch, t.now + RECLAIM_IDLE_SECONDS)
      && (e in batch <==> |PendingBefore(t, e)| < RECLAIM_COUNT)
  {
    var g, now := t.db.group.value, t.now + RECLAIM_IDLE_SECONDS;
    IdleFromInOrder(g, now, 0, g.next, RECLAIM_COUNT);
    IdleFromExactly(g, now, 0, g.next, RECLAIM_COUNT, e);
    assert IdleBefore(g, now, 0, e) == PendingBefore(t, e);
  }

  /**
    Whatever becomes of the batch an entry was claimed with, the entry stays
    pending until it is acked.  Once it has been left alone for a minute, a
    worker at the top of its loop that claims as Redis does, the first ten idle
    entries, gets it exactly when fewer than ten pending entries precede it.
   */
  lemma LeftoverIsReclaimable(start: Time, before: seq<Step>, after: seq<Step>, e: EntryId, w: Consumer)
    requires CanRun(Initial(start), before) && PendingEntry(Reached(start, before), e)
    requires CanRun(Reached(start, before), after)
    ensures
      var t := Run(Reached(start, before), after);
      && (PendingEntry(t, e) || e in t.log.acked)
      && (PendingEntry(t, e) && w in t.workers && t.workers[w].phase.Polling? ==>
            var u := Apply(t, Tick(60.0));
            var batch := FirstIdle(u.db.group.value, u.now);
            && CanAct(u, w, Claim(batch))
            && (e in batch <==> |PendingBefore(u, e)| < 10))
  {
    ReachedKeeps(start, before);
    var s := Reached(start, before);
    RunKeeps(s, after);
    RunGrows(s, after);
    DeliveriesStayPast(Initial(start), before);
    DeliveriesStayPast(s, after);
    var t := Run(s, after);
    if PendingEntry(t, e) { RestedBatch(t, e); }
  }

  // --------------------------------------------------- how an entry changes hands

  /** The entry is pending under this delivery. */
  ghost predicate HeldAs(s: State, e: EntryId, d: Delivery) {
    PendingEntry(s, e) && s.db.group.value.pending[e] == d
  }

  /**
    An entry comes to be pending under a delivery only in two ways: as the next
    undelivered entry, given to the worker that reads it, or by a claim of the
    worker, a minute at least after its last delivery.  Either starts its idle
    time anew, and leaves every other entry as it was.
   */
  lemma OnlyClaimsMoveEntries(s: State, step: Step, e: EntryId, d: Delivery)
    requires Enabled(s, step) && HeldAs(Apply(s, step), e, d) && !HeldAs(s, e, d)
    ensures step.Work? && d == Delivery(step.w, s.now) && s.db.group.Some?
    ensures
      || (Claims(step, e) && e in s.db.group.value.pending && s.db.group.value.pending[e].at + 60.0 <= s.now)
      || ((step.action.Deliver? || step.action.ReadRaises?) && e == s.db.group.value.next)
  {
    if step.Work? { ActFrame(s, step.w, step.action); }
  }

  // ------------------------------------------------------- a claim holds for a minute

  /** Worker `v` has the entry in hand or in its batch. */
  ghost predicate Holds(s: State, v: Consumer, e: EntryId) {
    v in s.workers && HoldsEntry(s.workers[v], e)
  }

  predicate Claims(step: Step, e: EntryId) {
    step.Work? && (step.action.Claim? || step.action.ClaimRaises?) && e in step.action.entries
  }

  ghost predicate ClaimedAt(s: State, e: EntryId, w: Consumer, at: Time) {
    && s.db.group.Some? && e < s.db.group.value.next
    && (e in s.db.group.value.pending ==> s.db.group.value.pending[e] == Delivery(w, at))
  }

  /** What a worker holds after one of its actions it held before, or has just claimed or been delivered. */
  lemma NewlyHeld(s: State, v: Consumer, action: Action, e: EntryId)
    requires CanAct(s, v, action) && s.db.group.Some? && e < s.db.group.value.next
    requires Holds(Act(s, v, action), v, e) && !Claims(Work(v, action), e)
    ensures Holds(s, v, e)
  {
    if !TouchesGroup(action) { OtherMoves(s, v, action); }
  }

  lemma HoldStep(s: State, step: Step, e: EntryId, w: Consumer, at: Time)
    requires ClaimedAt(s, e, w, at) && Enabled(s, step) && s.now < at + RECLAIM_IDLE_SECONDS
    ensures ClaimedAt(Apply(s, step), e, w, at) && !Claims(step, e)
    ensures forall v | Holds(Apply(s, step), v, e) :: Holds(s, v, e)
  {
    if step.Work? {
      ActFrame(s, step.w, step.action);
      if Holds(Apply(s, step), step.w, e) { NewlyHeld(s, step.w, step.action, e); }
    }
  }

  lemma {:induction false} HoldRun(s: State, steps: seq<Step>, e: EntryId, w: Consumer, at: Time)
    requires ClaimedAt(s, e, w, at) && CanRun(s, steps) && Run(s, steps).now < at + RECLAIM_IDLE_SECONDS
    ensures ClaimedAt(Run(s, steps), e, w, at)
    ensures forall step <- steps :: !Claims(step, e)
    ensures forall v | Holds(Run(s, steps), v, e) :: Holds(s, v, e)
    decreases |steps|
  {
    if steps != [] {
      RunLater(s, steps);
      HoldStep(s, steps[0], e, w, at);
      HoldRun(Apply(s, steps[0]), steps[1..], e, w, at);
    }
  }

  /**
    A claim gives the claimer a minute.  In every continuation shorter than that,
    whatever anyone does, the entry is pending under the claimer or acked, no
    claim takes it again, and no worker but the claimer comes to hold it that did
    not hold it already.
   */
  lemma ClaimHoldsForAMinute(
      start: Time, before: seq<Step>, w: Consumer, es: seq<EntryId>, after: seq<Step>, e: EntryId)
    requires CanRun(Initial(start), before) && CanClaim(Reached(start, before), w, es) && e in es
    requires
      var s := Reached(start, before);
      CanRun(OnClaim(s, w, es), after) && Run(OnClaim(s, w, es), after).now < s.now + 60.0
    ensures
      var s := Reached(start, before);
      var t := Run(OnClaim(s, w, es), after);
      && (PendingEntry(t, e) || e in t.log.acked)
      && (PendingEntry(t, e) ==> t.db.group.value.pending[e] == Delivery(w, s.now))
      && (forall step <- after :: !Claims(step, e))
      && (forall v | v != w && Holds(t, v, e) :: Holds(s, v, e))
  {
    var s := Reached(start, before);
    var s1 := OnClaim(s, w, es);
    ReachedKeeps(start, before);
    ClaimKeeps(s, w, es);
    RunKeeps(s1, after);
    RunGrows(s1, after);
    assert e in s1.db.group.value.pending;
    HoldRun(s1, after, e, w, s.now);
  }
}
