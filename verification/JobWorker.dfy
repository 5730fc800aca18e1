/**
  The code of the queue itself, run by one caller at a time: the two tool
  handlers and a pass of the worker loop, each as a sequence of Redis calls.
  Every method is proved to perform a run of the step system, so that what
  holds of all runs holds of it.
 */
module JobWorker {
  import opened Wrappers
  import opened Expiry
  import opened JobQueue
  import opened JobInvariants
  import opened JobFrames
  import opened JobTheorems
  import opened JobProgress
  import opened JobClaims
  import opened Counting

  /** The Redis call of `enqueue_export_job` that raises, if any, and whether it took effect. */
  datatype EnqueueFault = NoFault | OwnerRaises(applied: bool) | AddRaises(applied: bool)

  /** What came of token, export and file write. */
  datatype ExportOutcome = Exported(data: Bytes) | ExportFailed(error: string)

  datatype ToolResult = Error(message: string) | Queued(job: JobId) | Reported(reply: Reply)

  /** The record that a job with this outcome is to be answered with. */
  ghost predicate RightRecord(s: State, f: Fields, outcome: ExportOutcome, dir: string, r: Record) {
    if f.userId !in s.tokens then r == Failed("User has not authorized Google", f.userId)
    else match outcome
      case ExportFailed(error) => r == Failed(error, f.userId)
      case Exported(data) =>
        && r.Completed? && r.sizeBytes == |data| && r.userId == f.userId && IsMimeOf(f.format, r.mime)
        && r.path == dir + "/" + f.jobId + "." + f.format && Export(f.jobId, r.path, data) in s.log.exported
  }

  /** From `s0` to `s` the job of entry `e` has been given one more record, the right one. */
  ghost predicate GivenRecord(s0: State, s: State, e: EntryId, outcome: ExportOutcome, dir: string) {
    && e < |s.db.jobs|
    && var before, now := PublishedFor(s0.log, s.db.jobs[e].jobId), PublishedFor(s.log, s.db.jobs[e].jobId);
    && |now| == |before| + 1 && before <= now
    && RightRecord(s, s.db.jobs[e], outcome, dir, now[|before|])
  }

  /** Jobs other than those of `es` have been given nothing. */
  ghost predicate OthersSilent(s0: State, s: State, es: seq<EntryId>) {
    forall j | (forall e <- es :: e < |s.db.jobs| ==> s.db.jobs[e].jobId != j) ::
      PublishedFor(s.log, j) == PublishedFor(s0.log, j)
  }

  /** From `s0` to `s` each entry of `es` has been acked and given the right record, and no other job any. */
  ghost predicate Served(s0: State, s: State, es: seq<EntryId>, outcomes: EntryId -> ExportOutcome, dir: string) {
    && s.db.jobs == s0.db.jobs && s.tokens == s0.tokens && OthersSilent(s0, s, es)
    && (forall e <- es :: e in s.log.acked && GivenRecord(s0, s, e, outcomes(e), dir))
    && (forall e <- s.log.acked :: e in s0.log.acked || e in es)
  }

  /** Nothing of stream, tokens and log has changed. */
  ghost predicate SameJobs(s: State, t: State) {
    t.db.jobs == s.db.jobs && t.tokens == s.tokens && t.log == s.log
  }

  ghost predicate Distinct(es: seq<EntryId>) {
    forall i, j | 0 <= i < j < |es| :: es[i] != es[j]
  }

  /** The worker begins a pass. */
  ghost predicate AtTop(s: State, w: Consumer) {
    w in s.workers && s.workers[w].phase.Polling? && !s.workers[w].hasRead && !s.workers[w].didWork
  }

  /** The worker is between entries with `todo` left; nothing else of its pass has changed since `was`. */
  ghost predicate DrainingWith(s: State, w: Consumer, was: Worker, todo: seq<EntryId>) {
    w in s.workers && s.workers[w] == was.(phase := Draining, todo := todo, didWork := s.workers[w].didWork)
  }

  class Gateway {
    var s: State
    /** When Redis was empty, and the steps performed since. */
    ghost const start: Time
    ghost var trace: seq<Step>

    ghost predicate Valid()
      reads this
    {
      CanRun(Initial(start), trace) && s == Reached(start, trace)
    }

    constructor (now: Time)
      ensures Valid() && s == Initial(now) && start == now && trace == []
    {
      s := Initial(now);
      start := now;
      trace := [];
    }

    /** One call. */
    method Do(step: Step)
      requires Valid() && Enabled(s, step)
      modifies this
      ensures Valid() && s == Apply(old(s), step) && trace == old(trace) + [step]
    {
      RunThen(Initial(start), trace, step);
      s := Apply(s, step);
      trace := trace + [step];
    }

    /** The two writes that enqueue a job: its owner key, then its stream entry. */
    method EnqueueExportJob(f: Fields, fault: EnqueueFault)
      requires Valid() && f.jobId !in s.log.accepted && f.format in EXPORT_FORMATS
      modifies this
      ensures Valid() && old(trace) <= trace && s.now == old(s.now) && s.enqueuing == old(s.enqueuing)
      ensures s.db.results == old(s.db.results) && s.db.group == old(s.db.group)
      ensures s.db.jobs == old(s.db.jobs) + if fault.NoFault? || fault == AddRaises(true) then [f] else []
      ensures s.db.owners == if fault == OwnerRaises(false) then old(s.db.owners) else
                old(s.db.owners)[f.jobId := Cell(f.userId, Some(s.now + 3600.0))]
    {
      NotEnqueuing(start, trace, f.jobId);
      if fault == OwnerRaises(false) { return; }
      Do(SetOwner(f));
      if fault.NoFault? || fault == AddRaises(true) {
        Do(AddJob(f.jobId));
      } else {
        Do(DropJob(f.jobId));
      }
    }

    /**
      A caller told "queued" has a job in the stream under its own name.  One told
      otherwise may have too, if the reply to the last call was lost; then, and
      only then, the error is wrong, and the job has an owner key all the same.
     */
    method DriveExportLargeFile(user: UserId, file: string, format: string, job: JobId, fault: EnqueueFault)
      returns (r: ToolResult)
      requires Valid() && job !in s.log.accepted
      modifies this
      ensures Valid() && old(trace) <= trace
      ensures r == if format != "pdf" && format != "docx" && format != "txt"
                   then Error("Unsupported format '" + format + "'. Supported: pdf, docx, txt")
                   else if !fault.NoFault? then Error("Could not enqueue export job \U{2014} try again later.")
                   else Queued(job)
      ensures s.db.jobs == old(s.db.jobs) +
                if format in EXPORT_FORMATS && (fault.NoFault? || fault == AddRaises(true))
                then [Fields(job, user, file, format)] else []
      ensures s.db.jobs != old(s.db.jobs) ==> Lookup(s.db.owners, job, s.now) == Some(user)
      ensures forall j | j != job :: Lookup(s.db.owners, j, s.now) == old(Lookup(s.db.owners, j, s.now))
      ensures s.db.results == old(s.db.results) && s.db.group == old(s.db.group) && s.enqueuing == old(s.enqueuing)
      ensures format !in EXPORT_FORMATS ==> s == old(s)
    {
      FormatsAreExact(format);
      if format !in EXPORT_FORMATS {
        return Error("Unsupported format '" + format + "'. Supported: pdf, docx, txt");
      }
      EnqueueExportJob(Fields(job, user, file, format), fault);
      r := if fault.NoFault? then Queued(job) else Error("Could not enqueue export job \U{2014} try again later.");
    }

    method WaitForJob(caller: UserId, job: JobId, reader: nat) returns (r: ToolResult)
      requires Valid() && reader !in s.readers
      modifies this
      ensures Valid() && old(trace) <= trace && s.db == old(s.db)
      ensures Lookup(s.db.owners, job, s.now) != Some(caller) ==> r == Error("job not found")
      ensures Lookup(s.db.owners, job, s.now) == Some(caller) ==> r == Reported(Visible(s, job))
      ensures r.Reported? && r.reply.Found? ==> r.reply.record.userId == caller && Owns(s.log.accepted, caller, job)
    {
      var allowed := Lookup(s.db.owners, job, s.now) == Some(caller);
      Do(CheckOwner(reader, caller, job));
      if !allowed {
        return Error("job not found");
      }
      r := Reported(Visible(s, job));
      Do(ReadResult(reader));
      ReachedKeeps(start, trace);
      ghost var x := s.log.answers[|s.log.answers| - 1];
      assert x in s.log.answers;
    }

    /** One write of `_publish`. */
    method WriteNext(w: Consumer)
      requires Valid() && CanPublish(s, w)
      modifies this
      ensures Valid() && old(trace) <= trace
      ensures s.workers == old(s.workers)[w := old(s.workers[w]).(phase := AfterWrite(old(s.workers[w].phase)))]
      ensures s.log.acked == old(s.log.acked) && s.db.group == old(s.db.group) && s.db.jobs == old(s.db.jobs)
      ensures Answered(s, old(s.workers[w].phase.entry))
      ensures s.tokens == old(s.tokens) && s.log.exported == old(s.log.exported)
      ensures
        var p := old(s.workers[w].phase);
        var job := s.db.jobs[p.entry].jobId;
        s.log.published ==
          if p.stage.ToAdd? then old(s.log.published)[job := PublishedFor(old(s).log, job) + [p.record]]
          else old(s.log.published)
    {
      ReachedKeeps(start, trace);
      StillAnswered(s, w);
      WrittenGrows(s, w, AfterWrite(s.workers[w].phase));
      Do(Work(w, JobQueue.Action.Publish));
    }

    /** `_publish`: the record, then the two expiries. */
    method Publish(w: Consumer)
      requires Valid() && CanPublish(s, w) && s.workers[w].phase.stage.ToAdd?
      modifies this
      ensures Valid() && old(trace) <= trace
      ensures
        var acking := Acking(old(s.workers[w].phase.entry), Resume);
        s.workers == old(s.workers)[w := old(s.workers[w]).(phase := acking)]
      ensures Answered(s, old(s.workers[w].phase.entry))
      ensures s.log.acked == old(s.log.acked) && s.db.group == old(s.db.group) && s.db.jobs == old(s.db.jobs)
      ensures s.tokens == old(s.tokens) && s.log.exported == old(s.log.exported)
      ensures
        var p := old(s.workers[w].phase);
        var job := s.db.jobs[p.entry].jobId;
        s.log.published == old(s.log.published)[job := PublishedFor(old(s).log, job) + [p.record]]
    {
      WriteNext(w);
      WriteNext(w);
      WriteNext(w);
    }

    /**
      The body of `try` up to the publish.  The export is not even attempted for a
      user without a token.
     */
    method Export(w: Consumer, outcome: ExportOutcome, dir: string)
      requires Valid() && CanBegin(s, w)
      modifies this
      ensures Valid() && old(trace) <= trace
      ensures CanPublish(s, w) && s.workers[w].phase.stage.ToAdd?
      ensures s.workers[w] == old(s.workers[w]).(phase := s.workers[w].phase, todo := old(s.workers[w].todo)[1..])
      ensures s.workers[w].phase.entry == old(s.workers[w].todo)[0]
      ensures RightRecord(s, s.db.jobs[s.workers[w].phase.entry], outcome, dir, s.workers[w].phase.record)
      ensures s.log.acked == old(s.log.acked) && s.db == old(s.db) && s.tokens == old(s.tokens)
      ensures s.log.published == old(s.log.published) && old(s.log.exported) <= s.log.exported
    {
      Do(Work(w, Begin));
      EntryInHand(start, trace, w);
      if s.db.jobs[s.workers[w].phase.entry].userId !in s.tokens {
        Do(Work(w, ExportRaises("User has not authorized Google")));
      } else if outcome.Exported? {
        FormatsAreExact(s.db.jobs[s.workers[w].phase.entry].format);
        Do(Work(w, ExportOk(outcome.data, dir)));
      } else {
        Do(Work(w, ExportRaises(outcome.error)));
      }
    }

    /** `_process`, with no fault of Redis. */
    method Process(w: Consumer, outcome: ExportOutcome, dir: string)
      requires Valid() && CanBegin(s, w)
      modifies this
      ensures Valid() && old(trace) <= trace
      ensures DrainingWith(s, w, old(s.workers[w]), old(s.workers[w].todo)[1..]) && s.workers[w].didWork
      ensures
        var e := old(s.workers[w].todo)[0];
        && e in s.log.acked && Answered(s, e)
        && GivenRecord(old(s), s, e, outcome, dir) && OthersSilent(old(s), s, [e])
        && s.log.acked == old(s.log.acked) + {e}
      ensures s.tokens == old(s.tokens)
      ensures s.db.jobs == old(s.db.jobs) && s.db.group.Some? && old(s.db.group).Some?
      ensures s.db.group.value.next == old(s.db.group.value.next)
    {
      Export(w, outcome, dir);
      Publish(w);
      EntryInHand(start, trace, w);
      Do(Work(w, Ack));
    }

    /** One turn of the `for` loop, when `es` have had theirs since `s0`. */
    method ProcessNext(
        w: Consumer, outcomes: EntryId -> ExportOutcome, dir: string, ghost s0: State, ghost es: seq<EntryId>)
      requires Valid() && CanBegin(s, w) && Served(s0, s, es, outcomes, dir) && s.workers[w].todo[0] !in es
      modifies this
      ensures Valid() && old(trace) <= trace
      ensures Served(s0, s, es + [old(s.workers[w].todo)[0]], outcomes, dir)
      ensures DrainingWith(s, w, old(s.workers[w]), old(s.workers[w].todo)[1..]) && s.workers[w].didWork
      ensures s.db.group.Some? && old(s.db.group).Some? && s.db.group.value.next == old(s.db.group.value.next)
    {
      ghost var soFar := trace;
      ghost var e := s.workers[w].todo[0];
      Process(w, outcomes(s.workers[w].todo[0]), dir);
      ServedBoth(start, soFar, trace, s0, es, [e], outcomes, dir);
    }

    /** The `for` loop over a batch. */
    method Drain(
        w: Consumer, outcomes: EntryId -> ExportOutcome, dir: string, ghost s0: State, ghost es: seq<EntryId>)
      requires Valid() && w in s.workers && s.workers[w].phase.Draining? && Distinct(es + s.workers[w].todo)
      requires Served(s0, s, es, outcomes, dir)
      modifies this
      ensures Valid() && old(trace) <= trace
      ensures Served(s0, s, es + old(s.workers[w].todo), outcomes, dir)
      ensures DrainingWith(s, w, old(s.workers[w]), [])
      ensures s.workers[w].didWork == (old(s.workers[w].didWork) || old(s.workers[w].todo) != [])
      ensures s.db.group.Some? && old(s.db.group).Some?
      ensures s.db.group.value.next == old(s.db.group.value.next)
    {
      assert s.db.group.Some? by { ReachedKeeps(start, trace); }
      ghost var batch := s.workers[w].todo;
      ghost var all := es + batch;
      ghost var done := |es|;
      assert all[..done] == es && all[done..] == batch;
      while s.workers[w].todo != []
        invariant Valid() && old(trace) <= trace && |es| <= done <= |all| && w in s.workers
        invariant DrainingWith(s, w, old(s.workers[w]), all[done..])
        invariant s.workers[w].didWork == (old(s.workers[w].didWork) || done > |es|)
        invariant Served(s0, s, all[..done], outcomes, dir)
        invariant s.db.group.Some? && old(s.db.group).Some?
        invariant s.db.group.value.next == old(s.db.group.value.next)
        decreases |all| - done
      {
        NextOf(all, done);
        ProcessNext(w, outcomes, dir, s0, all[..done]);
        done := done + 1;
      }
      assert all[..done] == all;
    }

    /** XAUTOCLAIM at the top of the loop. */
    method Reclaim(w: Consumer, claimed: seq<EntryId>)
      requires Valid() && AtTop(s, w) && CanClaim(s, w, claimed)
      modifies this
      ensures Valid() && old(trace) <= trace && SameJobs(old(s), s)
      ensures w in s.workers && s.workers[w].phase.Draining? && s.workers[w].todo == claimed
      ensures !s.workers[w].hasRead && !s.workers[w].didWork && s.workers[w].worked == old(s.workers[w].worked)
      ensures s.db.group.Some? && s.db.group.value.next == old(s.db.group.value.next)
    {
      Do(Work(w, Claim(claimed)));
    }

    /** XREADGROUP for one new entry. */
    method ReadGroup(w: Consumer)
      requires Valid() && CanRead(s, w)
      modifies this
      ensures Valid() && old(trace) <= trace && SameJobs(old(s), s)
      ensures w in s.workers && s.workers[w].phase.Draining? && s.workers[w].hasRead
      ensures s.workers[w].todo == WorkOf(old(s), [])
      ensures s.workers[w].worked == old(s.workers[w].worked) && s.workers[w].didWork == old(s.workers[w].didWork)
    {
      if s.db.group.value.next < |s.db.jobs| {
        Do(Work(w, Deliver));
      } else {
        Do(Work(w, NothingNew));
      }
    }

    /** The bottom of the loop. */
    method Finish(w: Consumer)
      requires Valid() && CanEndPass(s, w)
      modifies this
      ensures Valid() && old(trace) <= trace && SameJobs(old(s), s) && AtTop(s, w)
      ensures s.workers[w].worked == old(s.workers[w].worked) + if old(s.workers[w].didWork) then 1 else 0
    {
      Do(Work(w, EndPass));
    }

    /** One pass of the loop in `run`; the batch is what XAUTOCLAIM returned. */
    method Pass(w: Consumer, claimed: seq<EntryId>, outcomes: EntryId -> ExportOutcome, dir: string)
      requires Valid() && AtTop(s, w) && CanClaim(s, w, claimed)
      modifies this
      ensures Valid() && old(trace) <= trace && AtTop(s, w)
      ensures Served(old(s), s, WorkOf(old(s), claimed), outcomes, dir)
      ensures s.workers[w].worked == old(s.workers[w].worked) + if WorkOf(old(s), claimed) != [] then 1 else 0
    {
      NextIsNew(start, trace, claimed);
      ghost var s0 := s;
      DrainClaimed(w, claimed, outcomes, dir);
      DrainRead(w, outcomes, dir, s0, claimed);
      ghost var s1 := s;
      Finish(w);
      ServedSame(s0, s1, s, WorkOf(s0, claimed), outcomes, dir);
    }

    method DrainClaimed(w: Consumer, claimed: seq<EntryId>, outcomes: EntryId -> ExportOutcome, dir: string)
      requires Valid() && AtTop(s, w) && CanClaim(s, w, claimed)
      modifies this
      ensures Valid() && old(trace) <= trace && Served(old(s), s, claimed, outcomes, dir) && CanRead(s, w)
      ensures s.workers[w].worked == old(s.workers[w].worked) && s.workers[w].didWork == (claimed != [])
      ensures s.db.group.value.next == old(s.db.group.value.next)
    {
      ghost var s0 := s;
      assert Distinct([] + claimed);
      ServedSame(s0, s0, s0, [], outcomes, dir);
      Reclaim(w, claimed);
      ServedSame(s0, s0, s, [], outcomes, dir);
      Drain(w, outcomes, dir, s0, []);
      assert [] + claimed == claimed;
    }

    method DrainRead(
        w: Consumer, outcomes: EntryId -> ExportOutcome, dir: string, ghost s0: State, ghost es: seq<EntryId>)
      requires Valid() && CanRead(s, w) && Served(s0, s, es, outcomes, dir)
      requires Distinct(es) && s.db.group.value.next !in es
      modifies this
      ensures Valid() && old(trace) <= trace && CanEndPass(s, w)
      ensures Served(s0, s, WorkOf(old(s), es), outcomes, dir)
      ensures s.workers[w].worked == old(s.workers[w].worked)
      ensures s.workers[w].didWork == (old(s.workers[w].didWork) || WorkOf(old(s), []) != [])
    {
      ghost var s1 := s;
      ReadGroup(w);
      ServedSame(s0, s1, s, es, outcomes, dir);
      assert es + WorkOf(s1, []) == WorkOf(s1, es);
      Drain(w, outcomes, dir, s0, es);
    }

    /**
      A minute's rest and a pass on the first ten idle entries.  While anything is
      outstanding, such a pass finds work, and leaves less outstanding.
     */
    method RestedPass(w: Consumer, outcomes: EntryId -> ExportOutcome, dir: string) returns (ghost es: seq<EntryId>)
      requires Valid() && AtTop(s, w) && s.db.group.Some? && Outstanding(s) > 0
      modifies this
      ensures Valid() && old(trace) <= trace && AtTop(s, w) && s.db.jobs == old(s.db.jobs) && s.db.group.Some?
      ensures s.workers[w].worked == old(s.workers[w].worked) + 1
      ensures 0 <= Outstanding(s) < old(Outstanding(s))
      ensures Served(old(s), s, es, outcomes, dir) && forall e <- es :: e !in old(s.log.acked)
    {
      Do(Tick(RECLAIM_IDLE_SECONDS));
      ghost var before := s;
      ghost var soFar := trace;
      var batch := FirstIdle(s.db.group.value, s.now);
      RestedBatchFindsWork(start, old(trace), w);
      es := WorkOf(s, batch);
      WorkIsNew(start, trace, batch);
      Pass(w, batch, outcomes, dir);
      TraceGrows(start, soFar, trace);
      FewerOutstanding(start, soFar, trace, if batch != [] then batch[0] else before.db.group.value.next);
    }

    /**
      So a worker that alternates rest and fault-free passes empties the queue in as
      many passes as entries, at most.
     */
    method DrainQueue(w: Consumer, outcomes: EntryId -> ExportOutcome, dir: string) returns (passes: nat)
      requires Valid() && AtTop(s, w) && s.db.group.Some?
      modifies this
      ensures Valid() && old(trace) <= trace && AtTop(s, w) && s.db.jobs == old(s.db.jobs) && s.db.group.Some?
      ensures passes <= old(Outstanding(s)) && s.workers[w].worked == old(s.workers[w].worked) + passes
      ensures Outstanding(s) == 0
      ensures forall e: EntryId | s.log.groupStart <= e < |s.db.jobs| ::
                e in s.log.acked && (e in old(s.log.acked) || GivenRecord(old(s), s, e, outcomes(e), dir))
    {
      NothingBelowZero(start, trace);
      passes := 0;
      ghost var served: seq<EntryId> := [];
      while s.db.group.value.next < |s.db.jobs| || |s.db.group.value.pending| > 0
        invariant Valid() && old(trace) <= trace && AtTop(s, w) && s.db.jobs == old(s.db.jobs) && s.db.group.Some?
        invariant s.workers[w].worked == old(s.workers[w].worked) + passes
        invariant 0 <= Outstanding(s) && passes + Outstanding(s) <= old(Outstanding(s))
        invariant Served(old(s), s, served, outcomes, dir)
        decreases Outstanding(s)
      {
        NothingBelowZero(start, trace);
        ghost var soFar := trace;
        ghost var es := RestedPass(w, outcomes, dir);
        ServedBoth(start, soFar, trace, old(s), served, es, outcomes, dir);
        served := served + es;
        passes := passes + 1;
      }
      NothingBelowZero(start, trace);
      EmptyIsAcked(start, trace);
    }
  }

  lemma NothingBelowZero(start: Time, trace: seq<Step>)
    requires CanRun(Initial(start), trace) && Reached(start, trace).db.group.Some?
    ensures
      var s := Reached(start, trace);
      s.db.group.value.next <= |s.db.jobs| && 0 <= Outstanding(s)
  {
    ReachedKeeps(start, trace);
  }

  lemma EmptyIsAcked(start: Time, trace: seq<Step>)
    requires CanRun(Initial(start), trace)
    requires
      var s := Reached(start, trace);
      s.db.group.Some? && s.db.group.value.next == |s.db.jobs| && |s.db.group.value.pending| == 0
    ensures
      var s := Reached(start, trace);
      forall e: EntryId | s.log.groupStart <= e < |s.db.jobs| :: e in s.log.acked
  {
    ReachedKeeps(start, trace);
    assert Reached(start, trace).db.group.value.pending == map[];
  }

  /**
    A minute after any moment of a run a claim of the first idle entries is
    possible, and empty only if nothing is pending.
   */
  lemma RestedBatchFindsWork(start: Time, trace: seq<Step>, w: Consumer)
    requires CanRun(Initial(start), trace)
    requires var s := Reached(start, trace); AtTop(s, w) && s.db.group.Some?
    ensures
      var s := Reached(start, trace);
      var batch := FirstIdle(s.db.group.value, s.now + RECLAIM_IDLE_SECONDS);
      && Claimable(s.db.group.value, batch, s.now + RECLAIM_IDLE_SECONDS)
      && (batch == [] ==> s.db.group.value.pending == map[])
      && (forall e <- batch :: e in s.db.group.value.pending)
  {
    var s := Reached(start, trace);
    var g, now := s.db.group.value, s.now + RECLAIM_IDLE_SECONDS;
    ReachedKeeps(start, trace);
    DeliveriesStayPast(Initial(start), trace);
    IdleFromInOrder(g, now, 0, g.next, RECLAIM_COUNT);
    if g.pending != map[] {
      var e := First(g.pending.Keys);
      RestedBatch(s, e);
      assert PendingBefore(s, e) == {};
    }
  }

  ghost function First(es: set<EntryId>): (e: EntryId)
    requires es != {}
    ensures e in es && forall x <- es :: e <= x
    decreases es
  {
    var x :| x in es;
    if es == {x} then x else
      var y := First(es - {x});
      assert forall z <- es :: z == x || z in es - {x};
      if x <= y then x else y
  }

  /** An entry acked meanwhile, in a queue that has not grown, is one outstanding entry less. */
  lemma FewerOutstanding(start: Time, a: seq<Step>, b: seq<Step>, e: EntryId)
    requires CanRun(Initial(start), a) && CanRun(Initial(start), b)
    requires
      var s, t := Reached(start, a), Reached(start, b);
      && Grows(s, t) && s.db.group.Some? && t.db.jobs == s.db.jobs && e in t.log.acked
      && (PendingEntry(s, e) || Undelivered(s, e))
    ensures
      var s, t := Reached(start, a), Reached(start, b);
      t.db.group.Some? && 0 <= Outstanding(t) < Outstanding(s)
  {
    var s, t := Reached(start, a), Reached(start, b);
    ReachedKeeps(start, a);
    ReachedKeeps(start, b);
    OutstandingCount(s);
    OutstandingCount(t);
    assert e !in s.log.acked;
    SubsetSize(s.log.acked, t.log.acked);
  }

  ghost predicate OneEntryEach(jobs: seq<Fields>) {
    forall i, k | 0 <= i < k < |jobs| :: jobs[i].jobId != jobs[k].jobId
  }

  lemma JobsAreApart(start: Time, trace: seq<Step>)
    requires CanRun(Initial(start), trace)
    ensures OneEntryEach(Reached(start, trace).db.jobs)
  {
    ReachedKeeps(start, trace);
  }

  /** A record given stays given while others are. */
  lemma StillGiven(
      s0: State, s: State, t: State, e: EntryId, xs: seq<EntryId>, outcome: ExportOutcome, dir: string)
    requires t.db.jobs == s.db.jobs && t.tokens == s.tokens && s.log.exported <= t.log.exported
    requires GivenRecord(s0, s, e, outcome, dir) && OthersSilent(s, t, xs)
    requires OneEntryEach(s.db.jobs) && e !in xs
    ensures GivenRecord(s0, t, e, outcome, dir)
  {
    assert forall y <- xs :: y < |t.db.jobs| ==> t.db.jobs[y].jobId != s.db.jobs[e].jobId;
  }

  /** A record given after others were is given since the beginning. */
  lemma NewlyGiven(
      s0: State, s: State, t: State, es: seq<EntryId>, x: EntryId, outcome: ExportOutcome, dir: string)
    requires t.db.jobs == s.db.jobs && OthersSilent(s0, s, es) && GivenRecord(s, t, x, outcome, dir)
    requires OneEntryEach(s.db.jobs) && x !in es
    ensures GivenRecord(s0, t, x, outcome, dir)
  {
    assert forall y <- es :: y < |s.db.jobs| ==> s.db.jobs[y].jobId != s.db.jobs[x].jobId;
  }

  lemma BothSilent(s0: State, s: State, t: State, es: seq<EntryId>, xs: seq<EntryId>)
    requires t.db.jobs == s.db.jobs && OthersSilent(s0, s, es) && OthersSilent(s, t, xs)
    ensures OthersSilent(s0, t, es + xs)
  {
    assert (forall x <- xs :: x in es + xs) && (forall e <- es :: e in es + xs);
  }

  /** What a pass handles: the batch it claimed and the next undelivered entry, if there is one. */
  ghost function WorkOf(s: State, claimed: seq<EntryId>): seq<EntryId>
    requires s.db.group.Some?
  {
    claimed + if s.db.group.value.next < |s.db.jobs| then [s.db.group.value.next] else []
  }

  lemma ServedSame(
      s0: State, s: State, t: State, es: seq<EntryId>, outcomes: EntryId -> ExportOutcome, dir: string)
    requires SameJobs(s, t) && (Served(s0, s, es, outcomes, dir) || (es == [] && s == s0))
    ensures Served(s0, t, es, outcomes, dir)
  {
  }

  /** What a pass handles has not been acked. */
  lemma WorkIsNew(start: Time, trace: seq<Step>, claimed: seq<EntryId>)
    requires CanRun(Initial(start), trace)
    requires var s := Reached(start, trace); s.db.group.Some? && Claimable(s.db.group.value, claimed, s.now)
    ensures
      var s := Reached(start, trace);
      forall e <- WorkOf(s, claimed) :: e !in s.log.acked
  {
    ReachedKeeps(start, trace);
    var s := Reached(start, trace);
    forall e <- claimed ensures e !in s.log.acked {
      assert e in s.db.group.value.pending;
    }
  }

  lemma NextIsNew(start: Time, trace: seq<Step>, claimed: seq<EntryId>)
    requires CanRun(Initial(start), trace)
    requires var s := Reached(start, trace); s.db.group.Some? && Claimable(s.db.group.value, claimed, s.now)
    ensures Reached(start, trace).db.group.value.next !in claimed
  {
    ReachedKeeps(start, trace);
  }

  /** Those served first and those served next, none of them twice. */
  lemma ServedBoth(
      start: Time, a: seq<Step>, b: seq<Step>, s0: State, es: seq<EntryId>, xs: seq<EntryId>,
      outcomes: EntryId -> ExportOutcome, dir: string)
    requires CanRun(Initial(start), a) && CanRun(Initial(start), b) && a <= b && forall x <- xs :: x !in es
    requires Served(s0, Reached(start, a), es, outcomes, dir)
    requires Served(Reached(start, a), Reached(start, b), xs, outcomes, dir)
    ensures Served(s0, Reached(start, b), es + xs, outcomes, dir)
  {
    var s, t := Reached(start, a), Reached(start, b);
    JobsAreApart(start, a);
    TraceGrows(start, a, b);
    BothSilent(s0, s, t, es, xs);
    forall e <- es + xs ensures GivenRecord(s0, t, e, outcomes(e), dir) {
      if e in xs {
        NewlyGiven(s0, s, t, es, e, outcomes(e), dir);
      } else {
        StillGiven(s0, s, t, e, xs, outcomes(e), dir);
      }
    }
  }

  lemma NextOf(es: seq<EntryId>, n: nat)
    requires n < |es| && Distinct(es)
    ensures es[..n + 1] == es[..n] + [es[n]] && es[n..][0] == es[n] && es[n..][1..] == es[n + 1..] && es[n] !in es[..n]
  {
  }

  lemma NotEnqueuing(start: Time, trace: seq<Step>, job: JobId)
    requires CanRun(Initial(start), trace) && job !in Reached(start, trace).log.accepted
    ensures job !in Reached(start, trace).enqueuing
  {
    ReachedKeeps(start, trace);
  }

  /** What a reachable worker holds has been delivered, and is acked unless it is pending. */
  lemma EntryInHand(start: Time, trace: seq<Step>, w: Consumer)
    requires CanRun(Initial(start), trace) && w in Reached(start, trace).workers
    requires var p := Reached(start, trace).workers[w].phase; p.Exporting? || p.Publishing? || p.Acking?
    ensures
      var s := Reached(start, trace);
      var e := s.workers[w].phase.entry;
      && e < |s.db.jobs| && s.db.jobs[e].format in EXPORT_FORMATS
      && s.db.group.Some? && (e in s.db.group.value.pending || e in s.log.acked)
  {
    ReachedKeeps(start, trace);
    assert PhaseInv(Reached(start, trace), Reached(start, trace).workers[w].phase);
  }

  /** What has been acked or published stays so as the trace goes on. */
  lemma TraceGrows(start: Time, a: seq<Step>, b: seq<Step>)
    requires CanRun(Initial(start), a) && CanRun(Initial(start), b) && a <= b
    ensures Grows(Reached(start, a), Reached(start, b))
  {
    var rest := b[|a|..];
    assert b == a + rest;
    ReachedKeeps(start, a);
    RunSplit(Initial(start), a, rest);
    RunGrows(Reached(start, a), rest);
  }

  lemma StillAnswered(s: State, w: Consumer)
    requires Inv(s) && CanPublish(s, w)
    ensures Answered(Written(s, w, AfterWrite(s.workers[w].phase)), s.workers[w].phase.entry)
  {
    assert PhaseInv(s, s.workers[w].phase);
  }
}
