/** Whose jobs can complete: the worker exports with the token of the job's own user. */
module JobTokens {
  import opened Expiry
  import opened JobQueue
  import opened JobInvariants
  import opened JobFrames
  import opened JobTheorems
  import TokenStore

  /** Every export was made for a user who had a token. */
  ghost predicate ExportsHadToken(s: State) {
    forall x <- s.log.exported :: x.job in s.log.accepted && s.log.accepted[x.job].userId in s.tokens
  }

  lemma StepHadToken(s: State, step: Step)
    requires Inv(s) && ExportsHadToken(s) && Enabled(s, step)
    ensures ExportsHadToken(Apply(s, step))
  {
    if step.Work? { ActFrame(s, step.w, step.action); }
  }

  lemma {:induction false} RunHadToken(s: State, steps: seq<Step>)
    requires Inv(s) && ExportsHadToken(s) && CanRun(s, steps)
    ensures ExportsHadToken(Run(s, steps))
    decreases |steps|
  {
    if steps != [] {
      StepKeeps(s, steps[0]);
      StepHadToken(s, steps[0]);
      RunHadToken(Apply(s, steps[0]), steps[1..]);
    }
  }

  /** Only those who were granted a token have one. */
  lemma {:induction false} TokensWereGranted(s: State, steps: seq<Step>, user: UserId)
    requires CanRun(s, steps) && user in Run(s, steps).tokens
    ensures user in s.tokens || Grant(user) in steps
    decreases |steps|
  {
    if steps != [] {
      var step := steps[0];
      if step.Work? { ActFrame(s, step.w, step.action); }
      TokensWereGranted(Apply(s, step), steps[1..], user);
      assert forall x <- steps[1..] :: x in steps;
    }
  }

  /**
    In every run, a completed record is published only for a user who was granted
    a token; whoever was not gets nothing but failures, however often the job is
    processed.
   */
  lemma CompletedNeedsToken(start: Time, steps: seq<Step>, job: JobId, r: Record)
    requires CanRun(Initial(start), steps)
    requires r in PublishedFor(Reached(start, steps).log, job) && Grant(r.userId) !in steps
    ensures r.Failed? && Owns(Reached(start, steps).log.accepted, r.userId, job)
  {
    PublishedRecordIsTrue(start, steps, job, r);
    RunHadToken(Initial(start), steps);
    if r.userId in Reached(start, steps).tokens { TokensWereGranted(Initial(start), steps, r.userId); }
  }

  /**
    Beside any run of the token store, if tokens are granted only to users the
    store comes to have a record of, every completed job is the shared user's:
    nobody else's ever completes.
   */
  lemma OnlySharedJobsComplete(
      start: Time, steps: seq<Step>, job: JobId, r: Record,
      env: TokenStore.Env, boot: Time, writes: seq<TokenStore.Step>)
    requires CanRun(Initial(start), steps) && TokenStore.Reachable(env, boot, writes)
    requires forall step <- steps | step.Grant? :: step.user in TokenStore.Reached(env, boot, writes).stored
    requires r in PublishedFor(Reached(start, steps).log, job) && r.Completed?
    ensures r.userId == TokenStore.SHARED_USER && Owns(Reached(start, steps).log.accepted, r.userId, job)
  {
    PublishedRecordIsTrue(start, steps, job, r);
    TokenStore.OnlyTheSharedUserIsAuthorized(env, boot, writes);
    if Grant(r.userId) !in steps { CompletedNeedsToken(start, steps, job, r); }
  }
}
