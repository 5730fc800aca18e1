/** The files behind completed records: every export of a job to one directory goes to the same path. */
module JobFiles {
  import opened Wrappers
  import opened Expiry
  import opened JobQueue
  import opened JobFrames
  import opened JobTheorems

  /** The step writes an export to `path`. */
  predicate WritesFile(s: State, step: Step, path: string) {
    && step.Work? && step.action.ExportOk? && FormatKnown(s, step.w)
    && var f := s.db.jobs[s.workers[step.w].phase.entry];
    && path == ExportPath(step.action.dir, f.jobId, EXPORT_FORMATS[f.format].ext)
  }

  /** What the last write of the run left at `path`, if there was any. */
  function FileAfter(s: State, steps: seq<Step>, path: string): Option<Bytes>
    requires CanRun(s, steps)
    decreases |steps|
  {
    if steps == [] then None else
      var later := FileAfter(Apply(s, steps[0]), steps[1..], path);
      if later.Some? then later
      else if WritesFile(s, steps[0], path) then Some(steps[0].action.data)
      else None
  }

  lemma {:induction false} FileConcat(s: State, a: seq<Step>, b: seq<Step>, path: string)
    requires CanRun(s, a) && CanRun(Run(s, a), b)
    ensures CanRun(s, a + b)
    ensures
      var later := FileAfter(Run(s, a), b, path);
      FileAfter(s, a + b, path) == if later.Some? then later else FileAfter(s, a, path)
    decreases |a|
  {
    RunConcat(s, a, b);
    if a == [] {
      assert a + b == b;
    } else {
      assert (a + b)[0] == a[0] && (a + b)[1..] == a[1..] + b;
      FileConcat(Apply(s, a[0]), a[1..], b, path);
    }
  }

  /** The run `before`, then the export by `w`, then `after`. */
  function WithExport(before: seq<Step>, w: Consumer, data: Bytes, dir: string, after: seq<Step>): seq<Step> {
    before + [Work(w, ExportOk(data, dir))] + after
  }

  /**
    The record of an export describes the file it names for exactly as long as no
    later export to that path has another size: afterwards the file holds the
    bytes of the last export there, whichever record readers see.
   */
  lemma RecordDescribesItsFile(
      start: Time, before: seq<Step>, w: Consumer, data: Bytes, dir: string, after: seq<Step>)
    requires CanRun(Initial(start), before) && CanAct(Reached(start, before), w, ExportOk(data, dir))
    requires CanRun(Apply(Reached(start, before), Work(w, ExportOk(data, dir))), after)
    ensures
      var t := Apply(Reached(start, before), Work(w, ExportOk(data, dir)));
      var all := WithExport(before, w, data, dir, after);
      && w in t.workers && t.workers[w].phase.Publishing? && t.workers[w].phase.record.Completed?
      && var r := t.workers[w].phase.record;
      && var later := FileAfter(t, after, r.path);
      && CanRun(Initial(start), all)
      && var file := FileAfter(Initial(start), all, r.path);
      && file == Some(if later.Some? then later.value else data)
      && (|file.value| == r.sizeBytes <==> (later.Some? ==> |later.value| == |data|))
  {
    var step := Work(w, ExportOk(data, dir));
    var s := Reached(start, before);
    var path := Apply(s, step).workers[w].phase.record.path;
    RunThen(Initial(start), before, step);
    FileConcat(Initial(start), before + [step], after, path);
    RunOne(s, step);
    FileConcat(Initial(start), before, [step], path);
    assert [step][1..] == [] && WritesFile(s, step, path);
  }

  // ------------------------------------------------------- each job has a file of its own

  /** What lies on either side of the last `m` is determined by the whole. */
  lemma LastMark(a: string, b: string, a': string, b': string, m: char)
    requires a + [m] + b == a' + [m] + b' && m !in b && m !in b'
    ensures a == a' && b == b'
  {
    var s := a + [m] + b;
    assert s[|a|] == m && s[|a'|] == m;
    assert a == s[..|a|] && b == s[|a| + 1..];
  }

  /** The id of a job is neither a path nor has it an extension: it is the hex form of a UUID. */
  predicate PlainId(job: JobId) {
    '/' !in job && '.' !in job
  }

  /** Two jobs are never exported to the same path, whatever the directories and formats. */
  lemma PathsAreApart(dir: string, dir': string, job: JobId, job': JobId, format: string, format': string)
    requires PlainId(job) && PlainId(job') && format in EXPORT_FORMATS && format' in EXPORT_FORMATS
    requires ExportPath(dir, job, EXPORT_FORMATS[format].ext) == ExportPath(dir', job', EXPORT_FORMATS[format'].ext)
    ensures job == job' && format == format' && dir == dir'
  {
    FormatsAreExact(format);
    FormatsAreExact(format');
    LastMark(dir + "/" + job, format, dir' + "/" + job', format', '.');
    LastMark(dir, job, dir', job', '/');
  }

  /** So the file of a job is written by exports of that job alone. */
  lemma OnlyItsJobWritesTheFile(s: State, step: Step, dir: string, job: JobId, format: string)
    requires Enabled(s, step) && PlainId(job) && format in EXPORT_FORMATS
    requires WritesFile(s, step, ExportPath(dir, job, EXPORT_FORMATS[format].ext))
    requires forall f <- s.db.jobs :: PlainId(f.jobId)
    ensures s.db.jobs[s.workers[step.w].phase.entry].jobId == job
  {
    var f := s.db.jobs[s.workers[step.w].phase.entry];
    PathsAreApart(dir, step.action.dir, job, f.jobId, format, f.format);
  }
}
