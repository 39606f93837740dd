/** What data jobs guarantee although completion does not look at the lock. */
module DataJobSafety {
  import opened Ledger
  import opened ProductCsv
  import opened ProductImport
  import opened DataJobs

  /** How a finished import job stands to the file it was made from. */
  predicate MatchesFile(job: Job) {
    && FileOf(job.kind).Some?
    && job.status == TerminalStatus(FileOf(job.kind).value)
    && job.counts == FileCounts(FileOf(job.kind).value)
  }

  predicate JobOk(job: Job, max: nat) {
    && job.attempts <= max
    && (job.status.Pending? ==> job.attempts < max)
    && (job.status.Processing? <==> job.lockedBy.Some?) && (job.status.Processing? <==> job.lockedAt.Some?)
    && (job.status.Processing? ==> job.attempts >= 1)
    && (job.hasInput <==> job.kind.ImportJob? && !Terminal(job.status))
    && job.counts.successful + job.counts.failed == job.counts.processed == job.counts.total
    && (!Terminal(job.status) ==> job.counts == NO_COUNTS) && (Terminal(job.status) <==> job.completedAt.Some?)
    && (job.kind.ImportJob? && Terminal(job.status) ==>
        MatchesFile(job) || (job.status.Failed? && job.counts == NO_COUNTS))
    && (job.kind.ExportJob? && Terminal(job.status) ==>
        job.status.Succeeded? || (job.status.Failed? && job.counts == NO_COUNTS))
  }

  predicate ClaimOk(s: System, w: WorkerId, c: Claim) {
    && c.job in s.jobs && c.kind == s.jobs[c.job].kind && 1 <= c.attempts <= s.jobs[c.job].attempts
    && (HasLock(s.jobs, c.job, w) ==> s.jobs[c.job].attempts == c.attempts)
    && (c.phase.Saved? ==> Terminal(s.jobs[c.job].status))
  }

  predicate JobsOk(s: System) {
    forall id :: id in s.jobs ==> JobOk(s.jobs[id], s.config.maxAttempts)
  }

  predicate ClaimsOk(s: System) {
    forall w, n :: w in s.running && 0 <= n < |s.running[w]| ==> ClaimOk(s, w, s.running[w][n])
  }

  predicate Inv(s: System) {
    s.config.maxAttempts > 0 && JobsOk(s) && ClaimsOk(s)
  }

  // ---------------------------------------------------------------- one step

  lemma ClaimKeeps(s: System, w: WorkerId, clock: int, ids: seq<Id>)
    requires Inv(s) && Enabled(s, ClaimBatch(w, clock, ids))
    ensures Inv(Next(s, ClaimBatch(w, clock, ids)))
  {
    var next := Next(s, ClaimBatch(w, clock, ids));
    forall v, n | v in next.running && 0 <= n < |next.running[v]| ensures ClaimOk(next, v, next.running[v][n]) {
      if v != w {
        assert ClaimOk(s, v, s.running[v][n]);
      }
    }
  }

  /** Claim `c` was in hand before, unchanged or now saved. */
  predicate WasClaim(s: System, next: System, w: WorkerId, m: nat, c: Claim) {
    && w in s.running && m < |s.running[w]|
    && (c == s.running[w][m]
        || (c == s.running[w][m].(phase := Saved) && c.job in next.jobs && Terminal(next.jobs[c.job].status)))
  }

  ghost predicate HadClaim(s: System, next: System, w: WorkerId, c: Claim) {
    exists m: nat :: WasClaim(s, next, w, m, c)
  }

  ghost predicate WereClaims(s: System, next: System) {
    forall w, n :: w in next.running && 0 <= n < |next.running[w]| ==> HadClaim(s, next, w, next.running[w][n])
  }

  /** A job rewritten without a new lock or attempt. */
  predicate Rewritten(was: Job, job: Job, max: nat) {
    && JobOk(job, max) && job.kind == was.kind && job.attempts == was.attempts
    && (job != was ==> !job.status.Processing?)
    && (Terminal(was.status) ==> Terminal(job.status))
  }

  /** One job is rewritten by a worker that keeps working through its batch. */
  lemma RewriteKeeps(s: System, next: System, id: Id, job: Job)
    requires Inv(s) && next.config == s.config && id in s.jobs && next.jobs == s.jobs[id := job]
    requires Rewritten(s.jobs[id], job, s.config.maxAttempts) && WereClaims(s, next)
    ensures Inv(next)
  {
    forall w, n | w in next.running && 0 <= n < |next.running[w]| ensures ClaimOk(next, w, next.running[w][n]) {
      var m: nat :| WasClaim(s, next, w, m, next.running[w][n]);
      assert ClaimOk(s, w, s.running[w][m]);
    }
  }

  lemma FileCountsAddUp(kind: Kind)
    requires FileOf(kind).Some?
    ensures var counts := FileCounts(FileOf(kind).value);
            counts.successful + counts.failed == counts.processed == counts.total
  {
    var rows := Checks(kind.input.value[1..]);
    RowNumbers(rows, |rows|);
  }

  lemma FinishedImport(job: Job, file: ParsedImport, clock: int, max: nat)
    requires JobOk(job, max) && FileOf(job.kind) == Some(file)
    ensures Rewritten(job, FinishImport(job, file, clock), max)
    ensures Terminal(FinishImport(job, file, clock).status) && MatchesFile(FinishImport(job, file, clock))
  {
    FileCountsAddUp(job.kind);
  }

  lemma ImportKeeps(s: System, w: WorkerId, catalog: Catalog, clock: int)
    requires Inv(s) && Enabled(s, CommitImport(w, catalog, clock))
    ensures Inv(Next(s, CommitImport(w, catalog, clock)))
  {
    var next := Next(s, CommitImport(w, catalog, clock));
    var c := s.running[w][0];
    assert ClaimOk(s, w, c);
    FinishedImport(s.jobs[c.job], FileOf(c.kind).value, clock, s.config.maxAttempts);
    ClaimsAfterSave(s, next, w);
    RewriteKeeps(s, next, c.job, FinishImport(s.jobs[c.job], FileOf(c.kind).value, clock));
  }

  lemma ExportKeeps(s: System, w: WorkerId, rows: nat, clock: int)
    requires Inv(s) && Enabled(s, CommitExport(w, rows, clock))
    ensures Inv(Next(s, CommitExport(w, rows, clock)))
  {
    var next := Next(s, CommitExport(w, rows, clock));
    var c := s.running[w][0];
    assert ClaimOk(s, w, c);
    ClaimsAfterSave(s, next, w);
    RewriteKeeps(s, next, c.job, FinishExport(s.jobs[c.job], rows, clock));
  }

  lemma ClaimsAfterSave(s: System, next: System, w: WorkerId)
    requires Busy(s, w) && next.running == SetPhase(s, w, Saved).running
    requires Head(s, w).job in next.jobs && Terminal(next.jobs[Head(s, w).job].status)
    ensures WereClaims(s, next)
  {
    forall v, n | v in next.running && 0 <= n < |next.running[v]|
      ensures HadClaim(s, next, v, next.running[v][n])
    {
      assert WasClaim(s, next, v, n, next.running[v][n]);
    }
  }

  lemma ClaimsAfterDrop(s: System, next: System, w: WorkerId)
    requires Busy(s, w) && next.running == DropHead(s, w).running
    ensures WereClaims(s, next)
  {
    forall v, n | v in next.running && 0 <= n < |next.running[v]|
      ensures HadClaim(s, next, v, next.running[v][n])
    {
      assert WasClaim(s, next, v, if v == w then n + 1 else n, next.running[v][n]);
    }
  }

  lemma ReportKeeps(s: System, w: WorkerId, permanent: bool, clock: int)
    requires Inv(s) && Enabled(s, Report(w, permanent, clock))
    ensures Inv(Next(s, Report(w, permanent, clock)))
  {
    var next := Next(s, Report(w, permanent, clock));
    var id := Head(s, w).job;
    assert ClaimOk(s, w, s.running[w][0]);
    ClaimsAfterDrop(s, next, w);
    RewriteKeeps(s, next, id, next.jobs[id]);
  }

  lemma QuietKeeps(s: System, step: Step)
    requires Inv(s) && Enabled(s, step)
    requires step.Advance? || step.Create? || step.EditCatalog? || step.NextJob? || step.StopTick?
    ensures Inv(Next(s, step))
  {
    var next := Next(s, step);
    forall v, n | v in next.running && 0 <= n < |next.running[v]| ensures ClaimOk(next, v, next.running[v][n]) {
      var m := if step == NextJob(v) then n + 1 else n;
      assert next.running[v][n] == s.running[v][m];
      assert ClaimOk(s, v, s.running[v][m]);
    }
  }

  lemma StepInv(s: System, step: Step)
    requires Inv(s) && Enabled(s, step)
    ensures Inv(Next(s, step))
  {
    match step
    case ClaimBatch(w, clock, ids) => ClaimKeeps(s, w, clock, ids);
    case CommitImport(w, catalog, clock) => ImportKeeps(s, w, catalog, clock);
    case CommitExport(w, rows, clock) => ExportKeeps(s, w, rows, clock);
    case Report(w, permanent, clock) => ReportKeeps(s, w, permanent, clock);
    case _ => QuietKeeps(s, step);
  }

  lemma {:induction false} RunInv(s: System, steps: seq<Step>)
    requires Inv(s) && RunEnabled(s, steps)
    ensures Inv(Run(s, steps))
    decreases |steps|
  {
    if steps != [] {
      StepInv(s, steps[0]);
      RunInv(Next(s, steps[0]), steps[1..]);
    }
  }

  // ---------------------------------------------------------------- theorems

  /** Reporting a failure changes a job exactly when the job is still locked by that worker, under that very claim. */
  lemma FailureIsFenced(s: System, w: WorkerId, permanent: bool, clock: int)
    requires Inv(s) && Enabled(s, Report(w, permanent, clock))
    ensures Next(s, Report(w, permanent, clock)).jobs != s.jobs <==> HasLock(s.jobs, Head(s, w).job, w)
    ensures HasLock(s.jobs, Head(s, w).job, w) ==> s.jobs[Head(s, w).job].attempts == Head(s, w).attempts
  {
    assert ClaimOk(s, w, s.running[w][0]);
    var id := Head(s, w).job;
    if HasLock(s.jobs, id, w) {
      assert !Next(s, Report(w, permanent, clock)).jobs[id].status.Processing?;
    }
  }

  /** A completed import job: finished as its file says, the text no longer stored. */
  predicate ImportDone(job: Job) {
    job.kind.ImportJob? && MatchesFile(job) && !job.hasInput
  }

  /** Completing a completed import once more rewrites its completion time and nothing else. */
  lemma CommitAgain(s: System, w: WorkerId, catalog: Catalog, clock: int, id: Id)
    requires Inv(s) && Enabled(s, CommitImport(w, catalog, clock)) && id in s.jobs && Terminal(s.jobs[id].status)
    ensures Terminal(Next(s, CommitImport(w, catalog, clock)).jobs[id].status)
    ensures ImportDone(s.jobs[id]) && Head(s, w).job == id ==>
              Next(s, CommitImport(w, catalog, clock)).jobs[id] == s.jobs[id].(completedAt := Some(clock))
  {
    var c := s.running[w][0];
    assert ClaimOk(s, w, c);
    if c.job == id {
      FinishedImport(s.jobs[id], FileOf(c.kind).value, clock, s.config.maxAttempts);
      if ImportDone(s.jobs[id]) {
        assert JobOk(s.jobs[id], s.config.maxAttempts);
      }
    }
  }

  /** What a step may do to a finished job: nothing, or complete it (again), which on a completed import rewrites the
      completion time and nothing else. */
  lemma TerminalStep(s: System, step: Step, id: Id)
    requires Inv(s) && Enabled(s, step) && id in s.jobs && Terminal(s.jobs[id].status)
    ensures id in Next(s, step).jobs && Terminal(Next(s, step).jobs[id].status)
    ensures Next(s, step).jobs[id] != s.jobs[id] ==>
              (step.CommitImport? || step.CommitExport?) && Head(s, step.worker).job == id
    ensures ImportDone(s.jobs[id]) && Next(s, step).jobs[id] != s.jobs[id] ==>
              step.CommitImport? && Next(s, step).jobs[id] == s.jobs[id].(completedAt := Some(step.clock))
  {
    if step.CommitImport? {
      CommitAgain(s, step.worker, step.catalog, step.clock, id);
    } else if step.CommitExport? || step.Report? {
      assert ClaimOk(s, step.worker, s.running[step.worker][0]);
    }
  }

  /** A finished job is never pending or processing again, and a completed import keeps everything but its completion
      time. */
  lemma {:induction false} TerminalForGood(s: System, steps: seq<Step>, id: Id)
    requires Inv(s) && RunEnabled(s, steps) && id in s.jobs && Terminal(s.jobs[id].status)
    ensures id in Run(s, steps).jobs && Terminal(Run(s, steps).jobs[id].status)
    ensures ImportDone(s.jobs[id]) ==>
              Run(s, steps).jobs[id] == s.jobs[id].(completedAt := Run(s, steps).jobs[id].completedAt)
    decreases |steps|
  {
    if steps != [] {
      TerminalStep(s, steps[0], id);
      StepInv(s, steps[0]);
      TerminalForGood(Next(s, steps[0]), steps[1..], id);
    }
  }

  /** In every reachable state: the attempts budget, counts that add up, and finished imports that say what their file
      says or failed without having been completed. */
  lemma JobLaw(now: int, config: Config, catalog: Catalog, steps: seq<Step>)
    requires config.maxAttempts > 0 && RunEnabled(Initial(now, config, catalog), steps)
    ensures Inv(Run(Initial(now, config, catalog), steps))
  {
    RunInv(Initial(now, config, catalog), steps);
  }

  lemma {:induction false} RunSnoc(s: System, steps: seq<Step>, step: Step)
    requires RunEnabled(s, steps) && Enabled(Run(s, steps), step)
    ensures RunEnabled(s, steps + [step]) && Run(s, steps + [step]) == Next(Run(s, steps), step)
    decreases |steps|
  {
    if steps == [] {
      assert Run(Next(s, step), []) == Next(s, step);
    } else {
      assert (steps + [step])[1..] == steps[1..] + [step];
      RunSnoc(Next(s, steps[0]), steps[1..], step);
    }
  }
}
