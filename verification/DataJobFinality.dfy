/** Which finished data jobs are final, given that completion does not look at the lock. */
module DataJobFinality {
  import opened Ledger
  import opened ProductCsv
  import opened ProductImport
  import opened DataJobs
  import opened DataJobSafety

  /** A job of this kind can be completed: an export always, an import when its file can be read. */
  predicate CanCommit(kind: Kind) {
    kind.ExportJob? || FileOf(kind).Some?
  }

  /** Claim number `n` of worker `w` is on job `id` and may still complete it. */
  predicate Completable(s: System, w: WorkerId, n: nat, id: Id) {
    && w in s.running && n < |s.running[w]|
    && s.running[w][n].job == id && s.running[w][n].phase.Working? && CanCommit(s.running[w][n].kind)
  }

  ghost predicate InHand(s: System, id: Id) {
    exists w, n: nat :: Completable(s, w, n, id)
  }

  /** Nobody claims a finished job, so a claim in hand was in hand before. */
  lemma InHandBefore(s: System, step: Step, id: Id)
    requires Inv(s) && Enabled(s, step) && id in s.jobs && Terminal(s.jobs[id].status) && InHand(Next(s, step), id)
    ensures InHand(s, id)
  {
    var w, n: nat :| Completable(Next(s, step), w, n, id);
    var m := if (step.NextJob? || step.Report?) && step.worker == w then n + 1 else n;
    assert Completable(s, w, m, id);
  }

  lemma SettledStep(s: System, step: Step, id: Id)
    requires Inv(s) && Enabled(s, step) && id in s.jobs && Terminal(s.jobs[id].status) && !InHand(s, id)
    ensures id in Next(s, step).jobs && Next(s, step).jobs[id] == s.jobs[id] && !InHand(Next(s, step), id)
  {
    TerminalStep(s, step, id);
    if step.CommitImport? || step.CommitExport? {
      assert !Completable(s, step.worker, 0, id);
    }
    if InHand(Next(s, step), id) {
      InHandBefore(s, step, id);
    }
  }

  predicate Unchanged(s: System, steps: seq<Step>, id: Id)
    requires id in s.jobs && RunEnabled(s, steps)
  {
    id in Run(s, steps).jobs && Run(s, steps).jobs[id] == s.jobs[id]
  }

  lemma {:induction false} SettledForGood(s: System, steps: seq<Step>, id: Id)
    requires Inv(s) && RunEnabled(s, steps) && id in s.jobs && Terminal(s.jobs[id].status) && !InHand(s, id)
    ensures Unchanged(s, steps, id)
    decreases |steps|
  {
    if steps != [] {
      SettledStep(s, steps[0], id);
      StepInv(s, steps[0]);
      SettledForGood(Next(s, steps[0]), steps[1..], id);
    }
  }

  // ---------------------------------------------------------------- a claim in hand can be played out

  /** A worker can always be done with its head job: reported as failed, or passed over when it has been saved. */
  lemma DropFirst(s: System, w: WorkerId, id: Id) returns (step: Step)
    requires Inv(s) && Busy(s, w) && id in s.jobs && Terminal(s.jobs[id].status)
    ensures Enabled(s, step) && Inv(Next(s, step))
    ensures w in Next(s, step).running && Next(s, step).running[w] == s.running[w][1..]
    ensures id in Next(s, step).jobs && Next(s, step).jobs[id] == s.jobs[id]
  {
    var head := Head(s, w);
    step := if head.phase.Saved? then NextJob(w)
            else Report(w, head.kind.ImportJob? && FileOf(head.kind).None?, s.now);
    StepInv(s, step);
    TerminalStep(s, step, id);
  }

  /** Working through its batch, a worker reaches its claim number `n`, and finished jobs stay as they are meanwhile. */
  lemma {:induction false} ReachClaim(s: System, w: WorkerId, n: nat, id: Id) returns (steps: seq<Step>)
    requires Inv(s) && w in s.running && n < |s.running[w]| && id in s.jobs && Terminal(s.jobs[id].status)
    ensures RunEnabled(s, steps) && Inv(Run(s, steps)) && Unchanged(s, steps, id)
    ensures w in Run(s, steps).running && Run(s, steps).running[w] == s.running[w][n..]
    decreases n
  {
    if n == 0 {
      steps := [];
    } else {
      var step := DropFirst(s, w, id);
      var rest := ReachClaim(Next(s, step), w, n - 1, id);
      assert ([step] + rest)[1..] == rest;
      steps := [step] + rest;
    }
  }

  /** The import of a readable file can always be committed: there is a catalog it leads to. */
  lemma CommitEnabled(s: System, w: WorkerId, clock: int) returns (step: Step)
    requires Busy(s, w) && Head(s, w).phase.Working? && Head(s, w).job in s.jobs && FileOf(Head(s, w).kind).Some?
    ensures step.CommitImport? && step.worker == w && step.clock == clock && Enabled(s, step)
  {
    var rows := Checks(Head(s, w).kind.input.value[1..]);
    AcceptedSkus(rows, |rows|);
    var catalog := ImportExists(s.catalog, FileOf(Head(s, w).kind).value.validRows);
    step := CommitImport(w, catalog, clock);
  }

  /** Completing a finished job again, at any later time, changes its completion time, and leaves it with the status of
      its kind. */
  lemma CommitChanges(s: System, w: WorkerId, id: Id) returns (step: Step)
    requires Inv(s) && Completable(s, w, 0, id) && id in s.jobs && Terminal(s.jobs[id].status)
    ensures Enabled(s, step) && id in Next(s, step).jobs && Next(s, step).jobs[id] != s.jobs[id]
    ensures Next(s, step).jobs[id].status == EndOf(s.jobs[id].kind)
  {
    var c := s.running[w][0];
    assert ClaimOk(s, w, c);
    assert JobOk(s.jobs[id], s.config.maxAttempts);
    var later := s.jobs[id].completedAt.value + 1;
    if c.kind.ExportJob? {
      step := CommitExport(w, 0, later);
    } else {
      step := CommitEnabled(s, w, later);
      FinishedImport(s.jobs[id], FileOf(c.kind).value, later, s.config.maxAttempts);
    }
  }

  /** The status a completion gives. */
  function EndOf(kind: Kind): Status
    requires CanCommit(kind)
  {
    if kind.ExportJob? then Succeeded else TerminalStatus(FileOf(kind).value)
  }

  /** A finished job in hand has a run that changes it, into the status of its kind. */
  lemma InHandMoves(s: System, id: Id) returns (steps: seq<Step>)
    requires Inv(s) && id in s.jobs && Terminal(s.jobs[id].status) && InHand(s, id)
    ensures RunEnabled(s, steps) && !Unchanged(s, steps, id)
    ensures CanCommit(s.jobs[id].kind) && id in Run(s, steps).jobs
            && Run(s, steps).jobs[id].status == EndOf(s.jobs[id].kind)
  {
    var w, n: nat :| Completable(s, w, n, id);
    assert ClaimOk(s, w, s.running[w][n]);
    var way := ReachClaim(s, w, n, id);
    var t := Run(s, way);
    assert t.running[w][0] == s.running[w][n];
    var step := CommitChanges(t, w, id);
    RunSnoc(s, way, step);
    steps := way + [step];
  }

  /** A finished job never changes again, whatever happens, exactly when no worker still has a claim on it in hand that
      can complete it. */
  lemma FinalExactly(s: System, id: Id)
    requires Inv(s) && id in s.jobs && Terminal(s.jobs[id].status)
    ensures !InHand(s, id) <==> forall steps :: RunEnabled(s, steps) ==> Unchanged(s, steps, id)
  {
    if !InHand(s, id) {
      forall steps | RunEnabled(s, steps) ensures Unchanged(s, steps, id) {
        SettledForGood(s, steps, id);
      }
    } else {
      var steps := InHandMoves(s, id);
      assert RunEnabled(s, steps) && !Unchanged(s, steps, id);
    }
  }

  // ---------------------------------------------------------------- the status alone

  /** The status of a finished job is final: it is no failure, or nothing can complete the job, or completing it fails
      too. */
  ghost predicate EndSettled(s: System, id: Id)
    requires id in s.jobs
  {
    !s.jobs[id].status.Failed? || !InHand(s, id) || (CanCommit(s.jobs[id].kind) && EndOf(s.jobs[id].kind).Failed?)
  }

  predicate SameEnd(s: System, steps: seq<Step>, id: Id)
    requires id in s.jobs && RunEnabled(s, steps)
  {
    id in Run(s, steps).jobs && Run(s, steps).jobs[id].status == s.jobs[id].status
  }

  /** The one way a finished job gets another row: a completion, with the status of its kind. */
  lemma RewrittenByCommit(s: System, step: Step, id: Id)
    requires Inv(s) && Enabled(s, step) && id in s.jobs && Terminal(s.jobs[id].status)
             && Next(s, step).jobs[id] != s.jobs[id]
    ensures InHand(s, id) && CanCommit(s.jobs[id].kind) && Next(s, step).jobs[id].status == EndOf(s.jobs[id].kind)
  {
    TerminalStep(s, step, id);
    assert ClaimOk(s, step.worker, s.running[step.worker][0]);
    assert Completable(s, step.worker, 0, id);
  }

  lemma EndSettledStep(s: System, step: Step, id: Id)
    requires Inv(s) && Enabled(s, step) && id in s.jobs && Terminal(s.jobs[id].status) && EndSettled(s, id)
    ensures id in Next(s, step).jobs && Next(s, step).jobs[id].status == s.jobs[id].status
            && EndSettled(Next(s, step), id)
  {
    TerminalStep(s, step, id);
    if Next(s, step).jobs[id] != s.jobs[id] {
      RewrittenByCommit(s, step, id);
      assert JobOk(s.jobs[id], s.config.maxAttempts);
    }
    if InHand(Next(s, step), id) {
      InHandBefore(s, step, id);
    }
    assert Next(s, step).jobs[id].kind == s.jobs[id].kind;
  }

  lemma {:induction false} EndSettledForGood(s: System, steps: seq<Step>, id: Id)
    requires Inv(s) && RunEnabled(s, steps) && id in s.jobs && Terminal(s.jobs[id].status) && EndSettled(s, id)
    ensures SameEnd(s, steps, id)
    decreases |steps|
  {
    if steps != [] {
      EndSettledStep(s, steps[0], id);
      StepInv(s, steps[0]);
      EndSettledForGood(Next(s, steps[0]), steps[1..], id);
    }
  }

  /** The status of a finished job never changes again exactly when it is no failure, or nobody has the job in hand to
      complete it, or its completion is a failure as well. */
  lemma EndFinalExactly(s: System, id: Id)
    requires Inv(s) && id in s.jobs && Terminal(s.jobs[id].status)
    ensures EndSettled(s, id) <==> forall steps :: RunEnabled(s, steps) ==> SameEnd(s, steps, id)
  {
    if EndSettled(s, id) {
      forall steps | RunEnabled(s, steps) ensures SameEnd(s, steps, id) {
        EndSettledForGood(s, steps, id);
      }
    } else {
      var steps := InHandMoves(s, id);
      assert RunEnabled(s, steps) && !SameEnd(s, steps, id);
    }
  }

  // ---------------------------------------------------------------- two workers with the same job

  const START := Initial(0, Config(2, 1, 1), Catalog(map[], map[]))

  function NewJob(kind: Kind): Job {
    Job(kind, Pending, NO_COUNTS, 0, 0, None, None, kind.ImportJob?, None)
  }

  /** Worker 1 claims job 0, its lock expires, and worker 2 claims the job for its second and last attempt. */
  function TwoClaims(kind: Kind): seq<Step> {
    [Create(0, kind), ClaimBatch(1, 0, [0]), ClaimBatch(2, 1, [0])]
  }

  function Locked(kind: Kind): Job {
    NewJob(kind).(status := Processing, lockedAt := Some(0))
  }

  function ClaimedOnce(kind: Kind): System {
    START.(jobs := map[0 := Locked(kind).(attempts := 1, lockedBy := Some(1))],
           running := map[1 := [Claim(0, 1, kind, Working)]])
  }

  function ClaimedTwice(kind: Kind): System {
    START.(jobs := map[0 := Locked(kind).(attempts := 2, lockedBy := Some(2))],
           running := map[1 := [Claim(0, 1, kind, Working)], 2 := [Claim(0, 2, kind, Working)]])
  }

  lemma FirstClaim(kind: Kind)
    ensures RunEnabled(START, TwoClaims(kind)[..2]) && Run(START, TwoClaims(kind)[..2]) == ClaimedOnce(kind)
  {
    var s := START.(jobs := map[0 := NewJob(kind)]);
    var claim := ClaimBatch(1, 0, [0]);
    assert Next(s, claim).jobs == ClaimedOnce(kind).jobs;
    assert ClaimsFor(s.jobs, [0]) == [Claim(0, 1, kind, Working)];
    assert Next(s, claim) == ClaimedOnce(kind);
    assert TwoClaims(kind)[..2] == [] + [TwoClaims(kind)[0]] + [claim];
    RunSnoc(START, [], TwoClaims(kind)[0]);
    RunSnoc(START, [] + [TwoClaims(kind)[0]], claim);
  }

  lemma TwoClaimsRun(kind: Kind)
    ensures RunEnabled(START, TwoClaims(kind)) && Run(START, TwoClaims(kind)) == ClaimedTwice(kind)
  {
    var s := ClaimedOnce(kind);
    var claim := ClaimBatch(2, 1, [0]);
    FirstClaim(kind);
    assert Next(s, claim).jobs == ClaimedTwice(kind).jobs;
    assert ClaimsFor(s.jobs, [0]) == [Claim(0, 2, kind, Working)];
    assert Next(s, claim) == ClaimedTwice(kind);
    assert TwoClaims(kind) == TwoClaims(kind)[..2] + [claim];
    RunSnoc(START, TwoClaims(kind)[..2], claim);
  }

  const FAILING := TwoClaims(ExportJob) + [Report(2, false, 0)]

  /** What the second worker's passing error leaves behind. */
  lemma LastFailure(s: System)
    requires s == ClaimedTwice(ExportJob)
    ensures Enabled(s, Report(2, false, 0))
    ensures var next := Next(s, Report(2, false, 0));
            && next.jobs == map[0 := NewJob(ExportJob).(status := Failed, attempts := 2, completedAt := Some(0))]
            && 1 in next.running && next.running[1] == [Claim(0, 1, ExportJob, Working)]
  {
    var next := Next(s, Report(2, false, 0));
    assert Head(s, 2).attempts == s.config.maxAttempts;
    assert next.running[1] == s.running[1];
  }

  lemma LateExport(s: System, job: Job)
    requires s.jobs == map[0 := job] && 1 in s.running && s.running[1] == [Claim(0, 1, ExportJob, Working)]
    ensures Enabled(s, CommitExport(1, 5, 1))
    ensures Next(s, CommitExport(1, 5, 1)).jobs == map[0 := FinishExport(job, 5, 1)]
  {
  }

  /** A failure that does not last: the second worker's attempt meets a passing error, the job fails for good, and then
      succeeds through the first worker, which had lost the lock. */
  lemma LateSuccess()
    ensures RunEnabled(START, FAILING) && RunEnabled(START, FAILING + [CommitExport(1, 5, 1)])
    ensures Run(START, FAILING).jobs
            == map[0 := NewJob(ExportJob).(status := Failed, attempts := 2, completedAt := Some(0))]
    ensures Run(START, FAILING + [CommitExport(1, 5, 1)]).jobs
            == map[0 := NewJob(ExportJob).(
                          status := Succeeded, attempts := 2, completedAt := Some(1), counts := Counts(5, 5, 5, 0))]
  {
    var fail := Report(2, false, 0);
    TwoClaimsRun(ExportJob);
    LastFailure(ClaimedTwice(ExportJob));
    RunSnoc(START, TwoClaims(ExportJob), fail);
    var failed := Run(START, FAILING);
    LateExport(failed, failed.jobs[0]);
    RunSnoc(START, FAILING, CommitExport(1, 5, 1));
  }

  /** What completing an import leaves of jobs, audits and the batches of other workers. */
  lemma CommittedImport(s: System, w: WorkerId, id: Id, file: ParsedImport, catalog: Catalog, clock: int)
    requires Enabled(s, CommitImport(w, catalog, clock))
    requires Head(s, w).job == id && FileOf(Head(s, w).kind) == Some(file)
    ensures var next := Next(s, CommitImport(w, catalog, clock));
            && next.jobs == s.jobs[id := FinishImport(s.jobs[id], file, clock)]
            && next.audits == s.audits + [(id, Completed)]
            && forall v :: v != w && v in s.running ==> v in next.running && next.running[v] == s.running[v]
  {
  }

  lemma OneJob(jobs: map<Id, Job>, was: Job, job: Job)
    requires jobs == map[0 := was]
    ensures jobs[0 := job] == map[0 := job]
  {
  }

  lemma CompletedBySecond(kind: Kind, step: Step)
    requires FileOf(kind).Some? && step.CommitImport? && step.worker == 2 && Enabled(ClaimedTwice(kind), step)
    ensures var next := Next(ClaimedTwice(kind), step);
            && next.jobs == map[0 := FinishImport(ClaimedTwice(kind).jobs[0], FileOf(kind).value, step.clock)]
            && next.audits == [(0, Completed)]
            && 1 in next.running && next.running[1] == [Claim(0, 1, kind, Working)]
  {
    var s := ClaimedTwice(kind);
    CommittedImport(s, 2, 0, FileOf(kind).value, step.catalog, step.clock);
    OneJob(s.jobs, s.jobs[0], FinishImport(s.jobs[0], FileOf(kind).value, step.clock));
  }

  lemma CompletedByFirst(s: System, job: Job, kind: Kind, step: Step)
    requires s.jobs == map[0 := job] && 1 in s.running && s.running[1] == [Claim(0, 1, kind, Working)]
    requires FileOf(kind).Some? && step.CommitImport? && step.worker == 1 && Enabled(s, step)
    ensures Next(s, step).jobs == map[0 := FinishImport(job, FileOf(kind).value, step.clock)]
    ensures Next(s, step).audits == s.audits + [(0, Completed)]
  {
    CommittedImport(s, 1, 0, FileOf(kind).value, step.catalog, step.clock);
    OneJob(s.jobs, job, FinishImport(job, FileOf(kind).value, step.clock));
  }

  /** Whatever readable file it is for, an import can be completed twice, with two audit rows and the later time. */
  lemma CompletedTwice(kind: Kind) returns (steps: seq<Step>, late: Step)
    requires kind.ImportJob? && FileOf(kind).Some?
    ensures RunEnabled(START, steps) && 0 in Run(START, steps).jobs && ImportDone(Run(START, steps).jobs[0])
    ensures Run(START, steps).jobs[0].completedAt == Some(0) && Run(START, steps).audits == [(0, Completed)]
    ensures RunEnabled(START, steps + [late])
    ensures Run(START, steps + [late]).jobs == map[0 := Run(START, steps).jobs[0].(completedAt := Some(1))]
    ensures Run(START, steps + [late]).audits == [(0, Completed), (0, Completed)]
  {
    var s := ClaimedTwice(kind);
    var first := CommitEnabled(s, 2, 0);
    TwoClaimsRun(kind);
    steps := TwoClaims(kind) + [first];
    RunSnoc(START, TwoClaims(kind), first);
    var t := Run(START, steps);
    CompletedBySecond(kind, first);
    late := CommitEnabled(t, 1, 1);
    CompletedByFirst(t, t.jobs[0], kind, late);
    RunSnoc(START, steps, late);
  }
}
