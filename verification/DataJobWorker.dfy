/** The data-job worker: `tick`, `claimBatch`, `processJob`, the import transaction and `handleFailure`, with everybody
    else running in between. */
module DataJobWorker {
  import opened Ledger
  import opened ProductCsv
  import opened ProductImport
  import opened DataJobs
  import opened DataJobSafety

  datatype Fault = NoFault | BeforeCommit | CommitAnswerLost

  datatype ReportFault = ReportFine | ReportFails | ReportAnswerLost

  datatype ClaimFault = ClaimFine | ClaimFails | ClaimAnswerLost

  /** The surroundings while one job is processed: what goes wrong, the worker's clock at completion and at a failure
      report, and in `others` what everybody else does before the transaction and before the report. */
  datatype Weather = Weather(fault: Fault, report: ReportFault, doneAt: int, clock: int, exported: nat,
                             others: seq<seq<Step>>)

  const CALM := Weather(NoFault, ReportFine, 0, 0, 0, [])

  /** Nobody else moves. */
  predicate Undisturbed(weather: Weather) {
    forall n :: 0 <= n < |weather.others| ==> weather.others[n] == []
  }

  /** Nothing goes wrong and nobody else moves. */
  predicate Calm(weather: Weather) {
    weather.fault.NoFault? && weather.report.ReportFine? && Undisturbed(weather)
  }

  /** What stands in the way of completing a job: an error that is permanent or passing, or nothing. */
  function Trouble(kind: Kind, weather: Weather): Option<bool> {
    if kind.ImportJob? then
      if FileOf(kind).None? then Some(true) else if weather.fault.BeforeCommit? then Some(false) else None
    else
      if weather.fault.BeforeCommit? then Some(false) else if weather.exported > 10_000 then Some(true) else None
  }

  /** The row of a completed job. */
  function Finished(job: Job, weather: Weather): Job
    requires Trouble(job.kind, weather).None?
  {
    if job.kind.ImportJob? then FinishImport(job, FileOf(job.kind).value, weather.doneAt)
    else FinishExport(job, weather.exported, weather.doneAt)
  }

  function StepsAt(weather: Weather, n: nat): seq<Step> {
    if n < |weather.others| then weather.others[n] else []
  }

  predicate By(step: Step, w: WorkerId) {
    match step
    case Advance(_) => false
    case Create(_, _) => false
    case EditCatalog(_) => false
    case _ => step.worker == w
  }

  ghost predicate NoNewLocks(before: System, after: System, w: WorkerId) {
    forall id :: HasLock(after.jobs, id, w) ==> HasLock(before.jobs, id, w)
  }

  lemma StepNoNewLocks(s: System, step: Step, w: WorkerId)
    requires Enabled(s, step) && !(step.ClaimBatch? && step.worker == w)
    ensures NoNewLocks(s, Next(s, step), w)
  {
    match step
    case ClaimBatch(v, clock, ids) =>
    case CommitImport(v, catalog, clock) =>
    case Report(v, permanent, clock) =>
    case _ =>
  }

  /** What the subquery of the claim finds: due or expired jobs nobody has locked, oldest first. */
  function Due(s: System, order: seq<Id>, busy: set<Id>, staleBefore: int): (ids: seq<Id>)
    ensures forall id :: id in ids <==>
              id in order && id in s.jobs && id !in busy
                  && Claimable(s.jobs[id], s.now, staleBefore, s.config.maxAttempts)
    ensures Distinct(order) ==> Distinct(ids)
  {
    if order == [] then []
    else
      var front, last := order[..|order| - 1], order[|order| - 1];
      var rest := Due(s, front, busy, staleBefore);
      assert order == front + [last];
      if last in s.jobs && last !in busy && Claimable(s.jobs[last], s.now, staleBefore, s.config.maxAttempts)
      then rest + [last] else rest
  }

  lemma {:induction false} DueExtends(s: System, order: seq<Id>, n: nat, busy: set<Id>, staleBefore: int)
    requires n <= |order|
    ensures Due(s, order[..n], busy, staleBefore) <= Due(s, order, busy, staleBefore)
    decreases |order| - n
  {
    if n < |order| {
      assert order[..n + 1][..n] == order[..n];
      DueExtends(s, order, n + 1, busy, staleBefore);
    } else {
      assert order[..n] == order;
    }
  }

  function Limited(ids: seq<Id>, limit: nat): seq<Id> {
    if |ids| <= limit then ids else ids[..limit]
  }

  /** The database the workers share; `trace` records the steps of the protocol taken since it was empty. */
  class Database {
    const clock: int
    const config: Config
    const catalog: Catalog
    var state: System
    ghost var trace: seq<Step>

    /** The state is reachable. */
    ghost predicate Valid()
      reads this
    {
      && config.maxAttempts > 0
      && RunEnabled(Initial(clock, config, catalog), trace) && Run(Initial(clock, config, catalog), trace) == state
    }

    constructor (now: int, config: Config, catalog: Catalog)
      requires config.maxAttempts > 0
      ensures Valid() && state == Initial(now, config, catalog)
    {
      this.clock, this.config, this.catalog := now, config, catalog;
      state, trace := Initial(now, config, catalog), [];
    }

    ghost method Record(step: Step, before: System)
      requires config.maxAttempts > 0
      requires RunEnabled(Initial(clock, config, catalog), trace)
               && Run(Initial(clock, config, catalog), trace) == before
      requires Enabled(before, step) && state == Next(before, step)
      modifies this`trace
      ensures Valid() && trace == old(trace) + [step]
    {
      RunSnoc(Initial(clock, config, catalog), trace, step);
      trace := trace + [step];
    }

    lemma HeadOk(w: WorkerId)
      requires Valid() && Busy(state, w)
      ensures ClaimOk(state, w, Head(state, w))
    {
      RunInv(Initial(clock, config, catalog), trace);
      assert ClaimOk(state, w, state.running[w][0]);
    }

    /** The import transaction: parse first, then one transaction writes categories, products, row errors and the
        job. */
    method ProcessImport(w: WorkerId, clock: int) returns (permanentError: bool)
      requires Valid() && Busy(state, w) && Head(state, w).phase.Working? && Head(state, w).kind.ImportJob?
      modifies this
      ensures Valid() && permanentError == FileOf(old(Head(state, w)).kind).None?
      ensures permanentError ==> state == old(state) && trace == old(trace)
      ensures !permanentError ==>
                exists catalog ::
                  && Enabled(old(state), CommitImport(w, catalog, clock))
                  && state == Next(old(state), CommitImport(w, catalog, clock))
    {
      HeadOk(w);
      ghost var before := state;
      var c := Head(state, w);
      if c.kind.input.None? {
        return true;
      }
      var parsed := ParseProductImport(c.kind.input.value);
      if parsed.Refused? {
        return true;
      }
      var file := parsed.file;
      var terminalStatus :=
        if |file.validRows| == 0 then Failed else if |file.errors| > 0 then PartiallySucceeded else Succeeded;
      var rows := Checks(c.kind.input.value[1..]);
      AcceptedSkus(rows, |rows|);
      var tables := new Tables(state.catalog);
      tables.ImportRows(file.validRows);
      var job := state.jobs[c.job].(
        status := terminalStatus, hasInput := false, lockedAt := None, lockedBy := None, completedAt := Some(clock),
        counts := Counts(file.totalRows, file.totalRows, |file.validRows|, |file.errors|));
      state := state.(
        running := state.running[w := [c.(phase := Saved)] + state.running[w][1..]],
        catalog := tables.catalog, jobs := state.jobs[c.job := job],
        rowErrors := state.rowErrors[c.job := file.errors], audits := state.audits + [(c.job, Completed)]);
      Record(CommitImport(w, tables.catalog, clock), before);
      return false;
    }

    method Do(step: Step)
      requires Valid() && Enabled(state, step)
      modifies this
      ensures Valid() && state == Next(old(state), step)
      ensures !step.ClaimBatch? ==> forall w :: NoNewLocks(old(state), state, w)
    {
      ghost var before := state;
      if !step.ClaimBatch? {
        forall w ensures NoNewLocks(before, Next(before, step), w) {
          StepNoNewLocks(before, step, w);
        }
      }
      state := Next(state, step);
      Record(step, before);
    }

    /** The others take those of the given steps that are theirs to take. */
    method Others(w: WorkerId, steps: seq<Step>)
      requires Valid() && w in state.running
      modifies this
      ensures Valid() && NoNewLocks(old(state), state, w)
      ensures w in state.running && state.running[w] == old(state).running[w]
      ensures steps == [] ==> state == old(state)
    {
      for n := 0 to |steps|
        invariant n == 0 ==> state == old(state)
        invariant Valid() && NoNewLocks(old(state), state, w)
        invariant w in state.running && state.running[w] == old(state).running[w]
      {
        if !By(steps[n], w) && Enabled(state, steps[n]) {
          StepNoNewLocks(state, steps[n], w);
          Do(steps[n]);
        }
      }
    }

    /** The head of the batch has been saved, or failed in the given way; nothing else in the batch has moved. */
    ghost predicate Handled(before: System, w: WorkerId, threw: bool, permanent: bool)
      requires Busy(before, w)
      reads this
    {
      && Busy(state, w) && state.running[w][1..] == before.running[w][1..]
      && (if threw then Head(state, w).job == Head(before, w).job && MayThrow(Head(state, w), permanent)
          else Head(state, w) == Head(before, w).(phase := Saved))
    }

    /** The job has ended, and no other job has changed. */
    ghost predicate JobEnded(before: System, id: Id)
      reads this
    {
      && id in state.jobs && Terminal(state.jobs[id].status)
      && state.jobs.Keys == before.jobs.Keys
      && forall j :: j in before.jobs && j != id ==> state.jobs[j] == before.jobs[j]
    }

    /** Undisturbed, the processor fails without effect, or completes the job, even if it then does not hear of it. */
    ghost predicate Outcome(before: System, w: WorkerId, weather: Weather, threw: bool, permanent: bool)
      requires Busy(before, w)
      reads this
    {
      var c := Head(before, w);
      if Trouble(c.kind, weather).Some?
      then threw && permanent == Trouble(c.kind, weather).value && state == before
      else
        && c.job in before.jobs && before.jobs[c.job].kind == c.kind
        && state.jobs == before.jobs[c.job := Finished(before.jobs[c.job], weather)]
        && state.audits == before.audits + [(c.job, Completed)]
        && (threw <==> weather.fault.CommitAnswerLost?)
    }

    /** The processor: by kind of job. */
    method Process(w: WorkerId, weather: Weather) returns (threw: bool, permanent: bool)
      requires Valid() && Busy(state, w) && Head(state, w).phase.Working?
      modifies this
      ensures Valid() && NoNewLocks(old(state), state, w)
      ensures Handled(old(state), w, threw, permanent)
      ensures Undisturbed(weather) ==> Outcome(old(state), w, weather, threw, permanent)
    {
      HeadOk(w);
      Others(w, StepsAt(weather, 0));
      if Head(state, w).kind.ImportJob? {
        threw, permanent := RunImport(w, weather.fault, weather.doneAt);
      } else {
        threw, permanent := RunExport(w, weather.fault, weather.exported, weather.doneAt);
      }
    }

    method RunImport(w: WorkerId, fault: Fault, clock: int) returns (threw: bool, permanent: bool)
      requires Valid() && Busy(state, w) && Head(state, w).phase.Working? && Head(state, w).kind.ImportJob?
      modifies this
      ensures Valid() && NoNewLocks(old(state), state, w)
      ensures Handled(old(state), w, threw, permanent)
      ensures permanent <==> FileOf(old(Head(state, w)).kind).None?
      ensures fault.BeforeCommit? || permanent ==> threw && state == old(state)
      ensures !fault.BeforeCommit? && !permanent ==>
                && (exists catalog ::
                      && Enabled(old(state), CommitImport(w, catalog, clock))
                      && state == Next(old(state), CommitImport(w, catalog, clock)))
                && (threw <==> fault.CommitAnswerLost?)
    {
      if fault.BeforeCommit? && FileOf(Head(state, w).kind).Some? {
        return true, false;
      }
      ghost var before := state;
      permanent := ProcessImport(w, clock);
      if permanent {
        return true, true;
      }
      ghost var catalog :| Enabled(before, CommitImport(w, catalog, clock))
                           && state == Next(before, CommitImport(w, catalog, clock));
      StepNoNewLocks(before, CommitImport(w, catalog, clock), w);
      return fault.CommitAnswerLost?, false;
    }

    /** More products than the limit is a permanent error. */
    method RunExport(w: WorkerId, fault: Fault, products: nat, clock: int) returns (threw: bool, permanent: bool)
      requires Valid() && Busy(state, w) && Head(state, w).phase.Working? && Head(state, w).kind.ExportJob?
      modifies this
      ensures Valid() && NoNewLocks(old(state), state, w)
      ensures Handled(old(state), w, threw, permanent)
      ensures permanent <==> !fault.BeforeCommit? && products > 10_000
      ensures fault.BeforeCommit? || permanent ==> threw && state == old(state)
      ensures !fault.BeforeCommit? && !permanent ==>
                && Enabled(old(state), CommitExport(w, products, clock))
                && state == Next(old(state), CommitExport(w, products, clock))
                && (threw <==> fault.CommitAnswerLost?)
    {
      if fault.BeforeCommit? {
        return true, false;
      }
      if products > MAX_PRODUCT_EXPORT_ROWS {
        return true, true;
      }
      HeadOk(w);
      Do(CommitExport(w, products, clock));
      return fault.CommitAnswerLost?, false;
    }

    /** Undisturbed, a job is completed, or the failure report says what it says, at the worker's clock. */
    ghost predicate JobDone(before: System, w: WorkerId, weather: Weather)
      requires Busy(before, w)
      reads this
    {
      var c := Head(before, w);
      if Trouble(c.kind, weather).Some? then
        var reported := ReportFailure(before, w, Trouble(c.kind, weather).value, weather.clock);
        state.jobs == reported.jobs && state.audits == reported.audits
      else
        && c.job in before.jobs && before.jobs[c.job].kind == c.kind
        && state.jobs == before.jobs[c.job := Finished(before.jobs[c.job], weather)]
        && state.audits == before.audits + [(c.job, Completed)]
    }

    method ProcessJob(w: WorkerId, weather: Weather) returns (aborted: bool)
      requires Valid() && Busy(state, w) && Head(state, w).phase.Working?
      modifies this
      ensures Valid() && NoNewLocks(old(state), state, w)
      ensures aborted ==> w !in state.running
      ensures weather.report.ReportFine? ==> !aborted
      ensures !aborted ==>
                && w in state.running && state.running[w] == old(state).running[w][1..]
                && !HasLock(state.jobs, old(Head(state, w)).job, w)
      ensures Undisturbed(weather) && !weather.report.ReportFails? ==> JobDone(old(state), w, weather)
      ensures Calm(weather) && HasLock(old(state).jobs, old(Head(state, w)).job, w) ==>
                JobEnded(old(state), old(Head(state, w)).job)
    {
      HeadOk(w);
      var threw, permanent := Process(w, weather);
      if !threw {
        HeadOk(w);
        Do(NextJob(w));
        return false;
      }
      Others(w, StepsAt(weather, 1));
      if weather.report.ReportFails? {
        Do(StopTick(w));
        return true;
      }
      Do(Report(w, permanent, weather.clock));
      if weather.report.ReportAnswerLost? {
        Do(StopTick(w));
        return true;
      }
      return false;
    }

    method Candidates(order: seq<Id>, busy: set<Id>, staleBefore: int) returns (ids: seq<Id>)
      requires Distinct(order)
      ensures ids == Limited(Due(state, order, busy, staleBefore), state.config.batchSize)
    {
      ids := [];
      var n := 0;
      while n < |order| && |ids| < state.config.batchSize
        invariant n <= |order| && ids == Due(state, order[..n], busy, staleBefore) && |ids| <= state.config.batchSize
      {
        assert order[..n + 1][..n] == order[..n];
        if order[n] in state.jobs && order[n] !in busy
           && Claimable(state.jobs[order[n]], state.now, staleBefore, state.config.maxAttempts) {
          ids := ids + [order[n]];
        }
        n := n + 1;
      }
      assert order[..|order|] == order;
      DueExtends(state, order, n, busy, staleBefore);
    }

    /** `claimBatch`: the oldest candidates become the worker's batch. */
    method ClaimOldest(w: WorkerId, order: seq<Id>, busy: set<Id>, clock: int) returns (batch: seq<Id>)
      requires Valid() && w !in state.running && Distinct(order)
      modifies this
      ensures Valid() && w in state.running && |state.running[w]| == |batch|
      ensures batch == Limited(Due(old(state), order, busy, clock - old(state).config.lockTimeout),
              old(state).config.batchSize)
      ensures Distinct(batch)
      ensures forall n :: 0 <= n < |batch| ==>
                && state.running[w][n].job == batch[n] && state.running[w][n].phase.Working?
                && HasLock(state.jobs, batch[n], w)
    {
      batch := Candidates(order, busy, clock - state.config.lockTimeout);
      Do(ClaimBatch(w, clock, batch));
    }

    /** `tick`: `order` lists the jobs by age, `busy` those whose rows another statement has locked. Unless an error
        cuts it short, a tick ends with none of its jobs locked; and if nothing goes wrong and nobody interferes, each
        of its jobs has ended. */
    method Tick(w: WorkerId, order: seq<Id>, busy: set<Id>, clock: int, fault: ClaimFault, weathers: seq<Weather>)
      returns (claimed: seq<Id>, aborted: bool)
      requires Valid() && Distinct(order)
      modifies this
      ensures Valid()
      ensures w in old(state).running ==> state == old(state) && claimed == []
      ensures w !in old(state).running ==> w !in state.running
      ensures w !in old(state).running && !fault.ClaimFails? ==>
                claimed == Limited(Due(old(state), order, busy, clock - old(state).config.lockTimeout),
                    old(state).config.batchSize)
      ensures !aborted ==> forall id :: id in claimed ==> !HasLock(state.jobs, id, w)
      ensures w !in old(state).running && fault.ClaimFine?
              && (forall weather :: weather in weathers ==> Calm(weather)) ==>
                !aborted && forall id :: id in claimed ==> id in state.jobs && Terminal(state.jobs[id].status)
    {
      claimed, aborted := [], false;
      if w in state.running {
        return;
      }
      if fault.ClaimFails? {
        return [], true;
      }
      claimed := ClaimOldest(w, order, busy, clock);
      if fault.ClaimAnswerLost? {
        Do(StopTick(w));
        return claimed, true;
      }
      aborted := ProcessBatch(w, claimed, weathers);
      if !aborted {
        Do(StopTick(w));
      }
    }

    /** The loop over the batch. */
    method ProcessBatch(w: WorkerId, batch: seq<Id>, weathers: seq<Weather>) returns (aborted: bool)
      requires Valid() && w in state.running && |state.running[w]| == |batch| && Distinct(batch)
      requires forall n :: 0 <= n < |batch| ==>
                 && state.running[w][n].job == batch[n] && state.running[w][n].phase.Working?
                 && HasLock(state.jobs, batch[n], w)
      modifies this
      ensures Valid()
      ensures aborted ==> w !in state.running
      ensures !aborted ==> w in state.running && forall id :: id in batch ==> !HasLock(state.jobs, id, w)
      ensures (forall weather :: weather in weathers ==> Calm(weather)) ==>
                !aborted && forall id :: id in batch ==> id in state.jobs && Terminal(state.jobs[id].status)
    {
      ghost var calm := forall weather :: weather in weathers ==> Calm(weather);
      ghost var queue := state.running[w];
      for n := 0 to |batch|
        invariant Valid() && w in state.running && state.running[w] == queue[n..]
        invariant forall m :: 0 <= m < n ==> !HasLock(state.jobs, batch[m], w)
        invariant calm ==> forall m :: 0 <= m < n ==> batch[m] in state.jobs && Terminal(state.jobs[batch[m]].status)
        invariant calm ==> forall m :: n <= m < |batch| ==> HasLock(state.jobs, batch[m], w)
      {
        aborted := ProcessJob(w, if n < |weathers| then weathers[n] else CALM);
        if aborted {
          return;
        }
      }
      return false;
    }
  }
}
