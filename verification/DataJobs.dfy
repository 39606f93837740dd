/** Data jobs and their workers: claimed under a lock, failed behind the lock, but completed by id alone. */
module DataJobs {
  import opened Ledger
  import opened ProductCsv
  import opened ProductImport

  type WorkerId = nat

  const MAX_PRODUCT_EXPORT_ROWS := 10_000

  datatype Status = Pending | Processing | Succeeded | PartiallySucceeded | Failed

  /** An import carries its split records, or nothing when there is no text or the tokenizer refuses it. */
  datatype Kind = ImportJob(input: Option<seq<seq<Text>>>) | ExportJob

  datatype Counts = Counts(total: nat, processed: nat, successful: nat, failed: nat)

  const NO_COUNTS := Counts(0, 0, 0, 0)

  /** `hasInput` says whether the text is still stored; `kind` remembers it either way. */
  datatype Job = Job(kind: Kind, status: Status, counts: Counts, attempts: nat, availableAt: int, lockedAt: Option<int>,
                     lockedBy: Option<WorkerId>, hasInput: bool, completedAt: Option<int>)

  datatype Phase = Working | Saved

  /** A claimed job in a worker's hands, with the kind the claim returned. */
  datatype Claim = Claim(job: Id, attempts: nat, kind: Kind, phase: Phase)

  datatype Config = Config(maxAttempts: nat, lockTimeout: nat, batchSize: nat)

  datatype AuditKind = Completed | GaveUp

  /** `running` holds the batches of the ticks in progress: a worker has at most one. */
  datatype System = System(now: int, config: Config, jobs: map<Id, Job>, running: map<WorkerId, seq<Claim>>,
                           catalog: Catalog, rowErrors: map<Id, seq<RowError>>, audits: seq<(Id, AuditKind)>)

  predicate Terminal(status: Status) {
    status.Succeeded? || status.PartiallySucceeded? || status.Failed?
  }

  /** What parsing makes of an import; `None` is a permanent error. */
  function FileOf(kind: Kind): Option<ParsedImport> {
    if kind.ImportJob? && kind.input.Some? && Parse(kind.input.value).Read?
    then Some(Parse(kind.input.value).file)
    else None
  }

  function TerminalStatus(file: ParsedImport): Status {
    if |file.validRows| == 0 then Failed else if |file.errors| > 0 then PartiallySucceeded else Succeeded
  }

  function FileCounts(file: ParsedImport): Counts {
    Counts(file.totalRows, file.totalRows, |file.validRows|, |file.errors|)
  }

  // ---------------------------------------------------------------- statements

  predicate Claimable(job: Job, now: int, staleBefore: int, maxAttempts: nat) {
    && ((job.status.Pending? && job.availableAt <= now)
        || (job.status.Processing? && job.lockedAt.Some? && job.lockedAt.value <= staleBefore))
    && job.attempts < maxAttempts
  }

  function ClaimJobs(jobs: map<Id, Job>, ids: seq<Id>, w: WorkerId, now: int): map<Id, Job> {
    map id | id in jobs ::
      if id in ids
      then jobs[id].(
             status := Processing, attempts := jobs[id].attempts + 1, lockedAt := Some(now), lockedBy := Some(w))
      else jobs[id]
  }

  function ClaimsFor(jobs: map<Id, Job>, ids: seq<Id>): (claims: seq<Claim>)
    requires forall n :: 0 <= n < |ids| ==> ids[n] in jobs
    ensures |claims| == |ids|
    ensures forall n :: 0 <= n < |ids| ==>
              claims[n] == Claim(ids[n], jobs[ids[n]].attempts + 1, jobs[ids[n]].kind, Working)
  {
    seq(|ids|, n requires 0 <= n < |ids| => Claim(ids[n], jobs[ids[n]].attempts + 1, jobs[ids[n]].kind, Working))
  }

  predicate HasLock(jobs: map<Id, Job>, id: Id, w: WorkerId) {
    id in jobs && jobs[id].status.Processing? && jobs[id].lockedBy == Some(w)
  }

  /** The closing update of an import: by id, whatever the job's status or owner. */
  function FinishImport(job: Job, file: ParsedImport, clock: int): Job {
    job.(status := TerminalStatus(file), counts := FileCounts(file), lockedAt := None, lockedBy := None,
        hasInput := false, completedAt := Some(clock))
  }

  function FinishExport(job: Job, rows: nat, clock: int): Job {
    job.(status := Succeeded, counts := Counts(rows, rows, rows, 0), lockedAt := None, lockedBy := None,
        completedAt := Some(clock))
  }

  function Backoff(attempts: nat): nat {
    if attempts <= 1 then 1_000 else if attempts >= 7 then 60_000 else 2 * Backoff(attempts - 1)
  }

  /** handleFailure, behind the fence. */
  function FailJob(job: Job, c: Claim, permanent: bool, clock: int, maxAttempts: nat): Job {
    if permanent || c.attempts >= maxAttempts
    then job.(status := Failed, availableAt := clock, lockedAt := None, lockedBy := None, hasInput := false,
             completedAt := Some(clock))
    else job.(status := Pending, availableAt := clock + Backoff(c.attempts), lockedAt := None, lockedBy := None,
             completedAt := None)
  }

  // ---------------------------------------------------------------- steps

  datatype Step =
    | Advance(to: int)
    | Create(id: Id, kind: Kind)
    | EditCatalog(catalog: Catalog)
    | ClaimBatch(worker: WorkerId, clock: int, ids: seq<Id>)
    | CommitImport(worker: WorkerId, catalog: Catalog, clock: int)
    | CommitExport(worker: WorkerId, rows: nat, clock: int)
    | Report(worker: WorkerId, permanent: bool, clock: int)
    | NextJob(worker: WorkerId)
    | StopTick(worker: WorkerId)

  predicate Distinct(ids: seq<Id>) {
    forall i, j :: 0 <= i < j < |ids| ==> ids[i] != ids[j]
  }

  predicate Busy(s: System, w: WorkerId) {
    w in s.running && s.running[w] != []
  }

  function Head(s: System, w: WorkerId): Claim
    requires Busy(s, w)
  {
    s.running[w][0]
  }

  /** A parsing error is permanent and comes before anything else can fail; after it, an import only fails
      transiently. */
  predicate MayThrow(c: Claim, permanent: bool) {
    match c.phase
    case Saved => !permanent
    case Working => c.kind.ExportJob? || (permanent <==> FileOf(c.kind).None?)
  }

  predicate Enabled(s: System, step: Step) {
    match step
    case Advance(to) => s.now <= to
    case Create(id, _) => id !in s.jobs
    case EditCatalog(_) => true
    case ClaimBatch(w, clock, ids) =>
      && w !in s.running && Distinct(ids) && |ids| <= s.config.batchSize
      && (forall n :: 0 <= n < |ids| ==>
            ids[n] in s.jobs && Claimable(s.jobs[ids[n]], s.now, clock - s.config.lockTimeout, s.config.maxAttempts))
    case CommitImport(w, catalog, _) =>
      && Busy(s, w) && Head(s, w).phase.Working? && Head(s, w).job in s.jobs && FileOf(Head(s, w).kind).Some?
      && Imported(s.catalog, FileOf(Head(s, w).kind).value.validRows, catalog)
    case CommitExport(w, rows, _) =>
      && Busy(s, w) && Head(s, w).phase.Working? && Head(s, w).job in s.jobs && Head(s, w).kind.ExportJob?
      && rows <= MAX_PRODUCT_EXPORT_ROWS
    case Report(w, permanent, _) => Busy(s, w) && MayThrow(Head(s, w), permanent)
    case NextJob(w) => Busy(s, w) && Head(s, w).phase.Saved?
    case StopTick(w) => w in s.running
  }

  function SetPhase(s: System, w: WorkerId, phase: Phase): System
    requires Busy(s, w)
  {
    s.(running := s.running[w := [s.running[w][0].(phase := phase)] + s.running[w][1..]])
  }

  function DropHead(s: System, w: WorkerId): System
    requires Busy(s, w)
  {
    s.(running := s.running[w := s.running[w][1..]])
  }

  function ReportFailure(s: System, w: WorkerId, permanent: bool, clock: int): System
    requires Busy(s, w)
  {
    var c := Head(s, w);
    if !HasLock(s.jobs, c.job, w) then s
    else
      s.(jobs := s.jobs[c.job := FailJob(s.jobs[c.job], c, permanent, clock, s.config.maxAttempts)],
         audits := if permanent || c.attempts >= s.config.maxAttempts then s.audits + [(c.job, GaveUp)] else s.audits)
  }

  function Next(s: System, step: Step): System
    requires Enabled(s, step)
  {
    match step
    case Advance(to) => s.(now := to)
    case Create(id, kind) =>
      s.(jobs := s.jobs[id := Job(kind, Pending, NO_COUNTS, 0, s.now, None, None, kind.ImportJob?, None)])
    case EditCatalog(catalog) => s.(catalog := catalog)
    case ClaimBatch(w, _, ids) =>
      s.(jobs := ClaimJobs(s.jobs, ids, w, s.now), running := s.running[w := ClaimsFor(s.jobs, ids)])
    case CommitImport(w, catalog, clock) =>
      var c := Head(s, w);
      var file := FileOf(c.kind).value;
      SetPhase(s, w, Saved).(
        jobs := s.jobs[c.job := FinishImport(s.jobs[c.job], file, clock)], catalog := catalog,
        rowErrors := s.rowErrors[c.job := file.errors], audits := s.audits + [(c.job, Completed)])
    case CommitExport(w, rows, clock) =>
      var c := Head(s, w);
      SetPhase(s, w, Saved).(
        jobs := s.jobs[c.job := FinishExport(s.jobs[c.job], rows, clock)], audits := s.audits + [(c.job, Completed)])
    case Report(w, permanent, clock) => DropHead(ReportFailure(s, w, permanent, clock), w)
    case NextJob(w) => DropHead(s, w)
    case StopTick(w) => s.(running := s.running - {w})
  }

  predicate RunEnabled(s: System, steps: seq<Step>)
    decreases |steps|
  {
    steps == [] || (Enabled(s, steps[0]) && RunEnabled(Next(s, steps[0]), steps[1..]))
  }

  function Run(s: System, steps: seq<Step>): System
    requires RunEnabled(s, steps)
    decreases |steps|
  {
    if steps == [] then s else Run(Next(s, steps[0]), steps[1..])
  }

  function Initial(now: int, config: Config, catalog: Catalog): System {
    System(now, config, map[], map[], catalog, map[], [])
  }
}
