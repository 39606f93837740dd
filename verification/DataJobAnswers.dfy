/** What the statements of the data-job worker select and write, said of the columns alone. */
module DataJobAnswers {
  import opened Ledger
  import opened ProductCsv
  import opened ProductImport
  import opened DataJobs
  import opened DataJobWorker

  /** Pending and due, or locked for longer than the timeout on the worker's clock; with an attempt left. */
  predicate Waiting(s: System, id: Id, clock: int) {
    && id in s.jobs && s.jobs[id].attempts < s.config.maxAttempts
    && (|| (s.jobs[id].status == Pending && s.jobs[id].availableAt <= s.now)
        || (s.jobs[id].status == Processing && s.jobs[id].lockedAt.Some?
            && s.jobs[id].lockedAt.value <= clock - s.config.lockTimeout))
  }

  /** A tick selects, of the rows it may lock, exactly the waiting ones, in the order given. */
  lemma DueAnswer(s: System, order: seq<Id>, busy: set<Id>, clock: int, id: Id)
    ensures id in Due(s, order, busy, clock - s.config.lockTimeout)
       <==> id in order && id !in busy && Waiting(s, id, clock)
  {
  }

  /** It takes as many of them as the batch size allows, from the front. */
  lemma LimitAnswer(s: System, order: seq<Id>, busy: set<Id>, clock: int)
    ensures var due := Due(s, order, busy, clock - s.config.lockTimeout);
            var taken := Limited(due, s.config.batchSize);
            taken <= due && |taken| == if |due| < s.config.batchSize then |due| else s.config.batchSize
  {
  }

  /** Each claimed job gets one more attempt and a lock of this worker from now on; no other job changes. */
  lemma ClaimAnswer(s: System, w: WorkerId, clock: int, ids: seq<Id>)
    ensures Enabled(s, ClaimBatch(w, clock, ids)) <==>
              && w !in s.running && |ids| <= s.config.batchSize
              && (forall i, j :: 0 <= i < j < |ids| ==> ids[i] != ids[j])
              && (forall n :: 0 <= n < |ids| ==> Waiting(s, ids[n], clock))
    ensures Enabled(s, ClaimBatch(w, clock, ids)) ==>
              var next := Next(s, ClaimBatch(w, clock, ids));
              && next.jobs.Keys == s.jobs.Keys
              && forall id :: id in s.jobs ==>
                  var job := s.jobs[id];
                  next.jobs[id]
                  == if id in ids then Job(job.kind, Processing, job.counts, job.attempts + 1, job.availableAt,
                                           Some(s.now), Some(w), job.hasInput, job.completedAt)
                     else job
  {
  }

  /** A new job is pending from now on, with its text if it is an import. */
  lemma CreateAnswer(s: System, id: Id, kind: Kind)
    requires Enabled(s, Create(id, kind))
    ensures Next(s, Create(id, kind)).jobs
            == s.jobs[id := Job(kind, Pending, Counts(0, 0, 0, 0), 0, s.now, None, None, kind.ImportJob?, None)]
  {
  }

  /** A completed export says how many rows it wrote, whatever the job said before. */
  lemma ExportAnswer(s: System, w: WorkerId, rows: nat, clock: int)
    requires Enabled(s, CommitExport(w, rows, clock))
    ensures rows <= 10_000
    ensures var id := Head(s, w).job;
            var job := s.jobs[id];
            && Next(s, CommitExport(w, rows, clock)).jobs
               == s.jobs[id := Job(job.kind, Succeeded, Counts(rows, rows, rows, 0), job.attempts, job.availableAt,
                                   None, None, job.hasInput, Some(clock))]
            && Next(s, CommitExport(w, rows, clock)).audits == s.audits + [(id, Completed)]
  {
  }

  /** A completed import: FAILED without a valid row, PARTIALLY_SUCCEEDED with valid rows and errors, SUCCEEDED without
      errors; it forgets its text, and its errors replace those of earlier attempts. */
  lemma ImportAnswer(s: System, w: WorkerId, catalog: Catalog, clock: int, file: ParsedImport)
    requires Enabled(s, CommitImport(w, catalog, clock)) && FileOf(Head(s, w).kind) == Some(file)
    ensures var id := Head(s, w).job;
            var job, next := s.jobs[id], Next(s, CommitImport(w, catalog, clock));
            && next.jobs
               == s.jobs[id := Job(job.kind,
                                   if |file.validRows| == 0 then Failed
                                   else if |file.errors| == 0 then Succeeded else PartiallySucceeded,
                                   Counts(file.totalRows, file.totalRows, |file.validRows|, |file.errors|),
                                   job.attempts, job.availableAt, None, None, false, Some(clock))]
            && next.rowErrors == s.rowErrors[id := file.errors]
            && next.audits == s.audits + [(id, Completed)]
  {
  }

  /** The wait before the next attempt, in milliseconds: one second, doubled for each attempt, one minute at most. */
  function Wait(attempts: nat): int {
    if attempts <= 1 then 1_000
    else if attempts == 2 then 2_000
    else if attempts == 3 then 4_000
    else if attempts == 4 then 8_000
    else if attempts == 5 then 16_000
    else if attempts == 6 then 32_000
    else 60_000
  }

  lemma {:induction false} BackoffAnswer(attempts: nat)
    ensures Backoff(attempts) == Wait(attempts)
  {
    if attempts > 1 {
      BackoffAnswer(attempts - 1);
    }
  }

  /** A failure report on a job still held: FAILED for good after a permanent error or the last attempt, else PENDING
      again after the wait. */
  lemma ReportAnswer(s: System, w: WorkerId, permanent: bool, clock: int)
    requires Enabled(s, Report(w, permanent, clock))
    ensures var c, next := Head(s, w), Next(s, Report(w, permanent, clock));
            var held := c.job in s.jobs && s.jobs[c.job].status == Processing && s.jobs[c.job].lockedBy == Some(w);
            var last := permanent || c.attempts >= s.config.maxAttempts;
            if !held then next.jobs == s.jobs && next.audits == s.audits
            else
              var job := s.jobs[c.job];
              && next.jobs
                 == s.jobs[c.job := Job(job.kind, if last then Failed else Pending, job.counts, job.attempts,
                                        if last then clock else clock + Wait(c.attempts), None, None,
                                        if last then false else job.hasInput, if last then Some(clock) else None)]
              && next.audits == if last then s.audits + [(c.job, GaveUp)] else s.audits
  {
    BackoffAnswer(Head(s, w).attempts);
  }
}
