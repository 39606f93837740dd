/** Safety of the outbox protocol in every interleaving. */
module OutboxSafety {
  import opened Ledger
  import opened Outbox

  /** Attempts and locks of a single row. */
  predicate RowOk(row: Row, max: nat) {
    && row.attempts <= max
    && (row.status.Pending? ==> row.attempts < max)
    && (row.status.DeadLetter? ==> row.attempts == max)
    && (row.status.Processing? ==> row.attempts >= 1 && row.lockedAt.Some?)
    && (row.status.Processing? <==> row.lockedBy.Some?)
  }

  ghost predicate RowsOk(s: System) {
    forall id :: id in s.rows ==>
      RowOk(s.rows[id], s.config.maxAttempts) && (s.rows[id].lockedBy.Some? ==> s.rows[id].lockedBy.value in s.used)
  }

  /** The fence: a worker that still holds the lock of an event it has in flight holds it under that very claim. */
  ghost predicate ClaimOk(s: System, w: WorkerId, c: Claim) {
    && c.event in s.rows
    && 1 <= c.attempts <= s.rows[c.event].attempts
    && (HoldsLock(s.rows, c.event, w) ==> s.rows[c.event].attempts == c.attempts)
    && (c.phase.Completed? || c.phase.Settled? ==> !HoldsLock(s.rows, c.event, w))
  }

  ghost predicate ClaimsOk(s: System) {
    forall w :: w in s.workers ==>
      && w in s.used
      && (!s.workers[w].isRunning ==> s.workers[w].queue == [])
      && (forall n :: 0 <= n < |s.workers[w].queue| ==> ClaimOk(s, w, s.workers[w].queue[n]))
  }

  /** Each claim made is counted in the row. */
  ghost predicate LogOk(s: System) {
    forall id :: multiset(s.claimLog)[id] == if id in s.rows then s.rows[id].attempts else 0
  }

  ghost predicate AllNotified(s: System, event: Id, users: set<Id>) {
    forall u :: u in users ==> Notified(s.notifications, event, u)
  }

  /** At most one notification per event and member; whoever delivered has notified everyone it read. */
  ghost predicate NotesOk(s: System) {
    && (forall i, j :: 0 <= i < j < |s.notifications| ==> s.notifications[i] != s.notifications[j])
    && (forall w, n :: w in s.workers && 0 <= n < |s.workers[w].queue| && s.workers[w].queue[n].phase.Delivered? ==>
          AllNotified(s, s.workers[w].queue[n].event, s.workers[w].queue[n].phase.recipients))
    && (forall id :: id in s.rows && s.rows[id].status.Processed? ==>
        id in s.readBy && AllNotified(s, id, s.readBy[id]))
  }

  ghost predicate Inv(s: System) {
    PositiveConfig(s.config) && RowsOk(s) && ClaimsOk(s) && LogOk(s) && NotesOk(s)
  }

  // ---------------------------------------------------------------- rows and claims

  lemma ClaimKeepsRows(s: System, w: WorkerId, clock: int, ids: seq<Id>)
    requires RowsOk(s) && ClaimsOk(s) && Enabled(s, ClaimBatch(w, clock, ids))
    ensures RowsOk(Next(s, ClaimBatch(w, clock, ids))) && ClaimsOk(Next(s, ClaimBatch(w, clock, ids)))
  {
    var next := Next(s, ClaimBatch(w, clock, ids));
    forall v, n | v in next.workers && 0 <= n < |next.workers[v].queue|
      ensures ClaimOk(next, v, next.workers[v].queue[n])
    {
      var c := next.workers[v].queue[n];
      if v == w {
        assert c == Claim(ids[n], s.rows[ids[n]].attempts + 1, Claimed);
      } else {
        assert ClaimOk(s, v, c);
      }
    }
  }

  /** A change of the head claim of `w`, and of the row it names, that gives up the lock or leaves the row alone. */
  lemma HeadMoves(s: System, next: System, w: WorkerId)
    requires RowsOk(s) && ClaimsOk(s) && Busy(s, w)
    requires next == s.(rows := next.rows, workers := next.workers, notifications := next.notifications,
             readBy := next.readBy)
    requires exists phase :: next.workers == SetPhase(s, w, phase).workers
               && (phase.Completed? || phase.Settled? ==> !HoldsLock(next.rows, Head(s, w).event, w))
    requires next.rows.Keys == s.rows.Keys
    requires forall id :: id in s.rows ==> next.rows[id].attempts == s.rows[id].attempts
    requires forall id :: id in s.rows && next.rows[id] != s.rows[id] ==>
               HoldsLock(s.rows, id, w) && !next.rows[id].status.Processing?
                   && RowOk(next.rows[id], s.config.maxAttempts)
    ensures RowsOk(next) && ClaimsOk(next)
  {
    forall v, n | v in next.workers && 0 <= n < |next.workers[v].queue|
      ensures ClaimOk(next, v, next.workers[v].queue[n])
    {
      assert ClaimOk(s, v, s.workers[v].queue[n]);
    }
  }

  lemma CompleteKeepsRows(s: System, w: WorkerId)
    requires RowsOk(s) && ClaimsOk(s) && Enabled(s, Complete(w))
    ensures RowsOk(Next(s, Complete(w))) && ClaimsOk(Next(s, Complete(w)))
  {
    var next := Next(s, Complete(w));
    assert next.workers == SetPhase(s, w, Completed).workers;
    HeadMoves(s, next, w);
  }

  lemma FailKeepsRows(s: System, w: WorkerId, clock: int)
    requires RowsOk(s) && ClaimsOk(s) && Enabled(s, Fail(w, clock))
    ensures RowsOk(Next(s, Fail(w, clock))) && ClaimsOk(Next(s, Fail(w, clock)))
  {
    var next := Next(s, Fail(w, clock));
    assert ClaimOk(s, w, s.workers[w].queue[0]);
    assert next.workers == SetPhase(s, w, Settled).workers;
    HeadMoves(s, next, w);
  }

  lemma PhaseKeepsRows(s: System, next: System, w: WorkerId, phase: Phase)
    requires RowsOk(s) && ClaimsOk(s) && Busy(s, w) && !phase.Completed? && !phase.Settled?
    requires next == SetPhase(s, w, phase).(notifications := next.notifications)
    ensures RowsOk(next) && ClaimsOk(next)
  {
    HeadMoves(s, next, w);
  }

  lemma RowsAndClaims(s: System, step: Step)
    requires RowsOk(s) && ClaimsOk(s) && PositiveConfig(s.config) && Enabled(s, step)
    ensures RowsOk(Next(s, step)) && ClaimsOk(Next(s, step))
  {
    match step
    case ClaimBatch(w, clock, ids) => ClaimKeepsRows(s, w, clock, ids);
    case Complete(w) => CompleteKeepsRows(s, w);
    case Fail(w, clock) => FailKeepsRows(s, w, clock);
    case Throw(w) => PhaseKeepsRows(s, Next(s, step), w, Threw);
    case ReadMembers(w) =>
      var row := s.rows[Head(s, w).event];
      PhaseKeepsRows(s, Next(s, step), w,
          HasRead(Eligible(s.members, row.organization, RolesFor(row.eventType).value)));
    case Deliver(w, _) => PhaseKeepsRows(s, Next(s, step), w, Delivered(Head(s, w).phase.recipients));
    case _ => QuietStepKeepsRows(s, step);
  }

  /** Steps that change no locked row and only shorten queues. */
  lemma QuietStepKeepsRows(s: System, step: Step)
    requires RowsOk(s) && ClaimsOk(s) && PositiveConfig(s.config) && Enabled(s, step)
    requires !step.ClaimBatch? && !step.Complete? && !step.Fail? && !step.Throw? && !step.ReadMembers? && !step.Deliver?
    ensures RowsOk(Next(s, step)) && ClaimsOk(Next(s, step))
  {
    var next := Next(s, step);
    forall v, n | v in next.workers && 0 <= n < |next.workers[v].queue|
      ensures ClaimOk(next, v, next.workers[v].queue[n])
    {
      var m := if step == NextEvent(v) then n + 1 else n;
      assert next.workers[v].queue[n] == s.workers[v].queue[m];
      assert ClaimOk(s, v, s.workers[v].queue[m]);
    }
  }

  // ---------------------------------------------------------------- claim log

  lemma {:induction false} DistinctCount(ids: seq<Id>, id: Id)
    requires Distinct(ids)
    ensures multiset(ids)[id] == if id in ids then 1 else 0
    decreases |ids|
  {
    if ids != [] {
      var init := ids[..|ids| - 1];
      assert ids == init + [ids[|ids| - 1]];
      DistinctCount(init, id);
    }
  }

  lemma StepLogs(s: System, step: Step)
    requires LogOk(s) && Enabled(s, step)
    ensures LogOk(Next(s, step))
  {
    if step.ClaimBatch? {
      var next := Next(s, step);
      forall id ensures multiset(next.claimLog)[id] == if id in next.rows then next.rows[id].attempts else 0 {
        DistinctCount(step.ids, id);
      }
    }
  }

  // ---------------------------------------------------------------- notifications

  lemma StepNotes(s: System, step: Step)
    requires ClaimsOk(s) && NotesOk(s) && Enabled(s, step)
    ensures NotesOk(Next(s, step))
  {
    var next := Next(s, step);
    assert s.notifications <= next.notifications;
    forall w, n | w in next.workers && 0 <= n < |next.workers[w].queue| && next.workers[w].queue[n].phase.Delivered?
      ensures AllNotified(next, next.workers[w].queue[n].event, next.workers[w].queue[n].phase.recipients)
    {
      DeliveredClaims(s, step, w, n);
    }
    forall id | id in next.rows && next.rows[id].status.Processed?
      ensures id in next.readBy && AllNotified(next, id, next.readBy[id])
    {
      ProcessedRows(s, step, id);
    }
  }

  lemma DeliveredClaims(s: System, step: Step, w: WorkerId, n: nat)
    requires NotesOk(s) && Enabled(s, step)
    requires var next := Next(s, step);
             w in next.workers && n < |next.workers[w].queue| && next.workers[w].queue[n].phase.Delivered?
    ensures var next := Next(s, step);
            AllNotified(next, next.workers[w].queue[n].event, next.workers[w].queue[n].phase.recipients)
  {
    var next := Next(s, step);
    var c := next.workers[w].queue[n];
    if !(step.Deliver? && step.worker == w && n == 0) {
      var m := if step == NextEvent(w) then n + 1 else n;
      assert w in s.workers && m < |s.workers[w].queue| && s.workers[w].queue[m] == c;
      assert AllNotified(s, c.event, c.phase.recipients);
    }
  }

  lemma ProcessedRows(s: System, step: Step, id: Id)
    requires ClaimsOk(s) && NotesOk(s) && Enabled(s, step)
    requires id in Next(s, step).rows && Next(s, step).rows[id].status.Processed?
    ensures id in Next(s, step).readBy && AllNotified(Next(s, step), id, Next(s, step).readBy[id])
  {
    if step.Complete? && Head(s, step.worker).event == id && HoldsLock(s.rows, id, step.worker) {
      assert s.workers[step.worker].queue[0].phase.Delivered?;
    } else {
      assert id in s.rows && s.rows[id].status.Processed?;
      assert AllNotified(s, id, s.readBy[id]);
    }
  }

  // ---------------------------------------------------------------- every run

  lemma StepInv(s: System, step: Step)
    requires Inv(s) && Enabled(s, step)
    ensures Inv(Next(s, step)) && Next(s, step).config == s.config
  {
    RowsAndClaims(s, step);
    StepLogs(s, step);
    StepNotes(s, step);
  }

  lemma {:induction false} RunInv(s: System, steps: seq<Step>)
    requires Inv(s) && RunEnabled(s, steps)
    ensures Inv(Run(s, steps)) && Run(s, steps).config == s.config
    decreases |steps|
  {
    if steps != [] {
      StepInv(s, steps[0]);
      RunInv(Next(s, steps[0]), steps[1..]);
    }
  }

  lemma InitialInv(now: int, config: Config, members: map<Membership, Role>)
    requires PositiveConfig(config)
    ensures Inv(Initial(now, config, members))
  {
  }
}
