/** What the statements of the outbox worker select and write, said of the columns alone. */
module OutboxAnswers {
  import opened Ledger
  import opened Outbox
  import opened OutboxDelivery
  import opened OutboxWorker

  /** Pending and due, or locked for longer than the timeout on the worker's clock; with an attempt left. */
  predicate Waiting(s: System, id: Id, clock: int) {
    && id in s.rows && s.rows[id].attempts < s.config.maxAttempts
    && (|| (s.rows[id].status == Pending && s.rows[id].availableAt <= s.now)
        || (s.rows[id].status == Processing && s.rows[id].lockedAt.Some?
            && s.rows[id].lockedAt.value <= clock - s.config.lockTimeout))
  }

  /** A tick selects, of the rows it may lock, exactly the waiting ones, in the order given. */
  lemma DueAnswer(s: System, order: seq<Id>, busy: set<Id>, clock: int, id: Id)
    ensures id in Due(s, order, busy, clock - s.config.lockTimeout)
       <==> id in order && id !in busy && Waiting(s, id, clock)
  {
  }

  /** It takes as many of them as the batch size allows, from the front. */
  lemma LimitAnswer(s: System, order: seq<Id>, busy: set<Id>, clock: int)
    ensures var due := Due(s, order, busy, clock - s.config.lockTimeout);
            var taken := Limited(due, s.config.batchSize);
            taken <= due && |taken| == if |due| < s.config.batchSize then |due| else s.config.batchSize
  {
  }

  /** Each claimed row gets one more attempt and a lock of this worker from now on; no other row changes. */
  lemma ClaimAnswer(s: System, w: WorkerId, clock: int, ids: seq<Id>)
    ensures Enabled(s, ClaimBatch(w, clock, ids)) <==>
              && w in s.workers && !s.workers[w].isRunning && |ids| <= s.config.batchSize
              && (forall i, j :: 0 <= i < j < |ids| ==> ids[i] != ids[j])
              && (forall n :: 0 <= n < |ids| ==> Waiting(s, ids[n], clock))
    ensures Enabled(s, ClaimBatch(w, clock, ids)) ==>
              var next := Next(s, ClaimBatch(w, clock, ids));
              && next.rows.Keys == s.rows.Keys
              && forall id :: id in s.rows ==>
                  var row := s.rows[id];
                  next.rows[id]
                  == if id in ids then Row(Processing, row.attempts + 1, row.availableAt, Some(s.now), Some(w),
                                           row.organization, row.eventType)
                     else row
  {
  }

  /** Whom a worker is about to notify: of every supported type, exactly those concerned; of others, nobody can be
      looked up. */
  lemma LookupAnswer(s: System, w: WorkerId)
    requires Busy(s, w) && Head(s, w).phase.Claimed? && Head(s, w).event in s.rows
    ensures Enabled(s, ReadMembers(w)) <==> s.rows[Head(s, w).event].eventType != Unsupported
    ensures Enabled(s, ReadMembers(w)) ==>
              && Busy(Next(s, ReadMembers(w)), w) && Head(Next(s, ReadMembers(w)), w).phase.HasRead?
              && forall u ::
                  u in Head(Next(s, ReadMembers(w)), w).phase.recipients <==> Concerned(s, Head(s, w).event, u)
  {
    if Enabled(s, ReadMembers(w)) {
      RecipientsAreConcerned(s, Head(s, w).event);
    }
  }

  /** The fence of both reports: the row is still PROCESSING under this worker's id. */
  predicate StillHeld(s: System, id: Id, w: WorkerId) {
    id in s.rows && s.rows[id].status == Processing && s.rows[id].lockedBy == Some(w)
  }

  /** Completion unlocks the held row as PROCESSED, and changes nothing otherwise. */
  lemma CompleteAnswer(s: System, w: WorkerId)
    requires Enabled(s, Complete(w))
    ensures var id := Head(s, w).event;
            Next(s, Complete(w)).rows
            == if !StillHeld(s, id, w) then s.rows
               else
                 var row := s.rows[id];
                 s.rows[id := Row(Processed, row.attempts, row.availableAt, None, None, row.organization,
                                  row.eventType)]
  {
  }

  /** The wait before the next attempt, in milliseconds: one second, doubled for each attempt, one minute at most. */
  function Wait(attempts: nat): int {
    if attempts <= 1 then 1_000
    else if attempts == 2 then 2_000
    else if attempts == 3 then 4_000
    else if attempts == 4 then 8_000
    else if attempts == 5 then 16_000
    else if attempts == 6 then 32_000
    else 60_000
  }

  /** The back-off is the lesser of one minute and one second times two to the attempts made before. */
  lemma BackoffAnswer(attempts: nat)
    ensures Backoff(attempts) == Wait(attempts)
    ensures var doubled := 1_000 * Power2(if attempts >= 1 then attempts - 1 else 0);
            Backoff(attempts) == if doubled <= 60_000 then doubled else 60_000
  {
    if attempts >= 1 {
      PowerGrows(attempts - 1);
    }
  }

  lemma {:induction false} PowerGrows(n: nat)
    ensures Power2(0) == 1 && (n > 0 ==> Power2(n) == 2 * Power2(n - 1))
    ensures n == 1 ==> Power2(n) == 2
    ensures n == 2 ==> Power2(n) == 4
    ensures n == 3 ==> Power2(n) == 8
    ensures n == 4 ==> Power2(n) == 16
    ensures n == 5 ==> Power2(n) == 32
    ensures n >= 6 ==> Power2(n) >= 64
  {
    if n > 0 {
      PowerGrows(n - 1);
    }
  }

  /** A failure report on the held row: DEAD_LETTER after the last attempt, else PENDING again after the wait. */
  lemma FailAnswer(s: System, w: WorkerId, clock: int)
    requires Enabled(s, Fail(w, clock))
    ensures var c := Head(s, w);
            Next(s, Fail(w, clock)).rows
            == if !StillHeld(s, c.event, w) then s.rows
               else
                 var row := s.rows[c.event];
                 var last := c.attempts >= s.config.maxAttempts;
                 s.rows[c.event :=
                   Row(if last then DeadLetter else Pending, row.attempts,
                       if last then clock else clock + Wait(c.attempts), None, None, row.organization, row.eventType)]
  {
    BackoffAnswer(Head(s, w).attempts);
  }

  /** A new event is pending from now on, and has not been tried. */
  lemma EnqueueAnswer(s: System, id: Id, organization: Id, t: EventType)
    requires Enabled(s, Enqueue(id, organization, t))
    ensures Next(s, Enqueue(id, organization, t)).rows
            == s.rows[id := Row(Pending, 0, s.now, None, None, organization, t)]
  {
  }
}
