/** What the outbox protocol guarantees over every run: fencing, the attempt budget, finality, and stuck rows. */
module OutboxTheorems {
  import opened Ledger
  import opened Outbox
  import opened OutboxSafety

  /** Claim `c` is the one under which worker `w` now holds its event. */
  predicate Current(s: System, w: WorkerId, c: Claim) {
    HoldsLock(s.rows, c.event, w) && s.rows[c.event].attempts == c.attempts
  }

  predicate Final(status: Status) {
    status.Processed? || status.DeadLetter?
  }

  // ---------------------------------------------------------------- fencing

  /** Reporting back changes the outbox exactly when the reported claim is current: success and failure alike. */
  lemma FenceHolds(s: System, step: Step)
    requires Inv(s) && Enabled(s, step) && (step.Complete? || step.Fail?)
    ensures Next(s, step).rows != s.rows <==> Current(s, step.worker, Head(s, step.worker))
    ensures forall id :: id in s.rows && id != Head(s, step.worker).event ==> Next(s, step).rows[id] == s.rows[id]
  {
    var c := Head(s, step.worker);
    assert ClaimOk(s, step.worker, s.workers[step.worker].queue[0]);
    if HoldsLock(s.rows, c.event, step.worker) {
      assert !Next(s, step).rows[c.event].status.Processing?;
    }
  }

  /** Why a worker runs one tick at a time: claiming its own expired event again while the older claim is still in hand
      would leave the older claim holding a lock that is not its own. */
  lemma FenceNeedsTheFlag(s: System, w: WorkerId, c: Claim, clock: int)
    requires Inv(s) && Current(s, w, c)
    requires Claimable(s.rows[c.event], s.now, clock - s.config.lockTimeout, s.config.maxAttempts)
    ensures !ClaimOk(s.(rows := ClaimRows(s.rows, [c.event], w, s.now)), w, c)
  {
  }

  /** Rows are never deleted, attempts never drop, and a finished row never changes again. */
  predicate Aged(s: System, t: System) {
    && s.config == t.config
    && (forall id :: id in s.rows ==> id in t.rows && s.rows[id].attempts <= t.rows[id].attempts)
    && (forall id :: id in s.rows && Final(s.rows[id].status) ==> t.rows[id] == s.rows[id])
  }

  lemma StepAges(s: System, step: Step)
    requires Inv(s) && Enabled(s, step)
    ensures Aged(s, Next(s, step))
  {
    if step.Complete? || step.Fail? {
      FenceHolds(s, step);
    }
  }

  lemma {:induction false} RunAges(s: System, steps: seq<Step>)
    requires Inv(s) && RunEnabled(s, steps)
    ensures Aged(s, Run(s, steps))
    decreases |steps|
  {
    if steps != [] {
      StepInv(s, steps[0]);
      StepAges(s, steps[0]);
      RunAges(Next(s, steps[0]), steps[1..]);
    }
  }

  /** Once a claim has been taken over by a later one, its worker changes nothing with it, now or in any later state. */
  lemma TakenOverForGood(s: System, steps: seq<Step>, c: Claim, step: Step)
    requires Inv(s) && c.event in s.rows && c.attempts < s.rows[c.event].attempts
    requires RunEnabled(s, steps) && Enabled(Run(s, steps), step) && (step.Complete? || step.Fail?)
    requires var head := Head(Run(s, steps), step.worker); head.event == c.event && head.attempts == c.attempts
    ensures Next(Run(s, steps), step).rows == Run(s, steps).rows
  {
    RunInv(s, steps);
    RunAges(s, steps);
    FenceHolds(Run(s, steps), step);
  }

  // ---------------------------------------------------------------- attempts and final states

  /** In every reachable state each row has been claimed as often as it says, hence at most `maxAttempts` times, and its
      status fits the number of attempts made. */
  lemma AttemptBudget(now: int, config: Config, members: map<Membership, Role>, steps: seq<Step>)
    requires PositiveConfig(config) && RunEnabled(Initial(now, config, members), steps)
    ensures var s := Run(Initial(now, config, members), steps);
            forall id :: id in s.rows ==>
              && multiset(s.claimLog)[id] == s.rows[id].attempts <= config.maxAttempts
              && (s.rows[id].status.Pending? ==> s.rows[id].attempts < config.maxAttempts)
              && (s.rows[id].status.DeadLetter? ==> s.rows[id].attempts == config.maxAttempts)
  {
    InitialInv(now, config, members);
    RunInv(Initial(now, config, members), steps);
    RunAges(Initial(now, config, members), steps);
  }

  /** A claim on `id` that its holder can still report on. */
  predicate Reporting(s: System, id: Id) {
    && id in s.rows && s.rows[id].lockedBy.Some?
    && var w := s.rows[id].lockedBy.value;
       w in s.workers && exists n :: 0 <= n < |s.workers[w].queue| && s.workers[w].queue[n].event == id
  }

  /** Finished rows, and rows whose last attempt was made by a worker that has lost track of them. */
  predicate Stuck(s: System, id: Id)
    requires id in s.rows
  {
    || Final(s.rows[id].status)
    || (s.rows[id].status.Processing? && s.rows[id].attempts == s.config.maxAttempts && !Reporting(s, id))
  }

  lemma StuckStep(s: System, step: Step, id: Id)
    requires Inv(s) && Enabled(s, step) && id in s.rows && Stuck(s, id)
    ensures id in Next(s, step).rows && Next(s, step).rows[id] == s.rows[id] && Stuck(Next(s, step), id)
  {
    var next := Next(s, step);
    if step.Complete? || step.Fail? {
      assert s.workers[step.worker].queue[0] == Head(s, step.worker);
      FenceHolds(s, step);
    }
    assert next.rows[id] == s.rows[id];
    if !Final(s.rows[id].status) && Reporting(next, id) {
      var w := s.rows[id].lockedBy.value;
      var n :| 0 <= n < |next.workers[w].queue| && next.workers[w].queue[n].event == id;
      QueueCameFrom(s, step, w, n);
    }
  }

  /** Events enter a queue only through a claim. */
  lemma QueueCameFrom(s: System, step: Step, w: WorkerId, n: nat)
    requires Enabled(s, step) && w in Next(s, step).workers && n < |Next(s, step).workers[w].queue|
    requires !(step.ClaimBatch? && step.worker == w)
    ensures w in s.workers
    ensures exists m ::
              0 <= m < |s.workers[w].queue| && s.workers[w].queue[m].event == Next(s, step).workers[w].queue[n].event
  {
    var m := if step == NextEvent(w) then n + 1 else n;
    assert s.workers[w].queue[m].event == Next(s, step).workers[w].queue[n].event;
  }

  lemma {:induction false} StuckForGood(s: System, steps: seq<Step>, id: Id)
    requires Inv(s) && RunEnabled(s, steps) && id in s.rows && Stuck(s, id)
    ensures id in Run(s, steps).rows && Run(s, steps).rows[id] == s.rows[id]
    decreases |steps|
  {
    if steps != [] {
      StuckStep(s, steps[0], id);
      StepInv(s, steps[0]);
      StuckForGood(Next(s, steps[0]), steps[1..], id);
    }
  }

  // ---------------------------------------------------------------- every other row can still move

  predicate Moves(s: System, steps: seq<Step>, id: Id)
    requires id in s.rows
  {
    RunEnabled(s, steps) && (id in Run(s, steps).rows ==> Run(s, steps).rows[id] != s.rows[id])
  }

  /** Attempts left: a worker that starts now can claim the row, once it is due or its lock has expired. */
  lemma NewWorkerClaims(s: System, id: Id) returns (steps: seq<Step>)
    requires Inv(s) && id in s.rows && !Final(s.rows[id].status) && s.rows[id].attempts < s.config.maxAttempts
    ensures Moves(s, steps, id)
  {
    var w := UnusedId(s.used);
    var row := s.rows[id];
    var due := if row.availableAt > s.now then row.availableAt else s.now;
    var clock := if row.lockedAt.Some? then row.lockedAt.value + s.config.lockTimeout else s.now;
    var start, wait, claim := StartWorker(w), Advance(due), ClaimBatch(w, clock, [id]);
    var s1 := Next(s, start);
    var s2 := Next(s1, wait);
    ClaimMoves(s2, w, clock, id);
    RunOne(s2, claim);
    RunCons(s1, wait, [claim]);
    RunCons(s, start, [wait] + [claim]);
    steps := [start] + ([wait] + [claim]);
  }

  lemma ClaimMoves(s: System, w: WorkerId, clock: int, id: Id)
    requires w in s.workers && !s.workers[w].isRunning && id in s.rows && s.config.batchSize > 0
    requires Claimable(s.rows[id], s.now, clock - s.config.lockTimeout, s.config.maxAttempts)
    ensures Enabled(s, ClaimBatch(w, clock, [id]))
    ensures Next(s, ClaimBatch(w, clock, [id])).rows[id].attempts == s.rows[id].attempts + 1
  {
  }

  lemma RunOne(s: System, step: Step)
    requires Enabled(s, step)
    ensures RunEnabled(s, [step]) && Run(s, [step]) == Next(s, step)
  {
    assert Run(Next(s, step), []) == Next(s, step);
  }

  lemma RunCons(s: System, step: Step, rest: seq<Step>)
    requires Enabled(s, step) && RunEnabled(Next(s, step), rest)
    ensures RunEnabled(s, [step] + rest) && Run(s, [step] + rest) == Run(Next(s, step), rest)
  {
    assert ([step] + rest)[1..] == rest;
  }

  /** The last attempt, still in the queue of its worker: the worker can work its way there and fail it. */
  lemma {:induction false} OwnerFails(s: System, id: Id, n: nat) returns (steps: seq<Step>)
    requires Inv(s) && id in s.rows && s.rows[id].status.Processing? && s.rows[id].lockedBy.Some?
    requires var w := s.rows[id].lockedBy.value;
             w in s.workers && n < |s.workers[w].queue| && s.workers[w].queue[n].event == id
    ensures Moves(s, steps, id)
    decreases n
  {
    var w := s.rows[id].lockedBy.value;
    var head := s.workers[w].queue[0];
    assert ClaimOk(s, w, head);
    var first := SettleHead(s, w);
    var t := Run(s, first);
    if head.event == id {
      steps := first;
    } else {
      RunInv(s, first);
      StepInv(t, NextEvent(w));
      var rest := OwnerFails(Next(t, NextEvent(w)), id, n - 1);
      RunCons(t, NextEvent(w), rest);
      RunConcat(s, first, [NextEvent(w)] + rest);
      steps := first + ([NextEvent(w)] + rest);
    }
  }

  lemma {:induction false} RunConcat(s: System, first: seq<Step>, second: seq<Step>)
    requires RunEnabled(s, first) && RunEnabled(Run(s, first), second)
    ensures RunEnabled(s, first + second) && Run(s, first + second) == Run(Run(s, first), second)
    decreases |first|
  {
    if first == [] {
      assert first + second == second;
    } else {
      assert (first + second)[1..] == first[1..] + second;
      RunConcat(Next(s, first[0]), first[1..], second);
    }
  }

  /** From `s` to `t` worker `w` has finished with its head event, giving up the lock if it had it, and touched nothing
      else. */
  predicate HeadSettled(s: System, t: System, w: WorkerId)
    requires Busy(s, w)
  {
    && Busy(t, w) && (Head(t, w).phase.Settled? || Head(t, w).phase.Completed?)
    && t.workers[w].queue[1..] == s.workers[w].queue[1..] && t.rows.Keys == s.rows.Keys
    && (forall id :: id in s.rows && id != Head(s, w).event ==> t.rows[id] == s.rows[id])
    && (HoldsLock(s.rows, Head(s, w).event, w) ==> t.rows[Head(s, w).event] != s.rows[Head(s, w).event])
  }

  lemma FailSettles(s: System, w: WorkerId, clock: int)
    requires Inv(s) && Enabled(s, Fail(w, clock))
    ensures HeadSettled(s, Next(s, Fail(w, clock)), w)
  {
    FenceHolds(s, Fail(w, clock));
  }

  /** A worker can always report failure on the event it is processing, unless it has already reported. */
  lemma SettleHead(s: System, w: WorkerId) returns (steps: seq<Step>)
    requires Inv(s) && Busy(s, w)
    ensures RunEnabled(s, steps) && HeadSettled(s, Run(s, steps), w)
  {
    var phase := Head(s, w).phase;
    if phase.Settled? || phase.Completed? {
      assert ClaimOk(s, w, s.workers[w].queue[0]);
      steps := [];
    } else {
      var fail := Fail(w, s.now);
      if phase.Threw? {
        FailSettles(s, w, s.now);
        RunOne(s, fail);
        steps := [fail];
      } else {
        var t := Next(s, Throw(w));
        StepInv(s, Throw(w));
        FailSettles(t, w, s.now);
        RunOne(t, fail);
        RunCons(s, Throw(w), [fail]);
        steps := [Throw(w)] + [fail];
      }
    }
  }

  /** A row that is not stuck has a run that changes it. */
  lemma LooseRowMoves(s: System, id: Id) returns (steps: seq<Step>)
    requires Inv(s) && id in s.rows && !Stuck(s, id)
    ensures Moves(s, steps, id)
  {
    if s.rows[id].attempts < s.config.maxAttempts {
      steps := NewWorkerClaims(s, id);
    } else {
      var w := s.rows[id].lockedBy.value;
      var n :| 0 <= n < |s.workers[w].queue| && s.workers[w].queue[n].event == id;
      steps := OwnerFails(s, id, n);
    }
  }

  predicate Unchanged(s: System, steps: seq<Step>, id: Id)
    requires id in s.rows && RunEnabled(s, steps)
  {
    id in Run(s, steps).rows && Run(s, steps).rows[id] == s.rows[id]
  }

  /** Exactly the stuck rows never change again, whatever happens; every other row has a run that changes it. */
  lemma StuckExactly(s: System, id: Id)
    requires Inv(s) && id in s.rows
    ensures Stuck(s, id) <==> forall steps :: RunEnabled(s, steps) ==> Unchanged(s, steps, id)
  {
    if Stuck(s, id) {
      forall steps | RunEnabled(s, steps) ensures Unchanged(s, steps, id) {
        StuckForGood(s, steps, id);
      }
    } else {
      var steps := LooseRowMoves(s, id);
      assert RunEnabled(s, steps) && !Unchanged(s, steps, id);
    }
  }

  /** A row that is stuck although nobody finished it: its one attempt was made by a worker that crashed. */
  const CRASH_RUN: seq<Step> := [
    Enqueue(0, 0, SalesOrderConfirmed), StartWorker(1), ClaimBatch(1, 0, [0]), Crash(1)]

  const ONE_ATTEMPT := Initial(0, Config(1, 1, 1), map[])

  lemma StuckInProcessing()
    ensures RunEnabled(ONE_ATTEMPT, CRASH_RUN)
    ensures var s := Run(ONE_ATTEMPT, CRASH_RUN);
            Inv(s) && 0 in s.rows && s.rows[0].status.Processing? && Stuck(s, 0)
  {
    var enqueue, start, claim, crash := CRASH_RUN[0], CRASH_RUN[1], CRASH_RUN[2], CRASH_RUN[3];
    var s1 := Next(ONE_ATTEMPT, enqueue);
    var s2 := Next(s1, start);
    ClaimMoves(s2, 1, 0, 0);
    var s3 := Next(s2, claim);
    var s4 := Next(s3, crash);
    RunOne(s3, crash);
    RunCons(s2, claim, [crash]);
    RunCons(s1, start, [claim] + [crash]);
    RunCons(ONE_ATTEMPT, enqueue, [start] + ([claim] + [crash]));
    assert CRASH_RUN == [enqueue] + ([start] + ([claim] + [crash]));
    InitialInv(0, Config(1, 1, 1), map[]);
    RunInv(ONE_ATTEMPT, CRASH_RUN);
    assert s4.rows[0].lockedBy == Some(1) && 1 !in s4.workers;
  }
}
