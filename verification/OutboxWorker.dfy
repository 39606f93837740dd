/** The outbox worker itself: `tick`, `claimBatch`, `processEvent`, `handleFailure` and the processor's insert, with the
    other workers running between any two of its statements. */
module OutboxWorker {
  import opened Ledger
  import opened Outbox
  import opened OutboxSafety
  import opened OutboxTheorems

  /** Where processing one event goes wrong, if it does; `AnswerLost` is a statement that was applied all the same. */
  datatype Fault = NoFault | InMembers | InInsert | InsertAnswerLost | InCompletion | CompletionAnswerLost

  datatype ReportFault = ReportFine | ReportFails | ReportAnswerLost

  /** The surroundings while one event is processed; `others` is what everybody else does between the statements. */
  datatype Weather = Weather(fault: Fault, report: ReportFault, clock: int, others: seq<seq<Step>>)

  datatype ClaimFault = ClaimFine | ClaimFails | ClaimAnswerLost

  const CALM := Weather(NoFault, ReportFine, 0, [])

  function StepsAt(weather: Weather, n: nat): seq<Step> {
    if n < |weather.others| then weather.others[n] else []
  }

  /** Nobody else moves. */
  predicate Undisturbed(weather: Weather) {
    forall n :: 0 <= n < |weather.others| ==> weather.others[n] == []
  }

  /** Nothing goes wrong and nobody else moves. */
  predicate Calm(weather: Weather) {
    weather.fault.NoFault? && Undisturbed(weather)
  }

  /** The event exists and is of a type that notifies somebody. */
  predicate Supported(rows: map<Id, Row>, id: Id) {
    id in rows && rows[id].eventType != Unsupported
  }

  predicate By(step: Step, w: WorkerId) {
    match step
    case Advance(_) => false
    case Enqueue(_, _, _) => false
    case SetMember(_, _) => false
    case DropMember(_) => false
    case _ => step.worker == w
  }

  /** `after` is what the machine reaches from `before` along `trace`. */
  predicate Ran(before: System, trace: seq<Step>, after: System) {
    RunEnabled(before, trace) && Run(before, trace) == after
  }

  /** Worker `w` holds no lock that it did not hold before. */
  ghost predicate NoNewLocks(before: System, after: System, w: WorkerId) {
    forall id :: HoldsLock(after.rows, id, w) ==> HoldsLock(before.rows, id, w)
  }

  /** The claim in hand has moved to `phase`; the rest of the batch is as it was. */
  predicate HeadBecame(before: System, after: System, w: WorkerId, phase: Phase)
    requires Busy(before, w)
  {
    && Busy(after, w) && Head(after, w) == Head(before, w).(phase := phase)
    && after.workers[w].queue[1..] == before.workers[w].queue[1..]
  }

  lemma StepNoNewLocks(s: System, step: Step, w: WorkerId)
    requires Enabled(s, step) && !(step.ClaimBatch? && step.worker == w)
    ensures NoNewLocks(s, Next(s, step), w)
  {
    match step
    case ClaimBatch(v, clock, ids) =>
    case Complete(v) =>
    case Fail(v, clock) =>
    case _ =>
  }

  /** What the subquery of the claim finds: due rows nobody has locked, oldest first. */
  function Due(s: System, order: seq<Id>, busy: set<Id>, staleBefore: int): (ids: seq<Id>)
    ensures forall id :: id in ids <==>
              id in order && id in s.rows && id !in busy
                  && Claimable(s.rows[id], s.now, staleBefore, s.config.maxAttempts)
    ensures Distinct(order) ==> Distinct(ids)
  {
    if order == [] then []
    else
      var front, last := order[..|order| - 1], order[|order| - 1];
      var rest := Due(s, front, busy, staleBefore);
      assert order == front + [last];
      if last in s.rows && last !in busy && Claimable(s.rows[last], s.now, staleBefore, s.config.maxAttempts)
      then rest + [last] else rest
  }

  lemma {:induction false} DueExtends(s: System, order: seq<Id>, n: nat, busy: set<Id>, staleBefore: int)
    requires n <= |order|
    ensures Due(s, order[..n], busy, staleBefore) <= Due(s, order, busy, staleBefore)
    decreases |order| - n
  {
    if n < |order| {
      assert order[..n + 1][..n] == order[..n];
      DueExtends(s, order, n + 1, busy, staleBefore);
    } else {
      assert order[..n] == order;
    }
  }

  function Limited(ids: seq<Id>, limit: nat): seq<Id> {
    if |ids| <= limit then ids else ids[..limit]
  }

  /** A report depends on the claim's event and attempts only, and does nothing to a row completed before. */
  lemma ReportOnRows(rows: map<Id, Row>, c: Claim, w: WorkerId, clock: int, max: nat)
    ensures forall phase :: FailRow(rows, c.(phase := phase), w, clock, max) == FailRow(rows, c, w, clock, max)
    ensures forall phase ::
              FailRow(CompleteRow(rows, c.event, w), c.(phase := phase), w, clock, max) == CompleteRow(rows, c.event, w)
  {
  }

  /** createMany with skipDuplicates. */
  method CreateMany(existing: seq<Notification>, event: Id, recipients: set<Id>) returns (all: seq<Notification>)
    ensures InsertedSkippingDuplicates(existing, all, event, recipients)
  {
    all := existing;
    var left := recipients;
    while left != {}
      invariant left <= recipients
      invariant InsertedSkippingDuplicates(existing, all, event, recipients - left)
      decreases |left|
    {
      var user :| user in left;
      ghost var before := all;
      if Notification(event, user) !in all {
        all := all + [Notification(event, user)];
      }
      assert forall u :: Notified(before, event, u) ==> Notified(all, event, u);
      assert Notified(all, event, user) by {
        assert Notification(event, user) in all;
      }
      assert recipients - (left - {user}) == recipients - left + {user};
      left := left - {user};
    }
    assert recipients - left == recipients;
  }

  /** The database the workers share. `trace` records the steps of the protocol taken since `init`, the empty outbox. */
  class Database {
    const clock: int
    const config: Config
    const members: map<Membership, Role>
    var state: System
    ghost var trace: seq<Step>

    ghost predicate Valid()
      reads this
    {
      PositiveConfig(config) && Ran(Initial(clock, config, members), trace, state)
    }

    constructor (now: int, config: Config, members: map<Membership, Role>)
      requires PositiveConfig(config)
      ensures Valid() && state == Initial(now, config, members) && trace == []
    {
      this.clock, this.config, this.members := now, config, members;
      state, trace := Initial(now, config, members), [];
    }

    method Do(step: Step)
      requires Valid() && Enabled(state, step)
      modifies this
      ensures Valid() && state == Next(old(state), step) && trace == old(trace) + [step]
      ensures !step.ClaimBatch? ==> forall w :: NoNewLocks(old(state), state, w)
    {
      if !step.ClaimBatch? {
        forall w ensures NoNewLocks(state, Next(state, step), w) {
          StepNoNewLocks(state, step, w);
        }
      }
      RunOne(state, step);
      RunConcat(Initial(clock, config, members), trace, [step]);
      state, trace := Next(state, step), trace + [step];
    }

    /** The claim a worker is busy with names an existing row, and is settled only once the lock is given up. */
    lemma HeadOk(w: WorkerId)
      requires Valid() && Busy(state, w)
      ensures Head(state, w).event in state.rows
      ensures Head(state, w).phase.Completed? || Head(state, w).phase.Settled? ==>
                !HoldsLock(state.rows, Head(state, w).event, w)
    {
      InitialInv(clock, config, members);
      RunInv(Initial(clock, config, members), trace);
      assert ClaimOk(state, w, state.workers[w].queue[0]);
    }

    /** The others take those of the given steps that are theirs to take. */
    method Others(w: WorkerId, steps: seq<Step>)
      requires Valid() && w in state.workers
      modifies this
      ensures Valid() && NoNewLocks(old(state), state, w)
      ensures state.config == old(state).config
      ensures w in state.workers && state.workers[w] == old(state).workers[w]
      ensures steps == [] ==> state == old(state)
    {
      for n := 0 to |steps|
        invariant n == 0 ==> state == old(state)
        invariant Valid() && NoNewLocks(old(state), state, w)
        invariant w in state.workers && state.workers[w] == old(state).workers[w]
        invariant state.config == old(state).config
      {
        if !By(steps[n], w) && Enabled(state, steps[n]) {
          StepNoNewLocks(state, steps[n], w);
          Do(steps[n]);
        }
      }
    }

    method Candidates(order: seq<Id>, busy: set<Id>, staleBefore: int) returns (ids: seq<Id>)
      requires Distinct(order)
      ensures ids == Limited(Due(state, order, busy, staleBefore), state.config.batchSize)
    {
      ids := [];
      var n := 0;
      while n < |order| && |ids| < state.config.batchSize
        invariant n <= |order| && ids == Due(state, order[..n], busy, staleBefore) && |ids| <= state.config.batchSize
      {
        assert order[..n + 1][..n] == order[..n];
        if order[n] in state.rows && order[n] !in busy
           && Claimable(state.rows[order[n]], state.now, staleBefore, state.config.maxAttempts) {
          ids := ids + [order[n]];
        }
        n := n + 1;
      }
      assert order[..|order|] == order;
      DueExtends(state, order, n, busy, staleBefore);
    }

    /** The processor: recipients by role, then one insert that skips duplicates. */
    method Process(w: WorkerId, weather: Weather) returns (threw: bool)
      requires Valid() && Busy(state, w) && Head(state, w).phase.Claimed?
      modifies this
      ensures Valid() && NoNewLocks(old(state), state, w)
      ensures state.config == old(state).config
      ensures Busy(state, w)
      ensures HeadBecame(old(state), state, w, if threw then Threw else Head(state, w).phase)
      ensures !threw ==> Head(state, w).phase.Delivered?
      ensures Undisturbed(weather) ==> state.rows == old(state).rows
      ensures !Supported(old(state).rows, old(Head(state, w)).event) || weather.fault.InMembers? ==> threw
      ensures Calm(weather) && Supported(old(state).rows, old(Head(state, w)).event) ==> !threw
    {
      HeadOk(w);
      if RolesFor(state.rows[Head(state, w).event].eventType).None? || weather.fault.InMembers? {
        Do(Throw(w));
        return true;
      }
      Do(ReadMembers(w));
      Others(w, StepsAt(weather, 1));
      threw := Insert(w, Head(state, w).phase.recipients, weather.fault);
    }

    method Insert(w: WorkerId, recipients: set<Id>, fault: Fault) returns (threw: bool)
      requires Valid() && Busy(state, w) && Head(state, w).phase == HasRead(recipients)
      modifies this
      ensures Valid() && NoNewLocks(old(state), state, w)
      ensures state.config == old(state).config
      ensures HeadBecame(old(state), state, w, if threw then Threw else Delivered(recipients))
      ensures state.rows == old(state).rows && (fault.NoFault? ==> !threw)
    {
      var notifications := state.notifications;
      if recipients != {} {
        if fault.InInsert? {
          Do(Throw(w));
          return true;
        }
        notifications := CreateMany(notifications, Head(state, w).event, recipients);
      }
      Do(Deliver(w, notifications));
      if recipients != {} && fault.InsertAnswerLost? {
        Do(Throw(w));
        return true;
      }
      return false;
    }

    /** The fenced update to PROCESSED. */
    method MarkProcessed(w: WorkerId, weather: Weather) returns (threw: bool)
      requires Valid() && Busy(state, w) && Head(state, w).phase.Delivered?
      modifies this
      ensures Valid() && NoNewLocks(old(state), state, w)
      ensures state.config == old(state).config
      ensures HeadBecame(old(state), state, w, if threw then Threw else Completed)
      ensures threw <==> weather.fault.InCompletion? || weather.fault.CompletionAnswerLost?
      ensures Undisturbed(weather) ==>
                state.rows == if weather.fault.InCompletion? then old(state).rows
                              else CompleteRow(old(state).rows, old(Head(state, w)).event, w)
    {
      if weather.fault.InCompletion? {
        Do(Throw(w));
        return true;
      }
      Do(Complete(w));
      Others(w, StepsAt(weather, 3));
      if weather.fault.CompletionAnswerLost? {
        Do(Throw(w));
        return true;
      }
      return false;
    }

    /** The body of the try block: process the event and mark it processed. */
    method TryProcess(w: WorkerId, weather: Weather) returns (threw: bool)
      requires Valid() && Busy(state, w) && Head(state, w).phase.Claimed?
      modifies this
      ensures Valid() && NoNewLocks(old(state), state, w)
      ensures state.config == old(state).config
      ensures HeadBecame(old(state), state, w, if threw then Threw else Completed)
      ensures Undisturbed(weather) ==>
                && (!threw ==> state.rows == CompleteRow(old(state).rows, old(Head(state, w)).event, w))
                && (threw && !weather.fault.CompletionAnswerLost? ==> state.rows == old(state).rows)
                && (!Supported(old(state).rows, old(Head(state, w)).event) ==> threw && state.rows == old(state).rows)
                && (weather.fault.InMembers? || weather.fault.InCompletion? ==> threw)
                && (state.rows == old(state).rows
                    || state.rows == CompleteRow(old(state).rows, old(Head(state, w)).event, w))
      ensures Calm(weather) && Supported(old(state).rows, old(Head(state, w)).event) ==> !threw
    {
      Others(w, StepsAt(weather, 0));
      threw := Process(w, weather);
      if !threw {
        Others(w, StepsAt(weather, 2));
        threw := MarkProcessed(w, weather);
      }
    }

    /** `processEvent`: on any error `handleFailure` reports it; an error in that ends the tick. */
    method ProcessEvent(w: WorkerId, weather: Weather) returns (aborted: bool)
      requires Valid() && Busy(state, w) && Head(state, w).phase.Claimed?
      modifies this
      ensures Valid() && NoNewLocks(old(state), state, w) && w in state.workers
      ensures aborted ==> !state.workers[w].isRunning
      ensures weather.report.ReportFine? ==> !aborted
      ensures !aborted ==>
                && state.workers[w] == WorkerState(true, old(state).workers[w].queue[1..])
                && !HoldsLock(state.rows, old(Head(state, w)).event, w)
      ensures Undisturbed(weather) && !weather.report.ReportFails? ==>
                || state.rows == CompleteRow(old(state).rows, old(Head(state, w)).event, w)
                || state.rows == FailRow(old(state).rows, old(Head(state, w)), w, weather.clock,
                                         old(state).config.maxAttempts)
      ensures Undisturbed(weather) && !weather.report.ReportFails?
              && (!Supported(old(state).rows, old(Head(state, w)).event)
                  || weather.fault.InMembers? || weather.fault.InCompletion?) ==>
                state.rows == FailRow(old(state).rows, old(Head(state, w)), w, weather.clock,
                                      old(state).config.maxAttempts)
      ensures Calm(weather) && Supported(old(state).rows, old(Head(state, w)).event) ==>
                !aborted && state.rows == CompleteRow(old(state).rows, old(Head(state, w)).event, w)
    {
      var threw := TryProcess(w, weather);
      if threw {
        ReportOnRows(old(state).rows, old(Head(state, w)), w, weather.clock, state.config.maxAttempts);
        aborted := HandleFailure(w, weather);
        if aborted {
          return;
        }
      }
      HeadOk(w);
      Do(NextEvent(w));
      return false;
    }

    /** `handleFailure`: one fenced update, at the worker's clock. */
    method HandleFailure(w: WorkerId, weather: Weather) returns (aborted: bool)
      requires Valid() && Busy(state, w) && Head(state, w).phase.Threw?
      modifies this
      ensures Valid() && NoNewLocks(old(state), state, w) && w in state.workers
      ensures aborted <==> !weather.report.ReportFine?
      ensures aborted ==> !state.workers[w].isRunning
      ensures !aborted ==> HeadBecame(old(state), state, w, Settled)
      ensures Undisturbed(weather) ==>
                state.rows
                == if weather.report.ReportFails? then old(state).rows
                   else FailRow(old(state).rows, old(Head(state, w)), w, weather.clock, old(state).config.maxAttempts)
    {
      Others(w, StepsAt(weather, 4));
      if !weather.report.ReportFails? {
        Do(Fail(w, weather.clock));
      }
      if !weather.report.ReportFine? {
        Do(AbortTick(w));
        return true;
      }
      return false;
    }

    /** `tick`: at most one at a time. Unless an error cuts it short, it ends with none of its events still locked; and
        if nothing goes wrong and nobody interferes, every event of a supported type ends PROCESSED. */
    method Tick(w: WorkerId, order: seq<Id>, busy: set<Id>, clock: int, fault: ClaimFault, weathers: seq<Weather>)
      returns (claimed: seq<Id>, aborted: bool)
      requires Valid() && w in state.workers && Distinct(order)
      modifies this
      ensures Valid() && w in state.workers
      ensures old(state).workers[w].isRunning ==> state == old(state) && claimed == []
      ensures !old(state).workers[w].isRunning ==> !state.workers[w].isRunning
      ensures !old(state).workers[w].isRunning && !fault.ClaimFails? ==>
                claimed == Limited(Due(old(state), order, busy, clock - old(state).config.lockTimeout),
                    old(state).config.batchSize)
      ensures !aborted ==> forall id :: id in claimed ==> !HoldsLock(state.rows, id, w)
      ensures !old(state).workers[w].isRunning && fault.ClaimFine?
              && (forall weather :: weather in weathers ==> Calm(weather))
              && (forall id :: id in claimed ==> Supported(old(state).rows, id)) ==>
                !aborted && forall id :: id in claimed ==> id in state.rows && state.rows[id].status.Processed?
    {
      claimed, aborted := [], false;
      if state.workers[w].isRunning {
        return;
      }
      if fault.ClaimFails? {
        return [], true;
      }
      claimed := ClaimOldest(w, order, busy, clock);
      if fault.ClaimAnswerLost? {
        Do(AbortTick(w));
        return claimed, true;
      }
      aborted := ProcessBatch(w, claimed, weathers);
      if !aborted {
        Do(EndTick(w));
      }
    }

    /** `claimBatch`: the oldest candidates become the worker's, each under a lock and with one more attempt. */
    method ClaimOldest(w: WorkerId, order: seq<Id>, busy: set<Id>, clock: int) returns (batch: seq<Id>)
      requires Valid() && w in state.workers && !state.workers[w].isRunning && Distinct(order)
      modifies this
      ensures Valid() && w in state.workers && state.workers[w].isRunning && |state.workers[w].queue| == |batch|
      ensures batch == Limited(Due(old(state), order, busy, clock - old(state).config.lockTimeout),
              old(state).config.batchSize)
      ensures Distinct(batch)
      ensures forall n :: 0 <= n < |batch| ==>
                state.workers[w].queue[n].event == batch[n] && state.workers[w].queue[n].phase.Claimed?
                && HoldsLock(state.rows, batch[n], w)
      ensures forall id :: Supported(state.rows, id) <==> Supported(old(state).rows, id)
    {
      batch := Candidates(order, busy, clock - state.config.lockTimeout);
      Do(ClaimBatch(w, clock, batch));
    }

    /** The loop over the batch. */
    method ProcessBatch(w: WorkerId, batch: seq<Id>, weathers: seq<Weather>) returns (aborted: bool)
      requires Valid() && w in state.workers && state.workers[w].isRunning && |state.workers[w].queue| == |batch|
      requires forall n :: 0 <= n < |batch| ==>
                 state.workers[w].queue[n].event == batch[n] && state.workers[w].queue[n].phase.Claimed?
                 && HoldsLock(state.rows, batch[n], w)
      requires Distinct(batch)
      modifies this
      ensures Valid() && w in state.workers
      ensures aborted ==> !state.workers[w].isRunning
      ensures !aborted ==> state.workers[w] == WorkerState(true, [])
      ensures !aborted ==> forall id :: id in batch ==> !HoldsLock(state.rows, id, w)
      ensures (forall weather :: weather in weathers ==> Calm(weather))
              && (forall id :: id in batch ==> Supported(old(state).rows, id)) ==>
                !aborted && forall id :: id in batch ==> id in state.rows && state.rows[id].status.Processed?
    {
      ghost var calm := (forall weather :: weather in weathers ==> Calm(weather))
                        && (forall id :: id in batch ==> Supported(old(state).rows, id));
      ghost var queue := state.workers[w].queue;
      for n := 0 to |batch|
        invariant Valid() && w in state.workers
        invariant state.workers[w] == WorkerState(true, queue[n..])
        invariant forall m :: 0 <= m < n ==> !HoldsLock(state.rows, batch[m], w)
        invariant calm ==> forall m :: 0 <= m < n ==> batch[m] in state.rows && state.rows[batch[m]].status.Processed?
        invariant calm ==> forall m :: n <= m < |batch| ==>
                    HoldsLock(state.rows, batch[m], w) && Supported(state.rows, batch[m])
      {
        aborted := ProcessEvent(w, if n < |weathers| then weathers[n] else CALM);
        if aborted {
          return;
        }
      }
      return false;
    }
  }
}
