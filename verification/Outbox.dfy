/** The outbox worker protocol: any number of workers, lock expiry, crashes, lost acknowledgements. */
module Outbox {
  import opened Ledger

  type WorkerId = nat

  datatype Status = Pending | Processing | Processed | DeadLetter

  datatype EventType =
    | PurchaseOrderSubmitted | PurchaseOrderReceived | PurchaseOrderCancelled
    | SalesOrderConfirmed | SalesOrderReserved | SalesOrderFulfilled | SalesOrderCancelled
    | Unsupported

  datatype Role = Owner | Admin | Manager | Worker

  datatype Row = Row(status: Status, attempts: nat, availableAt: int, lockedAt: Option<int>, lockedBy: Option<WorkerId>,
                     organization: Id, eventType: EventType)

  datatype Membership = Membership(organization: Id, user: Id)

  datatype Notification = Notification(event: Id, user: Id)

  /** Where a worker stands with one claimed event. */
  datatype Phase =
    | Claimed
    | HasRead(recipients: set<Id>)
    | Delivered(recipients: set<Id>)
    | Completed
    | Threw
    | Settled

  datatype Claim = Claim(event: Id, attempts: nat, phase: Phase)

  /** `isRunning`, and what is left of the batch the current tick claimed. */
  datatype WorkerState = WorkerState(isRunning: bool, queue: seq<Claim>)

  datatype Config = Config(maxAttempts: nat, lockTimeout: nat, batchSize: nat)

  /** `used`, `claimLog` and `readBy` record history: worker ids ever started, claims ever made, and the members read by
      the attempt that completed an event. */
  datatype System = System(
    now: int,
    config: Config,
    rows: map<Id, Row>,
    workers: map<WorkerId, WorkerState>,
    members: map<Membership, Role>,
    notifications: seq<Notification>,
    used: set<WorkerId>,
    claimLog: seq<Id>,
    readBy: map<Id, set<Id>>)

  // ---------------------------------------------------------------- createNotificationDefinition

  /** The roles each event type notifies; `None` is the unsupported-type error. */
  function RolesFor(t: EventType): Option<set<Role>> {
    match t
    case PurchaseOrderSubmitted => Some({Owner, Admin, Manager, Worker})
    case PurchaseOrderReceived => Some({Owner, Admin, Manager})
    case PurchaseOrderCancelled => Some({Owner, Admin, Manager, Worker})
    case SalesOrderConfirmed => Some({Owner, Admin, Manager, Worker})
    case SalesOrderReserved => Some({Owner, Admin, Manager, Worker})
    case SalesOrderFulfilled => Some({Owner, Admin, Manager})
    case SalesOrderCancelled => Some({Owner, Admin, Manager, Worker})
    case Unsupported => None
  }

  /** The members of an organization that hold one of the roles. */
  function Eligible(members: map<Membership, Role>, organization: Id, roles: set<Role>): set<Id> {
    set m | m in members && m.organization == organization && members[m] in roles :: m.user
  }

  // ---------------------------------------------------------------- statements

  /** The WHERE clause of the claim: due and pending, or locked for too long; and attempts left. */
  predicate Claimable(row: Row, now: int, staleBefore: int, maxAttempts: nat) {
    && ((row.status.Pending? && row.availableAt <= now)
        || (row.status.Processing? && row.lockedAt.Some? && row.lockedAt.value <= staleBefore))
    && row.attempts < maxAttempts
  }

  function ClaimedRow(row: Row, w: WorkerId, now: int): Row {
    row.(status := Processing, attempts := row.attempts + 1, lockedAt := Some(now), lockedBy := Some(w))
  }

  /** The claim statement, applied to the rows it selected. */
  function ClaimRows(rows: map<Id, Row>, ids: seq<Id>, w: WorkerId, now: int): map<Id, Row>
  {
    map id | id in rows :: if id in ids then ClaimedRow(rows[id], w, now) else rows[id]
  }

  /** The fence that both final updates carry in their WHERE clause. */
  predicate HoldsLock(rows: map<Id, Row>, id: Id, w: WorkerId) {
    id in rows && rows[id].status.Processing? && rows[id].lockedBy == Some(w)
  }

  function CompleteRow(rows: map<Id, Row>, id: Id, w: WorkerId): map<Id, Row> {
    if HoldsLock(rows, id, w)
    then rows[id := rows[id].(status := Processed, lockedAt := None, lockedBy := None)]
    else rows
  }

  function Backoff(attempts: nat): nat {
    var exponent := if attempts >= 1 then attempts - 1 else 0;
    if exponent >= 6 then 60_000 else 1_000 * Power2(exponent)
  }

  function Power2(n: nat): (p: nat)
    ensures p >= 1
  {
    if n == 0 then 1 else 2 * Power2(n - 1)
  }

  /** handleFailure: dead letter when the claim used the last attempt, else pending again after a back-off. */
  function FailRow(rows: map<Id, Row>, c: Claim, w: WorkerId, now: int, maxAttempts: nat): map<Id, Row> {
    if !HoldsLock(rows, c.event, w) then rows
    else
      var row := rows[c.event];
      rows[c.event :=
        if c.attempts >= maxAttempts
        then row.(status := DeadLetter, availableAt := now, lockedAt := None, lockedBy := None)
        else row.(status := Pending, availableAt := now + Backoff(c.attempts), lockedAt := None, lockedBy := None)]
  }

  predicate Notified(notifications: seq<Notification>, event: Id, user: Id) {
    Notification(event, user) in notifications
  }

  /** What createMany with skipDuplicates leaves behind: the old rows, then one row for each recipient not yet
      notified. */
  predicate InsertedSkippingDuplicates(before: seq<Notification>, after: seq<Notification>, event: Id,
                                      recipients: set<Id>) {
    && before <= after
    && (forall n :: |before| <= n < |after| ==>
        after[n].event == event && after[n].user in recipients && after[n] !in before)
    && (forall i, j :: |before| <= i < j < |after| ==> after[i] != after[j])
    && (forall u :: u in recipients ==> Notified(after, event, u))
  }

  // ---------------------------------------------------------------- steps

  datatype Step =
    | Advance(to: int)
    | Enqueue(event: Id, organization: Id, eventType: EventType)
    | SetMember(member: Membership, role: Role)
    | DropMember(member: Membership)
    | StartWorker(worker: WorkerId)
    | Crash(worker: WorkerId)
    | ClaimBatch(worker: WorkerId, clock: int, ids: seq<Id>)
    | ReadMembers(worker: WorkerId)
    | Deliver(worker: WorkerId, result: seq<Notification>)
    | Complete(worker: WorkerId)
    | Throw(worker: WorkerId)
    | Fail(worker: WorkerId, clock: int)
    | NextEvent(worker: WorkerId)
    | AbortTick(worker: WorkerId)
    | EndTick(worker: WorkerId)

  predicate Distinct(ids: seq<Id>) {
    forall i, j :: 0 <= i < j < |ids| ==> ids[i] != ids[j]
  }

  predicate Busy(s: System, w: WorkerId) {
    w in s.workers && s.workers[w].isRunning && s.workers[w].queue != []
  }

  function Head(s: System, w: WorkerId): Claim
    requires Busy(s, w)
  {
    s.workers[w].queue[0]
  }

  predicate Enabled(s: System, step: Step) {
    match step
    case Advance(to) => s.now <= to
    case Enqueue(id, _, _) => id !in s.rows
    case SetMember(_, _) => true
    case DropMember(_) => true
    case StartWorker(w) => w !in s.used
    case Crash(w) => w in s.workers
    case ClaimBatch(w, clock, ids) =>
      && w in s.workers && !s.workers[w].isRunning
      && Distinct(ids) && |ids| <= s.config.batchSize
      && (forall n :: 0 <= n < |ids| ==>
            ids[n] in s.rows && Claimable(s.rows[ids[n]], s.now, clock - s.config.lockTimeout, s.config.maxAttempts))
    case ReadMembers(w) =>
      Busy(s, w) && Head(s, w).phase.Claimed? && Head(s, w).event in s.rows
          && RolesFor(s.rows[Head(s, w).event].eventType).Some?
    case Deliver(w, result) =>
      && Busy(s, w) && Head(s, w).phase.HasRead?
      && InsertedSkippingDuplicates(s.notifications, result, Head(s, w).event, Head(s, w).phase.recipients)
    case Complete(w) => Busy(s, w) && Head(s, w).phase.Delivered?
    case Throw(w) => Busy(s, w) && !Head(s, w).phase.Threw? && !Head(s, w).phase.Settled?
    case Fail(w, _) => Busy(s, w) && Head(s, w).phase.Threw?
    case NextEvent(w) => Busy(s, w) && (Head(s, w).phase.Completed? || Head(s, w).phase.Settled?)
    case AbortTick(w) => w in s.workers && s.workers[w].isRunning
    case EndTick(w) => w in s.workers && s.workers[w].isRunning && s.workers[w].queue == []
  }

  function SetPhase(s: System, w: WorkerId, phase: Phase): System
    requires Busy(s, w)
  {
    var queue := s.workers[w].queue;
    s.(workers := s.workers[w := WorkerState(true, [queue[0].(phase := phase)] + queue[1..])])
  }

  /** The claims a batch returns: attempts as incremented by the statement. */
  function ClaimsFor(rows: map<Id, Row>, ids: seq<Id>): (claims: seq<Claim>)
    requires forall n :: 0 <= n < |ids| ==> ids[n] in rows
    ensures |claims| == |ids|
    ensures forall n :: 0 <= n < |ids| ==> claims[n] == Claim(ids[n], rows[ids[n]].attempts + 1, Claimed)
  {
    seq(|ids|, n requires 0 <= n < |ids| => Claim(ids[n], rows[ids[n]].attempts + 1, Claimed))
  }

  function Next(s: System, step: Step): System
    requires Enabled(s, step)
  {
    match step
    case Advance(to) => s.(now := to)
    case Enqueue(id, org, t) => s.(rows := s.rows[id := Row(Pending, 0, s.now, None, None, org, t)])
    case SetMember(m, role) => s.(members := s.members[m := role])
    case DropMember(m) => s.(members := s.members - {m})
    case StartWorker(w) => s.(workers := s.workers[w := WorkerState(false, [])], used := s.used + {w})
    case Crash(w) => s.(workers := s.workers - {w})
    case ClaimBatch(w, clock, ids) =>
      s.(rows := ClaimRows(s.rows, ids, w, s.now),
         workers := s.workers[w := WorkerState(true, ClaimsFor(s.rows, ids))],
         claimLog := s.claimLog + ids)
    case ReadMembers(w) =>
      var row := s.rows[Head(s, w).event];
      SetPhase(s, w, HasRead(Eligible(s.members, row.organization, RolesFor(row.eventType).value)))
    case Deliver(w, result) => SetPhase(s, w, Delivered(Head(s, w).phase.recipients)).(notifications := result)
    case Complete(w) =>
      var c := Head(s, w);
      SetPhase(s, w, Completed).(
        rows := CompleteRow(s.rows, c.event, w),
        readBy := if HoldsLock(s.rows, c.event, w) then s.readBy[c.event := c.phase.recipients] else s.readBy)
    case Throw(w) => SetPhase(s, w, Threw)
    case Fail(w, clock) =>
      SetPhase(s, w, Settled).(rows := FailRow(s.rows, Head(s, w), w, clock, s.config.maxAttempts))
    case NextEvent(w) => s.(workers := s.workers[w := WorkerState(true, s.workers[w].queue[1..])])
    case AbortTick(w) => s.(workers := s.workers[w := WorkerState(false, [])])
    case EndTick(w) => s.(workers := s.workers[w := WorkerState(false, [])])
  }

  function Run(s: System, steps: seq<Step>): System
    requires RunEnabled(s, steps)
    decreases |steps|
  {
    if steps == [] then s else Run(Next(s, steps[0]), steps[1..])
  }

  predicate RunEnabled(s: System, steps: seq<Step>)
    decreases |steps|
  {
    steps == [] || (Enabled(s, steps[0]) && RunEnabled(Next(s, steps[0]), steps[1..]))
  }

  /** No rows, no workers; the configuration is what getPositiveInteger yields. */
  function Initial(now: int, config: Config, members: map<Membership, Role>): System {
    System(now, config, map[], map[], members, [], {}, [], map[])
  }

  predicate PositiveConfig(config: Config) {
    config.maxAttempts > 0 && config.lockTimeout > 0 && config.batchSize > 0
  }
}
