/** Whom a processed event has reached: exactly-once rows, and everyone the completing attempt read. */
module OutboxDelivery {
  import opened Ledger
  import opened Outbox
  import opened OutboxSafety
  import opened OutboxTheorems

  /** Step `k` of the run is the one in which attempt number `attempts` on event `id` read its recipients. */
  predicate ReadAt(init: System, steps: seq<Step>, k: nat, id: Id, attempts: nat, recipients: set<Id>) {
    && k < |steps| && steps[k].ReadMembers? && RunEnabled(init, steps[..k])
    && var atRead := Run(init, steps[..k]);
       && Enabled(atRead, steps[k])
       && Head(atRead, steps[k].worker).event == id && Head(atRead, steps[k].worker).attempts == attempts
       && recipients == Eligible(atRead.members, atRead.rows[id].organization,
           RolesFor(atRead.rows[id].eventType).value)
  }

  predicate WasRead(init: System, steps: seq<Step>, id: Id, attempts: nat, recipients: set<Id>) {
    exists k: nat :: k < |steps| && ReadAt(init, steps, k, id, attempts, recipients)
  }

  /** Every recipient list in use goes back to a reading step of the same attempt. */
  predicate Traced(init: System, steps: seq<Step>, s: System) {
    && (forall w, n :: w in s.workers && 0 <= n < |s.workers[w].queue|
                       && Knows(s.workers[w].queue[n]) ==>
          var c := s.workers[w].queue[n]; WasRead(init, steps, c.event, c.attempts, c.phase.recipients))
    && (forall id :: id in s.rows && s.rows[id].status.Processed? ==>
          id in s.readBy && WasRead(init, steps, id, s.rows[id].attempts, s.readBy[id]))
  }

  lemma ReadEarlier(init: System, steps: seq<Step>, more: seq<Step>, id: Id, attempts: nat, recipients: set<Id>)
    requires WasRead(init, steps, id, attempts, recipients)
    ensures WasRead(init, steps + more, id, attempts, recipients)
  {
    var k: nat :| k < |steps| && ReadAt(init, steps, k, id, attempts, recipients);
    assert (steps + more)[..k] == steps[..k];
    assert ReadAt(init, steps + more, k, id, attempts, recipients);
  }

  lemma StepTraced(init: System, steps: seq<Step>, step: Step)
    requires RunEnabled(init, steps) && Inv(Run(init, steps)) && Traced(init, steps, Run(init, steps))
    requires Enabled(Run(init, steps), step)
    ensures Traced(init, steps + [step], Next(Run(init, steps), step))
  {
    var s := Run(init, steps);
    var next := Next(s, step);
    forall w, n | w in next.workers && 0 <= n < |next.workers[w].queue|
                  && Knows(next.workers[w].queue[n])
      ensures var c := next.workers[w].queue[n]; WasRead(init, steps + [step], c.event, c.attempts, c.phase.recipients)
    {
      ClaimTraced(init, steps, step, w, n);
    }
    forall id | id in next.rows && next.rows[id].status.Processed?
      ensures id in next.readBy && WasRead(init, steps + [step], id, next.rows[id].attempts, next.readBy[id])
    {
      RowTraced(init, steps, step, id);
    }
  }

  predicate Knows(c: Claim) {
    c.phase.HasRead? || c.phase.Delivered?
  }

  /** A worker knows its recipients because it has just read them, or knew them already. */
  lemma RecipientsCameFrom(s: System, step: Step, w: WorkerId, n: nat) returns (m: nat)
    requires Enabled(s, step) && w in Next(s, step).workers && n < |Next(s, step).workers[w].queue|
    requires Knows(Next(s, step).workers[w].queue[n])
    ensures w in s.workers && m < |s.workers[w].queue|
    ensures var c, was := Next(s, step).workers[w].queue[n], s.workers[w].queue[m];
            && was.event == c.event && was.attempts == c.attempts
            && if step == ReadMembers(w) && n == 0 then
                 m == 0 && var row := s.rows[c.event];
                 c.phase.recipients == Eligible(s.members, row.organization, RolesFor(row.eventType).value)
               else Knows(was) && was.phase.recipients == c.phase.recipients
  {
    m := if step == NextEvent(w) then n + 1 else n;
  }

  lemma ClaimTraced(init: System, steps: seq<Step>, step: Step, w: WorkerId, n: nat)
    requires RunEnabled(init, steps) && Traced(init, steps, Run(init, steps)) && Enabled(Run(init, steps), step)
    requires var next := Next(Run(init, steps), step);
             w in next.workers && n < |next.workers[w].queue| && Knows(next.workers[w].queue[n])
    ensures var c := Next(Run(init, steps), step).workers[w].queue[n];
            WasRead(init, steps + [step], c.event, c.attempts, c.phase.recipients)
  {
    var s := Run(init, steps);
    var m := RecipientsCameFrom(s, step, w, n);
    var c := Next(s, step).workers[w].queue[n];
    if step == ReadMembers(w) && n == 0 {
      assert (steps + [step])[..|steps|] == steps;
      assert ReadAt(init, steps + [step], |steps|, c.event, c.attempts, c.phase.recipients);
    } else {
      var was := s.workers[w].queue[m];
      ReadEarlier(init, steps, [step], was.event, was.attempts, was.phase.recipients);
    }
  }

  /** A row is processed because its current claim has just completed it, or it was already. */
  lemma ProcessedCameFrom(s: System, step: Step, id: Id)
    requires Inv(s) && Enabled(s, step) && id in Next(s, step).rows && Next(s, step).rows[id].status.Processed?
    ensures id in s.rows && Next(s, step).rows[id].attempts == s.rows[id].attempts
    ensures s.rows[id].status.Processed? ||
            (step.Complete? && Current(s, step.worker, Head(s, step.worker)) && Head(s, step.worker).event == id
             && id in Next(s, step).readBy && Next(s, step).readBy[id] == Head(s, step.worker).phase.recipients)
    ensures s.rows[id].status.Processed? && id in s.readBy ==>
              id in Next(s, step).readBy && Next(s, step).readBy[id] == s.readBy[id]
  {
    if step.Complete? {
      FenceHolds(s, step);
    }
  }

  lemma RowTraced(init: System, steps: seq<Step>, step: Step, id: Id)
    requires RunEnabled(init, steps) && Inv(Run(init, steps)) && Traced(init, steps, Run(init, steps))
    requires Enabled(Run(init, steps), step)
    requires var next := Next(Run(init, steps), step); id in next.rows && next.rows[id].status.Processed?
    ensures var next := Next(Run(init, steps), step);
            id in next.readBy && WasRead(init, steps + [step], id, next.rows[id].attempts, next.readBy[id])
  {
    var s := Run(init, steps);
    ProcessedCameFrom(s, step, id);
    if s.rows[id].status.Processed? {
      ReadEarlier(init, steps, [step], id, s.rows[id].attempts, s.readBy[id]);
    } else {
      var c := s.workers[step.worker].queue[0];
      ReadEarlier(init, steps, [step], c.event, c.attempts, c.phase.recipients);
    }
  }

  lemma {:induction false} RunTraced(init: System, steps: seq<Step>)
    requires Inv(init) && Traced(init, [], init) && RunEnabled(init, steps)
    ensures Inv(Run(init, steps)) && Traced(init, steps, Run(init, steps))
    decreases |steps|
  {
    if steps != [] {
      var front, last := steps[..|steps| - 1], steps[|steps| - 1];
      assert steps == front + [last];
      RunPrefix(init, front, [last]);
      RunTraced(init, front);
      StepTraced(init, front, last);
      StepInv(Run(init, front), last);
      RunOne(Run(init, front), last);
      RunConcat(init, front, [last]);
    }
  }

  lemma {:induction false} RunPrefix(s: System, first: seq<Step>, second: seq<Step>)
    requires RunEnabled(s, first + second)
    ensures RunEnabled(s, first) && RunEnabled(Run(s, first), second)
    decreases |first|
  {
    if first == [] {
      assert first + second == second;
    } else {
      assert (first + second)[1..] == first[1..] + second;
      RunPrefix(Next(s, first[0]), first[1..], second);
    }
  }

  /** A processed event has notified everyone its completing attempt read. */
  lemma ProcessedTraced(now: int, config: Config, members: map<Membership, Role>, steps: seq<Step>, id: Id)
    returns (k: nat, recipients: set<Id>)
    requires PositiveConfig(config) && RunEnabled(Initial(now, config, members), steps)
    requires id in Run(Initial(now, config, members), steps).rows
             && Run(Initial(now, config, members), steps).rows[id].status.Processed?
    ensures var init := Initial(now, config, members);
            var s := Run(init, steps);
            && ReadAt(init, steps, k, id, s.rows[id].attempts, recipients)
            && AllNotified(s, id, recipients)
  {
    var init := Initial(now, config, members);
    InitialInv(now, config, members);
    RunTraced(init, steps);
    var s := Run(init, steps);
    recipients := s.readBy[id];
    k :| k < |steps| && ReadAt(init, steps, k, id, s.rows[id].attempts, recipients);
    assert AllNotified(s, id, s.readBy[id]);
  }

  // ---------------------------------------------------------------- who is notified

  /** Owners, admins and managers hear of every event the service knows; workers of all but receipts and
      fulfillments. */
  predicate Addresses(t: EventType, role: Role) {
    && t != Unsupported
    && (role != Worker || (t != PurchaseOrderReceived && t != SalesOrderFulfilled))
  }

  /** In state `s`, `user` belongs to the organization of event `id`, in a role that the event addresses. */
  predicate Concerned(s: System, id: Id, user: Id) {
    && id in s.rows && Membership(s.rows[id].organization, user) in s.members
    && Addresses(s.rows[id].eventType, s.members[Membership(s.rows[id].organization, user)])
  }

  lemma RecipientsAreConcerned(s: System, id: Id)
    requires id in s.rows && RolesFor(s.rows[id].eventType).Some?
    ensures forall u ::
              Concerned(s, id, u) <==>
                u in Eligible(s.members, s.rows[id].organization, RolesFor(s.rows[id].eventType).value)
  {
    var row := s.rows[id];
    var roles := RolesFor(row.eventType).value;
    forall role: Role ensures role in roles <==> Addresses(row.eventType, role) {
    }
    forall u ensures u in Eligible(s.members, row.organization, roles) <==> Concerned(s, id, u) {
      if u in Eligible(s.members, row.organization, roles) {
        var m :| m in s.members && m.organization == row.organization && s.members[m] in roles && m.user == u;
        assert m == Membership(row.organization, u);
      }
      if Concerned(s, id, u) {
        assert s.members[Membership(row.organization, u)] in roles;
      }
    }
  }

  /** Step `k` is the one in which attempt number `attempts` on event `id` looks up whom to notify. */
  predicate LooksUp(init: System, steps: seq<Step>, k: nat, id: Id, attempts: nat) {
    && k < |steps| && steps[k].ReadMembers? && RunEnabled(init, steps[..k])
    && var s := Run(init, steps[..k]);
       && Busy(s, steps[k].worker) && Head(s, steps[k].worker).event == id
       && Head(s, steps[k].worker).attempts == attempts
  }

  predicate ConcernedAt(init: System, steps: seq<Step>, k: nat, id: Id, user: Id) {
    k <= |steps| && RunEnabled(init, steps[..k]) && Concerned(Run(init, steps[..k]), id, user)
  }

  lemma ReadConcerned(init: System, steps: seq<Step>, k: nat, id: Id, attempts: nat, recipients: set<Id>)
    requires ReadAt(init, steps, k, id, attempts, recipients)
    ensures LooksUp(init, steps, k, id, attempts)
    ensures forall u :: u in recipients <==> ConcernedAt(init, steps, k, id, u)
  {
    RecipientsAreConcerned(Run(init, steps[..k]), id);
  }

  /** A notification that goes back to a lookup of the same event. */
  ghost predicate NoteTraced(init: System, steps: seq<Step>, note: Notification) {
    exists attempts, recipients ::
      WasRead(init, steps, note.event, attempts, recipients) && note.user in recipients
  }

  ghost predicate NotesTraced(init: System, steps: seq<Step>, notes: seq<Notification>) {
    forall n :: 0 <= n < |notes| ==> NoteTraced(init, steps, notes[n])
  }

  lemma StepNotesTraced(init: System, steps: seq<Step>, step: Step)
    requires RunEnabled(init, steps) && Traced(init, steps, Run(init, steps)) && Enabled(Run(init, steps), step)
    requires NotesTraced(init, steps, Run(init, steps).notifications)
    ensures NotesTraced(init, steps + [step], Next(Run(init, steps), step).notifications)
  {
    var s := Run(init, steps);
    var notes := Next(s, step).notifications;
    forall n | 0 <= n < |notes| ensures NoteTraced(init, steps + [step], notes[n]) {
      if n < |s.notifications| {
        assert notes[n] == s.notifications[n];
        assert NoteTraced(init, steps, notes[n]);
        var attempts, recipients :|
          WasRead(init, steps, notes[n].event, attempts, recipients) && notes[n].user in recipients;
        ReadEarlier(init, steps, [step], notes[n].event, attempts, recipients);
      } else {
        var c := s.workers[step.worker].queue[0];
        assert Knows(c);
        ReadEarlier(init, steps, [step], c.event, c.attempts, c.phase.recipients);
      }
    }
  }

  lemma {:induction false} RunNotesTraced(init: System, steps: seq<Step>)
    requires Inv(init) && Traced(init, [], init) && init.notifications == [] && RunEnabled(init, steps)
    ensures NotesTraced(init, steps, Run(init, steps).notifications)
    decreases |steps|
  {
    if steps != [] {
      var front, last := steps[..|steps| - 1], steps[|steps| - 1];
      assert steps == front + [last];
      RunPrefix(init, front, [last]);
      RunNotesTraced(init, front);
      RunTraced(init, front);
      StepNotesTraced(init, front, last);
      RunOne(Run(init, front), last);
      RunConcat(init, front, [last]);
    }
  }

  /** Some attempt on the event has looked up whom to notify when the user was concerned. */
  ghost predicate FoundByLookup(init: System, steps: seq<Step>, id: Id, user: Id) {
    exists k: nat, attempts: nat :: LooksUp(init, steps, k, id, attempts) && ConcernedAt(init, steps, k, id, user)
  }

  lemma NoteFound(init: System, steps: seq<Step>, note: Notification)
    requires NoteTraced(init, steps, note)
    ensures FoundByLookup(init, steps, note.event, note.user)
  {
    var attempts, recipients :| WasRead(init, steps, note.event, attempts, recipients) && note.user in recipients;
    var k: nat :| k < |steps| && ReadAt(init, steps, k, note.event, attempts, recipients);
    ReadConcerned(init, steps, k, note.event, attempts, recipients);
  }

  /** Repeats and crashes between delivery and completion included: nobody is notified twice of an event; whoever is
      notified belonged to the event's organization, in a role it addresses, when some attempt looked that up; and a
      processed event has notified everyone who did when its completing attempt looked it up. */
  lemma DeliveryLaw(now: int, config: Config, members: map<Membership, Role>, steps: seq<Step>)
    requires PositiveConfig(config) && RunEnabled(Initial(now, config, members), steps)
    ensures var init := Initial(now, config, members);
            var s := Run(init, steps);
            && (forall i, j :: 0 <= i < j < |s.notifications| ==> s.notifications[i] != s.notifications[j])
            && (forall n :: 0 <= n < |s.notifications| ==>
                  FoundByLookup(init, steps, s.notifications[n].event, s.notifications[n].user))
            && (forall id :: id in s.rows && s.rows[id].status.Processed? ==>
                  exists k: nat ::
                    LooksUp(init, steps, k, id, s.rows[id].attempts)
                        && forall u :: ConcernedAt(init, steps, k, id, u) ==> Notification(id, u) in s.notifications)
  {
    var init := Initial(now, config, members);
    var s := Run(init, steps);
    InitialInv(now, config, members);
    RunInv(init, steps);
    RunNotesTraced(init, steps);
    forall n | 0 <= n < |s.notifications|
      ensures FoundByLookup(init, steps, s.notifications[n].event, s.notifications[n].user)
    {
      assert NoteTraced(init, steps, s.notifications[n]);
      NoteFound(init, steps, s.notifications[n]);
    }
    forall id | id in s.rows && s.rows[id].status.Processed?
      ensures exists k: nat ::
                LooksUp(init, steps, k, id, s.rows[id].attempts)
                    && forall u :: ConcernedAt(init, steps, k, id, u) ==> Notification(id, u) in s.notifications
    {
      var k, recipients := ProcessedTraced(now, config, members, steps, id);
      ReadConcerned(init, steps, k, id, s.rows[id].attempts, recipients);
      assert forall u :: ConcernedAt(init, steps, k, id, u) ==> Notified(s.notifications, id, u);
    }
  }

  /** An event of an unknown type is never processed: each attempt fails. */
  lemma UnsupportedNeverProcessed(now: int, config: Config, members: map<Membership, Role>, steps: seq<Step>, id: Id)
    requires PositiveConfig(config) && RunEnabled(Initial(now, config, members), steps)
    requires id in Run(Initial(now, config, members), steps).rows
    requires Run(Initial(now, config, members), steps).rows[id].eventType.Unsupported?
    ensures !Run(Initial(now, config, members), steps).rows[id].status.Processed?
  {
    var init := Initial(now, config, members);
    var s := Run(init, steps);
    if s.rows[id].status.Processed? {
      var k, recipients := ProcessedTraced(now, config, members, steps, id);
      InitialInv(now, config, members);
      assert steps == steps[..k] + steps[k..];
      RunPrefix(init, steps[..k], steps[k..]);
      RunConcat(init, steps[..k], steps[k..]);
      TypesStay(Run(init, steps[..k]), steps[k..]);
    }
  }

  lemma {:induction false} TypesStay(s: System, steps: seq<Step>)
    requires RunEnabled(s, steps)
    ensures forall id :: id in s.rows ==>
              id in Run(s, steps).rows && Run(s, steps).rows[id].eventType == s.rows[id].eventType
    decreases |steps|
  {
    if steps != [] {
      var next := Next(s, steps[0]);
      assert forall id :: id in s.rows ==> id in next.rows && next.rows[id].eventType == s.rows[id].eventType;
      TypesStay(next, steps[1..]);
    }
  }
}
