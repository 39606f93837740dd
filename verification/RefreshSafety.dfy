/** What refresh-token families guarantee in every interleaving. */
module RefreshSafety {
  import opened Ledger
  import opened RefreshSessions

  predicate OneLive(s: System) {
    forall a, b ::
      (a in s.sessions && b in s.sessions && s.sessions[a].family == s.sessions[b].family
       && Live(s.sessions[a]) && Live(s.sessions[b])) ==> a == b
  }

  predicate FamiliesAgree(s: System) {
    forall a, b :: a in s.sessions && b in s.sessions && s.sessions[a].family == s.sessions[b].family ==>
      s.sessions[a].user == s.sessions[b].user && s.sessions[a].expiresAt == s.sessions[b].expiresAt
  }

  /** Only `revokedAt` has changed, and only from null. */
  predicate Later(was: Session, session: Session) {
    session == was.(revokedAt := session.revokedAt) && (was.revokedAt.Some? ==> session == was)
  }

  predicate Known(s: System, family: Id) {
    exists id :: id in s.sessions && s.sessions[id].family == family
  }

  predicate CallOk(s: System, c: Call) {
    match c
    case Rotating(id, read, clock) => id in s.sessions && Later(read, s.sessions[id]) && read.expiresAt > clock
    case Expiring(id, _) => id in s.sessions
    case Replaying(family) => Known(s, family)
    case Killing(family, snapshot) =>
      Known(s, family) && forall id :: id in snapshot ==> id in s.sessions && s.sessions[id].family == family
  }

  predicate CallsOk(s: System) {
    forall call :: call in s.calls ==> CallOk(s, s.calls[call])
  }

  /** Rotations form chains inside families: nothing is replaced twice, nothing replaces two sessions, and what has been
      replaced is revoked, at a time before the expiry that the family shares. */
  predicate RotationsOk(s: System) {
    && (forall i, j :: 0 <= i < j < |s.rotations| ==>
          s.rotations[i].0 != s.rotations[j].0 && s.rotations[i].1 != s.rotations[j].1)
    && (forall i :: 0 <= i < |s.rotations| ==>
          var (replaced, successor) := s.rotations[i];
          && replaced in s.sessions && successor in s.sessions && replaced != successor
          && !Live(s.sessions[replaced]) && s.sessions[replaced].revokedAt.value < s.sessions[replaced].expiresAt
          && s.sessions[replaced].family == s.sessions[successor].family)
  }

  predicate Inv(s: System) {
    OneLive(s) && FamiliesAgree(s) && CallsOk(s) && RotationsOk(s)
  }

  /** Sessions are never deleted; a revoked session stays exactly as it is. */
  predicate Evolved(s: System, t: System) {
    forall id :: id in s.sessions ==> id in t.sessions && Later(s.sessions[id], t.sessions[id])
  }

  lemma StepEvolves(s: System, step: Step)
    requires Enabled(s, step)
    ensures Evolved(s, Next(s, step)) && s.rotations <= Next(s, step).rotations
  {
  }

  lemma StaysKnown(s: System, t: System, family: Id)
    requires Known(s, family) && Evolved(s, t)
    ensures Known(t, family)
  {
    var id :| id in s.sessions && s.sessions[id].family == family;
    assert id in t.sessions && t.sessions[id].family == family;
  }

  lemma CallStaysOk(s: System, t: System, c: Call)
    requires CallOk(s, c) && Evolved(s, t)
    ensures CallOk(t, c)
  {
    if c.Replaying? || c.Killing? {
      StaysKnown(s, t, c.family);
    }
  }

  /** A step that creates no session, only revokes some, and whose calls in flight are accounted for. */
  lemma RevokingKeeps(s: System, next: System, ids: set<Id>, clock: int)
    requires Inv(s) && next.sessions == Revoke(s.sessions, ids, clock) && next.rotations == s.rotations
    requires forall call :: call in next.calls ==>
               (call in s.calls && next.calls[call] == s.calls[call]) || CallOk(s, next.calls[call])
    ensures Inv(next)
  {
    assert next.sessions.Keys == s.sessions.Keys;
    assert Evolved(s, next);
    forall call | call in next.calls ensures CallOk(next, next.calls[call]) {
      CallStaysOk(s, next, next.calls[call]);
    }
  }

  lemma QuietKeeps(s: System, next: System)
    requires Inv(s) && next.sessions == s.sessions && next.rotations == s.rotations
    requires forall call :: call in next.calls ==>
               (call in s.calls && next.calls[call] == s.calls[call]) || CallOk(s, next.calls[call])
    ensures Inv(next)
  {
    assert Revoke(s.sessions, {}, 0) == s.sessions;
    RevokingKeeps(s, next, {}, 0);
  }

  lemma CreatingKeepsCalls(s: System, next: System)
    requires CallsOk(s) && Evolved(s, next)
    requires forall call :: call in next.calls ==> call in s.calls && next.calls[call] == s.calls[call]
    ensures CallsOk(next)
  {
    forall call | call in next.calls ensures CallOk(next, next.calls[call]) {
      CallStaysOk(s, next, s.calls[call]);
    }
  }

  lemma LoginKeeps(s: System, id: Id, user: Id, family: Id, expiresAt: int)
    requires Inv(s) && Enabled(s, Login(id, user, family, expiresAt))
    ensures Inv(Next(s, Login(id, user, family, expiresAt)))
  {
    var next := Next(s, Login(id, user, family, expiresAt));
    CreatingKeepsCalls(s, next);
    assert OneLive(next) && FamiliesAgree(next) && RotationsOk(next);
  }

  /** Session `id` has been revoked and replaced by `successor`, and nothing else has happened to any session. */
  predicate HandedOver(s: System, next: System, id: Id, successor: Id) {
    && id in s.sessions && id in next.sessions && !Live(next.sessions[id]) && successor !in s.sessions
    && next.sessions == s.sessions[id := next.sessions[id]][successor := s.sessions[id]]
    && next.rotations == s.rotations + [(id, successor)]
  }

  /** The compare-and-set fails and changes no session, when the session is no longer live; or one successor takes over
      from it: same user, same family, same expiry. */
  lemma RotationKeeps(s: System, call: Id, successor: Id)
    requires Inv(s) && Enabled(s, Rotate(call, successor))
    ensures Inv(Next(s, Rotate(call, successor)))
    ensures var c, next := s.calls[call], Next(s, Rotate(call, successor));
            if Live(s.sessions[c.session]) then HandedOver(s, next, c.session, successor)
            else next == s.(calls := s.calls - {call})
  {
    var c := s.calls[call];
    var next := Next(s, Rotate(call, successor));
    assert CallOk(s, c);
    RotationOutcome(s, call, successor);
    if Live(s.sessions[c.session]) {
      StepEvolves(s, Rotate(call, successor));
      CreatingKeepsCalls(s, next);
      SuccessorFits(s, next, c.session, successor);
    } else {
      QuietKeeps(s, next);
    }
  }

  lemma RotationOutcome(s: System, call: Id, successor: Id)
    requires CallsOk(s) && Enabled(s, Rotate(call, successor))
    ensures var c, next := s.calls[call], Next(s, Rotate(call, successor));
            && c.session in s.sessions
            && (if Live(s.sessions[c.session])
                then
                  && HandedOver(s, next, c.session, successor)
                  && next.sessions[c.session].revokedAt.value < s.sessions[c.session].expiresAt
                else next == s.(calls := s.calls - {call}))
  {
    assert CallOk(s, s.calls[call]);
  }

  lemma SuccessorFits(s: System, next: System, id: Id, successor: Id)
    requires OneLive(s) && FamiliesAgree(s) && RotationsOk(s) && Evolved(s, next)
    requires id in s.sessions && Live(s.sessions[id]) && !Live(next.sessions[id])
    requires next.sessions[id].revokedAt.value < s.sessions[id].expiresAt
    requires successor !in s.sessions && next.sessions.Keys == s.sessions.Keys + {successor}
    requires next.sessions[successor] == s.sessions[id]
    requires next.rotations == s.rotations + [(id, successor)]
    ensures OneLive(next) && FamiliesAgree(next) && RotationsOk(next)
  {
    assert forall a :: a in next.sessions ==> a == successor || a in s.sessions;
    assert forall a :: a in s.sessions && Live(next.sessions[a]) ==> Live(s.sessions[a]) && a != id;
  }

  lemma StepInv(s: System, step: Step)
    requires Inv(s) && Enabled(s, step)
    ensures Inv(Next(s, step))
  {
    match step
    case Login(id, user, family, expiresAt) => LoginKeeps(s, id, user, family, expiresAt);
    case Read(_, _, _) => QuietKeeps(s, Next(s, step));
    case Rotate(call, successor) => RotationKeeps(s, call, successor);
    case Expire(call) => RevokingKeeps(s, Next(s, step), {s.calls[call].session}, s.calls[call].clock);
    case StartKill(_) => QuietKeeps(s, Next(s, step));
    case FinishKill(call, clock) => RevokingKeeps(s, Next(s, step), s.calls[call].snapshot, clock);
    case Logout(token, clock) => RevokingKeeps(s, Next(s, step), {token}, clock);
    case Drop(_) => QuietKeeps(s, Next(s, step));
  }

  lemma {:induction false} RunInv(s: System, steps: seq<Step>)
    requires Inv(s) && RunEnabled(s, steps)
    ensures Inv(Run(s, steps)) && Evolved(s, Run(s, steps)) && s.rotations <= Run(s, steps).rotations
    decreases |steps|
  {
    if steps != [] {
      StepInv(s, steps[0]);
      StepEvolves(s, steps[0]);
      RunInv(Next(s, steps[0]), steps[1..]);
    }
  }

  /** In every reachable state a family has at most one unrevoked session, no session has been rotated twice, a rotated
      session is revoked, and all sessions of a family have one user and one expiry. */
  lemma FamilyLaw(steps: seq<Step>)
    requires RunEnabled(EMPTY_SYSTEM, steps)
    ensures var s := Run(EMPTY_SYSTEM, steps); OneLive(s) && FamiliesAgree(s) && RotationsOk(s)
  {
    RunInv(EMPTY_SYSTEM, steps);
  }

  // ---------------------------------------------------------------- dead families

  /** A family that exists and has no unrevoked session. */
  predicate Dead(s: System, family: Id) {
    Known(s, family) && LiveIn(s.sessions, family) == {}
  }

  lemma StepStaysDead(s: System, step: Step, family: Id)
    requires Inv(s) && Enabled(s, step) && Dead(s, family)
    ensures Dead(Next(s, step), family)
  {
    StepEvolves(s, step);
    StaysKnown(s, Next(s, step), family);
    if step.Rotate? {
      var c := s.calls[step.call];
      assert CallOk(s, c) && c.session !in LiveIn(s.sessions, family);
    }
    forall id | id in s.sessions ensures id !in LiveIn(Next(s, step).sessions, family) {
      assert id !in LiveIn(s.sessions, family);
    }
  }

  /** Nothing revives a dead family: not even a refresh that had read its session before it died. */
  lemma {:induction false} DeadForGood(s: System, steps: seq<Step>, family: Id)
    requires Inv(s) && RunEnabled(s, steps) && Dead(s, family)
    ensures Dead(Run(s, steps), family)
    decreases |steps|
  {
    if steps != [] {
      StepStaysDead(s, steps[0], family);
      StepInv(s, steps[0]);
      DeadForGood(Next(s, steps[0]), steps[1..], family);
    }
  }

  // ---------------------------------------------------------------- replay

  /** Some session of the family has been rotated between the two states. */
  predicate RotatedBetween(s: System, t: System, family: Id) {
    exists n :: |s.rotations| <= n < |t.rotations| && t.rotations[n].0 in t.sessions
                && t.sessions[t.rotations[n].0].family == family
  }

  /** One step: a session that stays live rules out a rotation in its family, and without one the family gets no
      member. */
  lemma StepWindow(s: System, step: Step, family: Id)
    requires Inv(s) && Enabled(s, step) && Known(s, family)
    ensures var t := Next(s, step);
            && (RotatedBetween(s, t, family) ==>
                  forall id :: id in s.sessions && s.sessions[id].family == family ==>
                      id in t.sessions && !Live(t.sessions[id]))
            && (!RotatedBetween(s, t, family) ==>
                  forall id :: id in t.sessions && t.sessions[id].family == family ==> id in s.sessions)
  {
    var t := Next(s, step);
    StepEvolves(s, step);
    if step.Rotate? && t.sessions != s.sessions {
      var c := s.calls[step.call];
      assert CallOk(s, c);
      assert t.rotations[|s.rotations|] == (c.session, step.successor);
      if s.sessions[c.session].family == family {
        assert RotatedBetween(s, t, family);
      }
    }
  }

  lemma {:induction false} Window(s: System, steps: seq<Step>, family: Id)
    requires Inv(s) && RunEnabled(s, steps) && Known(s, family)
    ensures var t := Run(s, steps);
            && (RotatedBetween(s, t, family) ==>
                  forall id :: id in s.sessions && s.sessions[id].family == family ==>
                      id in t.sessions && !Live(t.sessions[id]))
            && (!RotatedBetween(s, t, family) ==>
                  forall id :: id in t.sessions && t.sessions[id].family == family ==> id in s.sessions)
    decreases |steps|
  {
    if steps != [] {
      var next := Next(s, steps[0]);
      StepInv(s, steps[0]);
      StepEvolves(s, steps[0]);
      StaysKnown(s, next, family);
      RunInv(next, steps[1..]);
      StepWindow(s, steps[0], family);
      Window(next, steps[1..], family);
      WindowsJoin(s, next, Run(next, steps[1..]), family);
    }
  }

  lemma WindowsJoin(s: System, m: System, t: System, family: Id)
    requires Evolved(s, m) && Evolved(m, t) && s.rotations <= m.rotations <= t.rotations && RotationsOk(m)
    ensures RotatedBetween(s, t, family) <==> RotatedBetween(s, m, family) || RotatedBetween(m, t, family)
  {
    if RotatedBetween(s, m, family) {
      var n :| |s.rotations| <= n < |m.rotations| && m.rotations[n].0 in m.sessions
               && m.sessions[m.rotations[n].0].family == family;
      assert t.rotations[n] == m.rotations[n];
    }
    if RotatedBetween(s, t, family) && !RotatedBetween(m, t, family) {
      var n :| |s.rotations| <= n < |t.rotations| && t.rotations[n].0 in t.sessions
               && t.sessions[t.rotations[n].0].family == family;
      assert n < |m.rotations| && m.rotations[n] == t.rotations[n];
    }
  }

  /** A family revocation that sees the rows of state `s` and takes effect in the later state `t` leaves a session of
      the family unrevoked exactly when the family was rotated in between and has not been ended otherwise. */
  lemma RevocationWindow(s: System, call: Id, steps: seq<Step>, clock: int)
    requires Inv(s) && Enabled(s, StartKill(call)) && RunEnabled(Next(s, StartKill(call)), steps)
    requires var t := Run(Next(s, StartKill(call)), steps);
             call in t.calls && t.calls[call] == Next(s, StartKill(call)).calls[call]
    ensures var family := s.calls[call].family;
            var t := Run(Next(s, StartKill(call)), steps);
            var u := Next(t, FinishKill(call, clock));
            if RotatedBetween(s, t, family) then LiveIn(u.sessions, family) == LiveIn(t.sessions, family)
            else Dead(u, family)
  {
    var family := s.calls[call].family;
    var s1 := Next(s, StartKill(call));
    var t := Run(s1, steps);
    var u := Next(t, FinishKill(call, clock));
    assert CallOk(s, s.calls[call]);
    StepInv(s, StartKill(call));
    RunInv(s1, steps);
    StaysKnown(s, s1, family);
    Window(s1, steps, family);
    assert RotatedBetween(s, t, family) <==> RotatedBetween(s1, t, family);
    SnapshotApplied(s, t, u, call, clock);
  }

  /** What the finished revocation leaves, given what the window allows. */
  lemma SnapshotApplied(s: System, t: System, u: System, call: Id, clock: int)
    requires Evolved(s, t) && call in s.calls && s.calls[call].Replaying? && Known(s, s.calls[call].family)
    requires u.sessions == Revoke(t.sessions, LiveIn(s.sessions, s.calls[call].family), clock)
    requires var family := s.calls[call].family;
             && (RotatedBetween(s, t, family) ==>
                   forall id :: id in s.sessions && s.sessions[id].family == family ==>
                       id in t.sessions && !Live(t.sessions[id]))
             && (!RotatedBetween(s, t, family) ==>
                   forall id :: id in t.sessions && t.sessions[id].family == family ==> id in s.sessions)
    ensures var family := s.calls[call].family;
            if RotatedBetween(s, t, family) then LiveIn(u.sessions, family) == LiveIn(t.sessions, family)
            else Dead(u, family)
  {
    var family := s.calls[call].family;
    assert u.sessions.Keys == t.sessions.Keys;
    assert Evolved(t, u);
    StaysKnown(s, t, family);
    StaysKnown(t, u, family);
    forall id ensures id in LiveIn(u.sessions, family)
        <==> id in LiveIn(t.sessions, family) && id !in LiveIn(s.sessions, family) {
    }
    forall id | id in LiveIn(t.sessions, family) ensures id in s.sessions ==> id in LiveIn(s.sessions, family) {
      assert id in s.sessions ==> Later(s.sessions[id], t.sessions[id]);
    }
  }

  /** Presenting a token that is already revoked, the whole call being uninterrupted, leaves its family dead exactly
      when more than ten seconds have passed since the revocation, or it was dead before; and dead it then stays. */
  lemma ReplayLaw(s: System, call: Id, token: Id, clock: int, killClock: int, later: seq<Step>)
    requires Inv(s) && call !in s.calls && token in s.sessions && !Live(s.sessions[token])
    requires RunEnabled(Replayed(s, call, token, clock, killClock), later)
    ensures var family := s.sessions[token].family;
            var late := clock - s.sessions[token].revokedAt.value > REFRESH_REUSE_GRACE_MS;
            var after := Replayed(s, call, token, clock, killClock);
            && (Dead(after, family) <==> late || Dead(s, family))
            && (Dead(after, family) ==> Dead(Run(after, later), family))
  {
    var family := s.sessions[token].family;
    var after := Replayed(s, call, token, clock, killClock);
    var s1 := Next(s, Read(call, token, clock));
    StepInv(s, Read(call, token, clock));
    assert Known(s, family);
    if Judge(Find(s, token), clock).LateReplay? {
      RevocationWindow(s1, call, [], killClock);
      assert Run(Next(s1, StartKill(call)), []) == Next(s1, StartKill(call));
      StepInv(s1, StartKill(call));
      StepInv(Next(s1, StartKill(call)), FinishKill(call, killClock));
    }
    if Dead(after, family) {
      DeadForGood(after, later, family);
    }
  }

  function Replayed(s: System, call: Id, token: Id, clock: int, killClock: int): System
    requires call !in s.calls
  {
    var s1 := Next(s, Read(call, token, clock));
    if Judge(Find(s, token), clock).LateReplay?
    then Next(Next(s1, StartKill(call)), FinishKill(call, killClock)) else s1
  }

  /** The window is real: this run from an empty store, in which a rotation commits between the snapshot and the end of
      a late replay's revocation, leaves the family alive. */
  const SURVIVAL: seq<Step> := [
    Login(0, 7, 0, 1_000_000), Read(0, 0, 100), Rotate(0, 1),
    Read(1, 0, 20_000), Read(2, 1, 20_000), StartKill(1), Rotate(2, 2), FinishKill(1, 20_001)]

  const FIRST := Session(7, 0, 1_000_000, None)
  const ONCE_ROTATED := System(map[0 := FIRST.(revokedAt := Some(100)), 1 := FIRST], map[], [(0, 1)])
  const RACING := ONCE_ROTATED.(calls := map[1 := Replaying(0), 2 := Rotating(1, FIRST, 20_000)])

  lemma SurvivingFamily()
    ensures RunEnabled(EMPTY_SYSTEM, SURVIVAL)
    ensures 2 in LiveIn(Run(EMPTY_SYSTEM, SURVIVAL).sessions, 0)
  {
    RaceIsLost();
    RotatedOnce();
    RunStep(ONCE_ROTATED.(calls := map[1 := Replaying(0)]), SURVIVAL, 4);
    RunStep(ONCE_ROTATED, SURVIVAL, 3);
    var s1 := System(map[0 := FIRST], map[], []);
    RunStep(s1.(calls := map[0 := Rotating(0, FIRST, 100)]), SURVIVAL, 2);
    RunStep(s1, SURVIVAL, 1);
    RunStep(EMPTY_SYSTEM, SURVIVAL, 0);
    assert SURVIVAL[0..] == SURVIVAL;
  }

  lemma RotatedOnce()
    ensures var s1 := System(map[0 := FIRST], map[], []);
            var s2 := s1.(calls := map[0 := Rotating(0, FIRST, 100)]);
            && Enabled(EMPTY_SYSTEM, SURVIVAL[0]) && Next(EMPTY_SYSTEM, SURVIVAL[0]) == s1
            && Enabled(s1, SURVIVAL[1]) && Next(s1, SURVIVAL[1]) == s2
            && Enabled(s2, SURVIVAL[2]) && Next(s2, SURVIVAL[2]) == ONCE_ROTATED
            && Enabled(ONCE_ROTATED, SURVIVAL[3])
    ensures var s4 := ONCE_ROTATED.(calls := map[1 := Replaying(0)]);
            Next(ONCE_ROTATED, SURVIVAL[3]) == s4 && Enabled(s4, SURVIVAL[4]) && Next(s4, SURVIVAL[4]) == RACING
  {
  }

  lemma RaceIsLost()
    ensures RunEnabled(RACING, SURVIVAL[5..]) && 2 in LiveIn(Run(RACING, SURVIVAL[5..]).sessions, 0)
  {
    var s6 := Next(RACING, SURVIVAL[5]);
    assert LiveIn(RACING.sessions, 0) == {1};
    var s7 := Next(s6, SURVIVAL[6]);
    assert s7.sessions[2] == FIRST && s7.calls[1] == Killing(0, {1});
    var s8 := Next(s7, SURVIVAL[7]);
    assert 2 in LiveIn(s8.sessions, 0);
    assert SURVIVAL[8..] == [];
    assert Run(s8, []) == s8;
    RunStep(s7, SURVIVAL, 7);
    RunStep(s6, SURVIVAL, 6);
    RunStep(RACING, SURVIVAL, 5);
  }

  lemma RunStep(s: System, steps: seq<Step>, n: nat)
    requires n < |steps| && Enabled(s, steps[n]) && RunEnabled(Next(s, steps[n]), steps[n + 1..])
    ensures RunEnabled(s, steps[n..]) && Run(s, steps[n..]) == Run(Next(s, steps[n]), steps[n + 1..])
  {
    assert steps[n..][1..] == steps[n + 1..];
  }
}
