/** The session part of the authentication service, with other calls running between its read and its commit. */
module AuthService {
  import opened Ledger
  import opened RefreshSessions
  import opened RefreshSafety

  datatype Answer = Tokens(session: Id) | InvalidToken | TokenExpired | TokenAlreadyUsed

  /** Steps of the given call. */
  predicate Of(step: Step, call: Id) {
    match step
    case Login(_, _, _, _) => false
    case Logout(_, _) => false
    case _ => step.call == call
  }

  predicate Ran(before: System, trace: seq<Step>, after: System) {
    RunEnabled(before, trace) && Run(before, trace) == after
  }

  lemma {:induction false} RanThen(s: System, trace: seq<Step>, t: System, step: Step)
    requires Ran(s, trace, t) && Enabled(t, step)
    ensures Ran(s, trace + [step], Next(t, step))
    decreases |trace|
  {
    if trace == [] {
      assert Run(Next(t, step), []) == Next(t, step);
    } else {
      assert (trace + [step])[1..] == trace[1..] + [step];
      RanThen(Next(s, trace[0]), trace[1..], t, step);
    }
  }

  /** From step `n` on, the call that reads there takes no other step: it changes no session itself. */
  predicate OnlyReads(trace: seq<Step>, n: nat, read: Step)
    requires read.Read?
  {
    n < |trace| && trace[n] == read && forall m :: n < m < |trace| ==> !Of(trace[m], read.call)
  }

  /** What a family revocation leaves, given the states in which it started and in which it was about to end. */
  ghost predicate Revocation(started: System, finishing: System, after: System, family: Id) {
    if RotatedBetween(started, finishing, family) then
      LiveIn(after.sessions, family) == LiveIn(finishing.sessions, family)
    else
      Dead(after, family)
  }

  /** A session as it was, but revoked at `time`. */
  function RevokedAt(session: Session, time: int): Session {
    Session(session.user, session.family, session.expiresAt, Some(time))
  }

  /** Every session of the family that was not revoked has been, at `time`; no other session has changed. */
  ghost predicate FamilyRevoked(before: map<Id, Session>, after: map<Id, Session>, family: Id, time: int) {
    && after.Keys == before.Keys
    && forall id :: id in before ==>
        after[id] == if before[id].family == family && before[id].revokedAt.None? then RevokedAt(before[id], time)
                     else before[id]
  }

  /** Random ids: any that is not taken. */
  method NewId(taken: set<Id>) returns (id: Id)
    ensures id !in taken
  {
    ghost var bound := UnusedId(taken);
    assert bound !in taken;
    id :| id !in taken;
  }

  class Service {
    var store: System
    ghost var trace: seq<Step>

    /** The store is reachable. */
    ghost predicate Valid()
      reads this
    {
      Ran(EMPTY_SYSTEM, trace, store)
    }

    constructor ()
      ensures Valid() && store == EMPTY_SYSTEM
    {
      store, trace := EMPTY_SYSTEM, [];
    }

    method Do(step: Step)
      requires Valid() && Enabled(store, step)
      modifies this
      ensures Valid() && store == Next(old(store), step) && trace == old(trace) + [step]
      ensures Evolved(old(store), store) && old(store).rotations <= store.rotations
    {
      RanThen(EMPTY_SYSTEM, trace, store, step);
      StepEvolves(store, step);
      store, trace := Next(store, step), trace + [step];
    }

    /** One step of another call. */
    method DoOther(call: Id, step: Step)
      requires Valid() && Enabled(store, step) && !Of(step, call)
      modifies this
      ensures Valid() && store == Next(old(store), step) && trace == old(trace) + [step]
      ensures Evolved(old(store), store) && old(store).rotations <= store.rotations
      ensures call in store.calls <==> call in old(store).calls
      ensures call in store.calls ==> store.calls[call] == old(store).calls[call]
    {
      Do(step);
    }

    /** Whatever other calls do meanwhile; they cannot touch the call in hand. */
    method Others(call: Id, steps: seq<Step>) returns (ghost taken: seq<Step>)
      requires Valid()
      modifies this
      ensures Valid() && Evolved(old(store), store) && old(store).rotations <= store.rotations
      ensures call in store.calls <==> call in old(store).calls
      ensures call in store.calls ==> store.calls[call] == old(store).calls[call]
      ensures trace == old(trace) + taken && Ran(old(store), taken, store)
      ensures forall n :: 0 <= n < |taken| ==> !Of(taken[n], call)
      ensures steps == [] ==> store == old(store) && taken == []
    {
      taken := [];
      for n := 0 to |steps|
        invariant n == 0 ==> store == old(store) && taken == []
        invariant Valid() && Evolved(old(store), store) && old(store).rotations <= store.rotations
        invariant call in store.calls <==> call in old(store).calls
        invariant call in store.calls ==> store.calls[call] == old(store).calls[call]
        invariant trace == old(trace) + taken && Ran(old(store), taken, store)
        invariant forall m :: 0 <= m < |taken| ==> !Of(taken[m], call)
      {
        if !Of(steps[n], call) && Enabled(store, steps[n]) {
          RanThen(old(store), taken, store, steps[n]);
          taken := taken + [steps[n]];
          DoOther(call, steps[n]);
        }
      }
    }

    method CreateFreshSession(user: Id, expiresAt: int) returns (session: Id)
      requires Valid()
      modifies this
      ensures Valid() && session !in old(store).sessions
      ensures exists family ::
                && (forall id :: id in old(store).sessions ==> old(store).sessions[id].family != family)
                && store == old(store).(
                     sessions := old(store).sessions[session := Session(user, family, expiresAt, None)])
    {
      var families := set id | id in store.sessions :: store.sessions[id].family;
      session := NewId(store.sessions.Keys);
      var family := NewId(families);
      assert forall id :: id in store.sessions ==> store.sessions[id].family in families;
      Do(Login(session, user, family, expiresAt));
    }

    /** `refresh`: read, decide, then compare-and-set. `between` is what others do before the commit, `during` what they
        do while a family revocation runs. Tokens are handed out only when this call itself has rotated the session.
        A replay within ten seconds leaves every session to the others; a later one revokes the family, unless a
        rotation gets into its `window`, from when the revocation starts to just before it ends. */
    method Refresh(call: Id, token: Id, clock: int, later: int, between: seq<Step>, during: seq<Step>)
      returns (answer: Answer, ghost window: (System, System))
      requires Valid() && call !in store.calls
      modifies this
      ensures Valid() && call !in store.calls
      ensures answer.Tokens? ==>
                && token in old(store).sessions && Live(old(store).sessions[token])
                && (exists n ::
                      |old(store).rotations| <= n < |store.rotations| && store.rotations[n] == (token, answer.session))
                && answer.session in store.sessions
                && store.sessions[answer.session] == old(store).sessions[token]
      ensures answer.TokenExpired? || answer.TokenAlreadyUsed? ==>
                token in store.sessions && !Live(store.sessions[token])
      ensures answer.InvalidToken? <==>
                token !in old(store).sessions || old(store).sessions[token].revokedAt.Some?
      ensures answer.TokenExpired? <==>
                && token in old(store).sessions && old(store).sessions[token].revokedAt.None?
                && old(store).sessions[token].expiresAt <= clock
      ensures answer.TokenExpired? && between == [] ==>
                && store.sessions.Keys == old(store).sessions.Keys
                && forall id :: id in store.sessions ==>
                    store.sessions[id]
                    == if id == token then RevokedAt(old(store).sessions[id], clock) else old(store).sessions[id]
      ensures token in old(store).sessions && old(store).sessions[token].revokedAt.None?
              && clock < old(store).sessions[token].expiresAt && between == [] ==>
                && answer.Tokens? && answer.session !in old(store).sessions
                && store.sessions == old(store).sessions[token := RevokedAt(old(store).sessions[token], clock)]
                                                        [answer.session := old(store).sessions[token]]
      ensures (token !in old(store).sessions
               || (old(store).sessions[token].revokedAt.Some?
                   && clock - old(store).sessions[token].revokedAt.value <= 10_000)) ==>
                && OnlyReads(trace, |old(trace)|, Read(call, token, clock))
                && (between == [] ==> store.sessions == old(store).sessions)
      ensures token in old(store).sessions && old(store).sessions[token].revokedAt.Some?
              && clock - old(store).sessions[token].revokedAt.value > 10_000 ==>
                && Evolved(old(store), window.0)
                && Revocation(window.0, window.1, store, old(store).sessions[token].family)
                && (between == [] && during == [] ==>
                    FamilyRevoked(old(store).sessions, store.sessions, old(store).sessions[token].family, later))
    {
      window := (store, store);
      var verdict := Judge(Find(store, token), clock);
      Do(Read(call, token, clock));
      ghost var _ := Others(call, between);
      match verdict {
        case Unknown => answer := InvalidToken;
        case FreshReplay => answer := InvalidToken;
        case LateReplay =>
          window := RevokeFamily(call, later, during);
          answer := InvalidToken;
        case Expired =>
          Do(Expire(call));
          answer := TokenExpired;
        case Rotatable =>
          var successor := NewId(store.sessions.Keys);
          answer := Commit(call, successor);
      }
    }

    /** The family-wide update, from its snapshot to its end. */
    method RevokeFamily(call: Id, clock: int, during: seq<Step>) returns (ghost window: (System, System))
      requires Valid() && call in store.calls && store.calls[call].Replaying?
      modifies this
      ensures Valid() && call !in store.calls && window.0 == old(store)
      ensures Evolved(old(store), store) && old(store).rotations <= store.rotations
      ensures Revocation(window.0, window.1, store, old(store).calls[call].family)
      ensures during == [] ==>
                FamilyRevoked(old(store).sessions, store.sessions, old(store).calls[call].family, clock)
    {
      RunInv(EMPTY_SYSTEM, trace);
      ghost var started := store;
      Do(StartKill(call));
      ghost var taken := Others(call, during);
      window := (started, store);
      RevocationWindow(started, call, taken, clock);
      Do(FinishKill(call, clock));
    }

    /** The transaction: the compare-and-set must hit exactly one row. */
    method Commit(call: Id, successor: Id) returns (answer: Answer)
      requires Valid() && call in store.calls && store.calls[call].Rotating? && successor !in store.sessions
      modifies this
      ensures Valid() && store.calls == old(store).calls - {call}
      ensures Evolved(old(store), store) && old(store).rotations <= store.rotations
      ensures var c := old(store).calls[call];
              if answer == Tokens(successor) then
                && |store.rotations| == |old(store).rotations| + 1
                && store.rotations[|old(store).rotations|] == (c.session, successor)
                && successor in store.sessions
                && store.sessions[successor] == Session(c.read.user, c.read.family, c.read.expiresAt, None)
                && c.session in old(store).sessions
                && store.sessions
                   == old(store).sessions[c.session := RevokedAt(old(store).sessions[c.session], c.clock)]
                                         [successor := store.sessions[successor]]
              else
                && answer == TokenAlreadyUsed && store.sessions == old(store).sessions
                && c.session in store.sessions && !Live(store.sessions[c.session])
    {
      RunInv(EMPTY_SYSTEM, trace);
      var c := store.calls[call];
      assert CallOk(store, c);
      var unexpired := c.session in store.sessions && store.sessions[c.session].expiresAt > c.clock;
      var count := if unexpired && Live(store.sessions[c.session]) then 1 else 0;
      Do(Rotate(call, successor));
      answer := if count != 1 then TokenAlreadyUsed else Tokens(successor);
    }

    method Logout(token: Id, clock: int)
      requires Valid()
      modifies this
      ensures Valid() && store == old(store).(sessions := store.sessions)
              && store.sessions.Keys == old(store).sessions.Keys
      ensures token in store.sessions ==>
                store.sessions[token]
                == if old(store).sessions[token].revokedAt.Some? then old(store).sessions[token]
                   else RevokedAt(old(store).sessions[token], clock)
      ensures forall id :: id in store.sessions && id != token ==> store.sessions[id] == old(store).sessions[id]
    {
      Do(RefreshSessions.Logout(token, clock));
    }
  }
}
