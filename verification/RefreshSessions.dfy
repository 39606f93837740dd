/** Refresh-token rotation (the scheme of section 4.14.2 of RFC 9700): concurrent refreshes, logout, expiry and replay.
    Clocks are those of the servers making the calls and need not agree. */
module RefreshSessions {
  import opened Ledger

  const REFRESH_REUSE_GRACE_MS: int := 10_000

  datatype Session = Session(user: Id, family: Id, expiresAt: int, revokedAt: Option<int>)

  predicate Live(session: Session) {
    session.revokedAt.None?
  }

  /** What `refresh` decides once it has read the session of the presented token. */
  datatype Verdict = Unknown | FreshReplay | LateReplay | Expired | Rotatable

  function Judge(found: Option<Session>, clock: int): Verdict {
    match found
    case None => Unknown
    case Some(session) =>
      if session.revokedAt.Some? then
        if clock - session.revokedAt.value > REFRESH_REUSE_GRACE_MS then LateReplay else FreshReplay
      else if session.expiresAt <= clock then Expired
      else Rotatable
  }

  /** A call past its read: what it read, the clock it took then, and what it will do next. A family revocation is one
      statement, but it works on the rows that were there when it started: `Killing` keeps that snapshot. */
  datatype Call =
    | Rotating(session: Id, read: Session, clock: int)
    | Expiring(session: Id, clock: int)
    | Replaying(family: Id)
    | Killing(family: Id, snapshot: set<Id>)

  /** `rotations` is history: which session was replaced by which. */
  datatype System = System(sessions: map<Id, Session>, calls: map<Id, Call>, rotations: seq<(Id, Id)>)

  datatype Step =
    | Login(session: Id, user: Id, family: Id, expiresAt: int)
    | Read(call: Id, token: Id, clock: int)
    | Rotate(call: Id, successor: Id)
    | Expire(call: Id)
    | StartKill(call: Id)
    | FinishKill(call: Id, clock: int)
    | Logout(token: Id, clock: int)
    | Drop(call: Id)

  const EMPTY_SYSTEM := System(map[], map[], [])

  function Find(s: System, token: Id): Option<Session> {
    if token in s.sessions then Some(s.sessions[token]) else None
  }

  /** Random session ids, token hashes, family ids and call ids are new. */
  predicate Enabled(s: System, step: Step) {
    match step
    case Login(id, _, family, _) => id !in s.sessions && forall other :: other in s.sessions ==>
        s.sessions[other].family != family
    case Read(call, _, _) => call !in s.calls
    case Rotate(call, successor) => call in s.calls && s.calls[call].Rotating? && successor !in s.sessions
    case Expire(call) => call in s.calls && s.calls[call].Expiring?
    case StartKill(call) => call in s.calls && s.calls[call].Replaying?
    case FinishKill(call, _) => call in s.calls && s.calls[call].Killing?
    case Logout(_, _) => true
    case Drop(call) => call in s.calls
  }

  /** updateMany with `revokedAt: null` in its WHERE clause. */
  function Revoke(sessions: map<Id, Session>, ids: set<Id>, clock: int): map<Id, Session> {
    map id | id in sessions ::
      if id in ids && Live(sessions[id]) then sessions[id].(revokedAt := Some(clock)) else sessions[id]
  }

  function LiveIn(sessions: map<Id, Session>, family: Id): set<Id> {
    set id | id in sessions && sessions[id].family == family && Live(sessions[id])
  }

  /** The compare-and-set and the insert of the rotation, one transaction. */
  function RotateSession(s: System, c: Call, successor: Id): System
    requires c.Rotating?
  {
    if c.session in s.sessions && Live(s.sessions[c.session]) && s.sessions[c.session].expiresAt > c.clock then
      s.(sessions := Revoke(s.sessions, {c.session}, c.clock)
                       [successor := Session(c.read.user, c.read.family, c.read.expiresAt, None)],
         rotations := s.rotations + [(c.session, successor)])
    else s
  }

  function ReadSession(s: System, call: Id, token: Id, clock: int): System {
    match Judge(Find(s, token), clock)
    case Unknown => s
    case FreshReplay => s
    case LateReplay => s.(calls := s.calls[call := Replaying(s.sessions[token].family)])
    case Expired => s.(calls := s.calls[call := Expiring(token, clock)])
    case Rotatable => s.(calls := s.calls[call := Rotating(token, s.sessions[token], clock)])
  }

  function Next(s: System, step: Step): System
    requires Enabled(s, step)
  {
    match step
    case Login(id, user, family, expiresAt) => s.(sessions := s.sessions[id := Session(user, family, expiresAt, None)])
    case Read(call, token, clock) => ReadSession(s, call, token, clock)
    case Rotate(call, successor) => RotateSession(s, s.calls[call], successor).(calls := s.calls - {call})
    case Expire(call) =>
      s.(sessions := Revoke(s.sessions, {s.calls[call].session}, s.calls[call].clock), calls := s.calls - {call})
    case StartKill(call) =>
      var family := s.calls[call].family;
      s.(calls := s.calls[call := Killing(family, LiveIn(s.sessions, family))])
    case FinishKill(call, clock) =>
      s.(sessions := Revoke(s.sessions, s.calls[call].snapshot, clock), calls := s.calls - {call})
    case Logout(token, clock) => s.(sessions := Revoke(s.sessions, {token}, clock))
    case Drop(call) => s.(calls := s.calls - {call})
  }

  predicate RunEnabled(s: System, steps: seq<Step>)
    decreases |steps|
  {
    steps == [] || (Enabled(s, steps[0]) && RunEnabled(Next(s, steps[0]), steps[1..]))
  }

  function Run(s: System, steps: seq<Step>): System
    requires RunEnabled(s, steps)
    decreases |steps|
  {
    if steps == [] then s else Run(Next(s, steps[0]), steps[1..])
  }
}
