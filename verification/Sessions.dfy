/**
 * AuthService's refresh-token sessions under any number of concurrent logins, refreshes and logouts.
 *
 * A session's id is its position in the table of committed sessions, and its refresh token is named by
 * that id (tokens are fresh random values and their hash is injective; any other number is a token
 * that matches no row). A call runs one statement at a time, holds the row locks its open transaction
 * has taken until it commits, and may crash at any step. A disabled move changes nothing.
 */
module Sessions {
  import opened Prelude

  datatype Owner = Player(user: nat) | Admin(admin: nat)

  /** `origin` (the session this one replaced) and `caller` (the call that created it) are bookkeeping. */
  datatype Session = Session(
    owner: Owner, expires: int, revoked: bool, replacedBy: Option<nat>, origin: Option<nat>, caller: nat)

  datatype Call =
    | Login(owner: Owner)
    | Refresh(token: nat)
    | Logout(sid: nat, scope: Option<Owner>)
    | LogoutAll(user: nat)

  /** `before` counts the sessions committed when the revoking statement took its snapshot. */
  datatype Outcome =
    | LoggedIn(id: nat) | Rotated(id: nat) | Invalid | Expired | Reused(before: nat)
    | LoggedOut(count: nat) | AllLoggedOut(before: nat) | Crashed

  /**
   * `Sweep` is an `updateMany` in progress: it found `todo` live in its snapshot and visits them in any
   * order, waiting for each row's lock and looking at its latest version; `got` are the rows it took.
   */
  datatype Pc =
    | Start
    | CreateSuccessor
    | LinkOld
    | CommitRotation
    | BeginSweep
    | Sweep(before: nat, todo: set<nat>, got: set<nat>)
    | Finished(outcome: Outcome)

  datatype Proc = Proc(call: Call, pc: Pc)

  datatype State = State(sessions: seq<Session>, procs: seq<Proc>)

  /** The host clock, a new session's expiry, the row an update visits next, and whether the admin row exists. */
  datatype Env = Env(now: int, expires: int, pick: nat, adminFound: bool)

  predicate Holds(q: Proc, x: nat) {
    || (q.call.Refresh? && q.call.token == x && !q.pc.Start? && !q.pc.Finished?)
    || (q.pc.Sweep? && x in q.pc.got)
  }

  predicate Free(s: State, p: nat, x: nat) {
    forall q :: 0 <= q < |s.procs| && q != p ==> !Holds(s.procs[q], x)
  }

  /** Whose sessions the call's `updateMany` revokes. */
  function SweepOwner(s: State, c: Call): Owner {
    match c
    case Refresh(token) => if token < |s.sessions| then s.sessions[token].owner else Player(0)
    case LogoutAll(user) => Player(user)
    case Login(owner) => owner
    case Logout(_, _) => Player(0)
  }

  function LiveOf(sessions: seq<Session>, owner: Owner): set<nat> {
    set x | 0 <= x < |sessions| && sessions[x].owner == owner && !sessions[x].revoked
  }

  function Revoke(sessions: seq<Session>, got: set<nat>): seq<Session> {
    seq(|sessions|, i requires 0 <= i < |sessions| => if i in got then sessions[i].(revoked := true) else sessions[i])
  }

  function At(s: State, p: nat, pc: Pc): State
    requires p < |s.procs|
  {
    s.(procs := s.procs[p := s.procs[p].(pc := pc)])
  }

  /** SELECT ... FOR UPDATE and the branch on the row it returns. */
  function StartRefresh(s: State, p: nat, env: Env): Option<State>
    requires p < |s.procs| && s.procs[p].call.Refresh?
  {
    var t := s.procs[p].call.token;
    if t >= |s.sessions| then Some(At(s, p, Finished(Invalid)))
    else if !Free(s, p, t) then None
    else if s.sessions[t].expires < env.now then Some(At(s, p, Finished(Expired)))
    else if s.sessions[t].revoked then Some(At(s, p, BeginSweep))
    else if s.sessions[t].owner.Admin? && !env.adminFound then Some(At(s, p, Finished(Invalid)))
    else Some(At(s, p, CreateSuccessor))
  }

  function StartLogout(s: State, p: nat): Option<State>
    requires p < |s.procs| && s.procs[p].call.Logout?
  {
    var c := s.procs[p].call;
    if c.sid < |s.sessions| && !s.sessions[c.sid].revoked
        && (c.scope.None? || c.scope.value == s.sessions[c.sid].owner) then
      if !Free(s, p, c.sid) then None
      else Some(At(s.(sessions := Revoke(s.sessions, {c.sid})), p, Finished(LoggedOut(1))))
    else Some(At(s, p, Finished(LoggedOut(0))))
  }

  /** COMMIT of a rotation: the successor appears, and the old row is revoked and linked to it. */
  function Rotate(s: State, p: nat, expires: int): State
    requires p < |s.procs| && s.procs[p].call.Refresh? && s.procs[p].call.token < |s.sessions|
  {
    var t := s.procs[p].call.token;
    var id := |s.sessions|;
    var linked := s.sessions[t := s.sessions[t].(revoked := true, replacedBy := Some(id))];
    At(s.(sessions := linked + [Session(s.sessions[t].owner, expires, false, None, Some(t), p)]), p,
        Finished(Rotated(id)))
  }

  function SweepStep(s: State, p: nat, pick: nat): Option<State>
    requires p < |s.procs| && s.procs[p].pc.Sweep?
  {
    var c, w := s.procs[p].call, s.procs[p].pc;
    if w.todo == {} then
      Some(At(s.(sessions := Revoke(s.sessions, w.got)), p,
              Finished(if c.Refresh? then Reused(w.before) else AllLoggedOut(w.before))))
    else if pick !in w.todo || pick >= |s.sessions| || !Free(s, p, pick) then None
    else Some(At(s, p, Sweep(w.before, w.todo - {pick}, if s.sessions[pick].revoked then w.got else w.got + {pick})))
  }

  /** The next statement of call `p`; None when it must wait or has finished. */
  function Advance(s: State, p: nat, env: Env): Option<State>
    requires p < |s.procs|
  {
    var q := s.procs[p];
    match q.pc
    case Start =>
      (match q.call
       case Login(owner) =>
         Some(At(s.(sessions := s.sessions + [Session(owner, env.expires, false, None, None, p)]), p,
             Finished(LoggedIn(|s.sessions|))))
       case Refresh(_) => StartRefresh(s, p, env)
       case Logout(_, _) => StartLogout(s, p)
       case LogoutAll(_) => Some(At(s, p, BeginSweep)))
    case CreateSuccessor => Some(At(s, p, LinkOld))
    case LinkOld => Some(At(s, p, CommitRotation))
    case CommitRotation => if q.call.Refresh? && q.call.token < |s.sessions| then Some(Rotate(s, p, env.expires))
        else None
    case BeginSweep => Some(At(s, p, Sweep(|s.sessions|, LiveOf(s.sessions, SweepOwner(s, q.call)), {})))
    case Sweep(_, _, _) => SweepStep(s, p, env.pick)
    case Finished(_) => None
  }

  datatype Action = Request(call: Call) | Step(p: nat, env: Env) | Crash(p: nat)

  function Do(s: State, a: Action): State {
    match a
    case Request(c) => s.(procs := s.procs + [Proc(c, Start)])
    case Step(p, env) =>
      if p < |s.procs| then
        (match Advance(s, p, env)
         case None => s
         case Some(s') => s')
      else s
    case Crash(p) => if p < |s.procs| && !s.procs[p].pc.Finished? then At(s, p, Finished(Crashed)) else s
  }

  function Run(s: State, actions: seq<Action>): State
    decreases |actions|
  {
    if actions == [] then s else Run(Do(s, actions[0]), actions[1..])
  }

  const INIT: State := State([], [])

  // ---- the invariant ----

  /**
   * `replacedBy` and `origin` are inverse, point forward in time, stay with one owner, and a replaced session
   * is revoked.
   */
  ghost predicate LinksOk(sessions: seq<Session>) {
    && (forall a :: 0 <= a < |sessions| && sessions[a].replacedBy.Some? ==>
          var b := sessions[a].replacedBy.value;
          a < b < |sessions| && sessions[b].origin == Some(a) && sessions[b].owner == sessions[a].owner
              && sessions[a].revoked)
    && (forall b :: 0 <= b < |sessions| && sessions[b].origin.Some? ==>
          var a := sessions[b].origin.value;
          a < b && sessions[a].replacedBy == Some(b))
  }

  /** Every session of `owner` committed before the snapshot is revoked, or is still to be dealt with. */
  ghost predicate SweepOk(sessions: seq<Session>, owner: Owner, before: nat, pending: set<nat>) {
    && before <= |sessions|
    && forall x :: 0 <= x < before && sessions[x].owner == owner && !sessions[x].revoked ==> x in pending
  }

  /** A revoked token's successor, if it has one, was committed before the snapshot. */
  ghost predicate SuccessorSeen(s: State, c: Call, before: nat) {
    c.Refresh? ==> c.token < |s.sessions| && s.sessions[c.token].revoked
                   && (s.sessions[c.token].replacedBy.Some? ==> s.sessions[c.token].replacedBy.value < before)
  }

  ghost predicate ProcOk(s: State, p: nat, q: Proc) {
    match q.pc
    case Start => true
    case CreateSuccessor => q.call.Refresh? && q.call.token < |s.sessions| && !s.sessions[q.call.token].revoked
    case LinkOld => q.call.Refresh? && q.call.token < |s.sessions| && !s.sessions[q.call.token].revoked
    case CommitRotation => q.call.Refresh? && q.call.token < |s.sessions| && !s.sessions[q.call.token].revoked
    case BeginSweep => (q.call.Refresh? || q.call.LogoutAll?) && SuccessorSeen(s, q.call, |s.sessions|)
    case Sweep(before, todo, got) =>
      && (q.call.Refresh? || q.call.LogoutAll?)
      && SweepOk(s.sessions, SweepOwner(s, q.call), before, todo + got)
      && SuccessorSeen(s, q.call, before)
      && (forall x :: x in got ==> x < before && s.sessions[x].owner == SweepOwner(s, q.call) && !s.sessions[x].revoked)
      && (forall x :: x in todo ==> x < before && s.sessions[x].owner == SweepOwner(s, q.call))
    case Finished(o) => OutcomeOk(s, p, q.call, o)
  }

  ghost predicate OutcomeOk(s: State, p: nat, c: Call, o: Outcome) {
    match o
    case Rotated(id) => c.Refresh? && id < |s.sessions| && s.sessions[id].origin == Some(c.token)
        && s.sessions[id].caller == p
    case Reused(before) => c.Refresh? && SweepOk(s.sessions, SweepOwner(s, c), before, {})
        && SuccessorSeen(s, c, before)
    case AllLoggedOut(before) => c.LogoutAll? && SweepOk(s.sessions, Player(c.user), before, {})
    case _ => true
  }

  ghost predicate Exclusive(procs: seq<Proc>) {
    forall p, q, x :: 0 <= p < |procs| && 0 <= q < |procs| && Holds(procs[p], x) && Holds(procs[q], x) ==> p == q
  }

  ghost predicate Inv(s: State) {
    && LinksOk(s.sessions)
    && (forall p :: 0 <= p < |s.procs| ==> ProcOk(s, p, s.procs[p]))
    && Exclusive(s.procs)
  }

  /**
   * How committed sessions change: identity and lineage stay, revocation is final, a link is set once, on a
   * live row.
   */
  ghost predicate Grows(a: seq<Session>, b: seq<Session>) {
    && |a| <= |b|
    && forall x :: 0 <= x < |a| ==>
         && b[x].owner == a[x].owner && b[x].origin == a[x].origin && b[x].caller == a[x].caller
         && (a[x].revoked ==> b[x].revoked && b[x].replacedBy == a[x].replacedBy)
  }
}
