/** The session store keeps its invariant under every interleaving. */
module SessionProofs {
  import opened Prelude
  import opened Sessions

  lemma SessionsGrow(s: State, a: Action)
    requires Inv(s)
    ensures Grows(s.sessions, Do(s, a).sessions)
  {
    if a.Step? && a.p < |s.procs| {
      StepGrows(s, a.p, a.env);
    }
  }

  lemma StepGrows(s: State, p: nat, env: Env)
    requires Inv(s) && p < |s.procs|
    ensures var r := Advance(s, p, env); r.Some? ==> Grows(s.sessions, r.value.sessions)
  {
    assert ProcOk(s, p, s.procs[p]);
    hide ProcOk, LinksOk, Exclusive, Rotate, Revoke, LiveOf, Grows;
    NothingGrows(s.sessions);
    match s.procs[p].pc
    case Start =>
      if s.procs[p].call.Login? {
        LoginGrows(s.sessions, Session(s.procs[p].call.owner, env.expires, false, None, None, p));
      } else if s.procs[p].call.Logout? {
        RevokeGrows(s.sessions, {s.procs[p].call.sid});
      }
    case CommitRotation =>
      if Advance(s, p, env).Some? {
        RotateGrows(s, p, env.expires);
      }
    case Sweep(_, _, got) => RevokeGrows(s.sessions, got);
    case _ =>
  }

  lemma NothingGrows(sessions: seq<Session>)
    ensures Grows(sessions, sessions)
  {
  }

  lemma LoginGrows(sessions: seq<Session>, n: Session)
    ensures Grows(sessions, sessions + [n])
  {
  }

  lemma RevokeGrows(sessions: seq<Session>, got: set<nat>)
    ensures Grows(sessions, Revoke(sessions, got))
  {
  }

  lemma RotateGrows(s: State, p: nat, expires: int)
    requires p < |s.procs| && s.procs[p].call.Refresh?
    requires s.procs[p].call.token < |s.sessions| && !s.sessions[s.procs[p].call.token].revoked
    ensures Grows(s.sessions, Rotate(s, p, expires).sessions)
  {
  }

  /** A statement of `p` never changes a row some other call holds. */
  lemma HeldRowsStay(s: State, p: nat, env: Env, q: nat, x: nat)
    requires Inv(s) && p < |s.procs| && q < |s.procs| && q != p && x < |s.sessions| && Holds(s.procs[q], x)
    requires Advance(s, p, env).Some?
    ensures Advance(s, p, env).value.sessions[x] == s.sessions[x]
  {
    assert ProcOk(s, p, s.procs[p]);
  }

  /** A call's obligations survive other calls' statements. */
  lemma OtherStays(s: State, s': State, q: nat)
    requires q < |s.procs| && ProcOk(s, q, s.procs[q]) && Grows(s.sessions, s'.sessions)
    requires forall x :: 0 <= x < |s.sessions| && Holds(s.procs[q], x) ==> s'.sessions[x] == s.sessions[x]
    ensures ProcOk(s', q, s.procs[q])
  {
    var c, pc := s.procs[q].call, s.procs[q].pc;
    if c.Refresh? && c.token < |s.sessions| {
      assert Holds(s.procs[q], c.token) || pc.Start? || pc.Finished?;
    }
  }

  lemma RevokeKeepsLinks(sessions: seq<Session>, got: set<nat>)
    requires LinksOk(sessions)
    ensures LinksOk(Revoke(sessions, got))
  {
  }

  lemma LoginKeepsLinks(sessions: seq<Session>, n: Session)
    requires LinksOk(sessions) && n.replacedBy == None && n.origin == None
    ensures LinksOk(sessions + [n])
  {
    var after := sessions + [n];
    assert forall x :: 0 <= x < |sessions| ==> after[x] == sessions[x];
  }

  lemma RotateKeepsLinks(s: State, p: nat, expires: int)
    requires LinksOk(s.sessions) && p < |s.procs| && s.procs[p].call.Refresh?
    requires s.procs[p].call.token < |s.sessions| && !s.sessions[s.procs[p].call.token].revoked
    ensures LinksOk(Rotate(s, p, expires).sessions)
  {
    var t, after := s.procs[p].call.token, Rotate(s, p, expires).sessions;
    assert forall x :: 0 <= x < |s.sessions| && x != t ==> after[x] == s.sessions[x];
    assert after[|s.sessions|].origin == Some(t) && after[t].replacedBy == Some(|s.sessions|);
  }

  lemma LinksStay(s: State, p: nat, env: Env)
    requires Inv(s) && p < |s.procs| && Advance(s, p, env).Some?
    ensures LinksOk(Advance(s, p, env).value.sessions)
  {
    var q := s.procs[p];
    assert ProcOk(s, p, q);
    match q.pc
    case Start =>
      match q.call {
        case Login(owner) => LoginKeepsLinks(s.sessions, Session(owner, env.expires, false, None, None, p));
        case Refresh(_) =>
        case Logout(sid, _) => RevokeKeepsLinks(s.sessions, {sid});
        case LogoutAll(_) =>
      }
    case CommitRotation => RotateKeepsLinks(s, p, env.expires);
    case Sweep(_, _, got) => RevokeKeepsLinks(s.sessions, got);
    case _ =>
  }

  lemma ExclusiveStays(s: State, p: nat, env: Env)
    requires Inv(s) && p < |s.procs| && Advance(s, p, env).Some?
    ensures Exclusive(Advance(s, p, env).value.procs)
  {
    hide LinksOk, SweepOk, OutcomeOk, Revoke, LiveOf, SuccessorSeen;
    var s' := Advance(s, p, env).value;
    assert ProcOk(s, p, s.procs[p]);
    forall q, x | 0 <= q < |s.procs| && q != p && Holds(s'.procs[p], x) ensures !Holds(s.procs[q], x) {
      assert Holds(s.procs[p], x) || Free(s, p, x);
    }
  }

  lemma BeginSweepOwn(s: State, p: nat, env: Env)
    requires Inv(s) && p < |s.procs| && s.procs[p].pc.BeginSweep?
    ensures ProcOk(Advance(s, p, env).value, p, Advance(s, p, env).value.procs[p])
  {
    assert ProcOk(s, p, s.procs[p]);
    var todo := LiveOf(s.sessions, SweepOwner(s, s.procs[p].call));
    assert todo + {} == todo;
  }

  lemma SweepOwn(s: State, p: nat, pick: nat)
    requires Inv(s) && p < |s.procs| && s.procs[p].pc.Sweep? && SweepStep(s, p, pick).Some?
    ensures ProcOk(SweepStep(s, p, pick).value, p, SweepStep(s, p, pick).value.procs[p])
  {
    hide LinksOk, Exclusive, LiveOf;
    var s', w := SweepStep(s, p, pick).value, s.procs[p].pc;
    assert ProcOk(s, p, s.procs[p]);
    assert SweepOwner(s', s.procs[p].call) == SweepOwner(s, s.procs[p].call);
    if w.todo == {} {
      assert w.todo + w.got == w.got;
    }
  }

  lemma OwnStays(s: State, p: nat, env: Env)
    requires Inv(s) && p < |s.procs| && Advance(s, p, env).Some?
    ensures ProcOk(Advance(s, p, env).value, p, Advance(s, p, env).value.procs[p])
  {
    var pc := s.procs[p].pc;
    if pc.BeginSweep? {
      BeginSweepOwn(s, p, env);
    } else if pc.Sweep? {
      SweepOwn(s, p, env.pick);
    } else {
      assert ProcOk(s, p, s.procs[p]);
    }
  }

  lemma StepsOwnRecord(s: State, p: nat, env: Env)
    requires p < |s.procs| && Advance(s, p, env).Some?
    ensures var s' := Advance(s, p, env).value; |s'.procs| == |s.procs| && s'.procs == s.procs[p := s'.procs[p]]
  {
  }

  lemma AdvanceKeeps(s: State, p: nat, env: Env)
    requires Inv(s) && p < |s.procs| && Advance(s, p, env).Some?
    ensures Inv(Advance(s, p, env).value)
  {
    hide ProcOk, Advance, LinksOk, Exclusive;
    var s' := Advance(s, p, env).value;
    StepsOwnRecord(s, p, env);
    SessionsGrow(s, Step(p, env));
    LinksStay(s, p, env);
    ExclusiveStays(s, p, env);
    forall q | 0 <= q < |s'.procs| ensures ProcOk(s', q, s'.procs[q]) {
      if q == p {
        OwnStays(s, p, env);
      } else {
        assert ProcOk(s, q, s.procs[q]);
        forall x | 0 <= x < |s.sessions| && Holds(s.procs[q], x) ensures s'.sessions[x] == s.sessions[x] {
          HeldRowsStay(s, p, env, q, x);
        }
        OtherStays(s, s', q);
      }
    }
  }

  lemma DoKeeps(s: State, a: Action)
    requires Inv(s)
    ensures Inv(Do(s, a))
  {
    hide ProcOk, LinksOk, Advance;
    if a.Step? && a.p < |s.procs| && Advance(s, a.p, a.env).Some? {
      AdvanceKeeps(s, a.p, a.env);
    } else {
      var s' := Do(s, a);
      forall p | 0 <= p < |s'.procs| ensures ProcOk(s', p, s'.procs[p]) {
        CallStays(s, s', p);
      }
    }
  }

  /** With the sessions as they were, a call keeps its obligations; a new or crashed one has none. */
  lemma CallStays(s: State, s': State, p: nat)
    requires s'.sessions == s.sessions && p < |s'.procs|
    requires (p < |s.procs| && ProcOk(s, p, s.procs[p]) && s'.procs[p] == s.procs[p])
             || s'.procs[p].pc.Start? || s'.procs[p].pc == Finished(Crashed)
    ensures ProcOk(s', p, s'.procs[p])
  {
  }

  /** Every reachable state satisfies the invariant. */
  lemma {:induction false} RunKeeps(s: State, actions: seq<Action>)
    requires Inv(s)
    ensures Inv(Run(s, actions)) && Grows(s.sessions, Run(s, actions).sessions)
    decreases |actions|
  {
    if actions != [] {
      DoKeeps(s, actions[0]);
      SessionsGrow(s, actions[0]);
      RunKeeps(Do(s, actions[0]), actions[1..]);
    }
  }
}
