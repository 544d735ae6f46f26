/** What refresh-token rotation promises in every run. */
module SessionTheorems {
  import opened Prelude
  import opened Sessions
  import opened SessionProofs

  ghost predicate Reachable(s: State) {
    exists actions :: s == Run(INIT, actions)
  }

  lemma ReachableInv(s: State)
    requires Reachable(s)
    ensures Inv(s)
  {
    var actions :| s == Run(INIT, actions);
    RunKeeps(INIT, actions);
  }

  // ---- what each statement does to the rows ----

  /** A login opens one live session, of its owner and expiry. */
  lemma LoginOpens(s: State, p: nat, env: Env)
    requires p < |s.procs| && s.procs[p].call.Login? && s.procs[p].pc.Start?
    ensures Advance(s, p, env).Some?
    ensures var s' := Advance(s, p, env).value;
      && s'.sessions == s.sessions + [Session(s.procs[p].call.owner, env.expires, false, None, None, p)]
      && s'.procs == s.procs[p := s.procs[p].(pc := Finished(LoggedIn(|s.sessions|)))]
  {
  }

  /** Where a refresh goes from the row it has locked: the checks in their order, nothing written yet. */
  lemma RefreshDecides(s: State, p: nat, env: Env)
    requires p < |s.procs| && s.procs[p].call.Refresh? && s.procs[p].pc.Start? && Advance(s, p, env).Some?
    ensures var t, s' := s.procs[p].call.token, Advance(s, p, env).value;
      && s'.sessions == s.sessions && p < |s'.procs|
      && s'.procs[p].pc ==
           if t >= |s.sessions| then Finished(Invalid)
           else if s.sessions[t].expires < env.now then Finished(Expired)
           else if s.sessions[t].revoked then BeginSweep
           else if s.sessions[t].owner.Admin? && !env.adminFound then Finished(Invalid)
           else CreateSuccessor
  {
  }

  /**
   * The commit of a rotation adds one live, unlinked session of the same owner with a fresh expiry, revokes
   * the old one and links it to the new, and leaves every other row alone.
   */
  lemma RotationWrites(s: State, p: nat, env: Env)
    requires Reachable(s) && p < |s.procs| && s.procs[p].pc.CommitRotation?
    ensures s.procs[p].call.Refresh? && s.procs[p].call.token < |s.sessions| && Advance(s, p, env).Some?
    ensures var t, id, s' := s.procs[p].call.token, |s.sessions|, Advance(s, p, env).value;
      && p < |s'.procs| && s'.procs[p].pc == Finished(Rotated(id)) && |s'.sessions| == id + 1
      && !s.sessions[t].revoked
      && s'.sessions[id] == Session(s.sessions[t].owner, env.expires, false, None, Some(t), p)
      && s'.sessions[t] == s.sessions[t].(revoked := true, replacedBy := Some(id))
      && forall x :: 0 <= x < id && x != t ==> s'.sessions[x] == s.sessions[x]
  {
    ReachableInv(s);
    assert ProcOk(s, p, s.procs[p]);
  }

  /** A logout revokes the session named exactly if it is live and in scope, and changes nothing else. */
  lemma LogoutWrites(s: State, p: nat, env: Env)
    requires p < |s.procs| && s.procs[p].call.Logout? && s.procs[p].pc.Start? && Advance(s, p, env).Some?
    ensures var c, s' := s.procs[p].call, Advance(s, p, env).value;
      var hit := c.sid < |s.sessions| && !s.sessions[c.sid].revoked
                 && (c.scope.None? || c.scope.value == s.sessions[c.sid].owner);
      && p < |s'.procs| && s'.procs[p].pc == Finished(LoggedOut(if hit then 1 else 0))
      && s'.sessions == if hit then s.sessions[c.sid := s.sessions[c.sid].(revoked := true)] else s.sessions
  {
  }

  /** Whose sessions a revocation is after: the user logging out everywhere, or the owner of the token used again. */
  lemma SweepOwnerIs(s: State, p: nat)
    requires Reachable(s) && p < |s.procs| && (s.procs[p].pc.BeginSweep? || s.procs[p].pc.Sweep?)
    ensures s.procs[p].call.LogoutAll? || (s.procs[p].call.Refresh? && s.procs[p].call.token < |s.sessions|)
    ensures SweepOwner(s, s.procs[p].call) ==
            if s.procs[p].call.LogoutAll? then Player(s.procs[p].call.user) else s.sessions[s.procs[p].call.token].owner
  {
    ReachableInv(s);
    assert ProcOk(s, p, s.procs[p]);
  }

  /** At its commit a revocation revokes the owner's sessions of its snapshot, and changes nothing else in any row. */
  lemma SweepWrites(s: State, p: nat, env: Env, x: nat)
    requires Reachable(s) && SweepEnds(s, p) && x < |s.sessions|
    ensures Advance(s, p, env).Some? && |Advance(s, p, env).value.sessions| == |s.sessions|
    ensures var owner, before := SweepOwner(s, s.procs[p].call), s.procs[p].pc.before;
      Advance(s, p, env).value.sessions[x] ==
      s.sessions[x].(revoked := s.sessions[x].revoked || (s.sessions[x].owner == owner && x < before))
  {
    SweepReachesExactly(s, p, env, x);
    ReachableInv(s);
    assert ProcOk(s, p, s.procs[p]);
    assert SweepStep(s, p, env.pick).Some?;
  }

  /** A crash ends an open call at any statement: no row has changed, and it holds none any more. */
  lemma CrashRollsBack(s: State, p: nat)
    requires p < |s.procs| && !s.procs[p].pc.Finished?
    ensures var s' := Do(s, Crash(p));
      && s'.sessions == s.sessions && |s'.procs| == |s.procs| && s'.procs[p].pc == Finished(Crashed)
      && (forall q :: 0 <= q < |s.procs| && q != p ==> s'.procs[q] == s.procs[q])
      && forall x :: !Holds(s'.procs[p], x)
  {
  }

  // ---- chains ----

  /** Following `replacedBySessionId` from `c` any number of times reaches `a`. */
  ghost predicate Follows(ss: seq<Session>, c: nat, a: nat)
    requires LinksOk(ss) && c < |ss|
    decreases |ss| - c
  {
    c == a || (ss[c].replacedBy.Some? && Follows(ss, ss[c].replacedBy.value, a))
  }

  /** The login a session descends from. */
  ghost function Root(ss: seq<Session>, x: nat): (r: nat)
    requires LinksOk(ss) && x < |ss|
    ensures r < |ss| && ss[r].origin.None? && ss[r].owner == ss[x].owner
    decreases x
  {
    if ss[x].origin.None? then x else Root(ss, ss[x].origin.value)
  }

  lemma {:induction false} FollowsOn(ss: seq<Session>, c: nat, a: nat)
    requires LinksOk(ss) && c < |ss| && a < |ss| && Follows(ss, c, a) && ss[a].replacedBy.Some?
    ensures Follows(ss, c, ss[a].replacedBy.value)
    decreases |ss| - c
  {
    if c != a {
      FollowsOn(ss, ss[c].replacedBy.value, a);
    }
  }

  lemma {:induction false} RootIsOnTheWay(ss: seq<Session>, x: nat)
    requires LinksOk(ss) && x < |ss|
    ensures Follows(ss, Root(ss, x), x)
    decreases x
  {
    if ss[x].origin.Some? {
      RootIsOnTheWay(ss, ss[x].origin.value);
      FollowsOn(ss, Root(ss, x), ss[x].origin.value);
    }
  }

  lemma {:induction false} SameRoot(ss: seq<Session>, c: nat, x: nat)
    requires LinksOk(ss) && c < |ss| && x < |ss| && Follows(ss, c, x)
    ensures Root(ss, c) == Root(ss, x) && c <= x
    decreases |ss| - c
  {
    if c != x {
      SameRoot(ss, ss[c].replacedBy.value, x);
    }
  }

  /** Every session lies on the chain of exactly one login, of the same owner. */
  lemma OneLoginPerChain(s: State, x: nat, r: nat)
    requires Reachable(s) && x < |s.sessions| && r < |s.sessions| && s.sessions[r].origin.None?
    ensures Inv(s)
    ensures Follows(s.sessions, r, x) <==> r == Root(s.sessions, x)
  {
    ReachableInv(s);
    RootIsOnTheWay(s.sessions, x);
    if Follows(s.sessions, r, x) {
      SameRoot(s.sessions, r, x);
    }
  }

  lemma {:induction false} LiveMeet(ss: seq<Session>, c: nat, a: nat, b: nat)
    requires LinksOk(ss) && c < |ss| && a < |ss| && b < |ss| && Follows(ss, c, a) && Follows(ss, c, b)
    requires !ss[a].revoked && !ss[b].revoked
    ensures a == b && ss[a].replacedBy.None?
    decreases |ss| - c
  {
    if ss[c].replacedBy.Some? {
      LiveMeet(ss, ss[c].replacedBy.value, a, b);
    }
  }

  /** The links are injective and never lead back. */
  lemma LinksAreSimplePaths(s: State, a: nat, b: nat)
    requires Reachable(s) && a < |s.sessions| && b < |s.sessions|
    ensures s.sessions[a].replacedBy.Some? && s.sessions[a].replacedBy == s.sessions[b].replacedBy ==> a == b
    ensures Inv(s) && (Follows(s.sessions, a, b) && Follows(s.sessions, b, a) ==> a == b)
  {
    ReachableInv(s);
    if Follows(s.sessions, a, b) && Follows(s.sessions, b, a) {
      SameRoot(s.sessions, a, b);
      SameRoot(s.sessions, b, a);
    }
  }

  /** Each login's chain has at most one unrevoked session, and that one is its tail. */
  lemma OneLiveSessionPerChain(s: State, a: nat, b: nat)
    requires Reachable(s) && a < |s.sessions| && b < |s.sessions| && !s.sessions[a].revoked && !s.sessions[b].revoked
    ensures Inv(s) && s.sessions[a].replacedBy.None?
    ensures Root(s.sessions, a) == Root(s.sessions, b) ==> a == b
  {
    ReachableInv(s);
    if Root(s.sessions, a) == Root(s.sessions, b) {
      RootIsOnTheWay(s.sessions, a);
      RootIsOnTheWay(s.sessions, b);
      LiveMeet(s.sessions, Root(s.sessions, a), a, b);
    }
  }

  /** A session is rotated at most once and never revived: once revoked, its row never changes again. */
  lemma RevokedIsFinal(s: State, actions: seq<Action>, a: nat)
    requires Reachable(s) && a < |s.sessions| && s.sessions[a].revoked
    ensures var s' := Run(s, actions);
      a < |s'.sessions| && s'.sessions[a].revoked && s'.sessions[a].replacedBy == s.sessions[a].replacedBy
  {
    ReachableInv(s);
    RunKeeps(s, actions);
  }

  // ---- racing refreshes ----

  predicate RotatedBy(s: State, p: nat, token: nat) {
    p < |s.procs| && s.procs[p].call == Refresh(token) && s.procs[p].pc.Finished? && s.procs[p].pc.outcome.Rotated?
  }

  predicate ReusedBy(s: State, p: nat, token: nat) {
    p < |s.procs| && s.procs[p].call == Refresh(token) && s.procs[p].pc.Finished? && s.procs[p].pc.outcome.Reused?
  }

  /** Of all concurrent refreshes of one token at most one rotates it. */
  lemma OneRotationPerToken(s: State, p: nat, q: nat, token: nat)
    requires Reachable(s) && RotatedBy(s, p, token) && RotatedBy(s, q, token)
    ensures p == q
  {
    ReachableInv(s);
    assert ProcOk(s, p, s.procs[p]) && ProcOk(s, q, s.procs[q]);
  }

  /**
   * A call that reported reuse has committed its revocation: every session of the owner that was
   * committed before its revoking statement is revoked, and so is the winner's successor.
   */
  lemma ReuseRevokes(s: State, p: nat, token: nat, x: nat)
    requires Reachable(s) && ReusedBy(s, p, token) && x < |s.sessions|
    requires token < |s.sessions| ==> s.sessions[x].owner == s.sessions[token].owner
    requires x < s.procs[p].pc.outcome.before || (token < |s.sessions| && s.sessions[token].replacedBy == Some(x))
    ensures token < |s.sessions| && s.sessions[x].revoked
  {
    ReachableInv(s);
    assert ProcOk(s, p, s.procs[p]);
  }

  /** If one call rotated a token and another reported its reuse, the session the rotation opened is dead. */
  lemma RaceEndsWithoutWinner(s: State, p: nat, q: nat, token: nat)
    requires Reachable(s) && ReusedBy(s, p, token) && RotatedBy(s, q, token)
    ensures s.procs[q].pc.outcome.id < |s.sessions| && s.sessions[s.procs[q].pc.outcome.id].revoked
  {
    ReachableInv(s);
    assert ProcOk(s, p, s.procs[p]) && ProcOk(s, q, s.procs[q]);
    ReuseRevokes(s, p, token, s.procs[q].pc.outcome.id);
  }

  /** The owner's sessions that committed after the first `before`. */
  ghost function Newcomers(sessions: seq<Session>, owner: Owner, before: nat): set<nat> {
    set x | before <= x < |sessions| && sessions[x].owner == owner
  }

  /**
   * After a reported reuse the owner's live sessions are exactly the unrevoked ones among those that
   * committed after the revoking statement began; so none is live if and only if none of those is.
   */
  lemma ReuseLeavesExactly(s: State, p: nat, token: nat)
    requires Reachable(s) && ReusedBy(s, p, token)
    ensures token < |s.sessions|
    ensures var owner := s.sessions[token].owner;
      var late := Newcomers(s.sessions, owner, s.procs[p].pc.outcome.before);
      && LiveOf(s.sessions, owner) == (set x | x in late && !s.sessions[x].revoked)
      && (LiveOf(s.sessions, owner) == {} <==> forall x :: x in late ==> s.sessions[x].revoked)
  {
    ReachableInv(s);
    assert ProcOk(s, p, s.procs[p]);
    var owner, before := s.sessions[token].owner, s.procs[p].pc.outcome.before;
    forall x | x in LiveOf(s.sessions, owner) ensures x in Newcomers(s.sessions, owner, before) {
      if x < before {
        ReuseRevokes(s, p, token, x);
      }
    }
    forall x | x in Newcomers(s.sessions, owner, before) && !s.sessions[x].revoked
        ensures x in LiveOf(s.sessions, owner) {
    }
  }

  /** When all the owner's sessions are the token's own and what rotating it opened, a race leaves none live. */
  lemma RaceLeavesNone(s: State, p: nat, token: nat)
    requires Reachable(s) && ReusedBy(s, p, token)
    requires token < |s.sessions| ==>
               forall x :: 0 <= x < |s.sessions| && s.sessions[x].owner == s.sessions[token].owner ==>
                 x == token || s.sessions[x].origin == Some(token)
    ensures token < |s.sessions| && LiveOf(s.sessions, s.sessions[token].owner) == {}
  {
    ReachableInv(s);
    assert ProcOk(s, p, s.procs[p]);
    forall x | 0 <= x < |s.sessions| && s.sessions[x].owner == s.sessions[token].owner ensures s.sessions[x].revoked {
      if x != token {
        ReuseRevokes(s, p, token, x);
      }
    }
  }

  // ---- what a revocation reaches ----

  predicate SweepEnds(s: State, p: nat) {
    p < |s.procs| && s.procs[p].pc.Sweep? && s.procs[p].pc.todo == {}
  }

  /**
   * When `revokeAllSessions` or `logoutAll` commits, the owner's live sessions are exactly those that
   * committed after its statement began; nobody else's session is touched.
   */
  lemma SweepReachesExactly(s: State, p: nat, env: Env, x: nat)
    requires Reachable(s) && SweepEnds(s, p) && x < |s.sessions|
    ensures Advance(s, p, env).Some? && |Advance(s, p, env).value.sessions| == |s.sessions|
    ensures var owner := SweepOwner(s, s.procs[p].call); var before := s.procs[p].pc.before;
      !Advance(s, p, env).value.sessions[x].revoked <==>
      !s.sessions[x].revoked && (s.sessions[x].owner != owner || before <= x)
  {
    ReachableInv(s);
    assert ProcOk(s, p, s.procs[p]);
    assert SweepStep(s, p, env.pick).Some?;
  }

  /** Hence it leaves the owner without a live session if and only if none committed live after it began. */
  lemma SweepLeavesNoneExactly(s: State, p: nat, env: Env)
    requires Reachable(s) && SweepEnds(s, p)
    ensures Advance(s, p, env).Some?
    ensures var owner := SweepOwner(s, s.procs[p].call); var before := s.procs[p].pc.before;
      LiveOf(Advance(s, p, env).value.sessions, owner) == {} <==>
      forall x :: before <= x < |s.sessions| && s.sessions[x].owner == owner ==> s.sessions[x].revoked
  {
    ReachableInv(s);
    assert ProcOk(s, p, s.procs[p]);
    assert SweepStep(s, p, env.pick).Some?;
    var owner := SweepOwner(s, s.procs[p].call);
    var s' := Advance(s, p, env).value;
    forall x | 0 <= x < |s.sessions|
      ensures x in LiveOf(s'.sessions, owner) <==>
                s.sessions[x].owner == owner && !s.sessions[x].revoked && s.procs[p].pc.before <= x
    {
      SweepReachesExactly(s, p, env, x);
      SweepKeepsOwners(s, p, env, x);
    }
  }

  /** The call `p` is revoking, from a snapshot of at least `n` sessions, or has done so or crashed. */
  ghost predicate RevokingSince(s: State, p: nat, c: Call, n: nat) {
    && p < |s.procs| && s.procs[p].call == c
    && match s.procs[p].pc
       case BeginSweep => n <= |s.sessions|
       case Sweep(before, _, _) => n <= before <= |s.sessions|
       case Finished(Reused(before)) => n <= before <= |s.sessions|
       case Finished(AllLoggedOut(before)) => n <= before <= |s.sessions|
       case Finished(Crashed) => true
       case _ => false
  }

  lemma RevokingStep(s: State, a: Action, p: nat, c: Call, n: nat)
    requires Inv(s) && RevokingSince(s, p, c, n)
    ensures RevokingSince(Do(s, a), p, c, n)
  {
    SessionsGrow(s, a);
    if a.Step? && a.p < |s.procs| && a.p != p && Advance(s, a.p, a.env).Some? {
      StepsOwnRecord(s, a.p, a.env);
    }
  }

  lemma {:induction false} RevokingRun(s: State, actions: seq<Action>, p: nat, c: Call, n: nat)
    requires Inv(s) && RevokingSince(s, p, c, n)
    ensures Inv(Run(s, actions)) && RevokingSince(Run(s, actions), p, c, n)
              && Grows(s.sessions, Run(s, actions).sessions)
    decreases |actions|
  {
    RunKeeps(s, actions);
    if actions != [] {
      RevokingStep(s, actions[0], p, c, n);
      DoKeeps(s, actions[0]);
      RevokingRun(Do(s, actions[0]), actions[1..], p, c, n);
    }
  }

  predicate Revoked(s: State, p: nat) {
    p < |s.procs| && s.procs[p].pc.Finished? && (s.procs[p].pc.outcome.Reused? || s.procs[p].pc.outcome.AllLoggedOut?)
  }

  /**
   * From the start of a revocation to any later state in which it has ended, however many statements of
   * other calls came in between: the owner's live sessions are exactly the unrevoked ones among those
   * that committed after its snapshot. If no login or rotation of that owner committed since, none is live.
   */
  lemma RevocationReachesExactly(s: State, actions: seq<Action>, p: nat)
    requires Reachable(s) && p < |s.procs| && s.procs[p].pc.BeginSweep? && Revoked(Run(s, actions), p)
    ensures var s' := Run(s, actions); var owner := SweepOwner(s, s.procs[p].call);
      var before := s'.procs[p].pc.outcome.before;
      && |s.sessions| <= before <= |s'.sessions|
      && LiveOf(s'.sessions, owner) == (set x | x in Newcomers(s'.sessions, owner, before) && !s'.sessions[x].revoked)
      && (Newcomers(s'.sessions, owner, |s.sessions|) == {} ==> LiveOf(s'.sessions, owner) == {})
  {
    var s', c, owner := Run(s, actions), s.procs[p].call, SweepOwner(s, s.procs[p].call);
    ReachableInv(s);
    assert ProcOk(s, p, s.procs[p]);
    RevokingRun(s, actions, p, c, |s.sessions|);
    assert ProcOk(s', p, s'.procs[p]);
    assert SweepOwner(s', c) == owner;
    var before := s'.procs[p].pc.outcome.before;
    assert SweepOk(s'.sessions, owner, before, {});
    SweptExactly(s'.sessions, owner, before);
    forall x | x in Newcomers(s'.sessions, owner, before) ensures x in Newcomers(s'.sessions, owner, |s.sessions|) {
    }
  }

  lemma SweptExactly(sessions: seq<Session>, owner: Owner, before: nat)
    requires SweepOk(sessions, owner, before, {})
    ensures LiveOf(sessions, owner) == (set x | x in Newcomers(sessions, owner, before) && !sessions[x].revoked)
  {
    forall x | x in LiveOf(sessions, owner) ensures x in Newcomers(sessions, owner, before) {
      assert x !in {};
    }
  }

  lemma SweepKeepsOwners(s: State, p: nat, env: Env, x: nat)
    requires SweepEnds(s, p) && x < |s.sessions|
    ensures Advance(s, p, env).Some? && |Advance(s, p, env).value.sessions| == |s.sessions|
    ensures Advance(s, p, env).value.sessions[x].owner == s.sessions[x].owner
  {
    assert SweepStep(s, p, env.pick).Some?;
  }

  lemma {:induction false} RunAppend(s: State, actions: seq<Action>, a: Action)
    ensures Run(s, actions + [a]) == Do(Run(s, actions), a)
    decreases |actions|
  {
    if actions == [] {
      assert Run(Do(s, a), []) == Do(s, a);
      assert ([] + [a])[1..] == [];
    } else {
      RunAppend(Do(s, actions[0]), actions[1..], a);
      assert (actions + [a])[1..] == actions[1..] + [a];
    }
  }

  lemma ReachableDo(s: State, a: Action)
    requires Reachable(s)
    ensures Reachable(Do(s, a))
  {
    var actions :| s == Run(INIT, actions);
    RunAppend(INIT, actions, a);
  }

  /** `logoutAll` has finished, yet a session of that user, committed meanwhile, is live. */
  ghost predicate Slipped(s: State, user: nat) {
    exists p: nat, x: nat ::
      && p < |s.procs| && s.procs[p].call == LogoutAll(user) && s.procs[p].pc.Finished?
           && s.procs[p].pc.outcome.AllLoggedOut?
      && x < |s.sessions| && s.sessions[x].owner == Player(user) && !s.sessions[x].revoked && s.sessions[x].origin.Some?
  }

  /** A login, and a refresh of its session brought to the point of committing its rotation. */
  lemma RotationInFlight() returns (s: State)
    ensures Reachable(s)
    ensures s == State([Session(Player(7), 100, false, None, None, 0)],
                       [Proc(Login(Player(7)), Finished(LoggedIn(0))), Proc(Refresh(0), CommitRotation)])
  {
    var env := Env(0, 100, 0, true);
    assert Run(INIT, []) == INIT;
    s := INIT;
    ReachableDo(s, Request(Login(Player(7)))); s := Do(s, Request(Login(Player(7))));
    ReachableDo(s, Step(0, env)); s := Do(s, Step(0, env));
    ReachableDo(s, Request(Refresh(0))); s := Do(s, Request(Refresh(0)));
    ReachableDo(s, Step(1, env)); s := Do(s, Step(1, env));
    assert s.procs[1].pc == CreateSuccessor;
    ReachableDo(s, Step(1, env)); s := Do(s, Step(1, env));
    ReachableDo(s, Step(1, env)); s := Do(s, Step(1, env));
  }

  /** `logoutAll` takes its snapshot and waits for the old row, whose rotation then commits. */
  lemma SweepMeetsRotation() returns (s: State)
    ensures Reachable(s)
    ensures |s.procs| == 3 && s.procs[2] == Proc(LogoutAll(7), Sweep(1, {0}, {}))
    ensures s.procs[0].pc.Finished? && s.procs[1].pc.Finished?
    ensures |s.sessions| == 2 && s.sessions[0].revoked
    ensures s.sessions[1] == Session(Player(7), 100, false, None, Some(0), 1)
  {
    var env := Env(0, 100, 0, true);
    s := RotationInFlight();
    ReachableDo(s, Request(LogoutAll(7))); s := Do(s, Request(LogoutAll(7)));
    ReachableDo(s, Step(2, env)); s := Do(s, Step(2, env));
    ReachableDo(s, Step(2, env)); s := Do(s, Step(2, env));
    assert LiveOf(s.sessions, Player(7)) == {0};
    ReachableDo(s, Step(1, env)); s := Do(s, Step(1, env));
  }

  /** A session can outlive `logoutAll`: the successor of a rotation that commits during its statement. */
  lemma LogoutAllMayMissASuccessor()
    ensures exists s :: Reachable(s) && Slipped(s, 7)
  {
    var env := Env(0, 100, 0, true);
    var s := SweepMeetsRotation();
    ReachableDo(s, Step(2, env)); s := Do(s, Step(2, env));
    assert {0} - {0} == {};
    assert s.procs[2].pc == Sweep(1, {}, {});
    ReachableDo(s, Step(2, env)); s := Do(s, Step(2, env));
    assert s.procs[2] == Proc(LogoutAll(7), Finished(AllLoggedOut(1)));
    assert s.sessions[1].origin.Some? && !s.sessions[1].revoked;
  }

  /** The rotated token's own reuse has been reported, yet a session of that owner, two rotations on, is live. */
  ghost predicate Survivor(s: State, p: nat, q: nat, token: nat, x: nat) {
    && ReusedBy(s, p, token) && RotatedBy(s, q, token)
    && token < |s.sessions| && s.sessions[token].replacedBy.Some?
         && token < s.sessions[token].replacedBy.value < |s.sessions|
    && s.sessions[s.sessions[token].replacedBy.value].replacedBy == Some(x)
    && x < |s.sessions| && s.sessions[x].owner == s.sessions[token].owner && !s.sessions[x].revoked
  }

  /** A rotated session whose successor is being rotated in turn. */
  lemma SecondRotationInFlight() returns (s: State)
    ensures Reachable(s)
    ensures s == State([Session(Player(7), 100, true, Some(1), None, 0),
              Session(Player(7), 100, false, None, Some(0), 1)],
                       [Proc(Login(Player(7)), Finished(LoggedIn(0))), Proc(Refresh(0), Finished(Rotated(1))),
                           Proc(Refresh(1), CommitRotation)])
  {
    var env := Env(0, 100, 0, true);
    s := RotationInFlight();
    ReachableDo(s, Step(1, env)); s := Do(s, Step(1, env));
    assert s.sessions == [Session(Player(7), 100, true, Some(1), None, 0),
        Session(Player(7), 100, false, None, Some(0), 1)];
    ReachableDo(s, Request(Refresh(1))); s := Do(s, Request(Refresh(1)));
    ReachableDo(s, Step(2, env)); s := Do(s, Step(2, env));
    assert s.procs[2].pc == CreateSuccessor;
    ReachableDo(s, Step(2, env)); s := Do(s, Step(2, env));
    ReachableDo(s, Step(2, env)); s := Do(s, Step(2, env));
  }

  /** The old token comes again, and its revocation takes its snapshot. */
  lemma ReuseTakesSnapshot() returns (s: State)
    ensures Reachable(s)
    ensures s == State([Session(Player(7), 100, true, Some(1), None, 0),
              Session(Player(7), 100, false, None, Some(0), 1)],
                       [Proc(Login(Player(7)), Finished(LoggedIn(0))), Proc(Refresh(0), Finished(Rotated(1))),
                           Proc(Refresh(1), CommitRotation),
                        Proc(Refresh(0), Sweep(2, {1}, {}))])
  {
    var env := Env(0, 100, 0, true);
    s := SecondRotationInFlight();
    ReachableDo(s, Request(Refresh(0))); s := Do(s, Request(Refresh(0)));
    ReachableDo(s, Step(3, env)); s := Do(s, Step(3, env));
    assert s.procs[3].pc == BeginSweep;
    ReachableDo(s, Step(3, env)); s := Do(s, Step(3, env));
    assert LiveOf(s.sessions, Player(7)) == {1};
  }

  /** Then the second rotation commits. */
  lemma ReuseMeetsRotation() returns (s: State)
    ensures Reachable(s)
    ensures |s.procs| == 4 && s.procs[3] == Proc(Refresh(0), Sweep(2, {1}, {}))
    ensures s.procs[0].pc.Finished? && s.procs[1] == Proc(Refresh(0), Finished(Rotated(1))) && s.procs[2].pc.Finished?
    ensures s.sessions == [Session(Player(7), 100, true, Some(1), None, 0),
              Session(Player(7), 100, true, Some(2), Some(0), 1),
                           Session(Player(7), 100, false, None, Some(1), 2)]
  {
    var env := Env(0, 100, 0, true);
    s := ReuseTakesSnapshot();
    ReachableDo(s, Step(2, env)); s := Do(s, Step(2, env));
  }

  /** The end state of a reported reuse need not be zero valid sessions, even under the race's own winner. */
  lemma ReuseMayMissASuccessor()
    ensures exists s :: Reachable(s) && Survivor(s, 3, 1, 0, 2)
  {
    var env := Env(0, 100, 1, true);
    var s := ReuseMeetsRotation();
    ReachableDo(s, Step(3, env)); s := Do(s, Step(3, env));
    assert {1} - {1} == {};
    assert s.procs[3].pc == Sweep(2, {}, {});
    ReachableDo(s, Step(3, env)); s := Do(s, Step(3, env));
    assert s.procs[3] == Proc(Refresh(0), Finished(Reused(2)));
    assert Survivor(s, 3, 1, 0, 2);
  }
}
