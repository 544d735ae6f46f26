/** AuthService's session methods as they read, one request at a time over the sessions table. */
module AuthService {
  import opened Prelude
  import opened Sessions
  import opened SessionProofs

  /** The owner's sessions are revoked, and nothing else has changed. */
  ghost predicate RevokedAll(before: seq<Session>, after: seq<Session>, owner: Owner) {
    && |after| == |before|
    && forall x :: 0 <= x < |before| ==>
         after[x] == if before[x].owner == owner then before[x].(revoked := true) else before[x]
  }

  class AuthService {
    var sessions: seq<Session>

    constructor ()
      ensures sessions == []
    {
      sessions := [];
    }

    /** `createSession`; `origin` records the session it succeeds, if any. */
    method CreateSession(owner: Owner, expires: int, origin: Option<nat>) returns (id: nat)
      modifies this
      ensures id == |old(sessions)|
      ensures sessions == old(sessions) + [Session(owner, expires, false, None, origin, 0)]
    {
      id := |sessions|;
      sessions := sessions + [Session(owner, expires, false, None, origin, 0)];
    }

    /** `revokeAllSessions`: afterwards the owner has no live session, and nothing else has changed. */
    method RevokeAllSessions(owner: Owner)
      modifies this
      ensures sessions == Revoke(old(sessions), LiveOf(old(sessions), owner))
      ensures RevokedAll(old(sessions), sessions, owner)
      ensures LiveOf(sessions, owner) == {}
      ensures LinksOk(old(sessions)) ==> LinksOk(sessions)
    {
      ghost var before := sessions;
      for i := 0 to |sessions|
        invariant |sessions| == |before|
        invariant forall x :: 0 <= x < i ==> sessions[x] == Revoke(before, LiveOf(before, owner))[x]
        invariant forall x :: i <= x < |before| ==> sessions[x] == before[x]
      {
        if sessions[i].owner == owner && !sessions[i].revoked {
          sessions := sessions[i := sessions[i].(revoked := true)];
        }
      }
      assert sessions == Revoke(before, LiveOf(before, owner));
      if LinksOk(before) {
        RevokeKeepsLinks(before, LiveOf(before, owner));
      }
    }

    /**
     * `refresh`: a live token is rotated exactly as the concurrent model's commit does it; a revoked one
     * costs its owner every session; an unknown or expired one changes nothing.
     */
    method Refresh(token: nat, now: int, expires: int, adminFound: bool) returns (o: Outcome)
      requires LinksOk(sessions)
      modifies this
      ensures LinksOk(sessions)
      ensures var row := if token < |old(sessions)| then Some(old(sessions)[token]) else None;
        if row.None? then o == Invalid
        else if row.value.expires < now then o == Expired
        else if row.value.revoked then o == Reused(|old(sessions)|)
        else if row.value.owner.Admin? && !adminFound then o == Invalid
        else o == Rotated(|old(sessions)|)
      ensures o == Invalid || o == Expired ==> sessions == old(sessions)
      ensures o.Reused? ==> sessions == Revoke(old(sessions), LiveOf(old(sessions), old(sessions)[token].owner))
                            && LiveOf(sessions, old(sessions)[token].owner) == {}
      ensures o.Reused? ==> RevokedAll(old(sessions), sessions, old(sessions)[token].owner)
      ensures o.Rotated? ==>
                var id := |old(sessions)|;
                && o.id == id && |sessions| == id + 1
                && sessions[id] == Session(old(sessions)[token].owner, expires, false, None, Some(token), 0)
                && sessions[token] == old(sessions)[token].(revoked := true, replacedBy := Some(id))
                && forall x :: 0 <= x < id && x != token ==> sessions[x] == old(sessions)[x]
      ensures o.Rotated? ==>
                var refresh := Proc(Sessions.Refresh(token), CommitRotation);
                sessions == Rotate(State(old(sessions), [refresh]), 0, expires).sessions
    {
      hide LinksOk, Revoke, LiveOf;
      if token >= |sessions| {
        return Invalid;
      }
      var s := sessions[token];
      if s.expires < now {
        return Expired;
      }
      if s.revoked {
        var before := |sessions|;
        RevokeAllSessions(s.owner);
        return Reused(before);
      }
      if s.owner.Admin? && !adminFound {
        return Invalid;
      }
      RotateKeepsLinks(State(sessions, [Proc(Sessions.Refresh(token), CommitRotation)]), 0, expires);
      var id := CreateSession(s.owner, expires, Some(token));
      sessions := sessions[token := sessions[token].(revoked := true, replacedBy := Some(id))];
      ghost var refresh := Proc(Sessions.Refresh(token), CommitRotation);
      assert sessions == Rotate(State(old(sessions), [refresh]), 0, expires).sessions;
      return Rotated(id);
    }

    /** `logout`: revokes the session if it is live and in the caller's scope. */
    method Logout(sid: nat, scope: Option<Owner>) returns (count: nat)
      modifies this
      ensures count == if sid < |old(sessions)| && !old(sessions)[sid].revoked
                          && (scope.None? || scope.value == old(sessions)[sid].owner) then 1 else 0
      ensures sessions ==
              if count == 1 then old(sessions)[sid := old(sessions)[sid].(revoked := true)] else old(sessions)
    {
      count := 0;
      if sid < |sessions| && !sessions[sid].revoked && (scope.None? || scope.value == sessions[sid].owner) {
        sessions := sessions[sid := sessions[sid].(revoked := true)];
        count := 1;
      }
    }

    method LogoutAll(user: nat)
      modifies this
      ensures RevokedAll(old(sessions), sessions, Player(user))
      ensures LiveOf(sessions, Player(user)) == {}
    {
      RevokeAllSessions(Player(user));
    }
  }
}
