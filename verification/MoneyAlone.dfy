/** A call of the shared-database machine run to its end with nothing in between. */
module MoneyAlone {
  import opened Prelude
  import opened Ledger
  import opened Payload
  import opened Money
  import Progress = MoneyProgress

  /** The rest of call 0's statements, with nothing in between. */
  ghost function Complete(s: Sys): (s': Sys)
    requires |s.procs| == 1
    ensures |s'.procs| == 1
    decreases Progress.Left(s.procs[0].pc)
  {
    if Progress.ApiReady(s, 0) then
      Progress.StatementShape(s, 0);
      Complete(Advance(s, 0).value)
    else s
  }

  /** Updating the only call's record. */
  lemma Solo()
    ensures forall q: Proc, q': Proc :: [q][0 := q'] == [q']
  {
  }

  lemma Hop(s: Sys, s': Sys)
    requires |s.procs| == 1 && Advance(s, 0) == Some(s')
    ensures |s'.procs| == 1 && Complete(s) == Complete(s')
  {
    Progress.StatementShape(s, 0);
  }

  /** The first look of `adjust` at its target. */
  lemma TargetChecked(s: Sys)
    requires |s.procs| == 1 && s.procs[0].pc.CheckUser?
    ensures var next := if User(s.procs[0].call) in s.accounts then Find(false) else Finished(Failed(NotFound));
      Complete(s) == Complete(s.(procs := [s.procs[0].(pc := next)]))
  {
    hide Complete;
    assert s.procs == [s.procs[0]];
    Solo();
    var next := if User(s.procs[0].call) in s.accounts then Find(false) else Finished(Failed(NotFound));
    Hop(s, s.(procs := [s.procs[0].(pc := next)]));
  }

  /** A replay check that finds nothing: on to the transaction, or, after a unique violation, to its error. */
  lemma FindsNothing(s: Sys)
    requires |s.procs| == 1 && s.procs[0].pc.Find?
    requires var c := s.procs[0].call;
      if c.PlaceBet? then FindBet(s.bets, c.user, c.key).None? else FindKey(s.ledger, c.ikey).None?
    ensures var next := if s.procs[0].pc.raced then Finished(Failed(UniqueViolation)) else Begin;
      Complete(s) == Complete(s.(procs := [s.procs[0].(pc := next)]))
  {
    hide Complete, FindBet, FindKey;
    assert s.procs == [s.procs[0]];
    Solo();
    Hop(s, s.(procs := [s.procs[0].(pc := if s.procs[0].pc.raced then Finished(Failed(UniqueViolation)) else Begin)]));
  }

  /** The insert of a bet whose key is taken, and of one whose key is free, up to its debit. */
  lemma BetKeyTaken(s: Sys)
    requires |s.procs| == 1 && s.procs[0].call.PlaceBet? && s.procs[0].pc.InsertBet?
    requires FindBet(s.bets, s.procs[0].call.user, s.procs[0].call.key).Some?
    ensures Complete(s) == Complete(s.(procs := [s.procs[0].(pc := Find(true))]))
  {
    hide Complete, FindBet;
    assert s.procs == [s.procs[0]];
    Solo();
    Hop(s, s.(procs := [s.procs[0].(pc := Find(true))]));
  }

  lemma BetInserted(s: Sys)
    requires |s.procs| == 1 && s.procs[0].call.PlaceBet? && s.procs[0].pc.InsertBet?
    requires FindBet(s.bets, s.procs[0].call.user, s.procs[0].call.key).None?
    ensures var q := s.procs[0].(pc := InsertLedger, id := s.nextId);
      Complete(s) == Complete(s.(procs := [q], nextId := s.nextId + 1))
  {
    hide Complete, FindBet;
    assert s.procs == [s.procs[0]];
    Solo();
    var items := s.(procs := [s.procs[0].(pc := InsertItems, id := s.nextId)], nextId := s.nextId + 1);
    Hop(s, items);
    Hop(items, items.(procs := [s.procs[0].(pc := InsertLedger, id := s.nextId)]));
  }

  lemma DebitKeyTaken(s: Sys)
    requires |s.procs| == 1 && s.procs[0].call.PlaceBet? && s.procs[0].pc.InsertLedger?
    requires FindKey(s.ledger, BetDebit(s.procs[0].id)).Some?
    ensures Complete(s) == Complete(s.(procs := [s.procs[0].(pc := Find(true))]))
  {
    hide Complete, FindKey;
    assert s.procs == [s.procs[0]];
    Solo();
    Hop(s, s.(procs := [s.procs[0].(pc := Find(true))]));
  }

  lemma NothingLeft(s: Sys)
    requires |s.procs| == 1 && s.procs[0].pc.Finished?
    ensures Complete(s) == s
  {
  }

  /** From the ledger insert, with the key free: balance update and commit. */
  lemma WriteHops(s: Sys)
    requires |s.procs| == 1 && s.procs[0].pc.InsertLedger? && User(s.procs[0].call) in s.accounts
    requires FindKey(s.ledger, KeyOf(s.procs[0])).None?
    ensures var s' := DoCommit(s, 0); |s'.procs| == 1 && s'.procs[0].pc.Finished? && Complete(s) == s'
  {
    hide Complete, DoCommit;
    var q := s.procs[0];
    assert s.procs == [q];
    Solo();
    var u, c := s.(procs := [q.(pc := UpdateAccount)]), s.(procs := [q.(pc := Commit)]);
    Hop(s, u);
    Hop(u, c);
    Hop(c, DoCommit(c, 0));
    LastHop(s, c);
  }

  /** The commit does not depend on the counter it leaves, and nothing follows it. */
  lemma LastHop(s: Sys, c: Sys)
    requires |s.procs| == 1 && User(s.procs[0].call) in s.accounts
    requires c == s.(procs := [s.procs[0].(pc := Commit)])
    ensures DoCommit(c, 0) == DoCommit(s, 0)
    ensures |DoCommit(s, 0).procs| == 1 && DoCommit(s, 0).procs[0].pc.Finished?
              && Complete(DoCommit(s, 0)) == DoCommit(s, 0)
  {
    Solo();
    assert s.procs == [s.procs[0]];
  }

  /** What the rest of a placement makes of the tables, from its ledger insert on with the key free. */
  lemma PlacementWritten(s: Sys)
    requires |s.procs| == 1 && s.procs[0].call.PlaceBet? && s.procs[0].pc.InsertLedger?
              && s.procs[0].call.user in s.accounts
    requires FindKey(s.ledger, BetDebit(s.procs[0].id)).None?
    ensures var q := s.procs[0]; var c := q.call;
      Complete(s) == s.(
        accounts := s.accounts[c.user := Account(q.token.after, s.accounts[c.user].version + 1)],
        ledger := s.ledger + [EntryOf(q)],
        bets := s.bets + [Bet(q.id, c.user, c.key, c.round, c.items, Total(c.items), q.start, 0)],
        procs := [q.(pc := Finished(Placed(|s.bets|, q.id, Total(c.items), q.token.after, false)))])
  {
    hide Complete, FindKey;
    WriteHops(s);
    assert s.procs == [s.procs[0]];
    Solo();
  }

  /** The only call's record with the token its account lock yields. */
  ghost function WithToken(s: Sys): Proc
    requires |s.procs| == 1 && User(s.procs[0].call) in s.accounts
  {
    var q := s.procs[0];
    var before := s.accounts[User(q.call)].balance;
    q.(pc := InsertLedger, token := Token(before, before + Signed(Dir(q.call), Amount(q.call))))
  }

  ghost predicate AtAccountLock(s: Sys) {
    |s.procs| == 1 && s.procs[0].pc.LockAccount? && s.procs[0].call.Adjust?
  }

  lemma LockFails(s: Sys, e: Error)
    requires AtAccountLock(s) && e == if s.procs[0].call.target !in s.accounts then NoAccount else InsufficientPoints
    requires e == InsufficientPoints ==> WithToken(s).token.after < 0
    ensures Complete(s) == s.(procs := [s.procs[0].(pc := Finished(Failed(e)))])
  {
    assert s.procs == [s.procs[0]];
    Solo();
    Hop(s, Fail(s, 0, e));
  }

  lemma LockSucceeds(s: Sys)
    requires AtAccountLock(s) && s.procs[0].call.target in s.accounts && WithToken(s).token.after >= 0
    ensures Complete(s) == Complete(s.(procs := [WithToken(s)]))
  {
    hide Complete, DoCommit, FindKey, FindBet, FindRef, SameBet, SameAdjustment;
    assert s.procs == [s.procs[0]];
    Solo();
    Hop(s, s.(procs := [WithToken(s)]));
  }

  lemma KeyTaken(s: Sys)
    requires AtAccountLock(s) && s.procs[0].call.target in s.accounts && WithToken(s).token.after >= 0
    requires FindKey(s.ledger, s.procs[0].call.ikey).Some?
    ensures Complete(s) == Complete(s.(procs := [WithToken(s).(pc := Find(true))]))
  {
    hide Complete, DoCommit, FindKey, FindBet, FindRef, SameBet, SameAdjustment;
    LockSucceeds(s);
    Solo();
    Hop(s.(procs := [WithToken(s)]), s.(procs := [WithToken(s).(pc := Find(true))]));
  }

  lemma AdjustmentWritten(s: Sys, e: Entry)
    requires AtAccountLock(s) && s.procs[0].call.target in s.accounts && WithToken(s).token.after >= 0
    requires FindKey(s.ledger, s.procs[0].call.ikey).None? && e == EntryOf(WithToken(s))
    ensures var q := s.procs[0]; var c := q.call;
      Complete(s) == s.(
        accounts := s.accounts[c.target := Account(e.after, s.accounts[c.target].version + 1)],
        ledger := s.ledger + [e],
        logs := s.logs + [Log(q.id, c.admin, c.target, c.direction, c.amount, c.reason, 0)],
        procs := [WithToken(s).(pc := Finished(Adjusted(|s.ledger|, e.before, e.after, q.id, false)))])
  {
    LockSucceeds(s);
    WriteHops(s.(procs := [WithToken(s)]));
  }
}
