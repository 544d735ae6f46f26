/** What the shared database promises in every run of any number of concurrent calls, crashes and engines. */
module MoneyTheorems {
  import opened Prelude
  import opened Ledger
  import opened Payload
  import opened Money
  import opened MoneyInvariant
  import opened MoneyCommit
  import Progress = MoneyProgress
  import RT = RoundTable
  import RE = RoundEngine

  ghost predicate Reachable(s: Sys) {
    exists clock, actions :: s == Run(Init(clock), actions)
  }

  lemma {:induction false} RunOn(s: Sys, actions: seq<Action>, more: seq<Action>)
    ensures Run(s, actions + more) == Run(Run(s, actions), more)
    decreases |actions|
  {
    hide Do;
    if actions == [] {
      assert [] + more == more;
    } else {
      RunOn(Do(s, actions[0]), actions[1..], more);
      assert (actions + more)[1..] == actions[1..] + more;
    }
  }

  lemma ReachableRun(s: Sys, more: seq<Action>)
    requires Reachable(s)
    ensures Reachable(Run(s, more))
  {
    hide Do;
    var clock, actions :| s == Run(Init(clock), actions);
    RunOn(Init(clock), actions, more);
  }

  lemma ReachableInv(s: Sys)
    requires Reachable(s)
    ensures Inv(s)
  {
    var clock, actions :| s == Run(Init(clock), actions);
    RunKeeps(Init(clock), actions);
  }

  lemma OutcomeHolds(s: Sys, p: nat)
    requires Reachable(s) && p < |s.procs| && s.procs[p].pc.Finished?
    ensures OutcomeOk(s, p, s.procs[p].call, s.procs[p].pc.outcome)
  {
    ReachableInv(s);
    assert ProcOk(s, p, s.procs[p]);
  }

  lemma BetHolds(s: Sys, b: nat)
    requires Reachable(s) && b < |s.bets|
    ensures BetOk(s, b)
  {
    ReachableInv(s);
  }

  lemma EntriesHold(s: Sys)
    requires Reachable(s)
    ensures EntriesJustified(s)
  {
    ReachableInv(s);
  }

  lemma LogHolds(s: Sys, l: nat)
    requires Reachable(s) && l < |s.logs|
    ensures LogOk(s, l) && forall k :: 0 <= k < |s.logs| && s.logs[k].id == s.logs[l].id ==> k == l
  {
    ReachableInv(s);
  }

  // ---- exactly-once betting ----

  /** Each (user, key) has at most one bet, each call wrote at most one, and bet ids are distinct. */
  lemma OneBetPerKey(s: Sys, a: nat, b: nat)
    requires Reachable(s) && a < |s.bets| && b < |s.bets|
    requires (s.bets[a].user == s.bets[b].user && s.bets[a].key == s.bets[b].key)
             || s.bets[a].id == s.bets[b].id || s.bets[a].caller == s.bets[b].caller
    ensures a == b
  {
    ReachableInv(s);
    assert BetOk(s, a) && BetOk(s, b);
  }

  /** Entry `i` is the one debit of bet `b`. */
  ghost predicate OnlyDebit(s: Sys, b: nat, i: nat) {
    && b < |s.bets| && i < |s.ledger|
    && s.ledger[i].refType == BetPlaced && s.ledger[i].refId == Some(s.bets[b].id) && DebitOf(s.ledger[i], s.bets[b])
    && forall j :: 0 <= j < |s.ledger| && s.ledger[j].refId == Some(s.bets[b].id) ==> j == i
  }

  /** Every bet has exactly one debit, for its total, which is the sum of its items. */
  lemma BetHasOneDebit(s: Sys, b: nat)
    requires Reachable(s) && b < |s.bets|
    ensures s.bets[b].total == Total(s.bets[b].items) > 0
    ensures exists i: nat :: OnlyDebit(s, b, i)
  {
    ReachableInv(s);
    assert BetOk(s, b);
    assert OnlyDebit(s, b, FindRef(s.ledger, BetPlaced, s.bets[b].id).value);
  }

  /** Every `bet_placed` entry is the one debit of one committed bet. */
  lemma DebitHasOneBet(s: Sys, i: nat)
    requires Reachable(s) && i < |s.ledger| && s.ledger[i].refType == BetPlaced
    ensures exists b: nat :: OnlyDebit(s, b, i)
  {
    EntriesHold(s);
    assert s.ledger[i].refId.value in BetIds(s.bets);
    var b :| 0 <= b < |s.bets| && s.bets[b].id == s.ledger[i].refId.value;
    BetHolds(s, b);
    assert OnlyDebit(s, b, i);
  }

  predicate PlacedBy(s: Sys, p: nat) {
    p < |s.procs| && s.procs[p].call.PlaceBet? && s.procs[p].pc.Finished? && s.procs[p].pc.outcome.Placed?
  }

  /**
   * A success tells the truth about the request it answers, whoever inserted the bet: same selections
   * and sums, and the balance after that very debit (the `?? 0n` fallback is never used).
   */
  lemma ResponseFitsRequest(s: Sys, p: nat)
    requires Reachable(s) && PlacedBy(s, p)
    ensures var c, o := s.procs[p].call, s.procs[p].pc.outcome;
      && o.at < |s.bets| && s.bets[o.at].id == o.betId
      && s.bets[o.at].user == c.user && s.bets[o.at].key == c.key && s.bets[o.at].round == c.round
      && SameSums(s.bets[o.at].items, c.items) && o.total == Total(c.items)
      && exists i: nat :: OnlyDebit(s, o.at, i) && s.ledger[i].after == o.balance
  {
    var c, o := s.procs[p].call, s.procs[p].pc.outcome;
    OutcomeHolds(s, p);
    BetHolds(s, o.at);
    BetHasOneDebit(s, o.at);
    CallIsValid(s, p);
    MatchMeansSameSums(s.bets[o.at].items, c.items);
    var i: nat :| OnlyDebit(s, o.at, i);
    assert i == FindRef(s.ledger, BetPlaced, o.betId).value;
  }

  lemma CallIsValid(s: Sys, p: nat)
    requires Reachable(s) && p < |s.procs|
    ensures ValidCall(s.procs[p].call)
  {
    ReachableInv(s);
    assert ProcOk(s, p, s.procs[p]);
  }

  /** All successes for one (user, key) agree on bet id, total and balance, and at most one is not a replay. */
  lemma ResponsesAgree(s: Sys, p: nat, q: nat)
    requires Reachable(s) && PlacedBy(s, p) && PlacedBy(s, q)
    requires s.procs[p].call.user == s.procs[q].call.user && s.procs[p].call.key == s.procs[q].call.key
    ensures var o, o' := s.procs[p].pc.outcome, s.procs[q].pc.outcome;
      && o.betId == o'.betId && o.total == o'.total && o.balance == o'.balance
      && (p != q ==> o.replayed || o'.replayed)
  {
    OutcomeHolds(s, p);
    OutcomeHolds(s, q);
    OneBetPerKey(s, s.procs[p].pc.outcome.at, s.procs[q].pc.outcome.at);
  }

  /** Has the call succeeded with rows of its own? */
  predicate OwnSuccess(q: Proc) {
    q.pc.Finished? && !q.pc.outcome.Failed? && !q.pc.outcome.replayed
  }

  predicate SameTables(s: Sys, t: Sys) {
    t.accounts == s.accounts && t.ledger == s.ledger && t.bets == s.bets && t.logs == s.logs
  }

  /** A call's statement changes a table only as the COMMIT of a call that then has succeeded. */
  lemma OnlyCommitsPublish(s: Sys, p: nat)
    requires p < |s.procs| && Advance(s, p).Some?
    ensures SameTables(s, Advance(s, p).value)
            || (s.procs[p].pc.Commit? && p < |Advance(s, p).value.procs| && OwnSuccess(Advance(s, p).value.procs[p]))
  {
    hide DoCommit, FindBet, FindKey, FindRef, SameBet, SameAdjustment, Others;
    if s.procs[p].pc.Commit? {
      CommitSucceeds(s, p);
    }
  }

  lemma CommitSucceeds(s: Sys, p: nat)
    requires p < |s.procs| && User(s.procs[p].call) in s.accounts
    ensures p < |DoCommit(s, p).procs| && OwnSuccess(DoCommit(s, p).procs[p])
    ensures DoCommit(s, p).db == s.db
    ensures DoCommit(s, p).bets == s.bets
            || (s.procs[p].call.PlaceBet? && |DoCommit(s, p).bets| == |s.bets| + 1
                 && DoCommit(s, p).bets[..|s.bets|] == s.bets
                && DoCommit(s, p).bets[|s.bets|].round == s.procs[p].call.round)
  {
  }

  lemma FinishedStep(s: Sys, a: Action, p: nat)
    requires p < |s.procs| && s.procs[p].pc.Finished?
    ensures p < |Do(s, a).procs| && Do(s, a).procs[p] == s.procs[p]
  {
    if a.Api? && a.p < |s.procs| && Advance(s, a.p).Some? {
      Progress.StatementShape(s, a.p);
    }
  }

  /** A finished call stays as it finished. */
  lemma {:induction false} FinishedStays(s: Sys, actions: seq<Action>, p: nat)
    requires p < |s.procs| && s.procs[p].pc.Finished?
    ensures p < |Run(s, actions).procs| && Run(s, actions).procs[p] == s.procs[p]
    decreases |actions|
  {
    hide Do;
    if actions != [] {
      FinishedStep(s, actions[0], p);
      FinishedStays(Do(s, actions[0]), actions[1..], p);
    }
  }

  /**
   * None of the statements of a call that in the end has no success of its own (failed, crashed, replayed
   * or still open) has changed an account, a ledger row, a bet or an audit row.
   */
  lemma FailureChangesNothing(s: Sys, p: nat, rest: seq<Action>)
    requires p < |s.procs|
    requires p < |Run(Do(s, Api(p)), rest).procs| && !OwnSuccess(Run(Do(s, Api(p)), rest).procs[p])
    ensures SameTables(s, Do(s, Api(p)))
  {
    if Advance(s, p).Some? {
      OnlyCommitsPublish(s, p);
      if p < |Do(s, Api(p)).procs| && OwnSuccess(Do(s, Api(p)).procs[p]) {
        FinishedStays(Do(s, Api(p)), rest, p);
      }
    }
  }

  /** A crash ends an open call at any statement: nothing it wrote stays, and it holds no lock and no key any more. */
  lemma CrashRollsBack(s: Sys, p: nat)
    requires p < |s.procs| && !s.procs[p].pc.Finished?
    ensures var s' := Do(s, ApiCrash(p));
      && SameTables(s, s') && s'.db == s.db && |s'.procs| == |s.procs|
      && s'.procs[p].pc == Finished(Failed(CallCrashed))
      && (forall q :: 0 <= q < |s.procs| && q != p ==> s'.procs[q] == s.procs[q])
      && (forall u :: !HoldsAccount(s'.procs[p], u)) && (forall r :: !HoldsRound(s'.procs[p], r))
      && (forall u, key :: !HoldsBetKey(s'.procs[p], u, key)) && forall k :: !HoldsLedgerKey(s'.procs[p], k)
  {
  }

  /** Entry `i` is the one effect of a bet or an audit row that a call other than `p` wrote. */
  ghost predicate AnothersEffect(s: Sys, i: nat, p: nat) {
    || (exists b: nat :: OnlyDebit(s, b, i) && s.bets[b].caller != p)
    || (exists l: nat :: OnlyEffect(s, l, i) && s.logs[l].caller != p)
  }

  /** Such a call has left no bet and no audit row, and every ledger row is the effect of another call's. */
  lemma FailureLeavesNothing(s: Sys, p: nat)
    requires Reachable(s) && p < |s.procs| && !OwnSuccess(s.procs[p])
    ensures forall b :: 0 <= b < |s.bets| ==> s.bets[b].caller != p
    ensures forall l :: 0 <= l < |s.logs| ==> s.logs[l].caller != p
    ensures forall i: nat :: i < |s.ledger| ==> AnothersEffect(s, i, p)
  {
    ReachableInv(s);
    forall b | 0 <= b < |s.bets| ensures s.bets[b].caller != p {
      assert BetOk(s, b);
    }
    forall l | 0 <= l < |s.logs| ensures s.logs[l].caller != p {
      assert LogOk(s, l);
    }
    forall i: nat | i < |s.ledger| ensures AnothersEffect(s, i, p) {
      if s.ledger[i].refType == BetPlaced {
        DebitHasOneBet(s, i);
      } else {
        EffectHasOneLog(s, i);
      }
    }
  }

  // ---- the ledger ----

  /**
   * Per account the ledger is an unbroken chain from 0, the cached balance is its sum and never
   * negative, the version is its length; and a held token still shows the account's balance.
   */
  lemma LedgerIntegrity(s: Sys)
    requires Reachable(s)
    ensures Chained(s.ledger)
    ensures forall u :: u in s.accounts ==> s.accounts[u].balance == Derived(s.ledger, u, |s.ledger|) >= 0
    ensures forall u :: u in s.accounts ==>
              s.accounts[u].balance ==
              Turnover(s.ledger, u, Credit, |s.ledger|) - Turnover(s.ledger, u, Debit, |s.ledger|)
    ensures forall u :: u in s.accounts ==> s.accounts[u].version == Entries(s.ledger, u, |s.ledger|)
    ensures forall p :: 0 <= p < |s.procs| && HoldsAccount(s.procs[p], User(s.procs[p].call)) ==> TokenOk(s, s.procs[p])
  {
    ReachableInv(s);
    forall u | u in s.accounts
      ensures s.accounts[u].balance ==
              Turnover(s.ledger, u, Credit, |s.ledger|) - Turnover(s.ledger, u, Debit, |s.ledger|)
    {
      CreditsLessDebits(s.ledger, u, |s.ledger|);
    }
    forall p | 0 <= p < |s.procs| && HoldsAccount(s.procs[p], User(s.procs[p].call)) ensures TokenOk(s, s.procs[p]) {
      assert ProcOk(s, p, s.procs[p]);
    }
  }

  // ---- betting cut-off ----

  /** Every accepted bet's transaction began before the deadline, and the round was locked no earlier than that. */
  lemma BetsBeatTheDeadline(s: Sys, b: nat)
    requires Reachable(s) && b < |s.bets|
    ensures var bet := s.bets[b];
      && bet.round < |s.db.rows| && bet.txStart < s.db.rows[bet.round].deadline
      && (s.db.rows[bet.round].lockedAt.Some? ==> s.db.rows[bet.round].deadline <= s.db.rows[bet.round].lockedAt.value)
  {
    ReachableInv(s);
    assert BetOk(s, b);
  }

  ghost predicate PastBetting(s: Sys, r: nat) {
    r < |s.db.rows| && s.db.rows[r].state != RT.ROUND_CREATED && !RT.Betting(s.db.rows[r].state)
  }

  /** A statement adds at most one bet, and only on a round that still takes bets at that moment. */
  lemma BetsGrowInBettingOnly(s: Sys, p: nat)
    requires Inv(s) && p < |s.procs| && Advance(s, p).Some?
    ensures var s' := Advance(s, p).value;
      && s'.db == s.db && |s.bets| <= |s'.bets| <= |s.bets| + 1
      && (forall b :: 0 <= b < |s.bets| ==> s'.bets[b] == s.bets[b])
      && (|s'.bets| > |s.bets| ==>
            var r := s'.bets[|s.bets|].round;
            r < |s.db.rows| && RT.Betting(s.db.rows[r].state))
  {
    hide Inv, DoCommit, FindBet, FindKey, FindRef, SameBet, SameAdjustment, Others;
    CallOf(s, p);
    OnlyCommitsPublish(s, p);
    if s.procs[p].pc.Commit? {
      CommitSucceeds(s, p);
      var s' := Advance(s, p).value;
      forall b | 0 <= b < |s.bets| ensures s'.bets[b] == s.bets[b] {
        assert s'.bets[..|s.bets|][b] == s'.bets[b];
      }
    }
  }

  lemma RowsPastBetting(s: Sys, a: RE.Action, r: nat)
    requires PastBetting(s, r)
    ensures PastBetting(Do(s, EngineMove(a)), r)
  {
    RE.RowsStep(s.db, RE.Move(a, HeldRounds(s)));
    assert RE.RowStep(s.db.rows[r], Do(s, EngineMove(a)).db.rows[r]);
  }

  /** From `s` to `s'` bets are only added, and none of them on round `r`. */
  ghost predicate NoBetAddedOn(s: Sys, s': Sys, r: nat) {
    && |s.bets| <= |s'.bets|
    && (forall b :: 0 <= b < |s.bets| ==> s'.bets[b] == s.bets[b])
    && (forall b :: |s.bets| <= b < |s'.bets| ==> s'.bets[b].round != r)
  }

  lemma StatementPastBetting(s: Sys, p: nat, r: nat)
    requires Inv(s) && PastBetting(s, r) && p < |s.procs| && Advance(s, p).Some?
    ensures PastBetting(Advance(s, p).value, r) && NoBetAddedOn(s, Advance(s, p).value, r)
  {
    BetsGrowInBettingOnly(s, p);
    var s' := Advance(s, p).value;
    forall b | |s.bets| <= b < |s'.bets| ensures s'.bets[b].round != r {
      assert b == |s.bets|;
    }
  }

  lemma PastBettingStays(s: Sys, a: Action, r: nat)
    requires Inv(s) && PastBetting(s, r)
    ensures PastBetting(Do(s, a), r) && NoBetAddedOn(s, Do(s, a), r)
  {
    if a.EngineMove? {
      RowsPastBetting(s, a.action, r);
    } else if a.Api? && a.p < |s.procs| && Advance(s, a.p).Some? {
      StatementPastBetting(s, a.p, r);
    }
  }

  /** Once a round has left betting, no bet is ever added to it, whatever transactions were waiting for its row. */
  lemma {:induction false} LockedRoundIsFrozen(s: Sys, actions: seq<Action>, r: nat)
    requires Inv(s) && PastBetting(s, r)
    ensures PastBetting(Run(s, actions), r) && NoBetAddedOn(s, Run(s, actions), r)
    decreases |actions|
  {
    if actions != [] {
      PastBettingStays(s, actions[0], r);
      DoKeeps(s, actions[0]);
      LockedRoundIsFrozen(Do(s, actions[0]), actions[1..], r);
    }
  }

  /** Call `p` has still to begin its transaction, or began it at `time` or later; so have its bets. */
  ghost predicate BeginsSince(s: Sys, p: nat, time: int) {
    && time <= s.db.clock && p < |s.procs|
    && (var q := s.procs[p];
        q.pc.CheckUser? || q.pc.Find? || q.pc.Replay? || q.pc.Begin? || q.pc.Finished? || time <= q.start)
    && forall b :: 0 <= b < |s.bets| && s.bets[b].caller == p ==> time <= s.bets[b].txStart
  }

  lemma BeginsSinceStays(s: Sys, a: Action, p: nat, time: int)
    requires BeginsSince(s, p, time)
    ensures BeginsSince(Do(s, a), p, time)
  {
    hide Advance, HeldRounds, RE.Do;
    if a.EngineMove? {
      RE.EnginesStep(s.db, RE.Move(a.action, HeldRounds(s)));
    } else if a.Api? && a.p < |s.procs| && Advance(s, a.p).Some? {
      BeginsSinceStatement(s, a.p, p, time);
    }
  }

  lemma BeginsSinceStatement(s: Sys, q: nat, p: nat, time: int)
    requires BeginsSince(s, p, time) && q < |s.procs| && Advance(s, q).Some?
    ensures BeginsSince(Advance(s, q).value, p, time)
  {
    hide FindBet, FindKey, FindRef, SameBet, SameAdjustment, Others, DoCommit;
    if s.procs[q].pc.Commit? {
      BeginsSinceCommit(s, q, p, time);
    }
  }

  lemma BeginsSinceCommit(s: Sys, q: nat, p: nat, time: int)
    requires BeginsSince(s, p, time) && q < |s.procs| && User(s.procs[q].call) in s.accounts && s.procs[q].pc.Commit?
    ensures BeginsSince(DoCommit(s, q), p, time)
  {
    hide EntryOf, Total;
  }

  lemma {:induction false} BeginsSinceOverRuns(s: Sys, actions: seq<Action>, p: nat, time: int)
    requires BeginsSince(s, p, time)
    ensures BeginsSince(Run(s, actions), p, time)
    decreases |actions|
  {
    hide Do, BeginsSince;
    if actions != [] {
      BeginsSinceStays(s, actions[0], p, time);
      BeginsSinceOverRuns(Do(s, actions[0]), actions[1..], p, time);
    }
  }

  /**
   * The deadline is final: a placement whose transaction has still to begin when the clock reads the round's
   * deadline gets no bet on that round in any run. Having sent the request earlier does not help it.
   */
  lemma TooLateIsTooLate(s: Sys, actions: seq<Action>, p: nat, b: nat)
    requires Reachable(s) && p < |s.procs| && (s.procs[p].pc.Find? || s.procs[p].pc.Replay? || s.procs[p].pc.Begin?)
    requires b < |Run(s, actions).bets| && Run(s, actions).bets[b].caller == p
    ensures var s' := Run(s, actions); var bet := s'.bets[b];
      s.db.clock <= bet.txStart && bet.round < |s'.db.rows| && s.db.clock < s'.db.rows[bet.round].deadline
  {
    FailureLeavesNothing(s, p);
    BeginsSinceOverRuns(s, actions, p, s.db.clock);
    ReachableRun(s, actions);
    BetsBeatTheDeadline(Run(s, actions), b);
  }

  // ---- the audit trail ----

  /** Entry `i` is the one ledger effect of audit row `l`. */
  ghost predicate OnlyEffect(s: Sys, l: nat, i: nat) {
    && l < |s.logs| && i < |s.ledger|
    && s.ledger[i].refType == AdminRef(s.logs[l].direction) && s.ledger[i].refId == Some(s.logs[l].id)
    && EffectOf(s.ledger[i], s.logs[l])
    && forall j :: 0 <= j < |s.ledger| && s.ledger[j].refId == Some(s.logs[l].id) ==> j == i
  }

  /** Every audit row has exactly one ledger effect: same target, direction, amount and reason. */
  lemma LogHasOneEffect(s: Sys, l: nat)
    requires Reachable(s) && l < |s.logs|
    ensures exists i: nat :: OnlyEffect(s, l, i)
  {
    ReachableInv(s);
    assert LogOk(s, l);
    assert OnlyEffect(s, l, FindRef(s.ledger, AdminRef(s.logs[l].direction), s.logs[l].id).value);
  }

  /** Every entry that is not a bet's debit is the one effect of exactly one audit row. */
  lemma EffectHasOneLog(s: Sys, i: nat)
    requires Reachable(s) && i < |s.ledger| && s.ledger[i].refType != BetPlaced
    ensures exists l: nat :: OnlyEffect(s, l, i)
    ensures forall k: nat, l: nat :: OnlyEffect(s, k, i) && OnlyEffect(s, l, i) ==> k == l
  {
    EntriesHold(s);
    assert s.ledger[i].refId.value in LogIds(s.logs);
    var l :| 0 <= l < |s.logs| && s.logs[l].id == s.ledger[i].refId.value;
    LogHolds(s, l);
    assert OnlyEffect(s, l, i);
  }

  predicate AdjustedBy(s: Sys, p: nat) {
    p < |s.procs| && s.procs[p].call.Adjust? && s.procs[p].pc.Finished? && s.procs[p].pc.outcome.Adjusted?
  }

  lemma OneEntryPerKey(s: Sys, i: nat, j: nat)
    requires Reachable(s) && i < |s.ledger| && j < |s.ledger| && s.ledger[i].key == s.ledger[j].key
    ensures i == j
  {
    ReachableInv(s);
  }

  /**
   * Two successes with one key are the same request of the same admin, report the same row, and only
   * one wrote it; so a key presented with any differing field or admin can only fail.
   */
  lemma AdjustmentsAgree(s: Sys, p: nat, q: nat)
    requires Reachable(s) && AdjustedBy(s, p) && AdjustedBy(s, q) && s.procs[p].call.ikey == s.procs[q].call.ikey
    ensures var o, o' := s.procs[p].pc.outcome, s.procs[q].pc.outcome;
      && s.procs[p].call == s.procs[q].call
      && o.at == o'.at && o.before == o'.before && o.after == o'.after && o.logId == o'.logId
      && (p != q ==> o.replayed || o'.replayed)
  {
    OutcomeHolds(s, p);
    OutcomeHolds(s, q);
    OneEntryPerKey(s, s.procs[p].pc.outcome.at, s.procs[q].pc.outcome.at);
  }
}
