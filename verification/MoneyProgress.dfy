/**
 * Deadlock freedom and termination. Every transaction takes its locks in the order round, account,
 * bet key, ledger key, so whoever holds the highest contended one can always run.
 */
module MoneyProgress {
  import opened Ledger
  import opened Money
  import opened MoneyInvariant
  import RE = RoundEngine

  predicate ApiReady(s: Sys, p: nat) {
    p < |s.procs| && Advance(s, p).Some?
  }

  predicate EngineReady(s: Sys, e: nat) {
    e < |s.db.engines| && RE.Advance(s.db, e, s.db.clock, HeldRounds(s)).Some?
  }

  ghost predicate SomeApiReady(s: Sys) {
    exists p: nat :: ApiReady(s, p)
  }

  lemma WhoHolds(s: Sys, p: nat, held: Proc -> bool) returns (q: nat)
    requires !Others(s, p, held)
    ensures q < |s.procs| && q != p && held(s.procs[q])
  {
    q :| 0 <= q < |s.procs| && q != p && held(s.procs[q]);
  }

  lemma HoldsKnownAccount(s: Sys, q: nat)
    requires Inv(s) && q < |s.procs| && HoldsAccount(s.procs[q], User(s.procs[q].call))
    ensures PcFits(s.procs[q]) && User(s.procs[q].call) in s.accounts
  {
    assert ProcOk(s, q, s.procs[q]);
  }

  /** The holder of a ledger key only has its balance update and commit left. */
  lemma LedgerKeyHolderRuns(s: Sys, q: nat)
    requires q < |s.procs| && (s.procs[q].pc.UpdateAccount? || s.procs[q].pc.Commit?)
              && User(s.procs[q].call) in s.accounts
    ensures SomeApiReady(s)
  {
    assert ApiReady(s, q);
  }

  lemma LedgerInserterRuns(s: Sys, q: nat)
    requires Inv(s) && q < |s.procs| && s.procs[q].pc.InsertLedger?
    ensures SomeApiReady(s)
  {
    hide Inv;
    if DoInsertLedger(s, q).None? {
      var r := WhoHolds(s, q, y => HoldsLedgerKey(y, KeyOf(s.procs[q])));
      HoldsKnownAccount(s, r);
      LedgerKeyHolderRuns(s, r);
    } else {
      assert ApiReady(s, q);
    }
  }

  /** Another insert of the same (user, key) would hold the very account this one holds. */
  lemma BetInserterRuns(s: Sys, q: nat)
    requires Inv(s) && q < |s.procs| && s.procs[q].pc.InsertBet? && s.procs[q].call.PlaceBet?
    ensures SomeApiReady(s)
  {
    hide Inv;
    var c := s.procs[q].call;
    forall r | 0 <= r < |s.procs| && r != q ensures !HoldsBetKey(s.procs[r], c.user, c.key) {
      PairOf(s, q, r);
    }
    assert Others(s, q, y => HoldsBetKey(y, c.user, c.key));
    assert ApiReady(s, q);
  }

  /** The holder of an account can run, or waits for a ledger key whose holder can. */
  lemma AccountHolderRuns(s: Sys, q: nat)
    requires Inv(s) && q < |s.procs| && HoldsAccount(s.procs[q], User(s.procs[q].call))
    ensures SomeApiReady(s)
  {
    HoldsKnownAccount(s, q);
    match s.procs[q].pc
    case InsertBet => BetInserterRuns(s, q);
    case InsertItems => assert ApiReady(s, q);
    case InsertLedger => LedgerInserterRuns(s, q);
    case _ => LedgerKeyHolderRuns(s, q);
  }

  lemma AccountWaiterRuns(s: Sys, q: nat)
    requires Inv(s) && q < |s.procs| && s.procs[q].pc.LockAccount?
    ensures SomeApiReady(s)
  {
    if DoLockAccount(s, q).None? {
      var r := WhoHolds(s, q, y => HoldsAccount(y, User(s.procs[q].call)));
      AccountHolderRuns(s, r);
    } else {
      assert ApiReady(s, q);
    }
  }

  lemma RoundHolderRuns(s: Sys, q: nat)
    requires Inv(s) && q < |s.procs| && s.procs[q].call.PlaceBet? && HoldsRound(s.procs[q], s.procs[q].call.round)
    ensures SomeApiReady(s)
  {
    if s.procs[q].pc.LockAccount? {
      AccountWaiterRuns(s, q);
    } else {
      AccountHolderRuns(s, q);
    }
  }

  /** While a call is unfinished, some call can run. */
  lemma UnfinishedCallRuns(s: Sys, p: nat)
    requires Inv(s) && p < |s.procs| && !s.procs[p].pc.Finished?
    ensures SomeApiReady(s)
  {
    var x := s.procs[p];
    assert ProcOk(s, p, x);
    if HoldsAccount(x, User(x.call)) {
      AccountHolderRuns(s, p);
    } else if x.pc.LockAccount? {
      AccountWaiterRuns(s, p);
    } else if x.pc.LockRound? && DoLockRound(s, p).None? {
      var q := WhoHolds(s, p, y => HoldsRound(y, x.call.round));
      RoundHolderRuns(s, q);
    } else {
      assert ApiReady(s, p);
    }
  }

  lemma HeldRoundRuns(s: Sys, r: nat)
    requires Inv(s) && r in HeldRounds(s)
    ensures SomeApiReady(s)
  {
    var q :| 0 <= q < |s.procs| && s.procs[q].call.PlaceBet? && HoldsRound(s.procs[q], s.procs[q].call.round)
        && s.procs[q].call.round == r;
    RoundHolderRuns(s, q);
  }

  /** An engine waits only for the row of an open bet, and then some call can run. */
  lemma UnfinishedEngineRuns(s: Sys, e: nat)
    requires Inv(s) && e < |s.db.engines| && !s.db.engines[e].pc.Done?
    ensures EngineReady(s, e) || SomeApiReady(s)
  {
    if !EngineReady(s, e) {
      HeldRoundRuns(s, s.db.engines[e].pc.id);
    }
  }

  // ---- termination ----

  /** How many statements a call can still run. */
  function Left(pc: Pc): nat {
    match pc
    case CheckUser => 14
    case Find(raced) => if raced then 4 else 13
    case Begin => 12
    case LockRound => 11
    case InsertLog => 11
    case LockAccount => 10
    case InsertBet => 9
    case InsertItems => 8
    case InsertLedger => 7
    case UpdateAccount => 6
    case Commit => 5
    case Replay(_) => 3
    case Finished(_) => 0
  }

  function EngineLeft(pc: RE.Pc): nat {
    match pc
    case AtFindLive => 4
    case AtNextNumber => 2
    case AtCreate(_) => 1
    case AtOpen(_) => 1
    case AtBeginLock(_) => 2
    case AtLock(_, _) => 1
    case Done(_) => 0
  }

  function ApiWork(procs: seq<Proc>): nat {
    if procs == [] then 0 else ApiWork(procs[..|procs| - 1]) + Left(procs[|procs| - 1].pc)
  }

  function EngineWork(engines: seq<RE.Engine>): nat {
    if engines == [] then 0 else EngineWork(engines[..|engines| - 1]) + EngineLeft(engines[|engines| - 1].pc)
  }

  function Work(s: Sys): nat {
    ApiWork(s.procs) + EngineWork(s.db.engines)
  }

  lemma {:induction false} ApiWorkUpdate(procs: seq<Proc>, p: nat, q: Proc)
    requires p < |procs|
    ensures ApiWork(procs[p := q]) == ApiWork(procs) - Left(procs[p].pc) + Left(q.pc)
  {
    var last := |procs| - 1;
    if p < last {
      ApiWorkUpdate(procs[..last], p, q);
      assert procs[p := q][..last] == procs[..last][p := q];
    } else {
      assert procs[p := q][..last] == procs[..last];
    }
  }

  lemma {:induction false} EngineWorkUpdate(engines: seq<RE.Engine>, e: nat, c: RE.Engine)
    requires e < |engines|
    ensures EngineWork(engines[e := c]) == EngineWork(engines) - EngineLeft(engines[e].pc) + EngineLeft(c.pc)
  {
    var last := |engines| - 1;
    if e < last {
      EngineWorkUpdate(engines[..last], e, c);
      assert engines[e := c][..last] == engines[..last][e := c];
    } else {
      assert engines[e := c][..last] == engines[..last];
    }
  }

  /** A statement changes its own call's record, and brings that call closer to its end. */
  lemma StatementShape(s: Sys, p: nat)
    requires ApiReady(s, p)
    ensures var s' := Advance(s, p).value;
      && |s'.procs| == |s.procs| && s'.procs == s.procs[p := s'.procs[p]] && s'.db == s.db
      && Left(s'.procs[p].pc) < Left(s.procs[p].pc)
  {
    hide DoCommit, DoFind, DoReplay, DoLockRound, DoLockAccount, DoInsertBet, DoInsertLedger;
    match s.procs[p].pc
    case Find(_) => FindShape(s, p);
    case Replay(_) => ReplayShape(s, p);
    case LockRound => LockRoundShape(s, p);
    case LockAccount => LockAccountShape(s, p);
    case InsertBet => InsertBetShape(s, p);
    case InsertLedger => InsertLedgerShape(s, p);
    case Commit => CommitShape(s, p);
    case _ =>
  }

  /** From `s` to `s'` only the record of call `p` changed, to one nearer its end; the rounds are untouched. */
  predicate OnlyOwnRecord(s: Sys, p: nat, s': Sys)
    requires p < |s.procs|
  {
    && |s'.procs| == |s.procs| && s'.procs == s.procs[p := s'.procs[p]] && s'.db == s.db
    && Left(s'.procs[p].pc) < Left(s.procs[p].pc)
  }

  lemma FindShape(s: Sys, p: nat)
    requires p < |s.procs| && s.procs[p].pc.Find?
    ensures OnlyOwnRecord(s, p, DoFind(s, p))
  {
    hide FindBet, FindKey, SameBet;
  }

  lemma ReplayShape(s: Sys, p: nat)
    requires p < |s.procs| && s.procs[p].pc.Replay?
    ensures OnlyOwnRecord(s, p, DoReplay(s, p))
  {
    hide FindRef, SameAdjustment;
  }

  lemma LockRoundShape(s: Sys, p: nat)
    requires p < |s.procs| && s.procs[p].call.PlaceBet? && s.procs[p].pc.LockRound? && DoLockRound(s, p).Some?
    ensures OnlyOwnRecord(s, p, DoLockRound(s, p).value)
  {
    hide Others;
  }

  lemma LockAccountShape(s: Sys, p: nat)
    requires p < |s.procs| && s.procs[p].pc.LockAccount? && DoLockAccount(s, p).Some?
    ensures OnlyOwnRecord(s, p, DoLockAccount(s, p).value)
  {
    hide Others;
  }

  lemma InsertBetShape(s: Sys, p: nat)
    requires p < |s.procs| && s.procs[p].call.PlaceBet? && s.procs[p].pc.InsertBet? && DoInsertBet(s, p).Some?
    ensures OnlyOwnRecord(s, p, DoInsertBet(s, p).value)
  {
    hide Others, FindBet;
  }

  lemma InsertLedgerShape(s: Sys, p: nat)
    requires p < |s.procs| && s.procs[p].pc.InsertLedger? && DoInsertLedger(s, p).Some?
    ensures OnlyOwnRecord(s, p, DoInsertLedger(s, p).value)
  {
    hide Others, FindKey;
  }

  lemma CommitShape(s: Sys, p: nat)
    requires p < |s.procs| && User(s.procs[p].call) in s.accounts
    ensures DoCommit(s, p).procs == s.procs[p := DoCommit(s, p).procs[p]]
    ensures |DoCommit(s, p).procs| == |s.procs| && DoCommit(s, p).procs[p].pc.Finished? && DoCommit(s, p).db == s.db
  {
  }

  lemma EngineStatementShape(d: RE.Db, e: nat, deadline: int, held: set<nat>)
    requires e < |d.engines| && RE.Advance(d, e, deadline, held).Some?
    ensures var d' := RE.Advance(d, e, deadline, held).value;
      && |d'.engines| == |d.engines| && d'.engines == d.engines[e := d'.engines[e]]
      && EngineLeft(d'.engines[e].pc) < EngineLeft(d.engines[e].pc)
  {
  }

  /** A move that runs the next statement of a call or engine that is able to run. */
  predicate Progresses(s: Sys, a: Action) {
    match a
    case Api(p) => ApiReady(s, p)
    case EngineMove(m) =>
      m.Step? && m.e < |s.db.engines| && RE.Advance(s.db, m.e, m.deadline, HeldRounds(s)).Some?
    case _ => false
  }

  lemma ProgressUsesWork(s: Sys, a: Action)
    requires Progresses(s, a)
    ensures Work(Do(s, a)) < Work(s)
  {
    match a
    case Api(p) =>
      StatementShape(s, p);
      ApiWorkUpdate(s.procs, p, Advance(s, p).value.procs[p]);
    case EngineMove(m) =>
      EngineStatementShape(s.db, m.e, m.deadline, HeldRounds(s));
      EngineWorkUpdate(s.db.engines, m.e, RE.Advance(s.db, m.e, m.deadline, HeldRounds(s)).value.engines[m.e]);
  }

  predicate AllProgress(s: Sys, actions: seq<Action>)
    decreases |actions|
  {
    actions == [] || (Progresses(s, actions[0]) && AllProgress(Do(s, actions[0]), actions[1..]))
  }

  /** However the statements of the calls present are scheduled, they run out. */
  lemma {:induction false} RunsAreBounded(s: Sys, actions: seq<Action>)
    requires AllProgress(s, actions)
    ensures |actions| + Work(Run(s, actions)) <= Work(s)
    decreases |actions|
  {
    if actions != [] {
      ProgressUsesWork(s, actions[0]);
      RunsAreBounded(Do(s, actions[0]), actions[1..]);
    }
  }

  lemma {:induction false} WorkBound(procs: seq<Proc>)
    ensures ApiWork(procs) <= 14 * |procs|
    ensures ApiWork(procs) == 0 ==> forall p :: 0 <= p < |procs| ==> procs[p].pc.Finished?
  {
    if procs != [] {
      WorkBound(procs[..|procs| - 1]);
    }
  }

  lemma {:induction false} EngineWorkBound(engines: seq<RE.Engine>)
    ensures EngineWork(engines) <= 4 * |engines|
    ensures EngineWork(engines) == 0 ==> forall e :: 0 <= e < |engines| ==> engines[e].pc.Done?
  {
    if engines != [] {
      EngineWorkBound(engines[..|engines| - 1]);
    }
  }

  /**
   * No deadlock: in every state satisfying the invariant either every call and every engine has
   * finished, or one of them can run its next statement. With RunsAreBounded, every schedule of N
   * calls and M engines ends, after at most 14N + 4M statements, with all of them finished.
   */
  lemma NoDeadlock(s: Sys)
    requires Inv(s)
    ensures Work(s) <= 14 * |s.procs| + 4 * |s.db.engines|
    ensures (exists a :: Progresses(s, a))
            || ((forall p :: 0 <= p < |s.procs| ==> s.procs[p].pc.Finished?)
                && (forall e :: 0 <= e < |s.db.engines| ==> s.db.engines[e].pc.Done?))
  {
    WorkBound(s.procs);
    EngineWorkBound(s.db.engines);
    if p :| 0 <= p < |s.procs| && !s.procs[p].pc.Finished? {
      UnfinishedCallRuns(s, p);
      var q: nat :| ApiReady(s, q);
      assert Progresses(s, Api(q));
    } else if e :| 0 <= e < |s.db.engines| && !s.db.engines[e].pc.Done? {
      UnfinishedEngineRuns(s, e);
      if EngineReady(s, e) {
        assert Progresses(s, EngineMove(RE.Step(e, s.db.clock)));
      } else {
        var q: nat :| ApiReady(s, q);
        assert Progresses(s, Api(q));
      }
    }
  }
}
