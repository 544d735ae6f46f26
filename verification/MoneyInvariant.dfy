/** The invariant of the shared database, and that every statement, crash and engine move keeps it. */
module MoneyInvariant {
  import opened Prelude
  import opened Ledger
  import opened Payload
  import opened Money
  import RT = RoundTable
  import RE = RoundEngine

  // ---- what each part of the state promises ----

  /** Has the call generated the id of the row it is writing? */
  predicate HasId(q: Proc) {
    q.pc.InsertLedger? || q.pc.UpdateAccount? || q.pc.Commit?
        || (if q.call.PlaceBet? then q.pc.InsertItems? else q.pc.LockAccount?)
  }

  predicate PcFits(q: Proc) {
    if q.call.PlaceBet? then !q.pc.CheckUser? && !q.pc.InsertLog?
    else !q.pc.LockRound? && !q.pc.InsertBet? && !q.pc.InsertItems?
  }

  /** While the token is held, the account's committed balance is the token's `before`. */
  ghost predicate TokenOk(s: Sys, q: Proc) {
    var u := User(q.call);
    && u in s.accounts && s.accounts[u].balance == q.token.before
    && q.token.after == q.token.before + Signed(Dir(q.call), Amount(q.call)) >= 0
  }

  /** While the round row is held, the round still accepts bets and the transaction began before its deadline. */
  ghost predicate RoundOk(s: Sys, q: Proc)
    requires q.call.PlaceBet?
  {
    var r := q.call.round;
    && r < |s.db.rows| && s.db.rows[r].game == q.call.game
    && RT.Betting(s.db.rows[r].state) && q.start < s.db.rows[r].deadline
  }

  ghost predicate RefFresh(ledger: seq<Entry>, id: nat) {
    forall i :: 0 <= i < |ledger| ==> ledger[i].refId != Some(id)
  }

  /** The stored bet answers the call. */
  ghost predicate Answers(s: Sys, at: nat, c: Call)
    requires c.PlaceBet?
  {
    at < |s.bets| && s.bets[at].user == c.user && s.bets[at].key == c.key && SameBet(s.bets[at], c)
  }

  ghost predicate ReplayOk(s: Sys, q: Proc)
    requires q.pc.Replay?
  {
    if q.call.PlaceBet? then Answers(s, q.pc.at, q.call)
    else q.pc.at < |s.ledger| && s.ledger[q.pc.at].key == q.call.ikey
  }

  ghost predicate OutcomeOk(s: Sys, p: nat, c: Call, o: Outcome) {
    match o
    case Placed(at, betId, total, balance, replayed) =>
      && c.PlaceBet? && Answers(s, at, c) && s.bets[at].id == betId && s.bets[at].total == total
      && (var i := FindRef(s.ledger, BetPlaced, betId); i.Some? && s.ledger[i.value].after == balance)
      && (!replayed ==> s.bets[at].caller == p)
    case Adjusted(at, before, after, logId, replayed) =>
      && c.Adjust? && at < |s.ledger| && SameAdjustment(s.accounts, s.logs, s.ledger[at], c)
      && s.ledger[at].key == c.ikey && s.ledger[at].before == before && s.ledger[at].after == after
      && s.ledger[at].refId == Some(logId)
      && (!replayed ==> s.logs[FindLog(s.logs, logId).value].caller == p)
    case Failed(_) => true
  }

  ghost predicate ProcOk(s: Sys, p: nat, q: Proc) {
    && ValidCall(q.call) && PcFits(q) && q.start <= s.db.clock
    && (HoldsAccount(q, User(q.call)) ==> TokenOk(s, q))
    && (q.call.PlaceBet? && HoldsRound(q, q.call.round) ==> RoundOk(s, q))
    && (HasId(q) ==> q.id < s.nextId && RefFresh(s.ledger, q.id))
    && (q.call.PlaceBet? && HoldsBetKey(q, q.call.user, q.call.key) ==> FindBet(s.bets, q.call.user, q.call.key).None?)
    && (HoldsLedgerKey(q, KeyOf(q)) ==> FindKey(s.ledger, KeyOf(q)).None?)
    && (q.pc.Replay? ==> ReplayOk(s, q))
    && (q.pc.Finished? ==> OutcomeOk(s, p, q.call, q.pc.outcome))
  }

  /** Two open transactions never hold the same row, key or generated id. */
  ghost predicate Compatible(q: Proc, r: Proc) {
    && !(HoldsAccount(q, User(q.call)) && HoldsAccount(r, User(q.call)))
    && (q.call.PlaceBet? ==> !(HoldsRound(q, q.call.round) && HoldsRound(r, q.call.round)))
    && !(HoldsLedgerKey(q, KeyOf(q)) && HoldsLedgerKey(r, KeyOf(q)))
    && (HasId(q) && HasId(r) ==> q.id != r.id)
  }

  ghost predicate Exclusive(procs: seq<Proc>) {
    forall p, q :: 0 <= p < |procs| && 0 <= q < |procs| && p != q ==> Compatible(procs[p], procs[q])
  }

  function BetIds(bets: seq<Bet>): set<nat> {
    set b | 0 <= b < |bets| :: bets[b].id
  }

  function LogIds(logs: seq<Log>): set<nat> {
    set l | 0 <= l < |logs| :: logs[l].id
  }

  /** Every entry is justified by a committed bet or audit row of its own. */
  ghost predicate EntriesJustified(s: Sys) {
    && (forall i :: 0 <= i < |s.ledger| ==>
          && s.ledger[i].refId.Some? && s.ledger[i].refId.value < s.nextId
          && match s.ledger[i].refType
             case BetPlaced => s.ledger[i].refId.value in BetIds(s.bets)
             case AdminCredit => s.ledger[i].refId.value in LogIds(s.logs)
             case AdminDebit => s.ledger[i].refId.value in LogIds(s.logs)
             case _ => false)
    && (forall i, j :: 0 <= i < j < |s.ledger| ==> s.ledger[i].refId != s.ledger[j].refId)
  }

  ghost predicate DebitOf(e: Entry, b: Bet) {
    e.user == b.user && e.direction == Debit && e.amount == b.total && e.key == BetDebit(b.id)
  }

  /** The call that wrote bet `b` finished with that bet as its own, unreplayed success. */
  ghost predicate BetCaller(procs: seq<Proc>, b: nat, bet: Bet) {
    && bet.caller < |procs| && procs[bet.caller].pc.Finished? && procs[bet.caller].pc.outcome.Placed?
    && !procs[bet.caller].pc.outcome.replayed && procs[bet.caller].pc.outcome.at == b
  }

  ghost predicate BetOk(s: Sys, b: nat)
    requires b < |s.bets|
  {
    var bet := s.bets[b];
    && Distinct(bet.items) && AllPositive(bet.items) && bet.total == Total(bet.items) > 0
    && (var i := FindRef(s.ledger, BetPlaced, bet.id); i.Some? && DebitOf(s.ledger[i.value], bet))
    && BetCaller(s.procs, b, bet)
    && bet.round < |s.db.rows| && bet.txStart < s.db.rows[bet.round].deadline
  }

  ghost predicate BetsOk(s: Sys) {
    && (forall b :: 0 <= b < |s.bets| ==> BetOk(s, b))
    && (forall a, b :: 0 <= a < b < |s.bets| ==>
          s.bets[a].id != s.bets[b].id && !(s.bets[a].user == s.bets[b].user && s.bets[a].key == s.bets[b].key))
  }

  ghost predicate EffectOf(e: Entry, l: Log) {
    e.user == l.target && e.direction == l.direction && e.amount == l.amount && e.description == l.reason
  }

  ghost predicate LogCaller(procs: seq<Proc>, log: Log) {
    && log.caller < |procs| && procs[log.caller].pc.Finished? && procs[log.caller].pc.outcome.Adjusted?
    && !procs[log.caller].pc.outcome.replayed && procs[log.caller].pc.outcome.logId == log.id
  }

  ghost predicate LogOk(s: Sys, l: nat)
    requires l < |s.logs|
  {
    var log := s.logs[l];
    && (var i := FindRef(s.ledger, AdminRef(log.direction), log.id); i.Some? && EffectOf(s.ledger[i.value], log))
    && LogCaller(s.procs, log)
  }

  ghost predicate LogsOk(s: Sys) {
    && (forall l :: 0 <= l < |s.logs| ==> LogOk(s, l))
    && (forall k, l :: 0 <= k < l < |s.logs| ==> s.logs[k].id != s.logs[l].id)
  }

  ghost predicate ProcsOk(s: Sys) {
    forall p :: 0 <= p < |s.procs| ==> ProcOk(s, p, s.procs[p])
  }

  ghost predicate Inv(s: Sys) {
    && RE.Inv(s.db)
    && LedgerOk(s.accounts, s.ledger)
    && EntriesJustified(s)
    && BetsOk(s)
    && LogsOk(s)
    && ProcsOk(s)
    && Exclusive(s.procs)
  }

  lemma CallOf(s: Sys, p: nat)
    requires Inv(s) && p < |s.procs|
    ensures ProcOk(s, p, s.procs[p])
  {
  }

  lemma LedgerOf(s: Sys)
    requires Inv(s)
    ensures LedgerOk(s.accounts, s.ledger)
  {
  }

  lemma PairOf(s: Sys, p: nat, r: nat)
    requires Inv(s) && p < |s.procs| && r < |s.procs| && p != r
    ensures Compatible(s.procs[p], s.procs[r]) && Compatible(s.procs[r], s.procs[p])
  {
  }

  // ---- statements that publish nothing ----

  /**
   * The rows are as they were, but for accounts opened; calls may have moved, begun or drawn ids, finished ones
   * stay.
   */
  ghost predicate SameRows(s: Sys, s': Sys) {
    && s'.ledger == s.ledger && s'.bets == s.bets && s'.logs == s.logs && s'.db == s.db && s.nextId <= s'.nextId
    && (forall u :: u in s.accounts ==> u in s'.accounts && s'.accounts[u] == s.accounts[u])
    && |s.procs| <= |s'.procs|
    && (forall r :: 0 <= r < |s.procs| && s.procs[r].pc.Finished? ==> s'.procs[r] == s.procs[r])
  }

  lemma RowsStay(s: Sys, s': Sys)
    requires Inv(s) && SameRows(s, s')
    ensures EntriesJustified(s') && BetsOk(s') && LogsOk(s')
  {
    hide LedgerOk, RE.Inv, ProcsOk, Exclusive;
    forall b | 0 <= b < |s'.bets| ensures BetOk(s', b) {
      assert BetOk(s, b);
    }
    forall l | 0 <= l < |s'.logs| ensures LogOk(s', l) {
      assert LogOk(s, l);
    }
  }

  lemma CallStays(s: Sys, s': Sys, r: nat, q: Proc)
    requires SameRows(s, s') && ProcOk(s, r, q)
    ensures ProcOk(s', r, q)
  {
  }

  /** A statement that changes only its own call's record (and may draw a fresh id) keeps the invariant. */
  lemma QuietStep(s: Sys, p: nat, q: Proc, nextId: nat)
    requires Inv(s) && p < |s.procs| && !s.procs[p].pc.Finished? && nextId >= s.nextId
    requires ProcOk(s.(nextId := nextId), p, q)
    requires forall r :: 0 <= r < |s.procs| && r != p ==> Compatible(q, s.procs[r]) && Compatible(s.procs[r], q)
    ensures Inv(s.(procs := s.procs[p := q], nextId := nextId))
  {
    var s' := s.(procs := s.procs[p := q], nextId := nextId);
    hide ProcOk, Compatible, LedgerOk, RE.Inv, EntriesJustified, BetsOk, LogsOk;
    RowsStay(s, s');
    forall r | 0 <= r < |s'.procs| ensures ProcOk(s', r, s'.procs[r]) {
      if r == p {
        CallStays(s.(nextId := nextId), s', p, q);
      } else {
        CallStays(s, s', r, s.procs[r]);
      }
    }
  }

  /** Moving to a counter that holds nothing more than before. */
  lemma QuietMove(s: Sys, p: nat, pc: Pc)
    requires Inv(s) && p < |s.procs| && !s.procs[p].pc.Finished?
    requires var q := s.procs[p].(pc := pc);
      && ProcOk(s, p, q)
      && (HoldsAccount(q, User(q.call)) ==> HoldsAccount(s.procs[p], User(q.call)))
      && (q.call.PlaceBet? && HoldsRound(q, q.call.round) ==> HoldsRound(s.procs[p], q.call.round))
      && (HoldsLedgerKey(q, KeyOf(q)) ==> HoldsLedgerKey(s.procs[p], KeyOf(q)))
      && (HasId(q) ==> HasId(s.procs[p]))
    ensures Inv(At(s, p, pc))
  {
    hide Inv, ProcOk;
    var q := s.procs[p].(pc := pc);
    forall r | 0 <= r < |s.procs| && r != p ensures Compatible(q, s.procs[r]) && Compatible(s.procs[r], q) {
      PairOf(s, p, r);
    }
    QuietStep(s, p, q, s.nextId);
  }

  lemma FailKeeps(s: Sys, p: nat, e: Error)
    requires Inv(s) && p < |s.procs| && !s.procs[p].pc.Finished?
    ensures Inv(Fail(s, p, e))
  {
    hide Inv;
    CallOf(s, p);
    QuietMove(s, p, Finished(Failed(e)));
  }

  lemma FindKeeps(s: Sys, p: nat)
    requires Inv(s) && p < |s.procs| && s.procs[p].pc.Find?
    ensures Inv(DoFind(s, p))
  {
    hide Inv;
    CallOf(s, p);
    QuietMove(s, p, DoFind(s, p).procs[p].pc);
  }

  lemma BetOf(s: Sys, b: nat)
    requires Inv(s) && b < |s.bets|
    ensures BetOk(s, b)
  {
  }

  lemma ReplayBetKeeps(s: Sys, p: nat)
    requires Inv(s) && p < |s.procs| && s.procs[p].pc.Replay? && s.procs[p].call.PlaceBet?
    ensures Inv(DoReplay(s, p))
  {
    hide Inv;
    var q := s.procs[p];
    CallOf(s, p);
    var b := s.bets[q.pc.at];
    BetOf(s, q.pc.at);
    var i := FindRef(s.ledger, BetPlaced, b.id).value;
    var o := Placed(q.pc.at, b.id, b.total, s.ledger[i].after, true);
    assert OutcomeOk(s, p, q.call, o);
    QuietMove(s, p, Finished(o));
  }

  lemma ReplayAdjustmentKeeps(s: Sys, p: nat)
    requires Inv(s) && p < |s.procs| && s.procs[p].pc.Replay? && s.procs[p].call.Adjust?
    ensures Inv(DoReplay(s, p))
  {
    hide Inv;
    var q := s.procs[p];
    CallOf(s, p);
    var pc := DoReplay(s, p).procs[p].pc;
    assert OutcomeOk(s, p, q.call, pc.outcome);
    QuietMove(s, p, pc);
  }

  lemma BeginKeeps(s: Sys, p: nat)
    requires Inv(s) && p < |s.procs| && s.procs[p].pc.Begin?
    ensures Inv(Advance(s, p).value)
  {
    hide Inv;
    var q := s.procs[p];
    CallOf(s, p);
    var q' := q.(start := s.db.clock, pc := if q.call.PlaceBet? then LockRound else InsertLog);
    QuietStep(s, p, q', s.nextId);
  }

  lemma LockRoundKeeps(s: Sys, p: nat)
    requires Inv(s) && p < |s.procs| && s.procs[p].call.PlaceBet? && s.procs[p].pc.LockRound? && DoLockRound(s, p).Some?
    ensures Inv(DoLockRound(s, p).value)
  {
    hide Inv;
    var q := s.procs[p];
    CallOf(s, p);
    if DoLockRound(s, p).value.procs[p].pc.LockAccount? {
      QuietStep(s, p, q.(pc := LockAccount), s.nextId);
    } else {
      FailKeeps(s, p, DoLockRound(s, p).value.procs[p].pc.outcome.error);
    }
  }

  lemma IdsBelowNext(s: Sys, r: nat)
    requires Inv(s) && r < |s.procs|
    ensures HasId(s.procs[r]) ==> s.procs[r].id < s.nextId
    ensures RefFresh(s.ledger, s.nextId)
  {
    CallOf(s, r);
  }

  lemma InsertLogKeeps(s: Sys, p: nat)
    requires Inv(s) && p < |s.procs| && s.procs[p].pc.InsertLog?
    ensures Inv(Advance(s, p).value)
  {
    hide Inv;
    var q := s.procs[p];
    CallOf(s, p);
    var q' := q.(pc := LockAccount, id := s.nextId);
    forall r | 0 <= r < |s.procs| && r != p ensures Compatible(q', s.procs[r]) && Compatible(s.procs[r], q') {
      IdsBelowNext(s, r);
    }
    IdsBelowNext(s, p);
    QuietStep(s, p, q', s.nextId + 1);
  }

  lemma LockAccountKeeps(s: Sys, p: nat)
    requires Inv(s) && p < |s.procs| && s.procs[p].pc.LockAccount? && DoLockAccount(s, p).Some?
    ensures Inv(DoLockAccount(s, p).value)
  {
    hide Inv;
    var q := s.procs[p];
    CallOf(s, p);
    var q' := DoLockAccount(s, p).value.procs[p];
    if q'.pc.Finished? {
      FailKeeps(s, p, q'.pc.outcome.error);
    } else {
      forall r | 0 <= r < |s.procs| && r != p ensures Compatible(q', s.procs[r]) && Compatible(s.procs[r], q') {
        PairOf(s, p, r);
      }
      QuietStep(s, p, q', s.nextId);
    }
  }

  lemma InsertBetKeeps(s: Sys, p: nat)
    requires Inv(s) && p < |s.procs| && s.procs[p].call.PlaceBet? && s.procs[p].pc.InsertBet? && DoInsertBet(s, p).Some?
    ensures Inv(DoInsertBet(s, p).value)
  {
    hide Inv;
    var q := s.procs[p];
    CallOf(s, p);
    if FindBet(s.bets, q.call.user, q.call.key).Some? {
      QuietMove(s, p, Find(true));
    } else {
      NewBetKeeps(s, p);
    }
  }

  lemma NewBetKeeps(s: Sys, p: nat)
    requires Inv(s) && p < |s.procs| && s.procs[p].call.PlaceBet? && s.procs[p].pc.InsertBet?
    requires FindBet(s.bets, s.procs[p].call.user, s.procs[p].call.key).None?
    ensures Inv(s.(procs := s.procs[p := s.procs[p].(pc := InsertItems, id := s.nextId)], nextId := s.nextId + 1))
  {
    hide Inv;
    var q := s.procs[p];
    CallOf(s, p);
    var q' := q.(pc := InsertItems, id := s.nextId);
    FreshIdCompatible(s, p, q');
    IdsBelowNext(s, p);
    assert TokenOk(s, q') && RoundOk(s, q');
    QuietStep(s, p, q', s.nextId + 1);
  }

  lemma FreshIdCompatible(s: Sys, p: nat, q': Proc)
    requires Inv(s) && p < |s.procs| && s.procs[p].pc.InsertBet? && q' == s.procs[p].(pc := InsertItems, id := s.nextId)
    ensures forall r :: 0 <= r < |s.procs| && r != p ==> Compatible(q', s.procs[r]) && Compatible(s.procs[r], q')
  {
    forall r | 0 <= r < |s.procs| && r != p ensures Compatible(q', s.procs[r]) && Compatible(s.procs[r], q') {
      IdsBelowNext(s, r);
      PairOf(s, p, r);
    }
  }

  lemma InsertLedgerKeeps(s: Sys, p: nat)
    requires Inv(s) && p < |s.procs| && s.procs[p].pc.InsertLedger? && DoInsertLedger(s, p).Some?
    ensures Inv(DoInsertLedger(s, p).value)
  {
    hide Inv;
    var q := s.procs[p];
    CallOf(s, p);
    if DoInsertLedger(s, p).value.procs[p].pc.Find? {
      QuietMove(s, p, Find(true));
    } else {
      var q' := q.(pc := UpdateAccount);
      forall r | 0 <= r < |s.procs| && r != p ensures Compatible(q', s.procs[r]) && Compatible(s.procs[r], q') {
        PairOf(s, p, r);
        assert KeyOf(q') == KeyOf(q);
      }
      QuietStep(s, p, q', s.nextId);
    }
  }
}
