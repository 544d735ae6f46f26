/**
 * What `placeBet` and `adjust` answer and write, request by request and field by field: the reference the
 * machine's calls and the services' methods are held to.
 */
module MoneyAnswers {
  import opened Prelude
  import opened Ledger
  import opened Payload
  import opened Money
  import opened MoneyAlone
  import DisplayCode
  import Decimal
  import Inv = MoneyInvariant
  import Theorems = MoneyTheorems
  import RT = RoundTable

  // ---- sound tables ----

  ghost predicate Debited(s: Sys, b: nat, i: nat) {
    b < |s.bets| && i < |s.ledger| && s.ledger[i].refType == BetPlaced && s.ledger[i].refId == Some(s.bets[b].id)
  }

  ghost predicate HasDebit(s: Sys, b: nat) {
    exists i: nat :: Debited(s, b, i)
  }

  /** A stored bet's items are merged and add up, and its debit is there. */
  ghost predicate BetRowOk(s: Sys, b: nat)
    requires b < |s.bets|
  {
    && Distinct(s.bets[b].items) && AllPositive(s.bets[b].items) && s.bets[b].total == Total(s.bets[b].items)
    && s.bets[b].id < s.nextId && HasDebit(s, b)
  }

  /** The unique keys of the tables, and the rows they connect. */
  ghost predicate RowsOk(s: Sys) {
    && (forall b: nat :: b < |s.bets| ==> BetRowOk(s, b))
    && (forall a, b :: 0 <= a < b < |s.bets| ==> !(s.bets[a].user == s.bets[b].user && s.bets[a].key == s.bets[b].key))
    && (forall i :: 0 <= i < |s.ledger| ==> s.ledger[i].refId.Some? && s.ledger[i].refId.value < s.nextId)
    && (forall i, j :: 0 <= i < j < |s.ledger| ==>
                         s.ledger[i].refId != s.ledger[j].refId && s.ledger[i].key != s.ledger[j].key)
    && (forall l :: 0 <= l < |s.logs| ==> s.logs[l].id < s.nextId)
    && (forall k, l :: 0 <= k < l < |s.logs| ==> s.logs[k].id != s.logs[l].id)
  }

  lemma ReachableBetRow(s: Sys, b: nat)
    requires Theorems.Reachable(s) && b < |s.bets|
    ensures BetRowOk(s, b)
  {
    hide Inv.Inv;
    Theorems.BetHolds(s, b);
    Theorems.EntriesHold(s);
    var i := FindRef(s.ledger, BetPlaced, s.bets[b].id).value;
    assert Debited(s, b, i);
  }

  /** Every reachable state's tables are sound. */
  lemma ReachableRowsOk(s: Sys)
    requires Theorems.Reachable(s)
    ensures RowsOk(s)
  {
    hide BetRowOk;
    forall b: nat | b < |s.bets| ensures BetRowOk(s, b) {
      ReachableBetRow(s, b);
    }
    Theorems.ReachableInv(s);
    forall l | 0 <= l < |s.logs| ensures s.logs[l].id < s.nextId {
      Theorems.LogHasOneEffect(s, l);
    }
  }

  // ---- placing a bet ----

  /** The answer to a retry: the stored bet with the balance right after its own debit. */
  ghost predicate ReplayOf(s: Sys, b: nat, o: Outcome) {
    exists i: nat :: Debited(s, b, i) && o == Placed(b, s.bets[b].id, s.bets[b].total, s.ledger[i].after, true)
  }

  function RoundVerdict(rows: RT.Rows, game: DisplayCode.GameId, round: nat, now: int): Option<Error> {
    if round >= |rows| then Some(NotFound)
    else if rows[round].game != game then Some(RoundMismatch)
    else if rows[round].state != RT.BETTING_OPEN && rows[round].state != RT.BETTING_ACTIVE then Some(RoundNotAccepting)
    else if rows[round].deadline <= now then Some(DeadlinePassed)
    else None
  }

  /** A placement request, with its items as they came. */
  datatype Placement = Placement(user: nat, key: string, game: DisplayCode.GameId, round: nat, items: seq<Item>)

  ghost predicate Stored(s: Sys, b: nat, user: nat, key: string) {
    b < |s.bets| && s.bets[b].user == user && s.bets[b].key == key
  }

  /** The bet a request makes: its selections merged, their sums kept. */
  ghost predicate IsBetOf(b: Bet, r: Placement, id: nat, now: int) {
    && b.id == id && b.user == r.user && b.key == r.key && b.round == r.round && b.txStart == now
    && Distinct(b.items) && AllPositive(b.items) && SameSums(b.items, r.items)
    && b.total == Total(r.items) == Total(b.items)
  }

  /** What a request with a new key answers and makes of the tables. */
  ghost predicate FreshPlacement(s: Sys, r: Placement, o: Outcome, s': Sys) {
    var total, verdict := Total(r.items), RoundVerdict(s.db.rows, r.game, r.round, s.db.clock);
    if verdict.Some? then o == Failed(verdict.value) && s' == s
    else if r.user !in s.accounts then o == Failed(NoAccount) && s' == s
    else
      var before := s.accounts[r.user].balance;
      if before < total then o == Failed(InsufficientPoints) && s' == s
      else if exists i :: 0 <= i < |s.ledger| && s.ledger[i].key == BetDebit(s.nextId) then
        o == Failed(UniqueViolation) && s' == s.(nextId := s.nextId + 1)
      else
        && o == Placed(|s.bets|, s.nextId, total, before - total, false)
        && |s'.bets| == |s.bets| + 1 && s'.bets[..|s.bets|] == s.bets
        && IsBetOf(s'.bets[|s.bets|], r, s.nextId, s.db.clock)
        && s' == s.(
             accounts := s.accounts[r.user := Account(before - total, s.accounts[r.user].version + 1)],
             ledger := s.ledger + [Entry(r.user, Debit, total, before, before - total, BetPlaced, Some(s.nextId),
                                         BetDebit(s.nextId), "Bet on round " + Decimal.OfNat(r.round))],
             bets := s'.bets, nextId := s.nextId + 1)
  }

  /** A stored key replays its bet exactly to the same round and selection sums; a new one is placed or refused. */
  ghost predicate PlacementAnswer(s: Sys, r: Placement, o: Outcome, s': Sys) {
    && (forall b: nat :: Stored(s, b, r.user, r.key) ==>
          && s' == s
          && if s.bets[b].round == r.round && SameSums(s.bets[b].items, r.items) then ReplayOf(s, b, o)
             else o == Failed(KeyReused))
    && ((forall b: nat :: !Stored(s, b, r.user, r.key)) ==> FreshPlacement(s, r, o, s'))
  }

  /** The machine's comparison of a stored bet with a request, in terms of rounds and sums. */
  lemma SameBetMeans(b: Bet, c: Call)
    requires c.PlaceBet? && Distinct(c.items) && AllPositive(c.items)
    requires Distinct(b.items) && AllPositive(b.items) && b.total == Total(b.items)
    ensures SameBet(b, c) <==> b.round == c.round && SameSums(b.items, c.items)
  {
    hide SameSums;
    MatchMeansSameSums(b.items, c.items);
    if ItemsMatch(b.items, c.items) {
      MatchImpliesTotal(b.items, c.items);
    }
  }

  /**
   * A retry in any reachable state: from its look at the bets on, a placement whose key is stored ends, two
   * statements later, in a replay of that bet if round and selection sums agree; otherwise the next
   * statement refuses it as a reused key.
   */
  lemma RetryReplaysExactly(s: Sys, p: nat, b: nat)
    requires Theorems.Reachable(s) && p < |s.procs| && s.procs[p].call.PlaceBet? && s.procs[p].pc.Find?
    requires Stored(s, b, s.procs[p].call.user, s.procs[p].call.key)
    ensures Advance(s, p).Some? && p < |Advance(s, p).value.procs|
    ensures var c, s1 := s.procs[p].call, Advance(s, p).value;
      if s.bets[b].round == c.round && SameSums(s.bets[b].items, c.items) then
        && Advance(s1, p).Some? && p < |Advance(s1, p).value.procs| && Advance(s1, p).value.procs[p].pc.Finished?
        && ReplayOf(s, b, Advance(s1, p).value.procs[p].pc.outcome)
      else s1.procs[p].pc == Finished(Failed(KeyReused))
  {
    hide SameSums, SameBet, Inv.Inv, RowsOk, FindBet, FindRef;
    var c := s.procs[p].call;
    ReachableRowsOk(s);
    Theorems.CallIsValid(s, p);
    OnlyStored(s, b, c.user, c.key);
    BetRowIs(s, b);
    SameBetMeans(s.bets[b], c);
    if SameBet(s.bets[b], c) {
      var s1 := At(s, p, Replay(b));
      assert Advance(s, p) == Some(s1);
      DebitIsFound(s, b);
    }
  }

  lemma BetRowIs(s: Sys, b: nat)
    requires RowsOk(s) && b < |s.bets|
    ensures BetRowOk(s, b)
  {
  }

  lemma OnlyStored(s: Sys, b: nat, user: nat, key: string)
    requires RowsOk(s) && Stored(s, b, user, key)
    ensures FindBet(s.bets, user, key) == Some(b)
  {
    var f := FindBet(s.bets, user, key);
    assert f.Some?;
  }

  lemma DebitIsFound(s: Sys, b: nat)
    requires RowsOk(s) && b < |s.bets|
    ensures var f := FindRef(s.ledger, BetPlaced, s.bets[b].id);
      f.Some? && Debited(s, b, f.value) && forall i: nat :: Debited(s, b, i) ==> i == f.value
  {
    assert BetRowOk(s, b);
    var i: nat :| Debited(s, b, i);
  }

  // ---- a placement run alone ----

  ghost predicate IsMerged(c: Call, r: Placement) {
    && c.PlaceBet? && c.user == r.user && c.key == r.key && c.game == r.game && c.round == r.round
    && Distinct(c.items) && AllPositive(c.items) && SameSums(c.items, r.items) && Total(c.items) == Total(r.items)
  }

  /** The tables `s` with one call at `q`. */
  function With(s: Sys, q: Proc): Sys {
    s.(procs := [q])
  }

  lemma StoredAlone(s: Sys, q: Proc, r: Placement, b: nat)
    requires s.procs == [] && RowsOk(s) && q.pc.Find? && IsMerged(q.call, r) && Stored(s, b, r.user, r.key)
    ensures var o := Complete(With(s, q)).procs[0].pc; o.Finished? && Complete(With(s, q)) == With(s, q.(pc := o))
    ensures var o := Complete(With(s, q)).procs[0].pc.outcome;
      if s.bets[b].round == r.round && SameSums(s.bets[b].items, r.items) then ReplayOf(s, b, o)
      else o == Failed(KeyReused)
  {
    hide RowsOk, SameBet, FindBet, FindRef, Complete;
    OnlyStored(s, b, r.user, r.key);
    BetRowIs(s, b);
    SameBetMeans(s.bets[b], q.call);
    DebitIsFound(s, b);
    Solo();
    if SameBet(s.bets[b], q.call) {
      var replay := q.(pc := Replay(b));
      Hop(With(s, q), With(s, replay));
      var i := FindRef(s.ledger, BetPlaced, s.bets[b].id).value;
      var o := Placed(b, s.bets[b].id, s.bets[b].total, s.ledger[i].after, true);
      Hop(With(s, replay), With(s, q.(pc := Finished(o))));
      NothingLeft(With(s, q.(pc := Finished(o))));
      assert ReplayOf(s, b, o);
    } else {
      Hop(With(s, q), With(s, q.(pc := Finished(Failed(KeyReused)))));
      NothingLeft(With(s, q.(pc := Finished(Failed(KeyReused)))));
    }
  }

  /** From BEGIN to the account lock, or to the round's refusal. */
  lemma RoundAlone(s: Sys, q: Proc)
    requires s.procs == [] && q.call.PlaceBet? && q.pc.Begin?
    ensures var v := RoundVerdict(s.db.rows, q.call.game, q.call.round, s.db.clock);
      var q' := q.(start := s.db.clock, pc := if v.Some? then Finished(Failed(v.value)) else LockAccount);
      Complete(With(s, q)) == Complete(With(s, q'))
  {
    hide Complete;
    Solo();
    var v := RoundVerdict(s.db.rows, q.call.game, q.call.round, s.db.clock);
    var at := q.(start := s.db.clock, pc := LockRound);
    Hop(With(s, q), With(s, at));
    Hop(With(s, at), With(s, at.(pc := if v.Some? then Finished(Failed(v.value)) else LockAccount)));
  }

  /** From the account lock to the first write, or to the refusal for want of an account or of points. */
  lemma AccountAlone(s: Sys, q: Proc)
    requires s.procs == [] && q.pc.LockAccount?
    ensures var u, c := User(q.call), q.call;
      if u !in s.accounts then Complete(With(s, q)) == Complete(With(s, q.(pc := Finished(Failed(NoAccount)))))
      else
        var before := s.accounts[u].balance;
        var after := if Dir(c) == Credit then before + Amount(c) else before - Amount(c);
        if after < 0 then Complete(With(s, q)) == Complete(With(s, q.(pc := Finished(Failed(InsufficientPoints)))))
        else Complete(With(s, q)) ==
             Complete(With(s, q.(pc := if c.PlaceBet? then InsertBet else InsertLedger, token := Token(before, after))))
  {
    hide Complete;
    Solo();
    var u := User(q.call);
    assert Advance(With(s, q), 0) == DoLockAccount(With(s, q), 0);
    Hop(With(s, q), DoLockAccount(With(s, q), 0).value);
  }

  /** The writes of a placement whose points suffice. */
  lemma WritesAlone(s: Sys, q: Proc, r: Placement)
    requires s.procs == [] && q.pc.InsertBet? && IsMerged(q.call, r) && q.start == s.db.clock && r.user in s.accounts
    requires FindBet(s.bets, r.user, r.key).None?
    requires var before := s.accounts[r.user].balance; q.token == Token(before, before - Total(r.items))
    ensures var s' := Complete(With(s, q));
      && s'.procs[0].pc.Finished?
      && (var o, t := s'.procs[0].pc.outcome, s'.(procs := []);
          var total, before := Total(r.items), s.accounts[r.user].balance;
          if exists i :: 0 <= i < |s.ledger| && s.ledger[i].key == BetDebit(s.nextId) then
            o == Failed(UniqueViolation) && t == s.(nextId := s.nextId + 1)
          else
            && o == Placed(|s.bets|, s.nextId, total, before - total, false)
            && |t.bets| == |s.bets| + 1 && t.bets[..|s.bets|] == s.bets
            && IsBetOf(t.bets[|s.bets|], r, s.nextId, s.db.clock)
            && t == s.(
                 accounts := s.accounts[r.user := Account(before - total, s.accounts[r.user].version + 1)],
                 ledger := s.ledger + [Entry(r.user, Debit, total, before, before - total, BetPlaced, Some(s.nextId),
                                             BetDebit(s.nextId), "Bet on round " + Decimal.OfNat(r.round))],
                 bets := t.bets, nextId := s.nextId + 1))
  {
    hide Complete, FindBet, FindKey, SameSums;
    BetInserted(With(s, q));
    var next := s.(nextId := s.nextId + 1);
    var debit := q.(pc := InsertLedger, id := s.nextId);
    if FindKey(s.ledger, BetDebit(s.nextId)).Some? {
      DebitKeyTaken(With(next, debit));
      FindsNothing(With(next, debit.(pc := Find(true))));
      NothingLeft(With(next, debit.(pc := Finished(Failed(UniqueViolation)))));
    } else {
      PlacementWritten(With(next, debit));
    }
  }

  /** A fresh placement run alone gives the reference answer. */
  lemma FreshAlone(s: Sys, r: Placement, c: Call)
    requires s.procs == [] && IsMerged(c, r) && forall b: nat :: !Stored(s, b, r.user, r.key)
    ensures var s' := Complete(With(s, NewProc(c, s.db.clock)));
      s'.procs[0].pc.Finished? && FreshPlacement(s, r, s'.procs[0].pc.outcome, s'.(procs := []))
  {
    hide Complete, FindBet, IsBetOf, SameSums, RoundVerdict;
    var q := NewProc(c, s.db.clock);
    var f := FindBet(s.bets, r.user, r.key);
    assert f.Some? ==> Stored(s, f.value, r.user, r.key);
    FindsNothing(With(s, q));
    var begun := q.(pc := Begin);
    RoundAlone(s, begun);
    var v := RoundVerdict(s.db.rows, r.game, r.round, s.db.clock);
    if v.Some? {
      NothingLeft(With(s, begun.(pc := Finished(Failed(v.value)))));
    } else {
      var locked := begun.(pc := LockAccount);
      AccountAlone(s, locked);
      if r.user !in s.accounts {
        NothingLeft(With(s, locked.(pc := Finished(Failed(NoAccount)))));
      } else if s.accounts[r.user].balance < Total(r.items) {
        NothingLeft(With(s, locked.(pc := Finished(Failed(InsufficientPoints)))));
      } else {
        var before := s.accounts[r.user].balance;
        WritesAlone(s, locked.(pc := InsertBet, token := Token(before, before - Total(r.items))), r);
      }
    }
  }

  /** A placement run alone over sound tables gives the reference answer. */
  lemma PlacementAlone(s: Sys, r: Placement, c: Call)
    requires s.procs == [] && RowsOk(s) && IsMerged(c, r)
    ensures var s' := Complete(With(s, NewProc(c, s.db.clock)));
      s'.procs[0].pc.Finished? && PlacementAnswer(s, r, s'.procs[0].pc.outcome, s'.(procs := []))
  {
    hide Complete, RowsOk, FreshPlacement, IsMerged, SameSums, ReplayOf;
    if b: nat :| Stored(s, b, r.user, r.key) {
      PlacementAloneStored(s, r, c, b);
    } else {
      FreshAlone(s, r, c);
    }
  }

  lemma PlacementAloneStored(s: Sys, r: Placement, c: Call, b: nat)
    requires s.procs == [] && RowsOk(s) && IsMerged(c, r) && Stored(s, b, r.user, r.key)
    ensures var s' := Complete(With(s, NewProc(c, s.db.clock)));
      s'.procs[0].pc.Finished? && PlacementAnswer(s, r, s'.procs[0].pc.outcome, s'.(procs := []))
  {
    hide Complete, RowsOk, SameSums, ReplayOf, FreshPlacement;
    StoredAlone(s, NewProc(c, s.db.clock), r, b);
    OnlyStored(s, b, r.user, r.key);
    forall a: nat | Stored(s, a, r.user, r.key) ensures a == b {
      OnlyStored(s, a, r.user, r.key);
    }
  }

  // ---- adjusting points ----

  datatype Adjustment =
    Adjustment(admin: nat, target: nat, direction: Direction, amount: int, reason: string, key: LedgerKey)

  /** Entry `e` was made by the same request of the same admin. */
  ghost predicate MadeBy(s: Sys, e: Entry, r: Adjustment) {
    && r.target in s.accounts && e.user == r.target && e.direction == r.direction && e.amount == r.amount
    && e.refType == (match r.direction case Credit => AdminCredit case Debit => AdminDebit)
    && e.description == r.reason
    && exists l: nat :: l < |s.logs| && e.refId == Some(s.logs[l].id) && s.logs[l].admin == r.admin
  }

  ghost predicate AdjustmentReplay(s: Sys, i: nat, r: Adjustment, o: Outcome)
    requires i < |s.ledger|
  {
    if MadeBy(s, s.ledger[i], r) then
      o.Adjusted? && o.at == i && o.before == s.ledger[i].before && o.after == s.ledger[i].after
      && Some(o.logId) == s.ledger[i].refId && o.replayed
    else o == Failed(KeyReused)
  }

  /** What an adjustment with a new key answers and makes of the tables; the audit row is written first. */
  ghost predicate FreshAdjustment(s: Sys, r: Adjustment, o: Outcome, s': Sys)
    requires r.target in s.accounts
  {
    var before := s.accounts[r.target].balance;
    var after := match r.direction case Credit => before + r.amount case Debit => before - r.amount;
    if after < 0 then o == Failed(InsufficientPoints) && s' == s.(nextId := s.nextId + 1)
    else
      && o == Adjusted(|s.ledger|, before, after, s.nextId, false)
      && s' == s.(
           accounts := s.accounts[r.target := Account(after, s.accounts[r.target].version + 1)],
           ledger := s.ledger + [Entry(r.target, r.direction, r.amount, before, after,
                                       match r.direction case Credit => AdminCredit case Debit => AdminDebit,
                                       Some(s.nextId), r.key, r.reason)],
           logs := s.logs + [Log(s.nextId, r.admin, r.target, r.direction, r.amount, r.reason, 0)],
           nextId := s.nextId + 1)
  }

  ghost predicate AdjustmentAnswer(s: Sys, r: Adjustment, o: Outcome, s': Sys) {
    if r.target !in s.accounts then o == Failed(NotFound) && s' == s
    else
      && (forall i: nat :: i < |s.ledger| && s.ledger[i].key == r.key ==> s' == s && AdjustmentReplay(s, i, r, o))
      && ((forall i :: 0 <= i < |s.ledger| ==> s.ledger[i].key != r.key) ==> FreshAdjustment(s, r, o, s'))
  }

  function CallOf(r: Adjustment): Call {
    Adjust(r.admin, r.target, r.direction, r.amount, r.reason, r.key)
  }

  lemma FindLogIs(s: Sys, l: nat)
    requires RowsOk(s) && l < |s.logs|
    ensures FindLog(s.logs, s.logs[l].id) == Some(l)
  {
    var f := FindLog(s.logs, s.logs[l].id);
    assert f.Some? && s.logs[f.value].id == s.logs[l].id;
  }

  /** The machine's comparison of a stored entry with a request, field by field. */
  lemma SameAdjustmentMeans(s: Sys, i: nat, r: Adjustment)
    requires RowsOk(s) && i < |s.ledger|
    ensures SameAdjustment(s.accounts, s.logs, s.ledger[i], CallOf(r)) <==> MadeBy(s, s.ledger[i], r)
  {
    hide RowsOk, FindLog;
    var e := s.ledger[i];
    if MadeBy(s, e, r) {
      var l: nat :| l < |s.logs| && e.refId == Some(s.logs[l].id) && s.logs[l].admin == r.admin;
      FindLogIs(s, l);
    }
    if SameAdjustment(s.accounts, s.logs, e, CallOf(r)) {
      var l := FindLog(s.logs, e.refId.value).value;
      FoundLog(s.logs, e.refId.value);
      assert e.refId == Some(s.logs[l].id) && s.logs[l].admin == r.admin;
    }
  }

  lemma FoundLog(logs: seq<Log>, id: nat)
    ensures var f := FindLog(logs, id); f.Some? ==> f.value < |logs| && logs[f.value].id == id
  {
  }

  lemma OnlyEntry(s: Sys, i: nat)
    requires RowsOk(s) && i < |s.ledger|
    ensures FindKey(s.ledger, s.ledger[i].key) == Some(i)
  {
    var f := FindKey(s.ledger, s.ledger[i].key);
    assert f.Some? && s.ledger[f.value].key == s.ledger[i].key;
  }

  /**
   * A retry in any reachable state: from its look at the ledger on, an adjustment whose key is stored ends,
   * two statements later, in a replay of that entry if it comes from the same request of the same admin, and
   * as a reused key otherwise.
   */
  lemma AdjustmentReplaysExactly(s: Sys, p: nat, i: nat, r: Adjustment)
    requires Theorems.Reachable(s) && p < |s.procs| && s.procs[p].call == CallOf(r) && s.procs[p].pc.Find?
    requires i < |s.ledger| && s.ledger[i].key == r.key
    ensures Advance(s, p).Some? && p < |Advance(s, p).value.procs|
    ensures var s1 := Advance(s, p).value;
      && Advance(s1, p).Some? && p < |Advance(s1, p).value.procs| && Advance(s1, p).value.procs[p].pc.Finished?
      && AdjustmentReplay(s, i, r, Advance(s1, p).value.procs[p].pc.outcome)
  {
    hide RowsOk, FindKey, FindLog, SameAdjustment;
    ReachableRowsOk(s);
    OnlyEntry(s, i);
    SameAdjustmentMeans(s, i, r);
    RefIdThere(s, i);
    assert Advance(s, p) == Some(At(s, p, Replay(i)));
  }

  lemma RefIdThere(s: Sys, i: nat)
    requires RowsOk(s) && i < |s.ledger|
    ensures s.ledger[i].refId.Some?
  {
  }

  lemma StoredAdjustmentAlone(s: Sys, q: Proc, r: Adjustment, i: nat)
    requires s.procs == [] && RowsOk(s) && q.pc.Find? && q.call == CallOf(r)
    requires i < |s.ledger| && s.ledger[i].key == r.key
    ensures var o := Complete(With(s, q)).procs[0].pc; o.Finished? && Complete(With(s, q)) == With(s, q.(pc := o))
    ensures AdjustmentReplay(s, i, r, Complete(With(s, q)).procs[0].pc.outcome)
  {
    hide Complete, RowsOk, FindKey, SameAdjustment, MadeBy;
    OnlyEntry(s, i);
    SameAdjustmentMeans(s, i, r);
    RefIdThere(s, i);
    Solo();
    var replay, e := q.(pc := Replay(i)), s.ledger[i];
    Hop(With(s, q), With(s, replay));
    var o := if SameAdjustment(s.accounts, s.logs, e, q.call) then Adjusted(i, e.before, e.after, e.refId.value, true)
    else Failed(KeyReused);
    Hop(With(s, replay), With(s, q.(pc := Finished(o))));
    NothingLeft(With(s, q.(pc := Finished(o))));
  }

  lemma LogAlone(s: Sys, q: Proc)
    requires s.procs == [] && q.call.Adjust? && q.pc.Begin?
    ensures var q' := q.(start := s.db.clock, pc := LockAccount, id := s.nextId);
      Complete(With(s, q)) == Complete(With(s.(nextId := s.nextId + 1), q'))
  {
    hide Complete;
    Solo();
    var at := q.(start := s.db.clock, pc := InsertLog);
    Hop(With(s, q), With(s, at));
    Hop(With(s, at), With(s.(nextId := s.nextId + 1), at.(pc := LockAccount, id := s.nextId)));
  }

  lemma FreshAdjustmentAlone(s: Sys, q: Proc, r: Adjustment)
    requires s.procs == [] && q.pc == Find(false) && q.call == CallOf(r) && r.amount > 0 && r.target in s.accounts
    requires FindKey(s.ledger, r.key).None?
    ensures var s' := Complete(With(s, q));
      s'.procs[0].pc.Finished? && FreshAdjustment(s, r, s'.procs[0].pc.outcome, s'.(procs := []))
  {
    hide Complete, FindKey;
    FindsNothing(With(s, q));
    LogAlone(s, q.(pc := Begin));
    var next := s.(nextId := s.nextId + 1);
    var locked := q.(start := s.db.clock, pc := LockAccount, id := s.nextId);
    var before := s.accounts[r.target].balance;
    var after := match r.direction case Credit => before + r.amount case Debit => before - r.amount;
    if after < 0 {
      AccountAlone(next, locked);
      NothingLeft(With(next, locked.(pc := Finished(Failed(InsufficientPoints)))));
    } else {
      AdjustmentWritten(With(next, locked), EntryOf(WithToken(With(next, locked))));
    }
  }

  /** An adjustment run alone over sound tables gives the reference answer. */
  lemma AdjustmentAlone(s: Sys, r: Adjustment)
    requires s.procs == [] && RowsOk(s) && r.amount > 0
    ensures var s' := Complete(With(s, NewProc(CallOf(r), s.db.clock)));
      s'.procs[0].pc.Finished? && AdjustmentAnswer(s, r, s'.procs[0].pc.outcome, s'.(procs := []))
  {
    hide Complete, RowsOk, AdjustmentReplay, FreshAdjustment, FindKey;
    var q := NewProc(CallOf(r), s.db.clock);
    TargetChecked(With(s, q));
    if r.target !in s.accounts {
      NothingLeft(With(s, q.(pc := Finished(Failed(NotFound)))));
    } else if FindKey(s.ledger, r.key).Some? {
      StoredAdjustmentAlone(s, q.(pc := Find(false)), r, FindKey(s.ledger, r.key).value);
      forall i: nat | i < |s.ledger| && s.ledger[i].key == r.key ensures FindKey(s.ledger, r.key) == Some(i) {
        OnlyEntry(s, i);
      }
    } else {
      FreshAdjustmentAlone(s, q.(pc := Find(false)), r);
    }
  }

  // ---- answers keep the tables sound ----

  lemma DrawnIdKeeps(s: Sys, s': Sys)
    requires RowsOk(s) && s' == s.(nextId := s'.nextId) && s.nextId <= s'.nextId
    ensures RowsOk(s')
  {
    forall b: nat | b < |s'.bets| ensures BetRowOk(s', b) {
      DebitStays(s, s', b);
    }
  }

  lemma DebitStays(s: Sys, s': Sys, b: nat)
    requires RowsOk(s) && b < |s.bets| <= |s'.bets| && s'.bets[b] == s.bets[b] && s.nextId <= s'.nextId
    requires |s.ledger| <= |s'.ledger| && forall i :: 0 <= i < |s.ledger| ==> s'.ledger[i] == s.ledger[i]
    ensures BetRowOk(s', b)
  {
    assert BetRowOk(s, b);
    var i: nat :| Debited(s, b, i);
    assert Debited(s', b, i);
  }

  /** An entry with a fresh id and key, and the row it refers to, keep the tables sound. */
  lemma AppendedKeeps(s: Sys, s': Sys, e: Entry)
    requires RowsOk(s) && e.refId == Some(s.nextId) && s'.ledger == s.ledger + [e] && s'.nextId == s.nextId + 1
    requires forall i :: 0 <= i < |s.ledger| ==> s.ledger[i].key != e.key
    requires
      || (s'.bets == s.bets && |s'.logs| == |s.logs| + 1 && s'.logs[..|s.logs|] == s.logs
          && s'.logs[|s.logs|].id == s.nextId)
      || (s'.logs == s.logs && |s'.bets| == |s.bets| + 1 && s'.bets[..|s.bets|] == s.bets && e.refType == BetPlaced
          && NewBetOk(s, s'.bets[|s.bets|]))
    ensures RowsOk(s')
  {
    forall i | 0 <= i < |s.ledger| ensures s'.ledger[i] == s.ledger[i] {
    }
    forall b: nat | b < |s'.bets| ensures BetRowOk(s', b) {
      if b < |s.bets| {
        assert s'.bets[..|s.bets|][b] == s'.bets[b];
        DebitStays(s, s', b);
      } else {
        assert Debited(s', b, |s.ledger|);
      }
    }
    OldRows(s.bets, s'.bets);
    OldRows(s.logs, s'.logs);
  }

  ghost predicate NewBetOk(s: Sys, b: Bet) {
    && Distinct(b.items) && AllPositive(b.items) && b.total == Total(b.items) && b.id == s.nextId
    && forall a :: 0 <= a < |s.bets| ==> !(s.bets[a].user == b.user && s.bets[a].key == b.key)
  }

  lemma OldRows<T>(a: seq<T>, b: seq<T>)
    ensures |a| <= |b| && b[..|a|] == a ==> forall i :: 0 <= i < |a| ==> b[i] == a[i]
  {
    if |a| <= |b| && b[..|a|] == a {
      forall i | 0 <= i < |a| ensures b[i] == a[i] {
        assert b[..|a|][i] == b[i];
      }
    }
  }

  lemma PlacementKeepsRows(s: Sys, r: Placement, o: Outcome, s': Sys)
    requires RowsOk(s) && PlacementAnswer(s, r, o, s')
    ensures RowsOk(s')
  {
    hide RowsOk, SameSums, ReplayOf, RoundVerdict;
    if b: nat :| Stored(s, b, r.user, r.key) {
    } else if s' == s.(nextId := s'.nextId) {
      DrawnIdKeeps(s, s');
    } else {
      forall a | 0 <= a < |s.bets| ensures !(s.bets[a].user == r.user && s.bets[a].key == r.key) {
        assert !Stored(s, a, r.user, r.key);
      }
      AppendedKeeps(s, s', s'.ledger[|s.ledger|]);
    }
  }

  lemma AdjustmentKeepsRows(s: Sys, r: Adjustment, o: Outcome, s': Sys)
    requires RowsOk(s) && AdjustmentAnswer(s, r, o, s')
    ensures RowsOk(s')
  {
    hide RowsOk, AdjustmentReplay;
    if s' == s.(nextId := s'.nextId) && s.nextId <= s'.nextId {
      DrawnIdKeeps(s, s');
    } else {
      AppendedKeeps(s, s', s'.ledger[|s.ledger|]);
    }
  }
}
