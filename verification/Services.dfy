/**
 * PointsLedgerService, BetsService and AdminPointsService as they read: methods that write the tables
 * row by row, in the source's order, and undo a transaction's writes when it fails. Nothing else runs
 * meanwhile; each request is proved to have exactly the effect and the answer of the concurrent
 * model's call run with nothing in between.
 */
module Services {
  import opened Prelude
  import opened Ledger
  import opened Payload
  import opened Money
  import opened MoneyAlone
  import opened MoneyAnswers
  import RT = RoundTable
  import RE = RoundEngine
  import DisplayCode
  import Decimal

  /** What makes `placeBet` or `adjust` refuse a request before it looks at the database. */
  datatype RequestError = KeyRequired | KeyTooLong | BadPayload(error: PayloadError)

  const MAX_IDEMPOTENCY_KEY_LENGTH: nat := 120

  /** The LockedAccountMutation token with the parameters it was validated for. */
  datatype Locked = Locked(user: nat, direction: Direction, amount: int, before: int, after: int)

  datatype LockError = BadAmount | MissingAccount | Insufficient(required: int, available: int)

  datatype Mutation = Mutation(user: nat, direction: Direction, amount: int, refType: RefType,
                               refId: Option<nat>, key: LedgerKey, description: string)

  datatype MutationError = LockFailed(error: LockError) | DuplicateKey | MutationKeyReused

  datatype MutationResult = MutationResult(entry: Entry, replayed: bool)

  /** A transaction's failure: an error thrown to the caller, or a unique violation (P2002). */
  datatype TxError = Thrown(error: Error) | P2002

  /** Does the stored entry describe the mutation, for the same account? */
  predicate SameMutation(e: Entry, m: Mutation) {
    e.user == m.user && e.direction == m.direction && e.amount == m.amount && e.refType == m.refType
        && e.refId == m.refId
  }

  lemma FindKeyLast(ledger: seq<Entry>, e: Entry)
    ensures FindKey(ledger + [e], e.key) == Some(|ledger|)
  {
  }

  class Database {
    var accounts: Accounts
    var ledger: seq<Entry>
    var bets: seq<Bet>
    var logs: seq<Log>
    var rows: RT.Rows
    var clock: int
    var nextId: nat

    /** The tables as a state of the concurrent model in which `q` is the only call. */
    ghost function View(q: Proc): Sys
      reads this
    {
      Sys(accounts, ledger, bets, logs, [q], nextId, RE.Db(rows, [], clock))
    }

    /** The tables, with no call at work. */
    ghost function Tables(): Sys
      reads this
    {
      Sys(accounts, ledger, bets, logs, [], nextId, RE.Db(rows, [], clock))
    }

    // ---- PointsLedgerService ----

    /** Locks and validates; writes nothing. */
    method LockAndValidateAccount(user: nat, direction: Direction, amount: int) returns (r: Result<Locked, LockError>)
      ensures r.Ok? <==> amount > 0 && user in accounts && accounts[user].balance + Signed(direction, amount) >= 0
      ensures r.Ok? ==> r.value == Locked(user, direction, amount,
                                          accounts[user].balance, accounts[user].balance + Signed(direction, amount))
      ensures r.Err? ==> r.error == if amount <= 0 then BadAmount else if user !in accounts then MissingAccount
                                    else Insufficient(amount, accounts[user].balance)
    {
      if amount <= 0 {
        return Err(BadAmount);
      }
      if user !in accounts {
        return Err(MissingAccount);
      }
      var before := accounts[user].balance;
      var after := if direction == Credit then before + amount else before - amount;
      if after < 0 {
        return Err(Insufficient(amount, before));
      }
      return Ok(Locked(user, direction, amount, before, after));
    }

    /** Inserts the ledger row and updates the projection, or reports the unique violation having written nothing. */
    method CommitMutation(l: Locked, refType: RefType, refId: Option<nat>, key: LedgerKey, description: string)
        returns (ok: bool)
      requires l.user in accounts
      modifies this`ledger, this`accounts
      ensures ok <==> forall i :: 0 <= i < |old(ledger)| ==> old(ledger)[i].key != key
      ensures !ok ==> ledger == old(ledger) && accounts == old(accounts)
      ensures ok ==> ledger == old(ledger) + [Entry(l.user, l.direction, l.amount, l.before, l.after, refType, refId,
                key, description)]
      ensures ok ==> accounts == old(accounts)[l.user := Account(l.after, old(accounts)[l.user].version + 1)]
    {
      if FindKey(ledger, key).Some? {
        return false;
      }
      ledger := ledger + [Entry(l.user, l.direction, l.amount, l.before, l.after, refType, refId, key, description)];
      accounts := accounts[l.user := Account(l.after, accounts[l.user].version + 1)];
      return true;
    }

    /** Lock, validate, insert, project; on any error nothing is written. */
    method MutateWithinTransaction(m: Mutation) returns (r: Result<Entry, MutationError>)
      modifies this`ledger, this`accounts
      ensures r.Ok? <==>
                && m.amount > 0 && m.user in old(accounts)
                && old(accounts)[m.user].balance + Signed(m.direction, m.amount) >= 0
                && FindKey(old(ledger), m.key).None?
      ensures r.Ok? ==>
                var before := old(accounts)[m.user].balance;
                && r.value == Entry(m.user, m.direction, m.amount, before, before + Signed(m.direction, m.amount),
                                    m.refType, m.refId, m.key, m.description)
                && ledger == old(ledger) + [r.value]
                && accounts == old(accounts)[m.user := Account(r.value.after, old(accounts)[m.user].version + 1)]
      ensures r.Err? ==> ledger == old(ledger) && accounts == old(accounts)
      ensures r.Err? ==> r.error == if m.amount <= 0 then LockFailed(BadAmount)
                                    else if m.user !in accounts then LockFailed(MissingAccount)
                                    else if accounts[m.user].balance + Signed(m.direction, m.amount) < 0
                                    then LockFailed(Insufficient(m.amount, accounts[m.user].balance))
                                    else DuplicateKey
    {
      var locked := LockAndValidateAccount(m.user, m.direction, m.amount);
      if locked.Err? {
        return Err(LockFailed(locked.error));
      }
      var ok := CommitMutation(locked.value, m.refType, m.refId, m.key, m.description);
      if !ok {
        return Err(DuplicateKey);
      }
      return Ok(ledger[|ledger| - 1]);
    }

    /**
     * The standalone mutation: replays a stored key, otherwise mutates, keeping the ledger sound; on any
     * error nothing changes.
     */
    method ApplyMutation(m: Mutation) returns (r: Result<MutationResult, MutationError>)
      requires LedgerOk(accounts, ledger)
      modifies this`ledger, this`accounts
      ensures LedgerOk(accounts, ledger)
      ensures r.Err? || r.value.replayed ==> ledger == old(ledger) && accounts == old(accounts)
      ensures r.Ok? ==> FindKey(ledger, m.key).Some? && ledger[FindKey(ledger, m.key).value] == r.value.entry
                        && r.value.entry.key == m.key
      ensures m.amount <= 0 ==> r == Err(LockFailed(BadAmount))
      ensures m.amount > 0 && FindKey(old(ledger), m.key).Some? ==>
                var e := old(ledger)[FindKey(old(ledger), m.key).value];
                if e.user == m.user && e.direction == m.direction && e.amount == m.amount
                   && e.refType == m.refType && e.refId == m.refId
                then r == Ok(MutationResult(e, true)) else r == Err(MutationKeyReused)
      ensures m.amount > 0 && FindKey(old(ledger), m.key).None? ==>
                if m.user !in old(accounts) then r == Err(LockFailed(MissingAccount))
                else
                  var before := old(accounts)[m.user].balance; var after := before + Signed(m.direction, m.amount);
                  if after < 0 then r == Err(LockFailed(Insufficient(m.amount, before)))
                  else
                    var e := Entry(m.user, m.direction, m.amount, before, after, m.refType, m.refId, m.key,
                        m.description);
                    && r == Ok(MutationResult(e, false)) && ledger == old(ledger) + [e]
                    && accounts == old(accounts)[m.user := Account(after, old(accounts)[m.user].version + 1)]
    {
      hide LedgerOk, FindKey;
      if m.amount <= 0 {
        return Err(LockFailed(BadAmount));
      }
      var existing := FindKey(ledger, m.key);
      if existing.Some? {
        var e := ledger[existing.value];
        if !SameMutation(e, m) {
          return Err(MutationKeyReused);
        }
        return Ok(MutationResult(e, true));
      }
      var done := MutateWithinTransaction(m);
      if done.Err? {
        return Err(done.error);
      }
      AppendKeeps(old(accounts), old(ledger), done.value);
      FindKeyLast(old(ledger), done.value);
      return Ok(MutationResult(done.value, false));
    }

    // ---- BetsService ----

    /** `findReplay`: the original result of a repeated key, an error for another payload, None for a new key. */
    method FindBetReplay(c: Call, ghost q: Proc) returns (r: Option<Outcome>)
      requires c.PlaceBet? && q.call == c && q.pc.Find?
      ensures r.Some? ==> Complete(View(q)) == View(q.(pc := Finished(r.value)))
      ensures r.None? ==> FindBet(bets, c.user, c.key).None?
    {
      Solo();
      var b := FindBet(bets, c.user, c.key);
      if b.None? {
        return None;
      }
      var existing := bets[b.value];
      if !SameBet(existing, c) {
        Hop(View(q), View(q.(pc := Finished(Failed(KeyReused)))));
        return Some(Failed(KeyReused));
      }
      var ledgerRow := FindRef(ledger, BetPlaced, existing.id);
      var balance := if ledgerRow.Some? then ledger[ledgerRow.value].after else 0;
      Hop(View(q), View(q.(pc := Replay(b.value))));
      var o := Placed(b.value, existing.id, existing.total, balance, true);
      Hop(View(q.(pc := Replay(b.value))), View(q.(pc := Finished(o))));
      return Some(o);
    }

    /** One interactive transaction: round lock, account lock, bet and items, ledger row, balance. */
    method RunPlacementTransaction(c: Call, ghost q: Proc) returns (r: Result<Outcome, TxError>, ghost q': Proc)
      requires c.PlaceBet? && ValidCall(c) && q.call == c && q.pc == Begin
      modifies this
      ensures rows == old(rows) && clock == old(clock) && logs == old(logs)
      ensures q'.call == c && Complete(old(View(q))) == Complete(View(q'))
      ensures r.Ok? ==> q'.pc == Finished(r.value) && r.value.Placed? && !r.value.replayed
      ensures r.Err? ==> bets == old(bets) && ledger == old(ledger) && accounts == old(accounts)
      ensures r.Err? ==> q'.pc == if r.error.Thrown? then Finished(Failed(r.error.error)) else Find(true)
    {
      Solo();
      TotalPositive(c.items);
      var start := clock;
      q' := q.(start := start, pc := LockRound);
      Hop(View(q), View(q'));
      ghost var s1 := View(q');
      if c.round >= |rows| {
        q' := q'.(pc := Finished(Failed(NotFound)));
        Hop(s1, View(q'));
        return Err(Thrown(NotFound)), q';
      }
      var round := rows[c.round];
      if round.game != c.game {
        q' := q'.(pc := Finished(Failed(RoundMismatch)));
        Hop(s1, View(q'));
        return Err(Thrown(RoundMismatch)), q';
      }
      if !RT.Betting(round.state) {
        q' := q'.(pc := Finished(Failed(RoundNotAccepting)));
        Hop(s1, View(q'));
        return Err(Thrown(RoundNotAccepting)), q';
      }
      if round.deadline <= start {
        q' := q'.(pc := Finished(Failed(DeadlinePassed)));
        Hop(s1, View(q'));
        return Err(Thrown(DeadlinePassed)), q';
      }
      q' := q'.(pc := LockAccount);
      Hop(s1, View(q'));
      r, q' := PersistBet(c, start, q');
    }

    /** The transaction from the account lock on. */
    method PersistBet(c: Call, start: int, ghost q: Proc) returns (r: Result<Outcome, TxError>, ghost q': Proc)
      requires c.PlaceBet? && Total(c.items) > 0 && q.call == c && q.pc == LockAccount && q.start == start
      modifies this
      ensures rows == old(rows) && clock == old(clock) && logs == old(logs)
      ensures q'.call == c && Complete(old(View(q))) == Complete(View(q'))
      ensures r.Ok? ==> q'.pc == Finished(r.value) && r.value.Placed? && !r.value.replayed
      ensures r.Err? ==> bets == old(bets) && ledger == old(ledger) && accounts == old(accounts)
      ensures r.Err? ==> q'.pc == if r.error.Thrown? then Finished(Failed(r.error.error)) else Find(true)
    {
      Solo();
      var locked := LockAndValidateAccount(c.user, Debit, Total(c.items));
      if locked.Err? {
        var e := if locked.error.MissingAccount? then NoAccount else InsufficientPoints;
        q' := q.(pc := Finished(Failed(e)));
        Hop(View(q), View(q'));
        return Err(Thrown(e)), q';
      }
      var l := locked.value;
      q' := q.(pc := InsertBet, token := Token(l.before, l.after));
      Hop(View(q), View(q'));
      r, q' := WriteBet(c, start, l, q');
    }

    /** The transaction's writes: bet and items, ledger row, balance. */
    method WriteBet(c: Call, start: int, l: Locked, ghost q: Proc) returns (r: Result<Outcome, TxError>, ghost q': Proc)
      requires c.PlaceBet? && q.call == c && q.pc == InsertBet && q.start == start && c.user in accounts
      requires l == Locked(c.user, Debit, Total(c.items), q.token.before, q.token.after)
      modifies this
      ensures rows == old(rows) && clock == old(clock) && logs == old(logs)
      ensures q'.call == c && Complete(old(View(q))) == Complete(View(q'))
      ensures r.Ok? ==> q'.pc == Finished(r.value) && r.value.Placed? && !r.value.replayed
      ensures r.Err? ==> bets == old(bets) && ledger == old(ledger) && accounts == old(accounts)
      ensures r.Err? ==> r.error.P2002? && q'.pc == Find(true)
    {
      hide Complete, FindKey, FindBet;
      var savedBets := bets;
      q' := q;
      if FindBet(bets, c.user, c.key).Some? {
        BetKeyTaken(View(q));
        q' := q.(pc := Find(true));
        return Err(P2002), q';
      }
      BetInserted(View(q));
      var betId := nextId;
      nextId := nextId + 1;
      q' := q.(pc := InsertLedger, id := betId);
      ghost var middle := View(q');
      bets := bets + [Bet(betId, c.user, c.key, c.round, c.items, Total(c.items), start, 0)];
      var ok := CommitMutation(l, BetPlaced, Some(betId), BetDebit(betId), "Bet on round " + Decimal.OfNat(c.round));
      if !ok {
        bets := savedBets;
        DebitKeyTaken(middle);
        q' := q'.(pc := Find(true));
        return Err(P2002), q';
      }
      PlacementWritten(middle);
      var o := Placed(|savedBets|, betId, Total(c.items), l.after, false);
      q' := q'.(pc := Finished(o));
      NothingLeft(View(q'));
      return Ok(o), q';
    }

    /** `placeBet` after validation: replay, transaction, and the re-read after a unique violation. */
    method Place(c: Call) returns (o: Outcome, ghost q: Proc)
      requires c.PlaceBet? && ValidCall(c)
      modifies this
      ensures q.pc == Finished(o) && Complete(old(View(NewProc(c, clock)))) == View(q)
      ensures o.Failed? || (o.Placed? && o.replayed) ==>
                accounts == old(accounts) && ledger == old(ledger) && bets == old(bets)
      ensures logs == old(logs) && rows == old(rows) && clock == old(clock)
    {
      hide Complete;
      Solo();
      q := NewProc(c, clock);
      var replay := FindBetReplay(c, q);
      if replay.Some? {
        q := q.(pc := Finished(replay.value));
        return replay.value, q;
      }
      FindsNothing(View(q));
      var r: Result<Outcome, TxError>;
      r, q := RunPlacementTransaction(c, q.(pc := Begin));
      match r {
        case Ok(placed) => o := placed;
        case Err(Thrown(e)) => o := Failed(e);
        case Err(P2002) =>
          var raced := FindBetReplay(c, q);
          if raced.Some? {
            o := raced.value;
            q := q.(pc := Finished(o));
          } else {
            o := Failed(UniqueViolation);
            FindsNothing(View(q));
            q := q.(pc := Finished(o));
          }
      }
      NothingLeft(View(q));
    }

    /**
     * `placeBet`: the request is refused with the database untouched, or it behaves exactly as the model's
     * call does when nothing interferes. Over sound tables it gives the reference answer and keeps them sound.
     */
    method PlaceBet(user: nat, idempotencyKey: Option<string>, game: DisplayCode.GameId, round: nat, items: seq<Item>)
      returns (r: Result<Outcome, RequestError>)
      requires items != []
      modifies this
      ensures r.Err? ==> accounts == old(accounts) && ledger == old(ledger) && bets == old(bets)
                         && logs == old(logs) && nextId == old(nextId)
      ensures r.Ok? <==> idempotencyKey.Some? && 0 < |idempotencyKey.value| <= MAX_IDEMPOTENCY_KEY_LENGTH
                         && AllPositive(items) && Total(items) <= 9007199254740991
                         && forall i :: 0 <= i < |items| ==>
                              0 <= items[i].key.selection <=
                              match items[i].key.category case Singles => 9 case Doubles => 99 case Triples => 999
      ensures r.Ok? && RowsOk(old(Tables())) ==>
                var request := Placement(user, idempotencyKey.value, game, round, items);
                RowsOk(Tables()) && PlacementAnswer(old(Tables()), request, r.value, Tables())
      ensures r.Err? ==>
                if idempotencyKey.None? || idempotencyKey.value == "" then r.error == KeyRequired
                else if |idempotencyKey.value| > MAX_IDEMPOTENCY_KEY_LENGTH then r.error == KeyTooLong
                else r.error.BadPayload? && Refuses(items, r.error.error)
      ensures r.Ok? ==>
                var q := NewProc(Call.PlaceBet(user, idempotencyKey.value, game, round, Merge(items)), old(clock));
                && Complete(old(View(q))).procs[0].pc == Finished(r.value)
                && Complete(old(View(q))) == View(Complete(old(View(q))).procs[0])
    {
      hide Complete, RowsOk, PlacementAnswer, Merge, Refuses, SameSums;
      MergeInRange(items);
      if idempotencyKey.None? || idempotencyKey.value == "" {
        return Err(KeyRequired);
      }
      if |idempotencyKey.value| > MAX_IDEMPOTENCY_KEY_LENGTH {
        return Err(KeyTooLong);
      }
      var payload := ValidatePayload(items);
      if payload.Err? {
        return Err(BadPayload(payload.error));
      }
      ghost var tables := Tables();
      ghost var call := Call.PlaceBet(user, idempotencyKey.value, game, round, payload.value);
      ghost var request := Placement(user, idempotencyKey.value, game, round, items);
      MergeSameSums(items);
      if RowsOk(tables) {
        PlacementAlone(tables, request, call);
      }
      var o, q := Place(Call.PlaceBet(user, idempotencyKey.value, game, round, payload.value));
      if RowsOk(tables) {
        PlacementKeepsRows(tables, request, o, Tables());
      }
      return Ok(o);
    }

    // ---- AdminPointsService ----

    method FindAdjustmentReplay(c: Call, ghost q: Proc) returns (r: Option<Outcome>)
      requires c.Adjust? && q.call == c && q.pc.Find?
      ensures r.Some? ==> Complete(View(q)) == View(q.(pc := Finished(r.value)))
      ensures r.None? ==> FindKey(ledger, c.ikey).None?
    {
      Solo();
      var i := FindKey(ledger, c.ikey);
      if i.None? {
        return None;
      }
      Hop(View(q), View(q.(pc := Replay(i.value))));
      var existing := ledger[i.value];
      var o := if SameAdjustment(accounts, logs, existing, c)
      then Adjusted(i.value, existing.before, existing.after, existing.refId.value, true)
      else Failed(KeyReused);
      Hop(View(q.(pc := Replay(i.value))), View(q.(pc := Finished(o))));
      return Some(o);
    }

    /** Audit row, then the mutation, in one transaction. */
    method RunAdjustmentTransaction(c: Call, ghost q: Proc) returns (r: Result<Outcome, TxError>, ghost q': Proc)
      requires c.Adjust? && c.amount > 0 && q.call == c && q.pc == Begin
      modifies this
      ensures rows == old(rows) && clock == old(clock) && bets == old(bets)
      ensures q'.call == c && Complete(old(View(q))) == Complete(View(q'))
      ensures r.Ok? ==> q'.pc == Finished(r.value) && r.value.Adjusted? && !r.value.replayed
      ensures r.Err? ==> logs == old(logs) && ledger == old(ledger) && accounts == old(accounts)
      ensures r.Err? ==> q'.pc == if r.error.Thrown? then Finished(Failed(r.error.error)) else Find(true)
    {
      Solo();
      var auditLogId := nextId;
      ghost var s1 := View(q.(start := clock, pc := InsertLog));
      Hop(View(q), s1);
      nextId := nextId + 1;
      q' := q.(start := clock, pc := LockAccount, id := auditLogId);
      Hop(s1, View(q'));
      r, q' := WriteAudited(c, auditLogId, q');
    }

    /** The audit row, written first, and the mutation it justifies; both or neither survive. */
    method WriteAudited(c: Call, auditLogId: nat, ghost q: Proc) returns (r: Result<Outcome, TxError>, ghost q': Proc)
      requires c.Adjust? && c.amount > 0 && q.call == c && q.pc == LockAccount && q.id == auditLogId
      modifies this`ledger, this`accounts, this`logs
      ensures q'.call == c && Complete(old(View(q))) == Complete(View(q'))
      ensures r.Ok? ==> q'.pc == Finished(r.value) && r.value.Adjusted? && !r.value.replayed
      ensures r.Err? ==> logs == old(logs) && ledger == old(ledger) && accounts == old(accounts)
      ensures r.Err? ==> q'.pc == if r.error.Thrown? then Finished(Failed(r.error.error)) else Find(true)
    {
      hide Complete, FindKey;
      ghost var s := View(q);
      var savedLogs := logs;
      logs := logs + [Log(auditLogId, c.admin, c.target, c.direction, c.amount, c.reason, 0)];
      var refType := if c.direction == Credit then AdminCredit else AdminDebit;
      var done := MutateWithinTransaction(Mutation(c.target, c.direction, c.amount, refType, Some(auditLogId), c.ikey,
          c.reason));
      if done.Ok? {
        var entry := done.value;
        AdjustmentWritten(s, entry);
        var o := Adjusted(|ledger| - 1, entry.before, entry.after, auditLogId, false);
        q' := WithToken(s).(pc := Finished(o));
        NothingLeft(View(q'));
        return Ok(o), q';
      }
      logs := savedLogs;
      if done.error.LockFailed? {
        var e := if done.error.error.MissingAccount? then NoAccount else InsufficientPoints;
        LockFails(s, e);
        q' := q.(pc := Finished(Failed(e)));
        NothingLeft(View(q'));
        return Err(Thrown(e)), q';
      }
      KeyTaken(s);
      q' := WithToken(s).(pc := Find(true));
      return Err(P2002), q';
    }

    /**
     * `adjust`: a request without a key is refused untouched, any other behaves as the model's call does alone.
     * Over sound tables it gives the reference answer and keeps them sound.
     */
    method AdjustPoints(admin: nat, target: nat, direction: Direction, amount: int, reason: string,
        ikey: Option<LedgerKey>)
      returns (r: Result<Outcome, RequestError>)
      requires amount > 0
      modifies this
      ensures r.Ok? <==> ikey.Some? && ikey.value != Text("")
      ensures r.Err? ==>
                && r.error == KeyRequired && accounts == old(accounts) && ledger == old(ledger)
                && bets == old(bets) && logs == old(logs) && nextId == old(nextId)
      ensures r.Ok? && RowsOk(old(Tables())) ==>
                var request := Adjustment(admin, target, direction, amount, reason, ikey.value);
                RowsOk(Tables()) && AdjustmentAnswer(old(Tables()), request, r.value, Tables())
      ensures r.Ok? ==>
                var q := NewProc(Call.Adjust(admin, target, direction, amount, reason, ikey.value), old(clock));
                && Complete(old(View(q))).procs[0].pc == Finished(r.value)
                && Complete(old(View(q))) == View(Complete(old(View(q))).procs[0])
    {
      if ikey.None? || ikey.value == Text("") {
        return Err(KeyRequired);
      }
      hide Complete, RowsOk, AdjustmentAnswer;
      ghost var tables := Tables();
      ghost var request := Adjustment(admin, target, direction, amount, reason, ikey.value);
      if RowsOk(tables) {
        AdjustmentAlone(tables, request);
      }
      var o, q := Adjust(Call.Adjust(admin, target, direction, amount, reason, ikey.value));
      if RowsOk(tables) {
        AdjustmentKeepsRows(tables, request, o, Tables());
      }
      return Ok(o);
    }

    /** The rest of `adjust`, once there is a key: exactly the model's call run with nothing in between. */
    method Adjust(c: Call) returns (o: Outcome, ghost q: Proc)
      requires c.Adjust? && ValidCall(c)
      modifies this
      ensures q.pc == Finished(o) && Complete(old(View(NewProc(c, clock)))) == View(q)
      ensures o.Failed? || (o.Adjusted? && o.replayed) ==>
                accounts == old(accounts) && ledger == old(ledger) && logs == old(logs)
      ensures bets == old(bets) && rows == old(rows) && clock == old(clock)
    {
      hide Complete;
      q := NewProc(c, clock);
      TargetChecked(View(q));
      if c.target !in accounts {
        o := Failed(NotFound);
        q := q.(pc := Finished(o));
        NothingLeft(View(q));
        return;
      }
      q := q.(pc := Find(false));
      var replay := FindAdjustmentReplay(c, q);
      if replay.Some? {
        q := q.(pc := Finished(replay.value));
        return replay.value, q;
      }
      FindsNothing(View(q));
      var r: Result<Outcome, TxError>;
      r, q := RunAdjustmentTransaction(c, q.(pc := Begin));
      match r {
        case Ok(done) => o := done;
        case Err(Thrown(e)) => o := Failed(e);
        case Err(P2002) =>
          var raced := FindAdjustmentReplay(c, q);
          if raced.Some? {
            o := raced.value;
            q := q.(pc := Finished(o));
          } else {
            o := Failed(UniqueViolation);
            FindsNothing(View(q));
            q := q.(pc := Finished(o));
          }
      }
      NothingLeft(View(q));
    }
  }
}
