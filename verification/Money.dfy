/**
 * The shared database under any number of concurrent `placeBet` and `adjust` calls and engine calls.
 *
 * Tables hold committed rows only. A call is a program counter that runs one statement at a time;
 * what its open transaction has written is determined by its counter and parameters, becomes visible
 * at its commit and vanishes if it fails or crashes. A transaction holds the row locks and unique
 * keys of the statements it has run; a statement that meets one held by another transaction waits.
 */
module Money {
  import opened Prelude
  import opened Ledger
  import opened Payload
  import RT = RoundTable
  import RE = RoundEngine
  import DisplayCode
  import Decimal

  datatype Call =
    | PlaceBet(user: nat, key: string, game: DisplayCode.GameId, round: nat, items: seq<Item>)
    | Adjust(admin: nat, target: nat, direction: Direction, amount: int, reason: string, ikey: LedgerKey)

  /** `txStart` (the transaction's `now()`) and `caller` (the call that wrote the row) are bookkeeping. */
  datatype Bet = Bet(id: nat, user: nat, key: string, round: nat, items: seq<Item>, total: int, txStart: int,
      caller: nat)

  datatype Log = Log(id: nat, admin: nat, target: nat, direction: Direction, amount: int, reason: string, caller: nat)

  datatype Error =
    | NotFound | RoundMismatch | RoundNotAccepting | DeadlinePassed | InsufficientPoints
    | KeyReused | UniqueViolation | NoAccount | CallCrashed

  /** A success names the row it reports (`at`, bookkeeping) and what the response says. */
  datatype Outcome =
    | Placed(at: nat, betId: nat, total: int, balance: int, replayed: bool)
    | Adjusted(at: nat, before: int, after: int, logId: nat, replayed: bool)
    | Failed(error: Error)

  datatype Pc =
    | CheckUser | Find(raced: bool) | Replay(at: nat) | Begin | LockRound | InsertLog | LockAccount
    | InsertBet | InsertItems | InsertLedger | UpdateAccount | Commit | Finished(outcome: Outcome)

  /** The LockedAccountMutation token. */
  datatype Token = Token(before: int, after: int)

  /** `id` is the id generated for the call's own bet or audit row. */
  datatype Proc = Proc(call: Call, pc: Pc, start: int, token: Token, id: nat)

  datatype Sys = Sys(
    accounts: Accounts, ledger: seq<Entry>, bets: seq<Bet>, logs: seq<Log>,
    procs: seq<Proc>, nextId: nat, db: RE.Db)

  // ---- parameters of a call ----

  function User(c: Call): nat {
    if c.PlaceBet? then c.user else c.target
  }

  function Dir(c: Call): Direction {
    if c.PlaceBet? then Debit else c.direction
  }

  function Amount(c: Call): int {
    if c.PlaceBet? then Total(c.items) else c.amount
  }

  function AdminRef(d: Direction): RefType {
    if d == Credit then AdminCredit else AdminDebit
  }

  function KeyOf(q: Proc): LedgerKey {
    if q.call.PlaceBet? then BetDebit(q.id) else q.call.ikey
  }

  /** The ledger row the call's transaction inserts. */
  function EntryOf(q: Proc): Entry {
    Entry(User(q.call), Dir(q.call), Amount(q.call), q.token.before, q.token.after,
          if q.call.PlaceBet? then BetPlaced else AdminRef(q.call.direction), Some(q.id), KeyOf(q),
          if q.call.PlaceBet? then "Bet on round " + Decimal.OfNat(q.call.round) else q.call.reason)
  }

  /** What validation lets through to the transaction. */
  predicate ValidCall(c: Call) {
    if c.PlaceBet? then Distinct(c.items) && AllPositive(c.items) && c.items != [] else c.amount > 0
  }

  // ---- lookups ----

  function FindBet(bets: seq<Bet>, user: nat, key: string): (r: Option<nat>)
    ensures r.Some? ==> r.value < |bets| && bets[r.value].user == user && bets[r.value].key == key
    ensures r.None? ==> forall i :: 0 <= i < |bets| ==> !(bets[i].user == user && bets[i].key == key)
  {
    if bets == [] then None
    else if bets[|bets| - 1].user == user && bets[|bets| - 1].key == key then Some(|bets| - 1)
    else FindBet(bets[..|bets| - 1], user, key)
  }

  function FindLog(logs: seq<Log>, id: nat): (r: Option<nat>)
    ensures r.Some? ==> r.value < |logs| && logs[r.value].id == id
    ensures r.None? ==> forall i :: 0 <= i < |logs| ==> logs[i].id != id
  {
    if logs == [] then None
    else if logs[|logs| - 1].id == id then Some(|logs| - 1)
    else FindLog(logs[..|logs| - 1], id)
  }

  /** `findReplay` of bets: is the stored bet the same logical request? */
  predicate SameBet(b: Bet, c: Call)
    requires c.PlaceBet?
  {
    b.round == c.round && b.total == Total(c.items) && ItemsMatch(b.items, c.items)
  }

  /** `findReplay` of adjustments: does the stored entry come from the same request of the same admin? */
  predicate SameAdjustment(accounts: Accounts, logs: seq<Log>, e: Entry, c: Call)
    requires c.Adjust?
  {
    && c.target in accounts && e.user == c.target
    && e.direction == c.direction && e.amount == c.amount
    && e.refType == AdminRef(c.direction) && e.description == c.reason
    && e.refId.Some?
    && var l := FindLog(logs, e.refId.value); l.Some? && logs[l.value].admin == c.admin
  }

  // ---- locks, as the counters imply them ----

  predicate HoldsAccount(q: Proc, u: nat) {
    User(q.call) == u && (q.pc.InsertBet? || q.pc.InsertItems? || q.pc.InsertLedger? || q.pc.UpdateAccount?
        || q.pc.Commit?)
  }

  predicate HoldsRound(q: Proc, r: nat) {
    q.call.PlaceBet? && q.call.round == r && (q.pc.LockAccount? || HoldsAccount(q, q.call.user))
  }

  predicate HoldsBetKey(q: Proc, u: nat, key: string) {
    q.call.PlaceBet? && q.call.key == key && HoldsAccount(q, u) && !q.pc.InsertBet?
  }

  predicate HoldsLedgerKey(q: Proc, k: LedgerKey) {
    KeyOf(q) == k && (q.pc.UpdateAccount? || q.pc.Commit?)
  }

  predicate Others(s: Sys, p: nat, held: Proc -> bool) {
    forall q :: 0 <= q < |s.procs| && q != p ==> !held(s.procs[q])
  }

  /** The round rows locked by open bet transactions. */
  function HeldRounds(s: Sys): set<nat> {
    set q | 0 <= q < |s.procs| && s.procs[q].call.PlaceBet?
        && HoldsRound(s.procs[q], s.procs[q].call.round) :: s.procs[q].call.round
  }

  // ---- one statement of a call ----

  function At(s: Sys, p: nat, pc: Pc): Sys
    requires p < |s.procs|
  {
    s.(procs := s.procs[p := s.procs[p].(pc := pc)])
  }

  function Fail(s: Sys, p: nat, e: Error): Sys
    requires p < |s.procs|
  {
    At(s, p, Finished(Failed(e)))
  }

  function DoFind(s: Sys, p: nat): Sys
    requires p < |s.procs| && s.procs[p].pc.Find?
  {
    var q := s.procs[p];
    var missing := if q.pc.raced then Finished(Failed(UniqueViolation)) else Begin;
    if q.call.PlaceBet? then
      match FindBet(s.bets, q.call.user, q.call.key)
      case None => At(s, p, missing)
      case Some(b) => At(s, p, if SameBet(s.bets[b], q.call) then Replay(b) else Finished(Failed(KeyReused)))
    else
      match FindKey(s.ledger, q.call.ikey)
      case None => At(s, p, missing)
      case Some(i) => At(s, p, Replay(i))
  }

  /** The second read of `findReplay`; a missing ledger row would report balance 0. */
  function DoReplay(s: Sys, p: nat): Sys
    requires p < |s.procs| && s.procs[p].pc.Replay?
  {
    var q := s.procs[p];
    var at := q.pc.at;
    if q.call.PlaceBet? then
      if at >= |s.bets| then Fail(s, p, NotFound) else
      var b := s.bets[at];
      var i := FindRef(s.ledger, BetPlaced, b.id);
      At(s, p, Finished(Placed(at, b.id, b.total, if i.Some? then s.ledger[i.value].after else 0, true)))
    else
      if at >= |s.ledger| then Fail(s, p, NotFound) else
      var e := s.ledger[at];
      if SameAdjustment(s.accounts, s.logs, e, q.call)
      then At(s, p, Finished(Adjusted(at, e.before, e.after, e.refId.value, true)))
      else Fail(s, p, KeyReused)
  }

  function DoLockRound(s: Sys, p: nat): Option<Sys>
    requires p < |s.procs| && s.procs[p].call.PlaceBet?
  {
    var q := s.procs[p];
    var r := q.call.round;
    if r >= |s.db.rows| then Some(Fail(s, p, NotFound))
    else if !Others(s, p, x => HoldsRound(x, r)) then None
    else if s.db.rows[r].game != q.call.game then Some(Fail(s, p, RoundMismatch))
    else if !RT.Betting(s.db.rows[r].state) then Some(Fail(s, p, RoundNotAccepting))
    else if s.db.rows[r].deadline <= q.start then Some(Fail(s, p, DeadlinePassed))
    else Some(At(s, p, LockAccount))
  }

  /** `lockAndValidateAccount`. */
  function DoLockAccount(s: Sys, p: nat): Option<Sys>
    requires p < |s.procs|
  {
    var q := s.procs[p];
    var u := User(q.call);
    if u !in s.accounts then Some(Fail(s, p, NoAccount))
    else if !Others(s, p, x => HoldsAccount(x, u)) then None
    else
      var before := s.accounts[u].balance;
      var after := before + Signed(Dir(q.call), Amount(q.call));
      if after < 0 then Some(Fail(s, p, InsufficientPoints))
      else
        var next := if q.call.PlaceBet? then InsertBet else InsertLedger;
        Some(s.(procs := s.procs[p := q.(pc := next, token := Token(before, after))]))
  }

  function DoInsertBet(s: Sys, p: nat): Option<Sys>
    requires p < |s.procs| && s.procs[p].call.PlaceBet?
  {
    var q := s.procs[p];
    if FindBet(s.bets, q.call.user, q.call.key).Some? then Some(At(s, p, Find(true)))
    else if !Others(s, p, x => HoldsBetKey(x, q.call.user, q.call.key)) then None
    else Some(s.(procs := s.procs[p := q.(pc := InsertItems, id := s.nextId)], nextId := s.nextId + 1))
  }

  function DoInsertLedger(s: Sys, p: nat): Option<Sys>
    requires p < |s.procs|
  {
    var k := KeyOf(s.procs[p]);
    if FindKey(s.ledger, k).Some? then Some(At(s, p, Find(true)))
    else if !Others(s, p, x => HoldsLedgerKey(x, k)) then None
    else Some(At(s, p, UpdateAccount))
  }

  /** COMMIT publishes the call's rows and the projected balance together. */
  function DoCommit(s: Sys, p: nat): Sys
    requires p < |s.procs| && User(s.procs[p].call) in s.accounts
  {
    var q := s.procs[p];
    var c := q.call;
    var u := User(c);
    var s1 := s.(
      ledger := s.ledger + [EntryOf(q)],
      accounts := s.accounts[u := Account(q.token.after, s.accounts[u].version + 1)]);
    if c.PlaceBet? then
      At(s1.(bets := s.bets + [Bet(q.id, u, c.key, c.round, c.items, Total(c.items), q.start, p)]), p,
         Finished(Placed(|s.bets|, q.id, Total(c.items), q.token.after, false)))
    else
      At(s1.(logs := s.logs + [Log(q.id, c.admin, u, c.direction, c.amount, c.reason, p)]), p,
         Finished(Adjusted(|s.ledger|, q.token.before, q.token.after, q.id, false)))
  }

  /** The next statement of call `p`; None when it must wait or has finished. */
  function Advance(s: Sys, p: nat): Option<Sys>
    requires p < |s.procs|
  {
    var q := s.procs[p];
    match q.pc
    case CheckUser => Some(if User(q.call) in s.accounts then At(s, p, Find(false)) else Fail(s, p, NotFound))
    case Find(_) => Some(DoFind(s, p))
    case Replay(_) => Some(DoReplay(s, p))
    case Begin =>
      Some(s.(procs := s.procs[p := q.(start := s.db.clock, pc := if q.call.PlaceBet? then LockRound else InsertLog)]))
    case LockRound => if q.call.PlaceBet? then DoLockRound(s, p) else None
    case InsertLog => Some(s.(procs := s.procs[p := q.(pc := LockAccount, id := s.nextId)], nextId := s.nextId + 1))
    case LockAccount => DoLockAccount(s, p)
    case InsertBet => if q.call.PlaceBet? then DoInsertBet(s, p) else None
    case InsertItems => Some(At(s, p, InsertLedger))
    case InsertLedger => DoInsertLedger(s, p)
    case UpdateAccount => Some(At(s, p, Commit))
    case Commit => if User(q.call) in s.accounts then Some(DoCommit(s, p)) else None
    case Finished(_) => None
  }

  // ---- runs ----

  datatype Action =
    | Request(call: Call)
    | Api(p: nat)
    | ApiCrash(p: nat)
    | Register(user: nat)
    | EngineMove(action: RE.Action)

  function NewProc(c: Call, clock: int): Proc {
    Proc(c, if c.PlaceBet? then Find(false) else CheckUser, clock, Token(0, 0), 0)
  }

  function Do(s: Sys, a: Action): Sys {
    match a
    case Request(c) => if ValidCall(c) then s.(procs := s.procs + [NewProc(c, s.db.clock)]) else s
    case Api(p) =>
      if p < |s.procs| then
        (match Advance(s, p)
         case None => s
         case Some(s') => s')
      else s
    case ApiCrash(p) => if p < |s.procs| && !s.procs[p].pc.Finished? then Fail(s, p, CallCrashed) else s
    case Register(u) => if u in s.accounts then s else s.(accounts := s.accounts[u := Account(0, 0)])
    case EngineMove(m) => s.(db := RE.Do(s.db, RE.Move(m, HeldRounds(s))))
  }

  function Run(s: Sys, actions: seq<Action>): Sys
    decreases |actions|
  {
    if actions == [] then s else Run(Do(s, actions[0]), actions[1..])
  }

  function Init(clock: int): Sys {
    Sys(map[], [], [], [], [], 0, RE.Init(clock))
  }
}
