/**
 * Any number of game engines driving one round table, one statement at a time.
 *
 * Every call of RoundsService is a program counter; between two of its statements anything may
 * happen, so what it read may be stale when it writes. A call may crash at any step. A disabled
 * move changes nothing, so a run is any sequence of moves.
 */
module RoundEngine {
  import opened Prelude
  import opened DisplayCode
  import opened RoundTable

  datatype Outcome = Created(id: nat) | Raced | Opened(ok: bool) | Locked(ok: bool) | Nothing | Crashed

  datatype Pc =
    | AtFindLive
    | AtNextNumber
    | AtCreate(number: nat)
    | AtOpen(id: nat)
    | AtBeginLock(id: nat)
    | AtLock(id: nat, now: int)
    | Done(outcome: Outcome)

  /**
   * One call. `reconciling` tells a full `reconcile` from a call that enters the service at a later
   * method; `seen` is bookkeeping: how many rounds the game had when `findLiveRound` found none live.
   */
  datatype Engine = Engine(game: GameId, reconciling: bool, pc: Pc, seen: nat)

  datatype Db = Db(rows: Rows, engines: seq<Engine>, clock: int)

  datatype Action =
    | Start(game: GameId, reconciling: bool, entry: Pc)
    | Step(e: nat, deadline: int)
    | Crash(e: nat)
    | Tick
    | ActivateRound(id: nat)
    | FinishRound(id: nat, end: RoundState)

  /** A move and the round rows other transactions hold `FOR UPDATE` when it happens. */
  datatype Move = Move(action: Action, held: set<nat>)

  function Rounds(d: Db, g: GameId): nat {
    Count(d.rows, g, |d.rows|)
  }

  function At(d: Db, e: nat, pc: Pc): Db
    requires e < |d.engines|
  {
    d.(engines := d.engines[e := d.engines[e].(pc := pc)])
  }

  /** The next statement of call `e`; None when it must wait for a row lock or has ended. */
  function Advance(d: Db, e: nat, deadline: int, held: set<nat>): Option<Db>
    requires e < |d.engines|
  {
    var c := d.engines[e];
    match c.pc
    case AtFindLive =>
      (match FindLive(d.rows, c.game)
       case None => Some(d.(engines := d.engines[e := c.(pc := AtNextNumber, seen := Rounds(d, c.game))]))
       case Some(id) =>
         Some(At(d, e, if d.rows[id].state == ROUND_CREATED then AtOpen(id)
                       else if Betting(d.rows[id].state) then AtBeginLock(id)
                       else Done(Nothing))))
    case AtNextNumber => Some(At(d, e, AtCreate(MaxNumber(d.rows, c.game) + 1)))
    case AtCreate(number) =>
      (match Insert(d.rows, c.game, number, deadline)
       case None => Some(At(d, e, Done(Raced)))
       case Some(rows) => Some(At(d.(rows := rows), e, Done(Created(|d.rows|)))))
    case AtOpen(id) =>
      if CanOpen(d.rows, id) && id in held then None
      else Some(At(d.(rows := OpenRound(d.rows, id)), e, Done(Opened(CanOpen(d.rows, id)))))
    case AtBeginLock(id) => Some(At(d, e, AtLock(id, d.clock)))
    case AtLock(id, now) =>
      if CanLock(d.rows, id, now) && id in held then None
      else Some(At(d.(rows := LockIfDeadlinePassed(d.rows, id, now)), e, Done(Locked(CanLock(d.rows, id, now)))))
    case Done(_) => None
  }

  /** A call may enter at `reconcile`, or directly at `tryCreateRound`, `openRound` or `lockIfDeadlinePassed`. */
  predicate Entry(reconciling: bool, pc: Pc) {
    if reconciling then pc.AtFindLive? else pc.AtNextNumber? || pc.AtOpen? || pc.AtBeginLock?
  }

  /** Ids are unguessable: one that no row has when the call begins never matches a row. */
  function Entered(d: Db, pc: Pc): Pc {
    match pc
    case AtOpen(id) => if id < |d.rows| then pc else Done(Opened(false))
    case AtBeginLock(id) => if id < |d.rows| then pc else Done(Locked(false))
    case _ => pc
  }

  function Do(d: Db, m: Move): Db {
    match m.action
    case Start(g, reconciling, entry) =>
      if Entry(reconciling, entry) then d.(engines := d.engines + [Engine(g, reconciling, Entered(d, entry), 0)]) else d
    case Step(e, deadline) =>
      if e < |d.engines| then
        (match Advance(d, e, deadline, m.held)
         case None => d
         case Some(d') => d')
      else d
    case Crash(e) => if e < |d.engines| && !d.engines[e].pc.Done? then At(d, e, Done(Crashed)) else d
    case Tick => d.(clock := d.clock + 1)
    case ActivateRound(id) => if id in m.held then d else d.(rows := Activate(d.rows, id))
    case FinishRound(id, end) => if id in m.held then d else d.(rows := Finish(d.rows, id, end))
  }

  function Run(d: Db, moves: seq<Move>): Db
    decreases |moves|
  {
    if moves == [] then d else Run(Do(d, moves[0]), moves[1..])
  }

  function Init(clock: int): Db {
    Db([], [], clock)
  }

  // ---- the invariant ----

  ghost predicate NoneLive(rows: Rows, g: GameId) {
    forall i :: 0 <= i < |rows| ==> !LiveFor(rows[i], g)
  }

  /** A call that found no live round: either a round was added since, or there still is none live. */
  ghost predicate SeenOk(d: Db, c: Engine) {
    c.reconciling ==> c.seen <= Rounds(d, c.game) && (c.seen == Rounds(d, c.game) ==> NoneLive(d.rows, c.game))
  }

  /** A reading of `now()` for round `id` is no earlier than the lock of any earlier round of its game. */
  ghost predicate ReadingOk(rows: Rows, id: nat, now: int)
    requires id < |rows|
  {
    forall i :: 0 <= i < id && rows[i].game == rows[id].game && rows[i].lockedAt.Some? ==> rows[i].lockedAt.value <= now
  }

  /** A game's rounds were locked in their order. */
  ghost predicate LockOrder(rows: Rows) {
    forall i, j :: 0 <= i < j < |rows| && rows[i].game == rows[j].game ==>
      (rows[i].lockedAt.Some? && rows[j].lockedAt.Some? ==> rows[i].lockedAt.value <= rows[j].lockedAt.value)
  }

  ghost predicate EngineOk(d: Db, c: Engine) {
    match c.pc
    case AtNextNumber => SeenOk(d, c)
    case AtCreate(number) => 1 <= number <= Rounds(d, c.game) + 1 && SeenOk(d, c) && (c.reconciling ==> c.seen < number)
    case AtOpen(id) => id < |d.rows|
    case AtBeginLock(id) => id < |d.rows|
    case AtLock(id, now) => id < |d.rows| && now <= d.clock && ReadingOk(d.rows, id, now)
    case Done(Raced) => c.reconciling ==> c.seen < Rounds(d, c.game)
    case _ => true
  }

  /** `locked_at` is set exactly once betting is over, to a time in [deadline, now]. */
  ghost predicate LockTimes(d: Db) {
    forall i :: 0 <= i < |d.rows| ==>
      var r := d.rows[i];
      && (r.lockedAt.None? <==> r.state == ROUND_CREATED || Betting(r.state))
      && (r.lockedAt.Some? ==> r.deadline <= r.lockedAt.value <= d.clock)
  }

  ghost predicate Inv(d: Db) {
    && TableOk(d.rows)
    && LockTimes(d)
    && LockOrder(d.rows)
    && (forall e :: 0 <= e < |d.engines| ==> EngineOk(d, d.engines[e]))
  }

  /** How one row may change in one move: not at all, or one version up with its identity kept. */
  ghost predicate RowStep(r: Round, r': Round) {
    r' == r ||
    (&& r'.version == r.version + 1 && Stage(r.state) < Stage(r'.state)
     && r'.game == r.game && r'.number == r.number && r'.code == r.code && r'.deadline == r.deadline)
  }

  function Stage(st: RoundState): nat {
    match st
    case ROUND_CREATED => 0
    case BETTING_OPEN => 1
    case BETTING_ACTIVE => 2
    case BETTING_LOCKED => 3
    case RESULT_PENDING => 4
    case RESULT_PUBLISHED => 5
    case SETTLEMENT_PENDING => 6
    case ROUND_COMPLETED => 7
    case ROUND_VOID => 7
  }

  lemma RowsStep(d: Db, m: Move)
    ensures |d.rows| <= |Do(d, m).rows|
    ensures forall i :: 0 <= i < |d.rows| ==> RowStep(d.rows[i], Do(d, m).rows[i])
    ensures forall i :: i in m.held && i < |d.rows| ==> Do(d, m).rows[i] == d.rows[i]
  {
  }

  /** The earlier rounds of a game that has a later one are over, so their lock times are final. */
  lemma ReadingStays(d: Db, d': Db, id: nat, now: int)
    requires TableOk(d.rows) && LockTimes(d) && id < |d.rows| <= |d'.rows| && ReadingOk(d.rows, id, now)
    requires forall i :: 0 <= i < |d.rows| ==> RowStep(d.rows[i], d'.rows[i])
    ensures ReadingOk(d'.rows, id, now)
  {
    TableMeaning(d.rows);
    forall i | 0 <= i < id && d'.rows[i].game == d'.rows[id].game && d'.rows[i].lockedAt.Some?
      ensures d'.rows[i].lockedAt.value <= now
    {
      assert RowStep(d.rows[i], d'.rows[i]) && RowStep(d.rows[id], d'.rows[id]);
      assert Terminal(d.rows[i].state);
    }
  }

  lemma RoundsGrow(d: Db, d': Db, g: GameId)
    requires |d.rows| <= |d'.rows|
    requires forall i :: 0 <= i < |d.rows| ==> RowStep(d.rows[i], d'.rows[i])
    ensures Rounds(d, g) <= Rounds(d', g)
    ensures forall i :: |d.rows| <= i < |d'.rows| && d'.rows[i].game == g ==> Rounds(d, g) < Rounds(d', g)
  {
    CountSame(d.rows, d'.rows, g, |d.rows|);
    CountMonotone(d'.rows, g, |d.rows|, |d'.rows|);
  }

  lemma SeenStays(d: Db, d': Db, c: Engine)
    requires SeenOk(d, c) && |d.rows| <= |d'.rows|
    requires forall i :: 0 <= i < |d.rows| ==> RowStep(d.rows[i], d'.rows[i])
    ensures SeenOk(d', c)
  {
    hide Count;
    RoundsGrow(d, d', c.game);
    if Rounds(d', c.game) == Rounds(d, c.game) && NoneLive(d.rows, c.game) {
      forall i | 0 <= i < |d'.rows| ensures !LiveFor(d'.rows[i], c.game) {
        if i < |d.rows| {
          assert RowStep(d.rows[i], d'.rows[i]);
        }
      }
    }
  }

  /** A call's obligations survive any change of the table that keeps it well formed and revives no round. */
  lemma EngineStays(d: Db, d': Db, c: Engine)
    requires EngineOk(d, c) && TableOk(d.rows) && LockTimes(d) && TableOk(d'.rows) && d.clock <= d'.clock
    requires |d.rows| <= |d'.rows|
    requires forall i :: 0 <= i < |d.rows| ==> RowStep(d.rows[i], d'.rows[i])
    ensures EngineOk(d', c)
    ensures Rounds(d, c.game) <= Rounds(d', c.game)
  {
    hide TableOk, LockTimes, ReadingOk, SeenOk, RowStep, Rounds;
    RoundsGrow(d, d', c.game);
    match c.pc
    case AtNextNumber => SeenStays(d, d', c);
    case AtCreate(_) => SeenStays(d, d', c);
    case AtLock(id, now) => ReadingStays(d, d', id, now);
    case _ =>
  }

  /** The insert behind a move that adds a row. */
  lemma AddedRow(d: Db, m: Move)
    requires Inv(d) && |Do(d, m).rows| > |d.rows|
    ensures m.action.Step? && m.action.e < |d.engines| && d.engines[m.action.e].pc.AtCreate?
    ensures var c := d.engines[m.action.e];
      && !Clashes(d.rows, c.game, c.pc.number) && 1 <= c.pc.number <= Rounds(d, c.game) + 1
      && Do(d, m).rows == d.rows + [Fresh(c.game, c.pc.number, m.action.deadline)]
  {
    assert EngineOk(d, d.engines[m.action.e]);
  }

  lemma TableStep(d: Db, m: Move)
    requires Inv(d)
    ensures TableOk(Do(d, m).rows)
  {
    hide Do, TableOk, Clashes, EngineOk, LockTimes;
    RowsStep(d, m);
    var rows' := Do(d, m).rows;
    if |rows'| > |d.rows| {
      AddedRow(d, m);
      var c := d.engines[m.action.e];
      InsertKeepsTable(d.rows, c.game, c.pc.number, m.action.deadline);
    } else if rows' != d.rows {
      var id := ChangedRow(d, m);
      UpdateKeepsTable(d.rows, id, rows'[id]);
    }
  }

  /** Only the lock writes a lock time, on a live round, which no round of its game follows. */
  lemma LockOrderStep(d: Db, m: Move)
    requires Inv(d)
    ensures LockOrder(Do(d, m).rows)
  {
    hide TableOk, LockTimes, EngineOk, Do;
    var rows, rows' := d.rows, Do(d, m).rows;
    RowsStep(d, m);
    if |rows'| > |rows| {
      AddedRow(d, m);
    } else if rows' != rows {
      var id := ChangedRow(d, m);
      LockedLast(d, m, id);
      TableMeaning(rows);
    }
  }

  /** A row that gets its lock time gets it from a reading no earlier than its game's earlier locks. */
  lemma LockedLast(d: Db, m: Move, id: nat)
    requires Inv(d) && id < |d.rows|
    requires |Do(d, m).rows| == |d.rows| && Do(d, m).rows[id] != d.rows[id]
    ensures var r := Do(d, m).rows[id];
      r.game == d.rows[id].game && (r.lockedAt == d.rows[id].lockedAt
          || (r.lockedAt.Some? && ReadingOk(d.rows, id, r.lockedAt.value)))
  {
    hide TableOk, LockTimes;
    if m.action.Step? && m.action.e < |d.engines| {
      assert EngineOk(d, d.engines[m.action.e]);
    }
  }

  lemma LockTimesStep(d: Db, m: Move)
    requires Inv(d)
    ensures LockTimes(Do(d, m))
  {
    hide TableOk;
    if m.action.Step? && m.action.e < |d.engines| {
      assert EngineOk(d, d.engines[m.action.e]);
    }
  }

  /** The row a move updates in place. */
  ghost function ChangedRow(d: Db, m: Move): (id: nat)
    requires Do(d, m).rows != d.rows && |Do(d, m).rows| == |d.rows|
    ensures id < |d.rows| && Do(d, m).rows == d.rows[id := Do(d, m).rows[id]] && !Terminal(d.rows[id].state)
    ensures RowStep(d.rows[id], Do(d, m).rows[id])
  {
    match m.action
    case Step(e, _) => (match d.engines[e].pc case AtOpen(id) => id case AtLock(id, _) => id)
    case ActivateRound(id) => id
    case FinishRound(id, _) => id
  }

  /** A call whose insert clashes, though it saw every round of its game, does not exist: the next number was free. */
  lemma ClashMeansNewRound(d: Db, c: Engine)
    requires TableOk(d.rows) && c.pc.AtCreate? && c.reconciling && EngineOk(d, c)
    requires Clashes(d.rows, c.game, c.pc.number)
    ensures c.seen < Rounds(d, c.game)
  {
    if c.seen == Rounds(d, c.game) {
      var i :| 0 <= i < |d.rows| && (LiveFor(d.rows[i], c.game)
          || (d.rows[i].game == c.game && d.rows[i].number == c.pc.number)
        || d.rows[i].code == Generate(c.game, c.pc.number));
      NumbersExact(d.rows, d.rows[i].game, |d.rows|);
      if d.rows[i].code == Generate(c.game, c.pc.number) {
        GenerateInjective(c.game, c.pc.number, d.rows[i].game, d.rows[i].number);
      }
      assert false;
    }
  }

  /** The clock is not before any lock. */
  lemma FreshReading(d: Db, id: nat)
    requires LockTimes(d) && id < |d.rows|
    ensures ReadingOk(d.rows, id, d.clock)
  {
  }

  lemma CallStep(d: Db, e: nat, deadline: int, held: set<nat>)
    requires Inv(d) && e < |d.engines| && Advance(d, e, deadline, held).Some?
    ensures EngineOk(Advance(d, e, deadline, held).value, Advance(d, e, deadline, held).value.engines[e])
  {
    hide Numbered, NewestLive, LockTimes, LockOrder, ReadingOk, Generate, Clashes;
    var c := d.engines[e];
    assert EngineOk(d, c);
    MaxIsCount(d.rows, c.game);
    if c.pc.AtBeginLock? {
      FreshReading(d, c.pc.id);
    } else if c.pc.AtCreate? && c.reconciling && Clashes(d.rows, c.game, c.pc.number) {
      ClashMeansNewRound(d, c);
    }
  }

  /** A move changes at most the record of the call it steps, and adds at most one fresh call. */
  lemma EnginesStep(d: Db, m: Move)
    ensures |d.engines| <= |Do(d, m).engines| && d.clock <= Do(d, m).clock
    ensures forall e :: 0 <= e < |Do(d, m).engines| ==>
              || (e < |d.engines| && Do(d, m).engines[e] == d.engines[e])
              || (m.action.Step? && m.action.e == e && e < |d.engines|
                   && Advance(d, e, m.action.deadline, m.held) == Some(Do(d, m)))
              || EngineOk(Do(d, m), Do(d, m).engines[e])
  {
  }

  lemma StepKeeps(d: Db, m: Move)
    requires Inv(d)
    ensures Inv(Do(d, m))
  {
    hide TableOk, LockTimes, LockOrder, EngineOk, Advance, RowStep;
    var d' := Do(d, m);
    TableStep(d, m);
    LockOrderStep(d, m);
    LockTimesStep(d, m);
    RowsStep(d, m);
    EnginesStep(d, m);
    forall e | 0 <= e < |d'.engines| ensures EngineOk(d', d'.engines[e]) {
      if e < |d.engines| {
        EngineStays(d, d', d.engines[e]);
        if m.action.Step? && m.action.e == e && d' != d {
          CallStep(d, e, m.action.deadline, m.held);
        }
      }
    }
  }

  /** The invariant holds in every reachable state. */
  lemma {:induction false} RunKeeps(d: Db, moves: seq<Move>)
    requires Inv(d)
    ensures Inv(Run(d, moves))
    decreases |moves|
  {
    if moves != [] {
      StepKeeps(d, moves[0]);
      RunKeeps(Do(d, moves[0]), moves[1..]);
    }
  }
}
