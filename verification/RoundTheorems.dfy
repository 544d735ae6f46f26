/** What any number of engines promise about the round table, in every run. */
module RoundTheorems {
  import opened Prelude
  import opened DisplayCode
  import opened RoundTable
  import opened RoundEngine

  /**
   * Round numbering despite stale reads: each game's numbers are exactly 1..n, at most one round of a
   * game is live and it is number n, and no two rounds of any games share a display code.
   */
  lemma NumberingInEveryRun(clock: int, moves: seq<Move>, g: GameId)
    ensures var rows := Run(Init(clock), moves).rows; var n := Count(rows, g, |rows|);
      && (forall k {:trigger HasNumber(rows, g, |rows|, k)} :: 1 <= k <= n ==> HasNumber(rows, g, |rows|, k))
      && (forall i :: 0 <= i < |rows| && rows[i].game == g ==> 1 <= rows[i].number <= n)
      && (forall i :: 0 <= i < |rows| && LiveFor(rows[i], g) ==> rows[i].number == n)
      && (forall i, j :: 0 <= i < j < |rows| && rows[i].game == rows[j].game ==> rows[i].number != rows[j].number)
      && (forall i, j :: 0 <= i < j < |rows| ==> rows[i].code != rows[j].code)
  {
    RunKeeps(Init(clock), moves);
    var rows := Run(Init(clock), moves).rows;
    NumbersExact(rows, g, |rows|);
    TableMeaning(rows);
  }

  /**
   * Swallowing P2002 is right: whenever `create` fails inside a `reconcile`, a round of that game was
   * committed after that call's `findLiveRound` read.
   */
  lemma UniqueViolationIsBenign(clock: int, moves: seq<Move>, e: nat)
    requires e < |Run(Init(clock), moves).engines|
    requires Run(Init(clock), moves).engines[e].reconciling && Run(Init(clock), moves).engines[e].pc == Done(Raced)
    ensures var d := Run(Init(clock), moves); d.engines[e].seen < Rounds(d, d.engines[e].game)
  {
    RunKeeps(Init(clock), moves);
    assert EngineOk(Run(Init(clock), moves), Run(Init(clock), moves).engines[e]);
  }

  // ---- refinement of one sequential reconciler ----

  /**
   * What a single sequential engine and its environment do to the table. A pass that comes to a lock
   * carries its reading of `now()`; the others read no clock.
   */
  datatype SeqAction =
    | Pass(game: GameId, reading: Option<int>, deadline: int)
    | EnvActivate(id: nat)
    | EnvFinish(id: nat, end: RoundState)

  function SeqDo(rows: Rows, a: SeqAction): Rows {
    match a
    case Pass(g, reading, deadline) => Reconcile(rows, g, if reading.Some? then reading.value else 0, deadline)
    case EnvActivate(id) => Activate(rows, id)
    case EnvFinish(id, end) => Finish(rows, id, end)
  }

  /** The sequential action with the effect of this move; used only when the move changes the table. */
  function Abstract(d: Db, m: Move): SeqAction {
    match m.action
    case ActivateRound(id) => EnvActivate(id)
    case FinishRound(id, end) => EnvFinish(id, end)
    case Step(e, deadline) =>
      if e >= |d.engines| then EnvActivate(0) else
      var c := d.engines[e];
      (match c.pc
       case AtOpen(id) => if id < |d.rows| then Pass(d.rows[id].game, None, 0) else EnvActivate(0)
       case AtLock(id, now) => if id < |d.rows| then Pass(d.rows[id].game, Some(now), 0) else EnvActivate(0)
       case _ => Pass(c.game, None, deadline))
    case _ => EnvActivate(0)
  }

  lemma OpenIsPass(rows: Rows, id: nat)
    requires TableOk(rows) && CanOpen(rows, id)
    ensures OpenRound(rows, id) == Reconcile(rows, rows[id].game, 0, 0)
  {
    LiveIsFound(rows, id);
  }

  lemma LockIsPass(rows: Rows, id: nat, now: int)
    requires TableOk(rows) && CanLock(rows, id, now)
    ensures LockIfDeadlinePassed(rows, id, now) == Reconcile(rows, rows[id].game, now, 0)
  {
    LiveIsFound(rows, id);
  }

  lemma CreateIsPass(rows: Rows, g: GameId, number: nat, deadline: int)
    requires TableOk(rows) && !Clashes(rows, g, number) && 1 <= number <= Count(rows, g, |rows|) + 1
    ensures rows + [Fresh(g, number, deadline)] == Reconcile(rows, g, 0, deadline)
  {
    InsertKeepsTable(rows, g, number, deadline);
    MaxIsCount(rows, g);
    assert FindLive(rows, g).None?;
  }

  lemma MoveRefines(d: Db, m: Move)
    requires Inv(d) && Do(d, m).rows != d.rows
    ensures Do(d, m).rows == SeqDo(d.rows, Abstract(d, m))
  {
    if m.action.Step? {
      var c := d.engines[m.action.e];
      assert EngineOk(d, c);
      if c.pc.AtOpen? {
        OpenIsPass(d.rows, c.pc.id);
      } else if c.pc.AtLock? {
        LockIsPass(d.rows, c.pc.id, c.pc.now);
      } else if c.pc.AtCreate? {
        CreateIsPass(d.rows, c.game, c.pc.number, m.action.deadline);
      }
    }
  }

  /** The table states a run goes through, repetitions dropped. */
  function Trace(d: Db, moves: seq<Move>): seq<Rows>
    decreases |moves|
  {
    if moves == [] then [d.rows] else
    var d' := Do(d, moves[0]);
    if d'.rows == d.rows then Trace(d', moves[1..]) else [d.rows] + Trace(d', moves[1..])
  }

  function SeqTrace(rows: Rows, actions: seq<SeqAction>): seq<Rows>
    decreases |actions|
  {
    if actions == [] then [rows] else [rows] + SeqTrace(SeqDo(rows, actions[0]), actions[1..])
  }

  function Plan(d: Db, moves: seq<Move>): seq<SeqAction>
    decreases |moves|
  {
    if moves == [] then [] else
    var d' := Do(d, moves[0]);
    if d'.rows == d.rows then Plan(d', moves[1..]) else [Abstract(d, moves[0])] + Plan(d', moves[1..])
  }

  /** The database clock at each move that changes the table. */
  function Clocks(d: Db, moves: seq<Move>): seq<int>
    decreases |moves|
  {
    if moves == [] then [] else
    var d' := Do(d, moves[0]);
    if d'.rows == d.rows then Clocks(d', moves[1..]) else [d.clock] + Clocks(d', moves[1..])
  }

  ghost predicate LocksNow(rows: Rows, g: GameId) {
    var live := FindLive(rows, g);
    live.Some? && Betting(rows[live.value].state)
  }

  /**
   * A pass reads the clock exactly when it comes to a lock; its reading is then not in the future, not
   * before the round's deadline, and not before any earlier lock of the game.
   */
  ghost predicate Honest(rows: Rows, a: SeqAction, clock: int) {
    a.Pass? ==>
      && (a.reading.Some? <==> LocksNow(rows, a.game))
      && (a.reading.Some? ==>
            && a.reading.value <= clock
            && rows[FindLive(rows, a.game).value].deadline <= a.reading.value
            && forall i :: 0 <= i < |rows| && rows[i].game == a.game && rows[i].lockedAt.Some? ==>
                 rows[i].lockedAt.value <= a.reading.value)
  }

  /** A sequential run that is honest under a clock that never goes back. */
  ghost predicate HonestRun(rows: Rows, plan: seq<SeqAction>, clocks: seq<int>)
    decreases |plan|
  {
    && |plan| == |clocks|
    && (plan != [] ==>
          && Honest(rows, plan[0], clocks[0])
          && (|clocks| > 1 ==> clocks[0] <= clocks[1])
          && HonestRun(SeqDo(rows, plan[0]), plan[1..], clocks[1..]))
  }

  /**
   * Many engines refine one: whatever the interleaving, with duplicated, stale and crashed calls, the
   * table goes through exactly the states one sequential reconciler makes it go through, reading the
   * clock as that reconciler would.
   */
  lemma {:induction false} ManyEnginesRefineOne(d: Db, moves: seq<Move>)
    requires Inv(d)
    ensures Trace(d, moves) == SeqTrace(d.rows, Plan(d, moves))
    ensures HonestRun(d.rows, Plan(d, moves), Clocks(d, moves))
    ensures Clocks(d, moves) != [] ==> d.clock <= Clocks(d, moves)[0]
    decreases |moves|
  {
    hide Do, Inv, Abstract, SeqDo, Honest;
    if moves != [] {
      var m := moves[0];
      var d' := Do(d, m);
      StepKeeps(d, m);
      EnginesStep(d, m);
      ManyEnginesRefineOne(d', moves[1..]);
      if d'.rows != d.rows {
        MoveRefines(d, m);
        MoveIsHonest(d, m);
        SeqTraceCons(d.rows, Abstract(d, m), Plan(d', moves[1..]));
        HonestCons(d.rows, Abstract(d, m), Plan(d', moves[1..]), d.clock, Clocks(d', moves[1..]));
      }
    }
  }

  lemma HonestCons(rows: Rows, a: SeqAction, rest: seq<SeqAction>, clock: int, clocks: seq<int>)
    requires Honest(rows, a, clock) && HonestRun(SeqDo(rows, a), rest, clocks) && (clocks != [] ==> clock <= clocks[0])
    ensures HonestRun(rows, [a] + rest, [clock] + clocks)
  {
    assert ([a] + rest)[1..] == rest && ([clock] + clocks)[1..] == clocks;
  }

  lemma MoveIsHonest(d: Db, m: Move)
    requires Inv(d) && Do(d, m).rows != d.rows
    ensures Honest(d.rows, Abstract(d, m), d.clock)
  {
    if m.action.Step? {
      var c := d.engines[m.action.e];
      assert EngineOk(d, c);
      if c.pc.AtCreate? {
        NoneLiveWhenCreating(d.rows, c.game, c.pc.number);
      } else if c.pc.AtOpen? {
        LiveIsFound(d.rows, c.pc.id);
      } else if c.pc.AtLock? {
        LockIsHonest(d, c.pc.id, c.pc.now);
      }
    }
  }

  lemma NoneLiveWhenCreating(rows: Rows, g: GameId, number: nat)
    requires !Clashes(rows, g, number)
    ensures FindLive(rows, g).None?
  {
  }

  lemma LockIsHonest(d: Db, id: nat, now: int)
    requires TableOk(d.rows) && LockTimes(d) && id < |d.rows| && now <= d.clock
    requires ReadingOk(d.rows, id, now) && CanLock(d.rows, id, now)
    ensures Honest(d.rows, Pass(d.rows[id].game, Some(now), 0), d.clock)
  {
    LiveIsFound(d.rows, id);
    TableMeaning(d.rows);
    forall i | 0 <= i < |d.rows| && d.rows[i].game == d.rows[id].game && d.rows[i].lockedAt.Some?
      ensures d.rows[i].lockedAt.value <= now
    {
      assert i < id;
    }
  }

  /** Only rounds past betting have a lock time. */
  ghost predicate LockedPastBetting(rows: Rows) {
    forall i :: 0 <= i < |rows| && rows[i].lockedAt.Some? ==> Stage(rows[i].state) >= 3
  }

  lemma LockTimesLast(rows: Rows, a: SeqAction)
    requires LockedPastBetting(rows)
    ensures LockedPastBetting(SeqDo(rows, a)) && |rows| <= |SeqDo(rows, a)|
    ensures forall i :: 0 <= i < |rows| && rows[i].lockedAt.Some? ==>
              SeqDo(rows, a)[i].lockedAt == rows[i].lockedAt && SeqDo(rows, a)[i].game == rows[i].game
  {
  }

  /** In an honest run a game's lock readings never decrease: each is at least every lock time already there. */
  lemma {:induction false} ReadingsInOrder(rows: Rows, plan: seq<SeqAction>, clocks: seq<int>, i: nat, k: nat)
    requires LockedPastBetting(rows) && HonestRun(rows, plan, clocks) && i < |rows| && rows[i].lockedAt.Some?
    requires k < |plan| && plan[k].Pass? && plan[k].game == rows[i].game && plan[k].reading.Some?
    ensures rows[i].lockedAt.value <= plan[k].reading.value <= clocks[k]
    decreases k
  {
    hide SeqDo;
    if k > 0 {
      LockTimesLast(rows, plan[0]);
      ReadingsInOrder(SeqDo(rows, plan[0]), plan[1..], clocks[1..], i, k - 1);
    }
  }

  lemma SeqTraceCons(rows: Rows, a: SeqAction, rest: seq<SeqAction>)
    ensures SeqTrace(rows, [a] + rest) == [rows] + SeqTrace(SeqDo(rows, a), rest)
  {
    assert ([a] + rest)[1..] == rest;
  }

  // ---- versions ----

  /** How many moves of the run changed row `i`. */
  function Transitions(d: Db, moves: seq<Move>, i: nat): nat
    requires i < |d.rows|
    decreases |moves|
  {
    if moves == [] then 0 else
    var d' := Do(d, moves[0]);
    RowsStep(d, moves[0]);
    (if d'.rows[i] != d.rows[i] then 1 else 0) + Transitions(d', moves[1..], i)
  }

  /** `state_version` counts a round's transitions, so equal versions mean an equal row; states only move forward. */
  lemma {:induction false} VersionCountsTransitions(d: Db, moves: seq<Move>, i: nat)
    requires i < |d.rows|
    ensures i < |Run(d, moves).rows|
    ensures var r, r' := d.rows[i], Run(d, moves).rows[i];
      && r'.version == r.version + Transitions(d, moves, i)
      && (r'.version == r.version ==> r' == r)
      && Stage(r.state) <= Stage(r'.state)
      && r'.game == r.game && r'.number == r.number && r'.code == r.code && r'.deadline == r.deadline
    decreases |moves|
  {
    if moves != [] {
      RowsStep(d, moves[0]);
      assert RowStep(d.rows[i], Do(d, moves[0]).rows[i]);
      VersionCountsTransitions(Do(d, moves[0]), moves[1..], i);
    }
  }

  /** From its creation (version 0) on, a round's version is the number of transitions it has taken. */
  lemma {:induction false} VersionStartsAtZero(clock: int, moves: seq<Move>, i: nat)
    requires i < |Run(Init(clock), moves).rows|
    ensures exists k :: 0 <= k <= |moves| && CreatedBy(clock, moves, k, i)
    decreases |moves|
  {
    var last := |moves| - 1;
    if moves == [] {
      assert false;
    } else {
      RunAppend(Init(clock), moves[..last], moves[last]);
      assert moves[..last] + [moves[last]] == moves;
      var before := Run(Init(clock), moves[..last]);
      if i < |before.rows| {
        VersionStartsAtZero(clock, moves[..last], i);
        var k :| 0 <= k <= last && CreatedBy(clock, moves[..last], k, i);
        assert moves[..last][..k] == moves[..k];
        assert CreatedBy(clock, moves, k, i);
      } else {
        assert moves[..|moves|] == moves;
        assert CreatedBy(clock, moves, |moves|, i);
      }
    }
  }

  /** After the first `k` moves round `i` has just been inserted, in ROUND_CREATED at version 0. */
  ghost predicate CreatedBy(clock: int, moves: seq<Move>, k: nat, i: nat)
    requires k <= |moves|
  {
    var rows := Run(Init(clock), moves[..k]).rows;
    i == |rows| - 1 && rows[i].state == ROUND_CREATED && rows[i].version == 0 && rows[i].lockedAt == None
  }

  lemma {:induction false} RunAppend(d: Db, moves: seq<Move>, m: Move)
    ensures Run(d, moves + [m]) == Do(Run(d, moves), m)
    decreases |moves|
  {
    if moves == [] {
      assert Run(Do(d, m), []) == Do(d, m);
      assert ([] + [m])[1..] == [];
    } else {
      RunAppend(Do(d, moves[0]), moves[1..], m);
      assert (moves + [m])[1..] == moves[1..] + [m];
    }
  }

  // ---- the environment ----

  function Ticks(n: nat): seq<Move> {
    seq(n, _ => Move(Tick, {}))
  }

  /** The clock may run on by any time before the next statement, whatever statement that is. */
  lemma {:induction false} TimeMayPass(d: Db, n: nat)
    ensures Run(d, Ticks(n)) == d.(clock := d.clock + n)
    decreases n
  {
    if n > 0 {
      TimeMayPass(Do(d, Move(Tick, {})), n - 1);
      assert Ticks(n)[1..] == Ticks(n - 1);
    }
  }

  /** A crash ends an open engine call at any statement, and changes nothing else. */
  lemma CrashEnds(d: Db, e: nat, held: set<nat>)
    requires e < |d.engines| && !d.engines[e].pc.Done?
    ensures Do(d, Move(Crash(e), held)) == d.(engines := d.engines[e := d.engines[e].(pc := Done(Crashed))])
  {
  }

  /** Others may activate an open round and end a locked one, unless a transaction holds the row. */
  lemma OthersMove(d: Db, id: nat, end: RoundState, held: set<nat>)
    requires id < |d.rows| && id !in held && (end == ROUND_COMPLETED || end == ROUND_VOID)
    ensures d.rows[id].state == BETTING_OPEN ==>
              Do(d, Move(ActivateRound(id), held)).rows[id].state == BETTING_ACTIVE
    ensures d.rows[id].state == BETTING_LOCKED ==>
              Do(d, Move(FinishRound(id, end), held)).rows[id].state == end
  {
  }

  // ---- what an engine does to a round ----

  /** A statement of an engine changes a round only by opening a created one or by locking one whose betting is due. */
  lemma EngineAdvances(d: Db, e: nat, deadline: int, held: set<nat>, i: nat)
    requires Inv(d) && e < |d.engines| && i < |d.rows|
    ensures var d' := Do(d, Move(Step(e, deadline), held));
      && i < |d'.rows|
      && (d'.rows[i] == d.rows[i] || exists now: int :: now <= d.clock && Advanced(d.rows[i], d'.rows[i], now))
  {
    var m := Move(Step(e, deadline), held);
    var d' := Do(d, m);
    RowsStep(d, m);
    assert EngineOk(d, d.engines[e]);
    if d'.rows[i] != d.rows[i] {
      if d.engines[e].pc.AtLock? {
        assert Advanced(d.rows[i], d'.rows[i], d.engines[e].pc.now);
      } else {
        assert Advanced(d.rows[i], d'.rows[i], d.clock);
      }
    }
  }

  /** So betting ends in BETTING_LOCKED, at a reading of the clock that is not before the deadline. */
  lemma BettingEndsLocked(d: Db, e: nat, deadline: int, held: set<nat>, i: nat)
    requires Inv(d) && e < |d.engines| && i < |d.rows|
    requires d.rows[i].state == BETTING_OPEN || d.rows[i].state == BETTING_ACTIVE
    requires i < |Do(d, Move(Step(e, deadline), held)).rows|
    requires Do(d, Move(Step(e, deadline), held)).rows[i] != d.rows[i]
    ensures var r, r' := d.rows[i], Do(d, Move(Step(e, deadline), held)).rows[i];
      && r'.state == BETTING_LOCKED && r'.version == r.version + 1
      && r'.lockedAt.Some? && r.deadline <= r'.lockedAt.value <= d.clock
  {
    EngineAdvances(d, e, deadline, held, i);
  }

  /** A locked round does not change, and no round of its game is created, until something ends it. */
  lemma LockedStep(d: Db, m: Move, i: nat)
    requires Inv(d) && i < |d.rows| && d.rows[i].state == BETTING_LOCKED
    requires !(m.action.FinishRound? && m.action.id == i)
    ensures var d' := Do(d, m);
      && i < |d'.rows| && d'.rows[i] == d.rows[i]
      && forall j :: |d.rows| <= j < |d'.rows| ==> d'.rows[j].game != d.rows[i].game
  {
    hide TableOk, LockTimes, LockOrder, EngineOk;
    RowsStep(d, m);
    if |Do(d, m).rows| > |d.rows| {
      AddedRow(d, m);
    }
  }

  lemma {:induction false} LockedUntilFinished(d: Db, moves: seq<Move>, i: nat)
    requires Inv(d) && i < |d.rows| && d.rows[i].state == BETTING_LOCKED
    requires forall k :: 0 <= k < |moves| ==> !(moves[k].action.FinishRound? && moves[k].action.id == i)
    ensures var d' := Run(d, moves);
      && |d.rows| <= |d'.rows| && d'.rows[i] == d.rows[i]
      && forall j :: |d.rows| <= j < |d'.rows| ==> d'.rows[j].game != d.rows[i].game
    decreases |moves|
  {
    hide Do, Inv;
    if moves != [] {
      var d1, d' := Do(d, moves[0]), Run(d, moves);
      LockedStep(d, moves[0], i);
      StepKeeps(d, moves[0]);
      RowsStep(d, moves[0]);
      LockedUntilFinished(d1, moves[1..], i);
      forall j | |d.rows| <= j < |d'.rows| ensures d'.rows[j].game != d.rows[i].game {
        if j < |d1.rows| {
          GameStays(d1, moves[1..], j);
        }
      }
    }
  }

  lemma {:induction false} GameStays(d: Db, moves: seq<Move>, j: nat)
    requires j < |d.rows|
    ensures j < |Run(d, moves).rows| && Run(d, moves).rows[j].game == d.rows[j].game
    decreases |moves|
  {
    VersionCountsTransitions(d, moves, j);
  }

  // ---- a call run alone ----

  function Alone(g: GameId, e: nat, deadline: int): seq<Move> {
    [Move(Start(g, true, AtFindLive), {}), Move(Step(e, deadline), {}), Move(Step(e, deadline), {}),
      Move(Step(e, deadline), {})]
  }

  /** Call `e` stands at `pc` over the table `rows`, and nothing else has changed since `d`. */
  ghost predicate StandsAt(d: Db, d': Db, g: GameId, pc: Pc, rows: Rows) {
    && d'.rows == rows && d'.clock == d.clock && |d'.engines| == |d.engines| + 1
    && d'.engines[|d.engines|].game == g && d'.engines[|d.engines|].pc == pc
  }

  /** Where its statement takes a call that waits for nobody. */
  function NextPc(rows: Rows, clock: int, g: GameId, pc: Pc, deadline: int): Pc {
    match pc
    case AtFindLive =>
      var live := FindLive(rows, g);
      if live.None? then AtNextNumber
      else if rows[live.value].state == ROUND_CREATED then AtOpen(live.value)
      else if Betting(rows[live.value].state) then AtBeginLock(live.value)
      else Done(Nothing)
    case AtNextNumber => AtCreate(MaxNumber(rows, g) + 1)
    case AtCreate(number) => if Clashes(rows, g, number) then Done(Raced) else Done(Created(|rows|))
    case AtOpen(id) => Done(Opened(CanOpen(rows, id)))
    case AtBeginLock(id) => AtLock(id, clock)
    case AtLock(id, now) => Done(Locked(CanLock(rows, id, now)))
    case Done(_) => pc
  }

  function NextRows(rows: Rows, g: GameId, pc: Pc, deadline: int): Rows {
    match pc
    case AtCreate(number) => if Clashes(rows, g, number) then rows else rows + [Fresh(g, number, deadline)]
    case AtOpen(id) => OpenRound(rows, id)
    case AtLock(id, now) => LockIfDeadlinePassed(rows, id, now)
    case _ => rows
  }

  lemma StepAlone(d: Db, d': Db, g: GameId, pc: Pc, rows: Rows, deadline: int)
    requires StandsAt(d, d', g, pc, rows)
    ensures StandsAt(d, Do(d', Move(Step(|d.engines|, deadline), {})), g, NextPc(rows, d.clock, g, pc, deadline),
                     NextRows(rows, g, pc, deadline))
  {
    hide FindLive, Clashes, MaxNumber, Count, CanOpen, CanLock, OpenRound, LockIfDeadlinePassed;
  }

  /** A reconcile of the machine with nothing in between ends, having done just what the service's method does. */
  lemma AloneIsReconcile(d: Db, g: GameId, deadline: int)
    requires Inv(d)
    ensures var e := |d.engines|; var d' := Run(d, Alone(g, e, deadline));
      && e < |d'.engines| && d'.engines[e].pc.Done?
      && Reconciled(d.rows, d'.rows, g, d.clock, deadline)
      && d'.rows == Reconcile(d.rows, g, d.clock, deadline)
  {
    hide Inv, Reconciled, Clashes, MaxNumber, TableOk, Do, NextPc, NextRows, Reconcile;
    TableIsOk(d);
    ThreeStatements(d.rows, d.clock, g, deadline);
    ReconcileMeans(d.rows, g, d.clock, deadline);
    var moves := Alone(g, |d.engines|, deadline);
    FourMoves(d, moves);
    var d1 := Do(d, moves[0]);
    StartAlone(d, g);
    var pc2 := NextPc(d.rows, d.clock, g, AtFindLive, deadline);
    StepAlone(d, d1, g, AtFindLive, d.rows, deadline);
    var d2 := Do(d1, moves[1]);
    StepAlone(d, d2, g, pc2, d.rows, deadline);
    var d3 := Do(d2, moves[2]);
    StepAlone(d, d3, g, NextPc(d.rows, d.clock, g, pc2, deadline), NextRows(d.rows, g, pc2, deadline), deadline);
  }

  /** Three statements of a call that waits for nobody end it with the table reconciled. */
  lemma ThreeStatements(rows: Rows, clock: int, g: GameId, deadline: int)
    ensures var pc2 := NextPc(rows, clock, g, AtFindLive, deadline);
      var pc3, rows3 := NextPc(rows, clock, g, pc2, deadline), NextRows(rows, g, pc2, deadline);
      && NextRows(rows, g, AtFindLive, deadline) == rows
      && NextPc(rows3, clock, g, pc3, deadline).Done?
      && NextRows(rows3, g, pc3, deadline) == Reconcile(rows, g, clock, deadline)
  {
    hide Clashes, MaxNumber, FindLive, Generate;
  }

  lemma StartAlone(d: Db, g: GameId)
    ensures StandsAt(d, Do(d, Move(Start(g, true, AtFindLive), {})), g, AtFindLive, d.rows)
  {
  }

  lemma TableIsOk(d: Db)
    requires Inv(d)
    ensures TableOk(d.rows)
  {
  }

  lemma FourMoves(d: Db, moves: seq<Move>)
    requires |moves| == 4
    ensures Run(d, moves) == Do(Do(Do(Do(d, moves[0]), moves[1]), moves[2]), moves[3])
  {
    hide Do;
    assert moves[1..][1..][1..][1..] == [];
    assert moves[1..][0] == moves[1] && moves[1..][1..][0] == moves[2] && moves[1..][1..][1..][0] == moves[3];
    var d1 := Do(d, moves[0]);
    var d2 := Do(d1, moves[1]);
    assert Run(d, moves) == Run(d1, moves[1..]) == Run(d2, moves[1..][1..]);
    assert Run(d2, moves[1..][1..]) == Run(Do(d2, moves[2]), moves[1..][1..][1..]);
  }
}
