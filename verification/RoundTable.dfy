/**
 * The `game_rounds` table and the statements RoundsService runs against it.
 *
 * A round's id is its position in the table: rows are only ever appended (ids are random in the
 * source; only their distinctness matters). Each function is the effect of one SQL statement.
 */
module RoundTable {
  import opened Prelude
  import opened DisplayCode

  datatype RoundState =
    | ROUND_CREATED | BETTING_OPEN | BETTING_ACTIVE | BETTING_LOCKED | RESULT_PENDING
    | RESULT_PUBLISHED | SETTLEMENT_PENDING | ROUND_COMPLETED | ROUND_VOID

  datatype Round = Round(
    game: GameId, number: nat, code: string, state: RoundState, version: nat,
    deadline: int, lockedAt: Option<int>)

  type Rows = seq<Round>

  predicate Terminal(st: RoundState) {
    st == ROUND_COMPLETED || st == ROUND_VOID
  }

  /** States that accept bets, and from which a round can be locked. */
  predicate Betting(st: RoundState) {
    st == BETTING_OPEN || st == BETTING_ACTIVE
  }

  predicate LiveFor(r: Round, g: GameId) {
    r.game == g && !Terminal(r.state)
  }

  /** The live round of `g` with the greatest number. */
  function FindLive(rows: Rows, g: GameId): (id: Option<nat>)
    ensures id.Some? ==> id.value < |rows| && LiveFor(rows[id.value], g)
    ensures id.Some? ==> forall i :: 0 <= i < |rows| && LiveFor(rows[i], g) ==> rows[i].number <= rows[id.value].number
    ensures id.None? ==> forall i :: 0 <= i < |rows| ==> !LiveFor(rows[i], g)
  {
    if rows == [] then None else
    var last := |rows| - 1;
    var before := FindLive(rows[..last], g);
    if LiveFor(rows[last], g) && (before.None? || rows[before.value].number <= rows[last].number)
    then Some(last) else before
  }

  /** `MAX(round_number)` of the game, 0 when it has no round. */
  function MaxNumber(rows: Rows, g: GameId): (m: nat)
    ensures forall i :: 0 <= i < |rows| && rows[i].game == g ==> rows[i].number <= m
    ensures m > 0 ==> exists i :: 0 <= i < |rows| && rows[i].game == g && rows[i].number == m
  {
    if rows == [] then 0 else
    var last := |rows| - 1;
    var m := MaxNumber(rows[..last], g);
    if rows[last].game == g && rows[last].number > m then rows[last].number else m
  }

  /** Does inserting (g, number) break a unique index of the table? (P2002) */
  predicate Clashes(rows: Rows, g: GameId, number: nat) {
    exists i :: 0 <= i < |rows| &&
      (LiveFor(rows[i], g) || (rows[i].game == g && rows[i].number == number) || rows[i].code == Generate(g, number))
  }

  function Fresh(g: GameId, number: nat, deadline: int): Round {
    Round(g, number, Generate(g, number), ROUND_CREATED, 0, deadline, None)
  }

  predicate CanOpen(rows: Rows, id: nat) {
    id < |rows| && rows[id].state == ROUND_CREATED
  }

  /** ROUND_CREATED to BETTING_OPEN; any other state is left alone. */
  function OpenRound(rows: Rows, id: nat): Rows {
    if CanOpen(rows, id)
    then rows[id := rows[id].(state := BETTING_OPEN, version := rows[id].version + 1)]
    else rows
  }

  predicate CanLock(rows: Rows, id: nat, now: int) {
    id < |rows| && Betting(rows[id].state) && rows[id].deadline <= now
  }

  /** BETTING_OPEN or BETTING_ACTIVE to BETTING_LOCKED once the statement's `now()` reaches the deadline. */
  function LockIfDeadlinePassed(rows: Rows, id: nat, now: int): Rows {
    if CanLock(rows, id, now)
    then rows[id := rows[id].(state := BETTING_LOCKED, version := rows[id].version + 1, lockedAt := Some(now))]
    else rows
  }

  /** `prisma.gameRound.create`; None is the unique violation. */
  function Insert(rows: Rows, g: GameId, number: nat, deadline: int): Option<Rows> {
    if Clashes(rows, g, number) then None else Some(rows + [Fresh(g, number, deadline)])
  }

  /** One reconciler step run to its end with nothing in between. */
  function Reconcile(rows: Rows, g: GameId, now: int, deadline: int): Rows {
    match FindLive(rows, g)
    case None =>
      (match Insert(rows, g, MaxNumber(rows, g) + 1, deadline)
       case None => rows
       case Some(rows') => rows')
    case Some(id) =>
      if rows[id].state == ROUND_CREATED then OpenRound(rows, id)
      else if Betting(rows[id].state) then LockIfDeadlinePassed(rows, id, now)
      else rows
  }

  /** Transitions outside this service: the first bet's, and whatever ends a locked round. */
  function Activate(rows: Rows, id: nat): Rows {
    if id < |rows| && rows[id].state == BETTING_OPEN
    then rows[id := rows[id].(state := BETTING_ACTIVE, version := rows[id].version + 1)]
    else rows
  }

  function Finish(rows: Rows, id: nat, end: RoundState): Rows {
    if id < |rows| && rows[id].state == BETTING_LOCKED && Terminal(end)
    then rows[id := rows[id].(state := end, version := rows[id].version + 1)]
    else rows
  }

  // ---- numbering ----

  /** How many of the first `n` rows belong to `g`. */
  function Count(rows: Rows, g: GameId, n: nat): nat
    requires n <= |rows|
  {
    if n == 0 then 0 else Count(rows, g, n - 1) + (if rows[n - 1].game == g then 1 else 0)
  }

  /** Every round's number is its rank among its game's rounds, and its code is derived from it. */
  ghost predicate Numbered(rows: Rows) {
    forall i :: 0 <= i < |rows| ==>
      rows[i].number == Count(rows, rows[i].game, i + 1) && rows[i].code == Generate(rows[i].game, rows[i].number)
  }

  /** A live round is its game's newest. */
  ghost predicate NewestLive(rows: Rows) {
    forall i :: 0 <= i < |rows| && !Terminal(rows[i].state) ==> rows[i].number == Count(rows, rows[i].game, |rows|)
  }

  ghost predicate TableOk(rows: Rows) {
    Numbered(rows) && NewestLive(rows)
  }

  lemma {:induction false} CountSame(rows: Rows, rows': Rows, g: GameId, n: nat)
    requires n <= |rows| && n <= |rows'|
    requires forall i :: 0 <= i < n ==> rows[i].game == rows'[i].game
    ensures Count(rows, g, n) == Count(rows', g, n)
  {
    if n > 0 {
      CountSame(rows, rows', g, n - 1);
    }
  }

  lemma {:induction false} CountMonotone(rows: Rows, g: GameId, m: nat, n: nat)
    requires m <= n <= |rows|
    ensures Count(rows, g, m) <= Count(rows, g, n)
    ensures forall i :: m <= i < n && rows[i].game == g ==> Count(rows, g, m) < Count(rows, g, n)
  {
    if m < n {
      CountMonotone(rows, g, m, n - 1);
    }
  }

  ghost predicate HasNumber(rows: Rows, g: GameId, n: nat, k: nat)
    requires n <= |rows|
  {
    exists i :: 0 <= i < n && rows[i].game == g && rows[i].number == k
  }

  /** The numbers of a game's rounds are exactly 1, 2, ..., each once, in the order of creation. */
  lemma {:induction false} NumbersExact(rows: Rows, g: GameId, n: nat)
    requires n <= |rows| && Numbered(rows)
    ensures forall i :: 0 <= i < n && rows[i].game == g ==> 1 <= rows[i].number <= Count(rows, g, n)
    ensures forall i, j :: 0 <= i < j < n && rows[i].game == rows[j].game == g ==> rows[i].number < rows[j].number
    ensures forall k {:trigger HasNumber(rows, g, n, k)} :: 1 <= k <= Count(rows, g, n) ==> HasNumber(rows, g, n, k)
  {
    if n > 0 {
      NumbersExact(rows, g, n - 1);
      forall k | 1 <= k <= Count(rows, g, n) ensures HasNumber(rows, g, n, k) {
        if k <= Count(rows, g, n - 1) {
          assert HasNumber(rows, g, n - 1, k);
        } else {
          assert rows[n - 1].game == g && rows[n - 1].number == k;
        }
      }
    }
  }

  /** `MAX + 1` is the next rank. */
  lemma MaxIsCount(rows: Rows, g: GameId)
    requires Numbered(rows)
    ensures MaxNumber(rows, g) == Count(rows, g, |rows|)
  {
    NumbersExact(rows, g, |rows|);
    var n := Count(rows, g, |rows|);
    assert n > 0 ==> HasNumber(rows, g, |rows|, n);
  }

  /** What a well-numbered table promises a reader: no clash of number, live round or code. */
  lemma TableMeaning(rows: Rows)
    requires TableOk(rows)
    ensures forall i, j :: 0 <= i < j < |rows| && rows[i].game == rows[j].game ==> rows[i].number != rows[j].number
    ensures forall i, j :: 0 <= i < j < |rows| && rows[i].game == rows[j].game ==> Terminal(rows[i].state)
    ensures forall i, j :: 0 <= i < j < |rows| ==> rows[i].code != rows[j].code
  {
    forall i, j | 0 <= i < j < |rows|
      ensures rows[i].game == rows[j].game ==> rows[i].number != rows[j].number && Terminal(rows[i].state)
      ensures rows[i].code != rows[j].code
    {
      NumbersExact(rows, rows[i].game, |rows|);
      if rows[i].code == rows[j].code {
        GenerateInjective(rows[i].game, rows[i].number, rows[j].game, rows[j].number);
      }
    }
  }

  /** A row update that keeps game, number and code, and never revives a terminal round, keeps the table well formed. */
  lemma UpdateKeepsTable(rows: Rows, id: nat, r: Round)
    requires TableOk(rows) && id < |rows| && !Terminal(rows[id].state)
    requires r.game == rows[id].game && r.number == rows[id].number && r.code == rows[id].code
    ensures TableOk(rows[id := r])
  {
    var rows' := rows[id := r];
    forall i, n | 0 <= i < |rows| && 0 <= n <= |rows|
      ensures Count(rows', rows'[i].game, n) == Count(rows, rows[i].game, n)
    {
      CountSame(rows, rows', rows[i].game, n);
    }
  }

  /** Inserting a number that is at most one past the count, without a clash, appends the next rank. */
  lemma InsertKeepsTable(rows: Rows, g: GameId, number: nat, deadline: int)
    requires TableOk(rows) && !Clashes(rows, g, number) && 1 <= number <= Count(rows, g, |rows|) + 1
    ensures number == Count(rows, g, |rows|) + 1
    ensures TableOk(rows + [Fresh(g, number, deadline)])
  {
    NumbersExact(rows, g, |rows|);
    assert number <= Count(rows, g, |rows|) ==> HasNumber(rows, g, |rows|, number);
    AppendKeepsTable(rows, Fresh(g, number, deadline));
  }

  lemma AppendKeepsTable(rows: Rows, r: Round)
    requires TableOk(rows) && forall i :: 0 <= i < |rows| ==> !LiveFor(rows[i], r.game)
    requires r.number == Count(rows, r.game, |rows|) + 1 && r.code == Generate(r.game, r.number)
    ensures TableOk(rows + [r])
  {
    hide Generate;
    var rows' := rows + [r];
    forall i | 0 <= i < |rows'|
      ensures rows'[i].number == Count(rows', rows'[i].game, i + 1)
                && rows'[i].code == Generate(rows'[i].game, rows'[i].number)
    {
      if i < |rows| {
        CountSame(rows, rows', rows[i].game, i + 1);
      } else {
        CountSame(rows, rows', r.game, i);
      }
    }
    forall i | 0 <= i < |rows'| && !Terminal(rows'[i].state)
      ensures rows'[i].number == Count(rows', rows'[i].game, |rows'|)
    {
      if i < |rows| {
        assert !LiveFor(rows[i], r.game);
        CountSame(rows, rows', rows[i].game, |rows|);
      }
    }
  }

  /** In a well-formed table any live round is the one `findLiveRound` returns. */
  lemma LiveIsFound(rows: Rows, id: nat)
    requires TableOk(rows) && id < |rows| && !Terminal(rows[id].state)
    ensures FindLive(rows, rows[id].game) == Some(id)
  {
    TableMeaning(rows);
  }

  // ---- what a reconciler step means for the rounds ----

  ghost predicate IsNew(r: Round, g: GameId, number: int, deadline: int) {
    && r.game == g && r.number == number && r.code == Generate(g, number)
    && r.state == ROUND_CREATED && r.version == 0 && r.deadline == deadline && r.lockedAt == None
  }

  /** A created round opens; a round taking bets whose deadline has come locks; any other stays as it is. */
  ghost predicate Advanced(r: Round, r': Round, now: int) {
    if r.state == ROUND_CREATED then
      r' == r.(state := BETTING_OPEN, version := r.version + 1)
    else if (r.state == BETTING_OPEN || r.state == BETTING_ACTIVE) && r.deadline <= now then
      r' == r.(state := BETTING_LOCKED, version := r.version + 1, lockedAt := Some(now))
    else r' == r
  }

  ghost predicate AllOver(rows: Rows, g: GameId) {
    forall i :: 0 <= i < |rows| && rows[i].game == g ==> rows[i].state == ROUND_COMPLETED || rows[i].state == ROUND_VOID
  }

  /** One step for game `g`: its next round is created if all its rounds are over, else its rounds advance. */
  ghost predicate Reconciled(rows: Rows, rows': Rows, g: GameId, now: int, deadline: int) {
    if AllOver(rows, g) then
      |rows'| == |rows| + 1 && rows'[..|rows|] == rows && IsNew(rows'[|rows|], g, Count(rows, g, |rows|) + 1, deadline)
    else
      && |rows'| == |rows|
      && forall i :: 0 <= i < |rows| ==>
           if rows[i].game == g then Advanced(rows[i], rows'[i], now) else rows'[i] == rows[i]
  }

  /** The reconciler step does just that. */
  lemma ReconcileMeans(rows: Rows, g: GameId, now: int, deadline: int)
    requires TableOk(rows)
    ensures Reconciled(rows, Reconcile(rows, g, now, deadline), g, now, deadline)
  {
    hide Generate, MaxNumber, Count, Clashes, TableOk;
    var rows', live := Reconcile(rows, g, now, deadline), FindLive(rows, g);
    if live.None? {
      NextIsFree(rows, g);
      assert rows'[..|rows|] == rows;
    } else {
      assert !AllOver(rows, g);
      forall i | 0 <= i < |rows|
        ensures if rows[i].game == g then Advanced(rows[i], rows'[i], now) else rows'[i] == rows[i]
      {
        if rows[i].game == g && i != live.value {
          OnlyOneLive(rows, live.value, i);
        }
      }
    }
  }

  lemma OnlyOneLive(rows: Rows, id: nat, i: nat)
    requires TableOk(rows) && id < |rows| && i < |rows| && !Terminal(rows[id].state)
    requires rows[i].game == rows[id].game && i != id
    ensures rows[i].state == ROUND_COMPLETED || rows[i].state == ROUND_VOID
  {
    TableMeaning(rows);
  }

  /** With no live round, the next number breaks no unique index. */
  lemma NextIsFree(rows: Rows, g: GameId)
    requires TableOk(rows) && FindLive(rows, g).None?
    ensures MaxNumber(rows, g) == Count(rows, g, |rows|) && !Clashes(rows, g, MaxNumber(rows, g) + 1)
  {
    hide Generate, Count;
    MaxIsCount(rows, g);
    var number := MaxNumber(rows, g) + 1;
    forall i | 0 <= i < |rows|
      ensures !LiveFor(rows[i], g) && !(rows[i].game == g && rows[i].number == number)
      ensures rows[i].code != Generate(g, number)
    {
      if rows[i].code == Generate(g, number) {
        GenerateInjective(rows[i].game, rows[i].number, g, number);
      }
    }
  }
}
