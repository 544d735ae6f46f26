/** Conservation of points on the board, over single handlers and over whole sessions. */
module BoardTheorems {
  import opened Shuffle
  import opened Prelude
  import opened Board
  import Wheel

  // ---- one handler ----

  /** The points an action brings in: only the end of a draw does. */
  function Gained(s: GameState, a: Action): int {
    if a.EndDraw? && s.phase == DRAWING then Win(s.bets, ResultOf(a.triple)) else 0
  }

  /** The points an action takes off the table: only reopening the betting does. */
  function Played(s: GameState, a: Action): int {
    if a.Reopen? && s.phase == RESULT then s.playStake else 0
  }

  lemma BuyKeeps(s: GameState, cells: set<Cell>)
    requires Valid(s)
    ensures Valid(Buy(s, cells)) && Worth(Buy(s, cells)) == Worth(s)
    ensures Buy(s, cells).playStake - Total(Buy(s, cells).bets) == s.playStake - Total(s.bets)
  {
    TotalStaked(s.bets, cells, s.selectedChip);
  }

  lemma SteppedDownKeeps(bets: Bets, cells: set<Cell>, chip: int)
    requires Positive(bets) && chip > 0
    ensures Positive(SteppedDown(bets, cells, chip)) && 0 <= Total(SteppedDown(bets, cells, chip)) <= Total(bets)
  {
    TotalAtMost(SteppedDown(bets, cells, chip), bets);
  }

  lemma UndoKeeps(s: GameState, cells: set<Cell>)
    requires Valid(s)
    ensures Valid(Undo(s, cells)) && Worth(Undo(s, cells)) == Worth(s)
    ensures Undo(s, cells).playStake - Total(Undo(s, cells).bets) == s.playStake - Total(s.bets)
  {
    SteppedDownKeeps(s.bets, cells, s.selectedChip);
  }

  lemma WithinAtMost(bets: Bets, cells: set<Cell>)
    requires Positive(bets)
    ensures 0 <= Total(Within(bets, cells)) <= Total(bets)
    ensures 0 <= Total(bets - cells)
  {
    TotalAtMost(Within(bets, cells), bets);
    TotalAtMost(bets - cells, bets);
  }

  lemma StakedIsPositive(bets: Bets, cells: set<Cell>, chip: int)
    requires Positive(bets) && chip > 0
    ensures Positive(Staked(bets, cells, chip))
  {
  }

  lemma PickKeeps(s: GameState, section: BetType, draws: seq<nat>)
    requires Valid(s)
    ensures Valid(Pick(s, section, draws)) && Worth(Pick(s, section, draws)) == Worth(s)
    ensures Pick(s, section, draws).playStake - Total(Pick(s, section, draws).bets) == s.playStake - Total(s.bets)
  {
    hide Staked, Within, Area, PickedCells, Total;
    if CanPick(s, section, draws) {
      PickedCount(s, section, draws);
      StakedIsPositive(s.bets - Area(s, section), PickedCells(s, section, draws), s.selectedChip);
      WithinAtMost(s.bets, Area(s, section));
      TotalStaked(s.bets - Area(s, section), PickedCells(s, section, draws), s.selectedChip);
      TotalSplit(s.bets, Area(s, section));
    }
  }

  lemma PickedCount(s: GameState, section: BetType, draws: seq<nat>)
    requires ValidDraws(100, draws)
    ensures |PickedCells(s, section, draws)| == |draws|
    ensures PickedCells(s, section, draws) <= Area(s, section)
  {
    hide Picked, BaseOf;
    var picks, base := Picked(100, draws), BaseOf(s, section);
    PickedInRange(draws);
    CellsAtSize(section, base, picks);
    CellsInArea(section, base, picks);
  }

  lemma PickedInRange(draws: seq<nat>)
    requires ValidDraws(100, draws)
    ensures |Picked(100, draws)| == |draws| && Distinct(Picked(100, draws)) && Below(Picked(100, draws), 100)
  {
    hide Pool;
    PoolIsPermutation(100, draws);
  }

  lemma CellsInArea(section: BetType, base: nat, picks: seq<nat>)
    requires Below(picks, 100)
    ensures CellsAt(section, base, picks) <= Line(section, base, 1, 100)
  {
    forall i | 0 <= i < |picks| ensures Cell(section, base + picks[i]) in Line(section, base, 1, 100) {
      assert Cell(section, base + picks[i]) == Cell(section, base + 1 * picks[i]);
    }
  }

  lemma DoubleKeeps(s: GameState)
    requires Valid(s)
    ensures Valid(Apply(s, DoubleAll)) && Worth(Apply(s, DoubleAll)) == Worth(s)
    ensures Total(Doubled(s.bets)) == 2 * Total(s.bets)
  {
    TotalDoubled(s.bets);
    TotalAtMost(s.bets, s.bets);
  }

  lemma RepeatKeeps(s: GameState)
    requires Valid(s)
    ensures Valid(Apply(s, Repeat)) && Worth(Apply(s, Repeat)) == Worth(s)
  {
    TotalMerged(s.bets, s.previousBets);
    WithinAtMost(s.bets, s.previousBets.Keys);
    TotalAtMost(s.previousBets, s.previousBets);
  }

  lemma ClearKeeps(s: GameState)
    requires Valid(s)
    ensures Valid(Apply(s, Clear)) && Worth(Apply(s, Clear)) == Worth(s)
  {
    TotalOfNothing();
    TotalAtMost(s.bets, s.bets);
  }

  lemma WinNotNegative(bets: Bets, result: DrawResult)
    requires Positive(bets)
    ensures Win(bets, result) >= 0
  {
  }

  /**
   * Balance and stake on the table together change only by what a draw pays and by what reopening takes off,
   * and every handler keeps the board's invariant.
   */
  lemma ActionKeeps(s: GameState, a: Action)
    requires Valid(s)
    ensures Valid(Apply(s, a))
    ensures Worth(Apply(s, a)) == Worth(s) + Gained(s, a) - Played(s, a)
  {
    hide Buy, Undo, Pick, Total;
    match a
    case PlaceBet(c) => BuyKeeps(s, {c});
    case RemoveBet(c) => UndoKeeps(s, {c});
    case QuickRow(section, row) => BuyKeeps(s, Row(s, section, row));
    case QuickCol(section, col) => BuyKeeps(s, Column(s, section, col));
    case QuickRowUndo(section, row) => UndoKeeps(s, Row(s, section, row));
    case QuickColUndo(section, col) => UndoKeeps(s, Column(s, section, col));
    case RandomPick(section, draws) => PickKeeps(s, section, draws);
    case DoubleAll => DoubleKeeps(s);
    case Repeat => RepeatKeeps(s);
    case Clear => ClearKeeps(s);
    case SelectChip(_) =>
    case SelectTab(_) =>
    case Tick =>
    case EndDraw(triple) => WinNotNegative(s.bets, ResultOf(triple));
    case Reopen => TotalOfNothing();
  }

  lemma TotalOfNothing()
    ensures Total(map[]) == 0
  {
  }

  // ---- what each handler does, cell by cell ----

  /** Bets are taken while betting is open with more than five seconds left, if the points suffice. */
  ghost predicate Takes(s: GameState, cost: int) {
    s.phase == BETTING && s.secondsLeft > 5 && s.pointsBalance >= cost
  }

  /**
   * The cells behind a row, a column and a board: ten in a line, ten apart,
   * a hundred, on the visible hundred of triples.
   */
  lemma GroupsAre(s: GameState, section: BetType, line: nat, c: Cell)
    ensures var base := if section == Triple then 100 * s.triplesTab else 0;
      && (c in Row(s, section, line) <==>
            c.kind == section && base + 10 * line <= c.value < base + 10 * line + 10)
      && (c in Column(s, section, line) <==>
            c.kind == section && base + line <= c.value < base + line + 100 && (c.value - base - line) % 10 == 0)
      && (c in Area(s, section) <==> c.kind == section && base <= c.value < base + 100)
  {
    var base := BaseOf(s, section);
    if c.kind == section {
      if base + 10 * line <= c.value < base + 10 * line + 10 {
        assert c == Cell(section, base + line * 10 + 1 * (c.value - base - line * 10));
      }
      if base + line <= c.value < base + line + 100 && (c.value - base - line) % 10 == 0 {
        assert c == Cell(section, base + line + 10 * ((c.value - base - line) / 10));
      }
      if base <= c.value < base + 100 {
        assert c == Cell(section, base + 1 * (c.value - base));
      }
    }
  }

  /** Staking a group: a chip more on each of its cells for as many chips, or nothing at all. */
  lemma BuyMeans(s: GameState, cells: set<Cell>)
    ensures var chip, t := s.selectedChip, Buy(s, cells);
      if Takes(s, chip * |cells|) then
        && t == s.(pointsBalance := s.pointsBalance - chip * |cells|,
                   playStake := s.playStake + chip * |cells|, bets := t.bets)
        && t.bets.Keys == s.bets.Keys + cells
        && forall c :: Stake(t.bets, c) == Stake(s.bets, c) + if c in cells then chip else 0
      else t == s
  {
  }

  /** Taking back from a group: a chip, or what is left, off each of its cells, all of it to the balance. */
  lemma UndoMeans(s: GameState, cells: set<Cell>)
    requires Valid(s)
    ensures var chip, t := s.selectedChip, Undo(s, cells);
      if s.phase == BETTING && s.secondsLeft > 5 then
        && (forall c :: Stake(t.bets, c) ==
              if c !in cells then Stake(s.bets, c) else if Stake(s.bets, c) > chip then Stake(s.bets, c) - chip else 0)
        && t == s.(pointsBalance := s.pointsBalance + (Total(s.bets) - Total(t.bets)),
                   playStake := s.playStake - (Total(s.bets) - Total(t.bets)), bets := t.bets)
      else t == s
  {
    SteppedDownKeeps(s.bets, cells, s.selectedChip);
    var next := SteppedDown(s.bets, cells, s.selectedChip);
    if Total(next) == Total(s.bets) {
      NothingTaken(s.bets, cells, s.selectedChip);
    }
    forall c ensures var chip, stake := s.selectedChip, Stake(s.bets, c);
                     Stake(next, c) == if c !in cells then stake else if stake > chip then stake - chip else 0 {
    }
  }

  /** `t` is `s` with a chip more on each of the `n` cells that are hit, if bets are taken and it can be paid. */
  ghost predicate Stakes(s: GameState, t: GameState, n: nat, hit: Cell -> bool) {
    var chip := s.selectedChip;
    if Takes(s, chip * n) then
      && t == s.(pointsBalance := s.pointsBalance - chip * n, playStake := s.playStake + chip * n, bets := t.bets)
      && forall c :: Stake(t.bets, c) == Stake(s.bets, c) + if hit(c) then chip else 0
    else t == s
  }

  /** `t` is `s` with a chip, or what is left, back from each cell that is hit, if bets are taken. */
  ghost predicate TakesBack(s: GameState, t: GameState, hit: Cell -> bool) {
    var chip := s.selectedChip;
    if s.phase == BETTING && s.secondsLeft > 5 then
      && (forall c :: Stake(t.bets, c) ==
            if !hit(c) then Stake(s.bets, c) else if Stake(s.bets, c) > chip then Stake(s.bets, c) - chip else 0)
      && t == s.(pointsBalance := s.pointsBalance + (Total(s.bets) - Total(t.bets)),
                 playStake := s.playStake - (Total(s.bets) - Total(t.bets)), bets := t.bets)
    else t == s
  }

  /** Is `c` in the ten of line `line`, in the line's order or across, on the visible board of the section? */
  predicate InLine(s: GameState, section: BetType, line: nat, across: bool, c: Cell) {
    var base := if section == Triple then 100 * s.triplesTab else 0;
    && c.kind == section && base <= c.value < base + 100
    && if across then (c.value - base) % 10 == line else (c.value - base) / 10 == line
  }

  /** What the six staking clicks do, cell by cell. */
  lemma ClicksMean(s: GameState, section: BetType, line: nat, cell: Cell)
    requires Valid(s) && line < 10
    ensures Stakes(s, Apply(s, PlaceBet(cell)), 1, c => c == cell)
    ensures TakesBack(s, Apply(s, RemoveBet(cell)), c => c == cell)
    ensures Stakes(s, Apply(s, QuickRow(section, line)), 10, c => InLine(s, section, line, false, c))
    ensures Stakes(s, Apply(s, QuickCol(section, line)), 10, c => InLine(s, section, line, true, c))
    ensures TakesBack(s, Apply(s, QuickRowUndo(section, line)), c => InLine(s, section, line, false, c))
    ensures TakesBack(s, Apply(s, QuickColUndo(section, line)), c => InLine(s, section, line, true, c))
  {
    hide Total, Row, Column, Buy, Undo, Valid, Stakes, TakesBack, InLine;
    var row, column := Row(s, section, line), Column(s, section, line);
    LineSizes(s, section, line);
    LinesAre(s, section, line);
    StakesGroup(s, {cell}, c => c == cell);
    TakesBackGroup(s, {cell}, c => c == cell);
    StakesGroup(s, row, c => InLine(s, section, line, false, c));
    StakesGroup(s, column, c => InLine(s, section, line, true, c));
    TakesBackGroup(s, row, c => InLine(s, section, line, false, c));
    TakesBackGroup(s, column, c => InLine(s, section, line, true, c));
  }

  lemma StakesGroup(s: GameState, cells: set<Cell>, hit: Cell -> bool)
    requires forall c :: c in cells <==> hit(c)
    ensures Stakes(s, Buy(s, cells), |cells|, hit)
  {
    hide Buy;
    BuyMeans(s, cells);
  }

  lemma TakesBackGroup(s: GameState, cells: set<Cell>, hit: Cell -> bool)
    requires Valid(s) && forall c :: c in cells <==> hit(c)
    ensures TakesBack(s, Undo(s, cells), hit)
  {
    hide Undo, Valid, Total;
    UndoMeans(s, cells);
  }

  lemma LinesAre(s: GameState, section: BetType, line: nat)
    requires line < 10
    ensures forall c :: c in Row(s, section, line) <==> InLine(s, section, line, false, c)
    ensures forall c :: c in Column(s, section, line) <==> InLine(s, section, line, true, c)
  {
    hide Row, Column;
    forall c
      ensures c in Row(s, section, line) <==> InLine(s, section, line, false, c)
      ensures c in Column(s, section, line) <==> InLine(s, section, line, true, c)
    {
      GroupsAre(s, section, line, c);
    }
  }

  lemma LineSizes(s: GameState, section: BetType, line: nat)
    ensures |Row(s, section, line)| == |Column(s, section, line)| == 10
  {
    LineSize(section, BaseOf(s, section) + line * 10, 1, 10);
    LineSize(section, BaseOf(s, section) + line, 10, 10);
  }

  /** If stepping down took nothing there was nothing to take. */
  lemma NothingTaken(bets: Bets, cells: set<Cell>, chip: int)
    requires Positive(bets) && chip > 0 && Total(SteppedDown(bets, cells, chip)) == Total(bets)
    ensures SteppedDown(bets, cells, chip) == bets
  {
    hide Total;
    if c :| c in bets && c in cells {
      TakenFrom(bets, cells, chip, c);
      assert false;
    }
  }

  lemma TakenFrom(bets: Bets, cells: set<Cell>, chip: int, c: Cell)
    requires Positive(bets) && chip > 0 && c in bets && c in cells
    ensures Total(SteppedDown(bets, cells, chip)) < Total(bets)
  {
    var next := SteppedDown(bets, cells, chip);
    TotalWithout(bets, c);
    TotalAtMost(next - {c}, bets - {c});
    if c in next {
      TotalWithout(next, c);
    } else {
      assert next - {c} == next;
    }
  }

  /** A pick goes through exactly while bets are taken and the balance covers what it adds to the section. */
  lemma PickGoesThroughExactly(s: GameState, section: BetType, draws: seq<nat>)
    requires ValidDraws(100, draws)
    ensures CanPick(s, section, draws) <==> Takes(s, s.selectedChip * |draws| - Total(Within(s.bets, Area(s, section))))
    ensures !CanPick(s, section, draws) ==> Apply(s, RandomPick(section, draws)) == s
  {
  }

  /** DOUBLE doubles every bet and the stake for the stake shown, if there is a bet and the balance covers it. */
  lemma DoubleMeans(s: GameState)
    ensures var t := Apply(s, DoubleAll);
      if Takes(s, s.playStake) && s.bets != map[] then
        && t == s.(pointsBalance := s.pointsBalance - s.playStake, playStake := 2 * s.playStake, bets := t.bets)
        && t.bets.Keys == s.bets.Keys && forall c :: Stake(t.bets, c) == 2 * Stake(s.bets, c)
      else t == s
  {
  }

  /** REPEAT lays the last round's bets over the present ones for their full total; CLEAR takes everything back. */
  lemma RepeatAndClearMean(s: GameState)
    ensures var t := Apply(s, Repeat);
      if Takes(s, Total(s.previousBets)) && s.previousBets != map[] then
        && t == s.(pointsBalance := s.pointsBalance - Total(s.previousBets),
                   playStake := s.playStake + Total(s.previousBets), bets := t.bets)
        && forall c :: Stake(t.bets, c) == if c in s.previousBets then s.previousBets[c] else Stake(s.bets, c)
      else t == s
    ensures Apply(s, Clear) ==
            if s.phase == BETTING && s.secondsLeft > 5 && s.bets != map[]
            then s.(pointsBalance := s.pointsBalance + s.playStake, playStake := 0, bets := map[]) else s
  {
    hide Total;
  }

  /**
   * The end of a draw pays 9, 90 and 900 times the stakes on the drawn digit,
   * pair and triple; reopening clears the table.
   */
  lemma DrawAndReopenMean(s: GameState, triple: nat)
    ensures var t := Apply(s, EndDraw(triple));
      if s.phase == DRAWING then
        var win := 9 * Stake(s.bets, Cell(Single, triple % 10)) + 90 * Stake(s.bets, Cell(Double, triple % 100))
                   + 900 * Stake(s.bets, Cell(Triple, triple));
        t == s.(phase := RESULT, winAmount := win, pointsBalance := s.pointsBalance + win,
                drawResult := Some(DrawResult(triple, triple % 100, triple % 10)))
      else t == s
    ensures Apply(s, Reopen) ==
            if s.phase == RESULT
            then s.(phase := BETTING, secondsLeft := 37, previousBets := s.bets, bets := map[], playStake := 0) else s
  {
  }

  function Ticks(n: nat): seq<Action> {
    seq(n, _ => Tick)
  }

  /**
   * Betting ends: the countdown goes down by one a tick, and its last tick
   * starts the draw with the bets as they are.
   */
  lemma {:induction false} CountdownEnds(s: GameState, n: nat)
    requires s.phase == BETTING && n <= s.secondsLeft && s.secondsLeft > 0
    ensures Run(s, Ticks(n)) ==
            if n < s.secondsLeft then s.(secondsLeft := s.secondsLeft - n) else s.(secondsLeft := 0, phase := DRAWING)
  {
    if n > 0 {
      CountdownEnds(s, n - 1);
      assert Ticks(n)[..n - 1] == Ticks(n - 1);
    }
  }

  // ---- whole sessions ----

  ghost function Run(s: GameState, actions: seq<Action>): GameState {
    if actions == [] then s else Apply(Run(s, actions[..|actions| - 1]), actions[|actions| - 1])
  }

  ghost function TotalGained(s: GameState, actions: seq<Action>): int {
    if actions == [] then 0
    else
      var before := actions[..|actions| - 1];
      TotalGained(s, before) + Gained(Run(s, before), actions[|actions| - 1])
  }

  ghost function TotalPlayed(s: GameState, actions: seq<Action>): int {
    if actions == [] then 0
    else
      var before := actions[..|actions| - 1];
      TotalPlayed(s, before) + Played(Run(s, before), actions[|actions| - 1])
  }

  lemma {:induction false} SessionBalances(s: GameState, actions: seq<Action>)
    requires Valid(s)
    ensures Valid(Run(s, actions))
    ensures Worth(Run(s, actions)) == Worth(s) + TotalGained(s, actions) - TotalPlayed(s, actions)
  {
    hide Apply, Valid;
    if actions != [] {
      var before := actions[..|actions| - 1];
      SessionBalances(s, before);
      ActionKeeps(Run(s, before), actions[|actions| - 1]);
    }
  }

  /** From the initial state, over any sequence of handlers, ticks and draws. */
  lemma BoardBalances(actions: seq<Action>)
    ensures var s := Run(INITIAL, actions);
      && s.pointsBalance + s.playStake == 167249 + TotalGained(INITIAL, actions) - TotalPlayed(INITIAL, actions)
      && s.pointsBalance >= 0
      && s.playStake >= Total(s.bets) >= 0
  {
    TotalOfNothing();
    SessionBalances(INITIAL, actions);
    TotalAtMost(Run(INITIAL, actions).bets, Run(INITIAL, actions).bets);
  }

  /** A locked board stays locked, its bets and stake untouched, until the table reopens. */
  lemma LockedStays(s: GameState, a: Action)
    requires Locked(s) && !a.Reopen?
    ensures var t := Apply(s, a); Locked(t) && t.bets == s.bets && t.playStake == s.playStake
  {
    hide Total, PickCost, PickedCells, Staked, SteppedDown;
  }

  /** So the bets settled at the end of a draw are those on the table five seconds before the betting ended. */
  lemma {:induction false} LockedBetsAreSettled(s: GameState, actions: seq<Action>)
    requires Locked(s) && forall i :: 0 <= i < |actions| ==> !actions[i].Reopen?
    ensures Locked(Run(s, actions)) && Run(s, actions).bets == s.bets && Run(s, actions).playStake == s.playStake
  {
    hide Apply, Locked;
    if actions != [] {
      LockedBetsAreSettled(s, actions[..|actions| - 1]);
      LockedStays(Run(s, actions[..|actions| - 1]), actions[|actions| - 1]);
    }
  }

  // ---- where the stake shown and the bets part ----

  /** REPEAT goes through and finds a stake of this round on a cell of the last. */
  ghost predicate Overwrites(s: GameState, a: Action) {
    && a.Repeat? && !Locked(s) && s.pointsBalance >= Total(s.previousBets)
    && !(s.bets.Keys !! s.previousBets.Keys)
  }

  /** The stake shown keeps equal to the bets on the table unless REPEAT overwrites a staked cell, and then never. */
  lemma StakeMatchesExactly(s: GameState, a: Action)
    requires Valid(s) && s.playStake == Total(s.bets)
    ensures var t := Apply(s, a); t.playStake == Total(t.bets) <==> !Overwrites(s, a)
  {
    hide Buy, Undo, Pick, Total;
    match a
    case PlaceBet(c) => BuyKeeps(s, {c});
    case RemoveBet(c) => UndoKeeps(s, {c});
    case QuickRow(section, row) => BuyKeeps(s, Row(s, section, row));
    case QuickCol(section, col) => BuyKeeps(s, Column(s, section, col));
    case QuickRowUndo(section, row) => UndoKeeps(s, Row(s, section, row));
    case QuickColUndo(section, col) => UndoKeeps(s, Column(s, section, col));
    case RandomPick(section, draws) => PickKeeps(s, section, draws);
    case DoubleAll => DoubleKeeps(s);
    case Repeat => RepeatLoses(s);
    case Clear => TotalOfNothing();
    case SelectChip(_) =>
    case SelectTab(_) =>
    case Tick =>
    case EndDraw(_) =>
    case Reopen => TotalOfNothing();
  }

  lemma RepeatLoses(s: GameState)
    requires Valid(s) && s.playStake == Total(s.bets)
    ensures var t := Apply(s, Repeat); t.playStake == Total(t.bets) <==> !Overwrites(s, Repeat)
  {
    TotalMerged(s.bets, s.previousBets);
    var covered := Within(s.bets, s.previousBets.Keys);
    if s.bets.Keys !! s.previousBets.Keys {
      assert covered == map[];
    } else {
      var c :| c in s.bets && c in s.previousBets;
      assert c in covered;
      TotalWithout(covered, c);
      TotalAtMost(covered - {c}, covered);
    }
  }

  /** Two points staked on a cell that held two last round: REPEAT charges two more, and two stay on the table. */
  lemma RepeatCanLose()
    ensures var c := Cell(Single, 7);
      var s := INITIAL.(playStake := 2, bets := map[c := 2], previousBets := map[c := 2]);
      && Valid(s) && s.playStake == Total(s.bets)
      && Apply(s, Repeat).playStake == 4 && Total(Apply(s, Repeat).bets) == 2
  {
    var c := Cell(Single, 7);
    var one: Bets := map[c := 2];
    TotalWithout(one, c);
    assert one - {c} == map[] && one + one == one;
    TotalOfNothing();
  }

  // ---- what one handler undoes of another ----

  lemma ChipsComeBack(bets: Bets, cells: set<Cell>, chip: int)
    requires Positive(bets) && chip > 0
    ensures SteppedDown(Staked(bets, cells, chip), cells, chip) == bets
  {
  }

  /** Taking a chip off every cell of a group undoes staking one on each: the whole state is back. */
  lemma UndoReverses(s: GameState, cells: set<Cell>)
    requires Valid(s) && !Locked(s) && cells != {} && s.pointsBalance >= s.selectedChip * |cells|
    ensures Undo(Buy(s, cells), cells) == s
  {
    hide Staked, SteppedDown, Total;
    ChipsComeBack(s.bets, cells, s.selectedChip);
    TotalStaked(s.bets, cells, s.selectedChip);
    TotalAtMost(s.bets, s.bets);
    Costs(s.selectedChip, |cells|);
  }

  lemma Costs(chip: int, n: nat)
    requires chip > 0 && n > 0
    ensures chip * n > 0
  {
  }

  /** Staking does not turn the triples page, so a group named by row or column stays the same group. */
  lemma BuyKeepsGroups(s: GameState, cells: set<Cell>, section: BetType, line: nat)
    ensures Row(Buy(s, cells), section, line) == Row(s, section, line)
    ensures Column(Buy(s, cells), section, line) == Column(s, section, line)
  {
  }

  /** A right click takes back a left click, and a row or column undo its row or column. */
  lemma ClicksReverse(s: GameState, c: Cell, section: BetType, line: nat)
    requires Valid(s) && !Locked(s) && s.pointsBalance >= s.selectedChip * 10
    ensures Apply(Apply(s, PlaceBet(c)), RemoveBet(c)) == s
    ensures Apply(Apply(s, QuickRow(section, line)), QuickRowUndo(section, line)) == s
    ensures Apply(Apply(s, QuickCol(section, line)), QuickColUndo(section, line)) == s
  {
    hide Buy, Undo, Row, Column;
    UndoReverses(s, {c});
    GroupReverses(s, Row(s, section, line), section, line);
    GroupReverses(s, Column(s, section, line), section, line);
  }

  lemma GroupReverses(s: GameState, cells: set<Cell>, section: BetType, line: nat)
    requires Valid(s) && !Locked(s) && s.pointsBalance >= s.selectedChip * 10
    requires cells == Row(s, section, line) || cells == Column(s, section, line)
    ensures Undo(Buy(s, cells), cells) == s
    ensures Row(Buy(s, cells), section, line) == Row(s, section, line)
    ensures Column(Buy(s, cells), section, line) == Column(s, section, line)
  {
    hide Undo, Buy, Line, Valid;
    LineSize(section, BaseOf(s, section) + line * 10, 1, 10);
    LineSize(section, BaseOf(s, section) + line, 10, 10);
    BuyKeepsGroups(s, cells, section, line);
    UndoReverses(s, cells);
  }

  /** After the table reopens, REPEAT puts exactly the last round's bets back and charges what they add up to. */
  lemma RepeatReplaysTheRound(s: GameState)
    requires Valid(s) && s.phase == RESULT && s.bets != map[] && s.pointsBalance >= Total(s.bets)
    ensures var t := Apply(Apply(s, Reopen), Repeat);
      t.bets == s.bets && t.playStake == Total(s.bets) && t.pointsBalance == s.pointsBalance - Total(s.bets)
  {
    hide Total;
    assert map[] + s.bets == s.bets;
  }

  // ---- what the wheel shows ----

  /** Once the rings have stopped, the digits under the pointer spell the numbers the bets are settled on. */
  lemma WheelShowsWhatPays(triple: nat, before: seq<Wheel.Digit>, elapsed: real, stops: seq<real>)
    requires triple < 1000 && |before| == |stops| == 3
    requires forall ring :: 0 <= ring < 3 ==> 0.0 < stops[ring] <= elapsed
    ensures var shown := seq(3, ring requires 0 <= ring < 3 =>
        Wheel.DigitAtPointer(ring,
          Wheel.RingAngleAt(ring, before[ring], Wheel.DigitsOf(triple)[ring], elapsed, stops[ring])));
      ResultOf(triple) == DrawResult(100 * shown[0] + 10 * shown[1] + shown[2], 10 * shown[1] + shown[2], shown[2])
  {
    hide Wheel.DigitAtPointer, Wheel.RingAngleAt, Wheel.DigitsOf, ResultOf;
    forall ring: Wheel.Ring {
      Wheel.StoppedRingReads(ring, before[ring], Wheel.DigitsOf(triple)[ring], elapsed, stops[ring]);
    }
    DigitsSpell(triple);
  }

  /** The digits of a number below 1000 spell it, its last two digits and its last one. */
  lemma DigitsSpell(triple: nat)
    requires triple < 1000
    ensures var d: seq<nat> := Wheel.DigitsOf(triple);
      ResultOf(triple) == DrawResult(100 * d[0] + 10 * d[1] + d[2], 10 * d[1] + d[2], d[2])
  {
    var hundreds, tens := triple / 100, triple / 10;
    assert triple == 10 * tens + triple % 10;
    assert tens / 10 == hundreds && tens == 10 * hundreds + tens % 10;
  }

  // ---- the random pick ----

  lemma Restaked(bets: Bets, area: set<Cell>, picked: set<Cell>, chip: int)
    requires picked <= area
    ensures var next := Staked(bets - area, picked, chip);
      && (forall c :: c in area ==> Stake(next, c) == if c in picked then chip else 0)
      && (forall c :: c !in area ==> Stake(next, c) == Stake(bets, c))
      && Within(next, area) == Staked(map[], picked, chip)
      && next - area == bets - area
  {
  }

  /**
   * A pick that goes through stakes the chip on exactly as many distinct cells as asked for, leaves the rest of
   * the table alone, and charges the new total of the section less its old one.
   */
  lemma PickStakesExactly(s: GameState, section: BetType, draws: seq<nat>)
    requires CanPick(s, section, draws)
    ensures var t := Pick(s, section, draws); var area := Area(s, section);
      var picked := PickedCells(s, section, draws);
      && |picked| == |draws| && picked <= area
      && (forall c :: c in area ==> Stake(t.bets, c) == if c in picked then s.selectedChip else 0)
      && (forall c :: c !in area ==> Stake(t.bets, c) == Stake(s.bets, c))
      && Total(Within(t.bets, area)) == s.selectedChip * |draws|
      && s.pointsBalance - t.pointsBalance == Total(Within(t.bets, area)) - Total(Within(s.bets, area))
  {
    hide Total, Area, PickedCells, Staked, Within, Stake;
    var picked := PickedCells(s, section, draws);
    PickedCount(s, section, draws);
    Restaked(s.bets, Area(s, section), picked, s.selectedChip);
    TotalStaked(map[], picked, s.selectedChip);
    TotalOfNothing();
  }

  /** Clicking again replaces the pick without multiplying the stake: it always goes through and costs nothing. */
  lemma PickingAgainIsFree(s: GameState, section: BetType, draws: seq<nat>, again: seq<nat>)
    requires Valid(s) && CanPick(s, section, draws) && ValidDraws(100, again) && |again| == |draws|
    ensures var t := Apply(s, RandomPick(section, draws)); var u := Apply(t, RandomPick(section, again));
      && CanPick(t, section, again)
      && u.pointsBalance == t.pointsBalance && u.playStake == t.playStake
      && u.bets == Staked(s.bets - Area(s, section), PickedCells(s, section, again), s.selectedChip)
  {
    hide Total, Area, PickedCells, Staked, Within, Stake;
    PickStakesExactly(s, section, draws);
    PickKeeps(s, section, draws);
    SameArea(s, Pick(s, section, draws), section, again);
    Restaked(s.bets, Area(s, section), PickedCells(s, section, draws), s.selectedChip);
  }

  lemma SameArea(s: GameState, t: GameState, section: BetType, draws: seq<nat>)
    requires s.triplesTab == t.triplesTab && ValidDraws(100, draws)
    ensures Area(s, section) == Area(t, section) && PickedCells(s, section, draws) == PickedCells(t, section, draws)
  {
  }
}
