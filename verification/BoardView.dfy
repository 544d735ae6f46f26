/** The betting board component: its handlers, as methods updating the one state record. */
module BoardView {
  import opened Prelude
  import opened Shuffle
  import opened Board
  import opened BoardTheorems

  /** Sums what every bet on the drawn result pays, in whatever order the entries come. */
  method SettleBets(bets: Bets, result: DrawResult) returns (winAmount: int)
    ensures winAmount == Win(bets, result)
  {
    winAmount := 0;
    var rest := bets.Keys;
    while rest != {}
      invariant rest <= bets.Keys
      invariant winAmount == Win(bets - rest, result)
    {
      var key :| key in rest;
      var stake := bets[key];
      var target := match key.kind
        case Single => result.single
        case Double => result.double
        case Triple => result.triple;
      var payout := match key.kind case Single => 9 case Double => 90 case Triple => 900;
      OneMoreSettled(bets, rest, key, result);
      if key.value == target {
        winAmount := winAmount + stake * payout;
      }
      rest := rest - {key};
    }
    assert bets - rest == bets;
  }

  /** What one entry adds: its stake times 9, 90 or 900 if it is the drawn cell of its type, else nothing. */
  lemma OneMoreSettled(bets: Bets, rest: set<Cell>, key: Cell, result: DrawResult)
    requires key in rest && rest <= bets.Keys
    ensures Win(bets - (rest - {key}), result) == Win(bets - rest, result) +
            if key == Cell(Single, result.single) then bets[key] * 9
            else if key == Cell(Double, result.double) then bets[key] * 90
            else if key == Cell(Triple, result.triple) then bets[key] * 900
            else 0
  {
    var now, next := bets - rest, bets - (rest - {key});
    assert next == now[key := bets[key]] && key !in now;
    forall c ensures Stake(next, c) == Stake(now, c) + if c == key then bets[key] else 0 {
    }
  }

  lemma StakedOne(bets: Bets, c: Cell, chip: int)
    ensures Staked(bets, {c}, chip) == bets[c := Stake(bets, c) + chip]
  {
  }

  /** The loop of the quick row and quick column handlers: a chip more on each of ten cells. */
  method StakeLine(bets: Bets, section: BetType, first: nat, stride: nat, chip: int) returns (next: Bets)
    requires stride > 0
    ensures next == Staked(bets, Line(section, first, stride, 10), chip)
  {
    next := bets;
    for i := 0 to 10
      invariant next == Staked(bets, Line(section, first, stride, i), chip)
    {
      var key := Cell(section, first + stride * i);
      LineNext(section, first, stride, i);
      StakedNext(bets, Line(section, first, stride, i), key, chip);
      next := next[key := Stake(next, key) + chip];
    }
  }

  lemma SteppedDownNext(bets: Bets, cells: set<Cell>, c: Cell, chip: int)
    requires c !in cells && Positive(bets) && chip > 0
    ensures var now, next := SteppedDown(bets, cells, chip), SteppedDown(bets, cells + {c}, chip);
      && Stake(now, c) == Stake(bets, c) >= 0
      && next == (if Stake(now, c) <= 0 then now
                  else if Stake(now, c) <= chip then now - {c}
                  else now[c := Stake(now, c) - chip])
  {
  }

  /** The loop of the undo handlers: a chip, or what is left, off each of ten cells. */
  method StepDownLine(bets: Bets, section: BetType, first: nat, stride: nat, chip: int)
      returns (next: Bets, refunded: int)
    requires stride > 0 && Positive(bets) && chip > 0
    ensures next == SteppedDown(bets, Line(section, first, stride, 10), chip)
    ensures refunded == Total(bets) - Total(next)
  {
    next, refunded := bets, 0;
    for i := 0 to 10
      invariant next == SteppedDown(bets, Line(section, first, stride, i), chip)
      invariant refunded == Total(bets) - Total(next)
    {
      var key := Cell(section, first + stride * i);
      LineNext(section, first, stride, i);
      SteppedDownNext(bets, Line(section, first, stride, i), key, chip);
      var currentStake := Stake(next, key);
      if currentStake > 0 {
        var decrement := if currentStake < chip then currentStake else chip;
        refunded := refunded + decrement;
        TotalWithout(next, key);
        TotalAfterSet(next, key, currentStake - decrement);
        if currentStake - decrement <= 0 {
          next := next - {key};
        } else {
          next := next[key := currentStake - decrement];
        }
      }
    }
  }

  lemma WithinNext(bets: Bets, cells: set<Cell>, c: Cell)
    requires c !in cells
    ensures Total(Within(bets, cells + {c})) == Total(Within(bets, cells)) + Stake(bets, c)
  {
    if c in bets {
      assert Within(bets, cells + {c}) == Within(bets, cells)[c := bets[c]];
      TotalAfterSet(Within(bets, cells), c, bets[c]);
    } else {
      assert Within(bets, cells + {c}) == Within(bets, cells);
    }
  }

  /** What the hundred cells of a section hold. */
  method SectionStake(bets: Bets, section: BetType, first: nat) returns (stake: int)
    ensures stake == Total(Within(bets, Line(section, first, 1, 100)))
  {
    stake := 0;
    assert Within(bets, Line(section, first, 1, 0)) == map[];
    TotalOfNothing();
    for i := 0 to 100
      invariant stake == Total(Within(bets, Line(section, first, 1, i)))
    {
      var key := Cell(section, first + i);
      LineNext(section, first, 1, i);
      WithinNext(bets, Line(section, first, 1, i), key);
      if key in bets {
        stake := stake + bets[key];
      }
    }
  }

  /** The shuffle, in place: `draws` are the random indices, each below the places left. */
  method PartialShuffle(pool: array<nat>, n: nat, draws: seq<nat>)
    requires pool.Length == 100 && pool[..] == Identity(100)
    requires n == |draws| && ValidDraws(100, draws)
    modifies pool
    ensures pool[..] == Pool(100, draws)
  {
    assert draws[..0] == [];
    for i := 0 to n
      invariant pool[..] == Pool(100, draws[..i])
    {
      var j := i + draws[i];
      assert draws[..i + 1][..i] == draws[..i];
      pool[i], pool[j] := pool[j], pool[i];
    }
    assert draws[..n] == draws;
  }

  /** The first `n` numbers of a fresh pool after the shuffle. */
  method PickNumbers(n: nat, draws: seq<nat>) returns (picks: seq<nat>)
    requires n == |draws| && ValidDraws(100, draws)
    ensures picks == Picked(100, draws) && Distinct(picks) && Below(picks, 100)
  {
    var pool := new nat[100](i => i);
    assert pool[..] == Identity(100);
    PartialShuffle(pool, n, draws);
    PoolIsPermutation(100, draws);
    picks := pool[..n];
  }

  /** Clears a section and stakes the chip on each picked cell. */
  method Restake(bets: Bets, section: BetType, first: nat, picks: seq<nat>, chip: int) returns (next: Bets)
    requires Distinct(picks) && CellsAt(section, first, picks) <= Line(section, first, 1, 100)
    ensures next == Staked(bets - Line(section, first, 1, 100), CellsAt(section, first, picks), chip)
  {
    next := bets;
    for i := 0 to 100
      invariant next == bets - Line(section, first, 1, i)
    {
      LineNext(section, first, 1, i);
      next := next - {Cell(section, first + i)};
    }
    ghost var cleared := next;
    assert CellsAt(section, first, picks[..0]) == {};
    for k := 0 to |picks|
      invariant next == Staked(cleared, CellsAt(section, first, picks[..k]), chip)
    {
      var key := Cell(section, first + picks[k]);
      CellsAtNext(section, first, picks, k);
      assert picks[..|picks|][k] == picks[k];
      assert key in CellsAt(section, first, picks);
      StakedNext(cleared, CellsAt(section, first, picks[..k]), key, chip);
      next := next[key := chip];
    }
    assert picks[..|picks|] == picks;
  }

  method SumOf(bets: Bets) returns (sum: int)
    ensures sum == Total(bets)
  {
    sum := 0;
    var rest := bets;
    while rest != map[]
      invariant sum + Total(rest) == Total(bets)
      decreases |rest|
    {
      var key :| key in rest;
      TotalWithout(rest, key);
      sum := sum + rest[key];
      rest := rest - {key};
    }
  }

  method DoubleEach(bets: Bets) returns (next: Bets)
    ensures next == Doubled(bets)
  {
    next := map[];
    var rest := bets.Keys;
    while rest != {}
      invariant rest <= bets.Keys && next == Doubled(bets - rest)
    {
      var key :| key in rest;
      next := next[key := bets[key] * 2];
      rest := rest - {key};
    }
    assert bets - rest == bets;
  }

  class GameTCView {
    var gameState: GameState

    constructor ()
      ensures gameState == INITIAL && Valid(gameState)
      ensures gameState.phase == BETTING && gameState.secondsLeft == 37 && gameState.pointsBalance == 167249
      ensures gameState.selectedChip == 2 && gameState.playStake == gameState.winAmount == gameState.triplesTab == 0
      ensures gameState.bets == gameState.previousBets == map[] && gameState.drawResult == None
    {
      gameState := INITIAL;
    }

    method PlaceBet(cell: Cell)
      requires Valid(gameState)
      modifies this
      ensures gameState == Apply(old(gameState), Action.PlaceBet(cell)) && Valid(gameState)
    {
      hide Valid, Staked, Total;
      ActionKeeps(gameState, Action.PlaceBet(cell));
      if Locked(gameState) || gameState.pointsBalance < gameState.selectedChip {
        return;
      }
      var currentStake, chip := Stake(gameState.bets, cell), gameState.selectedChip;
      StakedOne(gameState.bets, cell, chip);
      assert chip * |{cell}| == chip;
      gameState := gameState.(pointsBalance := gameState.pointsBalance - chip,
                              playStake := gameState.playStake + chip,
                              bets := gameState.bets[cell := currentStake + chip]);
    }

    method RemoveBet(cell: Cell)
      requires Valid(gameState)
      modifies this
      ensures gameState == Apply(old(gameState), Action.RemoveBet(cell)) && Valid(gameState)
    {
      ActionKeeps(gameState, Action.RemoveBet(cell));
      var bets, chip := gameState.bets, gameState.selectedChip;
      SteppedDownNext(bets, {}, cell, chip);
      assert SteppedDown(bets, {}, chip) == bets && {} + {cell} == {cell};
      if Locked(gameState) || cell !in bets {
        return;
      }
      var stake := bets[cell];
      var decrement := if stake < chip then stake else chip;
      TotalWithout(bets, cell);
      TotalAfterSet(bets, cell, stake - decrement);
      var nextBets := if stake - decrement <= 0 then bets - {cell} else bets[cell := stake - decrement];
      gameState := gameState.(pointsBalance := gameState.pointsBalance + decrement,
                              playStake := if gameState.playStake < decrement then 0
                                  else gameState.playStake - decrement,
                              bets := nextBets);
    }

    method QuickRow(section: BetType, row: nat)
      requires Valid(gameState)
      modifies this
      ensures gameState == Apply(old(gameState), Action.QuickRow(section, row)) && Valid(gameState)
    {
      hide Valid, Line, Staked;
      ActionKeeps(gameState, Action.QuickRow(section, row));
      var base := BaseOf(gameState, section);
      LineSize(section, base + row * 10, 1, 10);
      var totalCost := gameState.selectedChip * 10;
      if Locked(gameState) || gameState.pointsBalance < totalCost {
        return;
      }
      var nextBets := StakeLine(gameState.bets, section, base + row * 10, 1, gameState.selectedChip);
      gameState := gameState.(pointsBalance := gameState.pointsBalance - totalCost,
                              playStake := gameState.playStake + totalCost, bets := nextBets);
    }

    method QuickCol(section: BetType, col: nat)
      requires Valid(gameState)
      modifies this
      ensures gameState == Apply(old(gameState), Action.QuickCol(section, col)) && Valid(gameState)
    {
      hide Valid, Line, Staked;
      ActionKeeps(gameState, Action.QuickCol(section, col));
      var base := BaseOf(gameState, section);
      LineSize(section, base + col, 10, 10);
      var totalCost := gameState.selectedChip * 10;
      if Locked(gameState) || gameState.pointsBalance < totalCost {
        return;
      }
      var nextBets := StakeLine(gameState.bets, section, base + col, 10, gameState.selectedChip);
      gameState := gameState.(pointsBalance := gameState.pointsBalance - totalCost,
                              playStake := gameState.playStake + totalCost, bets := nextBets);
    }

    method QuickRowUndo(section: BetType, row: nat)
      requires Valid(gameState)
      modifies this
      ensures gameState == Apply(old(gameState), Action.QuickRowUndo(section, row)) && Valid(gameState)
    {
      ActionKeeps(gameState, Action.QuickRowUndo(section, row));
      if Locked(gameState) {
        return;
      }
      var base := BaseOf(gameState, section);
      var nextBets, refunded := StepDownLine(gameState.bets, section, base + row * 10, 1, gameState.selectedChip);
      Refund(nextBets, refunded);
    }

    method QuickColUndo(section: BetType, col: nat)
      requires Valid(gameState)
      modifies this
      ensures gameState == Apply(old(gameState), Action.QuickColUndo(section, col)) && Valid(gameState)
    {
      ActionKeeps(gameState, Action.QuickColUndo(section, col));
      if Locked(gameState) {
        return;
      }
      var base := BaseOf(gameState, section);
      var nextBets, refunded := StepDownLine(gameState.bets, section, base + col, 10, gameState.selectedChip);
      Refund(nextBets, refunded);
    }

    method Refund(nextBets: Bets, refunded: int)
      modifies this
      ensures gameState == if refunded == 0 then old(gameState) else
                old(gameState).(pointsBalance := old(gameState).pointsBalance + refunded,
                  playStake := if old(gameState).playStake < refunded then 0 else old(gameState).playStake - refunded,
                  bets := nextBets)
    {
      if refunded != 0 {
        gameState := gameState.(pointsBalance := gameState.pointsBalance + refunded,
                                playStake := if gameState.playStake < refunded then 0
                                    else gameState.playStake - refunded,
                                bets := nextBets);
      }
    }

    /** `draws` are the random indices; only as many as cells picked are used. */
    method RandomPick(section: BetType, count: int, draws: seq<nat>)
      requires Valid(gameState)
      requires |draws| == 100 && ValidDraws(100, draws)
      modifies this
      ensures var n := if count < 0 then 0 else if count > 100 then 100 else count;
        gameState == Apply(old(gameState), Action.RandomPick(section, draws[..n])) && Valid(gameState)
    {
      var n := if count < 0 then 0 else if count > 100 then 100 else count;
      PickSome(section, n, draws[..n]);
    }

    method PickSome(section: BetType, n: nat, draws: seq<nat>)
      requires Valid(gameState)
      requires n == |draws| && ValidDraws(100, draws)
      modifies this
      ensures gameState == Pick(old(gameState), section, draws) && Valid(gameState)
    {
      hide Valid, Line, Staked, Within, Picked, CellsAt, Total, ValidDraws, Distinct, Below;
      PickKeeps(gameState, section, draws);
      var chip, base := gameState.selectedChip, BaseOf(gameState, section);
      if Locked(gameState) {
        return;
      }
      var refundedStake := SectionStake(gameState.bets, section, base);
      var netCost := chip * n - refundedStake;
      assert netCost == PickCost(gameState, section, draws);
      if gameState.pointsBalance < netCost {
        return;
      }
      PickedCount(gameState, section, draws);
      var picks := PickNumbers(n, draws);
      var nextBets := Restake(gameState.bets, section, base, picks, chip);
      gameState := gameState.(pointsBalance := gameState.pointsBalance - netCost,
                              playStake := gameState.playStake + netCost, bets := nextBets);
    }

    method Double()
      requires Valid(gameState)
      modifies this
      ensures gameState == Apply(old(gameState), DoubleAll) && Valid(gameState)
    {
      ActionKeeps(gameState, DoubleAll);
      if Locked(gameState) || gameState.bets == map[] || gameState.pointsBalance < gameState.playStake {
        return;
      }
      var nextBets := DoubleEach(gameState.bets);
      gameState := gameState.(pointsBalance := gameState.pointsBalance - gameState.playStake,
                              playStake := gameState.playStake * 2, bets := nextBets);
    }

    method Repeat()
      requires Valid(gameState)
      modifies this
      ensures gameState == Apply(old(gameState), Action.Repeat) && Valid(gameState)
    {
      ActionKeeps(gameState, Action.Repeat);
      if Locked(gameState) || gameState.previousBets == map[] {
        return;
      }
      var prevTotal := SumOf(gameState.previousBets);
      if gameState.pointsBalance < prevTotal {
        return;
      }
      gameState := gameState.(pointsBalance := gameState.pointsBalance - prevTotal,
                              playStake := gameState.playStake + prevTotal,
                              bets := gameState.bets + gameState.previousBets);
    }

    method Clear()
      requires Valid(gameState)
      modifies this
      ensures gameState == Apply(old(gameState), Action.Clear) && Valid(gameState)
    {
      ActionKeeps(gameState, Action.Clear);
      if Locked(gameState) || gameState.bets == map[] {
        return;
      }
      gameState := gameState.(pointsBalance := gameState.pointsBalance + gameState.playStake,
                              playStake := 0, bets := map[]);
    }

    /** The chips of the tray are positive amounts. */
    method SelectChip(chip: int)
      requires Valid(gameState) && chip > 0
      modifies this
      ensures gameState == Apply(old(gameState), Action.SelectChip(chip)) && Valid(gameState)
    {
      gameState := gameState.(selectedChip := chip);
    }

    method SelectTab(tab: nat)
      requires Valid(gameState)
      modifies this
      ensures gameState == Apply(old(gameState), Action.SelectTab(tab)) && Valid(gameState)
    {
      gameState := gameState.(triplesTab := tab);
    }

    /** One second of the countdown. */
    method Tick()
      requires Valid(gameState)
      modifies this
      ensures gameState == Apply(old(gameState), Action.Tick) && Valid(gameState)
    {
      if gameState.phase == BETTING {
        if gameState.secondsLeft > 1 {
          gameState := gameState.(secondsLeft := gameState.secondsLeft - 1);
        } else {
          gameState := gameState.(secondsLeft := 0, phase := DRAWING);
        }
      }
    }

    /** The end of the draw of `triple`: the wins are paid. */
    method EndDraw(triple: nat)
      requires Valid(gameState)
      modifies this
      ensures gameState == Apply(old(gameState), Action.EndDraw(triple)) && Valid(gameState)
    {
      ActionKeeps(gameState, Action.EndDraw(triple));
      if gameState.phase == DRAWING {
        var result := ResultOf(triple);
        var winAmount := SettleBets(gameState.bets, result);
        gameState := gameState.(phase := RESULT, winAmount := winAmount,
                                pointsBalance := gameState.pointsBalance + winAmount, drawResult := Some(result));
      }
    }

    /** The table reopens; the winnings shown stay. */
    method Reopen()
      requires Valid(gameState)
      modifies this
      ensures gameState == Apply(old(gameState), Action.Reopen) && Valid(gameState)
    {
      ActionKeeps(gameState, Action.Reopen);
      if gameState.phase == RESULT {
        gameState := gameState.(secondsLeft := 37, phase := BETTING, previousBets := gameState.bets,
                                bets := map[], playStake := 0);
      }
    }
  }
}
