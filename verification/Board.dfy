/** The betting board's points accounting: what each handler and each phase change does to the game state. */
module Board {
  import opened Prelude
  import opened Shuffle
  import Decimal

  datatype BetType = Single | Double | Triple

  datatype Cell = Cell(kind: BetType, value: nat)

  type Bets = map<Cell, int>

  datatype Phase = BETTING | DRAWING | RESULT

  datatype DrawResult = DrawResult(triple: nat, double: nat, single: nat)

  function ResultOf(triple: nat): DrawResult {
    DrawResult(triple, triple % 100, triple % 10)
  }

  datatype GameState = GameState(phase: Phase, secondsLeft: int, pointsBalance: int, playStake: int, winAmount: int,
                                 selectedChip: int, bets: Bets, previousBets: Bets, triplesTab: nat,
                                 drawResult: Option<DrawResult>)

  const INITIAL := GameState(BETTING, 37, 167249, 0, 0, 2, map[], map[], 0, None)

  predicate Locked(s: GameState) {
    s.phase != BETTING || s.secondsLeft <= 5
  }

  /** An absent cell stakes nothing. */
  function Stake(bets: Bets, c: Cell): int {
    if c in bets then bets[c] else 0
  }

  predicate Positive(bets: Bets) {
    forall c :: c in bets ==> bets[c] > 0
  }

  ghost function Total(bets: Bets): int {
    if bets == map[] then 0
    else
      var c :| c in bets;
      bets[c] + Total(bets - {c})
  }

  // ---- the keys of the source's record of bets ----

  function TypeName(kind: BetType): string {
    match kind
    case Single => "single"
    case Double => "double"
    case Triple => "triple"
  }

  function KeyOf(c: Cell): string {
    TypeName(c.kind) + ":" + Decimal.OfNat(c.value)
  }

  /** Cells are keyed by text in the source; distinct cells have distinct keys. */
  lemma KeysAreInjective(a: Cell, b: Cell)
    ensures KeyOf(a) == KeyOf(b) ==> a == b
  {
    if KeyOf(a) == KeyOf(b) {
      assert TypeName(a.kind) == KeyOf(a)[..6] == KeyOf(b)[..6] == TypeName(b.kind);
      assert TypeName(a.kind)[0] == TypeName(b.kind)[0];
      assert Decimal.OfNat(a.value) == KeyOf(a)[7..] == KeyOf(b)[7..] == Decimal.OfNat(b.value);
      Decimal.OfNatInjective(a.value, b.value);
    }
  }

  // ---- groups of cells ----

  function Line(kind: BetType, first: nat, stride: nat, n: nat): set<Cell> {
    set i | 0 <= i < n :: Cell(kind, first + stride * i)
  }

  function BaseOf(s: GameState, section: BetType): nat {
    if section == Triple then s.triplesTab * 100 else 0
  }

  function Row(s: GameState, section: BetType, row: nat): set<Cell> {
    Line(section, BaseOf(s, section) + row * 10, 1, 10)
  }

  function Column(s: GameState, section: BetType, col: nat): set<Cell> {
    Line(section, BaseOf(s, section) + col, 10, 10)
  }

  /** The hundred cells of a section's visible board. */
  function Area(s: GameState, section: BetType): set<Cell> {
    Line(section, BaseOf(s, section), 1, 100)
  }

  /** The cells at offsets `picks` from `base`. */
  function CellsAt(section: BetType, base: nat, picks: seq<nat>): set<Cell> {
    set i | 0 <= i < |picks| :: Cell(section, base + picks[i])
  }

  // ---- changes to the bets ----

  function Staked(bets: Bets, cells: set<Cell>, chip: int): Bets {
    map c | c in bets.Keys + cells :: if c in cells then Stake(bets, c) + chip else Stake(bets, c)
  }

  /** One chip, or what is left, taken off every staked cell of the group. */
  function SteppedDown(bets: Bets, cells: set<Cell>, chip: int): Bets {
    map c | c in bets && (c in cells ==> bets[c] > chip) :: if c in cells then bets[c] - chip else bets[c]
  }

  function Within(bets: Bets, cells: set<Cell>): Bets {
    map c | c in bets && c in cells :: bets[c]
  }

  function Doubled(bets: Bets): Bets {
    map c | c in bets :: bets[c] * 2
  }

  /** The points a result pays: 9, 90 and 900 times what lies on its three cells. */
  function Win(bets: Bets, result: DrawResult): int {
    9 * Stake(bets, Cell(Single, result.single)) +
    90 * Stake(bets, Cell(Double, result.double)) +
    900 * Stake(bets, Cell(Triple, result.triple))
  }

  // ---- handlers ----

  datatype Action =
    | PlaceBet(cell: Cell)
    | RemoveBet(cell: Cell)
    | QuickRow(section: BetType, line: nat)
    | QuickCol(section: BetType, line: nat)
    | QuickRowUndo(section: BetType, line: nat)
    | QuickColUndo(section: BetType, line: nat)
    | RandomPick(section: BetType, draws: seq<nat>)
    | DoubleAll
    | Repeat
    | Clear
    | SelectChip(chip: int)
    | SelectTab(tab: nat)
    | Tick
    | EndDraw(triple: nat)
    | Reopen

  function Buy(s: GameState, cells: set<Cell>): GameState {
    var cost := s.selectedChip * |cells|;
    if Locked(s) || s.pointsBalance < cost then s
    else s.(pointsBalance := s.pointsBalance - cost, playStake := s.playStake + cost,
            bets := Staked(s.bets, cells, s.selectedChip))
  }

  ghost function Undo(s: GameState, cells: set<Cell>): GameState {
    var next := SteppedDown(s.bets, cells, s.selectedChip);
    var refunded := Total(s.bets) - Total(next);
    if Locked(s) || refunded == 0 then s
    else s.(pointsBalance := s.pointsBalance + refunded,
            playStake := if s.playStake < refunded then 0 else s.playStake - refunded, bets := next)
  }

  ghost predicate CanPick(s: GameState, section: BetType, draws: seq<nat>) {
    !Locked(s) && ValidDraws(100, draws) && s.pointsBalance >= PickCost(s, section, draws)
  }

  ghost function PickCost(s: GameState, section: BetType, draws: seq<nat>): int {
    s.selectedChip * |draws| - Total(Within(s.bets, Area(s, section)))
  }

  ghost function PickedCells(s: GameState, section: BetType, draws: seq<nat>): set<Cell>
    requires ValidDraws(100, draws)
  {
    CellsAt(section, BaseOf(s, section), Picked(100, draws))
  }

  ghost function Pick(s: GameState, section: BetType, draws: seq<nat>): GameState {
    if !CanPick(s, section, draws) then s
    else
      var cost := PickCost(s, section, draws);
      s.(pointsBalance := s.pointsBalance - cost, playStake := s.playStake + cost,
         bets := Staked(s.bets - Area(s, section), PickedCells(s, section, draws), s.selectedChip))
  }

  function TimePasses(s: GameState): GameState {
    if s.phase != BETTING then s
    else if s.secondsLeft > 1 then s.(secondsLeft := s.secondsLeft - 1)
    else s.(secondsLeft := 0, phase := DRAWING)
  }

  ghost function Apply(s: GameState, a: Action): GameState {
    match a
    case PlaceBet(c) => Buy(s, {c})
    case RemoveBet(c) => Undo(s, {c})
    case QuickRow(section, row) => Buy(s, Row(s, section, row))
    case QuickCol(section, col) => Buy(s, Column(s, section, col))
    case QuickRowUndo(section, row) => Undo(s, Row(s, section, row))
    case QuickColUndo(section, col) => Undo(s, Column(s, section, col))
    case RandomPick(section, draws) => Pick(s, section, draws)
    case DoubleAll =>
      if Locked(s) || s.bets == map[] || s.pointsBalance < s.playStake then s
      else s.(pointsBalance := s.pointsBalance - s.playStake, playStake := s.playStake * 2, bets := Doubled(s.bets))
    case Repeat =>
      var cost := Total(s.previousBets);
      if Locked(s) || s.previousBets == map[] || s.pointsBalance < cost then s
      else s.(pointsBalance := s.pointsBalance - cost, playStake := s.playStake + cost, bets := s.bets + s.previousBets)
    case Clear =>
      if Locked(s) || s.bets == map[] then s
      else s.(pointsBalance := s.pointsBalance + s.playStake, playStake := 0, bets := map[])
    case SelectChip(chip) => if chip > 0 then s.(selectedChip := chip) else s
    case SelectTab(tab) => s.(triplesTab := tab)
    case Tick => TimePasses(s)
    case EndDraw(triple) =>
      if s.phase != DRAWING then s
      else
        var win := Win(s.bets, ResultOf(triple));
        s.(phase := RESULT, winAmount := win, pointsBalance := s.pointsBalance + win,
            drawResult := Some(ResultOf(triple)))
    case Reopen =>
      if s.phase != RESULT then s
      else s.(phase := BETTING, secondsLeft := 37, previousBets := s.bets, bets := map[], playStake := 0)
  }

  /** What every handler keeps. */
  ghost predicate Valid(s: GameState) {
    && s.pointsBalance >= 0
    && s.selectedChip > 0
    && Positive(s.bets)
    && Positive(s.previousBets)
    && s.playStake >= Total(s.bets)
  }

  function Worth(s: GameState): int {
    s.pointsBalance + s.playStake
  }

  // ---- totals ----

  lemma {:induction false} TotalWithout(bets: Bets, c: Cell)
    requires c in bets
    ensures Total(bets) == bets[c] + Total(bets - {c})
    decreases |bets|
  {
    var d :| d in bets && Total(bets) == bets[d] + Total(bets - {d});
    if d != c {
      TotalWithout(bets - {d}, c);
      TotalWithout(bets - {c}, d);
      assert bets - {d} - {c} == bets - {c} - {d};
    }
  }

  lemma TotalAfterSet(bets: Bets, c: Cell, v: int)
    ensures Total(bets[c := v]) == Total(bets) - Stake(bets, c) + v
  {
    TotalWithout(bets[c := v], c);
    if c in bets {
      TotalWithout(bets, c);
      assert bets[c := v] - {c} == bets - {c};
    } else {
      assert bets[c := v] - {c} == bets;
    }
  }

  lemma {:induction false} TotalAtMost(a: Bets, b: Bets)
    requires Positive(b) && forall c :: c in a ==> c in b && 0 <= a[c] <= b[c]
    ensures 0 <= Total(a) <= Total(b)
    decreases |b|
  {
    if b == map[] {
      assert a == map[];
    } else {
      var c :| c in b;
      TotalWithout(b, c);
      TotalAtMost(a - {c}, b - {c});
      if c in a {
        TotalWithout(a, c);
      } else {
        assert a - {c} == a;
      }
    }
  }

  lemma StakedNext(bets: Bets, cells: set<Cell>, c: Cell, chip: int)
    requires c !in cells
    ensures Staked(bets, cells + {c}, chip) == Staked(bets, cells, chip)[c := Stake(bets, c) + chip]
    ensures Stake(Staked(bets, cells, chip), c) == Stake(bets, c)
  {
  }

  lemma StakedNothing(bets: Bets, chip: int)
    ensures Staked(bets, {}, chip) == bets
  {
  }

  lemma {:induction false} TotalStaked(bets: Bets, cells: set<Cell>, chip: int)
    ensures Total(Staked(bets, cells, chip)) == Total(bets) + chip * |cells|
  {
    hide Staked, Total;
    if cells == {} {
      StakedNothing(bets, chip);
    } else {
      var c :| c in cells;
      TotalStaked(bets, cells - {c}, chip);
      OneMoreStaked(bets, cells - {c}, c, chip);
      assert cells - {c} + {c} == cells;
    }
  }

  lemma OneMoreStaked(bets: Bets, cells: set<Cell>, c: Cell, chip: int)
    requires c !in cells && Total(Staked(bets, cells, chip)) == Total(bets) + chip * |cells|
    ensures Total(Staked(bets, cells + {c}, chip)) == Total(bets) + chip * |cells + {c}|
  {
    hide Staked, Stake, Total;
    StakedNext(bets, cells, c, chip);
    TotalAfterSet(Staked(bets, cells, chip), c, Stake(bets, c) + chip);
    assert chip * (|cells| + 1) == chip * |cells| + chip;
  }

  lemma {:induction false} TotalDoubled(bets: Bets)
    ensures Total(Doubled(bets)) == 2 * Total(bets)
    decreases |bets|
  {
    if bets == map[] {
      assert Doubled(bets) == map[];
    } else {
      var c :| c in bets;
      TotalWithout(bets, c);
      TotalWithout(Doubled(bets), c);
      assert Doubled(bets) - {c} == Doubled(bets - {c});
      TotalDoubled(bets - {c});
    }
  }

  /** Merging overwrites: what lay on a cell of `b` is lost from the sum. */
  lemma {:induction false} TotalMerged(a: Bets, b: Bets)
    ensures Total(a + b) == Total(a) + Total(b) - Total(Within(a, b.Keys))
    decreases |b|
  {
    if b == map[] {
      assert a + b == a && Within(a, b.Keys) == map[];
    } else {
      var c :| c in b;
      TotalMerged(a, b - {c});
      TotalWithout(b, c);
      OneMoreMerged(a, b, c);
      OneMoreCovered(a, b, c);
    }
  }

  lemma OneMoreMerged(a: Bets, b: Bets, c: Cell)
    requires c in b
    ensures Total(a + b) == Total(a + (b - {c})) - Stake(a, c) + b[c]
  {
    assert a + b == (a + (b - {c}))[c := b[c]];
    assert Stake(a + (b - {c}), c) == Stake(a, c);
    TotalAfterSet(a + (b - {c}), c, b[c]);
  }

  lemma OneMoreCovered(a: Bets, b: Bets, c: Cell)
    requires c in b
    ensures Total(Within(a, b.Keys)) == Total(Within(a, (b - {c}).Keys)) + Stake(a, c)
  {
    var rest := (b - {c}).Keys;
    if c in a {
      assert Within(a, b.Keys) == Within(a, rest)[c := a[c]];
      TotalAfterSet(Within(a, rest), c, a[c]);
    } else {
      assert Within(a, b.Keys) == Within(a, rest);
    }
  }

  lemma TotalSplit(bets: Bets, cells: set<Cell>)
    ensures Total(bets) == Total(bets - cells) + Total(Within(bets, cells))
  {
    TotalMerged(bets - cells, Within(bets, cells));
    assert bets == (bets - cells) + Within(bets, cells);
    assert Within(bets - cells, Within(bets, cells).Keys) == map[];
  }

  lemma {:induction false} LineSize(kind: BetType, first: nat, stride: nat, n: nat)
    requires stride > 0
    ensures |Line(kind, first, stride, n)| == n
  {
    if n > 0 {
      LineSize(kind, first, stride, n - 1);
      LineNext(kind, first, stride, n - 1);
    }
  }

  lemma LineNext(kind: BetType, first: nat, stride: nat, n: nat)
    requires stride > 0
    ensures Line(kind, first, stride, n + 1) == Line(kind, first, stride, n) + {Cell(kind, first + stride * n)}
    ensures Cell(kind, first + stride * n) !in Line(kind, first, stride, n)
  {
    forall i | 0 <= i < n ensures Cell(kind, first + stride * i) != Cell(kind, first + stride * n) {
      FurtherAlong(stride, i, n);
    }
  }

  lemma FurtherAlong(stride: nat, i: nat, n: nat)
    requires stride > 0 && i < n
    ensures stride * i < stride * n
  {
    assert stride * n == stride * i + stride * (n - i);
  }

  lemma {:induction false} CellsAtSize(section: BetType, base: nat, picks: seq<nat>)
    requires Distinct(picks)
    ensures |CellsAt(section, base, picks)| == |picks|
  {
    if picks != [] {
      var k := |picks| - 1;
      CellsAtSize(section, base, picks[..k]);
      CellsAtNext(section, base, picks, k);
      assert picks[..k + 1] == picks;
    }
  }

  lemma CellsAtNext(section: BetType, base: nat, picks: seq<nat>, k: nat)
    requires Distinct(picks) && k < |picks|
    ensures CellsAt(section, base, picks[..k + 1]) ==
              CellsAt(section, base, picks[..k]) + {Cell(section, base + picks[k])}
    ensures Cell(section, base + picks[k]) !in CellsAt(section, base, picks[..k])
  {
    var next, now := CellsAt(section, base, picks[..k + 1]), CellsAt(section, base, picks[..k]);
    forall c | c in next ensures c in now + {Cell(section, base + picks[k])} {
      var i :| 0 <= i < k + 1 && c == Cell(section, base + picks[..k + 1][i]);
      if i < k {
        assert picks[..k][i] == picks[i];
      }
    }
    forall c | c in now ensures c in next && c != Cell(section, base + picks[k]) {
      var i :| 0 <= i < k && c == Cell(section, base + picks[..k][i]);
      assert picks[..k + 1][i] == picks[i] != picks[k];
    }
    assert picks[..k + 1][k] == picks[k];
  }
}
