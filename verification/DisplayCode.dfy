/** Round display codes: a game prefix followed by the round number. */
module DisplayCode {
  import Decimal

  datatype GameId = TripleChanceTimer | TripleChanceProTimer

  function Prefix(game: GameId): string {
    match game
    case TripleChanceTimer => "TC"
    case TripleChanceProTimer => "TCP"
  }

  function Generate(game: GameId, roundNumber: nat): string {
    Prefix(game) + Decimal.OfNat(roundNumber)
  }

  /** No two (game, number) pairs share a code: the prefixes never alias, since 'P' is not a digit. */
  lemma GenerateInjective(g: GameId, m: nat, h: GameId, n: nat)
    requires Generate(g, m) == Generate(h, n)
    ensures g == h && m == n
  {
    Decimal.ReadBack(m);
    Decimal.ReadBack(n);
    var a, b := Generate(g, m), Generate(h, n);
    assert a[2] == b[2];
    assert Decimal.OfNat(m) == a[|Prefix(g)|..];
    assert Decimal.OfNat(n) == b[|Prefix(h)|..];
    Decimal.OfNatInjective(m, n);
  }

  /** A code is the game's prefix and the number's plain numeral. */
  lemma CodeReads(g: GameId, n: nat)
    ensures var code, k := Generate(g, n), match g case TripleChanceTimer => 2 case TripleChanceProTimer => 3;
      && |code| > k && code[..k] == (match g case TripleChanceTimer => "TC" case TripleChanceProTimer => "TCP")
      && Decimal.AllDigits(code[k..]) && Decimal.ToNat(code[k..]) == n && (code[k] == '0' ==> n == 0)
  {
    Decimal.ReadBack(n);
    var k := match g case TripleChanceTimer => 2 case TripleChanceProTimer => 3;
    assert Generate(g, n)[k..] == Decimal.OfNat(n);
  }
}
