/** The XP and Elo that one debate is worth to one player. */
module Elo {
  import opened FinalScores
  import opened Percentages
  import opened Rounding

  datatype Result = WIN | LOSS | DRAW

  function ResultForSide(winner: Winner, side: Side): Result {
    match winner
    case DRAW => Result.DRAW
    case Won(s) => if s == side then WIN else LOSS
  }

  function OppositeResult(r: Result): Result {
    match r case WIN => LOSS case LOSS => WIN case DRAW => Result.DRAW
  }

  lemma SidesGetOppositeResults(winner: Winner)
    ensures ResultForSide(winner, AGAINST) == OppositeResult(ResultForSide(winner, FOR))
  {
  }

  function ResultBonus(result: Result): int {
    match result case WIN => 20 case DRAW => 10 case LOSS => 0
  }

  function XpDelta(result: Result, finalScore: int): int {
    10 + ResultBonus(result) + RoundHalfUp(finalScore, 10)
  }

  lemma XpDeltaRange(result: Result, finalScore: int)
    requires InRange(finalScore)
    ensures 10 <= XpDelta(result, finalScore) <= 40
  {
  }

  /** On top of 30 for a win, 20 for a draw or 10 for a loss, the score is worth its nearest ten, halves up. */
  lemma XpIsBasePlusTens(result: Result, finalScore: int, n: int)
    ensures var tens := XpDelta(result, finalScore) - (match result case WIN => 30 case DRAW => 20 case LOSS => 10);
            -5 <= finalScore - 10 * tens < 5 && (-5 <= finalScore - 10 * n < 5 ==> n == tens)
  {
    RoundHalfUpMeaning(finalScore, 10, XpDelta(result, finalScore) - XpDelta(result, 0));
  }

  /** In every sound final score the winner earns at least 20 XP more than the loser, and a draw pays both the same. */
  lemma WinnerEarnsMore(row: FinalRow)
    requires RowOk(row)
    ensures var forXp := XpDelta(ResultForSide(row.winner, FOR), row.finalFor);
            var againstXp := XpDelta(ResultForSide(row.winner, AGAINST), row.finalAgainst);
            && (row.winner == Won(FOR) ==> forXp >= againstXp + 20)
            && (row.winner == Won(AGAINST) ==> againstXp >= forXp + 20)
            && (row.winner == Winner.DRAW ==> forXp == againstXp)
  {
  }

  ghost predicate PositiveMonotone(f: real -> real) {
    (forall x :: f(x) > 0.0) && (forall x, y :: x <= y ==> f(x) <= f(y))
  }

  /** x => 10 ** x, of which only positivity and monotonicity are used. */
  type Power = f: real -> real | PositiveMonotone(f) witness (x: real) => 1.0

  function ScoreForResult(r: Result): real {
    match r case WIN => 1.0 case DRAW => 0.5 case LOSS => 0.0
  }

  function ExpectedScore(pow: Power, playerElo: int, opponentElo: int): real {
    var p := pow((opponentElo - playerElo) as real / 400.0);
    1.0 / (1.0 + p)
  }

  /** Math.round(32 * (actual - expected)). */
  function EloDelta(pow: Power, playerElo: int, opponentElo: int, r: Result): int {
    (32.0 * (ScoreForResult(r) - ExpectedScore(pow, playerElo, opponentElo)) + 0.5).Floor
  }

  lemma ExpectedScoreRange(pow: Power, playerElo: int, opponentElo: int)
    ensures 0.0 < ExpectedScore(pow, playerElo, opponentElo) < 1.0
  {
    var p := pow((opponentElo - playerElo) as real / 400.0);
    assert p > 0.0;
    assert ExpectedScore(pow, playerElo, opponentElo) * (1.0 + p) == 1.0;
  }

  /** A win never costs Elo, a loss never gains any, and no debate moves more than 32. */
  lemma EloDeltaRange(pow: Power, playerElo: int, opponentElo: int, r: Result)
    ensures r == WIN ==> 0 <= EloDelta(pow, playerElo, opponentElo, r) <= 32
    ensures r == LOSS ==> -32 <= EloDelta(pow, playerElo, opponentElo, r) <= 0
    ensures r == Result.DRAW ==> -16 <= EloDelta(pow, playerElo, opponentElo, r) <= 16
  {
    ExpectedScoreRange(pow, playerElo, opponentElo);
  }

  /** The stronger the player or the weaker the opponent, the less the same result is worth. */
  lemma EloDeltaMonotone(pow: Power, me: int, me': int, opponent: int, opponent': int, r: Result)
    requires me <= me' && opponent' <= opponent
    ensures EloDelta(pow, me', opponent', r) <= EloDelta(pow, me, opponent, r)
  {
    var x, x' := (opponent - me) as real / 400.0, (opponent' - me') as real / 400.0;
    assert x' <= x;
    assert pow(x') <= pow(x);
    InverseMonotone(1.0 + pow(x'), 1.0 + pow(x));
  }

  lemma InverseMonotone(a: real, b: real)
    requires 0.0 < a <= b
    ensures 1.0 / b <= 1.0 / a
  {
    assert (1.0 / a) * a == 1.0 && (1.0 / b) * b == 1.0;
    assert (1.0 / b) * a <= (1.0 / b) * b by {
      assert 1.0 / b > 0.0;
    }
  }

  /** A better result is worth more against the same opponent. */
  lemma BetterResultsPayMore(pow: Power, me: int, opponent: int)
    ensures EloDelta(pow, me, opponent, WIN) == EloDelta(pow, me, opponent, Result.DRAW) + 16
    ensures EloDelta(pow, me, opponent, Result.DRAW) == EloDelta(pow, me, opponent, LOSS) + 16
  {
    var expected := ExpectedScore(pow, me, opponent);
    assert 32.0 * (1.0 - expected) + 0.5 == (32.0 * (0.5 - expected) + 0.5) + 16.0;
  }
}
