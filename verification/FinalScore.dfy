/**
 The arithmetic of a final score: audience percentages, the half-and-half mean with
 the AI scores, and the winner. The mean of two integers is exact in doubles.
 */
module FinalScores {
  import opened Percentages
  import opened Rounding

  datatype Side = FOR | AGAINST

  datatype Winner = Won(side: Side) | DRAW

  datatype FinalRow = FinalRow(
    aiFor: int, aiAgainst: int,
    audienceFor: int, audienceAgainst: int,
    finalFor: int, finalAgainst: int,
    winner: Winner)

  /** Math.round(ai * 0.5 + audience * 0.5). */
  function WeightedScore(ai: int, audience: int): int {
    RoundHalfUp(ai + audience, 2)
  }

  function WinnerSide(finalFor: int, finalAgainst: int): Winner {
    if finalFor > finalAgainst then Won(FOR)
    else if finalAgainst > finalFor then Won(AGAINST)
    else DRAW
  }

  /** The row that computeFinalDebateScore stores. */
  function ComputedRow(aiFor: int, aiAgainst: int, forVotes: nat, againstVotes: nat): FinalRow {
    var audienceFor := PercentageScore(forVotes, forVotes + againstVotes);
    var audienceAgainst := PercentageScore(againstVotes, forVotes + againstVotes);
    var finalFor := WeightedScore(aiFor, audienceFor);
    var finalAgainst := WeightedScore(aiAgainst, audienceAgainst);
    FinalRow(aiFor, aiAgainst, audienceFor, audienceAgainst, finalFor, finalAgainst, WinnerSide(finalFor, finalAgainst))
  }

  /** `score` is the mean of the two columns, a half going up. */
  predicate IsMean(score: int, ai: int, audience: int) {
    2 * score == ai + audience || 2 * score == ai + audience + 1
  }

  /** All six scores in 0..100, finals that are means of their own columns, and the winner that fits them. */
  predicate RowOk(row: FinalRow) {
    && InRange(row.aiFor) && InRange(row.aiAgainst) && InRange(row.audienceFor) && InRange(row.audienceAgainst)
    && InRange(row.finalFor) && InRange(row.finalAgainst)
    && IsMean(row.finalFor, row.aiFor, row.audienceFor)
    && IsMean(row.finalAgainst, row.aiAgainst, row.audienceAgainst)
    && (row.winner == Won(FOR) <==> row.finalFor > row.finalAgainst)
    && (row.winner == Won(AGAINST) <==> row.finalAgainst > row.finalFor)
  }

  lemma ComputedRowOk(aiFor: int, aiAgainst: int, forVotes: nat, againstVotes: nat)
    requires InRange(aiFor) && InRange(aiAgainst)
    ensures RowOk(ComputedRow(aiFor, aiAgainst, forVotes, againstVotes))
  {
    PercentageInRange(forVotes, forVotes + againstVotes);
    PercentageInRange(againstVotes, forVotes + againstVotes);
  }

  /**
   What rounding can do to the order of the two exact sums: it never reverses them, a
   lead of two always wins, and a lead of one wins exactly when the trailing sum is even.
   */
  lemma WinnerByExactSums(row: FinalRow)
    requires RowOk(row)
    ensures var sFor, sAgainst := row.aiFor + row.audienceFor, row.aiAgainst + row.audienceAgainst;
            && (row.winner == Won(FOR) <==> sFor >= sAgainst + 2 || (sFor == sAgainst + 1 && sAgainst % 2 == 0))
            && (row.winner == Won(AGAINST) <==> sAgainst >= sFor + 2 || (sAgainst == sFor + 1 && sFor % 2 == 0))
            && (row.winner == DRAW ==> -1 <= sFor - sAgainst <= 1)
  {
  }

  function Opposite(w: Winner): Winner {
    match w
    case Won(FOR) => Won(AGAINST)
    case Won(AGAINST) => Won(FOR)
    case DRAW => DRAW
  }

  /** Swapping the sides swaps every column and the outcome. */
  lemma SwappingSidesSwapsOutcome(aiFor: int, aiAgainst: int, forVotes: nat, againstVotes: nat)
    ensures var row := ComputedRow(aiFor, aiAgainst, forVotes, againstVotes);
            ComputedRow(aiAgainst, aiFor, againstVotes, forVotes)
            == FinalRow(row.aiAgainst, row.aiFor, row.audienceAgainst, row.audienceFor,
                        row.finalAgainst, row.finalFor, Opposite(row.winner))
  {
    assert forVotes + againstVotes == againstVotes + forVotes;
  }

  lemma OneMoreForVote(forVotes: nat, againstVotes: nat)
    ensures var total := forVotes + againstVotes;
            && PercentageScore(forVotes, total) <= PercentageScore(forVotes + 1, total + 1)
            && PercentageScore(againstVotes, total + 1) <= PercentageScore(againstVotes, total)
  {
    var total := forVotes + againstVotes;
    if total > 0 {
      assert (forVotes + 1) * total == forVotes * total + total;
      assert forVotes * (total + 1) == forVotes * total + forVotes;
      assert againstVotes * (total + 1) == againstVotes * total + againstVotes;
      hide PercentageScore;
      PercentageMonotone(forVotes, total, forVotes + 1, total + 1);
      PercentageMonotone(againstVotes, total + 1, againstVotes, total);
    } else {
      PercentageInRange(1, 1);
      NoVotes();
    }
  }

  lemma NoVotes()
    ensures PercentageScore(0, 1) == 0
  {
    PercentageIsExactIff(0, 1);
    hide PercentageScore;
  }

  lemma WeightedMonotone(ai: int, audience: int, audience': int)
    requires audience <= audience'
    ensures WeightedScore(ai, audience) <= WeightedScore(ai, audience')
  {
  }

  /** One more FOR vote never lowers FOR's final score, never raises AGAINST's, and never takes a win from FOR. */
  lemma ForVoteHelpsFor(aiFor: int, aiAgainst: int, forVotes: nat, againstVotes: nat)
    ensures var row := ComputedRow(aiFor, aiAgainst, forVotes, againstVotes);
            var row' := ComputedRow(aiFor, aiAgainst, forVotes + 1, againstVotes);
            && row'.finalFor >= row.finalFor
            && row'.finalAgainst <= row.finalAgainst
            && (row.winner == Won(FOR) ==> row'.winner == Won(FOR))
  {
    hide PercentageScore, WeightedScore;
    OneMoreForVote(forVotes, againstVotes);
    var row := ComputedRow(aiFor, aiAgainst, forVotes, againstVotes);
    var row' := ComputedRow(aiFor, aiAgainst, forVotes + 1, againstVotes);
    WeightedMonotone(aiFor, row.audienceFor, row'.audienceFor);
    WeightedMonotone(aiAgainst, row'.audienceAgainst, row.audienceAgainst);
  }
}
