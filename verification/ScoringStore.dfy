/** The tables of the scoring service and its keyed finalisation queue. */
module ScoringStore {
  import opened Common
  import opened FinalScores
  import opened Percentages

  datatype Status = PENDING | RUNNING | VOTING | CLOSED

  /** A row of spectator_votes; `id` names the call that inserted it. */
  datatype Vote = Vote(id: nat, debate: string, user: string, side: Side)

  datatype AnalysisStatus = COMPLETED | FAILED

  datatype Analysis = Analysis(status: AnalysisStatus, forScore: Option<int>, againstScore: Option<int>)

  datatype Store = Store(
    debates: map<string, Status>,
    votes: seq<Vote>,
    analyses: map<string, Analysis>,
    finals: map<string, FinalRow>,
    jobs: seq<string>)

  const EMPTY_STORE := Store(map[], [], map[], map[], [])

  predicate Votable(status: Status) {
    status == RUNNING || status == VOTING
  }

  predicate HasVote(votes: seq<Vote>, debate: string, user: string) {
    exists i :: 0 <= i < |votes| && votes[i].debate == debate && votes[i].user == user
  }

  /** The insert of a vote: it needs its debate and must not violate (debate, user) uniqueness. */
  predicate MayVote(s: Store, debate: string, user: string) {
    debate in s.debates && !HasVote(s.votes, debate, user)
  }

  function PutVote(s: Store, v: Vote): Store {
    s.(votes := s.votes + [v])
  }

  function PutDebate(s: Store, debate: string, status: Status): Store {
    s.(debates := s.debates[debate := status])
  }

  /** The check constraints of debate_ai_analysis_results. */
  predicate AnalysisFits(a: Analysis) {
    && (a.forScore.Some? ==> InRange(a.forScore.value))
    && (a.againstScore.Some? ==> InRange(a.againstScore.value))
  }

  function PutAnalysis(s: Store, debate: string, a: Analysis): Store {
    s.(analyses := s.analyses[debate := a])
  }

  function PutFinal(s: Store, debate: string, row: FinalRow): Store {
    s.(finals := s.finals[debate := row])
  }

  function JobId(debate: string): string {
    "finalize:" + debate
  }

  /** A queue ignores an added job whose identifier it already holds. */
  function AddJob(jobs: seq<string>, id: string): seq<string> {
    if id in jobs then jobs else jobs + [id]
  }

  // ----- counting votes

  /** Rows of one side of one debate, as count(*) sees them. */
  function CountVotes(votes: seq<Vote>, debate: string, side: Side): nat {
    if votes == [] then 0
    else
      var last := votes[|votes| - 1];
      CountVotes(votes[..|votes| - 1], debate, side) + if last.debate == debate && last.side == side then 1 else 0
  }

  /** The grouped query: a group exists only for a side somebody voted for. */
  function CountsBySide(votes: seq<Vote>, debate: string): seq<(Side, nat)> {
    (if CountVotes(votes, debate, AGAINST) > 0 then [(AGAINST, CountVotes(votes, debate, AGAINST))] else [])
    + (if CountVotes(votes, debate, FOR) > 0 then [(FOR, CountVotes(votes, debate, FOR))] else [])
  }

  /** counts.find(side)?.votes ?? 0 */
  function CountSide(counts: seq<(Side, nat)>, side: Side): nat {
    if counts == [] then 0
    else if counts[0].0 == side then counts[0].1
    else CountSide(counts[1..], side)
  }

  lemma GroupsHoldTheCounts(votes: seq<Vote>, debate: string, side: Side)
    ensures CountSide(CountsBySide(votes, debate), side) == CountVotes(votes, debate, side)
  {
  }

  /** Who voted for a side of a debate. */
  ghost function Voters(votes: seq<Vote>, debate: string, side: Side): set<string> {
    set i | 0 <= i < |votes| && votes[i].debate == debate && votes[i].side == side :: votes[i].user
  }

  ghost predicate UniqueVotes(votes: seq<Vote>) {
    forall i, j :: 0 <= i < j < |votes| ==> votes[i].debate != votes[j].debate || votes[i].user != votes[j].user
  }

  lemma OneMoreVoter(votes: seq<Vote>, v: Vote, debate: string, side: Side)
    ensures Voters(votes + [v], debate, side)
            == Voters(votes, debate, side) + if v.debate == debate && v.side == side then {v.user} else {}
  {
    var after := votes + [v];
    assert after[|votes|] == v && forall i :: 0 <= i < |votes| ==> after[i] == votes[i];
    forall u | u in Voters(votes, debate, side) ensures u in Voters(after, debate, side) {
      var i :| 0 <= i < |votes| && votes[i].debate == debate && votes[i].side == side && votes[i].user == u;
      assert after[i].user == u;
    }
  }

  /** The grouped count of a side is the number of users who voted for it. */
  lemma {:induction false} CountIsNumberOfVoters(votes: seq<Vote>, debate: string, side: Side)
    requires UniqueVotes(votes)
    ensures CountVotes(votes, debate, side) == |Voters(votes, debate, side)|
  {
    if votes != [] {
      var n := |votes| - 1;
      var before, last := votes[..n], votes[n];
      CountIsNumberOfVoters(before, debate, side);
      assert votes == before + [last];
      OneMoreVoter(before, last, debate, side);
      assert forall i :: 0 <= i < n ==> before[i] == votes[i];
      assert last.debate == debate ==> last.user !in Voters(before, debate, side);
    }
  }

  /** Nobody is counted on both sides of a debate. */
  lemma VotersTakeOneSide(votes: seq<Vote>, debate: string)
    requires UniqueVotes(votes)
    ensures Voters(votes, debate, FOR) !! Voters(votes, debate, AGAINST)
  {
  }

  datatype Summary = Summary(totalVotes: nat, forVotes: nat, againstVotes: nat, forScore: int, againstScore: int)

  /** getSummary on an existing debate. */
  function SummaryOf(votes: seq<Vote>, debate: string): Summary {
    var counts := CountsBySide(votes, debate);
    var forVotes, againstVotes := CountSide(counts, FOR), CountSide(counts, AGAINST);
    var total := forVotes + againstVotes;
    Summary(total, forVotes, againstVotes, PercentageScore(forVotes, total), PercentageScore(againstVotes, total))
  }

  /** getAudienceScores and the two layers of rounding above it. */
  function ScoredRow(aiFor: int, aiAgainst: int, votes: seq<Vote>, debate: string): FinalRow {
    var counts := CountsBySide(votes, debate);
    ComputedRow(aiFor, aiAgainst, CountSide(counts, FOR), CountSide(counts, AGAINST))
  }

  lemma ScoredRowOk(aiFor: int, aiAgainst: int, votes: seq<Vote>, debate: string)
    requires InRange(aiFor) && InRange(aiAgainst)
    ensures RowOk(ScoredRow(aiFor, aiAgainst, votes, debate))
  {
    var counts := CountsBySide(votes, debate);
    ComputedRowOk(aiFor, aiAgainst, CountSide(counts, FOR), CountSide(counts, AGAINST));
  }

  /** The summary and a final score computed on the same table agree with the sets of voters and with each other. */
  lemma SummaryAgreesWithFinalScore(votes: seq<Vote>, debate: string, aiFor: int, aiAgainst: int)
    requires UniqueVotes(votes)
    ensures var s := SummaryOf(votes, debate);
            var row := ScoredRow(aiFor, aiAgainst, votes, debate);
            && s.forVotes == |Voters(votes, debate, FOR)|
            && s.againstVotes == |Voters(votes, debate, AGAINST)|
            && s.totalVotes == |Voters(votes, debate, FOR) + Voters(votes, debate, AGAINST)|
            && row.audienceFor == s.forScore && row.audienceAgainst == s.againstScore
  {
    GroupsHoldTheCounts(votes, debate, FOR);
    GroupsHoldTheCounts(votes, debate, AGAINST);
    CountIsNumberOfVoters(votes, debate, FOR);
    CountIsNumberOfVoters(votes, debate, AGAINST);
    VotersTakeOneSide(votes, debate);
  }
}
