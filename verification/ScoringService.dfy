/** The classes of the scoring service, each method run to its end and proved against the serial model. */
module ScoringServices {
  import opened Common
  import opened FinalScores
  import opened Percentages
  import opened ScoringStore
  import opened ScoringProtocol
  import opened ScoringSerial

  class ScoringRepository {
    var debates: map<string, Status>
    var votes: seq<Vote>
    var analyses: map<string, Analysis>
    var finals: map<string, FinalRow>

    constructor ()
      ensures debates == map[] && votes == [] && analyses == map[] && finals == map[]
    {
      debates, votes, analyses, finals := map[], [], map[], map[];
    }

    /** An insert that, on a conflict of identifiers, overwrites the status. */
    method UpsertDebate(debate: string, status: Status)
      modifies this`debates
      ensures debates == old(debates)[debate := status]
    {
      debates := debates[debate := status];
    }

    /** `id` is the identifier the database generates; a duplicate or unknown debate leaves the table alone. */
    method CreateSpectatorVote(id: nat, debate: string, user: string, side: Side) returns (outcome: Outcome)
      modifies this`votes
      ensures outcome == if HasVote(old(votes), debate, user) then AlreadyExists
                         else if debate !in debates then StorageFailure else Created
      ensures votes == if outcome == Created then old(votes) + [Vote(id, debate, user, side)] else old(votes)
    {
      if HasVote(votes, debate, user) {
        return AlreadyExists;
      }
      if debate !in debates {
        return StorageFailure;
      }
      votes := votes + [Vote(id, debate, user, side)];
      return Created;
    }

    /** The grouped count as one pass over the table. */
    method CountSpectatorVotesBySide(debate: string) returns (counts: seq<(Side, nat)>)
      ensures forall side :: CountSide(counts, side) == CountVotes(votes, debate, side)
      ensures forall i :: 0 <= i < |counts| ==> counts[i].1 > 0
    {
      var forVotes, againstVotes := 0, 0;
      for i := 0 to |votes|
        invariant forVotes == CountVotes(votes[..i], debate, FOR)
        invariant againstVotes == CountVotes(votes[..i], debate, AGAINST)
      {
        assert votes[..i + 1][..i] == votes[..i];
        if votes[i].debate == debate {
          match votes[i].side
          case FOR => forVotes := forVotes + 1;
          case AGAINST => againstVotes := againstVotes + 1;
        }
      }
      assert votes[..|votes|] == votes;
      counts := if againstVotes > 0 then [(AGAINST, againstVotes)] else [];
      counts := counts + if forVotes > 0 then [(FOR, forVotes)] else [];
      assert counts == CountsBySide(votes, debate);
      forall side ensures CountSide(counts, side) == CountVotes(votes, debate, side) {
        GroupsHoldTheCounts(votes, debate, side);
      }
    }

    method UpsertAiAnalysisResult(debate: string, a: Analysis) returns (ok: bool)
      modifies this`analyses
      ensures ok <==> debate in debates && AnalysisFits(a)
      ensures analyses == if ok then old(analyses)[debate := a] else old(analyses)
    {
      ok := debate in debates && AnalysisFits(a);
      if ok {
        analyses := analyses[debate := a];
      }
    }

    method UpsertFinalDebateScore(debate: string, row: FinalRow)
      modifies this`finals
      ensures finals == old(finals)[debate := row]
    {
      finals := finals[debate := row];
    }
  }

  class DebateJobsProducer {
    var finalizationQueue: seq<string>

    constructor ()
      ensures finalizationQueue == []
    {
      finalizationQueue := [];
    }

    /** The queue drops a job whose identifier it already holds. */
    method EnqueueFinalization(debate: string)
      modifies this
      ensures finalizationQueue == AddJob(old(finalizationQueue), JobId(debate))
      ensures multiset(finalizationQueue)["finalize:" + debate] >= 1
    {
      var jobId := "finalize:" + debate;
      if jobId !in finalizationQueue {
        finalizationQueue := finalizationQueue + [jobId];
      }
    }
  }

  class SpectatorVotesService {
    const repo: ScoringRepository

    constructor (repo: ScoringRepository)
      ensures this.repo == repo
    {
      this.repo := repo;
    }

    method CreateVote(id: nat, debate: string, user: string, side: Side) returns (outcome: Outcome)
      modifies repo
      ensures (Tables(repo, []), outcome) == SerialVote(old(Tables(repo, [])), id, debate, user, side)
    {
      if debate !in repo.debates {
        return NotFound;
      }
      if !Votable(repo.debates[debate]) {
        return FailedPrecondition;
      }
      if HasVote(repo.votes, debate, user) {
        return AlreadyExists;
      }
      outcome := repo.CreateSpectatorVote(id, debate, user, side);
    }

    /** The percentages of both sides are over the voters of both sides. */
    method GetSummary(debate: string) returns (summary: Option<Summary>)
      ensures summary.None? <==> debate !in repo.debates
      ensures summary.Some? ==> summary.value == SummaryOf(repo.votes, debate)
    {
      if debate !in repo.debates {
        return None;
      }
      var counts := repo.CountSpectatorVotesBySide(debate);
      var forVotes, againstVotes := CountSide(counts, FOR), CountSide(counts, AGAINST);
      var totalVotes := forVotes + againstVotes;
      GroupsHoldTheCounts(repo.votes, debate, FOR);
      GroupsHoldTheCounts(repo.votes, debate, AGAINST);
      return Some(Summary(totalVotes, forVotes, againstVotes,
                          PercentageScore(forVotes, totalVotes), PercentageScore(againstVotes, totalVotes)));
    }
  }

  /** The tables of `repo` with a queue beside them. */
  ghost function Tables(repo: ScoringRepository, jobs: seq<string>): Store
    reads repo
  {
    Store(repo.debates, repo.votes, repo.analyses, repo.finals, jobs)
  }

  class ScoringService {
    const repo: ScoringRepository
    const debateJobs: DebateJobsProducer

    ghost function State(): Store
      reads repo, debateJobs
    {
      Tables(repo, debateJobs.finalizationQueue)
    }

    constructor ()
      ensures fresh(repo) && fresh(debateJobs) && State() == EMPTY_STORE
    {
      repo := new ScoringRepository();
      debateJobs := new DebateJobsProducer();
    }

    method UpsertDebate(debate: string, status: Status)
      modifies repo, debateJobs
      ensures State() == SerialUpsert(old(State()), debate, status)
    {
      var previous := if debate in repo.debates then Some(repo.debates[debate]) else None;
      repo.UpsertDebate(debate, status);
      if status == VOTING && previous != Some(VOTING) {
        debateJobs.EnqueueFinalization(debate);
      }
    }

    method StoreAiAnalysisResult(debate: string, a: Analysis) returns (outcome: Outcome)
      modifies repo
      ensures (State(), outcome) == SerialAnalysis(old(State()), debate, a)
    {
      if debate !in repo.debates {
        return NotFound;
      }
      var ok := repo.UpsertAiAnalysisResult(debate, a);
      outcome := if ok then Stored else StorageFailure;
    }

    method ComputeFinalDebateScore(debate: string) returns (outcome: Outcome)
      modifies repo
      ensures (State(), outcome) == SerialFinal(old(State()), debate)
      ensures outcome == Stored && AnalysisFits(repo.analyses[debate]) ==> RowOk(repo.finals[debate])
    {
      hide RowOk, PercentageScore, WeightedScore, WinnerSide, CountsBySide, CountSide;
      if debate !in repo.debates {
        return NotFound;
      }
      if debate !in repo.analyses {
        return FailedPrecondition;
      }
      var a := repo.analyses[debate];
      if a.status != COMPLETED {
        return FailedPrecondition;
      }
      if a.forScore.None? || a.againstScore.None? {
        return FailedPrecondition;
      }
      var audienceFor, audienceAgainst := GetAudienceScores(debate);
      var finalFor := WeightedScore(a.forScore.value, audienceFor);
      var finalAgainst := WeightedScore(a.againstScore.value, audienceAgainst);
      var row := FinalRow(a.forScore.value, a.againstScore.value, audienceFor, audienceAgainst,
                          finalFor, finalAgainst, WinnerSide(finalFor, finalAgainst));
      assert row == ScoredRow(a.forScore.value, a.againstScore.value, repo.votes, debate);
      repo.UpsertFinalDebateScore(debate, row);
      if AnalysisFits(a) {
        ScoredRowOk(a.forScore.value, a.againstScore.value, repo.votes, debate);
      }
      return Stored;
    }

    method GetAudienceScores(debate: string) returns (forScore: int, againstScore: int)
      ensures forScore == SummaryOf(repo.votes, debate).forScore
      ensures againstScore == SummaryOf(repo.votes, debate).againstScore
    {
      var counts := repo.CountSpectatorVotesBySide(debate);
      var forVotes, againstVotes := CountSide(counts, FOR), CountSide(counts, AGAINST);
      GroupsHoldTheCounts(repo.votes, debate, FOR);
      GroupsHoldTheCounts(repo.votes, debate, AGAINST);
      forScore := PercentageScore(forVotes, forVotes + againstVotes);
      againstScore := PercentageScore(againstVotes, forVotes + againstVotes);
    }
  }
}
