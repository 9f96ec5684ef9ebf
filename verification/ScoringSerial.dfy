/** The effect of each whole call of the scoring service, and whole calls as runs of the interleaved model. */
module ScoringSerial {
  import opened Common
  import opened Machines
  import opened Percentages
  import opened FinalScores
  import opened ScoringStore
  import opened ScoringProtocol

  function SerialVote(s: Store, id: nat, debate: string, user: string, side: Side): (Store, Outcome) {
    if debate !in s.debates then (s, NotFound)
    else if !Votable(s.debates[debate]) then (s, FailedPrecondition)
    else if HasVote(s.votes, debate, user) then (s, AlreadyExists)
    else (PutVote(s, Vote(id, debate, user, side)), Created)
  }

  function SerialUpsert(s: Store, debate: string, status: Status): Store {
    var votingOpens := status == VOTING && (debate in s.debates ==> s.debates[debate] != VOTING);
    var s' := PutDebate(s, debate, status);
    if votingOpens then s'.(jobs := AddJob(s.jobs, JobId(debate))) else s'
  }

  function SerialAnalysis(s: Store, debate: string, a: Analysis): (Store, Outcome) {
    if debate !in s.debates then (s, NotFound)
    else if !AnalysisFits(a) then (s, StorageFailure)
    else (PutAnalysis(s, debate, a), Stored)
  }

  function SerialFinal(s: Store, debate: string): (Store, Outcome) {
    if debate !in s.debates then (s, NotFound)
    else if debate !in s.analyses then (s, FailedPrecondition)
    else
      var a := s.analyses[debate];
      if a.status != COMPLETED || a.forScore.None? || a.againstScore.None? then (s, FailedPrecondition)
      else (PutFinal(s, debate, ScoredRow(a.forScore.value, a.againstScore.value, s.votes, debate)), Stored)
  }

  /** Recomputing with the same AI result and the same numbers of votes stores the same row, whatever else changed. */
  lemma RecomputingChangesNoScore(s: Store, s': Store, debate: string)
    requires SerialFinal(s, debate).1 == Stored
    requires debate in s'.debates && debate in s'.analyses && s'.analyses[debate] == s.analyses[debate]
    requires forall side :: CountVotes(s'.votes, debate, side) == CountVotes(s.votes, debate, side)
    ensures SerialFinal(s', debate).1 == Stored
    ensures SerialFinal(s', debate).0.finals[debate] == SerialFinal(s, debate).0.finals[debate]
    ensures s'.finals == SerialFinal(s, debate).0.finals ==> SerialFinal(s', debate).0 == s'
  {
    GroupsHoldTheCounts(s.votes, debate, FOR);
    GroupsHoldTheCounts(s.votes, debate, AGAINST);
    GroupsHoldTheCounts(s'.votes, debate, FOR);
    GroupsHoldTheCounts(s'.votes, debate, AGAINST);
    if s'.finals == SerialFinal(s, debate).0.finals {
      assert s'.finals[debate := s'.finals[debate]] == s'.finals;
    }
  }

  /**
   Moving a debate to VOTING leaves its job in the queue exactly when the job was
   there before or the row was not yet VOTING. So a job lost at a failed enqueue
   comes back only after the debate has left VOTING.
   */
  lemma JobAfterUpsert(s: Store, debate: string)
    ensures JobId(debate) in SerialUpsert(s, debate, VOTING).jobs
            <==> JobId(debate) in s.jobs || debate !in s.debates || s.debates[debate] != VOTING
  {
  }

  // ----- what each whole call answers and changes, in terms of rows

  ghost predicate HasVoted(votes: seq<Vote>, debate: string, user: string) {
    exists i :: 0 <= i < |votes| && votes[i].debate == debate && votes[i].user == user
  }

  /** A vote needs an open debate and a user who has not voted on it, and adds one row with its side. */
  lemma WhatVoteDoes(s: Store, id: nat, debate: string, user: string, side: Side)
    ensures var (s', outcome) := SerialVote(s, id, debate, user, side);
            && (outcome == NotFound <==> debate !in s.debates)
            && (outcome == FailedPrecondition
                <==> debate in s.debates && (s.debates[debate] == PENDING || s.debates[debate] == CLOSED))
            && (outcome == AlreadyExists
                <==> debate in s.debates && (s.debates[debate] == RUNNING || s.debates[debate] == VOTING)
                     && HasVoted(s.votes, debate, user))
            && outcome in {NotFound, FailedPrecondition, AlreadyExists, Created}
            && s' == (if outcome == Created then s.(votes := s.votes + [Vote(id, debate, user, side)]) else s)
  {
  }

  /** An upsert writes its status; opening VOTING adds the debate's job unless the queue holds it. */
  lemma WhatUpsertDoes(s: Store, debate: string, status: Status)
    ensures var s', job := SerialUpsert(s, debate, status), "finalize:" + debate;
            var opens := status == VOTING && !(debate in s.debates && s.debates[debate] == VOTING);
            && s'.debates == s.debates[debate := status]
            && s'.jobs == (if opens && job !in s.jobs then s.jobs + [job] else s.jobs)
            && s'.votes == s.votes && s'.analyses == s.analyses && s'.finals == s.finals
  {
  }

  predicate FitsColumn(score: Option<int>) {
    score.Some? ==> 0 <= score.value <= 100
  }

  /** An analysis is stored for a debate that exists, when its scores are missing or in 0..100. */
  lemma WhatAnalysisDoes(s: Store, debate: string, a: Analysis)
    ensures var (s', outcome) := SerialAnalysis(s, debate, a);
            && (outcome == NotFound <==> debate !in s.debates)
            && (outcome == Stored <==> debate in s.debates && FitsColumn(a.forScore) && FitsColumn(a.againstScore))
            && outcome in {NotFound, Stored, StorageFailure}
            && s' == (if outcome == Stored then s.(analyses := s.analyses[debate := a]) else s)
  {
  }

  /**
   A final score needs a completed analysis with both scores. Its row holds them on their own
   sides, with the percentages of all who voted FOR and AGAINST, and nothing else changes.
   */
  lemma WhatFinalDoes(s: Store, debate: string)
    requires UniqueVotes(s.votes)
    ensures var (s', outcome) := SerialFinal(s, debate);
            var completed := debate in s.analyses && s.analyses[debate].status == COMPLETED
                             && s.analyses[debate].forScore.Some? && s.analyses[debate].againstScore.Some?;
            var pro, contra := Voters(s.votes, debate, FOR), Voters(s.votes, debate, AGAINST);
            && (outcome == NotFound <==> debate !in s.debates)
            && (outcome == Stored <==> debate in s.debates && completed)
            && outcome in {NotFound, Stored, FailedPrecondition}
            && (outcome != Stored ==> s' == s)
            && (outcome == Stored
                ==> && debate in s'.finals && s' == s.(finals := s.finals[debate := s'.finals[debate]])
                    && s'.finals[debate].aiFor == s.analyses[debate].forScore.value
                    && s'.finals[debate].aiAgainst == s.analyses[debate].againstScore.value
                    && s'.finals[debate].audienceFor == PercentageScore(|pro|, |pro + contra|)
                    && s'.finals[debate].audienceAgainst == PercentageScore(|contra|, |pro + contra|))
  {
    hide PercentageScore, CountsBySide, CountSide, Voters, UniqueVotes;
    if SerialFinal(s, debate).1 == Stored {
      var a := s.analyses[debate];
      SummaryAgreesWithFinalScore(s.votes, debate, a.forScore.value, a.againstScore.value);
    }
  }

  // ----- whole calls as undisturbed runs

  lemma VoteIsARun(m: Machine, debate: string, user: string, side: Side) returns (m': Machine)
    ensures var (s, outcome) := SerialVote(m.s, |m.calls|, debate, user, side);
            Leads(Step, m, m') && m'.s == s && m'.calls == m.calls + [VoteDone(debate, user, outcome)]
  {
    hide Leads;
    var c := |m.calls|;
    Starts(Step, m);
    m' := Follows(Step, m, m, BeginVote(debate, user, side));
    m' := Follows(Step, m, m', Advance(c));
    if debate in m.s.debates && Votable(m.s.debates[debate]) {
      m' := Follows(Step, m, m', Advance(c));
      if !HasVote(m.s.votes, debate, user) {
        m' := Follows(Step, m, m', Advance(c));
        m' := Follows(Step, m, m', Advance(c));
      }
    }
  }

  lemma UpsertIsARun(m: Machine, debate: string, status: Status) returns (m': Machine)
    ensures Leads(Step, m, m') && m'.s == SerialUpsert(m.s, debate, status) && m'.calls == m.calls + [Done(Stored)]
  {
    hide Leads;
    var c := |m.calls|;
    Starts(Step, m);
    m' := Follows(Step, m, m, BeginUpsert(debate, status));
    m' := Follows(Step, m, m', Advance(c));
    m' := Follows(Step, m, m', Advance(c));
    if m'.calls[c].DebateEnqueue? {
      m' := Follows(Step, m, m', Advance(c));
    }
  }

  lemma FinalIsARun(m: Machine, debate: string) returns (m': Machine)
    ensures var (s, outcome) := SerialFinal(m.s, debate);
            Leads(Step, m, m') && m'.s == s && m'.calls == m.calls + [Done(outcome)]
  {
    hide Leads, ScoredRow;
    var c := |m.calls|;
    Starts(Step, m);
    m' := Follows(Step, m, m, BeginFinal(debate));
    m' := Follows(Step, m, m', Advance(c));
    if debate in m.s.debates {
      m' := Follows(Step, m, m', Advance(c));
      if m'.calls[c].FinalCount? {
        m' := Follows(Step, m, m', Advance(c));
        m' := Follows(Step, m, m', Advance(c));
      }
    }
  }
}
