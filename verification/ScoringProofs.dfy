/** What holds in every interleaved run of the scoring service. */
module ScoringProofs {
  import opened Machines
  import opened FinalScores
  import opened ScoringStore
  import opened ScoringProtocol

  // ----- one step

  lemma CallOkGrows(m: Machine, m': Machine, c: nat, call: Call)
    requires CallOk(m, c, call) && Grows(m, m')
    ensures CallOk(m', c, call)
  {
  }

  /** A step of call `c` keeps the invariant if it keeps the tables, the jobs and its own local values. */
  lemma CallStep(m: Machine, m': Machine, c: nat)
    requires Inv(m) && c < |m.calls| && |m'.calls| == |m.calls| && m'.calls == m.calls[c := m'.calls[c]]
    requires Grows(m, m') && TablesOk(m'.s) && VotingOk(m') && CallOk(m', c, m'.calls[c])
    ensures Inv(m')
  {
  }

  /** The jobs stay cared for in a step of call `c` that is not bound to add one. */
  lemma JobsStayCared(m: Machine, m': Machine, c: nat)
    requires VotingOk(m) && c < |m.calls| && |m'.calls| == |m.calls| && m'.calls == m.calls[c := m'.calls[c]]
    requires Grows(m, m') && m'.everVoting == m.everVoting && m'.s.debates == m.s.debates
    requires m.calls[c].DebateEnqueue? ==> JobId(m.calls[c].debate) in m'.s.jobs || m.calls[c].debate in m'.dropped
    ensures VotingOk(m')
  {
    forall d | d in m'.everVoting ensures JobCared(m', d) {
      assert JobCared(m, d);
      if JobId(d) !in m.s.jobs && d !in m.dropped {
        var i :| 0 <= i < |m.calls| && m.calls[i] == DebateEnqueue(d);
        assert i != c ==> m'.calls[i] == DebateEnqueue(d);
      }
    }
  }

  lemma VoteStep(m: Machine, c: nat)
    requires Inv(m) && c < |m.calls|
    requires m.calls[c].VoteRead? || m.calls[c].VoteCheck? || m.calls[c].VoteInsert? || m.calls[c].VoteAnswer?
    ensures Inv(ResumeVote(m, c)) && Grows(m, ResumeVote(m, c))
  {
    var m' := ResumeVote(m, c);
    assert CallOk(m, c, m.calls[c]);
    if m.calls[c].VoteInsert? && MayVote(m.s, m.calls[c].debate, m.calls[c].user) {
      assert m'.s.votes[|m.s.votes|].id == c;
    }
    JobsStayCared(m, m', c);
    CallStep(m, m', c);
  }

  /** An upsert to VOTING: whoever writes it first has read something else and is bound to add the job. */
  lemma DebateWriteStep(m: Machine, c: nat)
    requires Inv(m) && c < |m.calls| && m.calls[c].DebateWrite?
    ensures Inv(ResumeDebate(m, c)) && Grows(m, ResumeDebate(m, c))
  {
    var m' := ResumeDebate(m, c);
    var DebateWrite(d, status, previous) := m.calls[c];
    assert CallOk(m, c, m.calls[c]);
    forall q | q in m'.everVoting ensures JobCared(m', q) {
      if q in m.everVoting {
        assert JobCared(m, q);
        if exists i :: 0 <= i < |m.calls| && m.calls[i] == DebateEnqueue(q) {
          var i :| 0 <= i < |m.calls| && m.calls[i] == DebateEnqueue(q);
          assert m'.calls[i] == DebateEnqueue(q);
        }
      } else {
        assert m'.calls[c] == DebateEnqueue(q);
      }
    }
    CallStep(m, m', c);
  }

  lemma JobIdInjective(d: string, d': string)
    requires JobId(d) == JobId(d')
    ensures d == d'
  {
    assert JobId(d)[9..] == d && JobId(d')[9..] == d';
  }

  lemma DebateStep(m: Machine, c: nat)
    requires Inv(m) && c < |m.calls| && (m.calls[c].DebateRead? || m.calls[c].DebateWrite? || m.calls[c].DebateEnqueue?)
    ensures Inv(ResumeDebate(m, c)) && Grows(m, ResumeDebate(m, c))
  {
    if m.calls[c].DebateWrite? {
      DebateWriteStep(m, c);
    } else {
      JobsStayCared(m, ResumeDebate(m, c), c);
      CallStep(m, ResumeDebate(m, c), c);
    }
  }

  lemma FinalStep(m: Machine, c: nat)
    requires Inv(m) && c < |m.calls|
    requires m.calls[c].FinalRead? || m.calls[c].FinalAnalysis? || m.calls[c].FinalCount? || m.calls[c].FinalWrite?
    ensures Inv(ResumeFinal(m, c)) && Grows(m, ResumeFinal(m, c))
  {
    assert CallOk(m, c, m.calls[c]);
    if m.calls[c].FinalCount? {
      ScoredRowOk(m.calls[c].aiFor, m.calls[c].aiAgainst, m.s.votes, m.calls[c].debate);
    }
    JobsStayCared(m, ResumeFinal(m, c), c);
    CallStep(m, ResumeFinal(m, c), c);
  }

  lemma BeginStep(m: Machine, call: Call)
    requires Inv(m) && CallOk(m, |m.calls|, call)
    ensures Inv(Begin(m, call))
  {
    var m' := Begin(m, call);
    forall c | 0 <= c < |m'.calls| ensures CallOk(m', c, m'.calls[c]) {
      if c < |m.calls| {
        CallOkGrows(m, m', c, m.calls[c]);
      }
    }
    forall d | d in m'.everVoting ensures JobCared(m', d) {
      assert JobCared(m, d);
      if exists i :: 0 <= i < |m.calls| && m.calls[i] == DebateEnqueue(d) {
        var i :| 0 <= i < |m.calls| && m.calls[i] == DebateEnqueue(d);
        assert m'.calls[i] == DebateEnqueue(d);
      }
    }
  }

  lemma ResumeStep(m: Machine, c: nat)
    requires Inv(m) && c < |m.calls|
    ensures Inv(Resume(m, c)) && Grows(m, Resume(m, c))
  {
    match m.calls[c]
    case VoteRead(_, _, _) => VoteStep(m, c);
    case VoteCheck(_, _, _) => VoteStep(m, c);
    case VoteInsert(_, _, _) => VoteStep(m, c);
    case VoteAnswer(_, _) => VoteStep(m, c);
    case DebateRead(_, _) => DebateStep(m, c);
    case DebateWrite(_, _, _) => DebateStep(m, c);
    case DebateEnqueue(_) => DebateStep(m, c);
    case AnalysisRead(_, _) => JobsStayCared(m, Resume(m, c), c); CallStep(m, Resume(m, c), c);
    case AnalysisWrite(_, _) => JobsStayCared(m, Resume(m, c), c); CallStep(m, Resume(m, c), c);
    case FinalRead(_) => FinalStep(m, c);
    case FinalAnalysis(_) => FinalStep(m, c);
    case FinalCount(_, _, _) => FinalStep(m, c);
    case FinalWrite(_, _) => FinalStep(m, c);
    case _ =>
  }

  lemma StepKeeps(m: Machine, e: Event)
    requires Inv(m)
    ensures Inv(Step(m, e)) && Grows(m, Step(m, e))
  {
    match e
    case BeginVote(d, u, side) => BeginStep(m, VoteRead(d, u, side));
    case BeginUpsert(d, status) => BeginStep(m, DebateRead(d, status));
    case BeginAnalysis(d, a) => BeginStep(m, AnalysisRead(d, a));
    case BeginFinal(d) => BeginStep(m, FinalRead(d));
    case Advance(c) => if c < |m.calls| { ResumeStep(m, c); }
    case Fail(c) =>
      if c < |m.calls| && Failed(m, c) != m {
        JobsStayCared(m, Failed(m, c), c);
        CallStep(m, Failed(m, c), c);
      }
  }

  // ----- whole runs

  ghost function After(es: seq<Event>): Machine {
    Run(Step, INIT, es)
  }

  lemma {:induction false} RunKeeps(m: Machine, es: seq<Event>)
    requires Inv(m)
    ensures Inv(Run(Step, m, es)) && Grows(m, Run(Step, m, es))
  {
    if es != [] {
      RunKeeps(m, es[..|es| - 1]);
      StepKeeps(Run(Step, m, es[..|es| - 1]), es[|es| - 1]);
    }
  }

  lemma AlwaysInv(es: seq<Event>)
    ensures Inv(After(es))
  {
    RunKeeps(INIT, es);
  }

  /** However votes race, at most one call of a user on a debate reports a created vote. */
  lemma AtMostOneVoteSucceeds(es: seq<Event>, c: nat, c': nat, debate: string, user: string)
    requires c < |After(es).calls| && After(es).calls[c] == VoteDone(debate, user, Created)
    requires c' < |After(es).calls| && After(es).calls[c'] == VoteDone(debate, user, Created)
    ensures c == c'
    ensures exists i :: 0 <= i < |After(es).s.votes| && After(es).s.votes[i].id == c
                        && After(es).s.votes[i].debate == debate && After(es).s.votes[i].user == user
  {
    AlwaysInv(es);
    var m := After(es);
    assert CallOk(m, c, m.calls[c]) && CallOk(m, c', m.calls[c']);
    var votes := m.s.votes;
    var i :| 0 <= i < |votes| && votes[i].id == c && votes[i].debate == debate && votes[i].user == user;
    var j :| 0 <= j < |votes| && votes[j].id == c' && votes[j].debate == debate && votes[j].user == user;
  }

  /** `call` has passed the debate checks of a vote that is not stored yet. */
  predicate PastDebateChecks(call: Call, debate: string, user: string) {
    (call.VoteCheck? || call.VoteInsert?) && call.debate == debate && call.user == user
  }

  /** How a vote that comes too late can stand or end: refused, unless its storage fails. */
  predicate Refused(call: Call, debate: string, user: string, mayFail: bool) {
    || PastDebateChecks(call, debate, user)
    || call == VoteDone(debate, user, AlreadyExists)
    || (mayFail && call == VoteDone(debate, user, StorageFailure))
  }

  /**
   Once a vote of the user on the debate is stored, every other call that has passed
   the debate checks ends in ALREADY_EXISTS, by the pre-check or by the unique
   constraint, unless one of its statements fails. It never creates a second vote.
   */
  lemma {:induction false} LateVotesAreRefused(es: seq<Event>, fs: seq<Event>, c: nat, debate: string, user: string)
    requires HasVote(After(es).s.votes, debate, user)
    requires c < |After(es).calls| && PastDebateChecks(After(es).calls[c], debate, user)
    ensures c < |After(es + fs).calls|
    ensures Refused(After(es + fs).calls[c], debate, user, Fail(c) in fs)
    ensures HasVote(After(es + fs).s.votes, debate, user)
  {
    if fs == [] {
      assert es + fs == es;
    } else {
      var n := |fs| - 1;
      LateVotesAreRefused(es, fs[..n], c, debate, user);
      assert es + fs == (es + fs[..n]) + [fs[n]];
      RunSnoc(Step, INIT, es + fs[..n], fs[n]);
      AlwaysInv(es + fs[..n]);
      StepKeeps(After(es + fs[..n]), fs[n]);
      VotesStay(After(es + fs[..n]), After(es + fs), debate, user);
      RefusedStep(After(es + fs[..n]), fs[n], c, debate, user, Fail(c) in fs[..n]);
    }
  }

  lemma VotesStay(m: Machine, m': Machine, debate: string, user: string)
    requires HasVote(m.s.votes, debate, user) && Grows(m, m')
    ensures HasVote(m'.s.votes, debate, user)
  {
  }

  lemma RefusedStep(m: Machine, e: Event, c: nat, debate: string, user: string, mayFail: bool)
    requires HasVote(m.s.votes, debate, user) && c < |m.calls| && Refused(m.calls[c], debate, user, mayFail)
    ensures c < |Step(m, e).calls| && Refused(Step(m, e).calls[c], debate, user, mayFail || e == Fail(c))
  {
  }

  /** At every moment the grouped counts are numbers of voters, and summary and final score read the same ones. */
  lemma CountsAreVoters(es: seq<Event>, debate: string, aiFor: int, aiAgainst: int)
    ensures var votes := After(es).s.votes;
            var summary := SummaryOf(votes, debate);
            && summary.forVotes == |Voters(votes, debate, FOR)|
            && summary.againstVotes == |Voters(votes, debate, AGAINST)|
            && summary.totalVotes == |Voters(votes, debate, FOR) + Voters(votes, debate, AGAINST)|
            && ScoredRow(aiFor, aiAgainst, votes, debate).audienceFor == summary.forScore
            && ScoredRow(aiFor, aiAgainst, votes, debate).audienceAgainst == summary.againstScore
  {
    AlwaysInv(es);
    SummaryAgreesWithFinalScore(After(es).s.votes, debate, aiFor, aiAgainst);
  }

  /** Every stored final score, in every reachable state, is in range, consistent, and names the right winner. */
  lemma StoredScoresAreSound(es: seq<Event>, debate: string)
    requires debate in After(es).s.finals
    ensures RowOk(After(es).s.finals[debate])
    ensures var row := After(es).s.finals[debate];
            && 0 <= row.aiFor <= 100 && 0 <= row.audienceFor <= 100 && 0 <= row.finalFor <= 100
            && 0 <= row.aiAgainst <= 100 && 0 <= row.audienceAgainst <= 100 && 0 <= row.finalAgainst <= 100
    ensures var row := After(es).s.finals[debate];
            var lead := row.aiFor + row.audienceFor - row.aiAgainst - row.audienceAgainst;
            && (lead >= 2 ==> row.winner == Won(FOR))
            && (lead <= -2 ==> row.winner == Won(AGAINST))
            && (lead > 0 ==> row.winner != Won(AGAINST))
            && (lead < 0 ==> row.winner != Won(FOR))
            && (row.winner == DRAW ==> -1 <= lead <= 1)
  {
    AlwaysInv(es);
    WinnerByExactSums(After(es).s.finals[debate]);
  }

  /**
   Every debate that was ever VOTING has its finalisation job in the queue, or a
   suspended call still bound to add it, unless a call failed while adding it; and no
   debate has two jobs.
   */
  lemma FinalisationIsBound(es: seq<Event>, debate: string)
    requires debate in After(es).everVoting
    ensures || JobId(debate) in After(es).s.jobs
            || DebateEnqueue(debate) in After(es).calls
            || debate in After(es).dropped
    ensures multiset(After(es).s.jobs)[JobId(debate)] <= 1
  {
    AlwaysInv(es);
    assert JobCared(After(es), debate);
    UniqueOnce(After(es).s.jobs, JobId(debate));
  }

  lemma {:induction false} UniqueOnce(jobs: seq<string>, id: string)
    requires JobsUnique(jobs)
    ensures multiset(jobs)[id] <= 1
    ensures id !in jobs ==> multiset(jobs)[id] == 0
  {
    if jobs != [] {
      var n := |jobs| - 1;
      UniqueOnce(jobs[..n], id);
      assert jobs == jobs[..n] + [jobs[n]];
    }
  }

  /** When no statement ever fails, nothing is dropped: the job is there or a call is bound to add it. */
  lemma {:induction false} NothingDroppedWithoutFailure(es: seq<Event>)
    requires forall e :: e in es ==> !e.Fail?
    ensures After(es).dropped == {}
  {
    if es != [] {
      NothingDroppedWithoutFailure(es[..|es| - 1]);
      assert es[|es| - 1] in es;
    }
  }

  lemma FinalisationWithoutFailure(es: seq<Event>, debate: string)
    requires debate in After(es).everVoting && forall e :: e in es ==> !e.Fail?
    ensures JobId(debate) in After(es).s.jobs || DebateEnqueue(debate) in After(es).calls
  {
    FinalisationIsBound(es, debate);
    NothingDroppedWithoutFailure(es);
  }
}
