/**
 Where the tables of the scoring service come from, in every interleaved run: votes, statuses and
 analyses from requests, final scores from an analysis and a set of votes the debate had.
 */
module ScoringSources {
  import opened Common
  import opened Percentages
  import opened FinalScores
  import opened ScoringStore
  import opened ScoringProtocol
  import opened ScoringProofs

  predicate IsRequest(e: Event) {
    e.BeginVote? || e.BeginUpsert? || e.BeginAnalysis? || e.BeginFinal?
  }

  /** What call 0, 1, ... of a run was asked. */
  function Requests(es: seq<Event>): seq<Event> {
    if es == [] then []
    else
      var e := es[|es| - 1];
      Requests(es[..|es| - 1]) + if IsRequest(e) then [e] else []
  }

  // ----- what was true at some moment of a run

  ghost predicate WasVotable(es: seq<Event>, d: string) {
    exists n :: 0 <= n <= |es| && IsOpen(After(es[..n]).s, d)
  }

  predicate IsOpen(s: Store, d: string) {
    d in s.debates && (s.debates[d] == RUNNING || s.debates[d] == VOTING)
  }

  /** The analysis of the debate was complete, with these scores for FOR and AGAINST. */
  ghost predicate WasAnalysed(es: seq<Event>, d: string, aiFor: int, aiAgainst: int) {
    exists n :: 0 <= n <= |es| && HasScores(After(es[..n]).s, d, aiFor, aiAgainst)
  }

  predicate HasScores(s: Store, d: string, aiFor: int, aiAgainst: int) {
    d in s.analyses && s.analyses[d] == Analysis(COMPLETED, Some(aiFor), Some(aiAgainst))
  }

  /** Of all who had voted on the debate these were the percentages for FOR and for AGAINST. */
  ghost predicate WasVoted(es: seq<Event>, d: string, audienceFor: int, audienceAgainst: int) {
    exists n :: 0 <= n <= |es| && HasAudience(After(es[..n]).s, d, audienceFor, audienceAgainst)
  }

  ghost predicate HasAudience(s: Store, d: string, audienceFor: int, audienceAgainst: int) {
    var pro, contra := Voters(s.votes, d, FOR), Voters(s.votes, d, AGAINST);
    && audienceFor == PercentageScore(|pro|, |pro + contra|)
    && audienceAgainst == PercentageScore(|contra|, |pro + contra|)
  }

  // ----- what calls and rows owe to requests

  predicate IsStored(votes: seq<Vote>, c: nat, q: Event)
    requires q.BeginVote?
  {
    Vote(c, q.debate, q.user, q.side) in votes
  }

  ghost predicate Serves(es: seq<Event>, votes: seq<Vote>, q: Event, c: nat, call: Call) {
    match call
    case VoteRead(d, u, side) => q == BeginVote(d, u, side)
    case VoteCheck(d, u, side) => q == BeginVote(d, u, side) && WasVotable(es, d)
    case VoteInsert(d, u, side) => q == BeginVote(d, u, side) && WasVotable(es, d)
    case VoteAnswer(d, u) => q.BeginVote? && q.debate == d && q.user == u && IsStored(votes, c, q)
    case VoteDone(d, u, outcome) =>
      && q.BeginVote? && q.debate == d && q.user == u
      && (outcome == Created ==> IsStored(votes, c, q))
      && (outcome == AlreadyExists ==> exists i :: 0 <= i < |votes| && votes[i].debate == d && votes[i].user == u)
    case DebateRead(d, status) => q == BeginUpsert(d, status)
    case DebateWrite(d, status, _) => q == BeginUpsert(d, status)
    case DebateEnqueue(d) => q == BeginUpsert(d, VOTING)
    case AnalysisRead(d, a) => q == BeginAnalysis(d, a)
    case AnalysisWrite(d, a) => q == BeginAnalysis(d, a)
    case FinalRead(d) => q == BeginFinal(d)
    case FinalAnalysis(d) => q == BeginFinal(d)
    case FinalCount(d, aiFor, aiAgainst) => q == BeginFinal(d) && WasAnalysed(es, d, aiFor, aiAgainst)
    case FinalWrite(d, row) => q == BeginFinal(d) && RowFrom(es, d, row)
    case Done(_) => true
  }

  ghost predicate RowFrom(es: seq<Event>, d: string, row: FinalRow) {
    WasAnalysed(es, d, row.aiFor, row.aiAgainst) && WasVoted(es, d, row.audienceFor, row.audienceAgainst)
  }

  /** A vote past its insert, however it ends. */
  predicate Voting(call: Call) {
    call.VoteAnswer? || (call.VoteDone? && (call.outcome == Created || call.outcome == StorageFailure))
  }

  ghost predicate VoteFrom(es: seq<Event>, calls: seq<Call>, v: Vote) {
    && v.id < |Requests(es)| && Requests(es)[v.id] == BeginVote(v.debate, v.user, v.side)
    && v.id < |calls| && Voting(calls[v.id]) && WasVotable(es, v.debate)
  }

  ghost predicate JobFrom(es: seq<Event>, id: string) {
    exists d :: BeginUpsert(d, VOTING) in es && id == "finalize:" + d
  }

  ghost predicate CallsFrom(es: seq<Event>) {
    var m := After(es);
    && |Requests(es)| == |m.calls|
    && forall c :: 0 <= c < |m.calls| ==> Serves(es, m.s.votes, Requests(es)[c], c, m.calls[c])
  }

  ghost predicate TablesFrom(es: seq<Event>) {
    var m := After(es);
    && (forall d :: d in m.s.debates ==> BeginUpsert(d, m.s.debates[d]) in es)
    && (forall d :: d in m.s.analyses ==> BeginAnalysis(d, m.s.analyses[d]) in es)
    && (forall d :: d in m.s.finals ==> RowFrom(es, d, m.s.finals[d]) && BeginFinal(d) in es)
    && (forall i :: 0 <= i < |m.s.votes| ==> VoteFrom(es, m.calls, m.s.votes[i]))
    && (forall i :: 0 <= i < |m.s.jobs| ==> JobFrom(es, m.s.jobs[i]))
  }

  // ----- what was, stays

  lemma PrefixOf(es: seq<Event>, e: Event)
    ensures forall n :: 0 <= n <= |es| ==> (es + [e])[..n] == es[..n]
  {
  }

  lemma WasLater(es: seq<Event>, e: Event, d: string)
    ensures WasVotable(es, d) ==> WasVotable(es + [e], d)
    ensures forall x, y :: WasAnalysed(es, d, x, y) ==> WasAnalysed(es + [e], d, x, y)
    ensures forall x, y :: WasVoted(es, d, x, y) ==> WasVoted(es + [e], d, x, y)
  {
    PrefixOf(es, e);
    hide HasScores, HasAudience, IsOpen;
    if WasVotable(es, d) {
      var n :| 0 <= n <= |es| && IsOpen(After(es[..n]).s, d);
      assert IsOpen(After((es + [e])[..n]).s, d);
    }
    forall x, y | WasAnalysed(es, d, x, y) ensures WasAnalysed(es + [e], d, x, y) {
      var n :| 0 <= n <= |es| && HasScores(After(es[..n]).s, d, x, y);
      assert HasScores(After((es + [e])[..n]).s, d, x, y);
    }
    forall x, y | WasVoted(es, d, x, y) ensures WasVoted(es + [e], d, x, y) {
      var n :| 0 <= n <= |es| && HasAudience(After(es[..n]).s, d, x, y);
      assert HasAudience(After((es + [e])[..n]).s, d, x, y);
    }
  }

  lemma IsNow(es: seq<Event>, d: string)
    ensures IsOpen(After(es).s, d) ==> WasVotable(es, d)
    ensures forall x, y :: HasScores(After(es).s, d, x, y) ==> WasAnalysed(es, d, x, y)
    ensures forall x, y :: HasAudience(After(es).s, d, x, y) ==> WasVoted(es, d, x, y)
  {
    assert es[..|es|] == es;
    hide HasScores, HasAudience, IsOpen, After;
    forall x, y | HasScores(After(es).s, d, x, y) ensures WasAnalysed(es, d, x, y) {
      assert HasScores(After(es[..|es|]).s, d, x, y);
    }
    forall x, y | HasAudience(After(es).s, d, x, y) ensures WasVoted(es, d, x, y) {
      assert HasAudience(After(es[..|es|]).s, d, x, y);
    }
  }

  lemma ServesLater(es: seq<Event>, e: Event, votes: seq<Vote>, votes': seq<Vote>, q: Event, c: nat, call: Call)
    requires Serves(es, votes, q, c, call) && votes <= votes'
    ensures Serves(es + [e], votes', q, c, call)
  {
    if !call.Done? {
      WasLater(es, e, if call.VoteDone? || call.VoteAnswer? then "" else call.debate);
    }
    hide WasVotable, WasAnalysed, WasVoted;
    assert forall v :: v in votes ==> v in votes';
    if call.VoteDone? && call.outcome == AlreadyExists {
      var i :| 0 <= i < |votes| && votes[i].debate == call.debate && votes[i].user == call.user;
      assert votes'[i] == votes[i];
    }
  }

  // ----- one step of a call

  lemma VoteServes(es: seq<Event>, m: Machine, q: Event, c: nat)
    requires m == After(es) && c < |m.calls| && Serves(es, m.s.votes, q, c, m.calls[c])
    requires m.calls[c].VoteRead? || m.calls[c].VoteCheck? || m.calls[c].VoteInsert? || m.calls[c].VoteAnswer?
    ensures var m' := ResumeVote(m, c); |m'.calls| == |m.calls| && Serves(es, m'.s.votes, q, c, m'.calls[c])
  {
    IsNow(es, m.calls[c].debate);
    hide WasVotable, WasAnalysed, WasVoted, After;
    var m' := ResumeVote(m, c);
    if |m'.s.votes| > |m.s.votes| {
      assert m'.s.votes[|m.s.votes|] == Vote(c, q.debate, q.user, q.side);
    }
  }

  lemma FinalServes(es: seq<Event>, m: Machine, q: Event, c: nat)
    requires m == After(es) && UniqueVotes(m.s.votes)
    requires c < |m.calls| && Serves(es, m.s.votes, q, c, m.calls[c])
    requires m.calls[c].FinalRead? || m.calls[c].FinalAnalysis? || m.calls[c].FinalCount? || m.calls[c].FinalWrite?
    ensures var m' := ResumeFinal(m, c); |m'.calls| == |m.calls| && Serves(es, m'.s.votes, q, c, m'.calls[c])
  {
    hide UniqueVotes, WasVotable, WasAnalysed, WasVoted, After, ScoredRow, HasAudience, RowFrom;
    if m.calls[c].FinalCount? {
      CountServes(es, m, q, c);
    } else if m.calls[c].FinalAnalysis? {
      AnalysisIsNow(es, m, m.calls[c].debate);
    }
  }

  lemma AnalysisIsNow(es: seq<Event>, m: Machine, d: string)
    requires m == After(es)
    ensures forall x, y :: HasScores(m.s, d, x, y) ==> WasAnalysed(es, d, x, y)
  {
    hide *;
    IsNow(es, d);
  }

  lemma AudienceIsNow(es: seq<Event>, m: Machine, d: string, x: int, y: int)
    requires m == After(es) && HasAudience(m.s, d, x, y)
    ensures WasVoted(es, d, x, y)
  {
    hide *;
    IsNow(es, d);
  }

  lemma CountServes(es: seq<Event>, m: Machine, q: Event, c: nat)
    requires m == After(es) && UniqueVotes(m.s.votes)
    requires c < |m.calls| && m.calls[c].FinalCount? && Serves(es, m.s.votes, q, c, m.calls[c])
    ensures var FinalCount(d, aiFor, aiAgainst) := m.calls[c]; RowFrom(es, d, ScoredRow(aiFor, aiAgainst, m.s.votes, d))
  {
    hide WasVoted, WasAnalysed, After, HasAudience, ScoredRow;
    var FinalCount(d, aiFor, aiAgainst) := m.calls[c];
    var row := ScoredRow(aiFor, aiAgainst, m.s.votes, d);
    AudienceOfRow(m.s, d, aiFor, aiAgainst);
    AudienceIsNow(es, m, d, row.audienceFor, row.audienceAgainst);
  }

  lemma AudienceOfRow(s: Store, d: string, aiFor: int, aiAgainst: int)
    requires UniqueVotes(s.votes)
    ensures var row := ScoredRow(aiFor, aiAgainst, s.votes, d);
            row.aiFor == aiFor && row.aiAgainst == aiAgainst
            && HasAudience(s, d, row.audienceFor, row.audienceAgainst)
  {
    SummaryAgreesWithFinalScore(s.votes, d, aiFor, aiAgainst);
    hide PercentageScore, CountsBySide, CountSide, WeightedScore, WinnerSide, Voters;
  }

  lemma ResumeServes(es: seq<Event>, m: Machine, q: Event, c: nat)
    requires m == After(es) && Inv(m) && c < |m.calls| && Serves(es, m.s.votes, q, c, m.calls[c])
    ensures var m' := Resume(m, c); |m'.calls| == |m.calls| && Serves(es, m'.s.votes, q, c, m'.calls[c])
  {
    assert UniqueVotes(m.s.votes);
    hide Inv, After, ResumeVote, ResumeFinal, UniqueVotes;
    var call := m.calls[c];
    if call.VoteRead? || call.VoteCheck? || call.VoteInsert? || call.VoteAnswer? {
      VoteServes(es, m, q, c);
    } else if call.FinalRead? || call.FinalAnalysis? || call.FinalCount? || call.FinalWrite? {
      FinalServes(es, m, q, c);
    }
  }

  lemma OtherCalls(m: Machine, e: Event, c: nat)
    requires c < |m.calls| && !(e == Advance(c)) && e != Fail(c)
    ensures c < |Step(m, e).calls| && Step(m, e).calls[c] == m.calls[c]
  {
    hide ScoredRow;
  }

  lemma FailedServes(es: seq<Event>, m: Machine, q: Event, c: nat)
    requires c < |m.calls| && Serves(es, m.s.votes, q, c, m.calls[c])
    ensures var m' := Failed(m, c); |m'.calls| == |m.calls| && Serves(es, m'.s.votes, q, c, m'.calls[c])
  {
    hide WasVotable, WasAnalysed, WasVoted;
  }

  lemma StepServes(es: seq<Event>, e: Event, q: Event, c: nat)
    requires c < |After(es).calls| && Serves(es, After(es).s.votes, q, c, After(es).calls[c])
    ensures var m' := Step(After(es), e); c < |m'.calls| && Serves(es + [e], m'.s.votes, q, c, m'.calls[c])
  {
    AlwaysInv(es);
    var m := After(es);
    StepKeeps(m, e);
    if e == Advance(c) {
      ResumeServes(es, m, q, c);
      ServesLater(es, e, Step(m, e).s.votes, Step(m, e).s.votes, q, c, Step(m, e).calls[c]);
    } else if e == Fail(c) {
      FailedServes(es, m, q, c);
      ServesLater(es, e, Step(m, e).s.votes, Step(m, e).s.votes, q, c, Step(m, e).calls[c]);
    } else {
      OtherCalls(m, e, c);
      ServesLater(es, e, m.s.votes, Step(m, e).s.votes, q, c, m.calls[c]);
    }
    hide After, Step, Serves, Inv;
  }

  lemma NewCallServes(es: seq<Event>, m: Machine, e: Event)
    ensures |Step(m, e).calls| == |m.calls| + if IsRequest(e) then 1 else 0
    ensures IsRequest(e) ==> Serves(es, Step(m, e).s.votes, e, |m.calls|, Step(m, e).calls[|m.calls|])
  {
    hide ScoredRow;
  }

  lemma {:induction false} AlwaysCallsFrom(es: seq<Event>)
    ensures CallsFrom(es)
  {
    if es != [] {
      var before, e := es[..|es| - 1], es[|es| - 1];
      assert es == before + [e];
      AlwaysCallsFrom(before);
      var m := After(before);
      assert After(es) == Step(m, e);
      NewCallServes(es, m, e);
      hide Step, Serves;
      forall c | 0 <= c < |After(es).calls|
        ensures Serves(es, After(es).s.votes, Requests(es)[c], c, After(es).calls[c])
      {
        if c < |m.calls| {
          StepServes(before, e, Requests(before)[c], c);
        }
      }
    }
  }

  // ----- the tables

  /** What one event can write: the row that its call holds. */
  ghost predicate WritesOf(m: Machine, e: Event, s: Store) {
    var call := if e.Advance? && e.call < |m.calls| then m.calls[e.call] else Done(StorageFailure);
    && (forall d :: d in s.debates ==>
          (d in m.s.debates && s.debates[d] == m.s.debates[d])
          || (call.DebateWrite? && call.debate == d && call.status == s.debates[d]))
    && (forall d :: d in s.analyses ==>
          (d in m.s.analyses && s.analyses[d] == m.s.analyses[d]) || call == AnalysisWrite(d, s.analyses[d]))
    && (forall d :: d in s.finals ==>
          (d in m.s.finals && s.finals[d] == m.s.finals[d]) || call == FinalWrite(d, s.finals[d]))
    && (s.votes == m.s.votes
        || (call.VoteInsert? && s.votes == m.s.votes + [Vote(e.call, call.debate, call.user, call.side)]))
    && (s.jobs == m.s.jobs || (call.DebateEnqueue? && s.jobs == m.s.jobs + ["finalize:" + call.debate]))
  }

  lemma StepWrites(m: Machine, e: Event)
    ensures WritesOf(m, e, Step(m, e).s)
  {
    hide ScoredRow, HasVote;
    if e.Advance? && e.call < |m.calls| {
      ResumeWrites(m, e.call);
    }
  }

  lemma ResumeWrites(m: Machine, c: nat)
    requires c < |m.calls|
    ensures WritesOf(m, Advance(c), Resume(m, c).s)
  {
    hide ScoredRow, HasVote;
  }

  /** A vote past its insert stays past it. */
  lemma VotingStays(m: Machine, e: Event, c: nat)
    requires c < |m.calls|
    ensures c < |Step(m, e).calls|
    ensures Voting(m.calls[c]) ==> Voting(Step(m, e).calls[c])
    ensures e == Advance(c) && m.calls[c].VoteInsert? && |Step(m, e).s.votes| > |m.s.votes|
            ==> Voting(Step(m, e).calls[c])
  {
    hide ScoredRow, HasVote;
  }

  lemma RequestsGrow(es: seq<Event>, e: Event)
    ensures Requests(es) <= Requests(es + [e])
    ensures forall q :: q in es ==> q in es + [e]
  {
    assert (es + [e])[..|es|] == es;
  }

  lemma {:induction false} RequestsAreEvents(es: seq<Event>, c: nat)
    requires c < |Requests(es)|
    ensures Requests(es)[c] in es
  {
    if c < |Requests(es[..|es| - 1])| {
      RequestsAreEvents(es[..|es| - 1], c);
    }
  }

  lemma VotesStepFrom(es: seq<Event>, e: Event, i: nat)
    requires CallsFrom(es) && TablesFrom(es) && i < |Step(After(es), e).s.votes|
    ensures VoteFrom(es + [e], Step(After(es), e).calls, Step(After(es), e).s.votes[i])
  {
    hide After, Step, WasVotable;
    var m, v := After(es), Step(After(es), e).s.votes[i];
    StepWrites(m, e);
    RequestsGrow(es, e);
    if i < |m.s.votes| {
      assert VoteFrom(es, m.calls, m.s.votes[i]);
      VotingStays(m, e, v.id);
    } else {
      assert Serves(es, m.s.votes, Requests(es)[e.call], e.call, m.calls[e.call]);
      VotingStays(m, e, e.call);
    }
    WasLater(es, e, v.debate);
  }

  lemma RowFromLater(es: seq<Event>, e: Event, d: string, row: FinalRow)
    requires RowFrom(es, d, row)
    ensures RowFrom(es + [e], d, row)
  {
    hide WasAnalysed, WasVoted;
    WasLater(es, e, d);
  }

  lemma FinalsStepFrom(es: seq<Event>, e: Event, d: string)
    requires CallsFrom(es) && TablesFrom(es) && d in Step(After(es), e).s.finals
    ensures RowFrom(es + [e], d, Step(After(es), e).s.finals[d]) && BeginFinal(d) in es + [e]
  {
    hide After, Step, RowFrom, VoteFrom, JobFrom;
    var m := After(es);
    var row := Step(m, e).s.finals[d];
    StepWrites(m, e);
    if !(d in m.s.finals && row == m.s.finals[d]) {
      assert Serves(es, m.s.votes, Requests(es)[e.call], e.call, m.calls[e.call]);
      RequestsAreEvents(es, e.call);
    }
    RowFromLater(es, e, d, row);
  }

  lemma RequestedStatus(es: seq<Event>, e: Event, d: string)
    requires CallsFrom(es) && TablesFrom(es)
    ensures d in Step(After(es), e).s.debates ==> BeginUpsert(d, Step(After(es), e).s.debates[d]) in es
    ensures d in Step(After(es), e).s.analyses ==> BeginAnalysis(d, Step(After(es), e).s.analyses[d]) in es
  {
    hide After, Step, RowFrom, VoteFrom, JobFrom;
    var m := After(es);
    StepWrites(m, e);
    if e.Advance? && e.call < |m.calls| {
      assert Serves(es, m.s.votes, Requests(es)[e.call], e.call, m.calls[e.call]);
      RequestsAreEvents(es, e.call);
    }
  }

  lemma JobsStepFrom(es: seq<Event>, e: Event, i: nat)
    requires CallsFrom(es) && TablesFrom(es) && i < |Step(After(es), e).s.jobs|
    ensures JobFrom(es + [e], Step(After(es), e).s.jobs[i])
  {
    hide After, Step, RowFrom, VoteFrom;
    var m := After(es);
    StepWrites(m, e);
    RequestsGrow(es, e);
    if i < |m.s.jobs| {
      assert JobFrom(es, m.s.jobs[i]);
    } else {
      assert Serves(es, m.s.votes, Requests(es)[e.call], e.call, m.calls[e.call]);
      RequestsAreEvents(es, e.call);
      assert BeginUpsert(m.calls[e.call].debate, VOTING) in es + [e];
    }
  }

  lemma {:induction false} AlwaysTablesFrom(es: seq<Event>)
    ensures TablesFrom(es)
  {
    if es != [] {
      var before, e := es[..|es| - 1], es[|es| - 1];
      assert es == before + [e];
      AlwaysTablesFrom(before);
      AlwaysCallsFrom(before);
      var s := After(es).s;
      assert After(es) == Step(After(before), e);
      hide Step, CallsFrom, TablesFrom, RowFrom, VoteFrom, JobFrom;
      forall d | d in s.debates || d in s.analyses
        ensures d in s.debates ==> BeginUpsert(d, s.debates[d]) in es
        ensures d in s.analyses ==> BeginAnalysis(d, s.analyses[d]) in es
      {
        RequestedStatus(before, e, d);
      }
      forall d | d in s.finals ensures RowFrom(es, d, s.finals[d]) && BeginFinal(d) in es {
        FinalsStepFrom(before, e, d);
      }
      forall i | 0 <= i < |s.votes| ensures VoteFrom(es, After(es).calls, s.votes[i]) {
        VotesStepFrom(before, e, i);
      }
      forall i | 0 <= i < |s.jobs| ensures JobFrom(es, s.jobs[i]) {
        JobsStepFrom(before, e, i);
      }
      Assembled(es);
    }
  }

  lemma Assembled(es: seq<Event>)
    requires var m := After(es);
             && (forall d :: d in m.s.debates ==> BeginUpsert(d, m.s.debates[d]) in es)
             && (forall d :: d in m.s.analyses ==> BeginAnalysis(d, m.s.analyses[d]) in es)
             && (forall d :: d in m.s.finals ==> RowFrom(es, d, m.s.finals[d]) && BeginFinal(d) in es)
             && (forall i :: 0 <= i < |m.s.votes| ==> VoteFrom(es, m.calls, m.s.votes[i]))
             && (forall i :: 0 <= i < |m.s.jobs| ==> JobFrom(es, m.s.jobs[i]))
    ensures TablesFrom(es)
  {
    hide RowFrom, VoteFrom, JobFrom, After;
  }

  // ----- what it means

  /**
   Every stored final score, in every interleaved run: its AI columns are the scores for FOR and
   for AGAINST of a completed analysis the debate had, which somebody submitted; its audience
   columns are the percentages of those who had voted FOR and AGAINST; and FOR wins if and only if
   these say so.
   */
  lemma FinalScoresHaveSources(es: seq<Event>, d: string)
    requires d in After(es).s.finals
    ensures var row := After(es).s.finals[d];
            && WasAnalysed(es, d, row.aiFor, row.aiAgainst)
            && BeginAnalysis(d, Analysis(COMPLETED, Some(row.aiFor), Some(row.aiAgainst))) in es
            && WasVoted(es, d, row.audienceFor, row.audienceAgainst)
            && BeginFinal(d) in es
            && (row.winner == Won(FOR) <==> LeadWins(row.aiFor + row.audienceFor, row.aiAgainst + row.audienceAgainst))
            && (row.winner == Won(AGAINST)
                <==> LeadWins(row.aiAgainst + row.audienceAgainst, row.aiFor + row.audienceFor))
  {
    hide *;
    FinalIsSourced(es, d);
    var row := After(es).s.finals[d];
    LeaderWins(row);
    AnalysisWasSubmitted(es, d, row.aiFor, row.aiAgainst);
  }

  lemma FinalIsSourced(es: seq<Event>, d: string)
    requires d in After(es).s.finals
    ensures var row := After(es).s.finals[d];
            RowOk(row) && BeginFinal(d) in es
            && WasAnalysed(es, d, row.aiFor, row.aiAgainst) && WasVoted(es, d, row.audienceFor, row.audienceAgainst)
  {
    AlwaysTablesFrom(es);
    AlwaysInv(es);
    hide After, RowOk, WasAnalysed, WasVoted;
  }

  lemma AnalysisWasSubmitted(es: seq<Event>, d: string, aiFor: int, aiAgainst: int)
    requires WasAnalysed(es, d, aiFor, aiAgainst)
    ensures BeginAnalysis(d, Analysis(COMPLETED, Some(aiFor), Some(aiAgainst))) in es
  {
    hide After;
    var n :| 0 <= n <= |es| && HasScores(After(es[..n]).s, d, aiFor, aiAgainst);
    AlwaysTablesFrom(es[..n]);
    hide VoteFrom, RowFrom, JobFrom;
    assert BeginAnalysis(d, Analysis(COMPLETED, Some(aiFor), Some(aiAgainst))) in es[..n];
  }

  lemma LeaderWins(row: FinalRow)
    requires RowOk(row)
    ensures row.winner == Won(FOR) <==> LeadWins(row.aiFor + row.audienceFor, row.aiAgainst + row.audienceAgainst)
    ensures row.winner == Won(AGAINST) <==> LeadWins(row.aiAgainst + row.audienceAgainst, row.aiFor + row.audienceFor)
  {
    WinnerByExactSums(row);
  }

  /** The sum of AI score and percentage is ahead by two, or by one over an even sum. */
  predicate LeadWins(mine: int, theirs: int) {
    mine >= theirs + 2 || (mine == theirs + 1 && theirs % 2 == 0)
  }

  /**
   Every stored vote holds the debate, the user and the side that its call was asked for; that call
   was not refused, and the debate had been RUNNING or VOTING. A call that answers Created has
   stored exactly that vote, and one that answers ALREADY_EXISTS leaves a vote of that user there.
   */
  lemma VotesHaveSources(es: seq<Event>, i: nat)
    requires i < |After(es).s.votes|
    ensures var v, calls := After(es).s.votes[i], After(es).calls;
            && v.id < |Requests(es)| && Requests(es)[v.id] == BeginVote(v.debate, v.user, v.side)
            && WasVotable(es, v.debate)
            && v.id < |calls| && calls[v.id] !in {VoteDone(v.debate, v.user, NotFound),
                                                  VoteDone(v.debate, v.user, FailedPrecondition),
                                                  VoteDone(v.debate, v.user, AlreadyExists)}
  {
    AlwaysTablesFrom(es);
    assert VoteFrom(es, After(es).calls, After(es).s.votes[i]);
  }

  lemma AnsweredVotesAreStored(es: seq<Event>, c: nat, d: string, u: string, outcome: Outcome)
    requires c < |After(es).calls| && After(es).calls[c] == VoteDone(d, u, outcome)
    ensures c < |Requests(es)| && Requests(es)[c].BeginVote? && Requests(es)[c].debate == d && Requests(es)[c].user == u
    ensures outcome == Created ==> Vote(c, d, u, Requests(es)[c].side) in After(es).s.votes
    ensures outcome == AlreadyExists ==> u in Voters(After(es).s.votes, d, FOR) + Voters(After(es).s.votes, d, AGAINST)
  {
    AlwaysCallsFrom(es);
    var votes := After(es).s.votes;
    assert Serves(es, votes, Requests(es)[c], c, After(es).calls[c]);
    if outcome == AlreadyExists {
      var i :| 0 <= i < |votes| && votes[i].debate == d && votes[i].user == u;
      assert votes[i].user in Voters(votes, d, votes[i].side);
    }
  }

  /** Statuses and analyses are what an upsert or a result asked for; a job is for a debate that was set to VOTING. */
  lemma TablesHaveSources(es: seq<Event>, d: string)
    ensures d in After(es).s.debates ==> BeginUpsert(d, After(es).s.debates[d]) in es
    ensures d in After(es).s.analyses ==> BeginAnalysis(d, After(es).s.analyses[d]) in es
    ensures "finalize:" + d in After(es).s.jobs ==> BeginUpsert(d, VOTING) in es
  {
    AlwaysTablesFrom(es);
    var id, jobs := "finalize:" + d, After(es).s.jobs;
    if id in jobs {
      var i :| 0 <= i < |jobs| && jobs[i] == id;
      assert JobFrom(es, jobs[i]);
      var d' :| BeginUpsert(d', VOTING) in es && id == "finalize:" + d';
      assert id[9..] == d && id[9..] == d';
    }
  }
}
