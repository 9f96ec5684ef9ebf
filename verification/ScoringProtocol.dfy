/**
 The scoring service with every call split at its awaits: votes, debate upserts, AI
 results and final scores of any debates overtaking each other.
 */
module ScoringProtocol {
  import opened Common
  import opened FinalScores
  import opened Percentages
  import opened ScoringStore

  datatype Outcome =
    | Created
    | Stored
    | NotFound
    | FailedPrecondition
    | AlreadyExists
    | StorageFailure

  datatype Call =
    // createVote: before findDebateById, findVoteByDebateAndUser, the insert, and its answer
    | VoteRead(debate: string, user: string, side: Side)
    | VoteCheck(debate: string, user: string, side: Side)
    | VoteInsert(debate: string, user: string, side: Side)
    | VoteAnswer(debate: string, user: string)
    | VoteDone(debate: string, user: string, outcome: Outcome)
    // upsertDebate: before findDebateById, the upsert, and the enqueue
    | DebateRead(debate: string, status: Status)
    | DebateWrite(debate: string, status: Status, previous: Option<Status>)
    | DebateEnqueue(debate: string)
    // storeAiAnalysisResult: before findDebateById and the upsert
    | AnalysisRead(debate: string, analysis: Analysis)
    | AnalysisWrite(debate: string, analysis: Analysis)
    // computeFinalDebateScore: before its three reads and the upsert
    | FinalRead(debate: string)
    | FinalAnalysis(debate: string)
    | FinalCount(debate: string, aiFor: int, aiAgainst: int)
    | FinalWrite(debate: string, row: FinalRow)
    | Done(outcome: Outcome)

  datatype Event =
    | BeginVote(debate: string, user: string, side: Side)
    | BeginUpsert(debate: string, status: Status)
    | BeginAnalysis(debate: string, analysis: Analysis)
    | BeginFinal(debate: string)
    /** The statement a call waits for completes. */
    | Advance(call: nat)
    /** The statement a call waits for fails, or the process stops before it completes. */
    | Fail(call: nat)

  /**
   `everVoting` and `dropped` only record history: the debates whose row has been
   VOTING, and those of which a call failed at its enqueue.
   */
  datatype Machine = Machine(s: Store, calls: seq<Call>, everVoting: set<string>, dropped: set<string>)

  const INIT := Machine(EMPTY_STORE, [], {}, {})

  function Begin(m: Machine, call: Call): Machine {
    m.(calls := m.calls + [call])
  }

  function Put(m: Machine, c: nat, call: Call): Machine
    requires c < |m.calls|
  {
    m.(calls := m.calls[c := call])
  }

  function Step(m: Machine, e: Event): Machine {
    match e
    case BeginVote(d, u, side) => Begin(m, VoteRead(d, u, side))
    case BeginUpsert(d, status) => Begin(m, DebateRead(d, status))
    case BeginAnalysis(d, a) => Begin(m, AnalysisRead(d, a))
    case BeginFinal(d) => Begin(m, FinalRead(d))
    case Advance(c) => if c < |m.calls| then Resume(m, c) else m
    case Fail(c) => if c < |m.calls| then Failed(m, c) else m
  }

  function Failed(m: Machine, c: nat): Machine
    requires c < |m.calls|
  {
    match m.calls[c]
    case Done(_) => m
    case VoteDone(_, _, _) => m
    case VoteRead(d, u, _) => Put(m, c, VoteDone(d, u, StorageFailure))
    case VoteCheck(d, u, _) => Put(m, c, VoteDone(d, u, StorageFailure))
    case VoteInsert(d, u, _) => Put(m, c, VoteDone(d, u, StorageFailure))
    case VoteAnswer(d, u) => Put(m, c, VoteDone(d, u, StorageFailure))
    case DebateEnqueue(d) => Put(m.(dropped := m.dropped + {d}), c, Done(StorageFailure))
    case _ => Put(m, c, Done(StorageFailure))
  }

  function Resume(m: Machine, c: nat): Machine
    requires c < |m.calls|
  {
    match m.calls[c]
    case VoteRead(d, u, side) => ResumeVote(m, c)
    case VoteCheck(d, u, side) => ResumeVote(m, c)
    case VoteInsert(d, u, side) => ResumeVote(m, c)
    case VoteAnswer(d, u) => ResumeVote(m, c)
    case DebateRead(d, status) => ResumeDebate(m, c)
    case DebateWrite(d, status, previous) => ResumeDebate(m, c)
    case DebateEnqueue(d) => ResumeDebate(m, c)
    case AnalysisRead(d, a) => if d !in m.s.debates then Put(m, c, Done(NotFound)) else Put(m, c, AnalysisWrite(d, a))
    case AnalysisWrite(d, a) =>
      if d in m.s.debates && AnalysisFits(a) then Put(m.(s := PutAnalysis(m.s, d, a)), c, Done(Stored))
      else Put(m, c, Done(StorageFailure))
    case FinalRead(d) => ResumeFinal(m, c)
    case FinalAnalysis(d) => ResumeFinal(m, c)
    case FinalCount(d, aiFor, aiAgainst) => ResumeFinal(m, c)
    case FinalWrite(d, row) => ResumeFinal(m, c)
    case VoteDone(_, _, _) => m
    case Done(_) => m
  }

  function ResumeVote(m: Machine, c: nat): Machine
    requires c < |m.calls|
  {
    match m.calls[c]
    case VoteRead(d, u, side) =>
      if d !in m.s.debates then Put(m, c, VoteDone(d, u, NotFound))
      else if !Votable(m.s.debates[d]) then Put(m, c, VoteDone(d, u, FailedPrecondition))
      else Put(m, c, VoteCheck(d, u, side))
    case VoteCheck(d, u, side) =>
      if HasVote(m.s.votes, d, u) then Put(m, c, VoteDone(d, u, AlreadyExists))
      else Put(m, c, VoteInsert(d, u, side))
    case VoteInsert(d, u, side) =>
      if HasVote(m.s.votes, d, u) then Put(m, c, VoteDone(d, u, AlreadyExists))
      else if d !in m.s.debates then Put(m, c, VoteDone(d, u, StorageFailure))
      else Put(m.(s := PutVote(m.s, Vote(c, d, u, side))), c, VoteAnswer(d, u))
    case VoteAnswer(d, u) => Put(m, c, VoteDone(d, u, Created))
    case _ => m
  }

  function ResumeDebate(m: Machine, c: nat): Machine
    requires c < |m.calls|
  {
    match m.calls[c]
    case DebateRead(d, status) =>
      Put(m, c, DebateWrite(d, status, if d in m.s.debates then Some(m.s.debates[d]) else None))
    case DebateWrite(d, status, previous) =>
      var m' := m.(s := PutDebate(m.s, d, status),
                   everVoting := if status == VOTING then m.everVoting + {d} else m.everVoting);
      if status == VOTING && previous != Some(VOTING) then Put(m', c, DebateEnqueue(d)) else Put(m', c, Done(Stored))
    case DebateEnqueue(d) => Put(m.(s := m.s.(jobs := AddJob(m.s.jobs, JobId(d)))), c, Done(Stored))
    case _ => m
  }

  function ResumeFinal(m: Machine, c: nat): Machine
    requires c < |m.calls|
  {
    match m.calls[c]
    case FinalRead(d) => if d !in m.s.debates then Put(m, c, Done(NotFound)) else Put(m, c, FinalAnalysis(d))
    case FinalAnalysis(d) =>
      if d !in m.s.analyses then Put(m, c, Done(FailedPrecondition))
      else
        var a := m.s.analyses[d];
        if a.status != COMPLETED || a.forScore.None? || a.againstScore.None?
        then Put(m, c, Done(FailedPrecondition))
        else Put(m, c, FinalCount(d, a.forScore.value, a.againstScore.value))
    case FinalCount(d, aiFor, aiAgainst) => Put(m, c, FinalWrite(d, ScoredRow(aiFor, aiAgainst, m.s.votes, d)))
    case FinalWrite(d, row) => Put(m.(s := PutFinal(m.s, d, row)), c, Done(Stored))
    case _ => m
  }

  // ----- what every step keeps

  /** Only the call that inserted a vote can report it as created. */
  ghost predicate CreatedBy(votes: seq<Vote>, c: nat, debate: string, user: string) {
    exists i :: 0 <= i < |votes| && votes[i].id == c && votes[i].debate == debate && votes[i].user == user
  }

  ghost predicate CallOk(m: Machine, c: nat, call: Call) {
    match call
    case VoteAnswer(d, u) => CreatedBy(m.s.votes, c, d, u)
    case VoteDone(d, u, outcome) => outcome == Created ==> CreatedBy(m.s.votes, c, d, u)
    case DebateWrite(d, _, previous) => previous == Some(VOTING) ==> d in m.everVoting
    case FinalCount(_, aiFor, aiAgainst) => InRange(aiFor) && InRange(aiAgainst)
    case FinalWrite(_, row) => RowOk(row)
    case _ => true
  }

  /** The job of `d` is in the queue, or some suspended call is bound to add it, or a call failed at adding it. */
  ghost predicate JobCared(m: Machine, d: string) {
    || JobId(d) in m.s.jobs
    || (exists c :: 0 <= c < |m.calls| && m.calls[c] == DebateEnqueue(d))
    || d in m.dropped
  }

  ghost predicate JobsUnique(jobs: seq<string>) {
    forall i, j :: 0 <= i < j < |jobs| ==> jobs[i] != jobs[j]
  }

  ghost predicate TablesOk(s: Store) {
    && UniqueVotes(s.votes)
    && JobsUnique(s.jobs)
    && (forall d :: d in s.analyses ==> AnalysisFits(s.analyses[d]))
    && (forall d :: d in s.finals ==> RowOk(s.finals[d]))
  }

  ghost predicate VotingOk(m: Machine) {
    && (forall d :: d in m.s.debates && m.s.debates[d] == VOTING ==> d in m.everVoting)
    && (forall d :: d in m.everVoting ==> JobCared(m, d))
  }

  ghost predicate Inv(m: Machine) {
    TablesOk(m.s) && VotingOk(m) && forall c :: 0 <= c < |m.calls| ==> CallOk(m, c, m.calls[c])
  }

  /** Votes and jobs are only ever appended, and history only grows. */
  ghost predicate Grows(m: Machine, m': Machine) {
    && m.s.votes <= m'.s.votes && m.s.jobs <= m'.s.jobs
    && m.everVoting <= m'.everVoting && m.dropped <= m'.dropped
    && |m.calls| <= |m'.calls|
  }
}
