/** How many jobs a room adds to the two queues, in every interleaved run. */
module RoomJobs {
  import opened Common
  import opened Machines
  import opened Sums
  import opened DebateStates
  import opened RoomStore
  import opened RoomProtocol
  import opened RoomProofs

  datatype Queue = REPLAY | FINALIZATION

  function JobsIn(w: World, q: Queue): seq<Job> {
    if q == REPLAY then w.replayJobs else w.finalizationJobs
  }

  predicate StillToAdd(call: Call, q: Queue)
    requires call.TransitionEnqueue?
  {
    if q == REPLAY then call.replay else call.finalization
  }

  /** One for a call that has moved room `r` to VOTING and has still to add its job to the queue. */
  function Owes(q: Queue, r: RoomId): Call -> int {
    (call: Call) =>
      if call.TransitionAfter? && call.room == r && call.to == VOTING then 1
      else if call.TransitionEnqueue? && call.room == r && StillToAdd(call, q) then 1
      else 0
  }

  function Owed(m: Machine, q: Queue, r: RoomId): int {
    Sum(m.calls, Owes(q, r))
  }

  function Votings(log: seq<Record>): nat {
    if log == [] then 0 else Votings(log[..|log| - 1]) + if log[|log| - 1].to == VOTING then 1 else 0
  }

  function LogOf(w: World, r: RoomId): seq<Record> {
    if r in w.rooms then w.rooms[r].log else []
  }

  predicate IsFailure(e: Event) {
    e.Fail? || e.FailReplayJob? || e.FailFinalizationJob? || e.Restart?
  }

  /** The jobs of room `r` that were still owed when a failure or a restart ended the call that owed them. */
  ghost function Lost(es: seq<Event>, q: Queue, r: RoomId): int {
    if es == [] then 0
    else
      var before := es[..|es| - 1];
      Lost(before, q, r)
      + if IsFailure(es[|es| - 1]) then Owed(After(before), q, r) - Owed(After(es), q, r) else 0
  }

  /** What the log of `r` calls for beyond the jobs that are there and the jobs that are owed. */
  function Missing(m: Machine, q: Queue, r: RoomId): int {
    Votings(LogOf(m.w, r)) - JobsFor(JobsIn(m.w, q), r) - Owed(m, q, r)
  }

  lemma {:induction false} OwedNotNegative(calls: seq<Call>, q: Queue, r: RoomId)
    ensures Sum(calls, Owes(q, r)) >= 0
  {
    if calls != [] {
      OwedNotNegative(calls[..|calls| - 1], q, r);
    }
  }

  lemma OneMoreVoting(log: seq<Record>, record: Record)
    ensures Votings(log + [record]) == Votings(log) + if record.to == VOTING then 1 else 0
  {
    assert (log + [record])[..|log|] == log;
  }

  // ----- one event

  /** A step of call `c` leaves nothing more missing if the log, the queue and the call's debt change together. */
  lemma CallMissing(m: Machine, m': Machine, c: nat, q: Queue, r: RoomId)
    requires c < |m.calls| && |m'.calls| == |m.calls| && m'.calls == m.calls[c := m'.calls[c]]
    requires Votings(LogOf(m'.w, r)) - JobsFor(JobsIn(m'.w, q), r) - Owes(q, r)(m'.calls[c])
             == Votings(LogOf(m.w, r)) - JobsFor(JobsIn(m.w, q), r) - Owes(q, r)(m.calls[c])
    ensures Missing(m', q, r) == Missing(m, q, r)
  {
    SumUpdate(m.calls, c, m'.calls[c], Owes(q, r));
  }

  lemma TransitionMissing(m: Machine, c: nat, q: Queue, r: RoomId)
    requires CallsOk(m) && c < |m.calls|
    requires m.calls[c].TransitionRead? || m.calls[c].TransitionWrite? || m.calls[c].TransitionAfter?
    ensures Missing(ResumeTransition(m, c), q, r) == Missing(m, q, r)
  {
    assert CallOk(m.w.rooms, c, m.calls[c]);
    if m.calls[c].TransitionWrite? {
      OneMoreVoting(LogOf(m.w, r), Record(m.calls[c].from, m.calls[c].to));
    }
    CallMissing(m, ResumeTransition(m, c), c, q, r);
  }

  lemma JoinMissing(m: Machine, c: nat, q: Queue, r: RoomId)
    requires c < |m.calls| && (m.calls[c].JoinRead? || m.calls[c].JoinPeople? || m.calls[c].JoinInsert?)
    ensures Missing(ResumeJoin(m, c), q, r) == Missing(m, q, r)
  {
    hide Missing;
    CallMissing(m, ResumeJoin(m, c), c, q, r);
  }

  lemma SendMissing(m: Machine, c: nat, q: Queue, r: RoomId)
    requires c < |m.calls| && (m.calls[c].SendRead? || m.calls[c].SendPeople? || m.calls[c].SendWrite?)
    ensures Missing(ResumeSend(m, c), q, r) == Missing(m, q, r)
  {
    hide Missing;
    CallMissing(m, ResumeSend(m, c), c, q, r);
  }

  lemma ArmingMissing(m: Machine, c: nat, picked: Option<nat>, q: Queue, r: RoomId)
    requires c < |m.calls|
    requires m.calls[c].JoinInserted? || m.calls[c].JoinPick? || m.calls[c].JoinQuestion? || m.calls[c].JoinArm?
    ensures Missing(ResumeArming(m, c, picked), q, r) == Missing(m, q, r)
  {
    hide Missing;
    CallMissing(m, ResumeArming(m, c, picked), c, q, r);
  }

  lemma ResumeMissing(m: Machine, c: nat, picked: Option<nat>, q: Queue, r: RoomId)
    requires CallsOk(m) && c < |m.calls|
    ensures Missing(Resume(m, c, picked), q, r) == Missing(m, q, r)
  {
    hide CallsOk, Missing, ResumeTransition, ResumeArming, ResumeJoin, ResumeSend;
    var call := m.calls[c];
    if call.TransitionRead? || call.TransitionWrite? || call.TransitionAfter? {
      TransitionMissing(m, c, q, r);
    } else if call.JoinRead? || call.JoinPeople? || call.JoinInsert? {
      JoinMissing(m, c, q, r);
    } else if call.SendRead? || call.SendPeople? || call.SendWrite? {
      SendMissing(m, c, q, r);
    } else if call.JoinInserted? || call.JoinPick? || call.JoinQuestion? || call.JoinArm? {
      ArmingMissing(m, c, picked, q, r);
    }
  }

  lemma AddMissing(m: Machine, c: nat, q: Queue, r: RoomId)
    requires c < |m.calls| && m.calls[c].TransitionEnqueue?
    ensures m.calls[c].replay ==> Missing(AddReplay(m, c), q, r) == Missing(m, q, r)
    ensures m.calls[c].finalization ==> Missing(AddFinalization(m, c), q, r) == Missing(m, q, r)
  {
    hide Missing;
    OneMoreJob(m.w.replayJobs, Job(m.calls[c].debateId, m.calls[c].room));
    OneMoreJob(m.w.finalizationJobs, Job(m.calls[c].debateId, m.calls[c].room));
    if m.calls[c].replay {
      CallMissing(m, AddReplay(m, c), c, q, r);
    }
    if m.calls[c].finalization {
      CallMissing(m, AddFinalization(m, c), c, q, r);
    }
  }

  lemma BeginMissing(m: Machine, call: Call, q: Queue, r: RoomId)
    requires Owes(q, r)(call) == 0
    ensures Missing(Begin(m, call), q, r) == Missing(m, q, r)
  {
    SumSnoc(m.calls, call, Owes(q, r));
  }

  lemma StepMissing(m: Machine, e: Event, q: Queue, r: RoomId)
    requires CallsOk(m) && !IsFailure(e)
    ensures Missing(Step(m, e), q, r) == Missing(m, q, r)
  {
    hide CallsOk, Missing, Resume;
    match e
    case CreateRoom(p, d) => CreateMissing(m, p, d, q, r);
    case BeginTransition(p, to) => BeginMissing(m, TransitionRead(p, to), q, r);
    case BeginJoin(p, u) => BeginMissing(m, JoinRead(p, u), q, r);
    case BeginSend(p, u, text) => BeginMissing(m, SendRead(p, u, text), q, r);
    case Advance(c, picked) => if c < |m.calls| { ResumeMissing(m, c, picked, q, r); }
    case AddReplayJob(c) => if c < |m.calls| && m.calls[c].TransitionEnqueue? { AddMissing(m, c, q, r); }
    case AddFinalizationJob(c) => if c < |m.calls| && m.calls[c].TransitionEnqueue? { AddMissing(m, c, q, r); }
    case Fire(t) => if t in m.w.timers.pending { FireMissing(m, t, q, r); }
  }

  lemma CreateMissing(m: Machine, p: RoomId, d: string, q: Queue, r: RoomId)
    ensures Missing(Step(m, CreateRoom(p, d)), q, r) == Missing(m, q, r)
  {
  }

  lemma FireMissing(m: Machine, t: nat, q: Queue, r: RoomId)
    requires t in m.w.timers.pending
    ensures Missing(FireTimer(m, t), q, r) == Missing(m, q, r)
  {
    SumSnoc(m.calls, FireTimer(m, t).calls[|m.calls|], Owes(q, r));
  }

  /** A failure touches neither log nor queue and can only end debts. */
  lemma FailureLoses(m: Machine, e: Event, q: Queue, r: RoomId)
    requires IsFailure(e)
    ensures LogOf(Step(m, e).w, r) == LogOf(m.w, r) && JobsIn(Step(m, e).w, q) == JobsIn(m.w, q)
    ensures Owed(Step(m, e), q, r) <= Owed(m, q, r)
  {
    var m' := Step(m, e);
    if e.Restart? {
      SumZero(m'.calls, Owes(q, r));
      OwedNotNegative(m.calls, q, r);
    } else if m' != m {
      SumUpdate(m.calls, e.call, m'.calls[e.call], Owes(q, r));
    }
  }

  // ----- whole runs

  /**
   In every run, each transition of a room to VOTING has put its job into each queue, still
   owes it, or has lost it to a failure or a restart; there are no other jobs of the room.
   */
  lemma {:induction false} EveryVotingIsAccountedFor(es: seq<Event>, q: Queue, r: RoomId)
    ensures Votings(LogOf(After(es).w, r))
            == JobsFor(JobsIn(After(es).w, q), r) + Owed(After(es), q, r) + Lost(es, q, r)
    ensures Owed(After(es), q, r) >= 0 && Lost(es, q, r) >= 0
  {
    OwedNotNegative(After(es).calls, q, r);
    if es != [] {
      var n := |es| - 1;
      var m := After(es[..n]);
      EveryVotingIsAccountedFor(es[..n], q, r);
      if IsFailure(es[n]) {
        FailureLoses(m, es[n], q, r);
      } else {
        AlwaysInv(es[..n]);
        StepMissing(m, es[n], q, r);
      }
    }
  }

  lemma {:induction false} NothingLost(es: seq<Event>, q: Queue, r: RoomId)
    requires forall e :: e in es ==> !IsFailure(e)
    ensures Lost(es, q, r) == 0
  {
    if es != [] {
      assert es[|es| - 1] in es;
      NothingLost(es[..|es| - 1], q, r);
    }
  }

  lemma VotingsOfPath(log: seq<Record>)
    requires CausallyClosed(log) && IsPath(log)
    ensures Votings(log) == if StateAfter(log) == VOTING || StateAfter(log) == CLOSED then 1 else 0
  {
    PathIsPrefix(log);
    assert log == FULL_PATH[..|log|];
    OneMoreVoting([], FULL_PATH[0]);
    OneMoreVoting(FULL_PATH[..1], FULL_PATH[1]);
    OneMoreVoting(FULL_PATH[..2], FULL_PATH[2]);
    assert FULL_PATH[..1] == [] + [FULL_PATH[0]] && FULL_PATH[..2] == FULL_PATH[..1] + [FULL_PATH[1]]
           && FULL_PATH[..3] == FULL_PATH[..2] + [FULL_PATH[2]];
  }

  /**
   A room never has more jobs in a queue than commits to VOTING, so at most one while its
   history is a single path. Without failures there are exactly as many once no call owes any.
   */
  lemma JobsAreVotings(es: seq<Event>, q: Queue, r: RoomId)
    requires r in After(es).w.rooms
    ensures var m := After(es);
            var jobs, votings := JobsFor(JobsIn(m.w, q), r), Votings(m.w.rooms[r].log);
            && jobs <= votings
            && (jobs == votings <==> Owed(m, q, r) == 0 && Lost(es, q, r) == 0)
            && ((forall e :: e in es ==> !IsFailure(e)) && Owed(m, q, r) == 0 ==> jobs == votings)
            && (IsPath(m.w.rooms[r].log) ==> jobs <= 1)
  {
    EveryVotingIsAccountedFor(es, q, r);
    if forall e :: e in es ==> !IsFailure(e) {
      NothingLost(es, q, r);
    }
    AlwaysInv(es);
    assert RoomOk(After(es).w.rooms[r]);
    if IsPath(After(es).w.rooms[r].log) {
      VotingsOfPath(After(es).w.rooms[r].log);
    }
  }

  /** Still adding after a failed add, or ended without success. */
  predicate EndsInFailure(call: Call) {
    (call.TransitionEnqueue? && call.failed) || call == Done(StorageFailure) || call == Done(Outcome.Lost)
  }

  lemma FailureStays(m: Machine, e: Event, c: nat)
    requires c < |m.calls| && EndsInFailure(m.calls[c])
    ensures c < |Step(m, e).calls| && EndsInFailure(Step(m, e).calls[c])
  {
    hide TimersAfter, Expire, SideOf, TakesSide, IsValidTransition;
  }

  /** A transition to VOTING of which one add has failed never answers that it went through. */
  lemma {:induction false} FailedAddFailsTheCall(es: seq<Event>, e: Event, fs: seq<Event>, c: nat)
    requires c < |After(es).calls| && After(es).calls[c].TransitionEnqueue?
    requires (e == FailReplayJob(c) && After(es).calls[c].replay)
             || (e == FailFinalizationJob(c) && After(es).calls[c].finalization)
    ensures c < |After(es + [e] + fs).calls| && EndsInFailure(After(es + [e] + fs).calls[c])
  {
    if fs == [] {
      assert es + [e] + fs == es + [e];
      RunSnoc(Step, INIT, es, e);
    } else {
      var n := |fs| - 1;
      FailedAddFailsTheCall(es, e, fs[..n], c);
      assert es + [e] + fs == (es + [e] + fs[..n]) + [fs[n]];
      RunSnoc(Step, INIT, es + [e] + fs[..n], fs[n]);
      FailureStays(After(es + [e] + fs[..n]), fs[n], c);
    }
  }
}
