/** A RUNNING room is on its way to VOTING, in every interleaved run without failures that nobody overtook. */
module RoomTimers {
  import opened Common
  import opened Machines
  import opened DebateStates
  import opened RoomStore
  import opened RoomProtocol
  import opened RoomProofs
  import opened RoomJobs

  /** The maps of the service only name timeouts of their own room and kind, if they are still pending at all. */
  ghost predicate TimerIdsOk(t: Timers) {
    && (forall id :: id in t.pending ==> id < t.next)
    && (forall r :: r in t.debate ==>
          t.debate[r] < t.next && (t.debate[r] in t.pending ==> t.pending[t.debate[r]] == DebateTimer(r)))
    && (forall r :: r in t.prep ==>
          t.prep[r] < t.next && (t.prep[r] in t.pending ==> t.pending[t.prep[r]] == PrepTimer(r)))
  }

  /** A call past its commit has entered the state it committed. */
  ghost predicate CommitsEntered(m: Machine) {
    forall c :: 0 <= c < |m.calls| && m.calls[c].TransitionAfter? ==>
      m.calls[c].room in m.w.rooms && Entered(m.w.rooms[m.calls[c].room].log, m.calls[c].to)
  }

  /** The call will schedule the debate timer of room `r`, or is already taking the room to VOTING. */
  predicate BoundForVoting(call: Call, r: RoomId) {
    || (call.TransitionAfter? && call.room == r && call.to == RUNNING)
    || call == TransitionRead(r, VOTING)
    || call == TransitionWrite(r, RUNNING, VOTING)
  }

  ghost predicate OnItsWay(m: Machine, r: RoomId) {
    || (exists id :: id in m.w.timers.pending && m.w.timers.pending[id] == DebateTimer(r))
    || (exists c :: 0 <= c < |m.calls| && BoundForVoting(m.calls[c], r))
  }

  ghost predicate RunsOnPath(m: Machine, r: RoomId) {
    r in m.w.rooms && m.w.rooms[r].state == RUNNING && r !in m.stale
  }

  ghost predicate TimersInv(m: Machine, r: RoomId) {
    TimerIdsOk(m.w.timers) && CommitsEntered(m) && (RunsOnPath(m, r) ==> OnItsWay(m, r))
  }

  // ----- timers

  lemma IdsAfterTransition(t: Timers, r: RoomId, to: DebateState)
    requires TimerIdsOk(t)
    ensures TimerIdsOk(TimersAfter(t, r, to)) && TimerIdsOk(SchedulePrep(t, r))
  {
  }

  lemma IdsAfterExpiry(t: Timers, id: nat)
    requires TimerIdsOk(t) && id in t.pending
    ensures TimerIdsOk(Expire(t, id))
  {
  }

  /** What happens to a debate timeout of `r`: only a later state of the same room clears it. */
  lemma DebateTimerStays(t: Timers, q: RoomId, to: DebateState, r: RoomId, id: nat)
    requires TimerIdsOk(t) && id in t.pending && t.pending[id] == DebateTimer(r)
    requires q == r ==> to == PREPARATION || to == RUNNING
    ensures id in TimersAfter(t, q, to).pending && TimersAfter(t, q, to).pending[id] == DebateTimer(r)
    ensures id in SchedulePrep(t, q).pending && SchedulePrep(t, q).pending[id] == DebateTimer(r)
  {
  }

  // ----- one event

  lemma EnteredStays(a: Room, b: Room, s: DebateState)
    requires RoomGrows(a, b) && Entered(a.log, s)
    ensures Entered(b.log, s)
  {
    EnteredGrows(a.log, b.log, s);
  }

  lemma CommitsEnteredStays(m: Machine, e: Event)
    requires Inv(m) && CommitsEntered(m)
    ensures CommitsEntered(Step(m, e))
  {
    StepKeeps(m, e);
    var m' := Step(m, e);
    forall c | 0 <= c < |m'.calls| && m'.calls[c].TransitionAfter?
      ensures m'.calls[c].room in m'.w.rooms && Entered(m'.w.rooms[m'.calls[c].room].log, m'.calls[c].to)
    {
      NewAfter(m, e, c);
      if c < |m.calls| && m.calls[c] == m'.calls[c] {
        EnteredStays(m.w.rooms[m.calls[c].room], m'.w.rooms[m.calls[c].room], m.calls[c].to);
      } else {
        var r := m.calls[c].room;
        var log := m.w.rooms[r].log;
        assert m'.w.rooms[r].log[|log|].to == m'.calls[c].to;
      }
    }
  }

  /** A call gets past its commit only by committing. */
  lemma NewAfter(m: Machine, e: Event, c: nat)
    requires Inv(m) && c < |Step(m, e).calls| && Step(m, e).calls[c].TransitionAfter?
    ensures c < |m.calls|
    ensures m.calls[c] == Step(m, e).calls[c]
            || (e.Advance? && e.call == c && m.calls[c].TransitionWrite? && m.calls[c].room in m.w.rooms
                && Step(m, e).calls[c].room == m.calls[c].room && Step(m, e).calls[c].to == m.calls[c].to
                && m.calls[c].room in Step(m, e).w.rooms
                && Step(m, e).w.rooms[m.calls[c].room].log
                   == m.w.rooms[m.calls[c].room].log + [Record(m.calls[c].from, m.calls[c].to)])
  {
    hide Resume;
    if e.Advance? && e.call < |m.calls| {
      assert CallOk(m.w.rooms, e.call, m.calls[e.call]);
      NewAfterResume(m, e.call, e.picked, c);
    }
  }

  lemma NewAfterResume(m: Machine, i: nat, picked: Option<nat>, c: nat)
    requires i < |m.calls| && CallOk(m.w.rooms, i, m.calls[i])
    requires c < |Resume(m, i, picked).calls| && Resume(m, i, picked).calls[c].TransitionAfter?
    ensures var m' := Resume(m, i, picked);
            c < |m.calls|
            && (m.calls[c] == m'.calls[c]
                || (i == c && m.calls[c].TransitionWrite? && m.calls[c].room in m.w.rooms
                    && m'.calls[c].room == m.calls[c].room && m'.calls[c].to == m.calls[c].to
                    && m.calls[c].room in m'.w.rooms
                    && m'.w.rooms[m.calls[c].room].log
                       == m.w.rooms[m.calls[c].room].log + [Record(m.calls[c].from, m.calls[c].to)]))
  {
  }

  lemma IdsAfterStep(m: Machine, e: Event)
    requires TimerIdsOk(m.w.timers)
    ensures TimerIdsOk(Step(m, e).w.timers)
  {
    hide Resume, Expire;
    match e
    case Advance(c, picked) => if c < |m.calls| { IdsAfterResume(m, c, picked); }
    case Fire(t) => if t in m.w.timers.pending { IdsAfterExpiry(m.w.timers, t); }
    case _ =>
  }

  lemma IdsAfterResume(m: Machine, c: nat, picked: Option<nat>)
    requires TimerIdsOk(m.w.timers) && c < |m.calls|
    ensures TimerIdsOk(Resume(m, c, picked).w.timers)
  {
    hide Resume, TimerIdsOk, TimersAfter, SchedulePrep;
    TimersAfterResume(m, c, picked);
    if m.calls[c].TransitionAfter? {
      IdsAfterTransition(m.w.timers, m.calls[c].room, m.calls[c].to);
    } else if m.calls[c].JoinPick? || m.calls[c].JoinArm? {
      IdsAfterTransition(m.w.timers, m.calls[c].room, PREPARATION);
    }
  }

  lemma TimersAfterResume(m: Machine, c: nat, picked: Option<nat>)
    requires c < |m.calls|
    ensures var t, t', call := m.w.timers, Resume(m, c, picked).w.timers, m.calls[c];
            t' == t || (call.TransitionAfter? && t' == TimersAfter(t, call.room, call.to))
            || ((call.JoinPick? || call.JoinArm?) && t' == SchedulePrep(t, call.room))
  {
    hide TimersAfter, SchedulePrep;
  }

  /** A room on its path that runs has not entered VOTING, so nobody past a commit clears its timer. */
  lemma NobodyClears(m: Machine, c: nat, r: RoomId)
    requires Inv(m) && CommitsEntered(m) && RunsOnPath(m, r)
    requires c < |m.calls| && m.calls[c].TransitionAfter? && m.calls[c].room == r
    ensures m.calls[c].to == PREPARATION || m.calls[c].to == RUNNING
  {
    var log := m.w.rooms[r].log;
    assert RoomOk(m.w.rooms[r]) && IsPath(log) && Entered(log, m.calls[c].to);
    PathIsPrefix(log);
    hide Inv, RoomOk, CausallyClosed, IsPath;
    assert log == FULL_PATH[..1];
  }

  lemma PendingStays(m: Machine, e: Event, r: RoomId, id: nat)
    requires Inv(m) && TimersInv(m, r) && RunsOnPath(m, r) && !IsFailure(e)
    requires id in m.w.timers.pending && m.w.timers.pending[id] == DebateTimer(r)
    ensures OnItsWay(Step(m, e), r)
  {
    var m' := Step(m, e);
    if e == Fire(id) {
      assert BoundForVoting(m'.calls[|m.calls|], r);
    } else if e.Advance? && e.call < |m.calls| {
      if m.calls[e.call].TransitionAfter? {
        if m.calls[e.call].room == r {
          NobodyClears(m, e.call, r);
        }
        DebateTimerStays(m.w.timers, m.calls[e.call].room, m.calls[e.call].to, r, id);
      } else {
        ArmingKeepsPending(m, e.call, e.picked, r, id);
      }
      assert id in m'.w.timers.pending && m'.w.timers.pending[id] == DebateTimer(r);
    } else if e.Fire? && e.timer in m.w.timers.pending {
      assert id in m'.w.timers.pending && m'.w.timers.pending[id] == DebateTimer(r);
    } else {
      assert id in m'.w.timers.pending && m'.w.timers.pending[id] == DebateTimer(r);
    }
  }

  lemma ArmingKeepsPending(m: Machine, c: nat, picked: Option<nat>, r: RoomId, id: nat)
    requires TimerIdsOk(m.w.timers) && c < |m.calls| && !m.calls[c].TransitionAfter?
    requires id in m.w.timers.pending && m.w.timers.pending[id] == DebateTimer(r)
    ensures id in Resume(m, c, picked).w.timers.pending && Resume(m, c, picked).w.timers.pending[id] == DebateTimer(r)
  {
  }

  lemma BoundStays(m: Machine, e: Event, r: RoomId, c: nat)
    requires Inv(m) && RunsOnPath(m, r) && !IsFailure(e) && RunsOnPath(Step(m, e), r)
    requires c < |m.calls| && BoundForVoting(m.calls[c], r)
    ensures OnItsWay(Step(m, e), r)
  {
    var m' := Step(m, e);
    if e.Advance? && e.call == c {
      if m.calls[c].TransitionAfter? {
        assert m'.w.timers.pending[m.w.timers.next] == DebateTimer(r);
      } else {
        assert CallOk(m.w.rooms, c, m.calls[c]);
        assert BoundForVoting(m'.calls[c], r);
      }
    } else {
      SameCall(m, e, c, r);
      assert BoundForVoting(m'.calls[c], r);
    }
  }

  /** An event other than a failure moves only its own call. */
  lemma SameCall(m: Machine, e: Event, c: nat, r: RoomId)
    requires !IsFailure(e) && c < |m.calls| && BoundForVoting(m.calls[c], r) && !(e.Advance? && e.call == c)
    ensures c < |Step(m, e).calls| && Step(m, e).calls[c] == m.calls[c]
  {
  }

  /** Only a commit changes the state of a room or the rooms that are stale. */
  lemma OthersKeepState(m: Machine, c: nat, picked: Option<nat>, r: RoomId)
    requires c < |m.calls| && !(m.calls[c].TransitionWrite? && m.calls[c].room == r)
    ensures RunsOnPath(Resume(m, c, picked), r) ==> RunsOnPath(m, r)
  {
    hide TimersAfter;
  }

  lemma StartsBound(m: Machine, e: Event, r: RoomId)
    requires Inv(m) && !RunsOnPath(m, r) && RunsOnPath(Step(m, e), r)
    ensures OnItsWay(Step(m, e), r)
  {
    var m' := Step(m, e);
    if e.Advance? && e.call < |m.calls| {
      if m.calls[e.call].TransitionWrite? && m.calls[e.call].room == r {
        assert CallOk(m.w.rooms, e.call, m.calls[e.call]);
        assert BoundForVoting(m'.calls[e.call], r);
      } else {
        OthersKeepState(m, e.call, e.picked, r);
      }
    } else {
      hide Resume;
    }
  }

  lemma StepOnItsWay(m: Machine, e: Event, r: RoomId)
    requires Inv(m) && TimersInv(m, r) && !IsFailure(e)
    ensures TimersInv(Step(m, e), r)
  {
    IdsAfterStep(m, e);
    CommitsEnteredStays(m, e);
    if RunsOnPath(Step(m, e), r) {
      if !RunsOnPath(m, r) {
        StartsBound(m, e, r);
      } else if exists id :: id in m.w.timers.pending && m.w.timers.pending[id] == DebateTimer(r) {
        var id :| id in m.w.timers.pending && m.w.timers.pending[id] == DebateTimer(r);
        PendingStays(m, e, r, id);
      } else {
        var c :| 0 <= c < |m.calls| && BoundForVoting(m.calls[c], r);
        BoundStays(m, e, r, c);
      }
    }
    hide Step, Inv, TimerIdsOk, CommitsEntered, OnItsWay, RunsOnPath;
  }

  // ----- whole runs

  lemma {:induction false} AlwaysOnItsWay(es: seq<Event>, r: RoomId)
    requires forall e :: e in es ==> !IsFailure(e)
    ensures TimersInv(After(es), r)
  {
    if es == [] {
      assert After([]) == INIT;
    } else {
      var before, e := es[..|es| - 1], es[|es| - 1];
      assert es == before + [e] && e in es;
      AlwaysOnItsWay(before, r);
      AlwaysInv(before);
      RunSnoc(Step, INIT, before, e);
      StepOnItsWay(After(before), e, r);
    }
  }

  /**
   In every run without failures and restarts, a RUNNING room whose history is a single path
   has a debate timeout pending, or a call that will schedule one or is taking it to VOTING.
   */
  lemma RunningRoomIsOnItsWay(es: seq<Event>, r: RoomId)
    requires forall e :: e in es ==> !IsFailure(e)
    requires r in After(es).w.rooms && After(es).w.rooms[r].state == RUNNING && IsPath(After(es).w.rooms[r].log)
    ensures OnItsWay(After(es), r)
  {
    AlwaysOnItsWay(es, r);
    SinglePathIffNeverStale(es, r);
  }
}
