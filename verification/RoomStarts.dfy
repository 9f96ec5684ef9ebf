/**
 The prep timeout of a room: when it is pending in serial runs, that a run schedules at most one,
 and that without failures a full room in PREPARATION is on its way to RUNNING.
 */
module RoomStarts {
  import opened Common
  import opened Machines
  import opened DebateStates
  import opened RoomStore
  import opened RoomProtocol
  import opened RoomProofs
  import opened RoomSerial
  import opened RoomFullness
  import opened RoomJobs
  import opened RoomTimers

  // ----- serial runs

  /** Full rooms in PREPARATION have their entry in the map of prep timers, closed rooms have none. */
  ghost predicate PrepOk(w: World) {
    forall r :: r in w.rooms ==> PrepRoomOk(w, r)
  }

  ghost predicate PrepRoomOk(w: World, r: RoomId)
    requires r in w.rooms
  {
    && (w.rooms[r].state == PREPARATION && |w.rooms[r].participants| >= 2 ==> r in w.timers.prep)
    && (w.rooms[r].state == CLOSED ==> r !in w.timers.prep)
  }

  lemma TransitionPrepOk(w: World, q: RoomId, to: DebateState, r: RoomId)
    requires r in w.rooms && (PrepRoomOk(w, r) || (q == r && to == RUNNING && w.rooms[r].state != CLOSED))
    ensures r in SerialTransition(w, q, to).0.rooms
    ensures PrepRoomOk(SerialTransition(w, q, to).0, r)
  {
  }

  lemma JoinPrepOk(w: World, id: nat, q: RoomId, user: string, picked: Option<nat>, r: RoomId)
    requires r in w.rooms && PrepRoomOk(w, r)
    ensures r in SerialJoin(w, id, q, user, picked).0.rooms
    ensures PrepRoomOk(SerialJoin(w, id, q, user, picked).0, r)
  {
  }

  lemma FirePrepOk(w: World, t: nat, r: RoomId)
    requires SerialOk(w) && t in w.timers.pending && r in w.rooms && PrepRoomOk(w, r)
    ensures r in SerialFire(w, t).0.rooms && PrepRoomOk(SerialFire(w, t).0, r)
  {
    var w' := w.(timers := Expire(w.timers, t));
    match w.timers.pending[t]
    case PrepTimer(q) => TransitionPrepOk(w', q, RUNNING, r);
    case DebateTimer(q) => TransitionPrepOk(w', q, VOTING, r);
  }

  lemma PerformPrepOk(s: Serial, op: Operation)
    requires SerialOk(s.w) && PrepOk(s.w)
    ensures PrepOk(Perform(s, op).w)
  {
    hide SerialTransition, SerialJoin, SerialFire;
    forall r | r in Perform(s, op).w.rooms ensures PrepRoomOk(Perform(s, op).w, r) {
      if r in s.w.rooms {
        assert PrepRoomOk(s.w, r);
        match op {
          case Create(_, _) =>
          case Transition(q, to) => TransitionPrepOk(s.w, q, to, r);
          case Join(q, u, picked) => JoinPrepOk(s.w, s.calls, q, u, picked, r);
          case Send(_, _, _) =>
          case TimerFires(t) => if t in s.w.timers.pending { FirePrepOk(s.w, t, r); }
        }
      } else {
        SameRooms(s, op, r);
        assert NothingFor(s.w, r);
      }
    }
  }

  lemma SameRooms(s: Serial, op: Operation, r: RoomId)
    requires r !in s.w.rooms && r in Perform(s, op).w.rooms
    ensures op.Create? && Perform(s, op).w == WithRoom(s.w, r, NewRoom(op.debateId))
  {
  }

  lemma {:induction false} AlwaysPrepOk(ops: seq<Operation>)
    ensures PrepOk(AfterAll(ops).w)
  {
    if ops != [] {
      AlwaysPrepOk(ops[..|ops| - 1]);
      AlwaysSerialOk(ops[..|ops| - 1]);
      PerformPrepOk(AfterAll(ops[..|ops| - 1]), ops[|ops| - 1]);
    }
  }

  ghost predicate Pending(t: Timers, timer: Timer) {
    exists id :: id in t.pending && t.pending[id] == timer
  }

  /**
   In every serial run: a room in PREPARATION has both players if and only if a timeout that
   will start it is pending, and a CLOSED room has no timeout of either kind.
   */
  lemma SerialTimeouts(ops: seq<Operation>, r: RoomId)
    requires r in AfterAll(ops).w.rooms
    ensures var room, t := AfterAll(ops).w.rooms[r], AfterAll(ops).w.timers;
            && (room.state == PREPARATION ==> (|room.participants| == 2 <==> Pending(t, PrepTimer(r))))
            && (room.state == CLOSED ==> !Pending(t, PrepTimer(r)) && !Pending(t, DebateTimer(r)))
  {
    AlwaysSerialOk(ops);
    AlwaysPrepOk(ops);
    SerialSeats(ops, r);
    var w := AfterAll(ops).w;
    assert LifeOk(w, r) && PrepRoomOk(w, r);
    assert r in w.timers.prep ==> w.timers.prep[r] in w.timers.pending;
  }

  // ----- interleaved runs: at most one prep timeout

  /** Every pending prep timeout was scheduled by an arming of its room, and there is one per room. */
  ghost predicate PrepsArmed(m: Machine) {
    && (forall id :: id in m.w.timers.pending && m.w.timers.pending[id].PrepTimer?
                     ==> IsArmed(m.arms, m.w.timers.pending[id].room))
    && (forall a, b :: a in m.w.timers.pending && b in m.w.timers.pending
                       && m.w.timers.pending[a].PrepTimer? && m.w.timers.pending[a] == m.w.timers.pending[b]
                       ==> a == b)
  }

  ghost predicate IsArmed(arms: seq<Arm>, r: RoomId) {
    exists i :: 0 <= i < |arms| && arms[i].room == r
  }

  /** How an event can change the timeouts and the armings: it removes timeouts or adds one. */
  lemma PrepTimeoutsOfStep(m: Machine, e: Event, id: nat, r: RoomId)
    requires id in Step(m, e).w.timers.pending && Step(m, e).w.timers.pending[id] == PrepTimer(r)
    ensures (id in m.w.timers.pending && m.w.timers.pending[id] == PrepTimer(r))
            || (id == m.w.timers.next && exists c :: Step(m, e).arms == m.arms + [Arm(r, c)])
  {
    hide Expire;
    match e
    case Advance(c, picked) => if c < |m.calls| { PrepTimeoutsOfResume(m, c, picked, id, r); }
    case Fire(t) => if t in m.w.timers.pending { PrepTimeoutsOfExpiry(m.w.timers, t, id); }
    case _ =>
  }

  lemma PrepTimeoutsOfExpiry(t: Timers, fired: nat, id: nat)
    requires fired in t.pending && id in Expire(t, fired).pending
    ensures id in t.pending && Expire(t, fired).pending[id] == t.pending[id]
  {
  }

  lemma PrepTimeoutsOfResume(m: Machine, c: nat, picked: Option<nat>, id: nat, r: RoomId)
    requires c < |m.calls|
    requires var m' := Resume(m, c, picked); id in m'.w.timers.pending && m'.w.timers.pending[id] == PrepTimer(r)
    ensures (id in m.w.timers.pending && m.w.timers.pending[id] == PrepTimer(r))
            || (id == m.w.timers.next && Resume(m, c, picked).arms == m.arms + [Arm(r, c)])
  {
    hide SideOf, TakesSide, IsValidTransition;
  }

  lemma ArmsGrow(m: Machine, e: Event)
    ensures m.arms <= Step(m, e).arms
  {
  }

  lemma StepPrepsArmed(m: Machine, e: Event)
    requires Inv(m) && PrepsArmed(m)
    ensures PrepsArmed(Step(m, e))
  {
    var m' := Step(m, e);
    StepKeeps(m, e);
    ArmsGrow(m, e);
    hide Step;
    forall id | id in m'.w.timers.pending && m'.w.timers.pending[id].PrepTimer?
      ensures IsArmed(m'.arms, m'.w.timers.pending[id].room)
    {
      var r := m'.w.timers.pending[id].room;
      PrepTimeoutsOfStep(m, e, id, r);
      if id in m.w.timers.pending && m.w.timers.pending[id] == PrepTimer(r) {
        var i :| 0 <= i < |m.arms| && m.arms[i].room == r;
        assert m'.arms[i].room == r;
      } else {
        assert m'.arms[|m.arms|].room == r;
      }
    }
    forall a, b | a in m'.w.timers.pending && b in m'.w.timers.pending && m'.w.timers.pending[a].PrepTimer?
                  && m'.w.timers.pending[a] == m'.w.timers.pending[b]
      ensures a == b
    {
      OldTimeoutIsTheOnly(m, e, a, b, m'.w.timers.pending[a].room);
      OldTimeoutIsTheOnly(m, e, b, a, m'.w.timers.pending[a].room);
    }
  }

  /** A room with a prep timeout, or one that ever armed it, does not get another. */
  lemma OldTimeoutIsTheOnly(m: Machine, e: Event, a: nat, b: nat, r: RoomId)
    requires Inv(m) && PrepsArmed(m)
    requires var pending := Step(m, e).w.timers.pending;
             a in pending && b in pending && pending[a] == PrepTimer(r) && pending[b] == PrepTimer(r)
    ensures a in m.w.timers.pending && m.w.timers.pending[a] == PrepTimer(r) ==> a == b
    ensures !(a in m.w.timers.pending && m.w.timers.pending[a] == PrepTimer(r)) ==> a == m.w.timers.next
  {
    StepKeeps(m, e);
    PrepTimeoutsOfStep(m, e, a, r);
    PrepTimeoutsOfStep(m, e, b, r);
    hide Step;
    if a in m.w.timers.pending && m.w.timers.pending[a] == PrepTimer(r) {
      NotArmedAgain(m, Step(m, e), r);
    }
  }

  lemma NotArmedAgain(m: Machine, m': Machine, r: RoomId)
    requires ArmsOk(m') && IsArmed(m.arms, r)
    ensures forall c :: m'.arms != m.arms + [Arm(r, c)]
  {
    var i :| 0 <= i < |m.arms| && m.arms[i].room == r;
    forall c ensures m'.arms != m.arms + [Arm(r, c)] {
      var twice := m.arms + [Arm(r, c)];
      assert twice[i].room == twice[|m.arms|].room;
    }
  }

  lemma {:induction false} AlwaysPrepsArmed(es: seq<Event>)
    ensures PrepsArmed(After(es))
  {
    if es != [] {
      AlwaysPrepsArmed(es[..|es| - 1]);
      AlwaysInv(es[..|es| - 1]);
      StepPrepsArmed(After(es[..|es| - 1]), es[|es| - 1]);
    }
  }

  /**
   Over a whole run, with restarts and failures, a room has at most one prep timeout: one that is
   pending at a later moment is the one that was pending before. It comes after both players.
   */
  lemma {:induction false} OnePrepTimeoutPerRoom(es: seq<Event>, fs: seq<Event>, r: RoomId, a: nat, b: nat)
    requires a in After(es).w.timers.pending && After(es).w.timers.pending[a] == PrepTimer(r)
    requires b in After(es + fs).w.timers.pending && After(es + fs).w.timers.pending[b] == PrepTimer(r)
    ensures a == b
    ensures r in After(es).w.rooms && |After(es).w.rooms[r].participants| == 2
  {
    AlwaysPrepsArmed(es);
    AlwaysInv(es);
    var arms := After(es).arms;
    var i :| 0 <= i < |arms| && arms[i].room == r;
    assert SecondSeat(After(es).w.rooms, r, arms[i].call);
    if fs == [] {
      assert es + fs == es;
    } else {
      var before, e := es + fs[..|fs| - 1], fs[|fs| - 1];
      assert es + fs == before + [e];
      RunSnoc(Step, INIT, before, e);
      AlwaysInv(before);
      AlwaysPrepsArmed(before);
      StillArmed(es, fs[..|fs| - 1], r);
      StepKeeps(After(before), e);
      PrepTimeoutsOfStep(After(before), e, b, r);
      NotArmedAgain(After(before), After(es + fs), r);
      OnePrepTimeoutPerRoom(es, fs[..|fs| - 1], r, a, b);
    }
  }

  lemma {:induction false} StillArmed(es: seq<Event>, fs: seq<Event>, r: RoomId)
    requires IsArmed(After(es).arms, r)
    ensures IsArmed(After(es + fs).arms, r)
  {
    if fs == [] {
      assert es + fs == es;
    } else {
      var before, e := es + fs[..|fs| - 1], fs[|fs| - 1];
      assert es + fs == before + [e];
      StillArmed(es, fs[..|fs| - 1], r);
      RunSnoc(Step, INIT, before, e);
      ArmsGrow(After(before), e);
      var arms := After(before).arms;
      var i :| 0 <= i < |arms| && arms[i].room == r;
      assert After(es + fs).arms[i].room == r;
    }
  }

  // ----- interleaved runs: a full room starts

  /** The call will schedule the prep timeout of room `r`, or is already taking the room to RUNNING. */
  predicate BoundForRunning(call: Call, r: RoomId) {
    || (call.JoinInserted? && call.room == r && |call.people| == 2)
    || call == JoinPick(r) || (call.JoinQuestion? && call.room == r) || call == JoinArm(r)
    || call == TransitionRead(r, RUNNING) || call == TransitionWrite(r, PREPARATION, RUNNING)
  }

  /** Both players are there and the room has not started. */
  ghost predicate Ready(m: Machine, r: RoomId) {
    r in m.w.rooms && m.w.rooms[r].state == PREPARATION && |m.w.rooms[r].participants| == 2
  }

  ghost predicate Starting(m: Machine, r: RoomId) {
    Pending(m.w.timers, PrepTimer(r)) || exists c :: 0 <= c < |m.calls| && BoundForRunning(m.calls[c], r)
  }

  ghost predicate StartsInv(m: Machine, r: RoomId) {
    TimerIdsOk(m.w.timers) && CommitsEntered(m) && (Ready(m, r) ==> Starting(m, r))
  }

  lemma NotCommitted(m: Machine, c: nat, r: RoomId)
    requires Inv(m) && CommitsEntered(m) && Ready(m, r) && c < |m.calls| && m.calls[c].TransitionAfter?
    ensures m.calls[c].room == r ==> m.calls[c].to == PREPARATION
  {
    var log := m.w.rooms[r].log;
    assert RoomOk(m.w.rooms[r]);
    NoWayBack(log);
  }

  /** No edge leads to PREPARATION. */
  lemma NoWayBack(log: seq<Record>)
    requires CausallyClosed(log) && StateAfter(log) == PREPARATION
    ensures log == []
  {
  }

  lemma PrepTimerStays(t: Timers, q: RoomId, to: DebateState, r: RoomId, id: nat)
    requires TimerIdsOk(t) && id in t.pending && t.pending[id] == PrepTimer(r) && (q == r ==> to == PREPARATION)
    ensures id in TimersAfter(t, q, to).pending && TimersAfter(t, q, to).pending[id] == PrepTimer(r)
  {
  }

  lemma OthersKeepPending(m: Machine, c: nat, picked: Option<nat>, r: RoomId, id: nat)
    requires TimerIdsOk(m.w.timers) && c < |m.calls| && !m.calls[c].TransitionAfter?
    requires id in m.w.timers.pending && m.w.timers.pending[id] == PrepTimer(r)
    ensures id in Resume(m, c, picked).w.timers.pending && Resume(m, c, picked).w.timers.pending[id] == PrepTimer(r)
  {
  }

  lemma PendingStarts(m: Machine, e: Event, r: RoomId, id: nat)
    requires Inv(m) && StartsInv(m, r) && Ready(m, r) && !IsFailure(e)
    requires id in m.w.timers.pending && m.w.timers.pending[id] == PrepTimer(r)
    ensures Starting(Step(m, e), r)
  {
    var m' := Step(m, e);
    if e == Fire(id) {
      assert BoundForRunning(m'.calls[|m.calls|], r);
    } else {
      assert id in m'.w.timers.pending && m'.w.timers.pending[id] == PrepTimer(r) by {
        if e.Advance? && e.call < |m.calls| {
          if m.calls[e.call].TransitionAfter? {
            NotCommitted(m, e.call, r);
            PrepTimerStays(m.w.timers, m.calls[e.call].room, m.calls[e.call].to, r, id);
          } else {
            OthersKeepPending(m, e.call, e.picked, r, id);
          }
        }
      }
    }
  }

  /** A bound call goes on to be bound, schedules the timeout, or has started the room. */
  lemma BoundStarts(m: Machine, c: nat, picked: Option<nat>, r: RoomId)
    requires c < |m.calls| && BoundForRunning(m.calls[c], r)
    requires Ready(m, r) && Ready(Resume(m, c, picked), r)
    ensures Starting(Resume(m, c, picked), r)
  {
    var m' := Resume(m, c, picked);
    if BoundForRunning(m'.calls[c], r) {
    } else {
      assert m'.w.timers.pending[m.w.timers.next] == PrepTimer(r);
    }
  }

  lemma SameBound(m: Machine, e: Event, c: nat, r: RoomId)
    requires !IsFailure(e) && c < |m.calls| && BoundForRunning(m.calls[c], r) && !(e.Advance? && e.call == c)
    ensures c < |Step(m, e).calls| && Step(m, e).calls[c] == m.calls[c]
  {
  }

  /** A room becomes ready only by the insert of its second player. */
  lemma BecomesReady(m: Machine, c: nat, picked: Option<nat>, r: RoomId)
    requires Inv(m) && c < |m.calls| && !Ready(m, r) && Ready(Resume(m, c, picked), r)
    ensures c < |Resume(m, c, picked).calls| && BoundForRunning(Resume(m, c, picked).calls[c], r)
  {
    assert CallOk(m.w.rooms, c, m.calls[c]);
    assert r in m.w.rooms ==> RoomOk(m.w.rooms[r]);
    hide Inv, RoomOk, CausallyClosed, IsPath;
    OnlyAnInsert(m, c, picked, r);
    var people, row := m.calls[c].people, Participant(c, m.calls[c].user, m.calls[c].side);
    SeatedRoom(m.w.rooms[r], people, row);
  }

  lemma OnlyAnInsert(m: Machine, c: nat, picked: Option<nat>, r: RoomId)
    requires c < |m.calls| && CallOk(m.w.rooms, c, m.calls[c]) && !Ready(m, r) && Ready(Resume(m, c, picked), r)
    ensures m.calls[c].JoinInsert? && m.calls[c].room == r && r in m.w.rooms
            && MayInsert(m.w.rooms[r].participants, m.calls[c].user, m.calls[c].side)
  {
    hide TimersAfter, SideOf, TakesSide;
  }

  lemma StepStarts(m: Machine, e: Event, r: RoomId)
    requires Inv(m) && StartsInv(m, r) && !IsFailure(e)
    ensures StartsInv(Step(m, e), r)
  {
    IdsAfterStep(m, e);
    CommitsEnteredStays(m, e);
    var m' := Step(m, e);
    if Ready(m', r) {
      if !Ready(m, r) {
        NewlyReady(m, e, r);
      } else if Pending(m.w.timers, PrepTimer(r)) {
        var id :| id in m.w.timers.pending && m.w.timers.pending[id] == PrepTimer(r);
        PendingStarts(m, e, r, id);
      } else {
        var c :| 0 <= c < |m.calls| && BoundForRunning(m.calls[c], r);
        if e.Advance? && e.call == c {
          BoundStarts(m, c, e.picked, r);
        } else {
          SameBound(m, e, c, r);
          assert BoundForRunning(m'.calls[c], r);
        }
      }
    }
    hide Step, Inv, TimerIdsOk, CommitsEntered, Starting, Ready;
  }

  lemma NewlyReady(m: Machine, e: Event, r: RoomId)
    requires Inv(m) && !Ready(m, r) && Ready(Step(m, e), r)
    ensures Starting(Step(m, e), r)
  {
    hide Resume, Inv;
    if e.Advance? && e.call < |m.calls| {
      BecomesReady(m, e.call, e.picked, r);
      assert Step(m, e) == Resume(m, e.call, e.picked);
    }
  }

  lemma {:induction false} AlwaysStarting(es: seq<Event>, r: RoomId)
    requires forall e :: e in es ==> !IsFailure(e)
    ensures StartsInv(After(es), r)
  {
    if es == [] {
      assert After([]) == INIT;
    } else {
      var before, e := es[..|es| - 1], es[|es| - 1];
      assert es == before + [e] && e in es;
      AlwaysStarting(before, r);
      AlwaysInv(before);
      RunSnoc(Step, INIT, before, e);
      StepStarts(After(before), e, r);
    }
  }

  /**
   In every run without failures and restarts, a room in PREPARATION with both players has a
   timeout pending that will start it, or a call that will schedule one or is starting it.
   */
  lemma ReadyRoomIsStarting(es: seq<Event>, r: RoomId)
    requires forall e :: e in es ==> !IsFailure(e)
    requires r in After(es).w.rooms && After(es).w.rooms[r].state == PREPARATION
    requires |After(es).w.rooms[r].participants| == 2
    ensures Pending(After(es).w.timers, PrepTimer(r))
            || exists c :: 0 <= c < |After(es).calls| && BoundForRunning(After(es).calls[c], r)
  {
    AlwaysStarting(es, r);
  }
}
