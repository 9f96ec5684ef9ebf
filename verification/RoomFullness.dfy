/** When a room that has left PREPARATION has both of its players. */
module RoomFullness {
  import opened Common
  import opened Machines
  import opened DebateStates
  import opened RoomStore
  import opened RoomProtocol
  import opened RoomProofs
  import opened RoomSerial
  import opened RoomRefinement

  // ----- interleaved runs

  ghost predicate Full(m: Machine, r: RoomId) {
    r in m.w.rooms && |m.w.rooms[r].participants| == 2
  }

  /** The call can take room `r` out of PREPARATION, or is past the read that could. */
  predicate Leaving(call: Call, r: RoomId) {
    call == TransitionRead(r, RUNNING) || (call.TransitionWrite? && call.room == r)
  }

  /** Whatever can start room `r`, or has started it, came after its second player. */
  ghost predicate StartsAreFull(m: Machine, r: RoomId) {
    && (forall t :: t in m.w.timers.pending && m.w.timers.pending[t] == PrepTimer(r) ==> Full(m, r))
    && (forall c :: 0 <= c < |m.calls| && Leaving(m.calls[c], r) ==> Full(m, r))
    && (r in m.w.rooms && m.w.rooms[r].log != [] ==> Full(m, r))
  }

  lemma FullStays(m: Machine, e: Event, r: RoomId)
    requires Inv(m) && Full(m, r)
    ensures Full(Step(m, e), r)
  {
    StepKeeps(m, e);
    hide Step;
    assert RoomGrows(m.w.rooms[r], Step(m, e).w.rooms[r]) && RoomOk(Step(m, e).w.rooms[r]);
  }

  /** Nothing has started room `r` or is about to. */
  ghost predicate Unstarted(m: Machine, r: RoomId) {
    && (forall t :: t in m.w.timers.pending ==> m.w.timers.pending[t] != PrepTimer(r))
    && (forall c :: 0 <= c < |m.calls| ==> !Leaving(m.calls[c], r))
    && (r in m.w.rooms ==> m.w.rooms[r].log == [])
  }

  /** A step of call `c` starts nothing if its own new place does not and it arms no timer and writes no log of `r`. */
  lemma CallUnstarted(m: Machine, m': Machine, c: nat, r: RoomId)
    requires Unstarted(m, r) && c < |m.calls| && |m'.calls| == |m.calls| && m'.calls == m.calls[c := m'.calls[c]]
    requires !Leaving(m'.calls[c], r)
    requires forall t :: t in m'.w.timers.pending && t !in m.w.timers.pending ==> m'.w.timers.pending[t] != PrepTimer(r)
    requires forall t :: t in m'.w.timers.pending && t in m.w.timers.pending
                         ==> m'.w.timers.pending[t] == m.w.timers.pending[t] || m'.w.timers.pending[t] != PrepTimer(r)
    requires r in m'.w.rooms ==> r in m.w.rooms && m'.w.rooms[r].log == m.w.rooms[r].log
    ensures Unstarted(m', r)
  {
    forall i | 0 <= i < |m'.calls| ensures !Leaving(m'.calls[i], r) {
      assert i != c ==> !Leaving(m.calls[i], r);
    }
  }

  lemma TransitionUnstarted(m: Machine, c: nat, r: RoomId)
    requires Inv(m) && Unstarted(m, r) && !Full(m, r) && c < |m.calls|
    requires m.calls[c].TransitionRead? || m.calls[c].TransitionWrite? || m.calls[c].TransitionAfter?
    ensures Unstarted(ResumeTransition(m, c), r)
  {
    assert !Leaving(m.calls[c], r);
    assert r in m.w.rooms ==> RoomOk(m.w.rooms[r]) && m.w.rooms[r].state == PREPARATION;
    hide Inv, RoomOk, Unstarted;
    CallUnstarted(m, ResumeTransition(m, c), c, r);
  }

  lemma ArmingUnstarted(m: Machine, c: nat, picked: Option<nat>, r: RoomId)
    requires Inv(m) && Unstarted(m, r) && !Full(m, r) && c < |m.calls|
    requires m.calls[c].JoinInserted? || m.calls[c].JoinPick? || m.calls[c].JoinQuestion? || m.calls[c].JoinArm?
    ensures Unstarted(ResumeArming(m, c, picked), r)
  {
    assert CallOk(m.w.rooms, c, m.calls[c]);
    hide Inv, Unstarted;
    CallUnstarted(m, ResumeArming(m, c, picked), c, r);
  }

  lemma JoinOrSendUnstarted(m: Machine, c: nat, r: RoomId)
    requires Unstarted(m, r) && c < |m.calls|
    ensures m.calls[c].JoinRead? || m.calls[c].JoinPeople? || m.calls[c].JoinInsert? ==> Unstarted(ResumeJoin(m, c), r)
    ensures m.calls[c].SendRead? || m.calls[c].SendPeople? || m.calls[c].SendWrite? ==> Unstarted(ResumeSend(m, c), r)
  {
    hide Unstarted;
    if m.calls[c].JoinRead? || m.calls[c].JoinPeople? || m.calls[c].JoinInsert? {
      CallUnstarted(m, ResumeJoin(m, c), c, r);
    } else if m.calls[c].SendRead? || m.calls[c].SendPeople? || m.calls[c].SendWrite? {
      CallUnstarted(m, ResumeSend(m, c), c, r);
    }
  }

  lemma ResumeUnstarted(m: Machine, c: nat, picked: Option<nat>, r: RoomId)
    requires Inv(m) && Unstarted(m, r) && !Full(m, r) && c < |m.calls|
    ensures Unstarted(Resume(m, c, picked), r)
  {
    hide Inv, Unstarted, Full, ResumeTransition, ResumeArming, ResumeJoin, ResumeSend;
    var call := m.calls[c];
    if call.TransitionRead? || call.TransitionWrite? || call.TransitionAfter? {
      TransitionUnstarted(m, c, r);
    } else if call.JoinInserted? || call.JoinPick? || call.JoinQuestion? || call.JoinArm? {
      ArmingUnstarted(m, c, picked, r);
    } else {
      JoinOrSendUnstarted(m, c, r);
    }
  }

  lemma StepStartsFull(m: Machine, e: Event, r: RoomId)
    requires Inv(m) && StartsAreFull(m, r) && (e == BeginTransition(r, RUNNING) ==> Full(m, r))
    ensures StartsAreFull(Step(m, e), r)
  {
    if Full(m, r) {
      FullStays(m, e, r);
    } else if e.Advance? {
      if e.call < |m.calls| {
        ResumeUnstarted(m, e.call, e.picked, r);
      }
    } else {
      forall c | 0 <= c < |m.calls| ensures !Leaving(m.calls[c], r) {}
    }
  }

  /** Every request to start room `r` finds both players in it. */
  ghost predicate RequestsFindItFull(es: seq<Event>, r: RoomId) {
    forall n :: 0 <= n < |es| && es[n] == BeginTransition(r, RUNNING) ==> Full(After(es[..n]), r)
  }

  lemma {:induction false} AlwaysStartsFull(es: seq<Event>, r: RoomId)
    requires RequestsFindItFull(es, r)
    ensures StartsAreFull(After(es), r)
  {
    if es != [] {
      var n := |es| - 1;
      forall k | 0 <= k < n && es[..n][k] == BeginTransition(r, RUNNING) ensures Full(After(es[..n][..k]), r) {
        assert es[..n][..k] == es[..k];
      }
      AlwaysStartsFull(es[..n], r);
      AlwaysInv(es[..n]);
      StepStartsFull(After(es[..n]), es[n], r);
    }
  }

  /**
   However calls interleave: if every request to start a room comes when both players are in
   it, then the room has both players from the moment it leaves PREPARATION. A run in which
   only the prep timer starts the room is the case without any request.
   */
  lemma StartedRoomIsFull(es: seq<Event>, r: RoomId)
    requires RequestsFindItFull(es, r)
    requires r in After(es).w.rooms && After(es).w.rooms[r].state != PREPARATION
    ensures var people := After(es).w.rooms[r].participants;
            |people| == 2 && people[0].side == POUR && people[1].side == CONTRE && people[0].user != people[1].user
  {
    AlwaysStartsFull(es, r);
    AlwaysInv(es);
    assert RoomOk(After(es).w.rooms[r]);
  }

  // ----- serial runs

  /** The room waits in PREPARATION with fewer than two players. */
  ghost predicate Short(w: World, r: RoomId) {
    r in w.rooms && w.rooms[r].state == PREPARATION && |w.rooms[r].participants| < 2
  }

  ghost predicate RunsShort(w: World, r: RoomId) {
    r in w.rooms && w.rooms[r].state != PREPARATION && |w.rooms[r].participants| < 2
  }

  /** Some request to start the room came while it was short of players. */
  ghost predicate StartedShort(ops: seq<Operation>, r: RoomId) {
    exists n :: 0 <= n < |ops| && ops[n] == Transition(r, RUNNING) && Short(AfterAll(ops[..n]).w, r)
  }

  lemma SerialSeats(ops: seq<Operation>, r: RoomId)
    requires r in AfterAll(ops).w.rooms
    ensures |AfterAll(ops).w.rooms[r].participants| <= 2
  {
    var m := SerialRunIsARun(ops);
    var es :| Run(RoomProtocol.Step, INIT, es) == m;
    AlwaysInv(es);
    assert RoomOk(m.w.rooms[r]);
  }

  /** One operation: a short room starts to run exactly by a request, and joins are refused afterwards. */
  lemma PerformShort(s: Serial, op: Operation, r: RoomId)
    requires SerialOk(s.w)
    ensures RunsShort(Perform(s, op).w, r) <==> RunsShort(s.w, r) || (op == Transition(r, RUNNING) && Short(s.w, r))
  {
    if r in s.w.rooms {
      assert LifeOk(s.w, r);
    }
    match op
    case Create(_, _) =>
    case Transition(q, to) => TransitionShort(s.w, q, to, r);
    case Join(_, _, _) =>
    case Send(_, _, _) =>
    case TimerFires(t) =>
      if t in s.w.timers.pending {
        var w := s.w.(timers := Expire(s.w.timers, t));
        match s.w.timers.pending[t] {
          case PrepTimer(q) => TransitionShort(w, q, RUNNING, r);
          case DebateTimer(q) => TransitionShort(w, q, VOTING, r);
        }
      }
  }

  lemma TransitionShort(w: World, q: RoomId, to: DebateState, r: RoomId)
    ensures RunsShort(SerialTransition(w, q, to).0, r) <==> RunsShort(w, r) || (q == r && to == RUNNING && Short(w, r))
  {
  }

  /**
   In serial runs a room outside PREPARATION lacks a player if and only if some request to
   start it came while it waited with fewer than two.
   */
  lemma {:induction false} RunsShortIffStartedShort(ops: seq<Operation>, r: RoomId)
    ensures RunsShort(AfterAll(ops).w, r) <==> StartedShort(ops, r)
    ensures r in AfterAll(ops).w.rooms && AfterAll(ops).w.rooms[r].state != PREPARATION
            ==> (|AfterAll(ops).w.rooms[r].participants| == 2 <==> !StartedShort(ops, r))
  {
    if ops != [] {
      var n := |ops| - 1;
      RunsShortIffStartedShort(ops[..n], r);
      AlwaysSerialOk(ops[..n]);
      PerformShort(AfterAll(ops[..n]), ops[n], r);
      LaterRequests(ops, r);
    }
    if r in AfterAll(ops).w.rooms {
      SerialSeats(ops, r);
    }
  }

  lemma LaterRequests(ops: seq<Operation>, r: RoomId)
    requires ops != []
    ensures var n := |ops| - 1;
            StartedShort(ops, r)
            <==> StartedShort(ops[..n], r) || (ops[n] == Transition(r, RUNNING) && Short(AfterAll(ops[..n]).w, r))
  {
    var n := |ops| - 1;
    forall k | 0 <= k < n ensures ops[..n][..k] == ops[..k] && ops[..n][k] == ops[k] {}
    if StartedShort(ops[..n], r) {
      var k :| 0 <= k < n && ops[..n][k] == Transition(r, RUNNING) && Short(AfterAll(ops[..n][..k]).w, r);
      assert ops[k] == Transition(r, RUNNING) && Short(AfterAll(ops[..k]).w, r);
    }
  }
}
