/**
 The debate service when every call runs to its end before the next one starts and
 no statement fails: the effect of each whole call on the tables, timers and queues.
 */
module RoomSerial {
  import opened Common
  import opened Machines
  import opened DebateStates
  import opened RoomStore
  import opened RoomProtocol

  /** `calls` counts the calls so far; the n-th call names the rows it inserts `n`. */
  datatype Serial = Serial(w: World, calls: nat)

  datatype Operation =
    | Create(room: RoomId, debateId: string)
    | Transition(room: RoomId, to: DebateState)
    | Join(room: RoomId, user: string, picked: Option<nat>)
    | Send(room: RoomId, user: string, content: string)
    | TimerFires(timer: nat)

  function Enqueued(w: World, job: Job): World {
    w.(replayJobs := w.replayJobs + [job], finalizationJobs := w.finalizationJobs + [job])
  }

  function SerialTransition(w: World, r: RoomId, to: DebateState): (World, Outcome) {
    if r !in w.rooms then (w, NotFound)
    else
      var room := w.rooms[r];
      if room.state == to then (w, Transitioned)
      else if !IsValidTransition(room.state, to) then (w, InvalidTransition)
      else
        var written := WithRoom(w, r, WithTransition(room, room.state, to));
        var timed := written.(timers := TimersAfter(w.timers, r, to));
        (if to == VOTING then Enqueued(timed, Job(room.debateId, r)) else timed, Transitioned)
  }

  function Seated(room: Room, id: nat, user: string, side: Side, picked: Option<nat>): Room {
    var people := room.participants + [Participant(id, user, side)];
    if |people| == 2 && picked.Some? then room.(participants := people, question := picked)
    else room.(participants := people)
  }

  function SerialJoin(w: World, id: nat, r: RoomId, user: string, picked: Option<nat>): (World, Outcome) {
    if r !in w.rooms then (w, NotFound)
    else
      var room := w.rooms[r];
      if room.state != PREPARATION then (w, CannotJoin)
      else if SideOf(room.participants, user).Some? then (w, Joined)
      else if |room.participants| >= 2 || FreeSide(room.participants).None? then (w, RoomFull)
      else
        var w' := WithRoom(w, r, Seated(room, id, user, FreeSide(room.participants).value, picked));
        (if |room.participants| == 1 then w'.(timers := SchedulePrep(w.timers, r)) else w', Joined)
  }

  function SerialSend(w: World, id: nat, r: RoomId, user: string, content: string): (World, Outcome) {
    if r !in w.rooms then (w, NotFound)
    else
      var room := w.rooms[r];
      if room.state != RUNNING then (w, NotRunning)
      else
        match SideOf(room.participants, user)
        case None => (w, NotAParticipant)
        case Some(side) =>
          var msg := Message(id, user, content);
          (WithRoom(w, r, WithMessage(room, msg)), Sent(r, msg, side))
  }

  function SerialFire(w: World, t: nat): (World, Outcome)
    requires t in w.timers.pending
  {
    var w' := w.(timers := Expire(w.timers, t));
    match w.timers.pending[t]
    case PrepTimer(r) => SerialTransition(w', r, RUNNING)
    case DebateTimer(r) => SerialTransition(w', r, VOTING)
  }

  function Perform(s: Serial, op: Operation): Serial {
    match op
    case Create(r, d) => if r in s.w.rooms then s else s.(w := WithRoom(s.w, r, NewRoom(d)))
    case Transition(r, to) => Serial(SerialTransition(s.w, r, to).0, s.calls + 1)
    case Join(r, u, picked) => Serial(SerialJoin(s.w, s.calls, r, u, picked).0, s.calls + 1)
    case Send(r, u, text) => Serial(SerialSend(s.w, s.calls, r, u, text).0, s.calls + 1)
    case TimerFires(t) => if t in s.w.timers.pending then Serial(SerialFire(s.w, t).0, s.calls + 1) else s
  }

  // ----- what serial runs keep

  function JobsDue(s: DebateState): nat {
    if s == VOTING || s == CLOSED then 1 else 0
  }

  ghost predicate LifeOk(w: World, r: RoomId)
    requires r in w.rooms
  {
    && w.rooms[r].log == FULL_PATH[..Depth(w.rooms[r].state)]
    && (r in w.timers.debate <==> w.rooms[r].state == RUNNING)
    && (r in w.timers.prep ==> |w.rooms[r].participants| >= 2)
    && JobsFor(w.replayJobs, r) == JobsFor(w.finalizationJobs, r) == JobsDue(w.rooms[r].state)
  }

  /** The maps of the service name exactly the timeouts that are still pending. */
  ghost predicate TimersOk(t: Timers) {
    && (forall id :: id in t.pending ==> id < t.next)
    && (forall r :: r in t.debate ==> t.debate[r] in t.pending && t.pending[t.debate[r]] == DebateTimer(r))
    && (forall r :: r in t.prep ==> t.prep[r] in t.pending && t.pending[t.prep[r]] == PrepTimer(r))
    && (forall id :: id in t.pending ==>
          match t.pending[id]
          case DebateTimer(r) => r in t.debate && t.debate[r] == id
          case PrepTimer(r) => r in t.prep && t.prep[r] == id)
  }

  ghost predicate NothingFor(w: World, r: RoomId) {
    && r !in w.timers.debate && r !in w.timers.prep
    && JobsFor(w.replayJobs, r) == 0 && JobsFor(w.finalizationJobs, r) == 0
  }

  /** The debate timer of `r` has just gone off, and its transition has not run yet. */
  ghost predicate TimerJustFired(w: World, r: RoomId) {
    && r in w.rooms && w.rooms[r].state == RUNNING && w.rooms[r].log == FULL_PATH[..1]
    && r !in w.timers.debate
    && (r in w.timers.prep ==> |w.rooms[r].participants| >= 2)
    && JobsFor(w.replayJobs, r) == 0 && JobsFor(w.finalizationJobs, r) == 0
  }

  ghost predicate SerialOkBut(w: World, fired: Option<RoomId>) {
    && TimersOk(w.timers)
    && (forall r :: r in w.rooms && fired != Some(r) ==> LifeOk(w, r))
    && (forall r :: r !in w.rooms ==> NothingFor(w, r))
    && (fired.Some? ==> TimerJustFired(w, fired.value))
  }

  ghost predicate SerialOk(w: World) {
    SerialOkBut(w, None)
  }

  lemma TimersStayOk(t: Timers, r: RoomId)
    requires TimersOk(t)
    ensures r !in t.debate ==> TimersOk(ScheduleDebate(t, r))
    ensures r !in t.prep ==> TimersOk(SchedulePrep(t, r))
    ensures TimersOk(ClearDebate(t, r)) && r !in ClearDebate(t, r).debate
    ensures TimersOk(ClearPrep(t, r)) && r !in ClearPrep(t, r).prep
  {
  }

  lemma ExpireOk(t: Timers, id: nat)
    requires TimersOk(t) && id in t.pending
    ensures TimersOk(Expire(t, id))
  {
  }

  lemma NextDepth(from: DebateState, to: DebateState)
    requires IsValidTransition(from, to)
    ensures Depth(to) == Depth(from) + 1 && FULL_PATH[..Depth(to)] == FULL_PATH[..Depth(from)] + [Record(from, to)]
  {
  }

  ghost predicate SameElsewhere(t: Timers, t': Timers, r: RoomId) {
    forall q :: q != r ==> (q in t'.debate <==> q in t.debate) && (q in t'.prep <==> q in t.prep)
  }

  lemma TransitionTimersOk(t: Timers, r: RoomId, to: DebateState)
    requires TimersOk(t) && (to == RUNNING ==> r !in t.debate)
    ensures TimersOk(TimersAfter(t, r, to))
  {
    TimersStayOk(t, r);
    TimersStayOk(ClearPrep(t, r), r);
    hide TimersOk, ScheduleDebate, ClearDebate, ClearPrep;
  }

  lemma TransitionTimersMap(t: Timers, r: RoomId, to: DebateState)
    ensures var t' := TimersAfter(t, r, to);
            && SameElsewhere(t, t', r)
            && (to != PREPARATION ==> (r in t'.debate <==> to == RUNNING))
            && (r in t'.prep ==> r in t.prep)
  {
  }

  lemma MovedRoomLife(w: World, r: RoomId, to: DebateState)
    requires r in w.rooms && IsValidTransition(w.rooms[r].state, to) && TimersOk(w.timers)
    requires LifeOk(w, r) || (TimerJustFired(w, r) && to == VOTING)
    ensures var w' := SerialTransition(w, r, to).0; LifeOk(w', r) && TimersOk(w'.timers)
  {
    NextDepth(w.rooms[r].state, to);
    TransitionTimersOk(w.timers, r, to);
    TransitionTimersMap(w.timers, r, to);
    hide TimersOk, TimersAfter;
    OneMoreJob(w.replayJobs, Job(w.rooms[r].debateId, r));
    OneMoreJob(w.finalizationJobs, Job(w.rooms[r].debateId, r));
  }

  lemma OtherLives(w: World, r: RoomId, to: DebateState, q: RoomId)
    requires r in w.rooms && IsValidTransition(w.rooms[r].state, to)
    requires q != r && (q in w.rooms ==> LifeOk(w, q)) && (q !in w.rooms ==> NothingFor(w, q))
    ensures var w' := SerialTransition(w, r, to).0;
            (q in w'.rooms ==> LifeOk(w', q)) && (q !in w'.rooms ==> NothingFor(w', q))
  {
  }

  lemma TransitionKeeps(w: World, r: RoomId, to: DebateState, fired: Option<RoomId>)
    requires SerialOkBut(w, fired) && (fired.Some? ==> fired.value == r && to == VOTING)
    ensures SerialOk(SerialTransition(w, r, to).0)
  {
    if r in w.rooms && IsValidTransition(w.rooms[r].state, to) {
      assert fired.None? ==> LifeOk(w, r);
      MovedRoomLife(w, r, to);
      var w' := SerialTransition(w, r, to).0;
      forall q | q != r ensures (q in w'.rooms ==> LifeOk(w', q)) && (q !in w'.rooms ==> NothingFor(w', q)) {
        OtherLives(w, r, to, q);
      }
      hide LifeOk, NothingFor, TimersOk;
    }
  }

  lemma FireKeeps(w: World, t: nat)
    requires SerialOk(w) && t in w.timers.pending
    ensures SerialOk(SerialFire(w, t).0)
  {
    var w' := w.(timers := Expire(w.timers, t));
    ExpireOk(w.timers, t);
    match w.timers.pending[t]
    case PrepTimer(r) =>
      forall q | q in w'.rooms ensures LifeOk(w', q) {
        assert LifeOk(w, q);
      }
      TransitionKeeps(w', r, RUNNING, None);
    case DebateTimer(r) =>
      assert LifeOk(w, r);
      forall q | q in w'.rooms && q != r ensures LifeOk(w', q) {
        assert LifeOk(w, q);
      }
      TransitionKeeps(w', r, VOTING, Some(r));
  }

  /** A change to one room that keeps its life, and to no timer or queue. */
  lemma RoomKeeps(w: World, r: RoomId, room: Room)
    requires SerialOk(w) && r in w.rooms
    requires room.log == w.rooms[r].log && room.state == w.rooms[r].state
    requires |room.participants| >= |w.rooms[r].participants|
    ensures SerialOk(WithRoom(w, r, room))
  {
  }

  lemma ArmKeeps(w: World, r: RoomId)
    requires SerialOk(w) && r in w.rooms && |w.rooms[r].participants| >= 2 && r !in w.timers.prep
    ensures SerialOk(w.(timers := SchedulePrep(w.timers, r)))
  {
    var w' := w.(timers := SchedulePrep(w.timers, r));
    TimersStayOk(w.timers, r);
    hide TimersOk;
    forall q | q in w'.rooms ensures LifeOk(w', q) {
      assert LifeOk(w, q);
    }
  }

  lemma JoinKeeps(w: World, id: nat, r: RoomId, user: string, picked: Option<nat>)
    requires SerialOk(w)
    ensures SerialOk(SerialJoin(w, id, r, user, picked).0)
  {
    var w' := SerialJoin(w, id, r, user, picked).0;
    if r in w.rooms && w'.rooms != w.rooms {
      var seated := WithRoom(w, r, w'.rooms[r]);
      assert LifeOk(w, r);
      RoomKeeps(w, r, w'.rooms[r]);
      if |w.rooms[r].participants| == 1 {
        ArmKeeps(seated, r);
      }
      assert w' == seated || w' == seated.(timers := SchedulePrep(w.timers, r));
    }
  }

  lemma CreateKeeps(w: World, r: RoomId, d: string)
    requires SerialOk(w) && r !in w.rooms
    ensures SerialOk(WithRoom(w, r, NewRoom(d)))
  {
    var w' := WithRoom(w, r, NewRoom(d));
    forall q | q in w'.rooms ensures LifeOk(w', q) {
      assert q in w.rooms ==> LifeOk(w, q);
    }
  }

  lemma SendKeeps(w: World, id: nat, r: RoomId, user: string, content: string)
    requires SerialOk(w)
    ensures SerialOk(SerialSend(w, id, r, user, content).0)
  {
    hide SerialOk;
    if r in w.rooms && SerialSend(w, id, r, user, content).0 != w {
      RoomKeeps(w, r, WithMessage(w.rooms[r], Message(id, user, content)));
    }
  }

  lemma PerformKeeps(s: Serial, op: Operation)
    requires SerialOk(s.w)
    ensures SerialOk(Perform(s, op).w)
  {
    hide SerialOk, SerialTransition, SerialJoin, SerialSend, SerialFire;
    match op
    case Create(r, d) => if r !in s.w.rooms { CreateKeeps(s.w, r, d); }
    case Transition(r, to) => MoveKeeps(s.w, r, to);
    case Join(r, u, picked) => JoinKeeps(s.w, s.calls, r, u, picked);
    case Send(r, u, text) => SendKeeps(s.w, s.calls, r, u, text);
    case TimerFires(t) => if t in s.w.timers.pending { FireKeeps(s.w, t); }
  }

  lemma MoveKeeps(w: World, r: RoomId, to: DebateState)
    requires SerialOk(w)
    ensures SerialOk(SerialTransition(w, r, to).0)
  {
    TransitionKeeps(w, r, to, None);
  }

  ghost function AfterAll(ops: seq<Operation>): Serial {
    Run(Perform, Serial(EMPTY_WORLD, 0), ops)
  }

  lemma {:induction false} AlwaysSerialOk(ops: seq<Operation>)
    ensures SerialOk(AfterAll(ops).w)
  {
    if ops != [] {
      AlwaysSerialOk(ops[..|ops| - 1]);
      PerformKeeps(AfterAll(ops[..|ops| - 1]), ops[|ops| - 1]);
    }
  }

  // ----- the lifecycle of a room in serial runs

  /**
   In every serial run: the log is a prefix of the one complete life, a debate timeout
   is pending exactly while the room is RUNNING (and then only one), and one replay
   job and one finalisation job exist exactly once VOTING has been reached.
   */
  lemma SerialLifecycle(ops: seq<Operation>, r: RoomId)
    requires r in AfterAll(ops).w.rooms
    ensures var w := AfterAll(ops).w;
            && w.rooms[r].log == FULL_PATH[..Depth(w.rooms[r].state)]
            && (w.rooms[r].state == RUNNING
                <==> exists id :: id in w.timers.pending && w.timers.pending[id] == DebateTimer(r))
            && (forall a, b | a in w.timers.pending && b in w.timers.pending ::
                  w.timers.pending[a] == w.timers.pending[b] ==> a == b)
            && JobsFor(w.replayJobs, r) == JobsFor(w.finalizationJobs, r)
                == (if w.rooms[r].state == VOTING || w.rooms[r].state == CLOSED then 1 else 0)
  {
    AlwaysSerialOk(ops);
    var w := AfterAll(ops).w;
    assert LifeOk(w, r);
    if w.rooms[r].state == RUNNING {
      assert w.timers.debate[r] in w.timers.pending;
    }
  }

  /** A prep timer that goes off after its room has left PREPARATION changes nothing but the timer itself. */
  lemma LatePrepTimerChangesNothing(w: World, t: nat)
    requires t in w.timers.pending && w.timers.pending[t].PrepTimer?
    ensures var r := w.timers.pending[t].room;
            SerialFire(w, t).0 == w.(timers := Expire(w.timers, t))
            <==> r !in w.rooms || w.rooms[r].state != PREPARATION
  {
  }
}
