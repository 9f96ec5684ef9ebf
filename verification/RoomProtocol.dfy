/**
 The debate service with every call split at its awaits. A call that waits for a
 statement keeps the local values it read earlier, so any number of calls on any
 rooms can overtake each other.
 */
module RoomProtocol {
  import opened Common
  import opened DebateStates
  import opened RoomStore

  datatype Outcome =
    | Transitioned
    | Joined
    | Sent(room: RoomId, message: Message, side: Side)
    | NotFound
    | InvalidTransition
    | CannotJoin
    | RoomFull
    | NotRunning
    | NotAParticipant
    | UniqueViolation
    | StorageFailure
    | Lost

  /** Where a call is suspended, with its local values. */
  datatype Call =
    // transition: before findById, before the transaction, after it, while the jobs are added
    | TransitionRead(room: RoomId, to: DebateState)
    | TransitionWrite(room: RoomId, from: DebateState, to: DebateState)
    | TransitionAfter(room: RoomId, to: DebateState, debateId: string)
    | TransitionEnqueue(room: RoomId, debateId: string, replay: bool, finalization: bool, failed: bool)
    // joinRoom: before findById, getParticipants, the insert, and after it
    | JoinRead(room: RoomId, user: string)
    | JoinPeople(room: RoomId, user: string)
    | JoinInsert(room: RoomId, user: string, side: Side, people: seq<Participant>)
    | JoinInserted(room: RoomId, people: seq<Participant>)
    | JoinPick(room: RoomId)
    | JoinQuestion(room: RoomId, question: nat)
    | JoinArm(room: RoomId)
    // sendMessage: before findById, getParticipants and the insert
    | SendRead(room: RoomId, user: string, content: string)
    | SendPeople(room: RoomId, user: string, content: string)
    | SendWrite(room: RoomId, user: string, content: string, side: Side)
    | Done(outcome: Outcome)

  datatype Event =
    | CreateRoom(room: RoomId, debateId: string)
    | BeginTransition(room: RoomId, to: DebateState)
    | BeginJoin(room: RoomId, user: string)
    | BeginSend(room: RoomId, user: string, content: string)
    /** The statement a call waits for completes; `picked` is the answer of randomQuestion. */
    | Advance(call: nat, picked: Option<nat>)
    | AddReplayJob(call: nat)
    | AddFinalizationJob(call: nat)
    /** One of the two adds fails; the other one still goes on. */
    | FailReplayJob(call: nat)
    | FailFinalizationJob(call: nat)
    /** The statement a call waits for fails. */
    | Fail(call: nat)
    | Fire(timer: nat)
    /** The process stops and starts again: timers and suspended calls are gone, tables and queues stay. */
    | Restart

  /** `call` armed the prep timer of `room`. */
  datatype Arm = Arm(room: RoomId, call: nat)

  /**
   `arms` and `stale` only record history: every arming of a prep timer, and every
   room on which a transaction committed from a state that was no longer current.
   */
  datatype Machine = Machine(w: World, calls: seq<Call>, arms: seq<Arm>, stale: set<RoomId>)

  const INIT := Machine(EMPTY_WORLD, [], [], {})

  function Begin(m: Machine, call: Call): Machine {
    m.(calls := m.calls + [call])
  }

  function Put(m: Machine, c: nat, call: Call): Machine
    requires c < |m.calls|
  {
    m.(calls := m.calls[c := call])
  }

  function Finish(m: Machine, c: nat, outcome: Outcome): Machine
    requires c < |m.calls|
  {
    Put(m, c, Done(outcome))
  }

  function PutRoom(m: Machine, r: RoomId, room: Room): Machine {
    m.(w := WithRoom(m.w, r, room))
  }

  function ArmPrep(m: Machine, c: nat, r: RoomId): Machine
    requires c < |m.calls|
  {
    Finish(m.(w := m.w.(timers := SchedulePrep(m.w.timers, r)), arms := m.arms + [Arm(r, c)]), c, Joined)
  }

  function Step(m: Machine, e: Event): Machine {
    match e
    case CreateRoom(r, d) => if r in m.w.rooms then m else PutRoom(m, r, NewRoom(d))
    case BeginTransition(r, to) => Begin(m, TransitionRead(r, to))
    case BeginJoin(r, u) => Begin(m, JoinRead(r, u))
    case BeginSend(r, u, text) => Begin(m, SendRead(r, u, text))
    case Advance(c, picked) => if c < |m.calls| then Resume(m, c, picked) else m
    case AddReplayJob(c) =>
      if c < |m.calls| && m.calls[c].TransitionEnqueue? && m.calls[c].replay then AddReplay(m, c) else m
    case AddFinalizationJob(c) =>
      if c < |m.calls| && m.calls[c].TransitionEnqueue? && m.calls[c].finalization then AddFinalization(m, c) else m
    case FailReplayJob(c) =>
      if c < |m.calls| && m.calls[c].TransitionEnqueue? && m.calls[c].replay
      then Put(m, c, AfterAdding(m.calls[c].(replay := false, failed := true))) else m
    case FailFinalizationJob(c) =>
      if c < |m.calls| && m.calls[c].TransitionEnqueue? && m.calls[c].finalization
      then Put(m, c, AfterAdding(m.calls[c].(finalization := false, failed := true))) else m
    case Fail(c) =>
      if c < |m.calls| && !m.calls[c].Done? && !m.calls[c].TransitionEnqueue?
      then Finish(m, c, StorageFailure) else m
    case Fire(t) => if t in m.w.timers.pending then FireTimer(m, t) else m
    case Restart => Restarted(m)
  }

  function Resume(m: Machine, c: nat, picked: Option<nat>): Machine
    requires c < |m.calls|
  {
    match m.calls[c]
    case TransitionRead(_, _) => ResumeTransition(m, c)
    case TransitionWrite(_, _, _) => ResumeTransition(m, c)
    case TransitionAfter(_, _, _) => ResumeTransition(m, c)
    case JoinRead(_, _) => ResumeJoin(m, c)
    case JoinPeople(_, _) => ResumeJoin(m, c)
    case JoinInsert(_, _, _, _) => ResumeJoin(m, c)
    case JoinInserted(_, _) => ResumeArming(m, c, picked)
    case JoinPick(_) => ResumeArming(m, c, picked)
    case JoinQuestion(_, _) => ResumeArming(m, c, picked)
    case JoinArm(_) => ResumeArming(m, c, picked)
    case SendRead(_, _, _) => ResumeSend(m, c)
    case SendPeople(_, _, _) => ResumeSend(m, c)
    case SendWrite(_, _, _, _) => ResumeSend(m, c)
    case TransitionEnqueue(_, _, _, _, _) => m
    case Done(_) => m
  }

  function ResumeTransition(m: Machine, c: nat): Machine
    requires c < |m.calls|
  {
    match m.calls[c]
    case TransitionRead(r, to) =>
      if r !in m.w.rooms then Finish(m, c, NotFound)
      else
        var from := m.w.rooms[r].state;
        if from == to then Finish(m, c, Transitioned)
        else if !IsValidTransition(from, to) then Finish(m, c, InvalidTransition)
        else Put(m, c, TransitionWrite(r, from, to))
    case TransitionWrite(r, from, to) =>
      if r !in m.w.rooms then Finish(m, c, StorageFailure)
      else
        var room := m.w.rooms[r];
        var stale := if room.state == from then m.stale else m.stale + {r};
        Put(PutRoom(m, r, WithTransition(room, from, to)).(stale := stale), c,
            TransitionAfter(r, to, room.debateId))
    case TransitionAfter(r, to, d) =>
      var m' := m.(w := m.w.(timers := TimersAfter(m.w.timers, r, to)));
      if to == VOTING then Put(m', c, TransitionEnqueue(r, d, true, true, false))
      else Finish(m', c, Transitioned)
    case _ => m
  }

  /** Both adds run side by side; the call ends with the second, in error if one of them failed. */
  function AfterAdding(call: Call): Call
    requires call.TransitionEnqueue?
  {
    if call.replay || call.finalization then call
    else Done(if call.failed then StorageFailure else Transitioned)
  }

  function AddReplay(m: Machine, c: nat): Machine
    requires c < |m.calls| && m.calls[c].TransitionEnqueue?
  {
    var call := m.calls[c];
    Put(m.(w := m.w.(replayJobs := m.w.replayJobs + [Job(call.debateId, call.room)])), c,
        AfterAdding(call.(replay := false)))
  }

  function AddFinalization(m: Machine, c: nat): Machine
    requires c < |m.calls| && m.calls[c].TransitionEnqueue?
  {
    var call := m.calls[c];
    Put(m.(w := m.w.(finalizationJobs := m.w.finalizationJobs + [Job(call.debateId, call.room)])), c,
        AfterAdding(call.(finalization := false)))
  }

  function ResumeJoin(m: Machine, c: nat): Machine
    requires c < |m.calls|
  {
    match m.calls[c]
    case JoinRead(r, u) =>
      if r !in m.w.rooms then Finish(m, c, NotFound)
      else if m.w.rooms[r].state != PREPARATION then Finish(m, c, CannotJoin)
      else Put(m, c, JoinPeople(r, u))
    case JoinPeople(r, u) =>
      var people := if r in m.w.rooms then m.w.rooms[r].participants else [];
      if SideOf(people, u).Some? then Finish(m, c, Joined)
      else if |people| >= 2 then Finish(m, c, RoomFull)
      else if FreeSide(people).None? then Finish(m, c, RoomFull)
      else Put(m, c, JoinInsert(r, u, FreeSide(people).value, people))
    case JoinInsert(r, u, side, people) =>
      if r !in m.w.rooms then Finish(m, c, StorageFailure)
      else
        var room := m.w.rooms[r];
        if !MayInsert(room.participants, u, side) then Finish(m, c, UniqueViolation)
        else
          var row := Participant(c, u, side);
          Put(PutRoom(m, r, WithParticipant(room, row)), c, JoinInserted(r, people + [row]))
    case _ => m
  }

  function ResumeArming(m: Machine, c: nat, picked: Option<nat>): Machine
    requires c < |m.calls|
  {
    match m.calls[c]
    case JoinInserted(r, people) =>
      if |people| == 2 then Put(m, c, JoinPick(r)) else Finish(m, c, Joined)
    case JoinPick(r) =>
      (match picked case None => ArmPrep(m, c, r) case Some(q) => Put(m, c, JoinQuestion(r, q)))
    case JoinQuestion(r, q) =>
      if r !in m.w.rooms then Put(m, c, JoinArm(r))
      else Put(PutRoom(m, r, m.w.rooms[r].(question := Some(q))), c, JoinArm(r))
    case JoinArm(r) => ArmPrep(m, c, r)
    case _ => m
  }

  function ResumeSend(m: Machine, c: nat): Machine
    requires c < |m.calls|
  {
    match m.calls[c]
    case SendRead(r, u, text) =>
      if r !in m.w.rooms then Finish(m, c, NotFound)
      else if m.w.rooms[r].state != RUNNING then Finish(m, c, NotRunning)
      else Put(m, c, SendPeople(r, u, text))
    case SendPeople(r, u, text) =>
      var people := if r in m.w.rooms then m.w.rooms[r].participants else [];
      (match SideOf(people, u)
       case None => Finish(m, c, NotAParticipant)
       case Some(side) => Put(m, c, SendWrite(r, u, text, side)))
    case SendWrite(r, u, text, side) =>
      if r !in m.w.rooms then Finish(m, c, StorageFailure)
      else
        var room := m.w.rooms[r];
        var msg := Message(c, u, text);
        Finish(PutRoom(m, r, WithMessage(room, msg)), c, Sent(r, msg, side))
    case _ => m
  }

  /** The callback of a timer: forget the timer, then start a transition nobody waits for. */
  function FireTimer(m: Machine, t: nat): Machine
    requires t in m.w.timers.pending
  {
    var call := match m.w.timers.pending[t]
      case PrepTimer(r) => TransitionRead(r, RUNNING)
      case DebateTimer(r) => TransitionRead(r, VOTING);
    Begin(m.(w := m.w.(timers := Expire(m.w.timers, t))), call)
  }

  function Restarted(m: Machine): Machine {
    m.(w := m.w.(timers := Timers(map[], map[], map[], m.w.timers.next)),
       calls := seq(|m.calls|, i requires 0 <= i < |m.calls| =>
         if m.calls[i].Done? then m.calls[i] else Done(Lost)))
  }

  // ----- what every step keeps

  function SideAt(i: nat): Side {
    if i == 0 then POUR else CONTRE
  }

  /** In insertion order the sides are [], [POUR] or [POUR, CONTRE], and no user appears twice. */
  ghost predicate SeatsOk(people: seq<Participant>) {
    && |people| <= 2
    && (forall i :: 0 <= i < |people| ==> people[i].side == SideAt(i))
    && (|people| == 2 ==> people[0].user != people[1].user)
  }

  ghost predicate RoomOk(room: Room) {
    && CausallyClosed(room.log)
    && room.state == StateAfter(room.log)
    && SeatsOk(room.participants)
    && (forall i :: 0 <= i < |room.messages| ==> SideOf(room.participants, room.messages[i].user).Some?)
  }

  /** The local values of a suspended call are still true of the tables. */
  ghost predicate CallOk(rooms: map<RoomId, Room>, c: nat, call: Call) {
    match call
    case TransitionWrite(r, from, to) =>
      r in rooms && IsValidTransition(from, to) && Entered(rooms[r].log, from)
    case JoinPeople(r, _) => r in rooms
    case JoinInsert(r, u, side, people) =>
      r in rooms && people <= rooms[r].participants && |people| < 2 && side == SideAt(|people|)
      && SideOf(people, u).None?
    case JoinInserted(r, people) =>
      r in rooms && 1 <= |people| <= 2 && people <= rooms[r].participants && people[|people| - 1].id == c
    case JoinPick(r) => SecondSeat(rooms, r, c)
    case JoinQuestion(r, _) => SecondSeat(rooms, r, c)
    case JoinArm(r) => SecondSeat(rooms, r, c)
    case SendPeople(r, _, _) => r in rooms
    case SendWrite(r, u, _, side) => r in rooms && SideOf(rooms[r].participants, u) == Some(side)
    case Done(Sent(r, msg, side)) =>
      r in rooms && msg in rooms[r].messages && SideOf(rooms[r].participants, msg.user) == Some(side)
    case _ => true
  }

  /** Call `c` inserted the CONTRE row of room `r`. */
  ghost predicate SecondSeat(rooms: map<RoomId, Room>, r: RoomId, c: nat) {
    r in rooms && |rooms[r].participants| == 2 && rooms[r].participants[1].id == c
  }

  ghost predicate RoomsOk(rooms: map<RoomId, Room>) {
    forall r :: r in rooms ==> RoomOk(rooms[r])
  }

  ghost predicate CallsOk(m: Machine) {
    forall c :: 0 <= c < |m.calls| ==> CallOk(m.w.rooms, c, m.calls[c])
  }

  ghost predicate StaleOk(m: Machine) {
    && (forall r :: r in m.stale ==> r in m.w.rooms)
    && (forall r :: r in m.w.rooms ==> (r in m.stale <==> !IsPath(m.w.rooms[r].log)))
  }

  /** Whoever armed a prep timer had inserted CONTRE and is done. */
  ghost predicate ArmsOk(m: Machine) {
    && (forall i :: 0 <= i < |m.arms| ==>
          m.arms[i].call < |m.calls| && m.calls[m.arms[i].call].Done?
          && SecondSeat(m.w.rooms, m.arms[i].room, m.arms[i].call))
    && (forall i, j :: 0 <= i < j < |m.arms| ==> m.arms[i].room != m.arms[j].room)
  }

  /** A question is only there once the call that inserted CONTRE has written it. */
  ghost predicate QuestionsOk(m: Machine) {
    forall r :: r in m.w.rooms && m.w.rooms[r].question.Some? ==> Asked(m, m.w.rooms[r])
  }

  ghost predicate Asked(m: Machine, room: Room) {
    && |room.participants| == 2
    && room.participants[1].id < |m.calls|
    && (m.calls[room.participants[1].id].JoinArm? || m.calls[room.participants[1].id].Done?)
  }

  ghost predicate Inv(m: Machine) {
    RoomsOk(m.w.rooms) && CallsOk(m) && StaleOk(m) && ArmsOk(m) && QuestionsOk(m)
  }

  /** Rooms stay; their participants, messages and log only grow at the end; a question is never replaced. */
  ghost predicate Grows(rooms: map<RoomId, Room>, rooms': map<RoomId, Room>) {
    forall r :: r in rooms ==> r in rooms' && RoomGrows(rooms[r], rooms'[r])
  }

  ghost predicate RoomGrows(a: Room, b: Room) {
    && a.debateId == b.debateId
    && a.participants <= b.participants
    && a.messages <= b.messages
    && a.log <= b.log
    && (a.question.Some? ==> b.question == a.question)
  }
}
