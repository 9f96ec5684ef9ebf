/** What holds in every interleaved run of the debate service. */
module RoomProofs {
  import opened Common
  import opened Machines
  import opened DebateStates
  import opened RoomStore
  import opened RoomProtocol

  // ----- one step

  lemma EnteredGrows(a: seq<Record>, b: seq<Record>, s: DebateState)
    requires a <= b && Entered(a, s)
    ensures Entered(b, s)
  {
  }

  lemma CallOkGrows(rooms: map<RoomId, Room>, rooms': map<RoomId, Room>, c: nat, call: Call)
    requires CallOk(rooms, c, call) && Grows(rooms, rooms') && RoomsOk(rooms')
    ensures CallOk(rooms', c, call)
  {
    match call
    case TransitionWrite(r, from, _) => EnteredGrows(rooms[r].log, rooms'[r].log, from);
    case SendWrite(r, u, _, _) => SideOfPrefix(rooms[r].participants, rooms'[r].participants, u);
    case Done(Sent(r, msg, _)) => SideOfPrefix(rooms[r].participants, rooms'[r].participants, msg.user);
    case JoinInsert(r, _, _, _) => assert RoomGrows(rooms[r], rooms'[r]);
    case JoinInserted(r, _) => assert RoomGrows(rooms[r], rooms'[r]);
    case JoinPick(r) => assert RoomGrows(rooms[r], rooms'[r]) && RoomOk(rooms'[r]);
    case JoinQuestion(r, _) => assert RoomGrows(rooms[r], rooms'[r]) && RoomOk(rooms'[r]);
    case JoinArm(r) => assert RoomGrows(rooms[r], rooms'[r]) && RoomOk(rooms'[r]);
    case _ =>
  }

  /** A step that changes at most call `c` and the room table, and keeps `c`, keeps all calls. */
  lemma OtherCallsOk(m: Machine, m': Machine, c: nat)
    requires CallsOk(m) && c < |m.calls|
    requires Grows(m.w.rooms, m'.w.rooms) && RoomsOk(m'.w.rooms)
    requires |m'.calls| == |m.calls| && m'.calls == m.calls[c := m'.calls[c]]
    requires CallOk(m'.w.rooms, c, m'.calls[c])
    ensures CallsOk(m')
  {
    forall i | 0 <= i < |m'.calls| && i != c ensures CallOk(m'.w.rooms, i, m'.calls[i]) {
      CallOkGrows(m.w.rooms, m'.w.rooms, i, m.calls[i]);
    }
  }

  /** The history facts survive a step of call `c` that neither arms a timer nor writes a question. */
  lemma HistoryOk(m: Machine, m': Machine, c: nat)
    requires Inv(m) && c < |m.calls| && !m.calls[c].Done?
    requires Grows(m.w.rooms, m'.w.rooms) && RoomsOk(m'.w.rooms)
    requires |m'.calls| == |m.calls| && m'.calls == m.calls[c := m'.calls[c]]
    requires m.calls[c].JoinArm? ==> m'.calls[c].Done? || m'.calls[c].JoinArm?
    requires m'.arms == m.arms
    requires forall r :: r in m'.w.rooms ==> r in m.w.rooms && m'.w.rooms[r].question == m.w.rooms[r].question
    ensures ArmsOk(m') && QuestionsOk(m')
  {
    forall i | 0 <= i < |m'.arms|
      ensures m'.calls[m'.arms[i].call].Done? && SecondSeat(m'.w.rooms, m'.arms[i].room, m'.arms[i].call)
    {
      var r := m.arms[i].room;
      assert RoomGrows(m.w.rooms[r], m'.w.rooms[r]) && RoomOk(m'.w.rooms[r]);
    }
    forall r | r in m'.w.rooms && m'.w.rooms[r].question.Some? ensures Asked(m', m'.w.rooms[r]) {
      assert Asked(m, m.w.rooms[r]);
      assert RoomGrows(m.w.rooms[r], m'.w.rooms[r]) && RoomOk(m'.w.rooms[r]);
    }
  }

  /** A step of call `c` that writes no table keeps everything if the call's new local values are right. */
  lemma QuietStep(m: Machine, m': Machine, c: nat)
    requires Inv(m) && c < |m.calls| && !m.calls[c].Done? && (m.calls[c].JoinArm? ==> m'.calls == m.calls)
    requires m'.w.rooms == m.w.rooms && m'.arms == m.arms && m'.stale == m.stale
    requires |m'.calls| == |m.calls| && m'.calls == m.calls[c := m'.calls[c]]
    requires CallOk(m.w.rooms, c, m'.calls[c])
    ensures Inv(m') && Grows(m.w.rooms, m'.w.rooms)
  {
    OtherCallsOk(m, m', c);
    HistoryOk(m, m', c);
  }

  lemma TransitionedRoom(room: Room, from: DebateState, to: DebateState)
    requires RoomOk(room) && IsValidTransition(from, to) && Entered(room.log, from)
    ensures var room' := WithTransition(room, from, to);
            && RoomOk(room') && RoomGrows(room, room')
            && (IsPath(room'.log) <==> IsPath(room.log) && from == room.state)
  {
    AppendRecord(room.log, Record(from, to));
  }

  /** A step of call `c` that replaces room `r` by a grown one with the same question. */
  lemma WriteStep(m: Machine, m': Machine, c: nat, r: RoomId, room: Room)
    requires Inv(m) && c < |m.calls| && !m.calls[c].Done? && !m.calls[c].JoinArm?
    requires r in m.w.rooms && m'.w.rooms == m.w.rooms[r := room] && m'.arms == m.arms
    requires RoomOk(room) && RoomGrows(m.w.rooms[r], room) && room.question == m.w.rooms[r].question
    requires |m'.calls| == |m.calls| && m'.calls == m.calls[c := m'.calls[c]]
    requires CallOk(m'.w.rooms, c, m'.calls[c])
    requires m'.stale - {r} == m.stale - {r} && (r in m'.stale <==> !IsPath(room.log))
    ensures Inv(m') && Grows(m.w.rooms, m'.w.rooms)
  {
    hide RoomOk, RoomGrows, CallOk, IsPath;
    assert RoomsOk(m'.w.rooms);
    assert Grows(m.w.rooms, m'.w.rooms) by {
      forall q | q in m.w.rooms ensures RoomGrows(m.w.rooms[q], m'.w.rooms[q]) {
        SameRoomGrows(m.w.rooms[q]);
      }
    }
    assert StaleOk(m') by {
      forall q | q in m'.w.rooms ensures q in m'.stale <==> !IsPath(m'.w.rooms[q].log) {
        assert q in m'.stale - {r} <==> q in m.stale - {r};
      }
      forall q | q in m'.stale ensures q in m'.w.rooms {
        assert q in m'.stale - {r} <==> q in m.stale - {r};
      }
    }
    OtherCallsOk(m, m', c);
    HistoryOk(m, m', c);
  }

  lemma SameRoomGrows(room: Room)
    ensures RoomGrows(room, room)
  {
  }

  lemma TransitionWriteStep(m: Machine, c: nat)
    requires Inv(m) && c < |m.calls| && m.calls[c].TransitionWrite?
    ensures Inv(ResumeTransition(m, c)) && Grows(m.w.rooms, ResumeTransition(m, c).w.rooms)
  {
    var TransitionWrite(r, from, to) := m.calls[c];
    assert CallOk(m.w.rooms, c, m.calls[c]);
    TransitionedRoom(m.w.rooms[r], from, to);
    WriteStep(m, ResumeTransition(m, c), c, r, WithTransition(m.w.rooms[r], from, to));
  }

  lemma TransitionStep(m: Machine, c: nat)
    requires Inv(m) && c < |m.calls|
    requires m.calls[c].TransitionRead? || m.calls[c].TransitionWrite? || m.calls[c].TransitionAfter?
    ensures Inv(ResumeTransition(m, c)) && Grows(m.w.rooms, ResumeTransition(m, c).w.rooms)
  {
    var m' := ResumeTransition(m, c);
    if m.calls[c].TransitionWrite? {
      TransitionWriteStep(m, c);
    } else {
      if m'.calls[c].TransitionWrite? {
        assert RoomOk(m.w.rooms[m.calls[c].room]);
        LastStateEntered(m.w.rooms[m.calls[c].room].log);
      }
      QuietStep(m, m', c);
    }
  }

  lemma LastStateEntered(log: seq<Record>)
    ensures Entered(log, StateAfter(log))
  {
  }

  lemma EnqueueStep(m: Machine, c: nat)
    requires Inv(m) && c < |m.calls| && m.calls[c].TransitionEnqueue?
    ensures Inv(AddReplay(m, c)) && Inv(AddFinalization(m, c))
    ensures Inv(Put(m, c, AfterAdding(m.calls[c].(replay := false, failed := true))))
    ensures Inv(Put(m, c, AfterAdding(m.calls[c].(finalization := false, failed := true))))
  {
    QuietStep(m, AddReplay(m, c), c);
    QuietStep(m, AddFinalization(m, c), c);
    QuietStep(m, Put(m, c, AfterAdding(m.calls[c].(replay := false, failed := true))), c);
    QuietStep(m, Put(m, c, AfterAdding(m.calls[c].(finalization := false, failed := true))), c);
  }

  /** The insert of a join: POUR into an empty room or CONTRE after POUR, never anything else. */
  lemma InsertSeats(people: seq<Participant>, snapshot: seq<Participant>, row: Participant)
    requires SeatsOk(people) && snapshot <= people && |snapshot| < 2 && row.side == SideAt(|snapshot|)
    requires MayInsert(people, row.user, row.side)
    ensures snapshot == people && SeatsOk(people + [row])
  {
  }

  /** A room in which the next seat is taken. */
  lemma SeatedRoom(room: Room, snapshot: seq<Participant>, row: Participant)
    requires RoomOk(room) && snapshot <= room.participants && |snapshot| < 2 && row.side == SideAt(|snapshot|)
    requires MayInsert(room.participants, row.user, row.side)
    ensures var room' := WithParticipant(room, row);
            RoomOk(room') && RoomGrows(room, room') && snapshot == room.participants
  {
    InsertSeats(room.participants, snapshot, row);
    forall i | 0 <= i < |room.messages|
      ensures SideOf(room.participants + [row], room.messages[i].user).Some?
    {
      SideOfPrefix(room.participants, room.participants + [row], room.messages[i].user);
    }
  }

  lemma JoinInsertStep(m: Machine, c: nat)
    requires Inv(m) && c < |m.calls| && m.calls[c].JoinInsert?
    ensures Inv(ResumeJoin(m, c)) && Grows(m.w.rooms, ResumeJoin(m, c).w.rooms)
  {
    var m' := ResumeJoin(m, c);
    var JoinInsert(r, u, side, people) := m.calls[c];
    assert CallOk(m.w.rooms, c, m.calls[c]);
    var room := m.w.rooms[r];
    if MayInsert(room.participants, u, side) {
      var row := Participant(c, u, side);
      SeatedRoom(room, people, row);
      WriteStep(m, m', c, r, WithParticipant(room, row));
    } else {
      QuietStep(m, m', c);
    }
  }

  lemma FreeSideAt(people: seq<Participant>)
    requires SeatsOk(people) && |people| < 2
    ensures FreeSide(people) == Some(SideAt(|people|))
  {
    if |people| == 1 {
      assert people[0].side == POUR;
    }
  }

  lemma JoinStep(m: Machine, c: nat)
    requires Inv(m) && c < |m.calls| && (m.calls[c].JoinRead? || m.calls[c].JoinPeople?)
    ensures Inv(ResumeJoin(m, c)) && Grows(m.w.rooms, ResumeJoin(m, c).w.rooms)
  {
    assert CallOk(m.w.rooms, c, m.calls[c]);
    if m.calls[c].JoinPeople? && |m.w.rooms[m.calls[c].room].participants| < 2 {
      assert RoomOk(m.w.rooms[m.calls[c].room]);
      FreeSideAt(m.w.rooms[m.calls[c].room].participants);
    }
    QuietStep(m, ResumeJoin(m, c), c);
  }

  /** Arming: no other call can have armed this room, since only one call inserted CONTRE. */
  lemma ArmStep(m: Machine, c: nat, r: RoomId)
    requires Inv(m) && c < |m.calls| && !m.calls[c].Done? && SecondSeat(m.w.rooms, r, c)
    ensures Inv(ArmPrep(m, c, r))
  {
    var m' := ArmPrep(m, c, r);
    OtherCallsOk(m, m', c);
    forall i | 0 <= i < |m.arms| ensures m.arms[i].room != r {
      assert SecondSeat(m.w.rooms, m.arms[i].room, m.arms[i].call) && m.calls[m.arms[i].call].Done?;
    }
    forall i | 0 <= i < |m'.arms|
      ensures m'.calls[m'.arms[i].call].Done? && SecondSeat(m'.w.rooms, m'.arms[i].room, m'.arms[i].call)
    {
      if i < |m.arms| {
        assert m'.arms[i] == m.arms[i];
      }
    }
    forall q | q in m'.w.rooms && m'.w.rooms[q].question.Some? ensures Asked(m', m'.w.rooms[q]) {
      assert Asked(m, m.w.rooms[q]);
    }
  }

  lemma QuestionStep(m: Machine, c: nat)
    requires Inv(m) && c < |m.calls| && m.calls[c].JoinQuestion?
    ensures var m' := ResumeArming(m, c, None); Inv(m') && Grows(m.w.rooms, m'.w.rooms)
  {
    var m' := ResumeArming(m, c, None);
    var JoinQuestion(r, q) := m.calls[c];
    assert CallOk(m.w.rooms, c, m.calls[c]);
    var room := m.w.rooms[r];
    assert room.question.Some? ==> Asked(m, room);
    assert RoomOk(room) && RoomOk(room.(question := Some(q)));
    hide RoomOk, CausallyClosed, IsPath;
    assert Grows(m.w.rooms, m'.w.rooms);
    OtherCallsOk(m, m', c);
    assert ArmsOk(m') && StaleOk(m');
    forall p | p in m'.w.rooms && m'.w.rooms[p].question.Some? ensures Asked(m', m'.w.rooms[p]) {
      assert p != r ==> Asked(m, m.w.rooms[p]);
    }
  }

  lemma ArmingStep(m: Machine, c: nat, picked: Option<nat>)
    requires Inv(m) && c < |m.calls|
    requires m.calls[c].JoinInserted? || m.calls[c].JoinPick? || m.calls[c].JoinQuestion? || m.calls[c].JoinArm?
    ensures var m' := ResumeArming(m, c, picked); Inv(m') && Grows(m.w.rooms, m'.w.rooms)
  {
    var m' := ResumeArming(m, c, picked);
    assert CallOk(m.w.rooms, c, m.calls[c]);
    match m.calls[c]
    case JoinArm(r) => ArmStep(m, c, r);
    case JoinQuestion(r, q) => QuestionStep(m, c);
    case JoinPick(r) =>
      if picked.None? {
        ArmStep(m, c, r);
      } else {
        QuietStep(m, m', c);
      }
    case JoinInserted(r, people) =>
      assert RoomOk(m.w.rooms[r]);
      QuietStep(m, m', c);
  }

  lemma SendWriteStep(m: Machine, c: nat)
    requires Inv(m) && c < |m.calls| && m.calls[c].SendWrite?
    ensures Inv(ResumeSend(m, c)) && Grows(m.w.rooms, ResumeSend(m, c).w.rooms)
  {
    var SendWrite(r, u, text, side) := m.calls[c];
    assert CallOk(m.w.rooms, c, m.calls[c]);
    var room := m.w.rooms[r];
    var room' := WithMessage(room, Message(c, u, text));
    assert RoomOk(room') && room'.messages[|room.messages|] == Message(c, u, text);
    WriteStep(m, ResumeSend(m, c), c, r, room');
  }

  lemma SendStep(m: Machine, c: nat)
    requires Inv(m) && c < |m.calls|
    requires m.calls[c].SendRead? || m.calls[c].SendPeople? || m.calls[c].SendWrite?
    ensures Inv(ResumeSend(m, c)) && Grows(m.w.rooms, ResumeSend(m, c).w.rooms)
  {
    assert CallOk(m.w.rooms, c, m.calls[c]);
    if m.calls[c].SendWrite? {
      SendWriteStep(m, c);
    } else {
      QuietStep(m, ResumeSend(m, c), c);
    }
  }

  lemma BeginStep(m: Machine, call: Call)
    requires Inv(m) && (call.TransitionRead? || call.JoinRead? || call.SendRead?)
    ensures Inv(Begin(m, call))
  {
    var m' := Begin(m, call);
    forall r | r in m'.w.rooms && m'.w.rooms[r].question.Some? ensures Asked(m', m'.w.rooms[r]) {
      assert Asked(m, m.w.rooms[r]);
    }
  }

  lemma RestartStep(m: Machine)
    requires Inv(m)
    ensures Inv(Restarted(m))
  {
  }

  lemma CreateStep(m: Machine, r: RoomId, d: string)
    requires Inv(m)
    ensures Inv(Step(m, CreateRoom(r, d))) && Grows(m.w.rooms, Step(m, CreateRoom(r, d)).w.rooms)
  {
    var m' := Step(m, CreateRoom(r, d));
    assert RoomOk(NewRoom(d)) && IsPath(NewRoom(d).log);
    assert RoomsOk(m'.w.rooms) && Grows(m.w.rooms, m'.w.rooms);
    forall c | 0 <= c < |m'.calls| ensures CallOk(m'.w.rooms, c, m'.calls[c]) {
      CallOkGrows(m.w.rooms, m'.w.rooms, c, m.calls[c]);
    }
    forall q | q in m'.w.rooms && m'.w.rooms[q].question.Some? ensures Asked(m', m'.w.rooms[q]) {
      assert Asked(m, m.w.rooms[q]);
    }
  }

  lemma FailStep(m: Machine, c: nat)
    requires Inv(m) && c < |m.calls| && !m.calls[c].Done?
    ensures Inv(Finish(m, c, StorageFailure))
  {
    OtherCallsOk(m, Finish(m, c, StorageFailure), c);
    HistoryOk(m, Finish(m, c, StorageFailure), c);
  }

  lemma FireStep(m: Machine, t: nat)
    requires Inv(m) && t in m.w.timers.pending
    ensures Inv(FireTimer(m, t))
  {
    var m0 := m.(w := m.w.(timers := Expire(m.w.timers, t)));
    assert Inv(m0) by {
      forall r | r in m0.w.rooms && m0.w.rooms[r].question.Some? ensures Asked(m0, m0.w.rooms[r]) {
        assert Asked(m, m.w.rooms[r]);
      }
    }
    hide Inv;
    match m.w.timers.pending[t]
    case PrepTimer(r) => BeginStep(m0, TransitionRead(r, RUNNING));
    case DebateTimer(r) => BeginStep(m0, TransitionRead(r, VOTING));
  }

  lemma GrowsReflexive(rooms: map<RoomId, Room>)
    ensures Grows(rooms, rooms)
  {
  }

  /** Every event keeps the invariant and only lets rooms grow. */
  lemma StepKeeps(m: Machine, e: Event)
    requires Inv(m)
    ensures Inv(Step(m, e)) && Grows(m.w.rooms, Step(m, e).w.rooms)
  {
    hide Inv, Grows, Resume;
    GrowsReflexive(m.w.rooms);
    match e
    case CreateRoom(r, d) => CreateStep(m, r, d);
    case BeginTransition(r, to) => BeginStep(m, TransitionRead(r, to));
    case BeginJoin(r, u) => BeginStep(m, JoinRead(r, u));
    case BeginSend(r, u, text) => BeginStep(m, SendRead(r, u, text));
    case Advance(c, picked) => if c < |m.calls| { ResumeStep(m, c, picked); }
    case AddReplayJob(c) => if c < |m.calls| && m.calls[c].TransitionEnqueue? { EnqueueStep(m, c); }
    case AddFinalizationJob(c) => if c < |m.calls| && m.calls[c].TransitionEnqueue? { EnqueueStep(m, c); }
    case FailReplayJob(c) => if c < |m.calls| && m.calls[c].TransitionEnqueue? { EnqueueStep(m, c); }
    case FailFinalizationJob(c) => if c < |m.calls| && m.calls[c].TransitionEnqueue? { EnqueueStep(m, c); }
    case Fail(c) =>
      if c < |m.calls| && !m.calls[c].Done? {
        FailStep(m, c);
      }
    case Fire(t) => if t in m.w.timers.pending { FireStep(m, t); }
    case Restart => RestartStep(m);
  }

  lemma ResumeStep(m: Machine, c: nat, picked: Option<nat>)
    requires Inv(m) && c < |m.calls|
    ensures var m' := Resume(m, c, picked); Inv(m') && Grows(m.w.rooms, m'.w.rooms)
  {
    match m.calls[c]
    case TransitionRead(_, _) => TransitionStep(m, c);
    case TransitionWrite(_, _, _) => TransitionStep(m, c);
    case TransitionAfter(_, _, _) => TransitionStep(m, c);
    case JoinRead(_, _) => JoinStep(m, c);
    case JoinPeople(_, _) => JoinStep(m, c);
    case JoinInsert(_, _, _, _) => JoinInsertStep(m, c);
    case JoinInserted(_, _) => ArmingStep(m, c, picked);
    case JoinPick(_) => ArmingStep(m, c, picked);
    case JoinQuestion(_, _) => ArmingStep(m, c, picked);
    case JoinArm(_) => ArmingStep(m, c, picked);
    case SendRead(_, _, _) => SendStep(m, c);
    case SendPeople(_, _, _) => SendStep(m, c);
    case SendWrite(_, _, _, _) => SendStep(m, c);
    case _ =>
  }

  // ----- whole runs

  ghost function After(es: seq<Event>): Machine {
    Run(Step, INIT, es)
  }

  lemma {:induction false} RunKeeps(m: Machine, es: seq<Event>)
    requires Inv(m)
    ensures Inv(Run(Step, m, es)) && Grows(m.w.rooms, Run(Step, m, es).w.rooms)
  {
    if es != [] {
      var before := Run(Step, m, es[..|es| - 1]);
      RunKeeps(m, es[..|es| - 1]);
      StepKeeps(before, es[|es| - 1]);
      GrowsTransitive(m.w.rooms, before.w.rooms, Run(Step, m, es).w.rooms);
    }
  }

  lemma GrowsTransitive(a: map<RoomId, Room>, b: map<RoomId, Room>, c: map<RoomId, Room>)
    requires Grows(a, b) && Grows(b, c)
    ensures Grows(a, c)
  {
    forall r | r in a ensures r in c && RoomGrows(a[r], c[r]) {
      assert RoomGrows(a[r], b[r]) && RoomGrows(b[r], c[r]);
    }
  }

  lemma AlwaysInv(es: seq<Event>)
    ensures Inv(After(es))
  {
    RunKeeps(INIT, es);
  }

  /**
   However calls interleave, a room's history is causally closed, its state is the
   target of the last commit, and a CLOSED room committed all three edges in order.
   */
  lemma HistoryIsCausallyClosed(es: seq<Event>, r: RoomId)
    requires r in After(es).w.rooms
    ensures var room := After(es).w.rooms[r];
            && (forall i :: 0 <= i < |room.log| ==>
                  IsValidTransition(room.log[i].from, room.log[i].to) && Entered(room.log[..i], room.log[i].from))
            && room.state == StateAfter(room.log)
            && (room.state == CLOSED ==>
                  exists i, j, k :: 0 <= i < j < k < |room.log| && room.log[i] == FULL_PATH[0]
                                    && room.log[j] == FULL_PATH[1] && room.log[k] == FULL_PATH[2])
  {
    AlwaysInv(es);
    var room := After(es).w.rooms[r];
    assert RoomOk(room);
    EveryRecordIsCaused(room.log);
    if room.state == CLOSED {
      ClosedNeedsThreeEdges(room.log);
    }
  }

  /**
   The history of a room is one path through the table, that is a prefix of the one
   complete life, exactly when no transaction on it committed from an outdated state.
   */
  lemma SinglePathIffNeverStale(es: seq<Event>, r: RoomId)
    requires r in After(es).w.rooms
    ensures r !in After(es).stale <==> IsPath(After(es).w.rooms[r].log)
    ensures r !in After(es).stale ==> After(es).w.rooms[r].log == FULL_PATH[..Depth(After(es).w.rooms[r].state)]
  {
    AlwaysInv(es);
    var room := After(es).w.rooms[r];
    assert RoomOk(room);
    if IsPath(room.log) {
      PathIsPrefix(room.log);
    }
  }

  /** In any order of joins: [], [POUR] or [POUR, CONTRE], with two different users. */
  lemma SeatsFillInOrder(es: seq<Event>, r: RoomId)
    requires r in After(es).w.rooms
    ensures var people := After(es).w.rooms[r].participants;
            && (people == [] || (|people| == 1 && people[0].side == POUR)
                || (|people| == 2 && people[0].side == POUR && people[1].side == CONTRE
                    && people[0].user != people[1].user))
  {
    AlwaysInv(es);
    assert RoomOk(After(es).w.rooms[r]);
  }

  /** Over a whole run at most one join arms a room's prep timer, and it is the one that inserted CONTRE. */
  lemma PrepTimerArmedOnce(es: seq<Event>, i: nat, j: nat)
    requires i < |After(es).arms| && j < |After(es).arms|
    requires After(es).arms[i].room == After(es).arms[j].room
    ensures i == j
    ensures var arm, rooms := After(es).arms[i], After(es).w.rooms;
            && arm.room in rooms && |rooms[arm.room].participants| == 2
            && rooms[arm.room].participants[1].side == CONTRE
            && rooms[arm.room].participants[1].id == arm.call
  {
    AlwaysInv(es);
    assert SecondSeat(After(es).w.rooms, After(es).arms[i].room, After(es).arms[i].call);
    assert RoomOk(After(es).w.rooms[After(es).arms[i].room]);
  }

  /** Once a room has a question, no later step replaces it. */
  lemma QuestionIsNeverReplaced(es: seq<Event>, fs: seq<Event>, r: RoomId)
    requires r in After(es).w.rooms && After(es).w.rooms[r].question.Some?
    ensures r in After(es + fs).w.rooms && After(es + fs).w.rooms[r].question == After(es).w.rooms[r].question
  {
    AlwaysInv(es);
    RunConcat(Step, INIT, es, fs);
    RunKeeps(After(es), fs);
    assert RoomGrows(After(es).w.rooms[r], After(es + fs).w.rooms[r]);
  }

  // ----- replay

  /** The side getReplay prints for a message author: `new Map(participants)` keeps the last entry of a user. */
  function ReplaySide(people: seq<Participant>, user: string): Option<Side> {
    if people == [] then None
    else if people[|people| - 1].user == user then Some(people[|people| - 1].side)
    else ReplaySide(people[..|people| - 1], user)
  }

  lemma ReplaySideIsSideOf(people: seq<Participant>, user: string)
    requires SeatsOk(people)
    ensures ReplaySide(people, user) == SideOf(people, user)
  {
    if |people| == 2 {
      assert people[1..] == [people[1]] && people[..1] == [people[0]];
      assert ReplaySide([people[0]], user) == SideOf([people[0]], user);
      assert SideOf([people[1]], user) == if people[1].user == user then Some(people[1].side) else None;
    } else if |people| == 1 {
      assert people[1..] == [] && people[..0] == [];
    }
  }

  lemma RoomLater(es: seq<Event>, fs: seq<Event>, r: RoomId)
    requires r in After(es).w.rooms
    ensures r in After(es + fs).w.rooms
    ensures RoomOk(After(es).w.rooms[r]) && RoomOk(After(es + fs).w.rooms[r])
    ensures RoomGrows(After(es).w.rooms[r], After(es + fs).w.rooms[r])
  {
    AlwaysInv(es);
    AlwaysInv(es + fs);
    RunConcat(Step, INIT, es, fs);
    RunKeeps(After(es), fs);
  }

  lemma SideLater(room: Room, room': Room, user: string)
    requires RoomOk(room') && RoomGrows(room, room') && SideOf(room.participants, user).Some?
    ensures ReplaySide(room'.participants, user) == SideOf(room.participants, user)
  {
    SideOfPrefix(room.participants, room'.participants, user);
    ReplaySideIsSideOf(room'.participants, user);
  }

  /**
   A replay whose participants are read no earlier than its messages reports a side
   for every message. Reading both at once is the case `fs == []`.
   */
  lemma ReplayKnowsEveryAuthor(es: seq<Event>, fs: seq<Event>, r: RoomId, i: nat)
    requires r in After(es).w.rooms && i < |After(es).w.rooms[r].messages|
    ensures r in After(es + fs).w.rooms
    ensures ReplaySide(After(es + fs).w.rooms[r].participants, After(es).w.rooms[r].messages[i].user).Some?
  {
    RoomLater(es, fs, r);
    SideLater(After(es).w.rooms[r], After(es + fs).w.rooms[r], After(es).w.rooms[r].messages[i].user);
  }

  /** For a message that `sendMessage` returned, every later replay reports the very side it returned. */
  lemma ReplayReportsSentSide(es: seq<Event>, fs: seq<Event>, c: nat, r: RoomId, msg: Message, side: Side)
    requires c < |After(es).calls| && After(es).calls[c] == Done(Sent(r, msg, side))
    ensures r in After(es).w.rooms && msg in After(es).w.rooms[r].messages
    ensures r in After(es + fs).w.rooms && msg in After(es + fs).w.rooms[r].messages
    ensures ReplaySide(After(es + fs).w.rooms[r].participants, msg.user) == Some(side)
  {
    AlwaysInv(es);
    assert CallOk(After(es).w.rooms, c, After(es).calls[c]);
    RoomLater(es, fs, r);
    SideLater(After(es).w.rooms[r], After(es + fs).w.rooms[r], msg.user);
  }
}
