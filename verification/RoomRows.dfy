/** What the tables and queues of the debate service hold, in every interleaved run: what was asked, each once. */
module RoomRows {
  import opened Common
  import opened Machines
  import opened DebateStates
  import opened RoomStore
  import opened RoomProtocol
  import opened RoomProofs
  import opened RoomAnswers

  /** A join past its insert, or one that ended after it; no refusal is among them. */
  predicate Seating(call: Call) {
    call.JoinInserted? || call.JoinPick? || call.JoinQuestion? || call.JoinArm?
    || call == Done(Joined) || call == Done(StorageFailure) || call == Done(Lost)
  }

  predicate PersonOk(row: Participant, r: RoomId, rs: seq<Request>, calls: seq<Call>) {
    row.id < |rs| && row.id < |calls| && rs[row.id] == ToJoin(r, row.user) && Seating(calls[row.id])
  }

  predicate MessageOk(msg: Message, r: RoomId, rs: seq<Request>, calls: seq<Call>) {
    && msg.id < |rs| && msg.id < |calls| && rs[msg.id] == ToSend(r, msg.user, msg.content)
    && calls[msg.id].Done? && calls[msg.id].outcome.Sent?
    && calls[msg.id].outcome.room == r && calls[msg.id].outcome.message == msg
  }

  ghost predicate RecordOk(record: Record, r: RoomId, rs: seq<Request>) {
    exists c :: 0 <= c < |rs| && rs[c] == ToTransition(r, record.to)
  }

  ghost predicate RoomRowsOk(room: Room, r: RoomId, rs: seq<Request>, calls: seq<Call>) {
    && (forall i :: 0 <= i < |room.participants| ==> PersonOk(room.participants[i], r, rs, calls))
    && (forall i :: 0 <= i < |room.messages| ==> MessageOk(room.messages[i], r, rs, calls))
    && (forall i, j :: 0 <= i < j < |room.messages| ==> room.messages[i].id != room.messages[j].id)
    && (forall i :: 0 <= i < |room.log| ==> RecordOk(room.log[i], r, rs))
  }

  predicate JobOk(rooms: map<RoomId, Room>, job: Job) {
    job.room in rooms && rooms[job.room].debateId == job.debateId
  }

  ghost predicate JobsOk(rooms: map<RoomId, Room>, jobs: seq<Job>) {
    forall i :: 0 <= i < |jobs| ==> JobOk(rooms, jobs[i])
  }

  ghost predicate RowsOk(m: Machine, rs: seq<Request>) {
    && (forall r :: r in m.w.rooms ==> RoomRowsOk(m.w.rooms[r], r, rs, m.calls))
    && JobsOk(m.w.rooms, m.w.replayJobs) && JobsOk(m.w.rooms, m.w.finalizationJobs)
  }

  // ----- one event

  /** No call leaves its end, and none that has seated its user comes to refuse it. */
  ghost predicate Progress(calls: seq<Call>, calls': seq<Call>) {
    |calls| <= |calls'|
    && forall c :: 0 <= c < |calls| ==>
         (Seating(calls[c]) ==> Seating(calls'[c])) && (calls[c].Done? ==> calls'[c] == calls[c])
  }

  lemma ResumeProgress(m: Machine, c: nat, picked: Option<nat>)
    requires c < |m.calls|
    ensures Progress(m.calls, Resume(m, c, picked).calls)
  {
    hide SideOf, TakesSide, IsValidTransition, TimersAfter;
  }

  lemma StepProgress(m: Machine, e: Event)
    ensures Progress(m.calls, Step(m, e).calls)
  {
    hide Resume, Expire;
    if e.Advance? && e.call < |m.calls| {
      hide Progress;
      ResumeProgress(m, e.call, e.picked);
      assert Step(m, e) == Resume(m, e.call, e.picked);
    } else if e.Advance? {
      assert Step(m, e) == m;
    }
  }

  lemma RoomRowsLater(room: Room, r: RoomId, rs: seq<Request>, rs': seq<Request>, calls: seq<Call>, calls': seq<Call>)
    requires RoomRowsOk(room, r, rs, calls) && rs <= rs' && Progress(calls, calls')
    ensures RoomRowsOk(room, r, rs', calls')
  {
    forall i | 0 <= i < |room.log| ensures RecordOk(room.log[i], r, rs') {
      assert RecordOk(room.log[i], r, rs);
      var c :| 0 <= c < |rs| && rs[c] == ToTransition(r, room.log[i].to);
      assert rs'[c] == rs[c];
    }
  }

  /** The ways in which one event can change a room, apart from its question. */
  ghost predicate OneRowMore(m: Machine, e: Event, r: RoomId)
    requires r in m.w.rooms && r in Step(m, e).w.rooms
  {
    var room, room' := m.w.rooms[r], Step(m, e).w.rooms[r];
    var same := room.(question := room'.question);
    || room' == same
    || (e.Advance? && e.call < |m.calls| && RowOf(room', same, e.call, m.calls[e.call], Step(m, e).calls, r))
  }

  /** The room of before and one row more, which is what call `c` asked for. */
  predicate RowOf(room': Room, room: Room, c: nat, call: Call, calls': seq<Call>, r: RoomId) {
    || (call.TransitionWrite? && call.room == r
        && room' == room.(state := call.to, log := room.log + [Record(call.from, call.to)]))
    || (call.JoinInsert? && call.room == r && c < |calls'| && calls'[c].JoinInserted?
        && room' == room.(participants := room.participants + [Participant(c, call.user, call.side)]))
    || (call.SendWrite? && call.room == r && c < |calls'|
        && calls'[c] == Done(Sent(r, Message(c, call.user, call.content), call.side))
        && room' == room.(messages := room.messages + [Message(c, call.user, call.content)]))
  }

  lemma StepOneRowMore(m: Machine, e: Event, r: RoomId)
    requires r in m.w.rooms
    ensures r in Step(m, e).w.rooms && OneRowMore(m, e, r)
  {
    hide SideOf, TakesSide, IsValidTransition, TimersAfter, Expire;
  }

  lemma NewRoomIsEmpty(m: Machine, e: Event, r: RoomId)
    requires r !in m.w.rooms && r in Step(m, e).w.rooms
    ensures e.CreateRoom? && e.room == r && Step(m, e).w.rooms[r] == NewRoom(e.debateId)
  {
    hide SideOf, TakesSide, IsValidTransition, TimersAfter, Expire;
  }

  lemma RoomRowsStep(m: Machine, e: Event, rs: seq<Request>, rs': seq<Request>, r: RoomId)
    requires |rs| == |m.calls| && rs <= rs' && r in m.w.rooms && RoomRowsOk(m.w.rooms[r], r, rs, m.calls)
    requires e.Advance? && e.call < |m.calls| ==> Serves(m.w.rooms, rs[e.call], e.call, m.calls[e.call])
    ensures r in Step(m, e).w.rooms && RoomRowsOk(Step(m, e).w.rooms[r], r, rs', Step(m, e).calls)
  {
    StepProgress(m, e);
    StepOneRowMore(m, e, r);
    var room, room', calls' := m.w.rooms[r], Step(m, e).w.rooms[r], Step(m, e).calls;
    RoomRowsLater(room, r, rs, rs', m.calls, calls');
    hide Step, TrueAnswer, HasEntered, Seated;
    if e.Advance? && e.call < |m.calls|
       && RowOf(room', room.(question := room'.question), e.call, m.calls[e.call], calls', r)
    {
      AddedRowOk(room, room', rs, rs', m.calls, calls', e.call, r);
    }
  }

  lemma AddedRowOk(room: Room, room': Room, rs: seq<Request>, rs': seq<Request>, calls: seq<Call>, calls': seq<Call>,
                   c: nat, r: RoomId)
    requires c < |calls| && c < |rs| && rs <= rs' && RoomRowsOk(room, r, rs, calls) && RoomRowsOk(room, r, rs', calls')
    requires RowOf(room', room.(question := room'.question), c, calls[c], calls', r)
    requires calls[c].TransitionWrite? ==> rs[c] == ToTransition(r, calls[c].to)
    requires calls[c].JoinInsert? ==> rs[c] == ToJoin(r, calls[c].user)
    requires calls[c].SendWrite? ==> rs[c] == ToSend(r, calls[c].user, calls[c].content)
    ensures RoomRowsOk(room', r, rs', calls')
  {
    assert rs'[c] == rs[c];
    if calls[c].TransitionWrite? {
      assert RecordOk(Record(calls[c].from, calls[c].to), r, rs');
    } else if calls[c].SendWrite? {
      forall i | 0 <= i < |room.messages| ensures room.messages[i].id != c {
        assert MessageOk(room.messages[i], r, rs, calls);
      }
    }
  }

  /** How an event can change a queue: one job, of the room and debate that its call holds. */
  lemma QueuesOfStep(m: Machine, e: Event)
    ensures var w, w' := m.w, Step(m, e).w;
            && (w'.replayJobs == w.replayJobs || AddsJobOf(m, e, w.replayJobs, w'.replayJobs))
            && (w'.finalizationJobs == w.finalizationJobs || AddsJobOf(m, e, w.finalizationJobs, w'.finalizationJobs))
  {
    hide SideOf, TakesSide, IsValidTransition, TimersAfter, Expire;
  }

  predicate AddsJobOf(m: Machine, e: Event, jobs: seq<Job>, jobs': seq<Job>) {
    (e.AddReplayJob? || e.AddFinalizationJob?) && e.call < |m.calls| && m.calls[e.call].TransitionEnqueue?
    && jobs' == jobs + [Job(m.calls[e.call].debateId, m.calls[e.call].room)]
  }

  lemma JobsLater(rooms: map<RoomId, Room>, rooms': map<RoomId, Room>, jobs: seq<Job>)
    requires JobsOk(rooms, jobs) && Grows(rooms, rooms')
    ensures JobsOk(rooms', jobs)
  {
    forall i | 0 <= i < |jobs| ensures JobOk(rooms', jobs[i]) {
      assert JobOk(rooms, jobs[i]) && RoomGrows(rooms[jobs[i].room], rooms'[jobs[i].room]);
    }
  }

  lemma JobsStep(m: Machine, e: Event, rs: seq<Request>, jobs: seq<Job>, jobs': seq<Job>)
    requires Inv(m) && JobsOk(m.w.rooms, jobs) && (jobs' == jobs || AddsJobOf(m, e, jobs, jobs'))
    requires |rs| == |m.calls| && forall c :: 0 <= c < |m.calls| ==> Serves(m.w.rooms, rs[c], c, m.calls[c])
    ensures JobsOk(Step(m, e).w.rooms, jobs')
  {
    StepKeeps(m, e);
    hide Step, Inv, Grows;
    if jobs' != jobs {
      var call := m.calls[e.call];
      assert Serves(m.w.rooms, rs[e.call], e.call, call);
      assert JobOk(m.w.rooms, Job(call.debateId, call.room));
    }
    JobsLater(m.w.rooms, Step(m, e).w.rooms, jobs');
  }

  lemma RowsStep(m: Machine, e: Event, rs: seq<Request>, rs': seq<Request>)
    requires Inv(m) && RowsOk(m, rs) && |rs| == |m.calls| && rs <= rs'
    requires forall c :: 0 <= c < |m.calls| ==> Serves(m.w.rooms, rs[c], c, m.calls[c])
    ensures RowsOk(Step(m, e), rs')
  {
    QueuesOfStep(m, e);
    JobsStep(m, e, rs, m.w.replayJobs, Step(m, e).w.replayJobs);
    JobsStep(m, e, rs, m.w.finalizationJobs, Step(m, e).w.finalizationJobs);
    hide Step, Serves, RoomRowsOk, JobsOk, Inv;
    forall r | r in Step(m, e).w.rooms ensures RoomRowsOk(Step(m, e).w.rooms[r], r, rs', Step(m, e).calls) {
      if r in m.w.rooms {
        RoomRowsStep(m, e, rs, rs', r);
      } else {
        NewRoomIsEmpty(m, e, r);
        EmptyRowsOk(e.debateId, r, rs', Step(m, e).calls);
      }
    }
  }

  lemma EmptyRowsOk(debateId: string, r: RoomId, rs: seq<Request>, calls: seq<Call>)
    ensures RoomRowsOk(NewRoom(debateId), r, rs, calls)
  {
  }

  lemma {:induction false} AlwaysRowsOk(es: seq<Event>)
    ensures RowsOk(After(es), Requests(es))
  {
    if es != [] {
      var before := es[..|es| - 1];
      AlwaysRowsOk(before);
      AlwaysServed(before);
      AlwaysInv(before);
      RowsStep(After(before), es[|es| - 1], Requests(before), Requests(es));
    }
  }

  // ----- what the tables hold

  /**
   The messages of a room are, each exactly once, those of the sends that were answered, and hold
   the author and the text of their request. A send that was refused, failed or lost stores nothing.
   */
  lemma MessagesAreAnsweredSends(es: seq<Event>, r: RoomId)
    requires r in After(es).w.rooms
    ensures var messages, calls := After(es).w.rooms[r].messages, After(es).calls;
            && (forall msg :: msg in messages
                              <==> exists c, side :: 0 <= c < |calls| && calls[c] == Done(Sent(r, msg, side)))
            && (forall i, j :: 0 <= i < j < |messages| ==> messages[i].id != messages[j].id)
            && (forall i :: 0 <= i < |messages| ==>
                  messages[i].id < |Requests(es)|
                  && Requests(es)[messages[i].id] == ToSend(r, messages[i].user, messages[i].content))
  {
    AlwaysRowsOk(es);
    AlwaysServed(es);
    var m := After(es);
    var messages := m.w.rooms[r].messages;
    assert RoomRowsOk(m.w.rooms[r], r, Requests(es), m.calls);
    forall msg | msg in messages
      ensures exists c, side :: 0 <= c < |m.calls| && m.calls[c] == Done(Sent(r, msg, side))
    {
      var i :| 0 <= i < |messages| && messages[i] == msg;
      assert MessageOk(messages[i], r, Requests(es), m.calls);
      assert m.calls[msg.id] == Done(Sent(r, msg, m.calls[msg.id].outcome.side));
    }
    forall c, side, msg | 0 <= c < |m.calls| && m.calls[c] == Done(Sent(r, msg, side)) ensures msg in messages {
      assert Serves(m.w.rooms, Requests(es)[c], c, m.calls[c]);
    }
  }

  /**
   Every participant was seated by a join of that user for that room, and that join was not
   refused; every transition of the log was asked for, by a caller or by a timeout of the room;
   every job in either queue names the debate of its room.
   */
  lemma RowsWereRequested(es: seq<Event>, r: RoomId)
    requires r in After(es).w.rooms
    ensures var room, rs, calls := After(es).w.rooms[r], Requests(es), After(es).calls;
            && (forall i :: 0 <= i < |room.participants| ==>
                  var row := room.participants[i];
                  row.id < |rs| && rs[row.id] == ToJoin(r, row.user) && row.id < |calls|
                  && calls[row.id] !in {Done(CannotJoin), Done(RoomFull), Done(UniqueViolation), Done(NotFound)})
            && (forall i :: 0 <= i < |room.log| ==> ToTransition(r, room.log[i].to) in rs)
            && (forall job :: (job in After(es).w.replayJobs || job in After(es).w.finalizationJobs) && job.room == r
                              ==> job.debateId == room.debateId)
  {
    AlwaysRowsOk(es);
    var m := After(es);
    assert RoomRowsOk(m.w.rooms[r], r, Requests(es), m.calls);
    forall i | 0 <= i < |m.w.rooms[r].log| ensures ToTransition(r, m.w.rooms[r].log[i].to) in Requests(es) {
      assert RecordOk(m.w.rooms[r].log[i], r, Requests(es));
    }
    forall job | job in m.w.replayJobs || job in m.w.finalizationJobs ensures JobOk(m.w.rooms, job) {
    }
  }

  /** A room belongs to the debate that its creation named. */
  lemma {:induction false} RoomOfItsDebate(es: seq<Event>, r: RoomId)
    requires r in After(es).w.rooms
    ensures CreateRoom(r, After(es).w.rooms[r].debateId) in es
  {
    var before, e := es[..|es| - 1], es[|es| - 1];
    assert es == before + [e];
    if r in After(before).w.rooms {
      RoomOfItsDebate(before, r);
      StepOneRowMore(After(before), e, r);
    } else {
      NewRoomIsEmpty(After(before), e, r);
    }
  }

  // ----- the question of a room

  /** At event `n` randomQuestion answered `q` to the join `c` that had filled room `r`. */
  ghost predicate Picked(es: seq<Event>, n: nat, c: nat, r: RoomId, q: nat) {
    n < |es| && es[n] == Advance(c, Some(q)) && c < |After(es[..n]).calls| && After(es[..n]).calls[c] == JoinPick(r)
  }

  ghost predicate WasPicked(es: seq<Event>, c: nat, r: RoomId, q: nat) {
    exists n: nat :: Picked(es, n, c, r, q)
  }

  /** Where a join stands to which `q` was answered. */
  predicate Keeps(rooms: map<RoomId, Room>, call: Call, r: RoomId, q: nat) {
    || call == JoinQuestion(r, q)
    || ((call == JoinArm(r) || call == Done(Joined)) && r in rooms && rooms[r].question == Some(q))
    || call == Done(StorageFailure) || call == Done(Lost)
  }

  ghost predicate QuestionsPicked(es: seq<Event>) {
    var m := After(es);
    && (forall r :: r in m.w.rooms && m.w.rooms[r].question.Some? ==>
          |m.w.rooms[r].participants| == 2
          && WasPicked(es, m.w.rooms[r].participants[1].id, r, m.w.rooms[r].question.value))
    && (forall c :: 0 <= c < |m.calls| && m.calls[c].JoinQuestion? ==>
          WasPicked(es, c, m.calls[c].room, m.calls[c].question))
    && (forall c: nat, r, q: nat :: WasPicked(es, c, r, q) ==> c < |m.calls| && Keeps(m.w.rooms, m.calls[c], r, q))
  }

  lemma PickedLater(es: seq<Event>, e: Event, c: nat, r: RoomId, q: nat)
    ensures WasPicked(es, c, r, q) ==> WasPicked(es + [e], c, r, q)
    ensures WasPicked(es + [e], c, r, q) ==>
              WasPicked(es, c, r, q)
              || (e == Advance(c, Some(q)) && c < |After(es).calls| && After(es).calls[c] == JoinPick(r))
    ensures e == Advance(c, Some(q)) && c < |After(es).calls| && After(es).calls[c] == JoinPick(r)
            ==> WasPicked(es + [e], c, r, q)
  {
    var es' := es + [e];
    assert es'[..|es|] == es;
    if WasPicked(es, c, r, q) {
      var n: nat :| Picked(es, n, c, r, q);
      assert es'[..n] == es[..n];
      assert Picked(es', n, c, r, q);
    }
    if WasPicked(es', c, r, q) {
      var n: nat :| Picked(es', n, c, r, q);
      if n < |es| {
        assert es'[..n] == es[..n];
        assert Picked(es, n, c, r, q);
      }
    }
    if e == Advance(c, Some(q)) && c < |After(es).calls| && After(es).calls[c] == JoinPick(r) {
      assert Picked(es', |es|, c, r, q);
    }
  }

  /** Who keeps an answer of randomQuestion goes on to. */
  lemma KeepsLater(m: Machine, e: Event, c: nat, r: RoomId, q: nat)
    requires Inv(m) && c < |m.calls| && Keeps(m.w.rooms, m.calls[c], r, q)
    ensures c < |Step(m, e).calls| && Keeps(Step(m, e).w.rooms, Step(m, e).calls[c], r, q)
  {
    StepKeeps(m, e);
    if r in m.w.rooms {
      assert RoomGrows(m.w.rooms[r], Step(m, e).w.rooms[r]);
    }
    assert CallOk(m.w.rooms, c, m.calls[c]);
    hide Step, Inv, Grows;
    if e.Advance? && e.call == c {
      KeeperMoves(m, e, c, r, q);
    } else {
      KeeperUnmoved(m, e, c);
    }
  }

  lemma KeeperMoves(m: Machine, e: Event, c: nat, r: RoomId, q: nat)
    requires c < |m.calls| && CallOk(m.w.rooms, c, m.calls[c]) && Keeps(m.w.rooms, m.calls[c], r, q)
    requires e.Advance? && e.call == c
    ensures c < |Step(m, e).calls| && Keeps(Step(m, e).w.rooms, Step(m, e).calls[c], r, q)
  {
    hide ResumeTransition, ResumeJoin, ResumeSend, SchedulePrep;
  }

  lemma KeeperUnmoved(m: Machine, e: Event, c: nat)
    requires c < |m.calls| && !(e.Advance? && e.call == c)
    requires m.calls[c].JoinQuestion? || m.calls[c].JoinArm? || m.calls[c].Done?
    ensures c < |Step(m, e).calls|
    ensures var call' := Step(m, e).calls[c];
            call' == m.calls[c] || call' == Done(StorageFailure) || call' == Done(Lost)
  {
    hide Resume, Expire;
    if e.Advance? && e.call < |m.calls| {
      OthersUnmoved(m, e.call, e.picked, c);
    }
  }

  /** A question comes from the JoinQuestion of the join that filled the room. */
  lemma NewQuestion(m: Machine, e: Event, r: RoomId)
    requires Inv(m) && r in Step(m, e).w.rooms && Step(m, e).w.rooms[r].question.Some?
    requires !(r in m.w.rooms && m.w.rooms[r].question == Step(m, e).w.rooms[r].question)
    ensures e.Advance? && e.call < |m.calls| && r in m.w.rooms && |m.w.rooms[r].participants| == 2
            && m.calls[e.call] == JoinQuestion(r, Step(m, e).w.rooms[r].question.value)
            && Step(m, e).w.rooms[r].participants == m.w.rooms[r].participants
            && m.w.rooms[r].participants[1].id == e.call
  {
    if e.Advance? && e.call < |m.calls| {
      assert CallOk(m.w.rooms, e.call, m.calls[e.call]);
      hide Inv;
      OnlyJoinQuestionWrites(m, e.call, e.picked, r);
    } else {
      hide Inv, Resume, Expire;
    }
  }

  lemma OnlyJoinQuestionWrites(m: Machine, c: nat, picked: Option<nat>, r: RoomId)
    requires c < |m.calls|
    ensures var rooms, rooms' := m.w.rooms, Resume(m, c, picked).w.rooms;
            (r in rooms' ==> r in rooms && rooms'[r].question == rooms[r].question)
            || (r in rooms && r in rooms' && rooms'[r].question.Some? && rooms'[r].participants == rooms[r].participants
                && m.calls[c] == JoinQuestion(r, rooms'[r].question.value))
  {
    hide SideOf, TakesSide, TimersAfter, SchedulePrep;
  }

  lemma QuestionsPickedStep(es: seq<Event>, e: Event)
    requires QuestionsPicked(es)
    ensures QuestionsPicked(es + [e])
  {
    AlwaysInv(es);
    var m, m' := After(es), After(es + [e]);
    RunSnoc(Step, INIT, es, e);
    StepKeeps(m, e);
    forall r | r in m'.w.rooms && m'.w.rooms[r].question.Some?
      ensures |m'.w.rooms[r].participants| == 2
      ensures WasPicked(es + [e], m'.w.rooms[r].participants[1].id, r, m'.w.rooms[r].question.value)
    {
      QuestionWasPicked(es, e, r);
    }
    forall c | 0 <= c < |m'.calls| && m'.calls[c].JoinQuestion?
      ensures WasPicked(es + [e], c, m'.calls[c].room, m'.calls[c].question)
    {
      NewJoinQuestion(m, e, c);
      PickedLater(es, e, c, m'.calls[c].room, m'.calls[c].question);
    }
    hide Step, Inv, Grows;
    forall c: nat, r, q: nat | WasPicked(es + [e], c, r, q)
      ensures c < |m'.calls| && Keeps(m'.w.rooms, m'.calls[c], r, q)
    {
      PickedLater(es, e, c, r, q);
      if WasPicked(es, c, r, q) {
        KeepsLater(m, e, c, r, q);
      } else {
        AnswerIsKept(m, c, r, q);
      }
    }
  }

  lemma AnswerIsKept(m: Machine, c: nat, r: RoomId, q: nat)
    requires c < |m.calls| && m.calls[c] == JoinPick(r)
    ensures c < |Step(m, Advance(c, Some(q))).calls| && Step(m, Advance(c, Some(q))).calls[c] == JoinQuestion(r, q)
  {
  }

  lemma NewJoinQuestion(m: Machine, e: Event, c: nat)
    requires c < |Step(m, e).calls| && Step(m, e).calls[c].JoinQuestion?
    ensures c < |m.calls|
    ensures var call := Step(m, e).calls[c];
            m.calls[c] == call || (e == Advance(c, Some(call.question)) && m.calls[c] == JoinPick(call.room))
  {
    hide SideOf, TakesSide, TimersAfter, Expire, IsValidTransition;
  }

  lemma QuestionWasPicked(es: seq<Event>, e: Event, r: RoomId)
    requires QuestionsPicked(es)
    requires r in After(es + [e]).w.rooms && After(es + [e]).w.rooms[r].question.Some?
    ensures |After(es + [e]).w.rooms[r].participants| == 2
    ensures var room := After(es + [e]).w.rooms[r];
            WasPicked(es + [e], room.participants[1].id, r, room.question.value)
  {
    AlwaysInv(es);
    var m, m' := After(es), After(es + [e]);
    RunSnoc(Step, INIT, es, e);
    StepKeeps(m, e);
    var q := m'.w.rooms[r].question;
    if r in m.w.rooms && m.w.rooms[r].question == q {
      assert RoomGrows(m.w.rooms[r], m'.w.rooms[r]) && RoomOk(m'.w.rooms[r]);
    } else {
      NewQuestion(m, e, r);
    }
    PickedLater(es, e, m'.w.rooms[r].participants[1].id, r, q.value);
    hide Step, Inv, Grows;
  }

  lemma {:induction false} AlwaysPicked(es: seq<Event>)
    ensures QuestionsPicked(es)
  {
    if es != [] {
      AlwaysPicked(es[..|es| - 1]);
      assert es == es[..|es| - 1] + [es[|es| - 1]];
      QuestionsPickedStep(es[..|es| - 1], es[|es| - 1]);
    }
  }

  /**
   A question of a room is one that randomQuestion answered to the join that filled the room, and
   if that join went through the room has the question it was answered, or none if it was answered none.
   */
  lemma QuestionIsThePickedOne(es: seq<Event>, r: RoomId)
    requires r in After(es).w.rooms && |After(es).w.rooms[r].participants| == 2
    requires After(es).w.rooms[r].participants[1].id < |After(es).calls|
    ensures var room, c := After(es).w.rooms[r], After(es).w.rooms[r].participants[1].id;
            && (room.question.Some? ==> WasPicked(es, c, r, room.question.value))
            && (After(es).calls[c] == Done(Joined)
                ==> forall q: nat :: room.question == Some(q) <==> WasPicked(es, c, r, q))
  {
    AlwaysPicked(es);
  }
}
