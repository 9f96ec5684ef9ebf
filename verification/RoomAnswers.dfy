/**
 What the answers of the debate service are worth, in every interleaved run: an answer is true of
 the tables, and the tables hold what the requests asked for and nothing else.
 */
module RoomAnswers {
  import opened Common
  import opened Machines
  import opened DebateStates
  import opened RoomStore
  import opened RoomProtocol
  import opened RoomProofs

  datatype Request =
    | ToTransition(room: RoomId, to: DebateState)
    | ToJoin(room: RoomId, user: string)
    | ToSend(room: RoomId, user: string, content: string)

  /** The requests that one event makes; a timeout asks for the transition its room waits for. */
  function NewRequests(m: Machine, e: Event): seq<Request> {
    match e
    case BeginTransition(r, to) => [ToTransition(r, to)]
    case BeginJoin(r, u) => [ToJoin(r, u)]
    case BeginSend(r, u, text) => [ToSend(r, u, text)]
    case Fire(t) =>
      if t !in m.w.timers.pending then []
      else (match m.w.timers.pending[t]
            case PrepTimer(r) => [ToTransition(r, RUNNING)]
            case DebateTimer(r) => [ToTransition(r, VOTING)])
    case _ => []
  }

  /** What call 0, 1, ... of a run was asked. */
  ghost function Requests(es: seq<Event>): seq<Request> {
    if es == [] then []
    else Requests(es[..|es| - 1]) + NewRequests(After(es[..|es| - 1]), es[|es| - 1])
  }

  ghost predicate Seated(rooms: map<RoomId, Room>, r: RoomId, user: string) {
    r in rooms && exists i :: 0 <= i < |rooms[r].participants| && rooms[r].participants[i].user == user
  }

  ghost predicate HasEntered(rooms: map<RoomId, Room>, r: RoomId, s: DebateState) {
    r in rooms && Entered(rooms[r].log, s)
  }

  /** What an answer promises to the one who asked, from then on. */
  ghost predicate TrueAnswer(rooms: map<RoomId, Room>, q: Request, c: nat, outcome: Outcome) {
    match outcome
    case Transitioned => q.ToTransition? && HasEntered(rooms, q.room, q.to)
    case InvalidTransition => q.ToTransition? && exists s :: HasEntered(rooms, q.room, s) && NoEdge(s, q.to)
    case Joined => q.ToJoin? && Seated(rooms, q.room, q.user)
    case CannotJoin => q.ToJoin? && q.room in rooms && rooms[q.room].log != []
    case RoomFull =>
      q.ToJoin? && q.room in rooms && |rooms[q.room].participants| == 2 && !Seated(rooms, q.room, q.user)
    case UniqueViolation => q.ToJoin? && q.room in rooms && rooms[q.room].participants != []
    case Sent(r, msg, side) =>
      && q == ToSend(r, msg.user, msg.content) && msg.id == c && r in rooms && msg in rooms[r].messages
      && exists i :: 0 <= i < |rooms[r].participants| && rooms[r].participants[i].user == msg.user
                     && rooms[r].participants[i].side == side
    case NotRunning => q.ToSend?
    case NotAParticipant => q.ToSend?
    case _ => true
  }

  /** Neither the same state nor the next one. */
  predicate NoEdge(s: DebateState, to: DebateState) {
    Depth(to) != Depth(s) && Depth(to) != Depth(s) + 1
  }

  ghost predicate Serves(rooms: map<RoomId, Room>, q: Request, c: nat, call: Call) {
    match call
    case TransitionRead(r, to) => q == ToTransition(r, to)
    case TransitionWrite(r, _, to) => q == ToTransition(r, to)
    case TransitionAfter(r, to, d) =>
      q == ToTransition(r, to) && HasEntered(rooms, r, to) && rooms[r].debateId == d
    case TransitionEnqueue(r, d, _, _, _) =>
      q == ToTransition(r, VOTING) && HasEntered(rooms, r, VOTING) && rooms[r].debateId == d
    case JoinRead(r, u) => q == ToJoin(r, u)
    case JoinPeople(r, u) => q == ToJoin(r, u)
    case JoinInsert(r, u, _, _) => q == ToJoin(r, u)
    case JoinInserted(r, _) => q.ToJoin? && q.room == r && Seated(rooms, r, q.user)
    case JoinPick(r) => q.ToJoin? && q.room == r && Seated(rooms, r, q.user)
    case JoinQuestion(r, _) => q.ToJoin? && q.room == r && Seated(rooms, r, q.user)
    case JoinArm(r) => q.ToJoin? && q.room == r && Seated(rooms, r, q.user)
    case SendRead(r, u, text) => q == ToSend(r, u, text)
    case SendPeople(r, u, text) => q == ToSend(r, u, text)
    case SendWrite(r, u, text, _) => q == ToSend(r, u, text)
    case Done(outcome) => TrueAnswer(rooms, q, c, outcome)
  }

  // ----- one step of a call

  lemma SeatedGrows(rooms: map<RoomId, Room>, rooms': map<RoomId, Room>, r: RoomId, user: string)
    requires Grows(rooms, rooms') && Seated(rooms, r, user)
    ensures Seated(rooms', r, user)
  {
    assert RoomGrows(rooms[r], rooms'[r]);
    var i :| 0 <= i < |rooms[r].participants| && rooms[r].participants[i].user == user;
    assert rooms'[r].participants[i].user == user;
  }

  lemma EnteredStays(rooms: map<RoomId, Room>, rooms': map<RoomId, Room>, r: RoomId, s: DebateState)
    requires Grows(rooms, rooms') && HasEntered(rooms, r, s)
    ensures HasEntered(rooms', r, s)
  {
    assert RoomGrows(rooms[r], rooms'[r]);
    EnteredGrows(rooms[r].log, rooms'[r].log, s);
  }

  /** Two players are all there will ever be. */
  lemma FullStays(rooms: map<RoomId, Room>, rooms': map<RoomId, Room>, r: RoomId)
    requires Grows(rooms, rooms') && RoomsOk(rooms') && r in rooms && |rooms[r].participants| == 2
    ensures r in rooms' && rooms'[r].participants == rooms[r].participants
  {
    assert RoomGrows(rooms[r], rooms'[r]) && RoomOk(rooms'[r]);
  }

  lemma TrueAnswerGrows(rooms: map<RoomId, Room>, rooms': map<RoomId, Room>, q: Request, c: nat, outcome: Outcome)
    requires Grows(rooms, rooms') && RoomsOk(rooms') && TrueAnswer(rooms, q, c, outcome)
    ensures TrueAnswer(rooms', q, c, outcome)
  {
    hide RoomsOk;
    match outcome
    case Transitioned => EnteredStays(rooms, rooms', q.room, q.to);
    case InvalidTransition =>
      var s :| HasEntered(rooms, q.room, s) && NoEdge(s, q.to);
      EnteredStays(rooms, rooms', q.room, s);
    case Joined => SeatedGrows(rooms, rooms', q.room, q.user);
    case CannotJoin => assert RoomGrows(rooms[q.room], rooms'[q.room]);
    case RoomFull => FullStays(rooms, rooms', q.room);
    case UniqueViolation => assert RoomGrows(rooms[q.room], rooms'[q.room]);
    case Sent(r, msg, side) => SentStays(rooms, rooms', r, msg, side);
    case _ =>
  }

  lemma SentStays(rooms: map<RoomId, Room>, rooms': map<RoomId, Room>, r: RoomId, msg: Message, side: Side)
    requires Grows(rooms, rooms') && r in rooms && msg in rooms[r].messages
    requires exists i :: 0 <= i < |rooms[r].participants| && rooms[r].participants[i].user == msg.user
                         && rooms[r].participants[i].side == side
    ensures r in rooms' && msg in rooms'[r].messages
    ensures exists i :: 0 <= i < |rooms'[r].participants| && rooms'[r].participants[i].user == msg.user
                        && rooms'[r].participants[i].side == side
  {
    assert RoomGrows(rooms[r], rooms'[r]);
    var people, people' := rooms[r].participants, rooms'[r].participants;
    var i :| 0 <= i < |people| && people[i].user == msg.user && people[i].side == side;
    assert people'[i].user == msg.user && people'[i].side == side;
    var j :| 0 <= j < |rooms[r].messages| && rooms[r].messages[j] == msg;
    assert rooms'[r].messages[j] == msg;
  }

  lemma ServesGrows(rooms: map<RoomId, Room>, rooms': map<RoomId, Room>, q: Request, c: nat, call: Call)
    requires Grows(rooms, rooms') && RoomsOk(rooms') && Serves(rooms, q, c, call)
    ensures Serves(rooms', q, c, call)
  {
    hide RoomsOk, TrueAnswer, Seated, HasEntered;
    match call
    case TransitionAfter(r, to, _) =>
      EnteredStays(rooms, rooms', r, to);
      SameDebate(rooms, rooms', r);
    case TransitionEnqueue(r, _, _, _, _) =>
      EnteredStays(rooms, rooms', r, VOTING);
      SameDebate(rooms, rooms', r);
    case JoinInserted(r, _) => SeatedGrows(rooms, rooms', r, q.user);
    case JoinPick(r) => SeatedGrows(rooms, rooms', r, q.user);
    case JoinQuestion(r, _) => SeatedGrows(rooms, rooms', r, q.user);
    case JoinArm(r) => SeatedGrows(rooms, rooms', r, q.user);
    case Done(outcome) => TrueAnswerGrows(rooms, rooms', q, c, outcome);
    case _ =>
  }

  lemma SameDebate(rooms: map<RoomId, Room>, rooms': map<RoomId, Room>, r: RoomId)
    requires Grows(rooms, rooms') && (exists s :: HasEntered(rooms, r, s))
    ensures r in rooms && r in rooms' && rooms'[r].debateId == rooms[r].debateId
  {
    assert RoomGrows(rooms[r], rooms'[r]);
  }

  lemma EdgesOnly(s: DebateState, to: DebateState)
    ensures s != to && !IsValidTransition(s, to) ==> NoEdge(s, to)
  {
  }

  lemma TransitionServes(m: Machine, c: nat, q: Request)
    requires Inv(m) && c < |m.calls| && Serves(m.w.rooms, q, c, m.calls[c])
    requires m.calls[c].TransitionRead? || m.calls[c].TransitionWrite? || m.calls[c].TransitionAfter?
    ensures var m' := ResumeTransition(m, c); |m'.calls| == |m.calls| && Serves(m'.w.rooms, q, c, m'.calls[c])
  {
    var m' := ResumeTransition(m, c);
    assert CallOk(m.w.rooms, c, m.calls[c]);
    match m.calls[c]
    case TransitionRead(r, to) =>
      if r in m.w.rooms {
        assert RoomOk(m.w.rooms[r]);
        LastStateEntered(m.w.rooms[r].log);
        EdgesOnly(m.w.rooms[r].state, to);
        hide NoEdge, Entered, CausallyClosed;
        assert HasEntered(m.w.rooms, r, m.w.rooms[r].state);
      }
    case TransitionWrite(r, from, to) =>
      assert m'.w.rooms[r].log[|m.w.rooms[r].log|].to == to;
    case _ =>
  }

  lemma SeatsAndUsers(people: seq<Participant>, user: string)
    ensures SideOf(people, user).Some? <==> exists i :: 0 <= i < |people| && people[i].user == user
  {
    SideOfFinds(people, user);
  }

  lemma JoinServes(m: Machine, c: nat, q: Request)
    requires Inv(m) && c < |m.calls| && Serves(m.w.rooms, q, c, m.calls[c])
    requires m.calls[c].JoinRead? || m.calls[c].JoinPeople? || m.calls[c].JoinInsert?
    ensures var m' := ResumeJoin(m, c); |m'.calls| == |m.calls| && Serves(m'.w.rooms, q, c, m'.calls[c])
  {
    var call := m.calls[c];
    assert CallOk(m.w.rooms, c, call);
    assert call.room in m.w.rooms ==> RoomOk(m.w.rooms[call.room]);
    hide Inv, CausallyClosed;
    match call
    case JoinRead(r, u) =>
    case JoinPeople(r, u) => JoinPeopleServes(m, c, q);
    case JoinInsert(r, u, side, people) => JoinInsertServes(m, c, q);
  }

  lemma JoinPeopleServes(m: Machine, c: nat, q: Request)
    requires c < |m.calls| && m.calls[c].JoinPeople? && q == ToJoin(m.calls[c].room, m.calls[c].user)
    requires m.calls[c].room in m.w.rooms && RoomOk(m.w.rooms[m.calls[c].room])
    ensures var m' := ResumeJoin(m, c); |m'.calls| == |m.calls| && Serves(m'.w.rooms, q, c, m'.calls[c])
  {
    var people := m.w.rooms[m.calls[c].room].participants;
    SeatsAndUsers(people, m.calls[c].user);
    if |people| < 2 {
      FreeSideAt(people);
    }
  }

  lemma JoinInsertServes(m: Machine, c: nat, q: Request)
    requires c < |m.calls| && m.calls[c].JoinInsert? && q == ToJoin(m.calls[c].room, m.calls[c].user)
    requires m.calls[c].room in m.w.rooms
    ensures var m' := ResumeJoin(m, c); |m'.calls| == |m.calls| && Serves(m'.w.rooms, q, c, m'.calls[c])
  {
    var r, u, m' := m.calls[c].room, m.calls[c].user, ResumeJoin(m, c);
    var people := m.w.rooms[r].participants;
    if MayInsert(people, u, m.calls[c].side) {
      assert m'.w.rooms[r].participants[|people|].user == u;
    } else {
      assert people != [];
    }
  }

  lemma ArmingServes(m: Machine, c: nat, picked: Option<nat>, q: Request)
    requires c < |m.calls| && Serves(m.w.rooms, q, c, m.calls[c])
    requires m.calls[c].JoinInserted? || m.calls[c].JoinPick? || m.calls[c].JoinQuestion? || m.calls[c].JoinArm?
    ensures var m' := ResumeArming(m, c, picked); |m'.calls| == |m.calls| && Serves(m'.w.rooms, q, c, m'.calls[c])
  {
    var m' := ResumeArming(m, c, picked);
    var r := m.calls[c].room;
    assert r in m'.w.rooms && m'.w.rooms[r].participants == m.w.rooms[r].participants;
  }

  lemma SendServes(m: Machine, c: nat, q: Request)
    requires Inv(m) && c < |m.calls| && Serves(m.w.rooms, q, c, m.calls[c])
    requires m.calls[c].SendRead? || m.calls[c].SendPeople? || m.calls[c].SendWrite?
    ensures var m' := ResumeSend(m, c); |m'.calls| == |m.calls| && Serves(m'.w.rooms, q, c, m'.calls[c])
  {
    assert CallOk(m.w.rooms, c, m.calls[c]);
    hide Inv;
    if m.calls[c].SendWrite? {
      SendWriteServes(m, c, q);
    } else {
      hide TrueAnswer, SideOf;
      var m' := ResumeSend(m, c);
      assert m'.calls[c].Done? ==> TrueAnswer(m'.w.rooms, q, c, m'.calls[c].outcome) by { RefusedSend(m, c, q); }
    }
  }

  lemma RefusedSend(m: Machine, c: nat, q: Request)
    requires q.ToSend?
    ensures TrueAnswer(m.w.rooms, q, c, NotFound) && TrueAnswer(m.w.rooms, q, c, NotRunning)
    ensures TrueAnswer(m.w.rooms, q, c, NotAParticipant)
  {
  }

  lemma SendWriteServes(m: Machine, c: nat, q: Request)
    requires c < |m.calls| && m.calls[c].SendWrite? && CallOk(m.w.rooms, c, m.calls[c])
    requires q == ToSend(m.calls[c].room, m.calls[c].user, m.calls[c].content)
    ensures var m' := ResumeSend(m, c); |m'.calls| == |m.calls| && Serves(m'.w.rooms, q, c, m'.calls[c])
  {
    var r, u := m.calls[c].room, m.calls[c].user;
    SideOfFinds(m.w.rooms[r].participants, u);
    var messages := ResumeSend(m, c).w.rooms[r].messages;
    assert messages[|messages| - 1] == Message(c, u, m.calls[c].content);
  }

  lemma ResumeServes(m: Machine, c: nat, picked: Option<nat>, q: Request)
    requires Inv(m) && c < |m.calls| && Serves(m.w.rooms, q, c, m.calls[c])
    ensures var m' := Resume(m, c, picked); |m'.calls| == |m.calls| && Serves(m'.w.rooms, q, c, m'.calls[c])
  {
    hide Inv, Serves, ResumeTransition, ResumeJoin, ResumeArming, ResumeSend;
    var call := m.calls[c];
    if call.TransitionRead? || call.TransitionWrite? || call.TransitionAfter? {
      TransitionServes(m, c, q);
    } else if call.JoinRead? || call.JoinPeople? || call.JoinInsert? {
      JoinServes(m, c, q);
    } else if call.SendRead? || call.SendPeople? || call.SendWrite? {
      SendServes(m, c, q);
    } else if call.JoinInserted? || call.JoinPick? || call.JoinQuestion? || call.JoinArm? {
      ArmingServes(m, c, picked, q);
    }
  }

  lemma OtherStepServes(m: Machine, e: Event, c: nat, q: Request)
    requires c < |m.calls| && Serves(m.w.rooms, q, c, m.calls[c]) && !e.Advance?
    ensures Step(m, e).w.rooms == m.w.rooms || e.CreateRoom?
    ensures c < |Step(m, e).calls|
    ensures Step(m, e).calls[c] == m.calls[c] || Serves(Step(m, e).w.rooms, q, c, Step(m, e).calls[c])
  {
  }

  /** Every call there was goes on to serve its request. */
  lemma StepServes(m: Machine, e: Event, c: nat, q: Request)
    requires Inv(m) && c < |m.calls| && Serves(m.w.rooms, q, c, m.calls[c])
    ensures c < |Step(m, e).calls| && Serves(Step(m, e).w.rooms, q, c, Step(m, e).calls[c])
  {
    StepKeeps(m, e);
    ServesGrows(m.w.rooms, Step(m, e).w.rooms, q, c, m.calls[c]);
    if e.Advance? {
      AdvanceServes(m, e, c, q);
    } else {
      OtherStepServes(m, e, c, q);
    }
    hide Step, Serves, Inv, Grows;
  }

  lemma AdvanceServes(m: Machine, e: Event, c: nat, q: Request)
    requires Inv(m) && c < |m.calls| && Serves(m.w.rooms, q, c, m.calls[c]) && e.Advance?
    ensures c < |Step(m, e).calls|
    ensures Step(m, e).calls[c] == m.calls[c] || Serves(Step(m, e).w.rooms, q, c, Step(m, e).calls[c])
  {
    hide Inv, Serves;
    if e.call < |m.calls| {
      hide Resume;
      if e.call == c {
        ResumeServes(m, c, e.picked, q);
      } else {
        OthersUnmoved(m, e.call, e.picked, c);
      }
    }
  }

  lemma OthersUnmoved(m: Machine, i: nat, picked: Option<nat>, c: nat)
    requires i < |m.calls| && c < |m.calls| && c != i
    ensures |Resume(m, i, picked).calls| == |m.calls| && Resume(m, i, picked).calls[c] == m.calls[c]
  {
  }

  lemma NewCallServes(m: Machine, e: Event)
    ensures |Step(m, e).calls| == |m.calls| + |NewRequests(m, e)|
    ensures NewRequests(m, e) != [] ==>
              |NewRequests(m, e)| == 1
              && Serves(Step(m, e).w.rooms, NewRequests(m, e)[0], |m.calls|, Step(m, e).calls[|m.calls|])
  {
    hide Resume, Expire, TrueAnswer, Seated, HasEntered;
    if e.Advance? && e.call < |m.calls| {
      SameNumber(m, e.call, e.picked);
    }
  }

  lemma SameNumber(m: Machine, c: nat, picked: Option<nat>)
    requires c < |m.calls|
    ensures |Resume(m, c, picked).calls| == |m.calls|
  {
  }

  ghost predicate AllServed(es: seq<Event>) {
    |Requests(es)| == |After(es).calls|
    && forall c :: 0 <= c < |After(es).calls| ==> Serves(After(es).w.rooms, Requests(es)[c], c, After(es).calls[c])
  }

  lemma {:induction false} AlwaysServed(es: seq<Event>)
    ensures AllServed(es)
  {
    if es != [] {
      var before, e := es[..|es| - 1], es[|es| - 1];
      var m := After(before);
      AlwaysServed(before);
      AlwaysInv(before);
      NewCallServes(m, e);
      assert After(es) == Step(m, e);
      hide Step, Serves, NewRequests, Inv;
      forall c | 0 <= c < |After(es).calls|
        ensures Serves(After(es).w.rooms, Requests(es)[c], c, After(es).calls[c])
      {
        if c < |m.calls| {
          StepServes(m, e, c, Requests(before)[c]);
        }
      }
    }
  }

  /**
   However calls interleave, fail and are lost, every answer is true of the tables from then on:
   who is told to have joined is seated; a transition that went through has been entered; a
   refused one had no edge; a message that was sent is stored under the call that asked for it,
   with its author, its text and the author's side; a full room has two other players.
   */
  lemma AnswersAreTrue(es: seq<Event>, fs: seq<Event>, c: nat, outcome: Outcome)
    requires c < |After(es).calls| && After(es).calls[c] == Done(outcome)
    ensures c < |Requests(es)| && TrueAnswer(After(es + fs).w.rooms, Requests(es)[c], c, outcome)
  {
    AlwaysServed(es);
    AlwaysInv(es);
    RunConcat(Step, INIT, es, fs);
    RunKeeps(After(es), fs);
    TrueAnswerGrows(After(es).w.rooms, After(es + fs).w.rooms, Requests(es)[c], c, outcome);
  }
}
