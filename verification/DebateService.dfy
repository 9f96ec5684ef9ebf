/**
 RoomRepository and DebateService as the classes they are, each method run to its
 end. The methods are proved against the serial model.
 */
module DebateServices {
  import opened Common
  import opened DebateStates
  import opened RoomStore
  import opened RoomProtocol
  import opened RoomSerial
  import RoomProofs

  class RoomRepository {
    var rooms: map<RoomId, Room>

    constructor ()
      ensures rooms == map[]
    {
      rooms := map[];
    }

    method FindById(r: RoomId) returns (room: Option<Room>)
      ensures room == if r in rooms then Some(rooms[r]) else None
    {
      room := if r in rooms then Some(rooms[r]) else None;
    }

    /** `r` is the identifier the database generates. */
    method Create(r: RoomId, debateId: string)
      requires r !in rooms
      modifies this
      ensures rooms == old(rooms)[r := NewRoom(debateId)]
    {
      rooms := rooms[r := NewRoom(debateId)];
    }

    /** Both writes or, when there is no such room, neither. */
    method TransitionState(r: RoomId, from: DebateState, to: DebateState) returns (room: Option<Room>)
      modifies this
      ensures r !in old(rooms) ==> rooms == old(rooms) && room == None
      ensures r in old(rooms) ==> rooms == old(rooms)[r := WithTransition(old(rooms)[r], from, to)]
                                  && room == Some(rooms[r])
    {
      if r !in rooms {
        return None;
      }
      var logged := rooms[r].(log := rooms[r].log + [Record(from, to)]);
      rooms := rooms[r := logged.(state := to)];
      room := Some(rooms[r]);
    }

    method SetQuestion(r: RoomId, question: nat)
      modifies this
      ensures rooms == if r in old(rooms)
                       then old(rooms)[r := old(rooms)[r].(question := Some(question))]
                       else old(rooms)
    {
      if r in rooms {
        rooms := rooms[r := rooms[r].(question := Some(question))];
      }
    }

    method GetParticipants(r: RoomId) returns (people: seq<Participant>)
      ensures people == if r in rooms then rooms[r].participants else []
    {
      people := if r in rooms then rooms[r].participants else [];
    }

    /** The insert fails on an unknown room or on either unique constraint. */
    method AddParticipant(r: RoomId, id: nat, user: string, side: Side) returns (row: Option<Participant>)
      modifies this
      ensures row.Some? <==> r in old(rooms) && MayInsert(old(rooms)[r].participants, user, side)
      ensures row.Some? ==> row.value == Participant(id, user, side)
                            && rooms == old(rooms)[r := WithParticipant(old(rooms)[r], row.value)]
      ensures row.None? ==> rooms == old(rooms)
    {
      if r !in rooms || !MayInsert(rooms[r].participants, user, side) {
        return None;
      }
      row := Some(Participant(id, user, side));
      rooms := rooms[r := WithParticipant(rooms[r], row.value)];
    }

    method SaveMessage(r: RoomId, id: nat, user: string, content: string) returns (msg: Option<Message>)
      modifies this
      ensures msg == if r in old(rooms) then Some(Message(id, user, content)) else None
      ensures rooms == if r in old(rooms)
                       then old(rooms)[r := WithMessage(old(rooms)[r], Message(id, user, content))]
                       else old(rooms)
    {
      if r !in rooms {
        return None;
      }
      msg := Some(Message(id, user, content));
      rooms := rooms[r := WithMessage(rooms[r], msg.value)];
    }
  }

  /** What getReplay answers: every message with the side of its author, '' when that is unknown. */
  datatype Replay = Replay(
    debateId: string,
    state: DebateState,
    participants: seq<Participant>,
    messages: seq<(Message, Option<Side>)>,
    transitions: seq<Record>)

  class DebateService {
    const repo: RoomRepository
    var prepTimers: map<RoomId, nat>
    var debateTimers: map<RoomId, nat>
    var pending: map<nat, Timer>
    var nextTimer: nat
    var replayQueue: seq<Job>
    var finalizationQueue: seq<Job>

    ghost function World(): World
      reads this, repo
    {
      RoomStore.World(repo.rooms, Clock(), replayQueue, finalizationQueue)
    }

    ghost function Clock(): Timers
      reads this
    {
      Timers(prepTimers, debateTimers, pending, nextTimer)
    }

    constructor ()
      ensures fresh(repo) && World() == EMPTY_WORLD
    {
      repo := new RoomRepository();
      prepTimers, debateTimers, pending, nextTimer := map[], map[], map[], 0;
      replayQueue, finalizationQueue := [], [];
    }

    method Transition(r: RoomId, to: DebateState) returns (outcome: Outcome)
      modifies this, repo
      ensures (World(), outcome) == SerialTransition(old(World()), r, to)
    {
      var room := repo.FindById(r);
      if room.None? {
        return NotFound;
      }
      var from := room.value.state;
      if from == to {
        return Transitioned;
      }
      if !IsValidTransition(from, to) {
        return InvalidTransition;
      }
      var updated := repo.TransitionState(r, from, to);
      if to == RUNNING {
        ScheduleDebateTimer(r);
      }
      if to == VOTING {
        ClearDebateTimer(r);
        EnqueueReplayJobs(r, updated.value.debateId);
      }
      if to == CLOSED {
        ClearPrepTimer(r);
        ClearDebateTimer(r);
      }
      return Transitioned;
    }

    /** `id` is the row identifier the database generates and `picked` the answer of randomQuestion. */
    method JoinRoom(r: RoomId, id: nat, user: string, picked: Option<nat>) returns (outcome: Outcome)
      modifies this, repo
      ensures (World(), outcome) == SerialJoin(old(World()), id, r, user, picked)
    {
      var room := repo.FindById(r);
      if room.None? {
        return NotFound;
      }
      if room.value.state != PREPARATION {
        return CannotJoin;
      }
      var current := repo.GetParticipants(r);
      if SideOf(current, user).Some? {
        return Joined;
      }
      if |current| >= 2 {
        return RoomFull;
      }
      var side := FreeSide(current);
      if side.None? {
        return RoomFull;
      }
      var row := repo.AddParticipant(r, id, user, side.value);
      var participants := current + [row.value];
      if |participants| == 2 {
        if picked.Some? {
          repo.SetQuestion(r, picked.value);
        }
        SchedulePrepTimer(r);
      }
      assert repo.rooms == old(repo.rooms)[r := Seated(room.value, id, user, side.value, picked)];
      return Joined;
    }

    method SendMessage(r: RoomId, id: nat, user: string, content: string) returns (outcome: Outcome)
      modifies repo
      ensures (World(), outcome) == SerialSend(old(World()), id, r, user, content)
    {
      var room := repo.FindById(r);
      if room.None? {
        return NotFound;
      }
      if room.value.state != RUNNING {
        return NotRunning;
      }
      var participants := repo.GetParticipants(r);
      var side := SideOf(participants, user);
      if side.None? {
        return NotAParticipant;
      }
      var msg := repo.SaveMessage(r, id, user, content);
      return Sent(r, msg.value, side.value);
    }

    /** The sides come out of a map from users to sides, filled in participant order. */
    method GetReplay(r: RoomId) returns (replay: Option<Replay>)
      ensures replay.None? <==> r !in repo.rooms
      ensures replay.Some? ==>
                var room := repo.rooms[r];
                && replay.value.debateId == room.debateId && replay.value.state == room.state
                && replay.value.participants == room.participants && replay.value.transitions == room.log
                && |replay.value.messages| == |room.messages|
                && forall i :: 0 <= i < |room.messages| ==>
                     replay.value.messages[i]
                     == (room.messages[i], RoomProofs.ReplaySide(room.participants, room.messages[i].user))
    {
      var found := repo.FindById(r);
      if found.None? {
        return None;
      }
      var room := found.value;
      var sideByUser: map<string, Side> := map[];
      for i := 0 to |room.participants|
        invariant forall u :: SideIn(sideByUser, u) == RoomProofs.ReplaySide(room.participants[..i], u)
      {
        var p := room.participants[i];
        sideByUser := sideByUser[p.user := p.side];
        assert room.participants[..i + 1][..i] == room.participants[..i];
      }
      assert room.participants[..|room.participants|] == room.participants;
      var messages := seq(|room.messages|, i requires 0 <= i < |room.messages| =>
        (room.messages[i], SideIn(sideByUser, room.messages[i].user)));
      return Some(Replay(room.debateId, room.state, room.participants, messages, room.log));
    }

    static function SideIn(sides: map<string, Side>, user: string): Option<Side> {
      if user in sides then Some(sides[user]) else None
    }

    /** The callback of the timeout `t`. */
    method Fire(t: nat) returns (outcome: Outcome)
      requires t in pending
      modifies this, repo
      ensures (World(), outcome) == SerialFire(old(World()), t)
    {
      var timer := pending[t];
      pending := pending - {t};
      match timer {
        case PrepTimer(r) =>
          prepTimers := prepTimers - {r};
          outcome := Transition(r, RUNNING);
        case DebateTimer(r) =>
          debateTimers := debateTimers - {r};
          outcome := Transition(r, VOTING);
      }
    }

    method SchedulePrepTimer(r: RoomId)
      modifies this`prepTimers, this`pending, this`nextTimer
      ensures Clock() == SchedulePrep(old(Clock()), r)
    {
      pending := pending[nextTimer := PrepTimer(r)];
      prepTimers := prepTimers[r := nextTimer];
      nextTimer := nextTimer + 1;
    }

    method ScheduleDebateTimer(r: RoomId)
      modifies this`debateTimers, this`pending, this`nextTimer
      ensures Clock() == ScheduleDebate(old(Clock()), r)
    {
      pending := pending[nextTimer := DebateTimer(r)];
      debateTimers := debateTimers[r := nextTimer];
      nextTimer := nextTimer + 1;
    }

    method ClearPrepTimer(r: RoomId)
      modifies this`prepTimers, this`pending
      ensures Clock() == ClearPrep(old(Clock()), r)
    {
      if r in prepTimers {
        pending := pending - {prepTimers[r]};
        prepTimers := prepTimers - {r};
      }
    }

    method ClearDebateTimer(r: RoomId)
      modifies this`debateTimers, this`pending
      ensures Clock() == ClearDebate(old(Clock()), r)
    {
      if r in debateTimers {
        pending := pending - {debateTimers[r]};
        debateTimers := debateTimers - {r};
      }
    }

    method EnqueueReplayJobs(r: RoomId, debateId: string)
      modifies this`replayQueue, this`finalizationQueue
      ensures replayQueue == old(replayQueue) + [Job(debateId, r)]
      ensures finalizationQueue == old(finalizationQueue) + [Job(debateId, r)]
    {
      replayQueue := replayQueue + [Job(debateId, r)];
      finalizationQueue := finalizationQueue + [Job(debateId, r)];
    }
  }
}
