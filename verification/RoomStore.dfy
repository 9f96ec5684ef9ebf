/**
 The tables of the debate service, its in-process timers and its two job queues,
 with one function for every statement that changes them. The interleaved model,
 the serial model and the service class all use these functions.
 */
module RoomStore {
  import opened Common
  import opened DebateStates

  type RoomId = nat

  datatype Side = POUR | CONTRE

  /** `id` is the primary key of the row; it names the call that inserted it. */
  datatype Participant = Participant(id: nat, user: string, side: Side)

  datatype Message = Message(id: nat, user: string, content: string)

  /** A row of rooms with the participants, messages and transitions that refer to it, in insertion order. */
  datatype Room = Room(
    debateId: string,
    state: DebateState,
    question: Option<nat>,
    participants: seq<Participant>,
    messages: seq<Message>,
    log: seq<Record>)

  datatype Timer = PrepTimer(room: RoomId) | DebateTimer(room: RoomId)

  /** `prep` and `debate` are the two maps of the service; `pending` is what setTimeout still holds. */
  datatype Timers = Timers(
    prep: map<RoomId, nat>,
    debate: map<RoomId, nat>,
    pending: map<nat, Timer>,
    next: nat)

  datatype Job = Job(debateId: string, room: RoomId)

  datatype World = World(
    rooms: map<RoomId, Room>,
    timers: Timers,
    replayJobs: seq<Job>,
    finalizationJobs: seq<Job>)

  const EMPTY_WORLD := World(map[], Timers(map[], map[], map[], 0), [], [])

  // ----- statements on the tables

  function NewRoom(debateId: string): Room {
    Room(debateId, PREPARATION, None, [], [], [])
  }

  /** Both writes of the transition transaction. It filters by id only, whatever the stored state is. */
  function WithTransition(room: Room, from: DebateState, to: DebateState): Room {
    room.(state := to, log := room.log + [Record(from, to)])
  }

  function WithParticipant(room: Room, row: Participant): Room {
    room.(participants := room.participants + [row])
  }

  function WithMessage(room: Room, msg: Message): Room {
    room.(messages := room.messages + [msg])
  }

  function SideOf(people: seq<Participant>, user: string): Option<Side> {
    if people == [] then None
    else if people[0].user == user then Some(people[0].side)
    else SideOf(people[1..], user)
  }

  predicate TakesSide(people: seq<Participant>, side: Side) {
    exists i :: 0 <= i < |people| && people[i].side == side
  }

  /** The first side of [POUR, CONTRE] that nobody in `people` has taken. */
  function FreeSide(people: seq<Participant>): Option<Side> {
    if !TakesSide(people, POUR) then Some(POUR)
    else if !TakesSide(people, CONTRE) then Some(CONTRE)
    else None
  }

  /** Both unique constraints of the participants table: (room, user) and (room, side). */
  predicate MayInsert(people: seq<Participant>, user: string, side: Side) {
    SideOf(people, user).None? && !TakesSide(people, side)
  }

  function WithRoom(w: World, r: RoomId, room: Room): World {
    w.(rooms := w.rooms[r := room])
  }

  // ----- timers

  function SchedulePrep(t: Timers, r: RoomId): Timers {
    t.(prep := t.prep[r := t.next], pending := t.pending[t.next := PrepTimer(r)], next := t.next + 1)
  }

  function ScheduleDebate(t: Timers, r: RoomId): Timers {
    t.(debate := t.debate[r := t.next], pending := t.pending[t.next := DebateTimer(r)], next := t.next + 1)
  }

  function ClearPrep(t: Timers, r: RoomId): Timers {
    if r in t.prep then t.(prep := t.prep - {r}, pending := t.pending - {t.prep[r]}) else t
  }

  function ClearDebate(t: Timers, r: RoomId): Timers {
    if r in t.debate then t.(debate := t.debate - {r}, pending := t.pending - {t.debate[r]}) else t
  }

  /** The timeout `id` goes off: its callback first deletes the entry of its room from the map. */
  function Expire(t: Timers, id: nat): Timers
    requires id in t.pending
  {
    var rest := t.(pending := t.pending - {id});
    match t.pending[id]
    case PrepTimer(r) => rest.(prep := t.prep - {r})
    case DebateTimer(r) => rest.(debate := t.debate - {r})
  }

  /** What `transition` does to the timers once its transaction has committed. */
  function TimersAfter(t: Timers, r: RoomId, to: DebateState): Timers {
    match to
    case PREPARATION => t
    case RUNNING => ScheduleDebate(t, r)
    case VOTING => ClearDebate(t, r)
    case CLOSED => ClearDebate(ClearPrep(t, r), r)
  }

  // ----- jobs

  /** How many jobs of a queue are about room `r`. */
  function JobsFor(jobs: seq<Job>, r: RoomId): nat {
    if jobs == [] then 0 else JobsFor(jobs[..|jobs| - 1], r) + if jobs[|jobs| - 1].room == r then 1 else 0
  }

  lemma OneMoreJob(jobs: seq<Job>, job: Job)
    ensures forall r :: JobsFor(jobs + [job], r) == JobsFor(jobs, r) + if job.room == r then 1 else 0
  {
  }

  // ----- facts about sides

  lemma {:induction false} SideOfPrefix(people: seq<Participant>, more: seq<Participant>, user: string)
    requires people <= more && SideOf(people, user).Some?
    ensures SideOf(more, user) == SideOf(people, user)
  {
    if people[0].user != user {
      SideOfPrefix(people[1..], more[1..], user);
    }
  }

  /** `SideOf` finds a participant exactly when there is one, and reports a side that participant has. */
  lemma {:induction false} SideOfFinds(people: seq<Participant>, user: string)
    ensures SideOf(people, user).None? <==> forall i :: 0 <= i < |people| ==> people[i].user != user
    ensures SideOf(people, user).Some? ==> exists i :: 0 <= i < |people| && people[i].user == user
                                                       && people[i].side == SideOf(people, user).value
  {
    if people != [] && people[0].user != user {
      SideOfFinds(people[1..], user);
      forall i | 0 < i < |people| ensures people[i] == people[1..][i - 1] {}
      if SideOf(people, user).Some? {
        var i :| 0 <= i < |people[1..]| && people[1..][i].user == user
                 && people[1..][i].side == SideOf(people[1..], user).value;
        assert people[i + 1].user == user;
      }
    }
  }
}
