/** When a replay knows the side of every author, whatever the order of its reads. */
module RoomReplay {
  import opened Common
  import opened Machines
  import opened DebateStates
  import opened RoomStore
  import opened RoomProtocol
  import opened RoomProofs
  import opened RoomRefinement

  /** The participants as read after `es` give a side to every message of room `r` after `es + fs`. */
  ghost predicate KnowsAll(es: seq<Event>, fs: seq<Event>, r: RoomId) {
    r in After(es).w.rooms && r in After(es + fs).w.rooms
    && forall msg :: msg in After(es + fs).w.rooms[r].messages
                     ==> ReplaySide(After(es).w.rooms[r].participants, msg.user).Some?
  }

  /** Once a room has both players, a read of them serves the messages of every earlier and later moment. */
  lemma FullReadKnowsAll(es: seq<Event>, fs: seq<Event>, r: RoomId)
    requires r in After(es).w.rooms && |After(es).w.rooms[r].participants| == 2
    ensures KnowsAll(es, fs, r)
  {
    RoomLater(es, fs, r);
    var people, room := After(es).w.rooms[r].participants, After(es + fs).w.rooms[r];
    assert room.participants == people;
    forall msg | msg in room.messages ensures ReplaySide(people, msg.user).Some? {
      var i :| 0 <= i < |room.messages| && room.messages[i] == msg;
      ReplaySideIsSideOf(people, msg.user);
    }
  }

  function NewUser(people: seq<Participant>): string {
    if people == [] then "u" else people[0].user + "u"
  }

  lemma NewUserIsNew(people: seq<Participant>)
    requires |people| < 2
    ensures SideOf(people, NewUser(people)).None? && ReplaySide(people, NewUser(people)).None?
  {
    if |people| == 1 {
      assert |NewUser(people)| == |people[0].user| + 1;
      assert people[1..] == [] && people[..0] == [];
    }
  }

  /** A room that waits for a player can get one whose message an earlier read of the participants misses. */
  lemma ShortReadCanMissAuthor(es: seq<Event>, r: RoomId) returns (fs: seq<Event>)
    requires r in After(es).w.rooms && After(es).w.rooms[r].state == PREPARATION
    requires |After(es).w.rooms[r].participants| < 2
    ensures !KnowsAll(es, fs, r)
  {
    hide Run, Leads;
    var m := After(es);
    var people := m.w.rooms[r].participants;
    var user := NewUser(people);
    NewUserIsNew(people);
    AlwaysInv(es);
    assert RoomOk(m.w.rooms[r]);
    FreeSideAt(people);
    var joined := JoinIsARun(m, r, user, None);
    SideOfLast(people, Participant(|m.calls|, user, SideAt(|people|)));
    var started := TransitionIsARun(joined, r, RUNNING);
    var sent := SendIsARun(started, r, user, "hello");
    LeadsTransitive(Step, m, joined, started);
    LeadsTransitive(Step, m, started, sent);
    fs := Continuation(es, sent);
    var messages := sent.w.rooms[r].messages;
    assert messages[|messages| - 1].user == user;
    assert messages[|messages| - 1] in messages;
  }

  lemma SideOfLast(people: seq<Participant>, row: Participant)
    requires |people| < 2 && SideOf(people, row.user).None?
    ensures SideOf(people + [row], row.user) == Some(row.side)
  {
    if |people| == 1 {
      assert (people + [row])[1..] == [row];
    }
  }

  lemma Continuation(es: seq<Event>, m: Machine) returns (fs: seq<Event>)
    requires Leads(Step, After(es), m)
    ensures After(es + fs) == m
  {
    fs :| Run(Step, After(es), fs) == m;
    RunConcat(Step, INIT, es, fs);
  }

  /**
   For a room in PREPARATION: the participants read now suffice for every replay of every
   continuation, whatever is read first, if and only if both players are there.
   */
  lemma ReadSufficesIffFull(es: seq<Event>, r: RoomId)
    requires r in After(es).w.rooms && After(es).w.rooms[r].state == PREPARATION
    ensures (forall fs :: KnowsAll(es, fs, r)) <==> |After(es).w.rooms[r].participants| == 2
  {
    if |After(es).w.rooms[r].participants| == 2 {
      forall fs ensures KnowsAll(es, fs, r) {
        FullReadKnowsAll(es, fs, r);
      }
    } else {
      AlwaysInv(es);
      assert RoomOk(After(es).w.rooms[r]);
      var fs := ShortReadCanMissAuthor(es, r);
    }
  }

  // ----- rooms that have left PREPARATION

  /** The call is past the check of the room's state and seats user `u` if nothing else is written first. */
  predicate WillSeat(people: seq<Participant>, call: Call, r: RoomId, u: string) {
    || (call == JoinPeople(r, u) && SideOf(people, u).None? && |people| < 2)
    || (call.JoinInsert? && call.room == r && call.user == u && MayInsert(people, u, call.side))
  }

  predicate Returns(call: Call, r: RoomId) {
    call.TransitionWrite? && call.room == r && call.to == RUNNING
  }

  predicate Sends(call: Call, r: RoomId, u: string) {
    call.SendPeople? && call.room == r && call.user == u
  }

  predicate Writes(call: Call, r: RoomId, u: string) {
    call.SendWrite? && call.room == r && call.user == u
  }

  ghost predicate CanSeat(m: Machine, r: RoomId, u: string)
    requires r in m.w.rooms
  {
    exists c :: 0 <= c < |m.calls| && WillSeat(m.w.rooms[r].participants, m.calls[c], r, u)
  }

  /** Messages of anybody can still be accepted: the room is RUNNING or a transition is about to make it so again. */
  ghost predicate TakesMessages(m: Machine, r: RoomId)
    requires r in m.w.rooms
  {
    m.w.rooms[r].state == RUNNING
    || exists c :: 0 <= c < |m.calls| && Returns(m.calls[c], r)
  }

  /** A send of user `u` is past the check of the room's state. */
  ghost predicate Sending(m: Machine, r: RoomId, u: string) {
    exists c :: 0 <= c < |m.calls| && Sends(m.calls[c], r, u)
  }

  /** Somebody who is not among the participants yet can still be seated and then be heard. */
  ghost predicate LatecomerCanSpeak(m: Machine, r: RoomId)
    requires r in m.w.rooms
  {
    exists u :: CanSeat(m, r, u) && (TakesMessages(m, r) || Sending(m, r, u))
  }

  /** No author of room `r`, now or of a send under way, is missing from `read`, and none can join to become one. */
  ghost predicate NobodyMissed(m: Machine, r: RoomId, read: seq<Participant>) {
    && r in m.w.rooms && m.w.rooms[r].state != PREPARATION
    && !LatecomerCanSpeak(m, r)
    && (forall u :: SideOf(m.w.rooms[r].participants, u).Some? && SideOf(read, u).None?
                    ==> !TakesMessages(m, r) && !Sending(m, r, u))
    && (forall msg :: msg in m.w.rooms[r].messages ==> SideOf(read, msg.user).Some?)
    && (forall c, u :: 0 <= c < |m.calls| && Writes(m.calls[c], r, u) ==> SideOf(read, u).Some?)
  }

  // ----- what one event can change about a room outside PREPARATION

  /** How call `x` of machine `m` can have become `x'` and have changed room `room` into `room'`. */
  ghost predicate Moved(room: Room, room': Room, x: Call, x': Call, r: RoomId) {
    && room'.state != PREPARATION
    && (room'.state == RUNNING ==> room.state == RUNNING || Returns(x, r))
    && (Returns(x', r) ==> Returns(x, r))
    && (forall u :: WillSeat(room'.participants, x', r, u) ==> WillSeat(room.participants, x, r, u))
    && (forall u :: Sends(x', r, u) ==> Sends(x, r, u) || room.state == RUNNING)
    && (forall u :: Writes(x', r, u) ==> Writes(x, r, u) || (Sends(x, r, u) && SideOf(room.participants, u).Some?))
    && (room'.participants == room.participants
        || exists row :: room'.participants == room.participants + [row] && WillSeat(room.participants, x, r, row.user))
    && (room'.messages == room.messages
        || exists msg :: room'.messages == room.messages + [msg] && Writes(x, r, msg.user))
  }

  /** Only call `c` moved, and with it perhaps the room. */
  ghost predicate MovedOne(m: Machine, m': Machine, c: nat, r: RoomId)
    requires r in m.w.rooms && c < |m.calls|
  {
    && |m'.calls| == |m.calls| && m'.calls == m.calls[c := m'.calls[c]]
    && r in m'.w.rooms && Moved(m.w.rooms[r], m'.w.rooms[r], m.calls[c], m'.calls[c], r)
  }

  lemma TransitionMoves(m: Machine, c: nat, r: RoomId)
    requires c < |m.calls| && CallOk(m.w.rooms, c, m.calls[c]) && r in m.w.rooms && m.w.rooms[r].state != PREPARATION
    requires m.calls[c].TransitionRead? || m.calls[c].TransitionWrite? || m.calls[c].TransitionAfter?
    ensures MovedOne(m, ResumeTransition(m, c), c, r)
  {
    hide SideOf, TimersAfter;
  }

  lemma JoinMoves(m: Machine, c: nat, r: RoomId)
    requires c < |m.calls| && r in m.w.rooms && m.w.rooms[r].state != PREPARATION
    requires m.calls[c].JoinRead? || m.calls[c].JoinPeople? || m.calls[c].JoinInsert?
    ensures MovedOne(m, ResumeJoin(m, c), c, r)
  {
  }

  lemma ArmingMoves(m: Machine, c: nat, picked: Option<nat>, r: RoomId)
    requires c < |m.calls| && r in m.w.rooms && m.w.rooms[r].state != PREPARATION
    requires m.calls[c].JoinInserted? || m.calls[c].JoinPick? || m.calls[c].JoinQuestion? || m.calls[c].JoinArm?
    ensures MovedOne(m, ResumeArming(m, c, picked), c, r)
  {
  }

  lemma SendMoves(m: Machine, c: nat, r: RoomId)
    requires c < |m.calls| && r in m.w.rooms && m.w.rooms[r].state != PREPARATION
    requires m.calls[c].SendRead? || m.calls[c].SendPeople? || m.calls[c].SendWrite?
    ensures MovedOne(m, ResumeSend(m, c), c, r)
  {
    var m' := ResumeSend(m, c);
    if m.calls[c].SendWrite? && m.calls[c].room == r {
      var msg := Message(c, m.calls[c].user, m.calls[c].content);
      assert m'.w.rooms[r].messages == m.w.rooms[r].messages + [msg];
    }
  }

  /** After a move of one call nobody is missed if nobody was before. */
  lemma MoveMissesNobody(m: Machine, m': Machine, c: nat, r: RoomId, read: seq<Participant>)
    requires NobodyMissed(m, r, read) && c < |m.calls| && MovedOne(m, m', c, r)
    ensures NobodyMissed(m', r, read)
  {
    MoveShrinks(m, m', c, r);
    var room, room' := m.w.rooms[r], m'.w.rooms[r];
    hide CanSeat, TakesMessages, Sending, WillSeat, Sends, Writes;
    forall u | SideOf(room'.participants, u).Some? && SideOf(read, u).None?
      ensures !TakesMessages(m', r) && !Sending(m', r, u)
    {
      Newcomer(m, m', c, r, u);
    }
    forall i, u | 0 <= i < |m'.calls| && Writes(m'.calls[i], r, u) ensures SideOf(read, u).Some? {
      NewWriter(m, m', c, r, i, u);
    }
    forall msg | msg in room'.messages ensures SideOf(read, msg.user).Some? {
      assert msg in room.messages || Writes(m.calls[c], r, msg.user);
    }
  }

  /** A move opens no new way to be seated, to speak or to send. */
  lemma MoveShrinks(m: Machine, m': Machine, c: nat, r: RoomId)
    requires r in m.w.rooms && c < |m.calls| && MovedOne(m, m', c, r)
    ensures TakesMessages(m', r) ==> TakesMessages(m, r)
    ensures forall u :: Sending(m', r, u) ==> Sending(m, r, u) || TakesMessages(m, r)
    ensures forall u :: CanSeat(m', r, u) ==> CanSeat(m, r, u)
  {
    var people, people' := m.w.rooms[r].participants, m'.w.rooms[r].participants;
    hide WillSeat, Sends, Returns;
    forall u | Sending(m', r, u) ensures Sending(m, r, u) || TakesMessages(m, r) {
      var i :| 0 <= i < |m'.calls| && Sends(m'.calls[i], r, u);
      assert i != c ==> Sends(m.calls[i], r, u);
    }
    forall u | CanSeat(m', r, u) ensures CanSeat(m, r, u) {
      var i :| 0 <= i < |m'.calls| && WillSeat(people', m'.calls[i], r, u);
      SeatsShrink(people, people', m'.calls[i], r, u);
      assert i != c ==> WillSeat(people, m.calls[i], r, u);
    }
  }

  /** A row more leaves fewer seats to take. */
  lemma SeatsShrink(people: seq<Participant>, people': seq<Participant>, call: Call, r: RoomId, u: string)
    requires people <= people' && WillSeat(people', call, r, u)
    ensures WillSeat(people, call, r, u)
  {
    if SideOf(people, u).Some? {
      SideOfPrefix(people, people', u);
    }
    assert forall i :: 0 <= i < |people| ==> people[i] == people'[i];
  }

  /** Whoever is among the participants now had a row before or was the one to be seated. */
  lemma SideAfterMove(people: seq<Participant>, row: Participant, u: string)
    requires SideOf(people + [row], u).Some? && SideOf(people, u).None?
    ensures u == row.user
  {
    SideOfFinds(people + [row], u);
    SideOfFinds(people, u);
    assert (people + [row])[|people|] == row && forall i :: 0 <= i < |people| ==> (people + [row])[i] == people[i];
  }

  lemma Newcomer(m: Machine, m': Machine, c: nat, r: RoomId, u: string)
    requires r in m.w.rooms && c < |m.calls| && MovedOne(m, m', c, r)
    requires !LatecomerCanSpeak(m, r)
    requires SideOf(m'.w.rooms[r].participants, u).Some?
    requires SideOf(m.w.rooms[r].participants, u).Some? ==> !TakesMessages(m, r) && !Sending(m, r, u)
    ensures !TakesMessages(m', r) && !Sending(m', r, u)
  {
    MoveShrinks(m, m', c, r);
    var people := m.w.rooms[r].participants;
    hide Sending, TakesMessages, WillSeat, Sends, Writes;
    if SideOf(people, u).None? {
      var row :| m'.w.rooms[r].participants == people + [row] && WillSeat(people, m.calls[c], r, row.user);
      SideAfterMove(people, row, u);
      assert CanSeat(m, r, u);
    }
  }

  lemma NewWriter(m: Machine, m': Machine, c: nat, r: RoomId, i: nat, u: string)
    requires r in m.w.rooms && c < |m.calls| && MovedOne(m, m', c, r)
    requires i < |m'.calls| && Writes(m'.calls[i], r, u)
    ensures Writes(m.calls[i], r, u) || (Sending(m, r, u) && SideOf(m.w.rooms[r].participants, u).Some?)
  {
    hide Writes, Sends, WillSeat;
  }

  // ----- every event

  /** The call cannot seat, send or commit anything for this room. */
  predicate Harmless(call: Call, r: RoomId) {
    !(call.JoinPeople? || call.JoinInsert? || call.SendPeople? || call.SendWrite? || call.TransitionWrite?)
    || call.room != r
  }

  /** An event that leaves the room alone and only makes calls harmless misses nobody. */
  lemma QuietMissesNobody(m: Machine, m': Machine, r: RoomId, read: seq<Participant>)
    requires NobodyMissed(m, r, read) && r in m'.w.rooms && m'.w.rooms[r] == m.w.rooms[r]
    requires forall c :: 0 <= c < |m'.calls| ==>
               Harmless(m'.calls[c], r) || (c < |m.calls| && m'.calls[c] == m.calls[c])
    ensures NobodyMissed(m', r, read)
  {
    assert TakesMessages(m', r) ==> TakesMessages(m, r);
    assert forall u :: Sending(m', r, u) ==> Sending(m, r, u);
    assert forall u :: CanSeat(m', r, u) ==> CanSeat(m, r, u);
    hide CanSeat, TakesMessages, Sending;
  }

  lemma ResumeMissesNobody(m: Machine, c: nat, picked: Option<nat>, r: RoomId, read: seq<Participant>)
    requires Inv(m) && NobodyMissed(m, r, read) && c < |m.calls|
    ensures NobodyMissed(Resume(m, c, picked), r, read)
  {
    var m' := Resume(m, c, picked);
    var call := m.calls[c];
    assert CallOk(m.w.rooms, c, call) && r in m.w.rooms && m.w.rooms[r].state != PREPARATION;
    hide ResumeTransition, ResumeJoin, ResumeArming, ResumeSend, MovedOne, Inv, CallOk, NobodyMissed;
    if call.TransitionEnqueue? || call.Done? {
      assert m' == m;
    } else {
      if call.TransitionRead? || call.TransitionWrite? || call.TransitionAfter? {
        TransitionMoves(m, c, r);
      } else if call.JoinRead? || call.JoinPeople? || call.JoinInsert? {
        JoinMoves(m, c, r);
      } else if call.SendRead? || call.SendPeople? || call.SendWrite? {
        SendMoves(m, c, r);
      } else {
        ArmingMoves(m, c, picked, r);
      }
      MoveMissesNobody(m, m', c, r, read);
    }
  }

  /** Only a resumed call can change a room that exists. */
  lemma OtherStepsAreQuiet(m: Machine, e: Event, r: RoomId)
    requires r in m.w.rooms && !e.Advance?
    ensures var m' := Step(m, e);
            && r in m'.w.rooms && m'.w.rooms[r] == m.w.rooms[r]
            && forall c :: 0 <= c < |m'.calls| ==>
                 Harmless(m'.calls[c], r) || (c < |m.calls| && m'.calls[c] == m.calls[c])
  {
  }

  lemma StepMissesNobody(m: Machine, e: Event, r: RoomId, read: seq<Participant>)
    requires Inv(m) && NobodyMissed(m, r, read)
    ensures NobodyMissed(Step(m, e), r, read)
  {
    assert r in m.w.rooms;
    hide Inv, NobodyMissed, Resume, Harmless;
    if e.Advance? {
      if e.call < |m.calls| {
        ResumeMissesNobody(m, e.call, e.picked, r, read);
      }
    } else {
      OtherStepsAreQuiet(m, e, r);
      hide Step;
      QuietMissesNobody(m, Step(m, e), r, read);
    }
  }

  lemma {:induction false} RunMissesNobody(es: seq<Event>, fs: seq<Event>, r: RoomId, read: seq<Participant>)
    requires NobodyMissed(After(es), r, read)
    ensures NobodyMissed(After(es + fs), r, read)
  {
    hide NobodyMissed, Step, Inv;
    if fs == [] {
      assert es + fs == es;
    } else {
      var before := es + fs[..|fs| - 1];
      RunMissesNobody(es, fs[..|fs| - 1], r, read);
      assert es + fs == before + [fs[|fs| - 1]];
      RunSnoc(Step, INIT, before, fs[|fs| - 1]);
      AlwaysInv(before);
      StepMissesNobody(After(before), fs[|fs| - 1], r, read);
    }
  }

  lemma NobodyMissedNow(es: seq<Event>, r: RoomId)
    requires r in After(es).w.rooms && After(es).w.rooms[r].state != PREPARATION && !LatecomerCanSpeak(After(es), r)
    ensures NobodyMissed(After(es), r, After(es).w.rooms[r].participants)
  {
    AlwaysInv(es);
    var m := After(es);
    assert RoomOk(m.w.rooms[r]);
    hide LatecomerCanSpeak, TakesMessages, Sending;
    forall c, u | 0 <= c < |m.calls| && Writes(m.calls[c], r, u)
      ensures SideOf(m.w.rooms[r].participants, u).Some?
    {
      assert CallOk(m.w.rooms, c, m.calls[c]);
    }
  }

  /** If no latecomer can speak, the participants read now serve every replay of every continuation. */
  lemma ReadSufficesWithoutLatecomers(es: seq<Event>, fs: seq<Event>, r: RoomId)
    requires r in After(es).w.rooms && After(es).w.rooms[r].state != PREPARATION && !LatecomerCanSpeak(After(es), r)
    ensures KnowsAll(es, fs, r)
  {
    NobodyMissedNow(es, r);
    var read := After(es).w.rooms[r].participants;
    RunMissesNobody(es, fs, r, read);
    AlwaysInv(es);
    assert RoomOk(After(es).w.rooms[r]);
    hide Run, LatecomerCanSpeak, TakesMessages, Sending;
    forall msg | msg in After(es + fs).w.rooms[r].messages ensures ReplaySide(read, msg.user).Some? {
      ReplaySideIsSideOf(read, msg.user);
    }
  }

  // ----- letting a latecomer speak

  lemma NoSide(people: seq<Participant>, u: string)
    requires SeatsOk(people) && SideOf(people, u).None?
    ensures ReplaySide(people, u).None?
  {
    ReplaySideIsSideOf(people, u);
  }

  /** Nothing but the seat of `u` has changed. */
  ghost predicate OnlySeated(m: Machine, m': Machine, c: nat, r: RoomId, u: string) {
    r in m.w.rooms && r in m'.w.rooms && |m'.calls| == |m.calls|
    && (forall i :: 0 <= i < |m.calls| && i != c ==> m'.calls[i] == m.calls[i])
    && m'.w.rooms[r].state == m.w.rooms[r].state && m'.w.rooms[r].messages == m.w.rooms[r].messages
    && SideOf(m'.w.rooms[r].participants, u).Some?
  }

  lemma InsertLatecomer(start: Machine, m: Machine, c: nat, r: RoomId, u: string) returns (m': Machine)
    requires Leads(Step, start, m) && r in m.w.rooms && SeatsOk(m.w.rooms[r].participants)
    requires c < |m.calls| && m.calls[c].JoinInsert? && WillSeat(m.w.rooms[r].participants, m.calls[c], r, u)
    ensures Leads(Step, start, m') && OnlySeated(m, m', c, r, u)
  {
    hide Leads;
    var people, row := m.w.rooms[r].participants, Participant(c, u, m.calls[c].side);
    m' := Follows(Step, start, m, Advance(c, None));
    SideOfFinds(people + [row], u);
    assert (people + [row])[|people|] == row;
  }

  lemma SeatLatecomer(m: Machine, c: nat, r: RoomId, u: string) returns (m': Machine)
    requires r in m.w.rooms && SeatsOk(m.w.rooms[r].participants)
    requires c < |m.calls| && WillSeat(m.w.rooms[r].participants, m.calls[c], r, u)
    ensures Leads(Step, m, m') && OnlySeated(m, m', c, r, u)
  {
    hide Leads;
    Starts(Step, m);
    var m1 := m;
    if m.calls[c].JoinPeople? {
      FreeSideAt(m.w.rooms[r].participants);
      m1 := Follows(Step, m, m, Advance(c, None));
    }
    m' := InsertLatecomer(m, m1, c, r, u);
  }

  /** The latest message of the room is by `u`. */
  ghost predicate LastSpeaks(m: Machine, r: RoomId, u: string) {
    r in m.w.rooms && |m.w.rooms[r].messages| > 0 && m.w.rooms[r].messages[|m.w.rooms[r].messages| - 1].user == u
  }

  lemma SpeakInRunning(start: Machine, m: Machine, r: RoomId, u: string) returns (m': Machine)
    requires Leads(Step, start, m) && r in m.w.rooms && m.w.rooms[r].state == RUNNING
    requires SideOf(m.w.rooms[r].participants, u).Some?
    ensures Leads(Step, start, m') && LastSpeaks(m', r, u)
  {
    hide Leads;
    m' := SendIsARun(m, r, u, "hello");
    LeadsTransitive(Step, start, m, m');
  }

  lemma SpeakByReturning(start: Machine, m: Machine, d: nat, r: RoomId, u: string) returns (m': Machine)
    requires Leads(Step, start, m) && r in m.w.rooms && d < |m.calls| && Returns(m.calls[d], r)
    requires SideOf(m.w.rooms[r].participants, u).Some?
    ensures Leads(Step, start, m') && LastSpeaks(m', r, u)
  {
    hide Leads;
    var m1 := Follows(Step, start, m, Advance(d, None));
    m' := SpeakInRunning(start, m1, r, u);
  }

  lemma SpeakBySending(start: Machine, m: Machine, d: nat, r: RoomId, u: string) returns (m': Machine)
    requires Leads(Step, start, m) && r in m.w.rooms && d < |m.calls| && Sends(m.calls[d], r, u)
    requires SideOf(m.w.rooms[r].participants, u).Some?
    ensures Leads(Step, start, m') && LastSpeaks(m', r, u)
  {
    hide Leads;
    var m1 := Follows(Step, start, m, Advance(d, None));
    m' := Follows(Step, start, m1, Advance(d, None));
  }

  /** A latecomer who can speak has a continuation in which an earlier read of the participants misses the author. */
  lemma LatecomerIsMissed(es: seq<Event>, r: RoomId) returns (fs: seq<Event>)
    requires r in After(es).w.rooms && LatecomerCanSpeak(After(es), r)
    ensures !KnowsAll(es, fs, r)
  {
    hide Run, Leads;
    var m := After(es);
    var u :| CanSeat(m, r, u) && (TakesMessages(m, r) || Sending(m, r, u));
    var c :| 0 <= c < |m.calls| && WillSeat(m.w.rooms[r].participants, m.calls[c], r, u);
    AlwaysInv(es);
    assert RoomOk(m.w.rooms[r]);
    NoSide(m.w.rooms[r].participants, u);
    var seated := SeatLatecomer(m, c, r, u);
    var spoken := LetSpeak(m, seated, c, r, u);
    fs := Continuation(es, spoken);
    var messages := spoken.w.rooms[r].messages;
    assert messages[|messages| - 1] in messages;
  }

  lemma LetSpeak(m: Machine, seated: Machine, c: nat, r: RoomId, u: string) returns (m': Machine)
    requires Leads(Step, m, seated) && OnlySeated(m, seated, c, r, u)
    requires c < |m.calls| && (m.calls[c].JoinPeople? || m.calls[c].JoinInsert?)
    requires TakesMessages(m, r) || Sending(m, r, u)
    ensures Leads(Step, m, m') && LastSpeaks(m', r, u)
  {
    hide Leads;
    if m.w.rooms[r].state == RUNNING {
      m' := SpeakInRunning(m, seated, r, u);
    } else if TakesMessages(m, r) {
      var d :| 0 <= d < |m.calls| && Returns(m.calls[d], r);
      m' := SpeakByReturning(m, seated, d, r, u);
    } else {
      var d :| 0 <= d < |m.calls| && Sends(m.calls[d], r, u);
      m' := SpeakBySending(m, seated, d, r, u);
    }
  }

  /**
   For a room that has left PREPARATION: the participants read now suffice for every replay of
   every continuation, whatever is read first, if and only if no join is under way whose user
   can still be seated and then be heard. In a RUNNING room everybody seated can be heard.
   */
  lemma ReadSufficesIffNoLatecomer(es: seq<Event>, r: RoomId)
    requires r in After(es).w.rooms && After(es).w.rooms[r].state != PREPARATION
    ensures (forall fs :: KnowsAll(es, fs, r)) <==> !LatecomerCanSpeak(After(es), r)
    ensures After(es).w.rooms[r].state == RUNNING
            ==> (LatecomerCanSpeak(After(es), r) <==> exists u :: CanSeat(After(es), r, u))
  {
    if LatecomerCanSpeak(After(es), r) {
      var fs := LatecomerIsMissed(es, r);
    } else {
      forall fs ensures KnowsAll(es, fs, r) {
        ReadSufficesWithoutLatecomers(es, fs, r);
      }
    }
  }
}
