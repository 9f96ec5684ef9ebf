/** What each undisturbed call of the debate service answers and changes, in terms of rows, timeouts and jobs alone. */
module RoomCalls {
  import opened Common
  import opened DebateStates
  import opened RoomStore
  import opened RoomProtocol
  import opened RoomProofs
  import opened RoomSerial

  ghost predicate Sits(people: seq<Participant>, user: string) {
    exists i :: 0 <= i < |people| && people[i].user == user
  }

  /** One timeout more, under a number that none had before. */
  ghost predicate OneMoreTimeout(t: Timers, t': Timers, timer: Timer) {
    exists id: nat :: id !in t.pending && t'.pending == t.pending[id := timer]
  }

  /** Every pending timeout stays, except those in `gone`. */
  ghost predicate OnlyTheseGone(t: Timers, t': Timers, gone: set<Timer>) {
    t'.pending == map id | id in t.pending && t.pending[id] !in gone :: t.pending[id]
  }

  predicate SameElsewhere(w: World, w': World, r: RoomId) {
    w'.rooms.Keys == w.rooms.Keys && forall q :: q in w.rooms && q != r ==> w'.rooms[q] == w.rooms[q]
  }

  predicate SameQueues(w: World, w': World) {
    w'.replayJobs == w.replayJobs && w'.finalizationJobs == w.finalizationJobs
  }

  /** The answer to a join, and the row, the question and the timeout that it adds. */
  lemma WhatJoinDoes(w: World, id: nat, r: RoomId, user: string, picked: Option<nat>)
    requires TimersOk(w.timers) && (r in w.rooms ==> SeatsOk(w.rooms[r].participants))
    ensures var (w', outcome) := SerialJoin(w, id, r, user, picked);
            && (outcome == NotFound <==> r !in w.rooms)
            && (outcome == CannotJoin <==> r in w.rooms && w.rooms[r].state != PREPARATION)
            && (outcome == RoomFull <==> r in w.rooms && w.rooms[r].state == PREPARATION
                                         && !Sits(w.rooms[r].participants, user) && |w.rooms[r].participants| == 2)
            && outcome in {NotFound, CannotJoin, RoomFull, Joined}
            && (outcome == Joined && !Sits(w.rooms[r].participants, user)
                ==> var room, people := w.rooms[r], w.rooms[r].participants;
                    && SameElsewhere(w, w', r) && SameQueues(w, w')
                    && w'.rooms[r].participants
                       == people + [Participant(id, user, if people == [] then POUR else CONTRE)]
                    && w'.rooms[r].question == (if |people| == 1 && picked.Some? then picked else room.question)
                    && w'.rooms[r] == room.(participants := w'.rooms[r].participants, question := w'.rooms[r].question)
                    && (if |people| == 1 then OneMoreTimeout(w.timers, w'.timers, PrepTimer(r))
                        else w'.timers == w.timers))
            && (outcome != Joined || Sits(w.rooms[r].participants, user) ==> w' == w)
  {
    if r in w.rooms {
      var people := w.rooms[r].participants;
      SideOfFinds(people, user);
      if |people| < 2 {
        FreeSideAt(people);
      }
      assert w.timers.next !in w.timers.pending;
    }
    hide SideOf, FreeSide;
  }

  /** The timeouts after a commit: RUNNING starts one, VOTING ends it, CLOSED ends all of the room. */
  lemma WhatCommitDoesToTimeouts(t: Timers, r: RoomId, to: DebateState)
    requires TimersOk(t)
    ensures var t' := TimersAfter(t, r, to);
            match to
            case PREPARATION => t' == t
            case RUNNING => OneMoreTimeout(t, t', DebateTimer(r))
            case VOTING => OnlyTheseGone(t, t', {DebateTimer(r)})
            case CLOSED => OnlyTheseGone(t, t', {PrepTimer(r), DebateTimer(r)})
  {
    assert t.next !in t.pending;
  }

  /** The answer to a transition, and what it changes: at most one edge ahead, and nothing otherwise. */
  lemma WhatTransitionDoes(w: World, r: RoomId, to: DebateState)
    requires TimersOk(w.timers)
    ensures var (w', outcome) := SerialTransition(w, r, to);
            && (outcome == NotFound <==> r !in w.rooms)
            && (outcome == Transitioned
                <==> r in w.rooms && (w.rooms[r].state == to || Depth(to) == Depth(w.rooms[r].state) + 1))
            && outcome in {NotFound, InvalidTransition, Transitioned}
            && (outcome == Transitioned ==> w'.rooms[r].state == to)
            && (r in w.rooms && Depth(to) == Depth(w.rooms[r].state) + 1
                ==> var room, job := w.rooms[r], Job(w.rooms[r].debateId, r);
                    && SameElsewhere(w, w', r)
                    && w'.rooms[r] == room.(state := to, log := room.log + [Record(room.state, to)])
                    && w'.replayJobs == (if to == VOTING then w.replayJobs + [job] else w.replayJobs)
                    && w'.finalizationJobs == (if to == VOTING then w.finalizationJobs + [job] else w.finalizationJobs)
                    && w'.timers == TimersAfter(w.timers, r, to))
            && ((r in w.rooms && Depth(to) == Depth(w.rooms[r].state) + 1) || w' == w)
  {
    hide TimersOk, TimersAfter;
  }

  /** The answer to a message and the row it adds. */
  lemma WhatSendDoes(w: World, id: nat, r: RoomId, user: string, content: string)
    requires r in w.rooms ==> SeatsOk(w.rooms[r].participants)
    ensures var (w', outcome) := SerialSend(w, id, r, user, content);
            && (outcome == NotFound <==> r !in w.rooms)
            && (outcome == NotRunning <==> r in w.rooms && w.rooms[r].state != RUNNING)
            && (outcome == NotAParticipant
                <==> r in w.rooms && w.rooms[r].state == RUNNING && !Sits(w.rooms[r].participants, user))
            && (outcome.Sent? <==> r in w.rooms && w.rooms[r].state == RUNNING && Sits(w.rooms[r].participants, user))
            && (outcome.Sent? <==> w' != w)
            && (outcome.Sent?
                ==> && SameElsewhere(w, w', r) && SameQueues(w, w') && w'.timers == w.timers
                    && outcome.room == r && outcome.message == Message(id, user, content)
                    && w'.rooms[r] == w.rooms[r].(messages := w.rooms[r].messages + [Message(id, user, content)])
                    && exists i :: 0 <= i < |w.rooms[r].participants| && w.rooms[r].participants[i].user == user
                                   && w.rooms[r].participants[i].side == outcome.side)
  {
    if r in w.rooms {
      SideOfFinds(w.rooms[r].participants, user);
      hide SideOf;
      if SerialSend(w, id, r, user, content).1.Sent? {
        var messages := SerialSend(w, id, r, user, content).0.rooms[r].messages;
        assert |messages| == |w.rooms[r].messages| + 1;
      }
    }
  }

  /**
   A timeout goes off once. The prep timeout takes its room from PREPARATION to RUNNING and adds the
   debate timeout; the debate timeout takes it from RUNNING to VOTING and adds both jobs; in any
   other state only the timeout itself is gone.
   */
  lemma WhatFireDoes(w: World, t: nat)
    requires TimersOk(w.timers) && t in w.timers.pending
    ensures var w', timer, r := SerialFire(w, t).0, w.timers.pending[t], w.timers.pending[t].room;
            var state := if r in w.rooms then Some(w.rooms[r].state) else None;
            && t !in w'.timers.pending
            && (if timer.PrepTimer? && state == Some(PREPARATION)
                then w'.rooms[r].state == RUNNING && SameElsewhere(w, w', r) && SameQueues(w, w')
                     && exists id: nat :: id !in w.timers.pending
                                          && w'.timers.pending == (w.timers.pending - {t})[id := DebateTimer(r)]
                else if timer.DebateTimer? && state == Some(RUNNING)
                then w'.rooms[r].state == VOTING && SameElsewhere(w, w', r)
                     && w'.timers.pending == w.timers.pending - {t}
                     && w'.replayJobs == w.replayJobs + [Job(w.rooms[r].debateId, r)]
                     && w'.finalizationJobs == w.finalizationJobs + [Job(w.rooms[r].debateId, r)]
                else w'.rooms == w.rooms && SameQueues(w, w') && w'.timers.pending == w.timers.pending - {t})
  {
    assert w.timers.next !in w.timers.pending;
    assert forall id :: id in w.timers.pending && w.timers.pending[id] == w.timers.pending[t] ==> id == t;
  }
}
