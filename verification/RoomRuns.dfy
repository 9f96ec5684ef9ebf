/** Concrete runs that show where the interleaved service does less than a reader might expect. */
module RoomRuns {
  import opened Common
  import opened Machines
  import opened DebateStates
  import opened RoomStore
  import opened RoomProtocol
  import opened RoomProofs

  /** One more event of a run. */
  lemma Next(es: seq<Event>, e: Event) returns (longer: seq<Event>)
    ensures longer == es + [e] && After(longer) == Step(After(es), e)
  {
    longer := es + [e];
    RunSnoc(Step, INIT, es, e);
  }

  /**
   Two transitions to RUNNING read the room in PREPARATION. The second commits after
   the room has reached VOTING and takes it back to RUNNING.
   */
  lemma RoomCanMoveBackwards() returns (es: seq<Event>)
    ensures 0 in After(es).w.rooms && After(es).w.rooms[0].state == RUNNING
    ensures After(es).w.rooms[0].log
            == [Record(PREPARATION, RUNNING), Record(RUNNING, VOTING), Record(PREPARATION, RUNNING)]
  {
    es := Next([], CreateRoom(0, "d"));
    es := Next(es, BeginTransition(0, RUNNING));
    es := Next(es, BeginTransition(0, RUNNING));
    es := Next(es, Advance(0, None));
    es := Next(es, Advance(1, None));
    assert After(es).calls == [TransitionWrite(0, PREPARATION, RUNNING), TransitionWrite(0, PREPARATION, RUNNING)];
    es := Next(es, Advance(0, None));
    es := Next(es, BeginTransition(0, VOTING));
    es := Next(es, Advance(2, None));
    assert After(es).calls[1..] == [TransitionWrite(0, PREPARATION, RUNNING), TransitionWrite(0, RUNNING, VOTING)];
    es := Next(es, Advance(2, None));
    es := Next(es, Advance(1, None));
  }

  /** Two transitions to VOTING read the room in RUNNING. Both commit, and each adds its own pair of jobs. */
  lemma VotingTwiceAddsTwoJobs() returns (es: seq<Event>)
    ensures 0 in After(es).w.rooms
    ensures After(es).w.rooms[0].log
            == [Record(PREPARATION, RUNNING), Record(RUNNING, VOTING), Record(RUNNING, VOTING)]
    ensures JobsFor(After(es).w.replayJobs, 0) == JobsFor(After(es).w.finalizationJobs, 0) == 2
  {
    var waiting := TwoReadyForVoting();
    es := CommitVoting(waiting, 1);
    es := CommitVoting(es, 2);
    OneMoreJob([], Job("d", 0));
    OneMoreJob([Job("d", 0)], Job("d", 0));
    assert After(es).w.replayJobs == [Job("d", 0)] + [Job("d", 0)] == After(es).w.finalizationJobs;
    assert [] + [Job("d", 0)] == [Job("d", 0)];
  }

  lemma TwoReadyForVoting() returns (es: seq<Event>)
    ensures 0 in After(es).w.rooms && After(es).w.rooms[0].debateId == "d"
    ensures After(es).w.rooms[0].log == [Record(PREPARATION, RUNNING)]
    ensures After(es).w.replayJobs == After(es).w.finalizationJobs == []
    ensures |After(es).calls| == 3
    ensures After(es).calls[1] == After(es).calls[2] == TransitionWrite(0, RUNNING, VOTING)
  {
    hide ResumeJoin, ResumeArming, ResumeSend, FireTimer, Restarted;
    es := Next([], CreateRoom(0, "d"));
    es := Next(es, BeginTransition(0, RUNNING));
    es := Next(es, Advance(0, None));
    es := Next(es, Advance(0, None));
    es := Next(es, BeginTransition(0, VOTING));
    es := Next(es, BeginTransition(0, VOTING));
    es := Next(es, Advance(1, None));
    es := Next(es, Advance(2, None));
  }

  /** A call that waits to commit VOTING on room 0 commits and adds both jobs. */
  lemma CommitVoting(es: seq<Event>, c: nat) returns (longer: seq<Event>)
    requires 0 in After(es).w.rooms && After(es).w.rooms[0].debateId == "d"
    requires c < |After(es).calls| && After(es).calls[c] == TransitionWrite(0, RUNNING, VOTING)
    ensures 0 in After(longer).w.rooms && After(longer).w.rooms[0].debateId == "d"
    ensures After(longer).w.rooms[0].log == After(es).w.rooms[0].log + [Record(RUNNING, VOTING)]
    ensures After(longer).w.replayJobs == After(es).w.replayJobs + [Job("d", 0)]
    ensures After(longer).w.finalizationJobs == After(es).w.finalizationJobs + [Job("d", 0)]
    ensures |After(longer).calls| == |After(es).calls|
    ensures forall i :: 0 <= i < |After(es).calls| && i != c ==> After(longer).calls[i] == After(es).calls[i]
  {
    hide ResumeJoin, ResumeArming, ResumeSend, FireTimer, Restarted, Run;
    longer := Next(es, Advance(c, None));
    assert After(longer).calls[c] == TransitionAfter(0, VOTING, "d");
    longer := Next(longer, Advance(c, None));
    assert After(longer).calls[c] == TransitionEnqueue(0, "d", true, true, false);
    longer := Next(longer, AddReplayJob(c));
    longer := Next(longer, AddFinalizationJob(c));
  }

  /**
   A transition to RUNNING waits while the room's timer fires and takes it to VOTING. Then it
   commits and schedules a new timer, which the earlier transition clears. The room is left
   RUNNING, no timeout is pending and no call is under way.
   */
  lemma OvertakenRoomLosesItsTimer() returns (es: seq<Event>)
    ensures 0 in After(es).w.rooms && After(es).w.rooms[0].state == RUNNING
    ensures After(es).w.timers.pending == map[]
    ensures forall c :: 0 <= c < |After(es).calls| ==> After(es).calls[c].Done?
  {
    var waiting := TimerHasMovedOn();
    es := Next(waiting, Advance(1, None));
    es := Next(es, Advance(1, None));
    es := Next(es, Advance(2, None));
    assert After(es).calls[2] == TransitionEnqueue(0, "d", true, true, false);
    es := Next(es, AddReplayJob(2));
    es := Next(es, AddFinalizationJob(2));
  }

  /** The timer's own transition has taken the room to VOTING; another transition still waits to commit. */
  lemma TimerHasMovedOn() returns (es: seq<Event>)
    ensures 0 in After(es).w.rooms && After(es).w.rooms[0].debateId == "d"
    ensures After(es).w.timers == Timers(map[], map[], map[], 1)
    ensures |After(es).calls| == 3 && After(es).calls[0].Done?
    ensures After(es).calls[1] == TransitionWrite(0, PREPARATION, RUNNING)
    ensures After(es).calls[2] == TransitionAfter(0, VOTING, "d")
  {
    hide ResumeJoin, ResumeArming, ResumeSend, Restarted;
    es := Next([], CreateRoom(0, "d"));
    es := Next(es, BeginTransition(0, RUNNING));
    es := Next(es, BeginTransition(0, RUNNING));
    es := Next(es, Advance(0, None));
    es := Next(es, Advance(1, None));
    es := Next(es, Advance(0, None));
    es := Next(es, Advance(0, None));
    assert After(es).w.timers == Timers(map[], map[0 := 0], map[0 := DebateTimer(0)], 1);
    es := Next(es, Fire(0));
    assert After(es).calls[2] == TransitionRead(0, VOTING);
    es := Next(es, Advance(2, None));
    es := Next(es, Advance(2, None));
  }

  /** A room can be RUNNING with nobody in it: transition never looks at the participants. */
  lemma RunningRoomCanBeEmpty() returns (es: seq<Event>)
    ensures 0 in After(es).w.rooms && After(es).w.rooms[0].state == RUNNING
    ensures After(es).w.rooms[0].participants == []
  {
    es := Next([], CreateRoom(0, "d"));
    es := Next(es, BeginTransition(0, RUNNING));
    es := Next(es, Advance(0, None));
    es := Next(es, Advance(0, None));
  }

  /** The first join reads the room before it is RUNNING and has its insert still to come. */
  lemma RunningBeforeTheInsert() returns (es: seq<Event>)
    ensures 0 in After(es).w.rooms
    ensures After(es).w.rooms[0].state == RUNNING
            && After(es).w.rooms[0].participants == [] && After(es).w.rooms[0].messages == []
    ensures After(es).calls == [TransitionAfter(0, RUNNING, "d"), JoinInsert(0, "u", POUR, [])]
  {
    es := Next([], CreateRoom(0, "d"));
    es := Next(es, BeginTransition(0, RUNNING));
    es := Next(es, BeginJoin(0, "u"));
    es := Next(es, Advance(1, None));
    es := Next(es, Advance(1, None));
    assert After(es).calls == [TransitionRead(0, RUNNING), JoinInsert(0, "u", POUR, [])];
    es := Next(es, Advance(0, None));
    es := Next(es, Advance(0, None));
  }

  /** Then the insert completes, and the new participant sends a message. */
  lemma JoinsAndSends(es: seq<Event>) returns (all: seq<Event>)
    requires 0 in After(es).w.rooms && After(es).w.rooms[0].state == RUNNING
    requires After(es).w.rooms[0].participants == [] && After(es).w.rooms[0].messages == []
    requires After(es).calls == [TransitionAfter(0, RUNNING, "d"), JoinInsert(0, "u", POUR, [])]
    ensures es <= all && 0 in After(all).w.rooms && |After(all).w.rooms[0].messages| == 1
  {
    hide ResumeTransition, ResumeArming, AddReplay, AddFinalization, FireTimer, Restarted, Run;
    all := Next(es, Advance(1, None));
    assert After(all).w.rooms[0].participants == [Participant(1, "u", POUR)];
    all := Next(all, BeginSend(0, "u", "hello"));
    all := Next(all, Advance(2, None));
    all := Next(all, Advance(2, None));
    assert After(all).calls[2] == SendWrite(0, "u", "hello", POUR);
    all := Next(all, Advance(2, None));
  }

  /**
   getReplay reads its three tables side by side. When the participants are read
   first (after `es`) and the messages later (after `es + fs`), a message can be
   reported without a side.
   */
  lemma EarlyParticipantsLoseASide() returns (es: seq<Event>, fs: seq<Event>)
    ensures 0 in After(es).w.rooms && 0 in After(es + fs).w.rooms
    ensures |After(es + fs).w.rooms[0].messages| == 1
    ensures ReplaySide(After(es).w.rooms[0].participants, After(es + fs).w.rooms[0].messages[0].user) == None
  {
    es := RunningBeforeTheInsert();
    var all := JoinsAndSends(es);
    fs := all[|es|..];
    assert all == es + fs;
  }
}
