/** Serial runs are runs of the interleaved model in which no call is overtaken. */
module RoomRefinement {
  import opened Common
  import opened Machines
  import opened DebateStates
  import opened RoomStore
  import opened RoomProtocol
  import opened RoomSerial

  /** `m'` is reached from `m` and has performed one whole call more, with nothing stale. */
  ghost predicate OneCall(m: Machine, m': Machine, w: World, outcome: Outcome) {
    Leads(Step, m, m') && m'.w == w && m'.calls == m.calls + [Done(outcome)] && m'.stale == m.stale
  }

  /** From its suspended start to its end, an undisturbed transition does what the serial model says. */
  lemma FinishTransition(start: Machine, m0: Machine, r: RoomId, to: DebateState, before: seq<Call>)
    returns (m: Machine)
    requires Leads(Step, start, m0) && m0.calls == before + [TransitionRead(r, to)]
    ensures var (w, outcome) := SerialTransition(m0.w, r, to);
            Leads(Step, start, m) && m.w == w && m.calls == before + [Done(outcome)] && m.stale == m0.stale
  {
    hide Leads;
    var c := |before|;
    m := Follows(Step, start, m0, Advance(c, None));
    if r in m0.w.rooms && IsValidTransition(m0.w.rooms[r].state, to) {
      m := Follows(Step, start, m, Advance(c, None));
      assert m.calls == before + [TransitionAfter(r, to, m0.w.rooms[r].debateId)];
      m := Follows(Step, start, m, Advance(c, None));
      if to == VOTING {
        assert m.calls == before + [TransitionEnqueue(r, m0.w.rooms[r].debateId, true, true, false)];
        m := Follows(Step, start, m, AddReplayJob(c));
        assert m.calls == before + [TransitionEnqueue(r, m0.w.rooms[r].debateId, false, true, false)];
        m := Follows(Step, start, m, AddFinalizationJob(c));
      }
    }
  }

  lemma TransitionIsARun(m: Machine, r: RoomId, to: DebateState) returns (m': Machine)
    ensures OneCall(m, m', SerialTransition(m.w, r, to).0, SerialTransition(m.w, r, to).1)
  {
    hide Leads;
    Starts(Step, m);
    m' := Follows(Step, m, m, BeginTransition(r, to));
    m' := FinishTransition(m, m', r, to, m.calls);
  }

  lemma FireIsARun(m: Machine, t: nat) returns (m': Machine)
    requires t in m.w.timers.pending
    ensures OneCall(m, m', SerialFire(m.w, t).0, SerialFire(m.w, t).1)
  {
    hide Leads;
    Starts(Step, m);
    m' := Follows(Step, m, m, Fire(t));
    match m.w.timers.pending[t]
    case PrepTimer(r) => m' := FinishTransition(m, m', r, RUNNING, m.calls);
    case DebateTimer(r) => m' := FinishTransition(m, m', r, VOTING, m.calls);
  }

  lemma JoinIsARun(m: Machine, r: RoomId, user: string, picked: Option<nat>) returns (m': Machine)
    ensures var (w, outcome) := SerialJoin(m.w, |m.calls|, r, user, picked); OneCall(m, m', w, outcome)
  {
    hide Leads;
    var c := |m.calls|;
    Starts(Step, m);
    m' := Follows(Step, m, m, BeginJoin(r, user));
    m' := Follows(Step, m, m', Advance(c, None));
    if r in m.w.rooms && m.w.rooms[r].state == PREPARATION {
      var people := m.w.rooms[r].participants;
      m' := Follows(Step, m, m', Advance(c, None));
      if SideOf(people, user).None? && |people| < 2 && FreeSide(people).Some? {
        m' := FinishJoin(m, m', r, user, FreeSide(people).value, picked);
      }
    }
  }

  lemma FinishJoin(m: Machine, m0: Machine, r: RoomId, user: string, side: Side, picked: Option<nat>)
    returns (m': Machine)
    requires r in m.w.rooms && MayInsert(m.w.rooms[r].participants, user, side)
    requires |m.w.rooms[r].participants| < 2
    requires Leads(Step, m, m0) && m0.w == m.w && m0.stale == m.stale
    requires m0.calls == m.calls + [JoinInsert(r, user, side, m.w.rooms[r].participants)]
    ensures var seated := WithRoom(m.w, r, Seated(m.w.rooms[r], |m.calls|, user, side, picked));
            OneCall(m, m',
                    if |m.w.rooms[r].participants| == 1 then seated.(timers := SchedulePrep(m.w.timers, r)) else seated,
                    Joined)
  {
    hide Leads;
    var c := |m.calls|;
    var people := m.w.rooms[r].participants + [Participant(c, user, side)];
    m' := Follows(Step, m, m0, Advance(c, None));
    assert m'.calls == m.calls + [JoinInserted(r, people)];
    m' := Follows(Step, m, m', Advance(c, None));
    if |people| == 2 {
      m' := FinishArming(m, m', r, picked);
    }
  }

  lemma FinishArming(m: Machine, m0: Machine, r: RoomId, picked: Option<nat>) returns (m': Machine)
    requires r in m0.w.rooms && Leads(Step, m, m0) && m0.calls == m.calls + [JoinPick(r)] && m0.stale == m.stale
    ensures var room := m0.w.rooms[r];
            var asked := WithRoom(m0.w, r, if picked.Some? then room.(question := picked) else room);
            OneCall(m, m', asked.(timers := SchedulePrep(m0.w.timers, r)), Joined)
  {
    hide Leads;
    var c := |m.calls|;
    m' := Follows(Step, m, m0, Advance(c, picked));
    if picked.Some? {
      assert m'.calls == m.calls + [JoinQuestion(r, picked.value)];
      m' := Follows(Step, m, m', Advance(c, None));
      assert m'.calls == m.calls + [JoinArm(r)];
      m' := Follows(Step, m, m', Advance(c, None));
    } else {
      assert m0.w.rooms[r := m0.w.rooms[r]] == m0.w.rooms;
    }
  }

  lemma SendIsARun(m: Machine, r: RoomId, user: string, content: string) returns (m': Machine)
    ensures var (w, outcome) := SerialSend(m.w, |m.calls|, r, user, content); OneCall(m, m', w, outcome)
  {
    hide Leads;
    var c := |m.calls|;
    Starts(Step, m);
    m' := Follows(Step, m, m, BeginSend(r, user, content));
    m' := Follows(Step, m, m', Advance(c, None));
    if r in m.w.rooms && m.w.rooms[r].state == RUNNING {
      assert m'.calls == m.calls + [SendPeople(r, user, content)];
      m' := Follows(Step, m, m', Advance(c, None));
      if SideOf(m.w.rooms[r].participants, user).Some? {
        assert m'.calls == m.calls + [SendWrite(r, user, content, SideOf(m.w.rooms[r].participants, user).value)];
        m' := Follows(Step, m, m', Advance(c, None));
      }
    }
  }

  /**
   Every serial run is a run of the interleaved model: same tables, timers and queues,
   as many calls, and no commit from an outdated state. So all that holds in every
   interleaved run holds in every serial one.
   */
  lemma {:induction false} SerialRunIsARun(ops: seq<Operation>) returns (m: Machine)
    ensures Leads(Step, INIT, m) && m.w == AfterAll(ops).w && |m.calls| == AfterAll(ops).calls && m.stale == {}
  {
    if ops == [] {
      m := INIT;
      Starts(Step, m);
    } else {
      var m0 := SerialRunIsARun(ops[..|ops| - 1]);
      m := m0;
      match ops[|ops| - 1]
      case Create(r, d) => m := Follows(Step, INIT, m0, CreateRoom(r, d));
      case Transition(r, to) => m := TransitionIsARun(m0, r, to); LeadsTransitive(Step, INIT, m0, m);
      case Join(r, u, picked) => m := JoinIsARun(m0, r, u, picked); LeadsTransitive(Step, INIT, m0, m);
      case Send(r, u, text) => m := SendIsARun(m0, r, u, text); LeadsTransitive(Step, INIT, m0, m);
      case TimerFires(t) =>
        if t in m0.w.timers.pending {
          m := FireIsARun(m0, t);
          LeadsTransitive(Step, INIT, m0, m);
        }
    }
  }
}
