/** The four room states, their transition table, and what a transition log can say. */
module DebateStates {

  datatype DebateState = PREPARATION | RUNNING | VOTING | CLOSED

  /** A row of the room_transitions table. */
  datatype Record = Record(from: DebateState, to: DebateState)

  function AllowedTransitions(from: DebateState): set<DebateState> {
    match from
    case PREPARATION => {RUNNING}
    case RUNNING => {VOTING}
    case VOTING => {CLOSED}
    case CLOSED => {}
  }

  predicate IsValidTransition(from: DebateState, to: DebateState) {
    to in AllowedTransitions(from)
  }

  function StateAfter(log: seq<Record>): DebateState {
    if log == [] then PREPARATION else log[|log| - 1].to
  }

  /** `s` is the initial state or the target of some record. */
  ghost predicate Entered(log: seq<Record>, s: DebateState) {
    s == PREPARATION || exists j :: 0 <= j < |log| && log[j].to == s
  }

  /** Every record is an allowed edge that leaves a state entered before it. */
  ghost predicate CausallyClosed(log: seq<Record>) {
    log == []
    || var before, last := log[..|log| - 1], log[|log| - 1];
       CausallyClosed(before) && IsValidTransition(last.from, last.to) && Entered(before, last.from)
  }

  /** Every record leaves the state that the record before it entered. */
  predicate IsPath(log: seq<Record>) {
    log == [] || (IsPath(log[..|log| - 1]) && log[|log| - 1].from == StateAfter(log[..|log| - 1]))
  }

  /** The one complete life of a room. */
  const FULL_PATH: seq<Record> :=
    [Record(PREPARATION, RUNNING), Record(RUNNING, VOTING), Record(VOTING, CLOSED)]

  /** How many edges lead from PREPARATION to `s`. */
  function Depth(s: DebateState): nat {
    match s case PREPARATION => 0 case RUNNING => 1 case VOTING => 2 case CLOSED => 3
  }

  lemma {:induction false} EntersByItsEdge(log: seq<Record>, s: DebateState) returns (j: nat)
    requires CausallyClosed(log) && Entered(log, s) && s != PREPARATION
    ensures j < |log| && log[j] == FULL_PATH[Depth(s) - 1]
    ensures CausallyClosed(log[..j]) && Entered(log[..j], log[j].from)
  {
    j := |log| - 1;
    if log[j].to != s {
      var before := log[..j];
      var k :| 0 <= k < |log| && log[k].to == s;
      assert before[k].to == s;
      j := EntersByItsEdge(before, s);
      assert before[..j] == log[..j];
    }
  }

  /** A closed room committed all three edges, in this order. */
  lemma ClosedNeedsThreeEdges(log: seq<Record>)
    requires CausallyClosed(log) && StateAfter(log) == CLOSED
    ensures exists i, j, k :: 0 <= i < j < k < |log|
                              && log[i] == FULL_PATH[0] && log[j] == FULL_PATH[1] && log[k] == FULL_PATH[2]
  {
    hide CausallyClosed;
    assert log[|log| - 1].to == CLOSED;
    assert Entered(log, CLOSED);
    hide Entered;
    var k := EntersByItsEdge(log, CLOSED);
    var untilK := log[..k];
    var j := EntersByItsEdge(untilK, VOTING);
    var untilJ := untilK[..j];
    var i := EntersByItsEdge(untilJ, RUNNING);
    assert 0 <= i < j < k < |log| && log[i] == FULL_PATH[0] && log[j] == FULL_PATH[1] && log[k] == FULL_PATH[2];
  }

  /** What causal closure says about every record of a log. */
  lemma {:induction false} EveryRecordIsCaused(log: seq<Record>)
    requires CausallyClosed(log)
    ensures forall i :: 0 <= i < |log| ==>
              IsValidTransition(log[i].from, log[i].to) && Entered(log[..i], log[i].from)
  {
    if log != [] {
      var before := log[..|log| - 1];
      EveryRecordIsCaused(before);
      forall i | 0 <= i < |before|
        ensures IsValidTransition(log[i].from, log[i].to) && Entered(log[..i], log[i].from)
      {
        assert before[i] == log[i] && before[..i] == log[..i];
      }
    }
  }

  /** A path of allowed edges is the beginning of the one complete life. */
  lemma {:induction false} PathIsPrefix(log: seq<Record>)
    requires CausallyClosed(log) && IsPath(log)
    ensures |log| == Depth(StateAfter(log)) && log == FULL_PATH[..|log|]
  {
    if log != [] {
      var n := |log| - 1;
      PathIsPrefix(log[..n]);
      assert log == log[..n] + [log[n]];
    }
  }

  /** What appending one record does to the two log properties. */
  lemma AppendRecord(log: seq<Record>, r: Record)
    ensures CausallyClosed(log + [r])
            <==> CausallyClosed(log) && IsValidTransition(r.from, r.to) && Entered(log, r.from)
    ensures IsPath(log + [r]) <==> IsPath(log) && r.from == StateAfter(log)
    ensures StateAfter(log + [r]) == r.to
  {
    assert (log + [r])[..|log|] == log;
  }
}
