/** Which overlapping calls make the history of a room leave the single path. */
module RoomOverlap {
  import opened Common
  import opened Machines
  import opened DebateStates
  import opened RoomStore
  import opened RoomProtocol
  import opened RoomProofs

  /** Call `c` has read room `r`, found its transition valid, and its transaction has still to commit. */
  ghost predicate Writing(m: Machine, c: nat, r: RoomId) {
    c < |m.calls| && m.calls[c].TransitionWrite? && m.calls[c].room == r
  }

  /** Event `i` of the run commits the transaction of call `c` on room `r`. */
  ghost predicate Commits(es: seq<Event>, i: nat, c: nat, r: RoomId) {
    i < |es| && es[i].Advance? && es[i].call == c && Writing(After(es[..i]), c, r)
  }

  /** Call `c` commits while call `d` waits to commit on the same room, and `d` still commits later. */
  ghost predicate Overtakes(es: seq<Event>, i: nat, c: nat, j: nat, d: nat, r: RoomId) {
    i < j && c != d && Commits(es, i, c, r) && Writing(After(es[..i]), d, r) && Commits(es, j, d, r)
  }

  ghost predicate SomeOvertakes(es: seq<Event>, r: RoomId) {
    exists i: nat, c: nat, j: nat, d: nat :: Overtakes(es, i, c, j, d, r)
  }

  // ----- an outdated commit was overtaken

  /** Call `d` waits to commit on `r`, and another call has committed there since `d` read the room. */
  ghost predicate Passed(es: seq<Event>, d: nat, r: RoomId) {
    exists i: nat, c: nat :: c != d && Commits(es, i, c, r) && Writing(After(es[..i]), d, r)
  }

  /** Every call that waits with an outdated state has been passed, and an outdated commit overtook somebody. */
  ghost predicate OutdatedIsPassed(es: seq<Event>, r: RoomId) {
    var m := After(es);
    && (forall d: nat :: Writing(m, d, r) && r in m.w.rooms && m.calls[d].from != m.w.rooms[r].state
                         ==> Passed(es, d, r))
    && (r in m.stale ==> SomeOvertakes(es, r))
  }

  lemma CommitsLater(es: seq<Event>, e: Event, i: nat, c: nat, r: RoomId)
    requires i < |es|
    ensures (es + [e])[..i] == es[..i] && (Commits(es, i, c, r) <==> Commits(es + [e], i, c, r))
  {
    assert (es + [e])[..i] == es[..i];
  }

  lemma PassedLater(es: seq<Event>, e: Event, d: nat, r: RoomId)
    ensures Passed(es, d, r) ==> Passed(es + [e], d, r)
    ensures SomeOvertakes(es, r) ==> SomeOvertakes(es + [e], r)
  {
    if Passed(es, d, r) {
      var i: nat, c: nat :| c != d && Commits(es, i, c, r) && Writing(After(es[..i]), d, r);
      CommitsLater(es, e, i, c, r);
    }
    if SomeOvertakes(es, r) {
      var i: nat, c: nat, j: nat, k: nat :| Overtakes(es, i, c, j, k, r);
      CommitsLater(es, e, i, c, r);
      CommitsLater(es, e, j, k, r);
      assert Overtakes(es + [e], i, c, j, k, r);
    }
  }

  /** What one event can do to the state of a room and to the calls that wait to commit on it. */
  lemma StepAtRoom(m: Machine, e: Event, r: RoomId)
    requires Inv(m)
    ensures var m' := Step(m, e);
            var commit := e.Advance? && Writing(m, e.call, r);
            && (forall d: nat :: Writing(m', d, r) ==>
                  if Writing(m, d, r) then m'.calls[d] == m.calls[d] && (e.Advance? ==> e.call != d)
                  else r in m'.w.rooms && m'.calls[d].from == m'.w.rooms[r].state)
            && (r in m.w.rooms && !commit ==> r in m'.w.rooms && m'.w.rooms[r].state == m.w.rooms[r].state)
            && (r in m'.stale && r !in m.stale ==>
                  commit && r in m.w.rooms && m.calls[e.call].from != m.w.rooms[r].state)
  {
    if e.Advance? && e.call < |m.calls| {
      assert CallOk(m.w.rooms, e.call, m.calls[e.call]);
      ResumeAtRoom(m, e.call, e.picked, r);
    }
    hide Inv, Resume, CallOk;
  }

  lemma ResumeAtRoom(m: Machine, c: nat, picked: Option<nat>, r: RoomId)
    requires c < |m.calls| && CallOk(m.w.rooms, c, m.calls[c])
    ensures var m' := Resume(m, c, picked);
            && (forall d: nat :: Writing(m', d, r) ==>
                  if Writing(m, d, r) then m'.calls[d] == m.calls[d] && c != d
                  else r in m'.w.rooms && m'.calls[d].from == m'.w.rooms[r].state)
            && (r in m.w.rooms && !Writing(m, c, r) ==> r in m'.w.rooms && m'.w.rooms[r].state == m.w.rooms[r].state)
            && (r in m'.stale && r !in m.stale ==>
                  Writing(m, c, r) && r in m.w.rooms && m.calls[c].from != m.w.rooms[r].state)
  {
  }

  lemma NothingOutdatedYet(r: RoomId)
    ensures OutdatedIsPassed([], r)
  {
    assert After([]) == INIT;
  }

  lemma {:induction false} AlwaysPassed(es: seq<Event>, r: RoomId)
    ensures OutdatedIsPassed(es, r)
  {
    hide *;
    if es == [] {
      NothingOutdatedYet(r);
    } else {
      var before, e := es[..|es| - 1], es[|es| - 1];
      assert es == before + [e];
      AlwaysPassed(before, r);
      AlwaysInv(before);
      StepPasses(before, e, r);
    }
  }

  lemma StepPasses(es: seq<Event>, e: Event, r: RoomId)
    requires OutdatedIsPassed(es, r) && Inv(After(es))
    ensures OutdatedIsPassed(es + [e], r)
  {
    var m, m', es' := After(es), After(es + [e]), es + [e];
    RunSnoc(Step, INIT, es, e);
    StepAtRoom(m, e, r);
    assert es'[..|es|] == es;
    forall d: nat | Writing(m', d, r) && r in m'.w.rooms && m'.calls[d].from != m'.w.rooms[r].state
      ensures Passed(es', d, r)
    {
      PassedLater(es, e, d, r);
      assert Writing(m, d, r);
      assert CallOk(m.w.rooms, d, m.calls[d]);
      if e.Advance? && Writing(m, e.call, r) {
        assert Commits(es', |es|, e.call, r);
      }
    }
    if r in m'.stale {
      if r in m.stale {
        PassedLater(es, e, 0, r);
      } else {
        OutdatedOvertakes(es, e, r);
      }
    }
  }

  /** An outdated commit makes its call one that was overtaken. */
  lemma OutdatedOvertakes(es: seq<Event>, e: Event, r: RoomId)
    requires e.Advance? && Writing(After(es), e.call, r) && Passed(es, e.call, r)
    ensures SomeOvertakes(es + [e], r)
  {
    var d := e.call;
    var i: nat, c: nat :| c != d && Commits(es, i, c, r) && Writing(After(es[..i]), d, r);
    CommitsLater(es, e, i, c, r);
    assert (es + [e])[..|es|] == es;
    assert Overtakes(es + [e], i, c, |es|, d, r);
  }

  // ----- an overtaken commit is outdated

  /** How far a transition has come: it waits to read, it waits to commit, or neither any more. */
  function Rank(call: Call): nat {
    if call.TransitionRead? then 0 else if call.TransitionWrite? then 1 else 2
  }

  lemma RankRises(m: Machine, e: Event, d: nat)
    requires d < |m.calls|
    ensures var m' := Step(m, e);
            d < |m'.calls| && Rank(m.calls[d]) <= Rank(m'.calls[d])
            && (m.calls[d].TransitionWrite? && m'.calls[d].TransitionWrite? ==> m'.calls[d] == m.calls[d])
  {
    hide Resume;
    if e.Advance? && e.call < |m.calls| {
      ResumeRank(m, e.call, e.picked, d);
    }
  }

  lemma ResumeRank(m: Machine, c: nat, picked: Option<nat>, d: nat)
    requires c < |m.calls| && d < |m.calls|
    ensures var m' := Resume(m, c, picked);
            d < |m'.calls| && Rank(m.calls[d]) <= Rank(m'.calls[d])
            && (m.calls[d].TransitionWrite? && m'.calls[d].TransitionWrite? ==> m'.calls[d] == m.calls[d])
  {
    var m' := Resume(m, c, picked);
    assert |m'.calls| == |m.calls| && forall i :: 0 <= i < |m.calls| && i != c ==> m'.calls[i] == m.calls[i];
    assert Rank(m.calls[c]) <= Rank(m'.calls[c]);
  }

  lemma AfterOneMore(es: seq<Event>, j: nat)
    requires j < |es|
    ensures After(es[..j + 1]) == Step(After(es[..j]), es[j])
  {
    assert es[..j + 1] == es[..j] + [es[j]];
    RunSnoc(Step, INIT, es[..j], es[j]);
  }

  /** A call that has read never waits to read again. */
  lemma {:induction false} RankStays(es: seq<Event>, i: nat, j: nat, d: nat)
    requires i <= j <= |es| && d < |After(es[..i]).calls| && Rank(After(es[..i]).calls[d]) >= 1
    ensures d < |After(es[..j]).calls| && Rank(After(es[..j]).calls[d]) >= 1
  {
    hide *;
    if i < j {
      RankStays(es, i, j - 1, d);
      AfterOneMore(es, j - 1);
      RankRises(After(es[..j - 1]), es[j - 1], d);
    }
  }

  /** A call that waits to commit now, and had already read then, has waited with the same local values since. */
  lemma {:induction false} WaitedSince(es: seq<Event>, i: nat, j: nat, d: nat)
    requires i <= j <= |es| && d < |After(es[..i]).calls| && Rank(After(es[..i]).calls[d]) >= 1
    requires d < |After(es[..j]).calls| && After(es[..j]).calls[d].TransitionWrite?
    ensures After(es[..i]).calls[d] == After(es[..j]).calls[d]
  {
    hide Run, Step, After;
    if i < j {
      RankStays(es, i, j - 1, d);
      AfterOneMore(es, j - 1);
      RankRises(After(es[..j - 1]), es[j - 1], d);
      WaitedSince(es, i, j - 1, d);
    }
  }

  lemma StateWasEntered(log: seq<Record>, s: DebateState)
    requires CausallyClosed(log) && IsPath(log) && Entered(log, s)
    ensures Depth(s) <= |log|
  {
    PathIsPrefix(log);
  }

  lemma {:induction false} PathBefore(log: seq<Record>, n: nat)
    requires IsPath(log) && n < |log|
    ensures IsPath(log[..n]) && log[n].from == StateAfter(log[..n])
  {
    if n < |log| - 1 {
      var before := log[..|log| - 1];
      PathBefore(before, n);
      assert before[..n] == log[..n];
    }
  }

  /** A commit appends the record of its call. */
  lemma CommitAppends(es: seq<Event>, i: nat, c: nat, r: RoomId)
    requires Commits(es, i, c, r)
    ensures var before := After(es[..i]);
            && r in before.w.rooms && r in After(es[..i + 1]).w.rooms
            && After(es[..i + 1]).w.rooms[r].log
               == before.w.rooms[r].log + [Record(before.calls[c].from, before.calls[c].to)]
  {
    AlwaysInv(es[..i]);
    assert CallOk(After(es[..i]).w.rooms, c, After(es[..i]).calls[c]);
    assert es[..i + 1][..i] == es[..i];
  }

  lemma LogGrows(es: seq<Event>, i: nat, j: nat, r: RoomId)
    requires i <= j <= |es| && r in After(es[..i]).w.rooms
    ensures r in After(es[..j]).w.rooms && After(es[..i]).w.rooms[r].log <= After(es[..j]).w.rooms[r].log
    ensures RoomOk(After(es[..i]).w.rooms[r]) && RoomOk(After(es[..j]).w.rooms[r])
  {
    assert es[..j] == es[..i] + es[i..j];
    RoomLater(es[..i], es[i..j], r);
  }

  lemma OvertakenLeavesPath(es: seq<Event>, i: nat, c: nat, j: nat, d: nat, r: RoomId)
    requires Overtakes(es, i, c, j, d, r)
    ensures r in After(es).w.rooms && !IsPath(After(es).w.rooms[r].log)
  {
    CommitAppends(es, i, c, r);
    CommitAppends(es, j, d, r);
    LogGrows(es, i + 1, j, r);
    LogGrows(es, j + 1, |es|, r);
    assert es[..|es|] == es;
    WaiterEntered(es, i, j, d, r);
    LogGrows(es, i, j, r);
    hide Run, Inv, CallOk, Writing, Entered, CausallyClosed, IsPath;
    OutdatedLog(After(es[..i]).w.rooms[r].log, After(es[..j]).w.rooms[r].log, After(es).w.rooms[r].log,
                After(es[..j]).calls[d].from);
  }

  /** The state that a waiting call will commit from had been entered when it already waited. */
  lemma WaiterEntered(es: seq<Event>, i: nat, j: nat, d: nat, r: RoomId)
    requires i <= j <= |es| && Writing(After(es[..i]), d, r) && Writing(After(es[..j]), d, r)
    ensures r in After(es[..i]).w.rooms && Entered(After(es[..i]).w.rooms[r].log, After(es[..j]).calls[d].from)
  {
    WaitedSince(es, i, j, d);
    AlwaysInv(es[..i]);
    assert CallOk(After(es[..i]).w.rooms, d, After(es[..i]).calls[d]);
  }

  /** `from` was entered by `early`, the log has grown since, and then a record that leaves `from` was appended. */
  lemma OutdatedLog(early: seq<Record>, late: seq<Record>, log: seq<Record>, from: DebateState)
    requires early < late < log && CausallyClosed(early) && Entered(early, from)
    requires CausallyClosed(late) && log[|late|].from == from
    ensures !IsPath(log)
  {
    if IsPath(log) {
      PathBefore(log, |late|);
      PathBefore(log, |early|);
      assert log[..|late|] == late && log[..|early|] == early;
      PathIsPrefix(late);
      StateWasEntered(early, from);
    }
  }

  // ----- the theorems

  /**
   The history of a room leaves the single path if and only if some transition committed
   while another one, which had already read the room, was waiting to commit and then did.
   */
  lemma OffPathIffOvertaken(es: seq<Event>, r: RoomId)
    requires r in After(es).w.rooms
    ensures !IsPath(After(es).w.rooms[r].log) <==> SomeOvertakes(es, r)
    ensures !SomeOvertakes(es, r) ==> After(es).w.rooms[r].log == FULL_PATH[..Depth(After(es).w.rooms[r].state)]
  {
    AlwaysPassed(es, r);
    SinglePathIffNeverStale(es, r);
    if SomeOvertakes(es, r) {
      var i: nat, c: nat, j: nat, d: nat :| Overtakes(es, i, c, j, d, r);
      OvertakenLeavesPath(es, i, c, j, d, r);
    }
  }

  /** One writer at a time is enough: then the log is the beginning of the one complete life. */
  lemma OneWriterKeepsThePath(es: seq<Event>, r: RoomId)
    requires r in After(es).w.rooms
    requires forall n: nat, c: nat, d: nat ::
               n <= |es| && Writing(After(es[..n]), c, r) && Writing(After(es[..n]), d, r) ==> c == d
    ensures After(es).w.rooms[r].log == FULL_PATH[..Depth(After(es).w.rooms[r].state)]
  {
    OffPathIffOvertaken(es, r);
    assert forall i: nat, c: nat, j: nat, d: nat :: !Overtakes(es, i, c, j, d, r);
  }

  /** And two writers that wait at the same moment and both commit later always break it. */
  lemma TwoWritersBreakThePath(es: seq<Event>, n: nat, i: nat, c: nat, j: nat, d: nat, r: RoomId)
    requires n <= i < j && c != d && j < |es|
    requires Writing(After(es[..n]), c, r) && Writing(After(es[..n]), d, r)
    requires Commits(es, i, c, r) && Commits(es, j, d, r)
    ensures r in After(es).w.rooms && !IsPath(After(es).w.rooms[r].log) && r in After(es).stale
  {
    RankStays(es, n, i, d);
    WaitedSince(es, i, j, d);
    assert Overtakes(es, i, c, j, d, r);
    OvertakenLeavesPath(es, i, c, j, d, r);
    SinglePathIffNeverStale(es, r);
  }

  // ----- moving backwards

  /** Call `d` committed at event `j` while call `c` was waiting to commit, and nobody has committed on `r` since. */
  ghost predicate LastPassed(es: seq<Event>, j: nat, d: nat, c: nat, r: RoomId) {
    && d != c && Commits(es, j, d, r) && Writing(After(es[..j]), c, r)
    && forall k: nat, b: nat :: j < k < |es| ==> !Commits(es, k, b, r)
  }

  /** The state that a commit of call `d` at event `j` moved its room to. */
  ghost function Target(es: seq<Event>, j: nat, d: nat): DebateState
    requires j <= |es| && d < |After(es[..j]).calls| && After(es[..j]).calls[d].TransitionWrite?
  {
    After(es[..j]).calls[d].to
  }

  /** While call `c` waits, the room is where `c` read it or where the last commit since has moved it. */
  ghost predicate StateExplained(es: seq<Event>, c: nat, r: RoomId)
    requires Writing(After(es), c, r)
  {
    var m := After(es);
    r in m.w.rooms
    && (m.w.rooms[r].state == m.calls[c].from
        || exists j: nat, d: nat :: LastPassed(es, j, d, c, r) && m.w.rooms[r].state == Target(es, j, d))
  }

  lemma CommitSetsState(m: Machine, c: nat, picked: Option<nat>, r: RoomId)
    requires Inv(m) && Writing(m, c, r)
    ensures var m' := Step(m, Advance(c, picked)); r in m'.w.rooms && m'.w.rooms[r].state == m.calls[c].to
  {
    assert CallOk(m.w.rooms, c, m.calls[c]);
  }

  lemma PassedStays(es: seq<Event>, e: Event, j: nat, d: nat, c: nat, r: RoomId)
    requires LastPassed(es, j, d, c, r) && !(e.Advance? && Writing(After(es), e.call, r))
    ensures LastPassed(es + [e], j, d, c, r) && Target(es + [e], j, d) == Target(es, j, d)
  {
    CommitsLater(es, e, j, d, r);
    assert (es + [e])[..|es|] == es;
    forall k: nat, b: nat | j < k < |es + [e]| ensures !Commits(es + [e], k, b, r) {
      if k < |es| {
        CommitsLater(es, e, k, b, r);
      }
    }
  }

  lemma StepExplains(es: seq<Event>, e: Event, c: nat, r: RoomId)
    requires Writing(After(es + [e]), c, r)
    requires Writing(After(es), c, r) ==> StateExplained(es, c, r)
    ensures StateExplained(es + [e], c, r)
  {
    var m, m', es' := After(es), After(es + [e]), es + [e];
    RunSnoc(Step, INIT, es, e);
    AlwaysInv(es);
    StepAtRoom(m, e, r);
    hide Step, Inv, Run;
    assert es'[..|es|] == es;
    if Writing(m, c, r) {
      if e.Advance? && Writing(m, e.call, r) {
        CommitSetsState(m, e.call, e.picked, r);
        assert Commits(es', |es|, e.call, r);
        assert LastPassed(es', |es|, e.call, c, r);
      } else if m.w.rooms[r].state != m.calls[c].from {
        var j: nat, d: nat :| LastPassed(es, j, d, c, r) && m.w.rooms[r].state == Target(es, j, d);
        PassedStays(es, e, j, d, c, r);
      }
    }
  }

  lemma {:induction false} AlwaysExplained(es: seq<Event>, c: nat, r: RoomId)
    requires Writing(After(es), c, r)
    ensures StateExplained(es, c, r)
  {
    if es != [] {
      var before, e := es[..|es| - 1], es[|es| - 1];
      assert es == before + [e];
      if Writing(After(before), c, r) {
        AlwaysExplained(before, c, r);
      }
      StepExplains(before, e, c, r);
    }
  }

  /** Between commits the state of a room stays what the last commit made it. */
  lemma {:induction false} StateSinceCommit(es: seq<Event>, j: nat, d: nat, r: RoomId)
    requires Commits(es, j, d, r) && forall k: nat, b: nat :: j < k < |es| ==> !Commits(es, k, b, r)
    ensures r in After(es).w.rooms && After(es).w.rooms[r].state == Target(es, j, d)
  {
    var before, e := es[..|es| - 1], es[|es| - 1];
    assert es == before + [e];
    assert before[..j] == es[..j];
    RunSnoc(Step, INIT, before, e);
    AlwaysInv(before);
    if j == |es| - 1 {
      CommitSetsState(After(before), d, e.picked, r);
    } else {
      forall k: nat, b: nat | j < k < |before| ensures !Commits(before, k, b, r) {
        CommitsLater(before, e, k, b, r);
      }
      CommitsLater(before, e, j, d, r);
      StateSinceCommit(before, j, d, r);
      assert e.Advance? ==> !Commits(es, |before|, e.call, r);
      StepAtRoom(After(before), e, r);
    }
  }

  /**
   A commit of call `c` takes its room backwards if and only if the last commit on the room
   while `c` waited moved it further than `c` does.
   */
  lemma MovesBackwardsIff(es: seq<Event>, c: nat, picked: Option<nat>, r: RoomId)
    requires Writing(After(es), c, r)
    ensures var m, m' := After(es), After(es + [Advance(c, picked)]);
            && r in m.w.rooms && r in m'.w.rooms
            && (Depth(m'.w.rooms[r].state) < Depth(m.w.rooms[r].state)
                <==> exists j: nat, d: nat ::
                       LastPassed(es, j, d, c, r) && Depth(Target(es, j, d)) > Depth(m.calls[c].to))
  {
    var m := After(es);
    RunSnoc(Step, INIT, es, Advance(c, picked));
    AlwaysInv(es);
    assert CallOk(m.w.rooms, c, m.calls[c]);
    CommitSetsState(m, c, picked, r);
    AlwaysExplained(es, c, r);
    hide Step, Inv, Run;
    if exists j: nat, d: nat :: LastPassed(es, j, d, c, r) && Depth(Target(es, j, d)) > Depth(m.calls[c].to) {
      var j: nat, d: nat :| LastPassed(es, j, d, c, r) && Depth(Target(es, j, d)) > Depth(m.calls[c].to);
      StateSinceCommit(es, j, d, r);
    }
  }
}
