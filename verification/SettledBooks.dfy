/** When every settlement has completed, balances and history agree exactly. */
module SettledBooks {
  import opened Sums
  import opened FinalScores
  import opened Elo
  import opened PlayerStats
  import opened Settlement
  import opened SettlementProofs

  /** `call` has written the history row at position `k` for its player on `side`. */
  predicate WroteRow(call: Call, side: Side, k: nat) {
    call.Settling? && LegOf(call, side).record == Written(k)
  }

  predicate WroteAny(call: Call, kind: Kind) {
    call.Settling? && call.kind == kind && (call.forLeg.record.Written? || call.againstLeg.record.Written?)
  }

  /** No two settlements of this kind have written history for the same debate. */
  ghost predicate OncePerDebate(calls: seq<Call>, kind: Kind) {
    forall i, j :: 0 <= i < j < |calls| && WroteAny(calls[i], kind) && WroteAny(calls[j], kind)
                   ==> calls[i].debate != calls[j].debate
  }

  /** Every settlement that got past its reads has written both of its history rows. */
  ghost predicate AllComplete(calls: seq<Call>) {
    forall c :: 0 <= c < |calls| && calls[c].Settling?
                ==> calls[c].forLeg.record.Written? && calls[c].againstLeg.record.Written?
  }

  /** The row holds what an XP settlement recorded for this leg, whatever its Elo column is by now. */
  predicate HoldsLeg(row: Performance, c: nat, debate: string, leg: Leg) {
    row.(eloDelta := 0) == RowFor(c, debate, leg)
  }

  ghost predicate WrittenOk(rows: seq<Performance>, c: nat, call: Call, side: Side) {
    call.Settling? && LegOf(call, side).record.Written? ==>
      var k := LegOf(call, side).record.row;
      && k < |rows| && rows[k].user == LegOf(call, side).user && rows[k].debate == call.debate
      && (call.kind == XpKind ==> HoldsLeg(rows[k], c, call.debate, LegOf(call, side)))
  }

  ghost predicate OriginOk(calls: seq<Call>, row: Performance, k: nat) {
    && row.id < |calls| && calls[row.id].Settling? && calls[row.id].kind == XpKind
    && (WroteRow(calls[row.id], FOR, k) || WroteRow(calls[row.id], AGAINST, k))
  }

  ghost predicate EloCaused(calls: seq<Call>, k: nat) {
    exists c :: 0 <= c < |calls| && EloWroteAt(calls[c], k)
  }

  predicate EloWroteAt(call: Call, k: nat) {
    call.Settling? && call.kind == EloKind && (WroteRow(call, FOR, k) || WroteRow(call, AGAINST, k))
  }

  predicate EloColumnOk(rows: seq<Performance>, call: Call, side: Side) {
    call.Settling? && call.kind == EloKind && LegOf(call, side).record.Written?
    && LegOf(call, side).record.row < |rows| ==>
      rows[LegOf(call, side).record.row].eloDelta == LegOf(call, side).elo
  }

  ghost predicate RowsTraced(m: Machine) {
    && (forall c, side :: 0 <= c < |m.calls| ==> WrittenOk(m.rows, c, m.calls[c], side))
    && (forall k :: 0 <= k < |m.rows| ==> OriginOk(m.calls, m.rows[k], k))
    && (forall k :: 0 <= k < |m.rows| && m.rows[k].eloDelta != 0 ==> EloCaused(m.calls, k))
  }

  ghost predicate EloTraced(m: Machine, u: UserId) {
    OncePerDebate(m.calls, EloKind) ==>
      && (forall c, side :: 0 <= c < |m.calls| ==> EloColumnOk(m.rows, m.calls[c], side))
      && Sum(m.rows, RowElo(u)) == Sum(m.calls, EloRecorded(u))
  }

  // ----- steps that write no history

  /** Same settlement and same history writes, or no history write on either side. */
  predicate SameRecords(a: Call, b: Call) {
    if a.Settling? && b.Settling?
    then a.kind == b.kind && a.debate == b.debate
         && a.forLeg.(apply := Waiting) == b.forLeg.(apply := Waiting)
         && a.againstLeg.(apply := Waiting) == b.againstLeg.(apply := Waiting)
    else NoRecord(a) && NoRecord(b)
  }

  predicate NoRecord(a: Call) {
    a.Settling? ==> !a.forLeg.record.Written? && !a.againstLeg.record.Written?
  }

  /** A step of call `c` that writes no history keeps every trace. */
  lemma QuietTraces(m: Machine, m': Machine, c: nat, u: UserId)
    requires RowsTraced(m) && EloTraced(m, u) && m'.rows == m.rows
    requires c < |m.calls| && |m'.calls| == |m.calls| && m'.calls == m.calls[c := m'.calls[c]]
    requires SameRecords(m.calls[c], m'.calls[c]) || (SameButRejected(m.calls[c], m'.calls[c]))
    ensures RowsTraced(m') && EloTraced(m', u)
  {
    forall i, side | 0 <= i < |m'.calls| ensures WrittenOk(m'.rows, i, m'.calls[i], side) {
      assert WrittenOk(m.rows, i, m.calls[i], side);
    }
    forall k | 0 <= k < |m'.rows| ensures OriginOk(m'.calls, m'.rows[k], k) {
      assert OriginOk(m.calls, m.rows[k], k);
    }
    forall k | 0 <= k < |m'.rows| && m'.rows[k].eloDelta != 0 ensures EloCaused(m'.calls, k) {
      assert EloCaused(m.calls, k);
      var i :| 0 <= i < |m.calls| && EloWroteAt(m.calls[i], k);
      assert EloWroteAt(m'.calls[i], k);
    }
    QuietOnce(m.calls, c, m'.calls[c], EloKind);
    if OncePerDebate(m'.calls, EloKind) {
      forall i, side | 0 <= i < |m'.calls| ensures EloColumnOk(m'.rows, m'.calls[i], side) {
        assert EloColumnOk(m.rows, m.calls[i], side);
      }
      SumUpdate(m.calls, c, m'.calls[c], EloRecorded(u));
    }
  }

  /** One more history write of the call was refused. */
  predicate SameButRejected(a: Call, b: Call) {
    a.Settling? && b.Settling? && a.kind == b.kind && a.debate == b.debate
    && ((b.forLeg == a.forLeg.(record := Rejected) && a.forLeg.record == Idle && b.againstLeg == a.againstLeg)
        || (b.againstLeg == a.againstLeg.(record := Rejected) && a.againstLeg.record == Idle && b.forLeg == a.forLeg))
  }

  lemma QuietOnce(calls: seq<Call>, c: nat, call: Call, kind: Kind)
    requires c < |calls| && WroteAny(calls[c], kind) ==> WroteAny(call, kind) && call.debate == calls[c].debate
    requires c < |calls|
    ensures OncePerDebate(calls[c := call], kind) ==> OncePerDebate(calls, kind)
  {
    var calls' := calls[c := call];
    if OncePerDebate(calls', kind) {
      forall i, j | 0 <= i < j < |calls| && WroteAny(calls[i], kind) && WroteAny(calls[j], kind)
        ensures calls[i].debate != calls[j].debate
      {
        assert WroteAny(calls'[i], kind) && WroteAny(calls'[j], kind);
      }
    }
  }

  // ----- steps that write history

  lemma XpWriteRows(m: Machine, c: nat, side: Side)
    requires TablesOk(m) && RowsTraced(m)
    requires c < |m.calls| && MayRecord(m.calls[c], side) && m.calls[c].kind == XpKind
    requires RowIndex(m.rows, LegOf(m.calls[c], side).user, m.calls[c].debate) == |m.rows|
    ensures RowsTraced(StepRecord(m, c, side))
  {
    var m' := StepRecord(m, c, side);
    forall i, s | 0 <= i < |m'.calls| ensures WrittenOk(m'.rows, i, m'.calls[i], s) {
      assert WrittenOk(m.rows, i, m.calls[i], s);
    }
    forall k | 0 <= k < |m'.rows| ensures OriginOk(m'.calls, m'.rows[k], k) {
      if k < |m.rows| {
        assert m'.rows[k] == m.rows[k] && OriginOk(m.calls, m.rows[k], k);
      }
    }
    forall k | 0 <= k < |m'.rows| && m'.rows[k].eloDelta != 0 ensures EloCaused(m'.calls, k) {
      assert EloCaused(m.calls, k);
      var i :| 0 <= i < |m.calls| && EloWroteAt(m.calls[i], k);
      assert EloWroteAt(m'.calls[i], k);
    }
  }

  lemma XpWriteTraces(m: Machine, c: nat, side: Side, u: UserId)
    requires RowsTraced(m) && EloTraced(m, u)
    requires c < |m.calls| && MayRecord(m.calls[c], side) && m.calls[c].kind == XpKind
    requires RowIndex(m.rows, LegOf(m.calls[c], side).user, m.calls[c].debate) == |m.rows|
    ensures EloTraced(StepRecord(m, c, side), u)
  {
    var m' := StepRecord(m, c, side);
    QuietOnce(m.calls, c, m'.calls[c], EloKind);
    if OncePerDebate(m'.calls, EloKind) {
      forall i, s | 0 <= i < |m'.calls| ensures EloColumnOk(m'.rows, m'.calls[i], s) {
        assert EloColumnOk(m.rows, m.calls[i], s) && WrittenOk(m.rows, i, m.calls[i], s);
      }
      SumUpdate(m.calls, c, m'.calls[c], EloRecorded(u));
      SumSnoc(m.rows, m'.rows[|m.rows|], RowElo(u));
    }
  }

  lemma EloWriteRows(m: Machine, c: nat, side: Side, k: nat)
    requires TablesOk(m) && RowsTraced(m)
    requires c < |m.calls| && MayRecord(m.calls[c], side) && m.calls[c].kind == EloKind
    requires k == RowIndex(m.rows, LegOf(m.calls[c], side).user, m.calls[c].debate) < |m.rows|
    ensures RowsTraced(StepRecord(m, c, side))
  {
    var m' := StepRecord(m, c, side);
    forall i, s | 0 <= i < |m'.calls| ensures WrittenOk(m'.rows, i, m'.calls[i], s) {
      assert WrittenOk(m.rows, i, m.calls[i], s);
    }
    forall q | 0 <= q < |m'.rows| ensures OriginOk(m'.calls, m'.rows[q], q) {
      assert OriginOk(m.calls, m.rows[q], q);
    }
    forall q | 0 <= q < |m'.rows| && m'.rows[q].eloDelta != 0 ensures EloCaused(m'.calls, q) {
      if q == k {
        assert EloWroteAt(m'.calls[c], k);
      } else {
        assert EloCaused(m.calls, q);
        var i :| 0 <= i < |m.calls| && EloWroteAt(m.calls[i], q);
        assert EloWroteAt(m'.calls[i], q);
      }
    }
  }

  /** When no other Elo settlement has written for this debate, the row's Elo column is still zero. */
  lemma FirstEloWrite(m: Machine, c: nat, side: Side, k: nat)
    requires TablesOk(m) && RowsTraced(m)
    requires c < |m.calls| && MayRecord(m.calls[c], side) && m.calls[c].kind == EloKind
    requires k == RowIndex(m.rows, LegOf(m.calls[c], side).user, m.calls[c].debate) < |m.rows|
    requires OncePerDebate(StepRecord(m, c, side).calls, EloKind)
    ensures m.rows[k].eloDelta == 0
    ensures forall i, s :: 0 <= i < |m.calls| && m.calls[i].Settling? && m.calls[i].kind == EloKind
                           ==> !WroteRow(m.calls[i], s, k)
  {
    var calls' := StepRecord(m, c, side).calls;
    assert WroteAny(calls'[c], EloKind);
    forall i, s | 0 <= i < |m.calls| && m.calls[i].Settling? && m.calls[i].kind == EloKind
      ensures !WroteRow(m.calls[i], s, k)
    {
      assert WrittenOk(m.rows, i, m.calls[i], s) && CallOk(m.calls[i]);
      if i != c && WroteRow(m.calls[i], s, k) {
        assert WroteAny(calls'[i], EloKind);
      }
    }
    assert m.rows[k].eloDelta != 0 ==> EloCaused(m.calls, k);
  }

  lemma EloWriteTraces(m: Machine, c: nat, side: Side, k: nat, u: UserId)
    requires TablesOk(m) && RowsTraced(m) && EloTraced(m, u)
    requires c < |m.calls| && MayRecord(m.calls[c], side) && m.calls[c].kind == EloKind
    requires k == RowIndex(m.rows, LegOf(m.calls[c], side).user, m.calls[c].debate) < |m.rows|
    ensures EloTraced(StepRecord(m, c, side), u)
  {
    var m' := StepRecord(m, c, side);
    QuietOnce(m.calls, c, m'.calls[c], EloKind);
    if OncePerDebate(m'.calls, EloKind) {
      FirstEloWrite(m, c, side, k);
      forall i, s | 0 <= i < |m'.calls| ensures EloColumnOk(m'.rows, m'.calls[i], s) {
        assert EloColumnOk(m.rows, m.calls[i], s);
        assert WroteRow(m.calls[i], s, k) ==> m.calls[i].kind == XpKind;
      }
      SumUpdate(m.calls, c, m'.calls[c], EloRecorded(u));
      SumUpdate(m.rows, k, m'.rows[k], RowElo(u));
    }
  }

  lemma RecordTraces(m: Machine, c: nat, side: Side, u: UserId)
    requires TablesOk(m) && RowsTraced(m) && EloTraced(m, u)
    requires c < |m.calls| && MayRecord(m.calls[c], side)
    ensures RowsTraced(StepRecord(m, c, side)) && EloTraced(StepRecord(m, c, side), u)
  {
    var k := RowIndex(m.rows, LegOf(m.calls[c], side).user, m.calls[c].debate);
    if (m.calls[c].kind == XpKind) == (k < |m.rows|) {
      QuietTraces(m, StepRecord(m, c, side), c, u);
    } else if m.calls[c].kind == XpKind {
      XpWriteRows(m, c, side);
      XpWriteTraces(m, c, side, u);
    } else {
      EloWriteRows(m, c, side, k);
      EloWriteTraces(m, c, side, k, u);
    }
  }

  lemma BeginTraces(m: Machine, call: Call, u: UserId)
    requires RowsTraced(m) && EloTraced(m, u) && call.ReadingScore?
    ensures RowsTraced(m.(calls := m.calls + [call])) && EloTraced(m.(calls := m.calls + [call]), u)
  {
    var m' := m.(calls := m.calls + [call]);
    forall k | 0 <= k < |m'.rows| ensures OriginOk(m'.calls, m'.rows[k], k) {
      assert OriginOk(m.calls, m.rows[k], k);
    }
    forall k | 0 <= k < |m'.rows| && m'.rows[k].eloDelta != 0 ensures EloCaused(m'.calls, k) {
      assert EloCaused(m.calls, k);
      var i :| 0 <= i < |m.calls| && EloWroteAt(m.calls[i], k);
      assert EloWroteAt(m'.calls[i], k);
    }
    if OncePerDebate(m'.calls, EloKind) {
      forall i, j | 0 <= i < j < |m.calls| && WroteAny(m.calls[i], EloKind) && WroteAny(m.calls[j], EloKind)
        ensures m.calls[i].debate != m.calls[j].debate
      {
        assert m'.calls[i] == m.calls[i] && m'.calls[j] == m.calls[j];
      }
      SumSnoc(m.calls, call, EloRecorded(u));
    }
  }

  /** The events that write no history row. */
  lemma QuietEvent(m: Machine, e: Event, c: nat)
    requires e == ReadScore(c) || e.ReadStats? || e.Apply? || e.FailApply? || e.LoseReply? || e.FailRecord?
    requires e.call == c && Step(m, e) != m
    ensures var m' := Step(m, e);
            && c < |m.calls| && |m'.calls| == |m.calls| && m'.calls == m.calls[c := m'.calls[c]] && m'.rows == m.rows
            && (SameRecords(m.calls[c], m'.calls[c]) || SameButRejected(m.calls[c], m'.calls[c]))
  {
  }

  lemma StepTraces(m: Machine, e: Event, u: UserId)
    requires TablesOk(m) && RowsTraced(m) && EloTraced(m, u)
    ensures RowsTraced(Step(m, e)) && EloTraced(Step(m, e), u)
  {
    hide RowsTraced, EloTraced, TablesOk;
    if Step(m, e) != m {
      match e
      case PutScore(_, _) => ScoresTraces(m, Step(m, e), u);
      case Begin(kind, d, f, a) => BeginTraces(m, ReadingScore(kind, d, f, a), u);
      case Record(c, side) => RecordTraces(m, c, side, u);
      case _ =>
        QuietEvent(m, e, e.call);
        QuietTraces(m, Step(m, e), e.call, u);
    }
  }

  lemma ScoresTraces(m: Machine, m': Machine, u: UserId)
    requires RowsTraced(m) && EloTraced(m, u) && m'.rows == m.rows && m'.calls == m.calls
    ensures RowsTraced(m') && EloTraced(m', u)
  {
  }

  lemma {:induction false} AlwaysTraced(pow: Power, es: seq<Event>, u: UserId)
    ensures RowsTraced(After(pow, es)) && EloTraced(After(pow, es), u)
  {
    if es != [] {
      var before := After(pow, es[..|es| - 1]);
      AlwaysTraced(pow, es[..|es| - 1], u);
      AlwaysInv(pow, es[..|es| - 1], u);
      StepTraces(before, es[|es| - 1], u);
    }
  }

  // ----- complete runs

  /**
   In every run at whose end all started settlements are complete, in whatever order
   they interleaved: XP is exactly the sum of xp_delta, the debates counter is one per
   history row plus one per Elo settlement, and, when no debate was Elo-settled twice,
   Elo is 1000 plus the sum of elo_delta.
   */
  lemma BooksBalance(pow: Power, es: seq<Event>, u: UserId)
    requires AllComplete(After(pow, es).calls)
    ensures var m := After(pow, es);
            && XpHeld(m.table, u) == Sum(m.rows, RowXp(u))
            && GamesHeld(m.table, u) == Sum(m.rows, RowCount(u)) + Sum(m.calls, EloSettled(u))
            && (OncePerDebate(m.calls, EloKind) ==> CurrentElo(m.table, u) == 1000 + Sum(m.rows, RowElo(u)))
  {
    var m := After(pow, es);
    AlwaysInv(pow, es, u);
    AlwaysTraced(pow, es, u);
    HeldIsTotal(m.table, u);
    forall c | 0 <= c < |m.calls|
      ensures XpRecorded(u)(m.calls[c]) == XpPaid(u)(m.calls[c]) && EloRecorded(u)(m.calls[c]) == EloPaid(u)(m.calls[c])
      ensures GamesPaid(u)(m.calls[c]) == GamesRecorded(u)(m.calls[c]) + EloSettled(u)(m.calls[c])
    {
      assert CallOk(m.calls[c]);
    }
    SumEqual(m.calls, XpRecorded(u), XpPaid(u));
    SumEqual(m.calls, EloRecorded(u), EloPaid(u));
    SumOfTwo(m.calls, GamesPaid(u), GamesRecorded(u), EloSettled(u));
  }

  lemma {:induction false} SumOfTwo(calls: seq<Call>, f: Call -> int, g: Call -> int, h: Call -> int)
    requires forall i :: 0 <= i < |calls| ==> f(calls[i]) == g(calls[i]) + h(calls[i])
    ensures Sum(calls, f) == Sum(calls, g) + Sum(calls, h)
  {
    if calls != [] {
      assert forall i :: 0 <= i < |calls| - 1 ==> calls[..|calls| - 1][i] == calls[i];
      SumOfTwo(calls[..|calls| - 1], f, g, h);
    }
  }

  /** The two rows of one debate: opposite sides and results, swapped scores, Elo deltas that cancel. */
  predicate Mirrored(a: Performance, b: Performance) {
    && a.debate == b.debate && a.user != b.user && a.side == FOR && b.side == AGAINST
    && b.result == OppositeResult(a.result)
    && a.finalScore == b.opponentScore && b.finalScore == a.opponentScore
    && a.eloDelta + b.eloDelta == 0
  }

  /** The row at `k` of a debate that was XP-settled once is one of the two rows of that settlement. */
  lemma RowOfSettlement(m: Machine, c: nat, k: nat)
    requires RowsTraced(m) && OncePerDebate(m.calls, XpKind)
    requires c < |m.calls| && WroteAny(m.calls[c], XpKind)
    requires k < |m.rows| && m.rows[k].debate == m.calls[c].debate
    ensures WroteRow(m.calls[c], FOR, k) || WroteRow(m.calls[c], AGAINST, k)
  {
    assert OriginOk(m.calls, m.rows[k], k);
    var x := m.rows[k].id;
    assert WrittenOk(m.rows, x, m.calls[x], FOR) && WrittenOk(m.rows, x, m.calls[x], AGAINST);
    assert WroteAny(m.calls[x], XpKind) && m.calls[x].debate == m.calls[c].debate;
    assert x == c;
  }

  /** An Elo settlement that wrote to one row of an XP-settled debate wrote the negative to its other row. */
  lemma EloCancels(m: Machine, c: nat, i: nat, j: nat)
    requires TablesOk(m) && RowsTraced(m) && EloTraced(m, 0) && AllComplete(m.calls)
    requires OncePerDebate(m.calls, EloKind) && OncePerDebate(m.calls, XpKind)
    requires c < |m.calls| && m.calls[c].Settling? && m.calls[c].kind == XpKind
    requires (WroteRow(m.calls[c], FOR, i) && WroteRow(m.calls[c], AGAINST, j))
             || (WroteRow(m.calls[c], AGAINST, i) && WroteRow(m.calls[c], FOR, j))
    requires i < |m.rows| && j < |m.rows| && m.rows[i].eloDelta != 0
    ensures m.rows[i].eloDelta + m.rows[j].eloDelta == 0
  {
    assert EloCaused(m.calls, i);
    var e :| 0 <= e < |m.calls| && EloWroteAt(m.calls[e], i);
    var mine := if WroteRow(m.calls[e], FOR, i) then FOR else AGAINST;
    var other := if mine == FOR then AGAINST else FOR;
    var k := LegOf(m.calls[e], other).record.row;
    assert CallOk(m.calls[e]);
    assert WrittenOk(m.rows, e, m.calls[e], mine) && WrittenOk(m.rows, e, m.calls[e], other);
    assert WrittenOk(m.rows, c, m.calls[c], FOR) && WrittenOk(m.rows, c, m.calls[c], AGAINST);
    assert EloColumnOk(m.rows, m.calls[e], mine) && EloColumnOk(m.rows, m.calls[e], other);
    RowOfSettlement(m, c, k);
    hide RowsTraced, EloTraced, OncePerDebate, AllComplete, TablesOk;
    assert k == j;
  }

  /** Of a debate that was XP-settled once and Elo-settled at most once, the two history rows mirror each other. */
  lemma HistoryRowsMirror(pow: Power, es: seq<Event>, c: nat)
    requires var calls := After(pow, es).calls;
             && AllComplete(calls) && OncePerDebate(calls, EloKind) && OncePerDebate(calls, XpKind)
             && c < |calls| && calls[c].Settling? && calls[c].kind == XpKind
    ensures var m := After(pow, es);
            exists i, j :: 0 <= i < |m.rows| && 0 <= j < |m.rows| && Mirrored(m.rows[i], m.rows[j])
                           && m.rows[i].user == m.calls[c].forLeg.user && m.rows[j].user == m.calls[c].againstLeg.user
                           && m.rows[i].debate == m.calls[c].debate
  {
    var m := After(pow, es);
    AlwaysInv(pow, es, 0);
    AlwaysTraced(pow, es, 0);
    assert CallOk(m.calls[c]);
    assert WrittenOk(m.rows, c, m.calls[c], FOR) && WrittenOk(m.rows, c, m.calls[c], AGAINST);
    var i, j := m.calls[c].forLeg.record.row, m.calls[c].againstLeg.record.row;
    if m.rows[i].eloDelta != 0 {
      EloCancels(m, c, i, j);
    } else if m.rows[j].eloDelta != 0 {
      EloCancels(m, c, j, i);
    }
    assert Mirrored(m.rows[i], m.rows[j]);
  }
}
