/**
 The effect of one whole settlement that nothing overtakes and in which no statement
 fails by itself, what repeating a settlement does, and settlements as undisturbed runs.
 */
module SettlementSerial {
  import opened Common
  import opened Machines
  import opened Sums
  import opened FinalScores
  import opened Elo
  import opened PlayerStats
  import opened Settlement
  import opened SettlementProofs

  datatype Books = Books(table: seq<Stats>, rows: seq<Performance>)

  datatype Answer = Settled | FailedPrecondition | InvalidArgument | AlreadyExists

  /** Both requests are sent at once: one side's refusal does not hold back the other. */
  function PayBoth(table: seq<Stats>, f: Leg, a: Leg): (seq<Stats>, bool) {
    var (t1, ok1) := ApplyDelta(table, f.user, f.xp, f.elo, f.result);
    var (t2, ok2) := ApplyDelta(t1, a.user, a.xp, a.elo, a.result);
    (t2, ok1 && ok2)
  }

  function InsertRowFor(rows: seq<Performance>, id: nat, debate: string, leg: Leg): seq<Performance> {
    if RowIndex(rows, leg.user, debate) < |rows| then rows else rows + [RowFor(id, debate, leg)]
  }

  /** computeXpForDebateClose. The history is only looked at after both players have been paid. */
  function SerialXp(b: Books, id: nat, score: Option<FinalRow>, debate: string, f: UserId, a: UserId): (Books, Answer) {
    match score
    case None => (b, FailedPrecondition)
    case Some(row) =>
      var fLeg, aLeg := XpLeg(f, FOR, row), XpLeg(a, AGAINST, row);
      var (table, ok) := PayBoth(b.table, fLeg, aLeg);
      if !ok then (Books(table, b.rows), InvalidArgument)
      else
        var rows := InsertRowFor(InsertRowFor(b.rows, id, debate, fLeg), id, debate, aLeg);
        (Books(table, rows),
         if RowIndex(b.rows, f, debate) < |b.rows| || RowIndex(b.rows, a, debate) < |b.rows|
         then AlreadyExists else Settled)
  }

  function SetElo(rows: seq<Performance>, u: UserId, debate: string, elo: int): seq<Performance> {
    var k := RowIndex(rows, u, debate);
    if k < |rows| then rows[k := rows[k].(eloDelta := elo)] else rows
  }

  /** computeEloForDebateClose: the history columns are overwritten, not added to. */
  function SerialElo(pow: Power, b: Books, score: Option<FinalRow>, debate: string, f: UserId, a: UserId)
    : (Books, Answer)
  {
    var kf, ka := Index(b.table, f), Index(b.table, a);
    if score.None? || kf == |b.table| || ka == |b.table| then (b, FailedPrecondition)
    else
      var call := EloSettlement(pow, debate, f, a, score.value, b.table[kf].elo, b.table[ka].elo);
      var (table, ok) := PayBoth(b.table, call.forLeg, call.againstLeg);
      if !ok then (Books(table, b.rows), InvalidArgument)
      else
        var rows := SetElo(SetElo(b.rows, f, debate, call.forLeg.elo), a, debate, call.againstLeg.elo);
        (Books(table, rows),
         if RowIndex(b.rows, f, debate) == |b.rows| || RowIndex(b.rows, a, debate) == |b.rows|
         then FailedPrecondition else Settled)
  }

  // ----- repeating a settlement

  /** One undisturbed payment, seen from any player. */
  lemma ApplyDeltaPays(table: seq<Stats>, user: UserId, xp: int, elo: int, r: Result, u: UserId)
    requires TableOk(table) && ApplyDelta(table, user, xp, elo, r).1
    ensures var table' := ApplyDelta(table, user, xp, elo, r).0;
            && TableOk(table')
            && XpHeld(table', u) == XpHeld(table, u) + (if user == u then xp else 0)
            && GamesHeld(table', u) == GamesHeld(table, u) + (if user == u then 1 else 0)
            && CurrentElo(table', u) == CurrentElo(table, u) + (if user == u then elo else 0)
  {
    var present := InsertMissing(table, user);
    ApplyDeltaSucceeds(table, user, xp, elo, r);
    InsertMissingOk(table, user);
    IncrementOk(present, user, xp, elo, r);
    InsertTotals(table, user, u);
    IncrementTotals(present, user, xp, elo, r, u);
    HeldIsTotal(table, u);
    HeldIsTotal(ApplyDelta(table, user, xp, elo, r).0, u);
  }

  lemma EloNotNegative(table: seq<Stats>, u: UserId)
    requires TableOk(table)
    ensures CurrentElo(table, u) >= 0
  {
  }

  /**
   An XP settlement always pays both players. If both already have a history row for the
   debate it still answers ALREADY_EXISTS: they are paid again and the history stays as it was.
   */
  lemma RepeatedXpPaysAgain(b: Books, id: nat, row: FinalRow, debate: string, f: UserId, a: UserId, u: UserId)
    requires TableOk(b.table) && RowOk(row) && f != a
    ensures var (b', answer) := SerialXp(b, id, Some(row), debate, f, a);
            && XpHeld(b'.table, u) == XpHeld(b.table, u)
                 + (if u == f then XpLeg(f, FOR, row).xp else if u == a then XpLeg(a, AGAINST, row).xp else 0)
            && GamesHeld(b'.table, u) == GamesHeld(b.table, u) + (if u == f || u == a then 1 else 0)
            && CurrentElo(b'.table, u) == CurrentElo(b.table, u)
            && (RowIndex(b.rows, f, debate) < |b.rows| && RowIndex(b.rows, a, debate) < |b.rows|
                ==> answer == AlreadyExists && b'.rows == b.rows)
  {
    var fLeg, aLeg := XpLeg(f, FOR, row), XpLeg(a, AGAINST, row);
    XpDeltaRange(fLeg.result, fLeg.finalScore);
    XpDeltaRange(aLeg.result, aLeg.finalScore);
    EloNotNegative(b.table, f);
    ApplyDeltaSucceeds(b.table, f, fLeg.xp, 0, fLeg.result);
    ApplyDeltaPays(b.table, f, fLeg.xp, 0, fLeg.result, u);
    var t1 := ApplyDelta(b.table, f, fLeg.xp, 0, fLeg.result).0;
    EloNotNegative(t1, a);
    ApplyDeltaSucceeds(t1, a, aLeg.xp, 0, aLeg.result);
    ApplyDeltaPays(t1, a, aLeg.xp, 0, aLeg.result, u);
  }

  /** An XP settlement goes through exactly when neither player has a history row for the debate yet. */
  lemma XpSettlesWhen(b: Books, id: nat, row: FinalRow, debate: string, f: UserId, a: UserId)
    requires TableOk(b.table) && RowOk(row) && f != a
    ensures var answer := SerialXp(b, id, Some(row), debate, f, a).1;
            && (answer == Settled
                <==> RowIndex(b.rows, f, debate) == |b.rows| && RowIndex(b.rows, a, debate) == |b.rows|)
            && (answer == Settled || answer == AlreadyExists)
  {
    var fLeg, aLeg := XpLeg(f, FOR, row), XpLeg(a, AGAINST, row);
    XpDeltaRange(fLeg.result, fLeg.finalScore);
    XpDeltaRange(aLeg.result, aLeg.finalScore);
    EloNotNegative(b.table, f);
    ApplyDeltaSucceeds(b.table, f, fLeg.xp, 0, fLeg.result);
    var t1 := ApplyDelta(b.table, f, fLeg.xp, 0, fLeg.result).0;
    EloNotNegative(t1, a);
    ApplyDeltaSucceeds(t1, a, aLeg.xp, 0, aLeg.result);
  }

  /** What paying one side adds to the Elo of all players, 1000 for a new player set aside. */
  lemma GainOfPayment(table: seq<Stats>, user: UserId, xp: int, elo: int, r: Result)
    ensures var (table', ok) := ApplyDelta(table, user, xp, elo, r);
            Sum(table', Gain()) == Sum(table, Gain()) + if ok then elo else 0
  {
    if xp >= 0 && CurrentElo(table, user) + elo >= 0 {
      InsertTotals(table, user, user);
      if Increment(InsertMissing(table, user), user, xp, elo, r).Some? {
        IncrementTotals(InsertMissing(table, user), user, xp, elo, r, user);
      }
    }
  }

  /** Applying a delta to one player leaves the other's Elo alone. */
  lemma OtherPlayersElo(table: seq<Stats>, user: UserId, xp: int, elo: int, r: Result, u: UserId)
    requires TableOk(table) && user != u
    ensures CurrentElo(ApplyDelta(table, user, xp, elo, r).0, u) == CurrentElo(table, u)
  {
    ApplyDeltaSucceeds(table, user, xp, elo, r);
    if ApplyDelta(table, user, xp, elo, r).1 {
      ApplyDeltaPays(table, user, xp, elo, r, u);
    }
  }

  /**
   Even when no statement fails, an Elo settlement is refused exactly when the player who
   should lose Elo has less than that. The other player has then been paid all the same, so
   the Elo of all players together has grown by the loss that was refused.
   */
  lemma RefusedEloPaysOneSide(pow: Power, b: Books, row: FinalRow, debate: string, f: UserId, a: UserId)
    requires TableOk(b.table) && RowOk(row) && f != a
    requires Index(b.table, f) < |b.table| && Index(b.table, a) < |b.table|
    ensures var (b', answer) := SerialElo(pow, b, Some(row), debate, f, a);
            var d := EloDelta(pow, CurrentElo(b.table, f), CurrentElo(b.table, a), ResultForSide(row.winner, FOR));
            && (answer == InvalidArgument <==> CurrentElo(b.table, f) + d < 0 || CurrentElo(b.table, a) - d < 0)
            && (answer == Settled
                <==> answer != InvalidArgument
                     && RowIndex(b.rows, f, debate) < |b.rows| && RowIndex(b.rows, a, debate) < |b.rows|)
            && Sum(b'.table, Gain()) == Sum(b.table, Gain())
                 + (if answer == InvalidArgument then (if d < 0 then -d else d) else 0)
  {
    var kf, ka := Index(b.table, f), Index(b.table, a);
    var call := EloSettlement(pow, debate, f, a, row, b.table[kf].elo, b.table[ka].elo);
    var fLeg, aLeg := call.forLeg, call.againstLeg;
    var (t1, _) := ApplyDelta(b.table, f, 0, fLeg.elo, fLeg.result);
    ApplyDeltaSucceeds(b.table, f, 0, fLeg.elo, fLeg.result);
    ApplyDeltaSucceeds(t1, a, 0, aLeg.elo, aLeg.result);
    OtherPlayersElo(b.table, f, 0, fLeg.elo, fLeg.result, a);
    GainOfPayment(b.table, f, 0, fLeg.elo, fLeg.result);
    GainOfPayment(t1, a, 0, aLeg.elo, aLeg.result);
    EloNotNegative(b.table, f);
    EloNotNegative(b.table, a);
    hide ApplyDelta, EloDelta, Sum, SetElo;
  }

  lemma SetEloTotals(rows: seq<Performance>, u: UserId, debate: string, elo: int, v: UserId)
    requires RowIndex(rows, u, debate) < |rows|
    ensures var k := RowIndex(rows, u, debate);
            Sum(SetElo(rows, u, debate, elo), RowElo(v))
            == Sum(rows, RowElo(v)) + (if u == v then elo - rows[k].eloDelta else 0)
  {
    var k := RowIndex(rows, u, debate);
    SumUpdate(rows, k, rows[k].(eloDelta := elo), RowElo(v));
  }

  lemma RowIndexStays(rows: seq<Performance>, k: nat, elo: int, u: UserId, debate: string)
    requires k < |rows|
    ensures RowIndex(rows[k := rows[k].(eloDelta := elo)], u, debate) == RowIndex(rows, u, debate)
  {
    var rows' := rows[k := rows[k].(eloDelta := elo)];
    var i, j := RowIndex(rows, u, debate), RowIndex(rows', u, debate);
    assert i < |rows| ==> rows'[i].user == u && rows'[i].debate == debate;
    assert j < |rows| ==> rows[j].user == u && rows[j].debate == debate;
  }

  /**
   A completed Elo settlement moves a player's Elo and the sum of elo_delta apart by
   exactly the value it overwrites. So it keeps the two in step if and only if that
   player's row still had an elo_delta of zero.
   */
  lemma RepeatedEloForgetsTheFirst(pow: Power, b: Books, row: FinalRow, debate: string, f: UserId, a: UserId)
    requires TableOk(b.table) && RowOk(row) && f != a
    requires SerialElo(pow, b, Some(row), debate, f, a).1 == Settled
    ensures var b' := SerialElo(pow, b, Some(row), debate, f, a).0;
            && CurrentElo(b'.table, f) - Sum(b'.rows, RowElo(f))
               == CurrentElo(b.table, f) - Sum(b.rows, RowElo(f)) + b.rows[RowIndex(b.rows, f, debate)].eloDelta
            && CurrentElo(b'.table, a) - Sum(b'.rows, RowElo(a))
               == CurrentElo(b.table, a) - Sum(b.rows, RowElo(a)) + b.rows[RowIndex(b.rows, a, debate)].eloDelta
  {
    var kf, ka := Index(b.table, f), Index(b.table, a);
    var call := EloSettlement(pow, debate, f, a, row, b.table[kf].elo, b.table[ka].elo);
    var fLeg, aLeg := call.forLeg, call.againstLeg;
    ApplyDeltaSucceeds(b.table, f, 0, fLeg.elo, fLeg.result);
    var t1 := ApplyDelta(b.table, f, 0, fLeg.elo, fLeg.result).0;
    forall u | u == f || u == a
      ensures CurrentElo(PayBoth(b.table, fLeg, aLeg).0, u)
              == CurrentElo(b.table, u) + if u == f then fLeg.elo else aLeg.elo
    {
      ApplyDeltaPays(b.table, f, 0, fLeg.elo, fLeg.result, u);
      ApplyDeltaPays(t1, a, 0, aLeg.elo, aLeg.result, u);
    }
    var r1 := SetElo(b.rows, f, debate, fLeg.elo);
    RowIndexStays(b.rows, RowIndex(b.rows, f, debate), fLeg.elo, a, debate);
    SetEloTotals(b.rows, f, debate, fLeg.elo, f);
    SetEloTotals(b.rows, f, debate, fLeg.elo, a);
    SetEloTotals(r1, a, debate, aLeg.elo, f);
    SetEloTotals(r1, a, debate, aLeg.elo, a);
  }

  // ----- whole settlements as undisturbed runs

  /** The three statements of one side's request. */
  lemma LegIsARun(start: Machine, m: Machine, c: nat, side: Side) returns (m': Machine)
    requires Leads(Step, start, m) && c < |m.calls| && m.calls[c].Settling? && LegOf(m.calls[c], side).apply == Waiting
    requires LegOf(m.calls[c], side).xp >= 0
    ensures var leg := LegOf(m.calls[c], side);
            var (table, ok) := ApplyDelta(m.table, leg.user, leg.xp, leg.elo, leg.result);
            Leads(Step, start, m') && m' == SetApply(m.(table := table), c, side, if ok then Applied else Refused)
  {
    hide Leads, InsertMissing, Increment, CurrentElo;
    var leg := LegOf(m.calls[c], side);
    m' := Follows(Step, start, m, Apply(c, side));
    if CurrentElo(m.table, leg.user) + leg.elo >= 0 {
      m' := Follows(Step, start, m', Apply(c, side));
      assert m' == SetApply(m.(table := InsertMissing(m.table, leg.user)), c, side, Inserted);
      m' := Follows(Step, start, m', Apply(c, side));
    }
  }

  lemma PayIsARun(start: Machine, m: Machine, c: nat) returns (m': Machine)
    requires Leads(Step, start, m) && c < |m.calls| && m.calls[c].Settling?
    requires m.calls[c].forLeg.apply == Waiting && m.calls[c].againstLeg.apply == Waiting
    requires m.calls[c].forLeg.xp >= 0 && m.calls[c].againstLeg.xp >= 0
    ensures Leads(Step, start, m') && m'.rows == m.rows && m'.scores == m.scores && m'.pow == m.pow
    ensures |m'.calls| == |m.calls|
    ensures var (table, ok) := PayBoth(m.table, m.calls[c].forLeg, m.calls[c].againstLeg);
            && m'.table == table
            && (ok ==> m'.calls == m.calls[c := m.calls[c].(forLeg := m.calls[c].forLeg.(apply := Applied),
                                                            againstLeg := m.calls[c].againstLeg.(apply := Applied))])
  {
    hide Leads, ApplyDelta;
    m' := LegIsARun(start, m, c, FOR);
    m' := LegIsARun(start, m', c, AGAINST);
  }

  /** The call has got past its reads and written both of its history rows. */
  predicate Complete(call: Call, kind: Kind, debate: string, f: UserId, a: UserId) {
    && call.Settling? && call.kind == kind && call.debate == debate
    && call.forLeg.user == f && call.againstLeg.user == a
    && call.forLeg.record.Written? && call.againstLeg.record.Written?
  }

  /** An undisturbed XP settlement is a run of the interleaved model. */
  lemma XpIsARun(m: Machine, debate: string, f: UserId, a: UserId) returns (m': Machine)
    requires f != a && ScoresOk(m.scores)
    ensures var score := if debate in m.scores then Some(m.scores[debate]) else None;
            var (b, answer) := SerialXp(Books(m.table, m.rows), |m.calls|, score, debate, f, a);
            && Leads(Step, m, m') && m'.table == b.table && m'.rows == b.rows && |m'.calls| == |m.calls| + 1
            && m'.scores == m.scores && m'.pow == m.pow
            && (answer == Settled
                ==> m'.calls[..|m.calls|] == m.calls && Complete(m'.calls[|m.calls|], XpKind, debate, f, a))
  {
    hide Leads;
    var c := |m.calls|;
    Starts(Step, m);
    m' := Follows(Step, m, m, Begin(XpKind, debate, f, a));
    m' := Follows(Step, m, m', ReadScore(c));
    if debate in m.scores {
      var row := m.scores[debate];
      XpDeltaRange(ResultForSide(row.winner, FOR), row.finalFor);
      XpDeltaRange(ResultForSide(row.winner, AGAINST), row.finalAgainst);
      m' := PayXpIsARun(m, m', c);
    }
  }

  lemma PayXpIsARun(start: Machine, m: Machine, c: nat) returns (m': Machine)
    requires Leads(Step, start, m) && c < |m.calls| && m.calls[c].Settling? && m.calls[c].kind == XpKind
    requires m.calls[c].forLeg.apply == Waiting && m.calls[c].againstLeg.apply == Waiting
    requires m.calls[c].forLeg.record == Idle && m.calls[c].againstLeg.record == Idle
    requires m.calls[c].forLeg.xp >= 0 && m.calls[c].againstLeg.xp >= 0
    ensures var call := m.calls[c];
            var (table, ok) := PayBoth(m.table, call.forLeg, call.againstLeg);
            && Leads(Step, start, m') && m'.table == table && |m'.calls| == |m.calls|
            && m'.scores == m.scores && m'.pow == m.pow
            && (ok && RowIndex(m.rows, call.forLeg.user, call.debate) == |m.rows|
                && RowIndex(m.rows, call.againstLeg.user, call.debate) == |m.rows|
                && call.forLeg.user != call.againstLeg.user
                ==> m'.calls == m.calls[c := m'.calls[c]]
                    && Complete(m'.calls[c], XpKind, call.debate, call.forLeg.user, call.againstLeg.user))
            && m'.rows == (if ok then InsertRowFor(InsertRowFor(m.rows, c, call.debate, call.forLeg),
                                                   c, call.debate, call.againstLeg) else m.rows)
  {
    hide Leads, PayBoth;
    m' := PayIsARun(start, m, c);
    if PayBoth(m.table, m.calls[c].forLeg, m.calls[c].againstLeg).1 {
      m' := Follows(Step, start, m', Record(c, FOR));
      m' := Follows(Step, start, m', Record(c, AGAINST));
    }
  }

  /** An undisturbed Elo settlement is a run of the interleaved model. */
  lemma EloIsARun(m: Machine, debate: string, f: UserId, a: UserId) returns (m': Machine)
    requires f != a
    ensures var score := if debate in m.scores then Some(m.scores[debate]) else None;
            var (b, answer) := SerialElo(m.pow, Books(m.table, m.rows), score, debate, f, a);
            && Leads(Step, m, m') && m'.table == b.table && m'.rows == b.rows && |m'.calls| == |m.calls| + 1
            && m'.scores == m.scores && m'.pow == m.pow
            && (answer == Settled
                ==> m'.calls[..|m.calls|] == m.calls && Complete(m'.calls[|m.calls|], EloKind, debate, f, a))
  {
    hide Leads;
    var c := |m.calls|;
    Starts(Step, m);
    m' := Follows(Step, m, m, Begin(EloKind, debate, f, a));
    m' := Follows(Step, m, m', ReadScore(c));
    if debate in m.scores {
      m' := Follows(Step, m, m', ReadStats(c, FOR));
      if m'.calls[c].ReadingStats? {
        m' := Follows(Step, m, m', ReadStats(c, AGAINST));
        if m'.calls[c].Settling? {
          m' := PayEloIsARun(m, m', c);
        }
      }
    }
  }

  lemma PayEloIsARun(start: Machine, m: Machine, c: nat) returns (m': Machine)
    requires Leads(Step, start, m) && c < |m.calls| && m.calls[c].Settling? && m.calls[c].kind == EloKind
    requires m.calls[c].forLeg.apply == Waiting && m.calls[c].againstLeg.apply == Waiting
    requires m.calls[c].forLeg.record == Idle && m.calls[c].againstLeg.record == Idle
    requires m.calls[c].forLeg.xp == 0 && m.calls[c].againstLeg.xp == 0
    ensures var call := m.calls[c];
            var (table, ok) := PayBoth(m.table, call.forLeg, call.againstLeg);
            && Leads(Step, start, m') && m'.table == table && |m'.calls| == |m.calls|
            && m'.scores == m.scores && m'.pow == m.pow
            && (ok && RowIndex(m.rows, call.forLeg.user, call.debate) < |m.rows|
                && RowIndex(m.rows, call.againstLeg.user, call.debate) < |m.rows|
                ==> m'.calls == m.calls[c := m'.calls[c]]
                    && Complete(m'.calls[c], EloKind, call.debate, call.forLeg.user, call.againstLeg.user))
            && m'.rows == (if ok then SetElo(SetElo(m.rows, call.forLeg.user, call.debate, call.forLeg.elo),
                                             call.againstLeg.user, call.debate, call.againstLeg.elo) else m.rows)
  {
    hide Leads, PayBoth, SetElo, Complete;
    m' := PayIsARun(start, m, c);
    if PayBoth(m.table, m.calls[c].forLeg, m.calls[c].againstLeg).1 {
      m' := RecordEloIsARun(start, m', c);
    }
  }

  lemma RecordEloIsARun(start: Machine, m: Machine, c: nat) returns (m': Machine)
    requires Leads(Step, start, m) && c < |m.calls| && m.calls[c].Settling? && m.calls[c].kind == EloKind
    requires MayRecord(m.calls[c], FOR) && MayRecord(m.calls[c], AGAINST)
    ensures var call := m.calls[c];
            && Leads(Step, start, m') && m'.table == m.table && m'.scores == m.scores && m'.pow == m.pow
            && |m'.calls| == |m.calls| && m'.calls == m.calls[c := m'.calls[c]]
            && (RowIndex(m.rows, call.forLeg.user, call.debate) < |m.rows|
                && RowIndex(m.rows, call.againstLeg.user, call.debate) < |m.rows|
                ==> Complete(m'.calls[c], EloKind, call.debate, call.forLeg.user, call.againstLeg.user))
            && m'.rows == SetElo(SetElo(m.rows, call.forLeg.user, call.debate, call.forLeg.elo),
                                 call.againstLeg.user, call.debate, call.againstLeg.elo)
  {
    hide Leads, Step;
    var call := m.calls[c];
    var k := RowIndex(m.rows, call.forLeg.user, call.debate);
    if k < |m.rows| {
      RowIndexStays(m.rows, k, call.forLeg.elo, call.againstLeg.user, call.debate);
    }
    m' := RecordOneElo(start, m, c, FOR);
    m' := RecordOneElo(start, m', c, AGAINST);
  }

  lemma RecordOneElo(start: Machine, m: Machine, c: nat, side: Side) returns (m': Machine)
    requires Leads(Step, start, m) && c < |m.calls| && MayRecord(m.calls[c], side) && m.calls[c].kind == EloKind
    ensures var call, leg := m.calls[c], LegOf(m.calls[c], side);
            var k := RowIndex(m.rows, leg.user, call.debate);
            && Leads(Step, start, m')
            && m' == m.(rows := SetElo(m.rows, leg.user, call.debate, leg.elo),
                        calls := m.calls[c := WithLeg(call, side,
                                              leg.(record := if k < |m.rows| then Written(k) else Rejected))])
  {
    hide Leads, StepReadScore, StepReadStats, StepApply;
    m' := Follows(Step, start, m, Record(c, side));
  }
}
