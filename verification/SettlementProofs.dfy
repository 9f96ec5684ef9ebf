/** What holds in every interleaved run of settlements. */
module SettlementProofs {
  import opened Machines
  import opened Sums
  import opened FinalScores
  import opened Elo
  import opened PlayerStats
  import opened Settlement

  // ----- invariant

  /** The two halves of a settlement fit together. */
  ghost predicate CallOk(c: Call) {
    match c
    case ReadingScore(_, _, f, a) => f != a
    case ReadingStats(_, f, a, score, _, _) => f != a && RowOk(score)
    case PreconditionFailed => true
    case Settling(kind, _, f, a) =>
      && f.user != a.user && f.side == FOR && a.side == AGAINST
      && a.result == OppositeResult(f.result)
      && a.finalScore == f.opponentScore && a.opponentScore == f.finalScore
      && f.xp >= 0 && a.xp >= 0 && a.elo == -f.elo && -32 <= f.elo <= 32
      && (kind == XpKind ==> f.elo == 0)
      && (kind == EloKind ==> f.xp == 0 && a.xp == 0)
      && (f.record != Idle || a.record != Idle ==> f.apply == Applied && a.apply == Applied)
  }

  ghost predicate CallsOk(calls: seq<Call>) {
    forall c :: 0 <= c < |calls| ==> CallOk(calls[c])
  }

  ghost predicate UniqueRows(rows: seq<Performance>) {
    forall i, j :: 0 <= i < j < |rows| ==> rows[i].user != rows[j].user || rows[i].debate != rows[j].debate
  }

  ghost predicate ScoresOk(scores: map<string, FinalRow>) {
    forall d :: d in scores ==> RowOk(scores[d])
  }

  /** What the tables hold for `u` is what all calls together have paid and recorded. */
  ghost predicate Accounts(m: Machine, u: UserId) {
    && Sum(m.table, XpOf(u)) == Sum(m.calls, XpPaid(u))
    && Sum(m.table, GamesOf(u)) == Sum(m.calls, GamesPaid(u))
    && Sum(m.table, GainOf(u)) == Sum(m.calls, EloPaid(u))
    && Sum(m.table, Gain()) == Sum(m.calls, NetElo())
    && Sum(m.rows, RowXp(u)) == Sum(m.calls, XpRecorded(u))
    && Sum(m.rows, RowCount(u)) == Sum(m.calls, GamesRecorded(u))
  }

  ghost predicate TablesOk(m: Machine) {
    ScoresOk(m.scores) && TableOk(m.table) && UniqueRows(m.rows) && CallsOk(m.calls)
  }

  ghost predicate Inv(m: Machine, u: UserId) {
    TablesOk(m) && Accounts(m, u)
  }

  // ----- one step

  lemma NewCallsOk(m: Machine, d: string, f: UserId, a: UserId, score: FinalRow, fElo: int, aElo: int)
    requires f != a && RowOk(score)
    ensures CallOk(XpSettlement(d, f, a, score)) && CallOk(EloSettlement(m.pow, d, f, a, score, fElo, aElo))
  {
    SidesGetOppositeResults(score.winner);
    XpDeltaRange(ResultForSide(score.winner, FOR), score.finalFor);
    XpDeltaRange(ResultForSide(score.winner, AGAINST), score.finalAgainst);
    EloDeltaRange(m.pow, fElo, aElo, ResultForSide(score.winner, FOR));
  }

  /** Everything the totals count about a call. */
  ghost predicate SameAmounts(a: Call, b: Call, u: UserId) {
    && XpPaid(u)(a) == XpPaid(u)(b) && GamesPaid(u)(a) == GamesPaid(u)(b)
    && EloPaid(u)(a) == EloPaid(u)(b) && NetElo()(a) == NetElo()(b)
    && XpRecorded(u)(a) == XpRecorded(u)(b) && GamesRecorded(u)(a) == GamesRecorded(u)(b)
  }

  ghost predicate SameTotals(calls: seq<Call>, calls': seq<Call>, u: UserId) {
    SamePaid(calls, calls', u) && SameRecorded(calls, calls', u)
  }

  ghost predicate SamePaid(calls: seq<Call>, calls': seq<Call>, u: UserId) {
    && Sum(calls', XpPaid(u)) == Sum(calls, XpPaid(u)) && Sum(calls', GamesPaid(u)) == Sum(calls, GamesPaid(u))
    && Sum(calls', EloPaid(u)) == Sum(calls, EloPaid(u)) && Sum(calls', NetElo()) == Sum(calls, NetElo())
  }

  ghost predicate SameRecorded(calls: seq<Call>, calls': seq<Call>, u: UserId) {
    && Sum(calls', XpRecorded(u)) == Sum(calls, XpRecorded(u))
    && Sum(calls', GamesRecorded(u)) == Sum(calls, GamesRecorded(u))
  }

  lemma QuietTotals(calls: seq<Call>, c: nat, call: Call, u: UserId)
    requires c < |calls| && SameAmounts(calls[c], call, u)
    ensures SameTotals(calls, calls[c := call], u)
  {
    SumUpdate(calls, c, call, XpPaid(u));
    SumUpdate(calls, c, call, GamesPaid(u));
    SumUpdate(calls, c, call, EloPaid(u));
    SumUpdate(calls, c, call, NetElo());
    SumUpdate(calls, c, call, XpRecorded(u));
    SumUpdate(calls, c, call, GamesRecorded(u));
  }

  /** What the totals over the calls gain when one leg is applied. */
  lemma PaidTotals(calls: seq<Call>, c: nat, side: Side, u: UserId)
    requires c < |calls| && calls[c].Settling? && LegOf(calls[c], side).apply == Inserted
    ensures var leg := LegOf(calls[c], side);
            var calls' := calls[c := WithLeg(calls[c], side, leg.(apply := Applied))];
            var mine := leg.user == u;
            && Sum(calls', XpPaid(u)) == Sum(calls, XpPaid(u)) + (if mine then leg.xp else 0)
            && Sum(calls', GamesPaid(u)) == Sum(calls, GamesPaid(u)) + (if mine then 1 else 0)
            && Sum(calls', EloPaid(u)) == Sum(calls, EloPaid(u)) + (if mine then leg.elo else 0)
            && Sum(calls', NetElo()) == Sum(calls, NetElo()) + leg.elo
            && SameRecorded(calls, calls', u)
  {
    var call := WithLeg(calls[c], side, LegOf(calls[c], side).(apply := Applied));
    SumUpdate(calls, c, call, XpPaid(u));
    SumUpdate(calls, c, call, GamesPaid(u));
    SumUpdate(calls, c, call, EloPaid(u));
    SumUpdate(calls, c, call, NetElo());
    SumUpdate(calls, c, call, XpRecorded(u));
    SumUpdate(calls, c, call, GamesRecorded(u));
  }

  /** What they gain when one leg is written to the history. */
  lemma WrittenTotals(calls: seq<Call>, c: nat, side: Side, k: nat, u: UserId)
    requires c < |calls| && MayRecord(calls[c], side)
    ensures var leg := LegOf(calls[c], side);
            var calls' := calls[c := WithLeg(calls[c], side, leg.(record := Written(k)))];
            var mine := leg.user == u && calls[c].kind == XpKind;
            && Sum(calls', XpRecorded(u)) == Sum(calls, XpRecorded(u)) + (if mine then leg.xp else 0)
            && Sum(calls', GamesRecorded(u)) == Sum(calls, GamesRecorded(u)) + (if mine then 1 else 0)
            && SamePaid(calls, calls', u)
  {
    var call := WithLeg(calls[c], side, LegOf(calls[c], side).(record := Written(k)));
    SumUpdate(calls, c, call, XpPaid(u));
    SumUpdate(calls, c, call, GamesPaid(u));
    SumUpdate(calls, c, call, EloPaid(u));
    SumUpdate(calls, c, call, NetElo());
    SumUpdate(calls, c, call, XpRecorded(u));
    SumUpdate(calls, c, call, GamesRecorded(u));
  }

  /** The increment moves the totals of the table by the same amounts. */
  lemma IncrementTotals(table: seq<Stats>, user: UserId, xp: int, elo: int, r: Result, u: UserId)
    requires Increment(table, user, xp, elo, r).Some?
    ensures var table' := Increment(table, user, xp, elo, r).value;
            && Sum(table', XpOf(u)) == Sum(table, XpOf(u)) + (if user == u then xp else 0)
            && Sum(table', GamesOf(u)) == Sum(table, GamesOf(u)) + (if user == u then 1 else 0)
            && Sum(table', GainOf(u)) == Sum(table, GainOf(u)) + (if user == u then elo else 0)
            && Sum(table', Gain()) == Sum(table, Gain()) + elo
  {
    var k := Index(table, user);
    var row := Bumped(table[k], xp, elo, r);
    SumUpdate(table, k, row, XpOf(u));
    SumUpdate(table, k, row, GamesOf(u));
    SumUpdate(table, k, row, GainOf(u));
    SumUpdate(table, k, row, Gain());
  }

  /** A row that is only inserted counts for nothing. */
  lemma InsertTotals(table: seq<Stats>, user: UserId, u: UserId)
    ensures var table' := InsertMissing(table, user);
            && Sum(table', XpOf(u)) == Sum(table, XpOf(u)) && Sum(table', GamesOf(u)) == Sum(table, GamesOf(u))
            && Sum(table', GainOf(u)) == Sum(table, GainOf(u)) && Sum(table', Gain()) == Sum(table, Gain())
  {
  }

  /** A leg that changes its state without being paid, or only loses the reply, changes no total. */
  lemma SetApplyAccounts(m: Machine, c: nat, side: Side, s: ApplyState, u: UserId)
    requires Accounts(m, u) && c < |m.calls| && m.calls[c].Settling?
    requires Paid(LegOf(m.calls[c], side)) <==> s == Applied || s == ReplyLost
    ensures Accounts(SetApply(m, c, side, s), u)
  {
    QuietTotals(m.calls, c, SetApply(m, c, side, s).calls[c], u);
  }

  lemma PayAccounts(m: Machine, c: nat, side: Side, u: UserId)
    requires Accounts(m, u) && c < |m.calls| && m.calls[c].Settling? && LegOf(m.calls[c], side).apply == Inserted
    requires var leg := LegOf(m.calls[c], side); Increment(m.table, leg.user, leg.xp, leg.elo, leg.result).Some?
    ensures Accounts(StepApply(m, c, side), u)
  {
    var leg := LegOf(m.calls[c], side);
    IncrementTotals(m.table, leg.user, leg.xp, leg.elo, leg.result, u);
    PaidTotals(m.calls, c, side, u);
    hide Sum, XpOf, GamesOf, GainOf, Gain, XpPaid, GamesPaid, EloPaid, NetElo, XpRecorded, GamesRecorded;
  }

  lemma ApplyAccounts(m: Machine, c: nat, side: Side, u: UserId)
    requires Accounts(m, u) && c < |m.calls| && m.calls[c].Settling?
    ensures Accounts(StepApply(m, c, side), u)
  {
    hide Accounts;
    var leg := LegOf(m.calls[c], side);
    match leg.apply
    case Waiting =>
      SetApplyAccounts(m, c, side, Refused, u);
      SetApplyAccounts(m, c, side, Guarded, u);
    case Guarded =>
      var m1 := m.(table := InsertMissing(m.table, leg.user));
      InsertAccounts(m, leg.user, u);
      SetApplyAccounts(m1, c, side, Inserted, u);
    case Inserted =>
      if Increment(m.table, leg.user, leg.xp, leg.elo, leg.result).Some? {
        PayAccounts(m, c, side, u);
      } else {
        SetApplyAccounts(m, c, side, Refused, u);
      }
    case _ =>
  }

  lemma InsertAccounts(m: Machine, user: UserId, u: UserId)
    requires Accounts(m, u)
    ensures Accounts(m.(table := InsertMissing(m.table, user)), u)
  {
    InsertTotals(m.table, user, u);
  }

  lemma RowTotals(rows: seq<Performance>, row: Performance, u: UserId)
    ensures Sum(rows + [row], RowXp(u)) == Sum(rows, RowXp(u)) + (if row.user == u then row.xpDelta else 0)
    ensures Sum(rows + [row], RowCount(u)) == Sum(rows, RowCount(u)) + (if row.user == u then 1 else 0)
  {
    SumSnoc(rows, row, RowXp(u));
    SumSnoc(rows, row, RowCount(u));
  }

  lemma EloRowTotals(rows: seq<Performance>, k: nat, elo: int, u: UserId)
    requires k < |rows|
    ensures var rows' := rows[k := rows[k].(eloDelta := elo)];
            Sum(rows', RowXp(u)) == Sum(rows, RowXp(u)) && Sum(rows', RowCount(u)) == Sum(rows, RowCount(u))
  {
    SumUpdate(rows, k, rows[k].(eloDelta := elo), RowXp(u));
    SumUpdate(rows, k, rows[k].(eloDelta := elo), RowCount(u));
  }

  lemma RecordAccounts(m: Machine, c: nat, side: Side, u: UserId)
    requires Accounts(m, u) && c < |m.calls| && MayRecord(m.calls[c], side)
    ensures Accounts(StepRecord(m, c, side), u)
  {
    var m' := StepRecord(m, c, side);
    var leg := LegOf(m.calls[c], side);
    var k := RowIndex(m.rows, leg.user, m.calls[c].debate);
    if m.calls[c].kind == XpKind && k == |m.rows| {
      RowTotals(m.rows, RowFor(c, m.calls[c].debate, leg), u);
      WrittenTotals(m.calls, c, side, k, u);
      hide Sum, RowXp, RowCount, XpPaid, GamesPaid, EloPaid, NetElo, XpRecorded, GamesRecorded;
    } else if m.calls[c].kind == EloKind && k < |m.rows| {
      EloRowTotals(m.rows, k, leg.elo, u);
      WrittenTotals(m.calls, c, side, k, u);
      hide Sum, RowXp, RowCount, XpPaid, GamesPaid, EloPaid, NetElo, XpRecorded, GamesRecorded;
    } else {
      RejectedAccounts(m, c, side, u);
    }
  }

  lemma RejectedAccounts(m: Machine, c: nat, side: Side, u: UserId)
    requires Accounts(m, u) && c < |m.calls| && MayRecord(m.calls[c], side)
    ensures Accounts(SetRecord(m, c, side, Rejected), u)
  {
    QuietTotals(m.calls, c, SetRecord(m, c, side, Rejected).calls[c], u);
  }

  /** A call that has not started to settle counts for nothing, nor does one that has just started. */
  predicate NothingYet(c: Call) {
    c.Settling? ==> c.forLeg.apply == Waiting && c.againstLeg.apply == Waiting
                    && c.forLeg.record == Idle && c.againstLeg.record == Idle
  }

  lemma PutAccounts(m: Machine, c: nat, call: Call, u: UserId)
    requires Accounts(m, u) && c < |m.calls| && NothingYet(m.calls[c]) && NothingYet(call)
    ensures Accounts(Put(m, c, call), u)
  {
    QuietTotals(m.calls, c, call, u);
  }

  lemma OtherAccounts(m: Machine, e: Event, u: UserId)
    requires Accounts(m, u) && (e.ReadScore? || e.ReadStats? || e.FailApply? || e.LoseReply?)
    ensures Accounts(Step(m, e), u)
  {
    hide Accounts;
    if Step(m, e) != m {
      match e
      case FailApply(c, side) => SetApplyAccounts(m, c, side, Refused, u);
      case LoseReply(c, side) => SetApplyAccounts(m, c, side, ReplyLost, u);
      case ReadScore(c) => PutAccounts(m, c, Step(m, e).calls[c], u);
      case ReadStats(c, _) => PutAccounts(m, c, Step(m, e).calls[c], u);
    }
  }

  lemma BeginAccounts(m: Machine, call: Call, u: UserId)
    requires Accounts(m, u) && call.ReadingScore?
    ensures Accounts(m.(calls := m.calls + [call]), u)
  {
  }

  lemma ScoresAccounts(m: Machine, scores: map<string, FinalRow>, u: UserId)
    requires Accounts(m, u)
    ensures Accounts(m.(scores := scores), u)
  {
  }

  lemma StepAccounts(m: Machine, e: Event, u: UserId)
    requires Accounts(m, u)
    ensures Accounts(Step(m, e), u)
  {
    hide Accounts, StepReadScore, StepReadStats, StepApply, StepRecord;
    match e
    case PutScore(_, _) => ScoresAccounts(m, Step(m, e).scores, u);
    case Begin(kind, d, f, a) => BeginAccounts(m, ReadingScore(kind, d, f, a), u);
    case Apply(c, side) => if c < |m.calls| && m.calls[c].Settling? { ApplyAccounts(m, c, side, u); }
    case Record(c, side) => if c < |m.calls| && MayRecord(m.calls[c], side) { RecordAccounts(m, c, side, u); }
    case FailRecord(c, side) => if c < |m.calls| && MayRecord(m.calls[c], side) { RejectedAccounts(m, c, side, u); }
    case _ => OtherAccounts(m, e, u);
  }

  lemma ReadTables(m: Machine, e: Event)
    requires TablesOk(m) && (e.ReadScore? || e.ReadStats?)
    ensures TablesOk(Step(m, e))
  {
    var c, m' := e.call, Step(m, e);
    if m' != m {
      assert CallOk(m.calls[c]);
      if m'.calls[c].Settling? {
        var before, d := m.calls[c], m'.calls[c].debate;
        if e.ReadScore? {
          NewCallsOk(m, d, before.forUser, before.againstUser, m.scores[d], 0, 0);
        } else {
          var elo := m.table[Index(m.table, if e.side == FOR then before.forUser else before.againstUser)].elo;
          NewCallsOk(m, d, before.forUser, before.againstUser, before.score,
                     if e.side == FOR then elo else before.forElo.value,
                     if e.side == FOR then before.againstElo.value else elo);
        }
      }
    }
  }

  lemma StepTables(m: Machine, e: Event)
    requires TablesOk(m)
    ensures TablesOk(Step(m, e))
  {
    match e
    case ReadScore(_) => ReadTables(m, e);
    case ReadStats(_, _) => ReadTables(m, e);
    case Apply(c, side) => if c < |m.calls| && m.calls[c].Settling? { ApplyTables(m, c, side); }
    case Record(c, side) => if c < |m.calls| && MayRecord(m.calls[c], side) { RecordTables(m, c, side); }
    case Begin(_, _, _, _) =>
    case PutScore(_, _) =>
    case FailApply(c, _) => assert c < |m.calls| ==> CallOk(m.calls[c]);
    case LoseReply(c, _) => assert c < |m.calls| ==> CallOk(m.calls[c]);
    case FailRecord(c, _) => assert c < |m.calls| ==> CallOk(m.calls[c]);
  }

  lemma ApplyTables(m: Machine, c: nat, side: Side)
    requires TablesOk(m) && c < |m.calls| && m.calls[c].Settling?
    ensures TablesOk(StepApply(m, c, side))
  {
    var leg := LegOf(m.calls[c], side);
    assert CallOk(m.calls[c]);
    if leg.apply == Guarded {
      InsertMissingOk(m.table, leg.user);
    } else if leg.apply == Inserted && Increment(m.table, leg.user, leg.xp, leg.elo, leg.result).Some? {
      IncrementOk(m.table, leg.user, leg.xp, leg.elo, leg.result);
    }
  }

  lemma RecordTables(m: Machine, c: nat, side: Side)
    requires TablesOk(m) && c < |m.calls| && MayRecord(m.calls[c], side)
    ensures TablesOk(StepRecord(m, c, side))
  {
  }

  // ----- whole runs

  ghost function After(pow: Power, es: seq<Event>): Machine {
    Run(Step, Init(pow), es)
  }

  lemma {:induction false} AlwaysInv(pow: Power, es: seq<Event>, u: UserId)
    ensures Inv(After(pow, es), u)
  {
    if es != [] {
      AlwaysInv(pow, es[..|es| - 1], u);
      StepTables(After(pow, es[..|es| - 1]), es[|es| - 1]);
      StepAccounts(After(pow, es[..|es| - 1]), es[|es| - 1], u);
    }
  }

  /**
   In every run, with any failures and any interleaving: the Elo of all players together
   is 1000 per player, up to at most 32 for every Elo settlement that has reached
   exactly one of its players, and exactly 1000 per player when there is none.
   */
  lemma EloIsConserved(pow: Power, es: seq<Event>)
    ensures var m := After(pow, es);
            var drift := Sum(m.table, EloIn()) - 1000 * |m.table|;
            && -32 * Sum(m.calls, HalfPaid()) <= drift <= 32 * Sum(m.calls, HalfPaid())
            && (Sum(m.calls, HalfPaid()) == 0 ==> drift == 0)
  {
    var m := After(pow, es);
    AlwaysInv(pow, es, 0);
    TotalElo(m.table);
    NetWithinHalfPaid(m.calls);
  }

  lemma {:induction false} NetWithinHalfPaid(calls: seq<Call>)
    requires CallsOk(calls)
    ensures -32 * Sum(calls, HalfPaid()) <= Sum(calls, NetElo()) <= 32 * Sum(calls, HalfPaid())
  {
    if calls != [] {
      var n := |calls| - 1;
      assert CallOk(calls[n]);
      NetWithinHalfPaid(calls[..n]);
    }
  }

  /** The XP a user holds, 0 without a row. */
  function XpHeld(table: seq<Stats>, u: UserId): int {
    var k := Index(table, u);
    if k < |table| then table[k].xp else 0
  }

  function GamesHeld(table: seq<Stats>, u: UserId): int {
    var k := Index(table, u);
    if k < |table| then table[k].debates else 0
  }

  lemma HeldIsTotal(table: seq<Stats>, u: UserId)
    requires UniqueUsers(table)
    ensures XpHeld(table, u) == Sum(table, XpOf(u)) && GamesHeld(table, u) == Sum(table, GamesOf(u))
    ensures CurrentElo(table, u) == 1000 + Sum(table, GainOf(u))
  {
    if Index(table, u) < |table| {
      TotalIsRow(table, Index(table, u));
    } else {
      NoRowNoTotal(table, u);
    }
  }

  /**
   In every reachable state a player's XP is at least what the history accounts for, the
   debates counter is at least the number of history rows, and no (user, debate) has
   two rows.
   */
  lemma HistoryNeverExceedsBalance(pow: Power, es: seq<Event>, u: UserId)
    ensures var m := After(pow, es);
            && XpHeld(m.table, u) >= Sum(m.rows, RowXp(u))
            && GamesHeld(m.table, u) >= Sum(m.rows, RowCount(u))
            && UniqueRows(m.rows)
  {
    var m := After(pow, es);
    AlwaysInv(pow, es, u);
    HeldIsTotal(m.table, u);
    forall c | 0 <= c < |m.calls|
      ensures XpRecorded(u)(m.calls[c]) <= XpPaid(u)(m.calls[c])
              && GamesRecorded(u)(m.calls[c]) <= GamesPaid(u)(m.calls[c])
    {
      assert CallOk(m.calls[c]);
    }
    SumLe(m.calls, XpRecorded(u), XpPaid(u));
    SumLe(m.calls, GamesRecorded(u), GamesPaid(u));
  }
}
