/** Wins, losses and draws: in every run what the players were paid for, in settled books what the history says. */
module SettledResults {
  import opened Sums
  import opened FinalScores
  import opened Elo
  import opened PlayerStats
  import opened Settlement
  import opened SettlementProofs
  import opened SettledBooks

  /** The counter that stands for a result. */
  function Counter(s: Stats, r: Result): int {
    match r case WIN => s.wins case LOSS => s.losses case DRAW => s.draws
  }

  function CounterOf(u: UserId, r: Result): Stats -> int {
    (s: Stats) => if s.user == u then Counter(s, r) else 0
  }

  function LegPaidFor(leg: Leg, u: UserId, r: Result): int {
    if leg.user == u && leg.result == r && Paid(leg) then 1 else 0
  }

  /** How often a call has paid `u` for the result `r`. */
  function PaidFor(u: UserId, r: Result): Call -> int {
    (c: Call) => if c.Settling? then LegPaidFor(c.forLeg, u, r) + LegPaidFor(c.againstLeg, u, r) else 0
  }

  function LegRecordedAs(leg: Leg, u: UserId, r: Result): int {
    if leg.user == u && leg.result == r && leg.record.Written? then 1 else 0
  }

  /** How many history rows with this result an XP settlement has written for `u`. */
  function RecordedAs(u: UserId, r: Result): Call -> int {
    (c: Call) => if c.Settling? && c.kind == XpKind
                 then LegRecordedAs(c.forLeg, u, r) + LegRecordedAs(c.againstLeg, u, r) else 0
  }

  /** How many Elo columns an Elo settlement with this result has written for `u`. */
  function EloSettledAs(u: UserId, r: Result): Call -> int {
    (c: Call) => if c.Settling? && c.kind == EloKind
                 then LegRecordedAs(c.forLeg, u, r) + LegRecordedAs(c.againstLeg, u, r) else 0
  }

  function RowsAs(u: UserId, r: Result): Performance -> int {
    (p: Performance) => if p.user == u && p.result == r then 1 else 0
  }

  ghost predicate ResultsOk(m: Machine, u: UserId, r: Result) {
    && Sum(m.table, CounterOf(u, r)) == Sum(m.calls, PaidFor(u, r))
    && Sum(m.rows, RowsAs(u, r)) == Sum(m.calls, RecordedAs(u, r))
  }

  // ----- one event

  ghost predicate SameResults(a: Call, b: Call, u: UserId, r: Result) {
    PaidFor(u, r)(a) == PaidFor(u, r)(b) && RecordedAs(u, r)(a) == RecordedAs(u, r)(b)
  }

  /** A call that moves without being paid or recorded. */
  lemma QuietResults(m: Machine, m': Machine, c: nat, u: UserId, r: Result)
    requires ResultsOk(m, u, r) && c < |m.calls| && |m'.calls| == |m.calls| && m'.calls == m.calls[c := m'.calls[c]]
    requires m'.rows == m.rows && Sum(m'.table, CounterOf(u, r)) == Sum(m.table, CounterOf(u, r))
    requires SameResults(m.calls[c], m'.calls[c], u, r)
    ensures ResultsOk(m', u, r)
  {
    SumUpdate(m.calls, c, m'.calls[c], PaidFor(u, r));
    SumUpdate(m.calls, c, m'.calls[c], RecordedAs(u, r));
  }

  lemma SetApplyResults(m: Machine, c: nat, side: Side, s: ApplyState, u: UserId, r: Result)
    requires ResultsOk(m, u, r) && c < |m.calls| && m.calls[c].Settling?
    requires Paid(LegOf(m.calls[c], side)) <==> s == Applied || s == ReplyLost
    ensures ResultsOk(SetApply(m, c, side, s), u, r)
  {
    var m' := SetApply(m, c, side, s);
    assert SameResults(m.calls[c], m'.calls[c], u, r);
    hide SameResults, ResultsOk, Sum;
    QuietResults(m, m', c, u, r);
  }

  lemma RejectedResults(m: Machine, c: nat, side: Side, u: UserId, r: Result)
    requires ResultsOk(m, u, r) && c < |m.calls| && MayRecord(m.calls[c], side)
    ensures ResultsOk(SetRecord(m, c, side, Rejected), u, r)
  {
    var m' := SetRecord(m, c, side, Rejected);
    assert SameResults(m.calls[c], m'.calls[c], u, r);
    hide SameResults, ResultsOk, Sum;
    QuietResults(m, m', c, u, r);
  }

  lemma InsertCounters(table: seq<Stats>, user: UserId, u: UserId, r: Result)
    ensures Sum(InsertMissing(table, user), CounterOf(u, r)) == Sum(table, CounterOf(u, r))
  {
  }

  lemma IncrementCounters(table: seq<Stats>, user: UserId, xp: int, elo: int, result: Result, u: UserId, r: Result)
    requires Increment(table, user, xp, elo, result).Some?
    ensures Sum(Increment(table, user, xp, elo, result).value, CounterOf(u, r))
            == Sum(table, CounterOf(u, r)) + (if user == u && result == r then 1 else 0)
  {
    var k := Index(table, user);
    SumUpdate(table, k, Bumped(table[k], xp, elo, result), CounterOf(u, r));
  }

  lemma ApplyResults(m: Machine, c: nat, side: Side, u: UserId, r: Result)
    requires ResultsOk(m, u, r) && c < |m.calls| && m.calls[c].Settling?
    ensures ResultsOk(StepApply(m, c, side), u, r)
  {
    hide ResultsOk;
    var leg := LegOf(m.calls[c], side);
    match leg.apply
    case Waiting =>
      SetApplyResults(m, c, side, Refused, u, r);
      SetApplyResults(m, c, side, Guarded, u, r);
    case Guarded =>
      InsertResults(m, leg.user, u, r);
      SetApplyResults(m.(table := InsertMissing(m.table, leg.user)), c, side, Inserted, u, r);
    case Inserted =>
      if Increment(m.table, leg.user, leg.xp, leg.elo, leg.result).Some? {
        PaidResults(m, c, side, u, r);
      } else {
        SetApplyResults(m, c, side, Refused, u, r);
      }
    case _ =>
  }

  lemma InsertResults(m: Machine, user: UserId, u: UserId, r: Result)
    requires ResultsOk(m, u, r)
    ensures ResultsOk(m.(table := InsertMissing(m.table, user)), u, r)
  {
    InsertCounters(m.table, user, u, r);
  }

  lemma PaidResults(m: Machine, c: nat, side: Side, u: UserId, r: Result)
    requires ResultsOk(m, u, r) && c < |m.calls| && m.calls[c].Settling? && LegOf(m.calls[c], side).apply == Inserted
    requires var leg := LegOf(m.calls[c], side); Increment(m.table, leg.user, leg.xp, leg.elo, leg.result).Some?
    ensures ResultsOk(StepApply(m, c, side), u, r)
  {
    var m', leg := StepApply(m, c, side), LegOf(m.calls[c], side);
    IncrementCounters(m.table, leg.user, leg.xp, leg.elo, leg.result, u, r);
    SumUpdate(m.calls, c, m'.calls[c], PaidFor(u, r));
    SumUpdate(m.calls, c, m'.calls[c], RecordedAs(u, r));
  }

  /** What the records of the calls and the rows of the history gain together. */
  lemma WrittenResults(calls: seq<Call>, c: nat, side: Side, k: nat, u: UserId, r: Result)
    requires c < |calls| && MayRecord(calls[c], side)
    ensures var leg := LegOf(calls[c], side);
            var calls' := calls[c := WithLeg(calls[c], side, leg.(record := Written(k)))];
            && Sum(calls', PaidFor(u, r)) == Sum(calls, PaidFor(u, r))
            && Sum(calls', RecordedAs(u, r)) == Sum(calls, RecordedAs(u, r))
               + (if leg.user == u && leg.result == r && calls[c].kind == XpKind then 1 else 0)
  {
    var call := WithLeg(calls[c], side, LegOf(calls[c], side).(record := Written(k)));
    SumUpdate(calls, c, call, PaidFor(u, r));
    SumUpdate(calls, c, call, RecordedAs(u, r));
    hide Sum;
  }

  lemma RecordResults(m: Machine, c: nat, side: Side, u: UserId, r: Result)
    requires ResultsOk(m, u, r) && c < |m.calls| && MayRecord(m.calls[c], side)
    ensures ResultsOk(StepRecord(m, c, side), u, r)
  {
    var m', leg := StepRecord(m, c, side), LegOf(m.calls[c], side);
    var k := RowIndex(m.rows, leg.user, m.calls[c].debate);
    if m.calls[c].kind == XpKind && k == |m.rows| {
      WrittenResults(m.calls, c, side, k, u, r);
      SumSnoc(m.rows, RowFor(c, m.calls[c].debate, leg), RowsAs(u, r));
      hide Sum, PaidFor, RecordedAs;
    } else if m.calls[c].kind == EloKind && k < |m.rows| {
      WrittenResults(m.calls, c, side, k, u, r);
      SumUpdate(m.rows, k, m.rows[k].(eloDelta := leg.elo), RowsAs(u, r));
      hide Sum, PaidFor, RecordedAs;
    } else {
      RejectedResults(m, c, side, u, r);
    }
  }

  lemma StepResults(m: Machine, e: Event, u: UserId, r: Result)
    requires ResultsOk(m, u, r)
    ensures ResultsOk(Step(m, e), u, r)
  {
    hide StepApply, StepRecord, StepReadScore, StepReadStats, ResultsOk;
    match e
    case Apply(c, side) => if c < |m.calls| && m.calls[c].Settling? { ApplyResults(m, c, side, u, r); }
    case Record(c, side) => if c < |m.calls| && MayRecord(m.calls[c], side) { RecordResults(m, c, side, u, r); }
    case _ => OtherResults(m, e, u, r);
  }

  lemma PutResults(m: Machine, c: nat, call: Call, u: UserId, r: Result)
    requires ResultsOk(m, u, r) && c < |m.calls| && NothingYet(m.calls[c]) && NothingYet(call)
    ensures ResultsOk(Put(m, c, call), u, r)
  {
    QuietResults(m, Put(m, c, call), c, u, r);
  }

  lemma BeginResults(m: Machine, call: Call, u: UserId, r: Result)
    requires ResultsOk(m, u, r) && call.ReadingScore?
    ensures ResultsOk(m.(calls := m.calls + [call]), u, r)
  {
    SumSnoc(m.calls, call, PaidFor(u, r));
    SumSnoc(m.calls, call, RecordedAs(u, r));
  }

  lemma ScoresResults(m: Machine, scores: map<string, FinalRow>, u: UserId, r: Result)
    requires ResultsOk(m, u, r)
    ensures ResultsOk(m.(scores := scores), u, r)
  {
  }

  lemma OtherResults(m: Machine, e: Event, u: UserId, r: Result)
    requires ResultsOk(m, u, r) && !e.Apply? && !e.Record?
    ensures ResultsOk(Step(m, e), u, r)
  {
    hide ResultsOk;
    if Step(m, e) != m {
      match e
      case PutScore(_, _) => ScoresResults(m, Step(m, e).scores, u, r);
      case Begin(kind, d, f, a) => BeginResults(m, ReadingScore(kind, d, f, a), u, r);
      case FailApply(c, side) => SetApplyResults(m, c, side, Refused, u, r);
      case LoseReply(c, side) => SetApplyResults(m, c, side, ReplyLost, u, r);
      case FailRecord(c, side) => RejectedResults(m, c, side, u, r);
      case ReadScore(c) => PutResults(m, c, Step(m, e).calls[c], u, r);
      case ReadStats(c, _) => PutResults(m, c, Step(m, e).calls[c], u, r);
    }
  }

  lemma {:induction false} AlwaysResultsOk(pow: Power, es: seq<Event>, u: UserId, r: Result)
    ensures ResultsOk(After(pow, es), u, r)
  {
    if es != [] {
      AlwaysResultsOk(pow, es[..|es| - 1], u, r);
      StepResults(After(pow, es[..|es| - 1]), es[|es| - 1], u, r);
    }
  }

  // ----- whole runs

  function CounterHeld(table: seq<Stats>, u: UserId, r: Result): int {
    var k := Index(table, u);
    if k < |table| then Counter(table[k], r) else 0
  }

  lemma {:induction false} CounterIsTotal(table: seq<Stats>, k: nat, r: Result)
    requires UniqueUsers(table) && k < |table|
    ensures Sum(table, CounterOf(table[k].user, r)) == Counter(table[k], r)
  {
    var before := table[..|table| - 1];
    if k < |before| {
      CounterIsTotal(before, k, r);
    } else {
      SumZero(before, CounterOf(table[k].user, r));
    }
  }

  lemma HeldIsTotalCounter(table: seq<Stats>, u: UserId, r: Result)
    requires UniqueUsers(table)
    ensures CounterHeld(table, u, r) == Sum(table, CounterOf(u, r))
  {
    if Index(table, u) < |table| {
      CounterIsTotal(table, Index(table, u), r);
    } else {
      SumZero(table, CounterOf(u, r));
    }
  }

  /**
   In every run, with failures and interleaving: a player's wins, losses and draws are how often
   a settlement has paid that player for a win, a loss and a draw.
   */
  lemma ResultsArePaidFor(pow: Power, es: seq<Event>, u: UserId)
    ensures var table, calls := After(pow, es).table, After(pow, es).calls;
            && (Index(table, u) < |table| ==>
                  && table[Index(table, u)].wins == Sum(calls, PaidFor(u, WIN))
                  && table[Index(table, u)].losses == Sum(calls, PaidFor(u, LOSS))
                  && table[Index(table, u)].draws == Sum(calls, PaidFor(u, Result.DRAW)))
            && (Index(table, u) == |table| ==> forall r :: Sum(calls, PaidFor(u, r)) == 0)
  {
    AlwaysInv(pow, es, u);
    forall r ensures CounterHeld(After(pow, es).table, u, r) == Sum(After(pow, es).calls, PaidFor(u, r)) {
      AlwaysResultsOk(pow, es, u, r);
      HeldIsTotalCounter(After(pow, es).table, u, r);
    }
  }

  /**
   When all started settlements are complete, a player's wins are the history rows that say WIN
   plus the Elo settlements that the player won, and likewise for losses and draws.
   */
  lemma ResultsMatchHistory(pow: Power, es: seq<Event>, u: UserId, r: Result)
    requires AllComplete(After(pow, es).calls)
    ensures var m := After(pow, es);
            CounterHeld(m.table, u, r) == Sum(m.rows, RowsAs(u, r)) + Sum(m.calls, EloSettledAs(u, r))
  {
    var m := After(pow, es);
    AlwaysInv(pow, es, u);
    AlwaysResultsOk(pow, es, u, r);
    HeldIsTotalCounter(m.table, u, r);
    forall c | 0 <= c < |m.calls|
      ensures PaidFor(u, r)(m.calls[c]) == RecordedAs(u, r)(m.calls[c]) + EloSettledAs(u, r)(m.calls[c])
    {
      assert CallOk(m.calls[c]);
    }
    SumOfTwo(m.calls, PaidFor(u, r), RecordedAs(u, r), EloSettledAs(u, r));
  }
}
