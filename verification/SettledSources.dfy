/**
 Where payments and history rows come from, in every interleaved run: from a request, from a final
 score the debate had, and, for Elo, from ratings that its two players had.
 */
module SettledSources {
  import opened Common
  import opened FinalScores
  import opened Elo
  import opened PlayerStats
  import opened Settlement
  import opened SettlementProofs

  /** The result of a player on this side of a debate with this winner. */
  predicate ResultFits(r: Result, side: Side, winner: Winner) {
    && (r == WIN <==> winner == Won(side))
    && (r == Result.DRAW <==> winner == Winner.DRAW)
  }

  /** 30, 20 or 10 for a win, a draw or a loss, and a tenth of the score rounded to the nearest integer, halves up. */
  predicate XpFits(xp: int, r: Result, finalScore: int) {
    var tens := xp - (match r case WIN => 30 case DRAW => 20 case LOSS => 10);
    -5 <= finalScore - 10 * tens < 5
  }

  predicate ScoresFit(finalScore: int, opponentScore: int, side: Side, score: FinalRow) {
    if side == FOR then finalScore == score.finalFor && opponentScore == score.finalAgainst
    else finalScore == score.finalAgainst && opponentScore == score.finalFor
  }

  /** At some moment of the run the user's Elo was `elo`. */
  ghost predicate EloWas(pow: Power, es: seq<Event>, u: UserId, elo: int) {
    exists n :: 0 <= n <= |es| && HasElo(After(pow, es[..n]).table, u, elo)
  }

  ghost predicate HasElo(table: seq<Stats>, u: UserId, elo: int) {
    exists k :: 0 <= k < |table| && table[k].user == u && table[k].elo == elo
  }

  /** The debate had this final score. */
  ghost predicate ScoreWas(es: seq<Event>, debate: string, score: FinalRow) {
    PutScore(debate, score) in es
  }

  predicate LegFits(leg: Leg, side: Side, score: FinalRow) {
    leg.side == side && ResultFits(leg.result, side, score.winner)
    && ScoresFit(leg.finalScore, leg.opponentScore, side, score)
  }

  /** Two ratings, from which the FOR player gains `elo`. */
  ghost predicate EloFits(pow: Power, es: seq<Event>, f: UserId, a: UserId, r: Result, elo: int) {
    exists x, y :: EloWas(pow, es, f, x) && EloWas(pow, es, a, y) && elo == EloDelta(pow, x, y, r)
  }

  ghost predicate SettlementFits(pow: Power, es: seq<Event>, call: Call, score: FinalRow)
    requires call.Settling?
  {
    var f, a := call.forLeg, call.againstLeg;
    && ScoreWas(es, call.debate, score) && LegFits(f, FOR, score) && LegFits(a, AGAINST, score)
    && Begin(call.kind, call.debate, f.user, a.user) in es
    && (call.kind == XpKind ==> f.elo == a.elo == 0 && XpFits(f.xp, f.result, f.finalScore)
                                && XpFits(a.xp, a.result, a.finalScore))
    && (call.kind == EloKind ==> f.xp == a.xp == 0 && a.elo == -f.elo
                                 && EloFits(pow, es, f.user, a.user, f.result, f.elo))
  }

  ghost predicate CallFrom(pow: Power, es: seq<Event>, call: Call) {
    match call
    case ReadingScore(kind, d, f, a) => Begin(kind, d, f, a) in es
    case ReadingStats(d, f, a, score, fElo, aElo) =>
      && Begin(EloKind, d, f, a) in es && ScoreWas(es, d, score)
      && (fElo.Some? ==> EloWas(pow, es, f, fElo.value)) && (aElo.Some? ==> EloWas(pow, es, a, aElo.value))
    case Settling(_, _, _, _) => exists score :: SettlementFits(pow, es, call, score)
    case PreconditionFailed => true
  }

  /** The columns of a history row fit a final score of its debate. */
  ghost predicate RowFrom(es: seq<Event>, p: Performance) {
    exists score :: ScoreWas(es, p.debate, score) && RowFitsScore(p, score)
  }

  predicate RowFitsScore(p: Performance, score: FinalRow) {
    ResultFits(p.result, p.side, score.winner) && ScoresFit(p.finalScore, p.opponentScore, p.side, score)
    && XpFits(p.xpDelta, p.result, p.finalScore)
  }

  /** The Elo column is untouched or what an Elo settlement of that debate computed for that player. */
  ghost predicate EloFrom(pow: Power, es: seq<Event>, p: Performance) {
    p.eloDelta == 0 || exists f, a, r, delta :: EloSource(pow, es, p, f, a, r, delta)
  }

  ghost predicate EloSource(pow: Power, es: seq<Event>, p: Performance, f: UserId, a: UserId, r: Result, delta: int) {
    && Begin(EloKind, p.debate, f, a) in es && EloFits(pow, es, f, a, r, delta)
    && (exists score :: ScoreWas(es, p.debate, score) && ResultFits(r, FOR, score.winner))
    && ((p.user == f && p.eloDelta == delta) || (p.user == a && p.eloDelta == -delta))
  }

  ghost predicate Sourced(pow: Power, es: seq<Event>) {
    var m := After(pow, es);
    && (forall d :: d in m.scores ==> ScoreWas(es, d, m.scores[d]))
    && (forall c :: 0 <= c < |m.calls| ==> CallFrom(pow, es, m.calls[c]))
    && (forall k :: 0 <= k < |m.rows| ==> RowFrom(es, m.rows[k]) && EloFrom(pow, es, m.rows[k]))
  }

  // ----- what was, stays

  lemma EloWasLater(pow: Power, es: seq<Event>, e: Event, u: UserId, elo: int)
    requires EloWas(pow, es, u, elo)
    ensures EloWas(pow, es + [e], u, elo)
  {
    var n :| 0 <= n <= |es| && HasElo(After(pow, es[..n]).table, u, elo);
    assert (es + [e])[..n] == es[..n];
  }

  lemma EloFitsLater(pow: Power, es: seq<Event>, e: Event, f: UserId, a: UserId, r: Result, elo: int)
    requires EloFits(pow, es, f, a, r, elo)
    ensures EloFits(pow, es + [e], f, a, r, elo)
  {
    var x, y :| EloWas(pow, es, f, x) && EloWas(pow, es, a, y) && elo == EloDelta(pow, x, y, r);
    EloWasLater(pow, es, e, f, x);
    EloWasLater(pow, es, e, a, y);
  }

  lemma SettlementFitsLater(pow: Power, es: seq<Event>, e: Event, call: Call, score: FinalRow)
    requires call.Settling? && SettlementFits(pow, es, call, score)
    ensures SettlementFits(pow, es + [e], call, score)
  {
    if call.kind == EloKind {
      EloFitsLater(pow, es, e, call.forLeg.user, call.againstLeg.user, call.forLeg.result, call.forLeg.elo);
    }
    hide EloFits, LegFits, XpFits;
  }

  lemma CallFromLater(pow: Power, es: seq<Event>, e: Event, call: Call)
    requires CallFrom(pow, es, call)
    ensures CallFrom(pow, es + [e], call)
  {
    hide EloWas, SettlementFits;
    match call
    case ReadingStats(_, f, a, _, fElo, aElo) =>
      if fElo.Some? { EloWasLater(pow, es, e, f, fElo.value); }
      if aElo.Some? { EloWasLater(pow, es, e, a, aElo.value); }
    case Settling(_, _, _, _) =>
      var score :| SettlementFits(pow, es, call, score);
      SettlementFitsLater(pow, es, e, call, score);
    case _ =>
  }

  lemma RowLater(pow: Power, es: seq<Event>, e: Event, p: Performance)
    requires RowFrom(es, p) && EloFrom(pow, es, p)
    ensures RowFrom(es + [e], p) && EloFrom(pow, es + [e], p)
  {
    var score :| ScoreWas(es, p.debate, score) && RowFitsScore(p, score);
    assert ScoreWas(es + [e], p.debate, score);
    if p.eloDelta != 0 {
      var f, a, r, delta :| EloSource(pow, es, p, f, a, r, delta);
      EloFitsLater(pow, es, e, f, a, r, delta);
      var won :| ScoreWas(es, p.debate, won) && ResultFits(r, FOR, won.winner);
      assert ScoreWas(es + [e], p.debate, won);
      hide EloFits, ResultFits, RowFitsScore;
      assert EloSource(pow, es + [e], p, f, a, r, delta);
    }
  }

  // ----- settlements that begin

  lemma XpOfLeg(r: Result, finalScore: int)
    ensures XpFits(XpDelta(r, finalScore), r, finalScore)
  {
    XpIsBasePlusTens(r, finalScore, 0);
  }

  lemma LegFromScore(u: UserId, side: Side, score: FinalRow)
    ensures LegFits(XpLeg(u, side, score), side, score)
  {
  }

  lemma XpCallFits(pow: Power, es: seq<Event>, d: string, f: UserId, a: UserId, score: FinalRow)
    requires ScoreWas(es, d, score) && Begin(XpKind, d, f, a) in es
    ensures CallFrom(pow, es, XpSettlement(d, f, a, score))
  {
    LegFromScore(f, FOR, score);
    LegFromScore(a, AGAINST, score);
    var call := XpSettlement(d, f, a, score);
    XpOfLeg(call.forLeg.result, call.forLeg.finalScore);
    XpOfLeg(call.againstLeg.result, call.againstLeg.finalScore);
    hide LegFits, XpFits;
    assert SettlementFits(pow, es, call, score);
  }

  lemma EloCallFits(pow: Power, es: seq<Event>, d: string, f: UserId, a: UserId, score: FinalRow, x: int, y: int)
    requires ScoreWas(es, d, score) && Begin(EloKind, d, f, a) in es && EloWas(pow, es, f, x) && EloWas(pow, es, a, y)
    ensures CallFrom(pow, es, EloSettlement(pow, d, f, a, score, x, y))
  {
    LegFromScore(f, FOR, score);
    LegFromScore(a, AGAINST, score);
    var call := EloSettlement(pow, d, f, a, score, x, y);
    hide EloDelta, EloWas;
    assert EloFits(pow, es, f, a, call.forLeg.result, call.forLeg.elo);
    hide EloFits;
    assert SettlementFits(pow, es, call, score);
  }

  lemma EloIsNow(pow: Power, es: seq<Event>, e: Event, u: UserId)
    requires Index(After(pow, es).table, u) < |After(pow, es).table|
    ensures EloWas(pow, es + [e], u, After(pow, es).table[Index(After(pow, es).table, u)].elo)
  {
    var table := After(pow, es).table;
    assert (es + [e])[..|es|] == es;
    assert HasElo(table, u, table[Index(table, u)].elo);
  }

  // ----- one event

  /** The same settlement, further on. */
  predicate SameSettlement(a: Call, b: Call) {
    a.Settling? && b.Settling? && a.kind == b.kind && a.debate == b.debate
    && SameLeg(a.forLeg, b.forLeg) && SameLeg(a.againstLeg, b.againstLeg)
  }

  predicate SameLeg(a: Leg, b: Leg) {
    b == a.(apply := b.apply, record := b.record)
  }

  lemma SameSettlementFrom(pow: Power, es: seq<Event>, a: Call, b: Call)
    requires SameSettlement(a, b) && CallFrom(pow, es, a)
    ensures CallFrom(pow, es, b)
  {
    hide EloFits, LegFits, XpFits;
    var score :| SettlementFits(pow, es, a, score);
    LegFitsSame(a, b, score);
    assert SettlementFits(pow, es, b, score);
  }

  lemma LegFitsSame(a: Call, b: Call, score: FinalRow)
    requires SameSettlement(a, b)
    ensures LegFits(a.forLeg, FOR, score) ==> LegFits(b.forLeg, FOR, score)
    ensures LegFits(a.againstLeg, AGAINST, score) ==> LegFits(b.againstLeg, AGAINST, score)
  {
  }

  /** A statement of one leg moves no other call and leaves the settlement the same. */
  ghost predicate OnlySettles(m: Machine, m': Machine, c: nat)
    requires c < |m.calls|
  {
    && |m'.calls| == |m.calls| && (forall i :: 0 <= i < |m.calls| && i != c ==> m'.calls[i] == m.calls[i])
    && (m'.calls[c] == m.calls[c] || SameSettlement(m.calls[c], m'.calls[c]))
  }

  lemma SettersSettle(m: Machine, c: nat, side: Side, s: ApplyState, t: RecordState)
    requires c < |m.calls| && m.calls[c].Settling?
    ensures OnlySettles(m, SetApply(m, c, side, s), c) && OnlySettles(m, SetRecord(m, c, side, t), c)
  {
  }

  lemma ApplySettles(m: Machine, c: nat, side: Side)
    requires c < |m.calls| && m.calls[c].Settling?
    ensures OnlySettles(m, StepApply(m, c, side), c)
  {
    hide InsertMissing, Increment;
  }

  lemma RecordSettles(m: Machine, c: nat, side: Side)
    requires c < |m.calls| && MayRecord(m.calls[c], side)
    ensures OnlySettles(m, StepRecord(m, c, side), c)
  {
  }

  /** How one event moves call `c`. */
  lemma CallMoves(m: Machine, e: Event, c: nat)
    requires c < |m.calls|
    ensures c < |Step(m, e).calls|
    ensures var call, call' := m.calls[c], Step(m, e).calls[c];
            call' == call || SameSettlement(call, call') || call' == PreconditionFailed
            || (e == ReadScore(c) && call.ReadingScore?) || (e.ReadStats? && e.call == c && call.ReadingStats?)
  {
    hide StepApply, StepRecord, SetApply, SetRecord, SameSettlement, XpSettlement, EloSettlement;
    match e
    case Apply(i, side) => if i < |m.calls| && m.calls[i].Settling? { ApplySettles(m, i, side); }
    case Record(i, side) => if i < |m.calls| && MayRecord(m.calls[i], side) { RecordSettles(m, i, side); }
    case FailApply(i, side) => if i < |m.calls| && m.calls[i].Settling? { SettersSettle(m, i, side, Refused, Idle); }
    case LoseReply(i, side) => if i < |m.calls| && m.calls[i].Settling? { SettersSettle(m, i, side, ReplyLost, Idle); }
    case FailRecord(i, side) =>
      if i < |m.calls| && m.calls[i].Settling? { SettersSettle(m, i, side, Refused, Rejected); }
    case _ =>
  }

  lemma ReadScoreFrom(pow: Power, es: seq<Event>, c: nat)
    requires Sourced(pow, es) && c < |After(pow, es).calls| && After(pow, es).calls[c].ReadingScore?
    ensures CallFrom(pow, es + [ReadScore(c)], Step(After(pow, es), ReadScore(c)).calls[c])
  {
    var m, es' := After(pow, es), es + [ReadScore(c)];
    assert CallFrom(pow, es, m.calls[c]);
    var ReadingScore(kind, d, f, a) := m.calls[c];
    if d in m.scores {
      assert ScoreWas(es', d, m.scores[d]) && Begin(kind, d, f, a) in es';
      if kind == XpKind {
        XpCallFits(pow, es', d, f, a, m.scores[d]);
      }
    }
    hide XpSettlement, SettlementFits;
  }

  lemma ReadStatsFrom(pow: Power, es: seq<Event>, c: nat, side: Side)
    requires Sourced(pow, es) && c < |After(pow, es).calls| && After(pow, es).calls[c].ReadingStats?
    requires After(pow, es).pow == pow
    ensures CallFrom(pow, es + [ReadStats(c, side)], Step(After(pow, es), ReadStats(c, side)).calls[c])
  {
    var m, e := After(pow, es), ReadStats(c, side);
    assert CallFrom(pow, es, m.calls[c]);
    CallFromLater(pow, es, e, m.calls[c]);
    hide EloSettlement, EloWas, After, Sourced;
    var ReadingStats(d, f, a, score, fElo, aElo) := m.calls[c];
    var k := Index(m.table, if side == FOR then f else a);
    if k < |m.table| {
      EloIsNow(pow, es, e, if side == FOR then f else a);
      var fElo' := if side == FOR then Some(m.table[k].elo) else fElo;
      var aElo' := if side == FOR then aElo else Some(m.table[k].elo);
      if fElo'.Some? && aElo'.Some? {
        EloCallFits(pow, es + [e], d, f, a, score, fElo'.value, aElo'.value);
      }
    }
  }

  lemma CallStepFrom(pow: Power, es: seq<Event>, e: Event, c: nat)
    requires Sourced(pow, es) && c < |After(pow, es).calls| && After(pow, es).pow == pow
    ensures c < |Step(After(pow, es), e).calls|
    ensures CallFrom(pow, es + [e], Step(After(pow, es), e).calls[c])
  {
    var m := After(pow, es);
    CallMoves(m, e, c);
    assert CallFrom(pow, es, m.calls[c]);
    CallFromLater(pow, es, e, m.calls[c]);
    var call' := Step(m, e).calls[c];
    if SameSettlement(m.calls[c], call') {
      SameSettlementFrom(pow, es + [e], m.calls[c], call');
    } else if e == ReadScore(c) && m.calls[c].ReadingScore? {
      ReadScoreFrom(pow, es, c);
    } else if e.ReadStats? && e.call == c && m.calls[c].ReadingStats? {
      ReadStatsFrom(pow, es, c, e.side);
    }
    hide Step, Sourced, SettlementFits, EloWas;
  }

  lemma OnlyBeginAdds(m: Machine, e: Event)
    ensures |Step(m, e).calls| <= |m.calls| + 1
    ensures |Step(m, e).calls| > |m.calls| ==>
              e.Begin? && Step(m, e).calls[|m.calls|] == ReadingScore(e.kind, e.debate, e.forUser, e.againstUser)
  {
    hide XpSettlement, EloSettlement, InsertMissing, Increment, RowOk, RowIndex;
  }

  lemma NewCallFrom(pow: Power, es: seq<Event>, e: Event, c: nat)
    requires |After(pow, es).calls| <= c < |Step(After(pow, es), e).calls|
    ensures CallFrom(pow, es + [e], Step(After(pow, es), e).calls[c])
  {
    OnlyBeginAdds(After(pow, es), e);
    hide Step;
    assert e.Begin? && Step(After(pow, es), e).calls[c] == ReadingScore(e.kind, e.debate, e.forUser, e.againstUser);
    assert (es + [e])[|es|] == e;
  }

  /** How one event can change the history: one row more, or one Elo column. */
  lemma RowMoves(m: Machine, e: Event, k: nat)
    requires k < |Step(m, e).rows|
    ensures (k < |m.rows| && Step(m, e).rows[k] == m.rows[k])
            || (e.Record? && e.call < |m.calls| && MayRecord(m.calls[e.call], e.side) && NewRow(m, e, k))
  {
    hide XpLeg, EloDelta, Increment, InsertMissing;
  }

  predicate NewRow(m: Machine, e: Event, k: nat)
    requires e.Record? && e.call < |m.calls| && MayRecord(m.calls[e.call], e.side) && k < |Step(m, e).rows|
  {
    var call, leg, row := m.calls[e.call], LegOf(m.calls[e.call], e.side), Step(m, e).rows[k];
    row.user == leg.user && row.debate == call.debate
    && (if k == |m.rows|
        then call.kind == XpKind && row.side == leg.side && row.result == leg.result && row.finalScore == leg.finalScore
             && row.opponentScore == leg.opponentScore && row.xpDelta == leg.xp && row.eloDelta == 0
        else k < |m.rows| && call.kind == EloKind && row == m.rows[k].(eloDelta := leg.elo))
  }

  lemma NewRowFrom(pow: Power, es: seq<Event>, e: Event, k: nat)
    requires Sourced(pow, es) && e.Record? && e.call < |After(pow, es).calls|
    requires MayRecord(After(pow, es).calls[e.call], e.side)
    requires k < |Step(After(pow, es), e).rows| && NewRow(After(pow, es), e, k)
    ensures RowFrom(es, Step(After(pow, es), e).rows[k]) && EloFrom(pow, es, Step(After(pow, es), e).rows[k])
  {
    var m, row := After(pow, es), Step(After(pow, es), e).rows[k];
    var call := m.calls[e.call];
    assert CallFrom(pow, es, call);
    var score :| SettlementFits(pow, es, call, score);
    if k == |m.rows| {
      hide Step, Sourced, EloFits;
      assert ScoreWas(es, row.debate, score) && RowFitsScore(row, score);
    } else {
      assert RowFrom(es, m.rows[k]);
      hide Step, Sourced, EloFits;
      EloRowFrom(pow, es, call, e.side, score, row);
      SameButElo(es, m.rows[k], row);
    }
  }

  lemma SameButElo(es: seq<Event>, p: Performance, p': Performance)
    requires RowFrom(es, p) && p' == p.(eloDelta := p'.eloDelta)
    ensures RowFrom(es, p')
  {
    var score :| ScoreWas(es, p.debate, score) && RowFitsScore(p, score);
    assert RowFitsScore(p', score);
  }

  lemma EloRowFrom(pow: Power, es: seq<Event>, call: Call, side: Side, score: FinalRow, p: Performance)
    requires call.Settling? && call.kind == EloKind && SettlementFits(pow, es, call, score)
    requires p.user == LegOf(call, side).user && p.debate == call.debate && p.eloDelta == LegOf(call, side).elo
    ensures EloFrom(pow, es, p)
  {
    hide EloFits, ResultFits, ScoresFit;
    var f := call.forLeg;
    assert ScoreWas(es, p.debate, score) && ResultFits(f.result, FOR, score.winner);
    assert EloSource(pow, es, p, f.user, call.againstLeg.user, f.result, f.elo);
  }

  lemma RowStepFrom(pow: Power, es: seq<Event>, e: Event, k: nat)
    requires Sourced(pow, es) && k < |Step(After(pow, es), e).rows|
    ensures var p := Step(After(pow, es), e).rows[k]; RowFrom(es + [e], p) && EloFrom(pow, es + [e], p)
  {
    var m := After(pow, es);
    RowMoves(m, e, k);
    if !(k < |m.rows| && Step(m, e).rows[k] == m.rows[k]) {
      NewRowFrom(pow, es, e, k);
    }
    RowLater(pow, es, e, Step(m, e).rows[k]);
    hide Step, RowFrom, EloFrom;
  }

  lemma PowStays(pow: Power, m: Machine, e: Event)
    ensures Step(m, e).pow == m.pow
    ensures forall d :: d in Step(m, e).scores ==>
                          (d in m.scores && Step(m, e).scores[d] == m.scores[d])
                          || e == PutScore(d, Step(m, e).scores[d])
  {
  }

  lemma {:induction false} AlwaysSourced(pow: Power, es: seq<Event>)
    ensures Sourced(pow, es) && After(pow, es).pow == pow
  {
    if es != [] {
      var before, e := es[..|es| - 1], es[|es| - 1];
      AlwaysSourced(pow, before);
      assert es == before + [e];
      var m, m' := After(pow, before), After(pow, es);
      assert m' == Step(m, e);
      PowStays(pow, m, e);
      assert forall d :: d in m'.scores ==> ScoreWas(es, d, m'.scores[d]);
      hide Step, CallFrom, RowFrom, EloFrom;
      forall c | 0 <= c < |m'.calls| ensures CallFrom(pow, es, m'.calls[c]) {
        if c < |m.calls| {
          CallStepFrom(pow, before, e, c);
        } else {
          NewCallFrom(pow, before, e, c);
        }
      }
      forall k | 0 <= k < |m'.rows| ensures RowFrom(es, m'.rows[k]) && EloFrom(pow, es, m'.rows[k]) {
        RowStepFrom(pow, before, e, k);
      }
    }
  }

  // ----- what it means

  /**
   In every run, whatever fails and however settlements interleave: a settlement was asked for its
   debate and its two players, in that order, and pays by a final score that the debate had. XP is
   30, 20 or 10 for a win, draw or loss plus the nearest tenth of the player's own final score. Elo
   is what the formula gives the FOR player from ratings the two players had, and its negative.
   */
  lemma PaymentsHaveSources(pow: Power, es: seq<Event>, c: nat)
    requires c < |After(pow, es).calls| && After(pow, es).calls[c].Settling?
    ensures exists score :: SettlementFits(pow, es, After(pow, es).calls[c], score)
  {
    AlwaysSourced(pow, es);
    assert CallFrom(pow, es, After(pow, es).calls[c]);
  }

  /** And every history row holds the result, the scores and the XP of its own side, and such an Elo delta or 0. */
  lemma HistoryHasSources(pow: Power, es: seq<Event>, k: nat)
    requires k < |After(pow, es).rows|
    ensures RowFrom(es, After(pow, es).rows[k]) && EloFrom(pow, es, After(pow, es).rows[k])
  {
    AlwaysSourced(pow, es);
  }
}
