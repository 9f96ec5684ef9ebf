/** Which lists of settlement requests go through as a whole. */
module SettledRequests {
  import opened Common
  import opened FinalScores
  import opened Elo
  import opened PlayerStats
  import opened Sums
  import opened Settlement
  import opened SettlementProofs
  import opened SettlementSerial
  import opened SettledBooks
  import opened SettledRuns

  /** Each debate is XP-settled once and Elo-settled at most once, afterwards and for the same pair of players. */
  ghost predicate InOrder(rs: seq<Request>) {
    && ValidRequests(rs) && OnceEach(rs, XpKind) && OnceEach(rs, EloKind)
    && forall i :: 0 <= i < |rs| && rs[i].kind == EloKind ==> XpSettledBefore(rs, i)
  }

  /** The XP request for the same debate and the same pair. */
  predicate IsXpFor(xp: Request, r: Request) {
    xp.kind == XpKind && xp.debate == r.debate && xp.f == r.f && xp.a == r.a
  }

  predicate IsXpAbout(xp: Request, u: UserId, debate: string) {
    xp.kind == XpKind && xp.debate == debate && (xp.f == u || xp.a == u)
  }

  ghost predicate XpSettledBefore(rs: seq<Request>, i: nat)
    requires i < |rs|
  {
    exists j :: 0 <= j < i && IsXpFor(rs[j], rs[i])
  }

  /** Neither player is asked for more Elo than they hold. */
  predicate Affordable(pow: Power, b: Books, r: Request) {
    var f, a := CurrentElo(b.table, r.f), CurrentElo(b.table, r.a);
    var delta := EloDelta(pow, f, a, ResultForSide(r.score.winner, FOR));
    f + delta >= 0 && a - delta >= 0
  }

  ghost predicate AllAffordable(pow: Power, rs: seq<Request>) {
    forall i :: 0 <= i < |rs| && rs[i].kind == EloKind ==> Affordable(pow, AllAnswered(pow, rs[..i]).0, rs[i])
  }

  /** Some XP request of the list is about this player and debate. */
  ghost predicate Requested(rs: seq<Request>, u: UserId, debate: string) {
    exists j :: 0 <= j < |rs| && IsXpAbout(rs[j], u, debate)
  }

  ghost predicate Recorded(b: Books, u: UserId, debate: string) {
    RowIndex(b.rows, u, debate) < |b.rows|
  }

  /** The books have a history row exactly for every XP request, and stats for everybody in the history. */
  ghost predicate BooksOf(b: Books, rs: seq<Request>) {
    && TableOk(b.table)
    && (forall u, debate :: Recorded(b, u, debate) <==> Requested(rs, u, debate))
    && (forall u, debate :: Recorded(b, u, debate) ==> Index(b.table, u) < |b.table|)
  }

  lemma InsertRecords(rows: seq<Performance>, id: nat, debate: string, leg: Leg, u: UserId, d: string)
    ensures var rows' := InsertRowFor(rows, id, debate, leg);
            RowIndex(rows', u, d) < |rows'| <==> RowIndex(rows, u, d) < |rows| || (u == leg.user && d == debate)
  {
    var rows' := InsertRowFor(rows, id, debate, leg);
    var k, k' := RowIndex(rows, u, d), RowIndex(rows', u, d);
    assert k < |rows| ==> rows'[k] == rows[k];
    assert k' < |rows| ==> rows'[k'] == rows[k'];
    assert |rows'| > |rows| ==> rows'[|rows|].user == leg.user && rows'[|rows|].debate == debate;
  }

  lemma PayKeepsPlayers(table: seq<Stats>, user: UserId, xp: int, elo: int, r: Result, u: UserId)
    requires TableOk(table)
    ensures var (table', ok) := ApplyDelta(table, user, xp, elo, r);
            && TableOk(table')
            && (Index(table, u) < |table| || (ok && u == user) ==> Index(table', u) < |table'|)
  {
    ApplyDeltaSucceeds(table, user, xp, elo, r);
    InsertMissingOk(table, user);
    var present, table' := InsertMissing(table, user), ApplyDelta(table, user, xp, elo, r).0;
    var k, p := Index(table, u), Index(present, user);
    assert k < |table| ==> present[k].user == u && table'[k].user == u;
    assert ApplyDelta(table, user, xp, elo, r).1 ==> p < |table'| && table'[p].user == user;
  }

  lemma PayBothKeepsPlayers(table: seq<Stats>, f: Leg, a: Leg, u: UserId)
    requires TableOk(table)
    ensures var (table', ok) := PayBoth(table, f, a);
            && TableOk(table')
            && (Index(table, u) < |table| || (ok && (u == f.user || u == a.user)) ==> Index(table', u) < |table'|)
  {
    hide ApplyDelta, TableOk;
    PayKeepsPlayers(table, f.user, f.xp, f.elo, f.result, u);
    PayKeepsPlayers(ApplyDelta(table, f.user, f.xp, f.elo, f.result).0, a.user, a.xp, a.elo, a.result, u);
  }

  lemma XpBooks(b: Books, id: nat, r: Request, u: UserId, d: string)
    requires TableOk(b.table) && RowOk(r.score) && r.f != r.a
    requires !Recorded(b, r.f, r.debate) && !Recorded(b, r.a, r.debate)
    ensures var (b', answer) := SerialXp(b, id, Some(r.score), r.debate, r.f, r.a);
            && answer == Settled && TableOk(b'.table)
            && (Recorded(b', u, d) <==> Recorded(b, u, d) || (d == r.debate && (u == r.f || u == r.a)))
            && (Index(b.table, u) < |b.table| || u == r.f || u == r.a ==> Index(b'.table, u) < |b'.table|)
  {
    var f, a := XpLeg(r.f, FOR, r.score), XpLeg(r.a, AGAINST, r.score);
    XpSettlesWhen(b, id, r.score, r.debate, r.f, r.a);
    PayBothKeepsPlayers(b.table, f, a, u);
    InsertRecords(b.rows, id, r.debate, f, u, d);
    InsertRecords(InsertRowFor(b.rows, id, r.debate, f), id, r.debate, a, u, d);
    hide PayBoth, TableOk, InsertRowFor;
  }

  lemma SetEloRecords(rows: seq<Performance>, user: UserId, debate: string, elo: int, u: UserId, d: string)
    ensures var rows' := SetElo(rows, user, debate, elo);
            |rows'| == |rows| && RowIndex(rows', u, d) == RowIndex(rows, u, d)
  {
    var k := RowIndex(rows, user, debate);
    if k < |rows| {
      RowIndexStays(rows, k, elo, u, d);
    }
  }

  lemma EloBooks(pow: Power, b: Books, r: Request, u: UserId, d: string)
    requires TableOk(b.table)
    ensures var b' := SerialElo(pow, b, Some(r.score), r.debate, r.f, r.a).0;
            && TableOk(b'.table) && (Recorded(b', u, d) <==> Recorded(b, u, d))
            && (Index(b.table, u) < |b.table| ==> Index(b'.table, u) < |b'.table|)
  {
    var kf, ka := Index(b.table, r.f), Index(b.table, r.a);
    if kf < |b.table| && ka < |b.table| {
      var call := EloSettlement(pow, r.debate, r.f, r.a, r.score, b.table[kf].elo, b.table[ka].elo);
      PayBothKeepsPlayers(b.table, call.forLeg, call.againstLeg, u);
      SetEloRecords(b.rows, r.f, r.debate, call.forLeg.elo, u, d);
      SetEloRecords(SetElo(b.rows, r.f, r.debate, call.forLeg.elo), r.a, r.debate, call.againstLeg.elo, u, d);
      hide PayBoth, SetElo, TableOk;
    }
  }

  lemma InOrderBefore(rs: seq<Request>)
    requires InOrder(rs) && rs != []
    ensures InOrder(rs[..|rs| - 1])
  {
    var before := rs[..|rs| - 1];
    forall i | 0 <= i < |before| && before[i].kind == EloKind ensures XpSettledBefore(before, i) {
      assert XpSettledBefore(rs, i);
      var j :| 0 <= j < i && IsXpFor(rs[j], rs[i]);
      assert before[j] == rs[j];
    }
  }

  lemma RequestedLater(rs: seq<Request>, u: UserId, d: string)
    requires rs != []
    ensures var last := rs[|rs| - 1];
            Requested(rs, u, d) <==> Requested(rs[..|rs| - 1], u, d)
                                     || IsXpAbout(last, u, d)
  {
    var before := rs[..|rs| - 1];
    if Requested(before, u, d) {
      var j :| 0 <= j < |before| && IsXpAbout(before[j], u, d);
      assert rs[j] == before[j];
    }
    forall j | 0 <= j < |before| ensures before[j] == rs[j] {}
  }

  /** The last request: an XP request always goes through, an Elo request if and only if it is affordable. */
  lemma LastAnswer(pow: Power, before: seq<Request>, b: Books, r: Request)
    requires BooksOf(b, before) && InOrder(before + [r])
    ensures Answered(pow, b, |before|, r).1 == Settled <==> r.kind == XpKind || Affordable(pow, b, r)
  {
    var rs := before + [r];
    assert rs[|before|] == r && rs[..|before|] == before;
    if r.kind == EloKind {
      assert XpSettledBefore(rs, |before|);
      var j :| 0 <= j < |before| && IsXpFor(rs[j], r);
      assert IsXpAbout(before[j], r.f, r.debate) && IsXpAbout(before[j], r.a, r.debate);
      assert Requested(before, r.f, r.debate) && Requested(before, r.a, r.debate);
      assert Recorded(b, r.f, r.debate) && Recorded(b, r.a, r.debate);
      hide BooksOf, SerialElo;
      RefusedEloPaysOneSide(pow, b, r.score, r.debate, r.f, r.a);
    } else {
      NotYetRequested(rs, r.f);
      NotYetRequested(rs, r.a);
      XpBooks(b, |before|, r, r.f, r.debate);
    }
  }

  lemma LastRequest(pow: Power, before: seq<Request>, b: Books, r: Request)
    requires BooksOf(b, before) && InOrder(before + [r])
    ensures BooksOf(Answered(pow, b, |before|, r).0, before + [r])
  {
    var b' := Answered(pow, b, |before|, r).0;
    var rs := before + [r];
    assert rs[|before|] == r && rs[..|before|] == before;
    LastBooks(pow, before, b, r, r.f, r.debate);
    forall u, d
      ensures Recorded(b', u, d) <==> Requested(rs, u, d)
      ensures Recorded(b', u, d) ==> Index(b'.table, u) < |b'.table|
    {
      RequestedLater(rs, u, d);
      LastBooks(pow, before, b, r, u, d);
      hide Answered, Requested, Recorded;
    }
  }

  /** The books after the last request, seen from one player and debate. */
  lemma LastBooks(pow: Power, before: seq<Request>, b: Books, r: Request, u: UserId, d: string)
    requires BooksOf(b, before) && InOrder(before + [r])
    ensures var b' := Answered(pow, b, |before|, r).0;
            && TableOk(b'.table)
            && (Recorded(b', u, d) <==> Recorded(b, u, d) || IsXpAbout(r, u, d))
            && (Recorded(b', u, d) ==> Index(b'.table, u) < |b'.table|)
  {
    var rs := before + [r];
    assert rs[|before|] == r && rs[..|before|] == before;
    if r.kind == XpKind {
      NotYetRequested(rs, r.f);
      NotYetRequested(rs, r.a);
      assert !Recorded(b, r.f, r.debate) && !Recorded(b, r.a, r.debate);
      XpBooks(b, |before|, r, u, d);
    } else {
      EloBooks(pow, b, r, u, d);
    }
  }

  lemma NotYetRequested(rs: seq<Request>, u: UserId)
    requires rs != [] && rs[|rs| - 1].kind == XpKind && OnceEach(rs, XpKind)
    ensures !Requested(rs[..|rs| - 1], u, rs[|rs| - 1].debate)
  {
    forall j | 0 <= j < |rs| - 1 ensures rs[..|rs| - 1][j] == rs[j] {}
  }

  lemma {:induction false} AlwaysBooksOf(pow: Power, rs: seq<Request>)
    requires InOrder(rs)
    ensures BooksOf(AllAnswered(pow, rs).0, rs)
  {
    if rs != [] {
      hide InOrder, BooksOf, Answered;
      var before, r := rs[..|rs| - 1], rs[|rs| - 1];
      assert rs == before + [r];
      InOrderBefore(rs);
      AlwaysBooksOf(pow, before);
      LastRequest(pow, before, AllAnswered(pow, before).0, r);
    }
  }

  lemma NoRequest(pow: Power)
    ensures AllAnswered(pow, []).1 && AllAffordable(pow, [])
  {
  }

  /** What one more request adds to both sides of the theorem. */
  lemma OneMoreRequest(pow: Power, before: seq<Request>, r: Request)
    ensures var rs, b := before + [r], AllAnswered(pow, before).0;
            && AllAnswered(pow, rs).1 == (AllAnswered(pow, before).1 && Answered(pow, b, |before|, r).1 == Settled)
            && AllAffordable(pow, rs) == (AllAffordable(pow, before) && (r.kind == EloKind ==> Affordable(pow, b, r)))
  {
    var rs := before + [r];
    assert rs[..|before|] == before && rs[|before|] == r;
    assert AllAnswered(pow, rs).1
           == (AllAnswered(pow, before).1 && Answered(pow, AllAnswered(pow, before).0, |before|, r).1 == Settled);
    hide Affordable, Answered, AllAnswered;
    forall i | 0 <= i < |before| ensures before[..i] == rs[..i] && before[i] == rs[i] {}
    if AllAffordable(pow, rs) {
      forall i | 0 <= i < |before| && before[i].kind == EloKind
        ensures Affordable(pow, AllAnswered(pow, before[..i]).0, before[i])
      {
        assert rs[i].kind == EloKind;
      }
    }
  }

  /**
   When every debate is XP-settled once and Elo-settled at most once after that for the same
   players, all requests go through if and only if no Elo request asks a player for more
   Elo than that player holds at that moment.
   */
  lemma {:induction false} AllGoThroughIffAffordable(pow: Power, rs: seq<Request>)
    requires InOrder(rs)
    ensures AllAnswered(pow, rs).1 <==> AllAffordable(pow, rs)
  {
    hide *;
    if rs == [] {
      NoRequest(pow);
    } else {
      var before, r := rs[..|rs| - 1], rs[|rs| - 1];
      assert rs == before + [r];
      InOrderBefore(rs);
      AllGoThroughIffAffordable(pow, before);
      AlwaysBooksOf(pow, before);
      LastAnswer(pow, before, AllAnswered(pow, before).0, r);
      OneMoreRequest(pow, before, r);
    }
  }

  /** So for such lists the books balance exactly under the same condition on the requests. */
  lemma AffordableBooksBalance(pow: Power, rs: seq<Request>, u: UserId)
    requires InOrder(rs) && AllAffordable(pow, rs)
    ensures var b := AllAnswered(pow, rs).0;
            && XpHeld(b.table, u) == Sum(b.rows, RowXp(u))
            && CurrentElo(b.table, u) == 1000 + Sum(b.rows, RowElo(u))
  {
    AllGoThroughIffAffordable(pow, rs);
    SerialBooksBalance(pow, rs, u);
  }

  /** And the two history rows of each debate mirror each other. */
  lemma AffordableRowsMirror(pow: Power, rs: seq<Request>, i: nat)
    requires InOrder(rs) && AllAffordable(pow, rs) && i < |rs| && rs[i].kind == XpKind
    ensures var rows := AllAnswered(pow, rs).0.rows;
            exists j, k :: 0 <= j < |rows| && 0 <= k < |rows| && Mirrored(rows[j], rows[k])
                           && rows[j].debate == rs[i].debate && rows[j].user == rs[i].f && rows[k].user == rs[i].a
  {
    AllGoThroughIffAffordable(pow, rs);
    SerialRowsMirror(pow, rs, i);
  }
}
