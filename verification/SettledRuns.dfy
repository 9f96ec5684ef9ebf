/** Settlements one after the other that all go through: the books balance. */
module SettledRuns {
  import opened Common
  import opened Machines
  import opened Sums
  import opened FinalScores
  import opened Elo
  import opened PlayerStats
  import opened Settlement
  import opened SettlementProofs
  import opened SettlementSerial
  import opened SettledBooks

  /** One request to the ranking service; `score` is the final score it finds. */
  datatype Request = Request(kind: Kind, debate: string, score: FinalRow, f: UserId, a: UserId)

  ghost predicate ValidRequests(rs: seq<Request>) {
    forall i :: 0 <= i < |rs| ==> RowOk(rs[i].score) && rs[i].f != rs[i].a
  }

  function Answered(pow: Power, b: Books, n: nat, r: Request): (Books, Answer) {
    match r.kind
    case XpKind => SerialXp(b, n, Some(r.score), r.debate, r.f, r.a)
    case EloKind => SerialElo(pow, b, Some(r.score), r.debate, r.f, r.a)
  }

  /** The books after all requests, and whether every one of them went through. */
  function AllAnswered(pow: Power, rs: seq<Request>): (Books, bool) {
    if rs == [] then (Books([], []), true)
    else
      var (b, ok) := AllAnswered(pow, rs[..|rs| - 1]);
      var (b', answer) := Answered(pow, b, |rs| - 1, rs[|rs| - 1]);
      (b', ok && answer == Settled)
  }

  /** No debate is the subject of two requests of this kind. */
  ghost predicate OnceEach(rs: seq<Request>, kind: Kind) {
    forall i, j :: 0 <= i < j < |rs| && rs[i].kind == kind && rs[j].kind == kind ==> rs[i].debate != rs[j].debate
  }

  ghost predicate CompleteAll(calls: seq<Call>, rs: seq<Request>) {
    |calls| == |rs| && forall i :: 0 <= i < |rs| ==> Complete(calls[i], rs[i].kind, rs[i].debate, rs[i].f, rs[i].a)
  }

  lemma OneRequestIsARun(start: Machine, m: Machine, r: Request) returns (m': Machine)
    requires Leads(Step, start, m) && ScoresOk(m.scores) && RowOk(r.score) && r.f != r.a
    ensures var (b, answer) := Answered(m.pow, Books(m.table, m.rows), |m.calls|, r);
            && Leads(Step, start, m') && m'.table == b.table && m'.rows == b.rows
            && ScoresOk(m'.scores) && m'.pow == m.pow && |m'.calls| == |m.calls| + 1
            && (answer == Settled ==> m'.calls[..|m.calls|] == m.calls
                                      && Complete(m'.calls[|m.calls|], r.kind, r.debate, r.f, r.a))
  {
    hide Leads, SerialXp, SerialElo, RowOk;
    var m0 := Follows(Step, start, m, PutScore(r.debate, r.score));
    match r.kind
    case XpKind => m' := XpIsARun(m0, r.debate, r.f, r.a); LeadsTransitive(Step, start, m0, m');
    case EloKind => m' := EloIsARun(m0, r.debate, r.f, r.a); LeadsTransitive(Step, start, m0, m');
  }

  lemma {:induction false} RequestsAreARun(pow: Power, rs: seq<Request>) returns (m: Machine)
    requires ValidRequests(rs) && AllAnswered(pow, rs).1
    ensures Leads(Step, Init(pow), m) && m.pow == pow && ScoresOk(m.scores)
    ensures Books(m.table, m.rows) == AllAnswered(pow, rs).0
    ensures CompleteAll(m.calls, rs)
  {
    hide Leads, Answered, Complete;
    if rs == [] {
      m := Init(pow);
      Starts(Step, m);
    } else {
      var n := |rs| - 1;
      var m0 := RequestsAreARun(pow, rs[..n]);
      m := OneRequestIsARun(Init(pow), m0, rs[n]);
      forall i | 0 <= i < |rs| ensures Complete(m.calls[i], rs[i].kind, rs[i].debate, rs[i].f, rs[i].a) {
        if i < n {
          assert m.calls[i] == m.calls[..n][i] && rs[i] == rs[..n][i];
        }
      }
    }
  }

  /**
   When requests come one after the other, all go through, and no debate is Elo-settled
   twice, every player's XP is the sum of xp_delta and their Elo 1000 plus the sum of
   elo_delta over their history rows.
   */
  lemma SerialBooksBalance(pow: Power, rs: seq<Request>, u: UserId)
    requires ValidRequests(rs) && AllAnswered(pow, rs).1 && OnceEach(rs, EloKind)
    ensures var b := AllAnswered(pow, rs).0;
            && XpHeld(b.table, u) == Sum(b.rows, RowXp(u))
            && CurrentElo(b.table, u) == 1000 + Sum(b.rows, RowElo(u))
  {
    var m := RequestsAreARun(pow, rs);
    var es :| Run(Step, Init(pow), es) == m;
    hide Complete, Run;
    CompleteRun(m.calls, rs);
    OnceInCalls(m.calls, rs, EloKind);
    BooksBalance(pow, es, u);
  }

  lemma CompleteRun(calls: seq<Call>, rs: seq<Request>)
    requires CompleteAll(calls, rs)
    ensures AllComplete(calls)
  {
  }

  lemma OnceInCalls(calls: seq<Call>, rs: seq<Request>, kind: Kind)
    requires CompleteAll(calls, rs) && OnceEach(rs, kind)
    ensures OncePerDebate(calls, kind)
  {
  }

  /** And if no debate is XP-settled twice either, its two history rows mirror each other. */
  lemma SerialRowsMirror(pow: Power, rs: seq<Request>, i: nat)
    requires ValidRequests(rs) && AllAnswered(pow, rs).1 && OnceEach(rs, EloKind) && OnceEach(rs, XpKind)
    requires i < |rs| && rs[i].kind == XpKind
    ensures var rows := AllAnswered(pow, rs).0.rows;
            exists j, k :: 0 <= j < |rows| && 0 <= k < |rows| && Mirrored(rows[j], rows[k])
                           && rows[j].debate == rs[i].debate && rows[j].user == rs[i].f && rows[k].user == rs[i].a
  {
    var m := RequestsAreARun(pow, rs);
    var es :| Run(Step, Init(pow), es) == m;
    hide Run;
    CompleteRun(m.calls, rs);
    OnceInCalls(m.calls, rs, EloKind);
    OnceInCalls(m.calls, rs, XpKind);
    assert Complete(m.calls[i], XpKind, rs[i].debate, rs[i].f, rs[i].a);
    HistoryRowsMirror(pow, es, i);
  }
}
