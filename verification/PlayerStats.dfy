/** The player_stats table of the profile service, with one function for every statement on it. */
module PlayerStats {
  import opened Common
  import opened Sums
  import opened Elo

  type UserId = nat

  datatype Stats = Stats(user: UserId, xp: int, elo: int, debates: int, wins: int, losses: int, draws: int)

  function NewStats(u: UserId): Stats {
    Stats(u, 0, 1000, 0, 0, 0, 0)
  }

  /** The check constraints of the table. */
  predicate RowFits(s: Stats) {
    && s.xp >= 0 && s.elo >= 0 && s.debates >= 0 && s.wins >= 0 && s.losses >= 0 && s.draws >= 0
    && s.debates == s.wins + s.losses + s.draws
  }

  ghost predicate UniqueUsers(table: seq<Stats>) {
    forall i, j :: 0 <= i < j < |table| ==> table[i].user != table[j].user
  }

  ghost predicate TableOk(table: seq<Stats>) {
    UniqueUsers(table) && forall i :: 0 <= i < |table| ==> RowFits(table[i])
  }

  /** The position of a user's row, or |table|. */
  function Index(table: seq<Stats>, u: UserId): (k: nat)
    ensures k <= |table|
    ensures k < |table| ==> table[k].user == u
    ensures forall i :: 0 <= i < k ==> table[i].user != u
  {
    if table == [] then 0
    else if table[0].user == u then 0
    else 1 + Index(table[1..], u)
  }

  function CurrentElo(table: seq<Stats>, u: UserId): int {
    var k := Index(table, u);
    if k < |table| then table[k].elo else 1000
  }

  /** insert ... on conflict do nothing */
  function InsertMissing(table: seq<Stats>, u: UserId): seq<Stats> {
    if Index(table, u) < |table| then table else table + [NewStats(u)]
  }

  function Bumped(s: Stats, xp: int, elo: int, r: Result): Stats {
    s.(xp := s.xp + xp,
       elo := s.elo + elo,
       debates := s.debates + 1,
       wins := if r == WIN then s.wins + 1 else s.wins,
       losses := if r == LOSS then s.losses + 1 else s.losses,
       draws := if r == Result.DRAW then s.draws + 1 else s.draws)
  }

  /** update ... set xp = xp + ..., which fails on a missing row or a violated check. */
  function Increment(table: seq<Stats>, u: UserId, xp: int, elo: int, r: Result): Option<seq<Stats>> {
    var k := Index(table, u);
    if k == |table| || !RowFits(Bumped(table[k], xp, elo, r)) then None
    else Some(table[k := Bumped(table[k], xp, elo, r)])
  }

  /** The whole of applyPlayerStatsDelta when nothing overtakes it: the table after, and whether it succeeded. */
  function ApplyDelta(table: seq<Stats>, u: UserId, xp: int, elo: int, r: Result): (seq<Stats>, bool) {
    if xp < 0 || CurrentElo(table, u) + elo < 0 then (table, false)
    else
      var present := InsertMissing(table, u);
      match Increment(present, u, xp, elo, r)
      case None => (present, false)
      case Some(t) => (t, true)
  }

  lemma InsertMissingOk(table: seq<Stats>, u: UserId)
    requires TableOk(table)
    ensures TableOk(InsertMissing(table, u))
    ensures Index(InsertMissing(table, u), u) < |InsertMissing(table, u)|
  {
    var table' := InsertMissing(table, u);
    if Index(table, u) == |table| {
      assert table'[|table|].user == u;
    }
  }

  lemma IncrementOk(table: seq<Stats>, u: UserId, xp: int, elo: int, r: Result)
    requires TableOk(table) && Increment(table, u, xp, elo, r).Some?
    ensures TableOk(Increment(table, u, xp, elo, r).value)
  {
  }

  /** On a sound table only the guard on the final Elo, or a negative XP, refuses a delta. */
  lemma ApplyDeltaSucceeds(table: seq<Stats>, u: UserId, xp: int, elo: int, r: Result)
    requires TableOk(table)
    ensures ApplyDelta(table, u, xp, elo, r).1 <==> xp >= 0 && CurrentElo(table, u) + elo >= 0
    ensures ApplyDelta(table, u, xp, elo, r).1 || ApplyDelta(table, u, xp, elo, r).0 == table
    ensures TableOk(ApplyDelta(table, u, xp, elo, r).0)
  {
    InsertMissingOk(table, u);
    var present := InsertMissing(table, u);
    if xp >= 0 && CurrentElo(table, u) + elo >= 0 {
      var k := Index(present, u);
      assert present[k].elo == CurrentElo(table, u) by {
        if Index(table, u) == |table| {
          assert present[|table|] == NewStats(u);
          assert k == |table|;
        }
      }
      IncrementOk(present, u, xp, elo, r);
    }
  }

  /** The row of a user, or the one with 1000 Elo and nothing else that a first delta starts from. */
  function RowOr1000(table: seq<Stats>, u: UserId): Stats {
    var k := Index(table, u);
    if k < |table| then table[k] else Stats(u, 0, 1000, 0, 0, 0, 0)
  }

  /**
   What a successful delta leaves: XP and Elo moved by the amounts, one more debate and one more
   of the given result alone in the row of that user, and every other row as it was, in its place.
   */
  lemma WhatADeltaDoes(table: seq<Stats>, u: UserId, xp: int, elo: int, r: Result)
    requires ApplyDelta(table, u, xp, elo, r).1
    ensures var table', k, was := ApplyDelta(table, u, xp, elo, r).0, Index(table, u), RowOr1000(table, u);
            && |table'| == (if k < |table| then |table| else |table| + 1)
            && (forall i :: 0 <= i < |table'| && i != k ==> table'[i] == table[i])
            && table'[k].user == u
            && table'[k].xp == was.xp + xp && table'[k].elo == was.elo + elo && table'[k].debates == was.debates + 1
            && table'[k].wins == was.wins + (if r == WIN then 1 else 0)
            && table'[k].losses == was.losses + (if r == LOSS then 1 else 0)
            && table'[k].draws == was.draws + (if r == Result.DRAW then 1 else 0)
  {
    var k, present := Index(table, u), InsertMissing(table, u);
    if k == |table| {
      assert present[k].user == u && Index(present, u) == k;
    }
  }

  // ----- what a user's row contributes to a total

  function XpOf(u: UserId): Stats -> int {
    (s: Stats) => if s.user == u then s.xp else 0
  }

  function GamesOf(u: UserId): Stats -> int {
    (s: Stats) => if s.user == u then s.debates else 0
  }

  /** Elo above the 1000 that every row starts with. */
  function GainOf(u: UserId): Stats -> int {
    (s: Stats) => if s.user == u then s.elo - 1000 else 0
  }

  function Gain(): Stats -> int {
    (s: Stats) => s.elo - 1000
  }

  function EloIn(): Stats -> int {
    (s: Stats) => s.elo
  }

  /** With one row per user a total is what that row holds. */
  lemma {:induction false} TotalIsRow(table: seq<Stats>, k: nat)
    requires UniqueUsers(table) && k < |table|
    ensures Sum(table, XpOf(table[k].user)) == table[k].xp
    ensures Sum(table, GamesOf(table[k].user)) == table[k].debates
    ensures Sum(table, GainOf(table[k].user)) == table[k].elo - 1000
  {
    var n := |table| - 1;
    var u := table[k].user;
    var before := table[..n];
    if k < n {
      TotalIsRow(before, k);
    } else {
      SumZero(before, XpOf(u));
      SumZero(before, GamesOf(u));
      SumZero(before, GainOf(u));
    }
  }

  lemma {:induction false} TotalElo(table: seq<Stats>)
    ensures Sum(table, EloIn()) == 1000 * |table| + Sum(table, Gain())
  {
    if table != [] {
      TotalElo(table[..|table| - 1]);
    }
  }

  /** A user without a row has earned and played nothing. */
  lemma NoRowNoTotal(table: seq<Stats>, u: UserId)
    requires Index(table, u) == |table|
    ensures Sum(table, XpOf(u)) == Sum(table, GamesOf(u)) == Sum(table, GainOf(u)) == 0
  {
    SumZero(table, XpOf(u));
    SumZero(table, GamesOf(u));
    SumZero(table, GainOf(u));
  }
}
