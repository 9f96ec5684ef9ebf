/** The sorted query over player_stats and the leaderboard made of it. */
module Leaderboards {
  import opened Percentages
  import opened PlayerStats

  // ----- rank tiers

  datatype RankTier = BRONZE | SILVER | GOLD | PLATINUM | DIAMOND | MASTER

  function DeriveRankTierFromElo(elo: int): RankTier {
    if elo >= 2000 then MASTER
    else if elo >= 1800 then DIAMOND
    else if elo >= 1600 then PLATINUM
    else if elo >= 1400 then GOLD
    else if elo >= 1200 then SILVER
    else BRONZE
  }

  function TierRank(t: RankTier): nat {
    match t case BRONZE => 0 case SILVER => 1 case GOLD => 2 case PLATINUM => 3 case DIAMOND => 4 case MASTER => 5
  }

  /** Math.round((wins / debatesCount) * 100), which is the expression of a percentage of votes. */
  function Winrate(wins: int, debates: int): int {
    if debates <= 0 || wins < 0 then 0 else PercentageScore(wins, debates)
  }

  lemma WinrateInRange(s: Stats)
    requires RowFits(s)
    ensures InRange(Winrate(s.wins, s.debates))
  {
    hide PercentageScore;
    PercentageInRange(s.wins, s.debates);
  }

  /** The winrate is the exact half-up percentage of debates won, unless the share is one of the four. */
  lemma WinrateIsExactIff(s: Stats)
    requires RowFits(s) && 0 < s.debates < COUNT_LIMIT
    ensures Winrate(s.wins, s.debates) == ExactPercentage(s.wins, s.debates) <==> !RoundedDown(s.wins, s.debates)
  {
    hide PercentageScore, ExactPercentage;
    PercentageIsExactIff(s.wins, s.debates);
  }

  // ----- order by elo desc, xp desc, user_id asc

  predicate Before(a: Stats, b: Stats) {
    a.elo > b.elo || (a.elo == b.elo && (a.xp > b.xp || (a.xp == b.xp && a.user < b.user)))
  }

  predicate Ordered(rows: seq<Stats>) {
    forall i, j :: 0 <= i < j < |rows| ==> Before(rows[i], rows[j])
  }

  function InsertRow(s: Stats, sorted: seq<Stats>): seq<Stats> {
    if sorted == [] then [s]
    else if Before(s, sorted[0]) then [s] + sorted
    else [sorted[0]] + InsertRow(s, sorted[1..])
  }

  function SortRows(table: seq<Stats>): seq<Stats> {
    if table == [] then [] else InsertRow(table[|table| - 1], SortRows(table[..|table| - 1]))
  }

  function Min(a: nat, b: nat): nat {
    if a < b then a else b
  }

  /** ... order by ... limit */
  function TopStats(table: seq<Stats>, limit: nat): seq<Stats> {
    var sorted := SortRows(table);
    sorted[..Min(limit, |sorted|)]
  }

  lemma {:induction false} InsertRowRows(s: Stats, sorted: seq<Stats>)
    ensures multiset(InsertRow(s, sorted)) == multiset(sorted) + multiset{s}
  {
    if sorted != [] {
      InsertRowRows(s, sorted[1..]);
      assert sorted == [sorted[0]] + sorted[1..];
    }
  }

  /** Two lists with the same rows, each as often. */
  lemma SameRows(rows: seq<Stats>, table: seq<Stats>)
    requires multiset(rows) == multiset(table)
    ensures |rows| == |table| && forall s :: s in rows <==> s in table
  {
    assert |multiset(rows)| == |multiset(table)|;
    assert forall s :: s in rows <==> s in multiset(rows);
    assert forall s :: s in table <==> s in multiset(table);
  }

  lemma {:induction false} InsertRowKeeps(s: Stats, sorted: seq<Stats>)
    requires Ordered(sorted) && forall x :: x in sorted ==> x.user != s.user
    ensures Ordered(InsertRow(s, sorted))
  {
    if sorted != [] && !Before(s, sorted[0]) {
      var rest := sorted[1..];
      InsertRowKeeps(s, rest);
      InsertRowRows(s, rest);
      var inserted := InsertRow(s, rest);
      SameRows(inserted, rest + [s]);
      forall i | 0 <= i < |inserted| ensures Before(sorted[0], inserted[i]) {
        assert inserted[i] in rest + [s];
      }
    }
  }

  lemma {:induction false} SortRowsSorts(table: seq<Stats>)
    requires UniqueUsers(table)
    ensures Ordered(SortRows(table)) && multiset(SortRows(table)) == multiset(table)
  {
    hide InsertRow, Before;
    if table != [] {
      var n := |table| - 1;
      var before := table[..n];
      SortRowsSorts(before);
      SameRows(SortRows(before), before);
      forall x | x in before ensures x.user != table[n].user {
        var k :| 0 <= k < n && table[k] == x;
      }
      InsertRowKeeps(table[n], SortRows(before));
      InsertRowRows(table[n], SortRows(before));
      assert table == before + [table[n]];
    }
  }

  /**
   What "the best `limit` rows" means, without sorting: the right number of rows of the
   table, in strict order, and every other row comes after all of them.
   */
  ghost predicate IsTop(table: seq<Stats>, limit: nat, top: seq<Stats>) {
    && |top| == Min(limit, |table|)
    && Ordered(top)
    && (forall i :: 0 <= i < |top| ==> top[i] in table)
    && (forall s, i :: s in table && s !in top && 0 <= i < |top| ==> Before(top[i], s))
  }

  lemma TopStatsIsTop(table: seq<Stats>, limit: nat)
    requires UniqueUsers(table)
    ensures IsTop(table, limit, TopStats(table, limit))
  {
    SortRowsSorts(table);
    var sorted := SortRows(table);
    var top := TopStats(table, limit);
    SameRows(sorted, table);
    assert forall q :: 0 <= q < |top| ==> top[q] == sorted[q] && sorted[q] in top;
    forall s, i | s in table && s !in top && 0 <= i < |top| ensures Before(top[i], s) {
      var j :| 0 <= j < |sorted| && sorted[j] == s;
    }
  }

  /** Only one list is the best `limit` rows, so the order in which the table stores its rows does not matter. */
  lemma {:induction false} TopIsUnique(table: seq<Stats>, table': seq<Stats>, limit: nat, a: seq<Stats>, b: seq<Stats>)
    requires UniqueUsers(table) && |table'| == |table| && forall s :: s in table <==> s in table'
    requires IsTop(table, limit, a) && IsTop(table', limit, b)
    ensures a == b
  {
    SameUpTo(table, table', limit, a, b, |a|);
  }

  lemma {:induction false} SameUpTo(
      table: seq<Stats>, table': seq<Stats>, limit: nat, a: seq<Stats>, b: seq<Stats>, n: nat)
    requires UniqueUsers(table) && |table'| == |table| && forall s :: s in table <==> s in table'
    requires IsTop(table, limit, a) && IsTop(table', limit, b) && n <= |a|
    ensures a[..n] == b[..n]
  {
    if n > 0 {
      SameUpTo(table, table', limit, a, b, n - 1);
      FirstIsLeast(table', limit, b, a, n - 1);
      FirstIsLeast(table, limit, a, b, n - 1);
      assert a[n - 1] == b[n - 1] by { DifferentRowsCompare(table, a[n - 1], b[n - 1]); }
      assert a[..n] == a[..n - 1] + [a[n - 1]] && b[..n] == b[..n - 1] + [b[n - 1]];
    }
  }

  /** The n-th of the best rows does not come after the n-th row of another ordered list that agrees before it. */
  lemma FirstIsLeast(table: seq<Stats>, limit: nat, top: seq<Stats>, other: seq<Stats>, n: nat)
    requires IsTop(table, limit, top) && n < |top| && n < |other| && Ordered(other) && top[..n] == other[..n]
    requires other[n] in table
    ensures top[n] == other[n] || Before(top[n], other[n])
  {
  }

  lemma DifferentRowsCompare(table: seq<Stats>, a: Stats, b: Stats)
    requires UniqueUsers(table) && a in table && b in table
    ensures a == b || Before(a, b) || Before(b, a)
    ensures !(Before(a, b) && Before(b, a))
  {
  }

  // ----- the answer

  datatype Entry = Entry(stats: Stats, winrate: int, tier: RankTier, position: nat)

  /** The fresh leaderboard: the best rows with their positions from 1. */
  function Leaderboard(table: seq<Stats>, limit: nat): seq<Entry> {
    var top := TopStats(table, limit);
    seq(|top|, i requires 0 <= i < |top| =>
      Entry(top[i], Winrate(top[i].wins, top[i].debates), DeriveRankTierFromElo(top[i].elo), i + 1))
  }

  /** More Elo, or as much and more XP, or as much of both and the smaller id. */
  predicate RanksAbove(a: Stats, b: Stats) {
    a.elo >= b.elo && (a.elo == b.elo ==> a.xp >= b.xp && (a.xp == b.xp ==> a.user < b.user))
  }

  /** One tier up at 1200, 1400, 1600, 1800 and 2000 Elo. */
  predicate TierFits(tier: RankTier, elo: int) {
    forall n :: 1 <= n <= 5 ==> (TierRank(tier) >= n <==> elo >= 1000 + 200 * n)
  }

  /** The exact half-up percentage of debates won, one lower for the four shares, and 0 without debates. */
  predicate WinrateFits(winrate: int, s: Stats) {
    && 0 <= winrate <= 100
    && (s.debates == 0 ==> winrate == 0)
    && (s.wins >= 0 && 0 < s.debates < COUNT_LIMIT ==>
          winrate == ExactPercentage(s.wins, s.debates) - (if RoundedDown(s.wins, s.debates) then 1 else 0))
  }

  lemma EntryFits(s: Stats)
    requires RowFits(s)
    ensures TierFits(DeriveRankTierFromElo(s.elo), s.elo) && WinrateFits(Winrate(s.wins, s.debates), s)
  {
    WinrateInRange(s);
    if 0 < s.debates < COUNT_LIMIT {
      PercentageIsExactIff(s.wins, s.debates);
    }
    hide PercentageScore, ExactPercentage, RoundedDown;
  }

  /**
   The fresh leaderboard lists the best min(limit, players) players in strict order with
   positions 1..n, tiers by their Elo and winrates by their debates, omits only players that come
   after all of them, and is the beginning of every longer one.
   */
  lemma LeaderboardIsTop(table: seq<Stats>, limit: nat, longer: nat)
    requires TableOk(table) && limit <= longer
    ensures var board := Leaderboard(table, limit);
            && |board| == Min(limit, |table|)
            && (forall i :: 0 <= i < |board| ==>
                  board[i].position == i + 1 && board[i].stats in table
                  && TierFits(board[i].tier, board[i].stats.elo) && WinrateFits(board[i].winrate, board[i].stats))
            && (forall i, j :: 0 <= i < j < |board| ==> RanksAbove(board[i].stats, board[j].stats))
            && (forall s, i :: s in table && 0 <= i < |board| && (forall j :: 0 <= j < |board| ==> board[j].stats != s)
                               ==> RanksAbove(board[i].stats, s))
            && board <= Leaderboard(table, longer)
  {
    TopStatsIsTop(table, limit);
    var top, board := TopStats(table, limit), Leaderboard(table, limit);
    forall i | 0 <= i < |board|
      ensures TierFits(board[i].tier, board[i].stats.elo) && WinrateFits(board[i].winrate, board[i].stats)
    {
      assert top[i] in table;
      var k :| 0 <= k < |table| && table[k] == top[i];
      EntryFits(table[k]);
    }
    forall i, j | 0 <= i < j < |board| ensures RanksAbove(board[i].stats, board[j].stats) {
      assert Before(top[i], top[j]);
    }
    forall s, i | s in table && 0 <= i < |board| && (forall j :: 0 <= j < |board| ==> board[j].stats != s)
      ensures RanksAbove(board[i].stats, s)
    {
      assert forall j :: 0 <= j < |top| ==> top[j] == board[j].stats;
      assert s !in top;
    }
    assert TopStats(table, limit) <= TopStats(table, longer);
  }

  /** Two tables with the same rows, in whatever order, have the same leaderboard. */
  lemma LeaderboardIgnoresStorageOrder(table: seq<Stats>, table': seq<Stats>, limit: nat)
    requires UniqueUsers(table) && UniqueUsers(table') && |table'| == |table| && forall s :: s in table <==> s in table'
    ensures Leaderboard(table, limit) == Leaderboard(table', limit)
  {
    TopStatsIsTop(table, limit);
    TopStatsIsTop(table', limit);
    TopIsUnique(table, table', limit, TopStats(table, limit), TopStats(table', limit));
  }
}
