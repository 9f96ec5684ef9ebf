/**
 The classes of the profile and the ranking service, each method run to its end and
 proved against the serial model.
 */
module RankingServices {
  import opened Common
  import opened FinalScores
  import opened Elo
  import opened PlayerStats
  import opened Settlement
  import opened SettlementSerial
  import opened Leaderboards
  import opened LeaderboardCache

  /** insert ... on conflict do update set */
  function UpsertRow(table: seq<Stats>, s: Stats): seq<Stats> {
    var k := Index(table, s.user);
    if k < |table| then table[k := s] else table + [s]
  }

  class ProfileRepository {
    var table: seq<Stats>

    constructor ()
      ensures table == []
    {
      table := [];
    }

    method FindStatsByUserId(u: UserId) returns (s: Option<Stats>)
      ensures s.None? <==> forall i :: 0 <= i < |table| ==> table[i].user != u
      ensures s.Some? ==> Index(table, u) < |table| && s.value == table[Index(table, u)] && s.value.user == u
    {
      var k := Index(table, u);
      s := if k < |table| then Some(table[k]) else None;
    }

    /** Insert the row if it is missing, then increment it; a violated check leaves the inserted row behind. */
    method ApplyStatsDelta(u: UserId, xp: int, elo: int, r: Result) returns (ok: bool)
      modifies this
      ensures ok <==> Increment(InsertMissing(old(table), u), u, xp, elo, r).Some?
      ensures table == if ok then Increment(InsertMissing(old(table), u), u, xp, elo, r).value
                       else InsertMissing(old(table), u)
    {
      var k := Index(table, u);
      if k == |table| {
        table := table + [NewStats(u)];
      }
      var updated := Increment(table, u, xp, elo, r);
      ok := updated.Some?;
      if ok {
        table := updated.value;
      }
    }

    method UpsertStats(s: Stats)
      modifies this
      ensures table == UpsertRow(old(table), s)
    {
      var k := Index(table, s.user);
      if k < |table| {
        table := table[k := s];
      } else {
        table := table + [s];
      }
    }

    method ListTopStats(limit: nat) returns (top: seq<Stats>)
      ensures top == TopStats(table, limit)
      ensures UniqueUsers(table) ==> IsTop(table, limit, top)
    {
      top := TopStats(table, limit);
      if UniqueUsers(table) {
        TopStatsIsTop(table, limit);
      }
    }
  }

  class ProfileService {
    const repo: ProfileRepository

    constructor ()
      ensures fresh(repo) && repo.table == []
    {
      repo := new ProfileRepository();
    }

    /** A delta is applied as a whole or refused; a sound table stays sound. */
    method ApplyPlayerStatsDelta(u: UserId, xp: int, elo: int, r: Result) returns (ok: bool)
      modifies repo
      ensures (repo.table, ok) == ApplyDelta(old(repo.table), u, xp, elo, r)
      ensures TableOk(old(repo.table)) ==>
                TableOk(repo.table) && (ok <==> xp >= 0 && CurrentElo(old(repo.table), u) + elo >= 0)
    {
      if TableOk(repo.table) {
        ApplyDeltaSucceeds(repo.table, u, xp, elo, r);
      }
      if xp < 0 {
        return false;
      }
      var current := repo.FindStatsByUserId(u);
      var currentElo := if current.Some? then current.value.elo else 1000;
      if currentElo + elo < 0 {
        return false;
      }
      ok := repo.ApplyStatsDelta(u, xp, elo, r);
    }

    /** Refused exactly when a field is negative or the counts do not add up. */
    method UpsertPlayerStats(s: Stats) returns (ok: bool)
      modifies repo
      ensures ok <==> RowFits(s)
      ensures repo.table == if ok then UpsertRow(old(repo.table), s) else old(repo.table)
      ensures ok ==> var k, rows := Index(old(repo.table), s.user), old(repo.table);
                     && k < |repo.table| == (if k < |rows| then |rows| else |rows| + 1) && repo.table[k] == s
                     && forall i :: 0 <= i < |rows| && i != k ==> repo.table[i] == rows[i]
      ensures TableOk(old(repo.table)) ==> TableOk(repo.table)
    {
      if s.xp < 0 || s.elo < 0 || s.debates < 0 || s.wins < 0 || s.losses < 0 || s.draws < 0 {
        return false;
      }
      if s.debates != s.wins + s.losses + s.draws {
        return false;
      }
      repo.UpsertStats(s);
      return true;
    }
  }

  class RankingRepository {
    var rows: seq<Performance>

    constructor ()
      ensures rows == []
    {
      rows := [];
    }

    method RecordPerformance(id: nat, debate: string, leg: Leg) returns (ok: bool)
      modifies this
      ensures rows == InsertRowFor(old(rows), id, debate, leg)
      ensures ok <==> RowIndex(old(rows), leg.user, debate) == |old(rows)|
    {
      ok := RowIndex(rows, leg.user, debate) == |rows|;
      if ok {
        rows := rows + [RowFor(id, debate, leg)];
      }
    }

    method UpdatePerformanceEloDelta(u: UserId, debate: string, elo: int) returns (ok: bool)
      modifies this
      ensures rows == SetElo(old(rows), u, debate, elo)
      ensures ok <==> RowIndex(old(rows), u, debate) < |old(rows)|
    {
      var k := RowIndex(rows, u, debate);
      ok := k < |rows|;
      if ok {
        rows := rows[k := rows[k].(eloDelta := elo)];
      }
    }
  }

  class RankingService {
    const profile: ProfileService
    const repo: RankingRepository
    var redis: map<nat, Cached>

    ghost function State(): Books
      reads this, profile.repo, repo
    {
      Books(profile.repo.table, repo.rows)
    }

    constructor ()
      ensures fresh(profile) && fresh(profile.repo) && fresh(repo)
      ensures State() == Books([], []) && redis == map[]
    {
      profile := new ProfileService();
      repo := new RankingRepository();
      redis := map[];
    }

    /** Sends both requests; the second goes out whatever becomes of the first. */
    method PayPlayers(f: Leg, a: Leg) returns (ok: bool)
      modifies profile.repo
      ensures (profile.repo.table, ok) == PayBoth(old(profile.repo.table), f, a)
    {
      var forOk := profile.ApplyPlayerStatsDelta(f.user, f.xp, f.elo, f.result);
      var againstOk := profile.ApplyPlayerStatsDelta(a.user, a.xp, a.elo, a.result);
      ok := forOk && againstOk;
    }

    /** `score` is the scoring service's answer, `id` the identifier of the rows it inserts. */
    method ComputeXpForDebateClose(id: nat, score: Option<FinalRow>, debate: string, f: UserId, a: UserId)
      returns (answer: Answer)
      requires f != a
      modifies profile.repo, repo
      ensures (State(), answer) == SerialXp(old(State()), id, score, debate, f, a)
    {
      if score.None? {
        return FailedPrecondition;
      }
      var forLeg, againstLeg := XpLeg(f, FOR, score.value), XpLeg(a, AGAINST, score.value);
      var paid := PayPlayers(forLeg, againstLeg);
      if !paid {
        return InvalidArgument;
      }
      var forNew := repo.RecordPerformance(id, debate, forLeg);
      OtherKey(old(repo.rows), id, debate, forLeg, a);
      var againstNew := repo.RecordPerformance(id, debate, againstLeg);
      answer := if forNew && againstNew then Settled else AlreadyExists;
    }

    lemma OtherKey(rows: seq<Performance>, id: nat, debate: string, leg: Leg, u: UserId)
      requires leg.user != u
      ensures var rows' := InsertRowFor(rows, id, debate, leg);
              RowIndex(rows', u, debate) == |rows'| <==> RowIndex(rows, u, debate) == |rows|
    {
      var rows' := InsertRowFor(rows, id, debate, leg);
      var k, k' := RowIndex(rows, u, debate), RowIndex(rows', u, debate);
      assert k < |rows| ==> rows'[k] == rows[k];
      assert k' < |rows| ==> rows'[k'] == rows[k'];
    }

    method RecordEloDeltas(debate: string, f: UserId, forDelta: int, a: UserId, againstDelta: int) returns (ok: bool)
      requires f != a
      modifies repo
      ensures repo.rows == SetElo(SetElo(old(repo.rows), f, debate, forDelta), a, debate, againstDelta)
      ensures ok <==> RowIndex(old(repo.rows), f, debate) < |old(repo.rows)|
                      && RowIndex(old(repo.rows), a, debate) < |old(repo.rows)|
    {
      var k := RowIndex(repo.rows, f, debate);
      if k < |repo.rows| {
        RowIndexStays(repo.rows, k, forDelta, a, debate);
      }
      var forFound := repo.UpdatePerformanceEloDelta(f, debate, forDelta);
      var againstFound := repo.UpdatePerformanceEloDelta(a, debate, againstDelta);
      ok := forFound && againstFound;
    }

    method ComputeEloForDebateClose(pow: Power, score: Option<FinalRow>, debate: string, f: UserId, a: UserId)
      returns (answer: Answer)
      requires f != a
      modifies profile.repo, repo
      ensures (State(), answer) == SerialElo(pow, old(State()), score, debate, f, a)
    {
      hide SetElo, PayBoth;
      if score.None? {
        return FailedPrecondition;
      }
      var forStats := profile.repo.FindStatsByUserId(f);
      var againstStats := profile.repo.FindStatsByUserId(a);
      if forStats.None? || againstStats.None? {
        return FailedPrecondition;
      }
      var forResult := ResultForSide(score.value.winner, FOR);
      var forDelta := EloDelta(pow, forStats.value.elo, againstStats.value.elo, forResult);
      var againstDelta := if forDelta == 0 then 0 else -forDelta;
      var forLeg := XpLeg(f, FOR, score.value).(xp := 0, elo := forDelta);
      var againstLeg := XpLeg(a, AGAINST, score.value).(xp := 0, elo := againstDelta);
      var paid := PayPlayers(forLeg, againstLeg);
      if !paid {
        return InvalidArgument;
      }
      var found := RecordEloDeltas(debate, f, forDelta, a, againstDelta);
      answer := if found then Settled else FailedPrecondition;
    }

    /** `now` is the clock; either cache operation may fail. */
    method GetLeaderboard(request: Option<nat>, now: nat, readFails: bool, writeFails: bool) returns (board: seq<Entry>)
      modifies this`redis
      ensures var limit := LimitOf(request);
              var hit := if readFails then None else Lookup(old(redis), limit, now);
              && (hit.Some? ==> board == hit.value && redis == old(redis))
              && (hit.None? ==> board == Leaderboard(profile.repo.table, limit)
                                && redis == Store(old(redis), limit, board, now, writeFails))
              && (!writeFails && hit.None? ==> redis == old(redis)[limit := Cached(board, now + 30_000)])
    {
      var limit := LimitOf(request);
      var cached := if readFails then None else Lookup(redis, limit, now);
      if cached.Some? {
        return cached.value;
      }
      var top := profile.repo.ListTopStats(limit);
      board := [];
      for i := 0 to |top|
        invariant board == Leaderboard(profile.repo.table, limit)[..i]
      {
        var winrate := Winrate(top[i].wins, top[i].debates);
        board := board + [Entry(top[i], winrate, DeriveRankTierFromElo(top[i].elo), i + 1)];
      }
      if !writeFails {
        redis := redis[limit := Cached(board, now + TTL)];
      }
    }
  }
}
