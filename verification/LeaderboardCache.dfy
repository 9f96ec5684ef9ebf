/** Leaderboard requests against a cache with a time to live, while the player table changes. */
module LeaderboardCache {
  import opened Common
  import opened Machines
  import opened PlayerStats
  import opened Leaderboards

  /** 30 seconds, in milliseconds. */
  const TTL := 30_000

  datatype Cached = Cached(board: seq<Entry>, expires: nat)

  /**
   Where a request is suspended: before the cache read, the profile read and the cache write.
   `read` is the moment of the profile read, which an answer from the cache has not made.
   */
  datatype Call =
    | Asking(limit: nat)
    | Fetching(limit: nat)
    | Storing(limit: nat, board: seq<Entry>, fetched: nat)
    | Answered(limit: nat, board: seq<Entry>, at: nat, read: Option<nat>)
    | Failed

  datatype Machine = Machine(now: nat, table: seq<Stats>, cache: map<nat, Cached>, calls: seq<Call>)

  datatype Event =
    | Tick(ms: nat)
    /** Settlements and upserts have changed the table in some way. */
    | TableBecomes(table: seq<Stats>)
    | Ask(limit: Option<nat>)
    | ReadCache(call: nat, fails: bool)
    | ReadProfile(call: nat)
    /** The cache write ends, in error or not; the request is answered all the same. */
    | WriteCache(call: nat, fails: bool)
    | Fail(call: nat)

  function Init(table: seq<Stats>): Machine {
    Machine(0, table, map[], [])
  }

  function LimitOf(limit: Option<nat>): nat {
    match limit case None => 10 case Some(n) => n
  }

  /** A cache entry can be read until its time to live has passed. */
  function Lookup(cache: map<nat, Cached>, limit: nat, now: nat): Option<seq<Entry>> {
    if limit in cache && now < cache[limit].expires then Some(cache[limit].board) else None
  }

  function Store(cache: map<nat, Cached>, limit: nat, board: seq<Entry>, now: nat, fails: bool): map<nat, Cached> {
    if fails then cache else cache[limit := Cached(board, now + TTL)]
  }

  function Put(m: Machine, c: nat, call: Call): Machine
    requires c < |m.calls|
  {
    m.(calls := m.calls[c := call])
  }

  function Step(m: Machine, e: Event): Machine {
    match e
    case Tick(ms) => m.(now := m.now + ms)
    case TableBecomes(t) => m.(table := t)
    case Ask(limit) => m.(calls := m.calls + [Asking(LimitOf(limit))])
    case ReadCache(c, fails) =>
      if c < |m.calls| && m.calls[c].Asking? then
        var limit := m.calls[c].limit;
        var hit := if fails then None else Lookup(m.cache, limit, m.now);
        Put(m, c, if hit.Some? then Answered(limit, hit.value, m.now, None) else Fetching(limit))
      else m
    case ReadProfile(c) =>
      if c < |m.calls| && m.calls[c].Fetching? then
        Put(m, c, Storing(m.calls[c].limit, Leaderboard(m.table, m.calls[c].limit), m.now))
      else m
    case WriteCache(c, fails) =>
      if c < |m.calls| && m.calls[c].Storing? then
        var Storing(limit, board, fetched) := m.calls[c];
        Put(m.(cache := Store(m.cache, limit, board, m.now, fails)), c, Answered(limit, board, m.now, Some(fetched)))
      else m
    case Fail(c) =>
      if c < |m.calls| && !m.calls[c].Answered? then Put(m, c, Failed) else m
  }

  ghost function After(table: seq<Stats>, es: seq<Event>): Machine {
    Run(Step, Init(table), es)
  }

  // ----- what every run keeps

  /** At some moment of the run it was `time` and `board` was the fresh answer. */
  ghost predicate FreshAt(table: seq<Stats>, es: seq<Event>, limit: nat, board: seq<Entry>, time: nat) {
    exists k :: 0 <= k <= |es| && IsFresh(After(table, es[..k]), limit, board, time)
  }

  ghost predicate IsFresh(m: Machine, limit: nat, board: seq<Entry>, time: nat) {
    m.now == time && board == Leaderboard(m.table, limit)
  }

  /** Call `d` answered with a board it had read itself and then tried to store, at the time `at`. */
  predicate Stored(calls: seq<Call>, d: nat, limit: nat, board: seq<Entry>, at: nat) {
    d < |calls| && calls[d].Answered? && calls[d].read.Some?
    && calls[d].limit == limit && calls[d].board == board && calls[d].at == at
  }

  ghost predicate EntryOk(m: Machine, limit: nat, entry: Cached) {
    exists d: nat, at: nat :: Stored(m.calls, d, limit, entry.board, at) && at <= m.now && entry.expires == at + TTL
  }

  /** Somebody stored this board less than 30 seconds before `at`. */
  ghost predicate StoredBefore(calls: seq<Call>, limit: nat, board: seq<Entry>, at: nat) {
    exists d: nat, stored: nat :: Stored(calls, d, limit, board, stored) && stored <= at < stored + 30_000
  }

  ghost predicate CallOk(table: seq<Stats>, es: seq<Event>, m: Machine, call: Call) {
    match call
    case Storing(limit, board, fetched) => fetched <= m.now && FreshAt(table, es, limit, board, fetched)
    case Answered(limit, board, at, Some(read)) => read <= at && FreshAt(table, es, limit, board, read)
    case Answered(limit, board, at, None) => StoredBefore(m.calls, limit, board, at)
    case _ => true
  }

  ghost predicate Inv(table: seq<Stats>, es: seq<Event>) {
    var m := After(table, es);
    && (forall limit :: limit in m.cache ==> EntryOk(m, limit, m.cache[limit]))
    && (forall c :: 0 <= c < |m.calls| ==> CallOk(table, es, m, m.calls[c]))
  }

  /** Time does not run back and answers stay as they are. */
  ghost predicate Later(m: Machine, m': Machine) {
    m.now <= m'.now && |m.calls| <= |m'.calls|
    && forall c :: 0 <= c < |m.calls| && m.calls[c].Answered? ==> m'.calls[c] == m.calls[c]
  }

  lemma StepLater(m: Machine, e: Event)
    ensures Later(m, Step(m, e))
  {
  }

  lemma FreshLater(table: seq<Stats>, es: seq<Event>, e: Event, limit: nat, board: seq<Entry>, time: nat)
    requires FreshAt(table, es, limit, board, time)
    ensures FreshAt(table, es + [e], limit, board, time)
  {
    var k :| 0 <= k <= |es| && IsFresh(After(table, es[..k]), limit, board, time);
    assert (es + [e])[..k] == es[..k];
  }

  lemma CallLater(table: seq<Stats>, es: seq<Event>, e: Event, m: Machine, m': Machine, call: Call)
    requires CallOk(table, es, m, call) && Later(m, m')
    ensures CallOk(table, es + [e], m', call)
  {
    match call
    case Storing(limit, board, fetched) => FreshLater(table, es, e, limit, board, fetched);
    case Answered(limit, board, at, Some(read)) => FreshLater(table, es, e, limit, board, read);
    case Answered(limit, board, at, None) =>
      var d: nat, stored: nat :| Stored(m.calls, d, limit, board, stored) && stored <= at < stored + 30_000;
      assert Stored(m'.calls, d, limit, board, stored);
    case _ =>
  }

  lemma EntryLater(m: Machine, m': Machine, limit: nat, entry: Cached)
    requires EntryOk(m, limit, entry) && Later(m, m')
    ensures EntryOk(m', limit, entry)
  {
    var d: nat, at: nat :| Stored(m.calls, d, limit, entry.board, at) && at <= m.now && entry.expires == at + TTL;
    assert Stored(m'.calls, d, limit, entry.board, at);
  }

  /** The call that an event moves is right about its new place. */
  lemma MovedCallOk(table: seq<Stats>, es: seq<Event>, e: Event, c: nat)
    requires Inv(table, es)
    requires var m, m' := After(table, es), Step(After(table, es), e);
             c < |m'.calls| && (c >= |m.calls| || m'.calls[c] != m.calls[c])
    ensures CallOk(table, es + [e], Step(After(table, es), e), Step(After(table, es), e).calls[c])
  {
    var m, m' := After(table, es), Step(After(table, es), e);
    StepLater(m, e);
    if e.ReadCache? && m'.calls[c].Answered? {
      var entry := m.cache[m.calls[c].limit];
      var limit := m.calls[c].limit;
      var d: nat, at: nat :| Stored(m.calls, d, limit, entry.board, at) && at <= m.now && entry.expires == at + TTL;
      assert Stored(m'.calls, d, limit, entry.board, at);
    } else if e.ReadProfile? {
      assert (es + [e])[..|es|] == es;
      assert IsFresh(After(table, (es + [e])[..|es|]), m.calls[c].limit, m'.calls[c].board, m.now);
    } else if e.WriteCache? {
      assert CallOk(table, es, m, m.calls[c]);
      FreshLater(table, es, e, m.calls[c].limit, m.calls[c].board, m.calls[c].fetched);
    }
  }

  lemma EntriesKept(m: Machine, e: Event)
    requires forall limit :: limit in m.cache ==> EntryOk(m, limit, m.cache[limit])
    ensures forall limit :: limit in Step(m, e).cache ==> EntryOk(Step(m, e), limit, Step(m, e).cache[limit])
  {
    var m' := Step(m, e);
    StepLater(m, e);
    hide EntryOk, Leaderboard;
    forall limit | limit in m'.cache ensures EntryOk(m', limit, m'.cache[limit]) {
      if limit in m.cache && m'.cache[limit] == m.cache[limit] {
        EntryLater(m, m', limit, m.cache[limit]);
      } else {
        NewEntryOk(m, e, limit);
      }
    }
  }

  lemma NewEntryOk(m: Machine, e: Event, limit: nat)
    requires limit in Step(m, e).cache && (limit !in m.cache || Step(m, e).cache[limit] != m.cache[limit])
    ensures EntryOk(Step(m, e), limit, Step(m, e).cache[limit])
  {
    hide Leaderboard;
    var m' := Step(m, e);
    assert Stored(m'.calls, e.call, limit, m'.cache[limit].board, m.now);
  }

  lemma StepKeeps(table: seq<Stats>, es: seq<Event>, e: Event)
    requires Inv(table, es)
    ensures Inv(table, es + [e])
  {
    hide CallOk, EntryOk, Step, Later;
    RunSnoc(Step, Init(table), es, e);
    var m, m' := After(table, es), After(table, es + [e]);
    StepLater(m, e);
    EntriesKept(m, e);
    forall c | 0 <= c < |m'.calls| ensures CallOk(table, es + [e], m', m'.calls[c]) {
      if c < |m.calls| && m'.calls[c] == m.calls[c] {
        CallLater(table, es, e, m, m', m.calls[c]);
      } else {
        MovedCallOk(table, es, e, c);
      }
    }
  }

  lemma {:induction false} AlwaysInv(table: seq<Stats>, es: seq<Event>)
    ensures Inv(table, es)
  {
    if es != [] {
      AlwaysInv(table, es[..|es| - 1]);
      assert es == es[..|es| - 1] + [es[|es| - 1]];
      StepKeeps(table, es[..|es| - 1], es[|es| - 1]);
    }
  }

  // ----- how old an answer can be

  /**
   Whatever cache operations fail and however requests, time and table changes mix: each
   answer is the fresh leaderboard of its limit at the moment some request read the profile
   service, and that request stored it at most 30 seconds before the answer, less than 30
   seconds if the answer comes from the cache.
   */
  lemma AnswersWereStoredRecently(table: seq<Stats>, es: seq<Event>, c: nat)
    requires c < |After(table, es).calls| && After(table, es).calls[c].Answered?
    ensures var calls := After(table, es).calls;
            exists d :: 0 <= d < |calls| && calls[d].Answered? && calls[d].read.Some?
                        && calls[d].at <= calls[c].at <= calls[d].at + 30_000 && calls[d].read.value <= calls[d].at
                        && (calls[c].read.None? ==> calls[c].at < calls[d].at + 30_000)
                        && FreshAt(table, es, calls[c].limit, calls[c].board, calls[d].read.value)
  {
    AlwaysInv(table, es);
    var m := After(table, es);
    assert CallOk(table, es, m, m.calls[c]);
    if m.calls[c].read.None? {
      var answer := m.calls[c];
      var d: nat, stored: nat :| Stored(m.calls, d, answer.limit, answer.board, stored)
                                 && stored <= answer.at < stored + 30_000;
      assert CallOk(table, es, m, m.calls[d]);
    }
  }

  /** No request takes longer than `delay` from its profile read to the end of its cache write. */
  predicate WritesWithin(calls: seq<Call>, delay: nat) {
    forall d :: 0 <= d < |calls| && calls[d].Answered? && calls[d].read.Some?
                ==> calls[d].at <= calls[d].read.value + delay
  }

  /** So an answer is at most 30 seconds older than the slowest write takes; with writes at once, 30 seconds. */
  lemma AnswersAreAtMostThirtySecondsOld(table: seq<Stats>, es: seq<Event>, c: nat, delay: nat)
    requires c < |After(table, es).calls| && After(table, es).calls[c].Answered?
    requires WritesWithin(After(table, es).calls, delay)
    ensures var answer := After(table, es).calls[c];
            exists time: nat :: time <= answer.at <= time + 30_000 + delay
                                && FreshAt(table, es, answer.limit, answer.board, time)
  {
    AnswersWereStoredRecently(table, es, c);
    var calls := After(table, es).calls;
    var d :| 0 <= d < |calls| && calls[d].Answered? && calls[d].read.Some?
             && calls[d].at <= calls[c].at <= calls[d].at + 30_000 && calls[d].read.value <= calls[d].at
             && FreshAt(table, es, calls[c].limit, calls[c].board, calls[d].read.value);
    var time := calls[d].read.value;
    assert time <= calls[c].at <= time + 30_000 + delay;
  }

  // ----- when the cache answers

  /** A board and the moment at which it was stored. */
  datatype Storage = Storage(board: seq<Entry>, at: nat)

  /** The last cache write for this limit that did not fail, told from the events. */
  ghost function LastStorage(table: seq<Stats>, es: seq<Event>, limit: nat): Option<Storage> {
    if es == [] then None
    else
      var before, e := After(table, es[..|es| - 1]), es[|es| - 1];
      if e.WriteCache? && !e.fails && e.call < |before.calls| && before.calls[e.call].Storing?
         && before.calls[e.call].limit == limit
      then Some(Storage(before.calls[e.call].board, before.now))
      else LastStorage(table, es[..|es| - 1], limit)
  }

  lemma {:induction false} CacheIsLastStorage(table: seq<Stats>, es: seq<Event>, limit: nat)
    ensures var cache, last := After(table, es).cache, LastStorage(table, es, limit);
            if last.None? then limit !in cache
            else limit in cache && cache[limit] == Cached(last.value.board, last.value.at + 30_000)
  {
    if es != [] {
      CacheIsLastStorage(table, es[..|es| - 1], limit);
      var m := After(table, es[..|es| - 1]);
      assert After(table, es) == Step(m, es[|es| - 1]);
      hide Leaderboard, After;
    }
  }

  /**
   A request is answered from the cache if and only if its read does not fail and the last board
   stored for its limit was stored less than 30 seconds ago; it then gets that board. Otherwise it
   goes on to read the profile service.
   */
  lemma CacheAnswersIffStoredRecently(table: seq<Stats>, es: seq<Event>, c: nat, fails: bool)
    requires c < |After(table, es).calls| && After(table, es).calls[c].Asking?
    ensures var m, call' := After(table, es), After(table, es + [ReadCache(c, fails)]).calls[c];
            var limit, last := m.calls[c].limit, LastStorage(table, es, m.calls[c].limit);
            if !fails && last.Some? && m.now < last.value.at + 30_000
            then call' == Answered(limit, last.value.board, m.now, None)
            else call' == Fetching(limit)
  {
    CacheIsLastStorage(table, es, After(table, es).calls[c].limit);
    RunSnoc(Step, Init(table), es, ReadCache(c, fails));
    hide Run;
  }

  /** The limits that the requests of a run asked for, if they did. */
  function Limits(es: seq<Event>): seq<Option<nat>> {
    if es == [] then []
    else Limits(es[..|es| - 1]) + if es[|es| - 1].Ask? then [es[|es| - 1].limit] else []
  }

  /** Whatever a request has come to, it is about the limit it asked for, or about 10. */
  lemma {:induction false} RequestsKeepTheirLimit(table: seq<Stats>, es: seq<Event>)
    ensures |Limits(es)| == |After(table, es).calls|
    ensures forall c :: 0 <= c < |Limits(es)| && !After(table, es).calls[c].Failed?
                        ==> After(table, es).calls[c].limit == (if Limits(es)[c].Some? then Limits(es)[c].value else 10)
  {
    if es != [] {
      RequestsKeepTheirLimit(table, es[..|es| - 1]);
      assert After(table, es) == Step(After(table, es[..|es| - 1]), es[|es| - 1]);
      hide After, Leaderboard, Lookup, Store;
    }
  }
}
