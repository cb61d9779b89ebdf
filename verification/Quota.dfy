/**
 Quota answers and their 30-second cache.
 */
module Quota {
  import opened Sequences

  type User = nat

  datatype Decision = Allow | Warn | Block
  datatype QuotaResult = QuotaResult(decision: Decision, usedBytes: int, limitBytes: int)
  datatype CacheEntry = CacheEntry(result: QuotaResult, at: int)

  datatype Usage = Usage(bytesIn: int, bytesOut: int)

  const CacheSeconds := 30
  const PruneAbove := 10000
  const PruneSeconds := 300

  /**
   A check: when it looks at the cache, when it stores its answer, the user's limit, and the month's
   rows, if the query succeeds. Times are in seconds.
   */
  datatype Call = Call(user: User, asked: int, stored: int, limit: int, rows: Option<seq<Usage>>)

  function Used(rows: seq<Usage>): int {
    if rows == [] then 0 else Used(rows[..|rows| - 1]) + rows[|rows| - 1].bytesIn + rows[|rows| - 1].bytesOut
  }

  function Decide(used: int, limit: int, warnPct: real): Decision {
    if used >= limit then Block
    else if used as real >= limit as real * warnPct then Warn
    else Allow
  }

  function Rank(d: Decision): nat {
    match d
    case Allow => 0
    case Warn => 1
    case Block => 2
  }

  predicate Fresh(cache: map<User, CacheEntry>, user: User, asked: int) {
    user in cache && asked - cache[user].at < CacheSeconds
  }

  /** What a check that asks the database answers. */
  function Computed(limit: int, rows: seq<Usage>, warnPct: real): QuotaResult {
    QuotaResult(Decide(Used(rows), limit, warnPct), Used(rows), limit)
  }

  function Pruned(cache: map<User, CacheEntry>, now: int): map<User, CacheEntry> {
    if |cache| > PruneAbove then map u | u in cache && cache[u].at >= now - PruneSeconds :: cache[u] else cache
  }

  /** The cache after a check has stored its answer. */
  function Stored(cache: map<User, CacheEntry>, user: User, result: QuotaResult, at: int): map<User, CacheEntry> {
    Pruned(cache[user := CacheEntry(result, at)], at)
  }

  function Answer(cache: map<User, CacheEntry>, call: Call, warnPct: real): QuotaResult {
    if Fresh(cache, call.user, call.asked) then cache[call.user].result
    else if call.rows.None? then QuotaResult(Allow, 0, call.limit)
    else Computed(call.limit, call.rows.value, warnPct)
  }

  function CacheAfter(cache: map<User, CacheEntry>, call: Call, warnPct: real): map<User, CacheEntry> {
    if Fresh(cache, call.user, call.asked) || call.rows.None? then cache
    else Stored(cache, call.user, Computed(call.limit, call.rows.value, warnPct), call.stored)
  }

  class QuotaService {
    const defaultLimit: int
    const warnThresholdPct: real
    var cache: map<User, CacheEntry>

    constructor (defaultLimit: int, warnThresholdPct: real)
      ensures this.defaultLimit == defaultLimit && this.warnThresholdPct == warnThresholdPct && cache == map[]
    {
      this.defaultLimit, this.warnThresholdPct, cache := defaultLimit, warnThresholdPct, map[];
    }

    method SumRows(rows: seq<Usage>) returns (used: int)
      ensures used == Used(rows)
    {
      used := 0;
      var i := 0;
      while i < |rows|
        invariant 0 <= i <= |rows| && used == Used(rows[..i])
      {
        assert rows[..i + 1][..i] == rows[..i];
        used := used + rows[i].bytesIn + rows[i].bytesOut;
        i := i + 1;
      }
      assert rows[..i] == rows;
    }

    /** Delete the entries older than five minutes, one by one. */
    method Prune(now: int)
      modifies this`cache
      ensures cache == map u | u in old(cache) && old(cache)[u].at >= now - PruneSeconds :: old(cache)[u]
    {
      ghost var before := cache;
      var todo := cache.Keys;
      while todo != {}
        invariant todo <= before.Keys
        invariant cache == map u | u in before && (u in todo || before[u].at >= now - PruneSeconds) :: before[u]
      {
        var u :| u in todo;
        if cache[u].at < now - PruneSeconds {
          cache := cache - {u};
        }
        todo := todo - {u};
      }
    }

    method CheckUser(call: Call) returns (result: QuotaResult)
      modifies this`cache
      ensures if defaultLimit <= 0 then result == QuotaResult(Allow, 0, 0) && cache == old(cache)
              else
                && result == Answer(old(cache), call, warnThresholdPct)
                && cache == CacheAfter(old(cache), call, warnThresholdPct)
    {
      if defaultLimit <= 0 {
        return QuotaResult(Allow, 0, 0);
      }
      if call.user in cache && call.asked - cache[call.user].at < CacheSeconds {
        return cache[call.user].result;
      }
      if call.rows.None? {
        return QuotaResult(Allow, 0, call.limit);
      }
      var used := SumRows(call.rows.value);
      var decision := Allow;
      if used as real >= call.limit as real * warnThresholdPct && used < call.limit {
        decision := Warn;
      }
      if used >= call.limit {
        decision := Block;
      }
      result := QuotaResult(decision, used, call.limit);
      cache := cache[call.user := CacheEntry(result, call.stored)];
      if |cache| > PruneAbove {
        Prune(call.stored);
      }
    }
  }

  // ---------- Overlapping checks ----------

  /**
   What a check does at one moment. It looks at the cache, which may answer it; if not, it queries the
   database, and a failed query answers it; if not, it stores its answer. Other checks come in between.
   */
  datatype Event =
    | Look(user: User, asked: int)
    | Query(look: nat, limit: int, rows: Option<seq<Usage>>)   // of the check that looked at event `look`
    | Store(query: nat, stored: int)                           // of the check that made event `query`

  /** A query follows its look, and a store its successful query. */
  predicate InOrder(log: seq<Event>) {
    forall n :: 0 <= n < |log| ==>
      && (log[n].Query? ==> log[n].look < n && log[log[n].look].Look?)
      && (log[n].Store? ==> log[n].query < n && log[log[n].query].Query? && log[log[n].query].rows.Some?)
  }

  function UserOf(log: seq<Event>, n: nat): User
    requires InOrder(log) && n < |log|
  {
    match log[n]
    case Look(user, _) => user
    case Query(look, _, _) => log[look].user
    case Store(query, _) => log[log[query].look].user
  }

  function Reading(log: seq<Event>, q: nat, warnPct: real): QuotaResult
    requires q < |log| && log[q].Query? && log[q].rows.Some?
  {
    Computed(log[q].limit, log[q].rows.value, warnPct)
  }

  function CacheAt(log: seq<Event>, warnPct: real, n: nat): map<User, CacheEntry>
    requires InOrder(log) && n <= |log|
  {
    if n == 0 then map[]
    else if log[n - 1].Store? then
      Stored(CacheAt(log, warnPct, n - 1), UserOf(log, n - 1), Reading(log, log[n - 1].query, warnPct), log[n - 1].stored)
    else CacheAt(log, warnPct, n - 1)
  }

  predicate FreshAt(log: seq<Event>, warnPct: real, n: nat)
    requires InOrder(log) && n < |log| && log[n].Look?
  {
    Fresh(CacheAt(log, warnPct, n), log[n].user, log[n].asked)
  }

  /** A log that checks can make: only a check that finds no fresh answer queries, and each event comes once. */
  ghost predicate IsLog(log: seq<Event>, warnPct: real) {
    && InOrder(log)
    && (forall n :: 0 <= n < |log| && log[n].Query? ==> !FreshAt(log, warnPct, log[n].look))
    && (forall m, n :: 0 <= m < n < |log| && log[m].Query? && log[n].Query? ==> log[m].look != log[n].look)
    && (forall m, n :: 0 <= m < n < |log| && log[m].Store? && log[n].Store? ==> log[m].query != log[n].query)
  }

  /** The event answers a check. */
  predicate Answers(log: seq<Event>, warnPct: real, n: nat)
    requires InOrder(log) && n < |log|
  {
    match log[n]
    case Look(_, _) => FreshAt(log, warnPct, n)
    case Query(_, _, rows) => rows.None?
    case Store(_, _) => true
  }

  function AnswerAt(log: seq<Event>, warnPct: real, n: nat): QuotaResult
    requires InOrder(log) && n < |log| && Answers(log, warnPct, n)
  {
    match log[n]
    case Look(user, _) => CacheAt(log, warnPct, n)[user].result
    case Query(_, limit, _) => QuotaResult(Allow, 0, limit)
    case Store(query, _) => Reading(log, query, warnPct)
  }

  // ---------- Where answers come from ----------

  /** The store that a user's cached answer comes from. */
  function Source(log: seq<Event>, warnPct: real, n: nat, user: User): (m: nat)
    requires InOrder(log) && n <= |log| && user in CacheAt(log, warnPct, n)
    ensures m < n && log[m].Store? && UserOf(log, m) == user
    ensures CacheAt(log, warnPct, n)[user] == CacheEntry(Reading(log, log[m].query, warnPct), log[m].stored)
  {
    if log[n - 1].Store? && UserOf(log, n - 1) == user then n - 1 else Source(log, warnPct, n - 1, user)
  }

  /** The answer has been computed: by its own check's query, or by that of the check it found in the cache. */
  predicate IsComputed(log: seq<Event>, warnPct: real, n: nat)
    requires InOrder(log)
  {
    n < |log| && Answers(log, warnPct, n) && !log[n].Query?
  }

  function StoreBehind(log: seq<Event>, warnPct: real, n: nat): (m: nat)
    requires InOrder(log) && IsComputed(log, warnPct, n)
    ensures m <= n && log[m].Store? && UserOf(log, m) == UserOf(log, n)
  {
    if log[n].Look? then Source(log, warnPct, n, log[n].user) else n
  }

  /** The query that a computed answer comes from. */
  function Origin(log: seq<Event>, warnPct: real, n: nat): (q: nat)
    requires InOrder(log) && IsComputed(log, warnPct, n)
    ensures q < |log| && log[q].Query? && log[q].rows.Some? && UserOf(log, q) == UserOf(log, n)
  {
    log[StoreBehind(log, warnPct, n)].query
  }

  /** The total behind a computed answer. */
  function TotalBehind(log: seq<Event>, warnPct: real, n: nat): int
    requires InOrder(log) && IsComputed(log, warnPct, n)
  {
    Used(log[Origin(log, warnPct, n)].rows.value)
  }

  /**
   Unless its query failed, a check is answered from what it, or another check of the user, read; the
   other one's answer was stored less than 30 s before.
   */
  lemma {:induction false} AnswersAreRecent(log: seq<Event>, warnPct: real, n: nat)
    requires InOrder(log) && IsComputed(log, warnPct, n)
    ensures AnswerAt(log, warnPct, n) == Reading(log, Origin(log, warnPct, n), warnPct)
    ensures var m := StoreBehind(log, warnPct, n);
            m == n || (m < n && log[n].Look? && log[n].asked - log[m].stored < CacheSeconds)
  {
    if log[n].Look? {
      var m := Source(log, warnPct, n, log[n].user);
    }
  }

  /** What is cached for a user is from the last store. */
  lemma {:induction false} SourceIsLast(log: seq<Event>, warnPct: real, n: nat, m: nat)
    requires InOrder(log) && m < n <= |log| && log[m].Store? && UserOf(log, m) in CacheAt(log, warnPct, n)
    ensures m <= Source(log, warnPct, n, UserOf(log, m))
    decreases n
  {
    if !(log[n - 1].Store? && UserOf(log, n - 1) == UserOf(log, m)) {
      SourceIsLast(log, warnPct, n - 1, m);
    }
  }

  /** Answers go back to stores in order. */
  lemma {:induction false} StoresBehindInOrder(log: seq<Event>, warnPct: real, i: nat, j: nat)
    requires InOrder(log) && i < j && IsComputed(log, warnPct, i) && IsComputed(log, warnPct, j)
    requires UserOf(log, i) == UserOf(log, j)
    ensures StoreBehind(log, warnPct, i) <= StoreBehind(log, warnPct, j)
  {
    if log[j].Look? {
      SourceIsLast(log, warnPct, j, StoreBehind(log, warnPct, i));
    }
  }

  /** The checks of a user store their answers in the order of their queries. */
  ghost predicate StoresInOrder(log: seq<Event>, user: User)
    requires InOrder(log)
  {
    forall m, n :: 0 <= m < n < |log| && log[m].Store? && log[n].Store? && UserOf(log, m) == UserOf(log, n) == user ==>
      log[m].query <= log[n].query
  }

  /** Later answers to a user never come from earlier queries. */
  ghost predicate OriginsInOrder(log: seq<Event>, warnPct: real, user: User)
    requires InOrder(log)
  {
    forall i, j :: 0 <= i < j < |log| && IsComputed(log, warnPct, i) && IsComputed(log, warnPct, j)
                   && UserOf(log, i) == UserOf(log, j) == user ==>
      Origin(log, warnPct, i) <= Origin(log, warnPct, j)
  }

  /**
   Answers to a user come from queries in order exactly when the user's checks store in the order of
   their queries: a slow check that stores an older reading takes the user back.
   */
  lemma {:induction false} OriginsInOrderIff(log: seq<Event>, warnPct: real, user: User)
    requires InOrder(log)
    ensures OriginsInOrder(log, warnPct, user) <==> StoresInOrder(log, user)
  {
    if StoresInOrder(log, user) {
      forall i, j | 0 <= i < j < |log| && IsComputed(log, warnPct, i) && IsComputed(log, warnPct, j)
                    && UserOf(log, i) == UserOf(log, j) == user
        ensures Origin(log, warnPct, i) <= Origin(log, warnPct, j)
      {
        StoresBehindInOrder(log, warnPct, i, j);
      }
    }
    if OriginsInOrder(log, warnPct, user) {
      forall m, n | 0 <= m < n < |log| && log[m].Store? && log[n].Store? && UserOf(log, m) == UserOf(log, n) == user
        ensures log[m].query <= log[n].query
      {
        assert IsComputed(log, warnPct, m) && IsComputed(log, warnPct, n);
        assert Origin(log, warnPct, m) <= Origin(log, warnPct, n);
      }
    }
  }

  // ---------- When a later answer is more permissive ----------

  /** From one total and limit to another, the total falls below the limit or the warning threshold. */
  predicate Falls(used: int, limit: int, used': int, limit': int, warnPct: real) {
    && used' < limit'
    && (used >= limit
        || (used' as real < limit' as real * warnPct && limit as real * warnPct <= used as real))
  }

  lemma {:induction false} RankFallsWith(used: int, limit: int, used': int, limit': int, warnPct: real)
    ensures Rank(Decide(used', limit', warnPct)) < Rank(Decide(used, limit, warnPct))
            <==> Falls(used, limit, used', limit', warnPct)
  {
  }

  /**
   However checks overlap, one answer to a user is more permissive than another exactly when its query
   failed and the other was a warning or a refusal; or when both were computed, and the total fell below
   a threshold between the two queries that they come from.
   */
  lemma {:induction false} RankFallsIff(log: seq<Event>, warnPct: real, i: nat, j: nat)
    requires InOrder(log) && i < |log| && j < |log| && UserOf(log, i) == UserOf(log, j)
    requires Answers(log, warnPct, i) && Answers(log, warnPct, j)
    ensures Rank(AnswerAt(log, warnPct, j).decision) < Rank(AnswerAt(log, warnPct, i).decision)
            <==> if log[j].Query? then AnswerAt(log, warnPct, i).decision != Allow
                 else
                   && !log[i].Query?
                   && var a, b := log[Origin(log, warnPct, i)], log[Origin(log, warnPct, j)];
                      Falls(Used(a.rows.value), a.limit, Used(b.rows.value), b.limit, warnPct)
  {
    if !log[i].Query? && !log[j].Query? {
      AnswersAreRecent(log, warnPct, i);
      AnswersAreRecent(log, warnPct, j);
      var a, b := log[Origin(log, warnPct, i)], log[Origin(log, warnPct, j)];
      RankFallsWith(Used(a.rows.value), a.limit, Used(b.rows.value), b.limit, warnPct);
    }
  }

  /** No query of the user reads less than an earlier one did, and the limit stays. */
  ghost predicate UsageGrows(log: seq<Event>, user: User)
    requires InOrder(log)
  {
    forall a, b :: 0 <= a < b < |log| && log[a].Query? && log[b].Query? && UserOf(log, a) == UserOf(log, b) == user
                   && log[a].rows.Some? && log[b].rows.Some? ==>
      log[a].limit == log[b].limit && Used(log[a].rows.value) <= Used(log[b].rows.value)
  }

  /**
   As long as usage grows and the user's checks store in the order of their queries, totals and ranks
   never fall between two computed answers. Usage grows within a month unless flushes overlap.
   */
  lemma {:induction false} NeverMorePermissive(log: seq<Event>, warnPct: real, i: nat, j: nat)
    requires InOrder(log) && i < j && IsComputed(log, warnPct, i) && IsComputed(log, warnPct, j)
    requires UserOf(log, i) == UserOf(log, j)
    requires UsageGrows(log, UserOf(log, i)) && StoresInOrder(log, UserOf(log, i))
    ensures AnswerAt(log, warnPct, i).usedBytes <= AnswerAt(log, warnPct, j).usedBytes
    ensures Rank(AnswerAt(log, warnPct, i).decision) <= Rank(AnswerAt(log, warnPct, j).decision)
  {
    AnswersAreRecent(log, warnPct, i);
    AnswersAreRecent(log, warnPct, j);
    OriginsInOrderIff(log, warnPct, UserOf(log, i));
    var a, b := log[Origin(log, warnPct, i)], log[Origin(log, warnPct, j)];
    assert a.limit == b.limit && Used(a.rows.value) <= Used(b.rows.value);
    DecideMonotone(Used(a.rows.value), Used(b.rows.value), a.limit, warnPct);
  }

  lemma {:induction false} DecideMonotone(used: int, more: int, limit: int, warnPct: real)
    requires used <= more
    ensures Rank(Decide(used, limit, warnPct)) <= Rank(Decide(more, limit, warnPct))
  {
  }

  // ---------- A check by itself ----------

  /** The events of a check that no other comes between, after `n` events. */
  function EventsOf(cache: map<User, CacheEntry>, call: Call, n: nat): seq<Event> {
    [Look(call.user, call.asked)]
    + (if Fresh(cache, call.user, call.asked) then []
       else [Query(n, call.limit, call.rows)] + if call.rows.None? then [] else [Store(n + 1, call.stored)])
  }

  lemma {:induction false} CacheOfPrefix(log: seq<Event>, more: seq<Event>, warnPct: real, n: nat)
    requires InOrder(log) && InOrder(log + more) && n <= |log|
    ensures CacheAt(log + more, warnPct, n) == CacheAt(log, warnPct, n)
  {
    if n > 0 {
      CacheOfPrefix(log, more, warnPct, n - 1);
      assert (log + more)[n - 1] == log[n - 1];
      if log[n - 1].Store? {
        var q := log[n - 1].query;
        assert (log + more)[q] == log[q] && (log + more)[log[q].look] == log[log[q].look];
      }
    }
  }

  lemma {:induction false} EventsInOrder(log: seq<Event>, call: Call, cache: map<User, CacheEntry>)
    requires InOrder(log)
    ensures InOrder(log + EventsOf(cache, call, |log|))
  {
    var whole := log + EventsOf(cache, call, |log|);
    forall n | 0 <= n < |whole| && (whole[n].Query? || whole[n].Store?)
      ensures whole[n].Query? ==> whole[n].look < n && whole[whole[n].look].Look?
      ensures whole[n].Store? ==>
                whole[n].query < n && whole[whole[n].query].Query? && whole[whole[n].query].rows.Some?
    {
      assert n < |log| ==> whole[n] == log[n];
    }
  }

  /** A check by itself answers, and leaves the cache, as `CheckUser` does. */
  lemma {:induction false} CallIsItsEvents(log: seq<Event>, call: Call, warnPct: real)
    requires InOrder(log)
    ensures var cache := CacheAt(log, warnPct, |log|);
            var whole := log + EventsOf(cache, call, |log|);
            && InOrder(whole)
            && CacheAt(whole, warnPct, |whole|) == CacheAfter(cache, call, warnPct)
            && Answers(whole, warnPct, |whole| - 1)
            && AnswerAt(whole, warnPct, |whole| - 1) == Answer(cache, call, warnPct)
  {
    var cache, k := CacheAt(log, warnPct, |log|), |log|;
    var events := EventsOf(cache, call, k);
    var whole := log + events;
    EventsInOrder(log, call, cache);
    CacheOfPrefix(log, events, warnPct, k);
    assert whole[k] == events[0] && CacheAt(whole, warnPct, k + 1) == cache;
    if |events| > 1 {
      assert whole[k + 1] == events[1] && CacheAt(whole, warnPct, k + 2) == cache;
    }
    if |events| > 2 {
      assert whole[k + 2] == events[2];
    }
  }

  // ---------- Runs in which a blocked user is let through ----------

  lemma {:induction false} OneRow(used: int)
    ensures Used([Usage(used, 0)]) == used
  {
    assert [Usage(used, 0)][..0] == [];
  }

  lemma {:induction false} OneEntry(user: User, result: QuotaResult, at: int)
    ensures Stored(map[], user, result, at) == map[user := CacheEntry(result, at)]
  {
    var cache := map[][user := CacheEntry(result, at)];
    assert cache == map[user := CacheEntry(result, at)];
    assert cache.Keys == {user} && |cache| == |cache.Keys| == 1;
  }

  /** A failed query lets through, once, a user that was blocked. */
  lemma {:induction false} FailedQueryAllows(user: User, limit: int, warnPct: real)
    requires limit > 0
    ensures var log := [Look(user, 0), Query(0, limit, Some([Usage(limit, 0)])), Store(1, 0),
                        Look(user, 30), Query(3, limit, None)];
            && IsLog(log, warnPct)
            && AnswerAt(log, warnPct, 2).decision == Block && AnswerAt(log, warnPct, 4).decision == Allow
  {
    var log := [Look(user, 0), Query(0, limit, Some([Usage(limit, 0)])), Store(1, 0),
                Look(user, 30), Query(3, limit, None)];
    OneRow(limit);
    assert CacheAt(log, warnPct, 0) == map[] && CacheAt(log, warnPct, 1) == map[];
    assert CacheAt(log, warnPct, 2) == map[];
    OneEntry(user, Reading(log, 1, warnPct), 0);
    assert CacheAt(log, warnPct, 3) == map[user := CacheEntry(Reading(log, 1, warnPct), 0)];
    assert !FreshAt(log, warnPct, 0) && !FreshAt(log, warnPct, 3);
  }

  /** Two checks overlap; the one that queried first, before the user went over the limit, stores last. */
  function SlowCheck(user: User, limit: int, used: int, used': int): seq<Event> {
    [Look(user, 0), Look(user, 0), Query(0, limit, Some([Usage(used, 0)])), Query(1, limit, Some([Usage(used', 0)])),
     Store(3, 0), Store(2, 0), Look(user, 29)]
  }

  /**
   Without a failed query and with usage that grows, a slow check can let a blocked user through, also in
   the answers from the cache that follow.
   */
  lemma {:induction false} SlowCheckAllows(user: User, limit: int, used: int, used': int, warnPct: real)
    requires used < limit <= used' && used as real < limit as real * warnPct
    ensures var log := SlowCheck(user, limit, used, used');
            && IsLog(log, warnPct) && UsageGrows(log, user)
            && AnswerAt(log, warnPct, 4).decision == Block && AnswerAt(log, warnPct, 5).decision == Allow
            && Answers(log, warnPct, 6) && AnswerAt(log, warnPct, 6).decision == Allow
  {
    var log := SlowCheck(user, limit, used, used');
    SlowCheckIsLog(user, limit, used, used', warnPct);
    SlowCheckReads(user, limit, used, used', warnPct);
    SlowCheckCaches(user, limit, used, used', warnPct);
    assert AnswerAt(log, warnPct, 4) == Reading(log, 3, warnPct);
    assert AnswerAt(log, warnPct, 5) == Reading(log, 2, warnPct) == AnswerAt(log, warnPct, 6);
  }

  lemma {:induction false} SlowCheckIsLog(user: User, limit: int, used: int, used': int, warnPct: real)
    requires used <= used'
    ensures var log := SlowCheck(user, limit, used, used'); IsLog(log, warnPct) && UsageGrows(log, user)
  {
    OneRow(used);
    OneRow(used');
    SlowCheckCaches(user, limit, used, used', warnPct);
  }

  lemma {:induction false} SlowCheckReads(user: User, limit: int, used: int, used': int, warnPct: real)
    requires used < limit <= used' && used as real < limit as real * warnPct
    ensures var log := SlowCheck(user, limit, used, used');
            Reading(log, 3, warnPct).decision == Block && Reading(log, 2, warnPct).decision == Allow
  {
    OneRow(used);
    OneRow(used');
  }

  lemma {:induction false} SlowCheckCaches(user: User, limit: int, used: int, used': int, warnPct: real)
    ensures var log := SlowCheck(user, limit, used, used');
            && InOrder(log)
            && (forall n :: 0 <= n <= 4 ==> CacheAt(log, warnPct, n) == map[])
            && CacheAt(log, warnPct, 6) == map[user := CacheEntry(Reading(log, 2, warnPct), 0)]
  {
    var log := SlowCheck(user, limit, used, used');
    var block, allow := Reading(log, 3, warnPct), Reading(log, 2, warnPct);
    assert CacheAt(log, warnPct, 0) == map[] && CacheAt(log, warnPct, 1) == map[];
    assert CacheAt(log, warnPct, 2) == map[] && CacheAt(log, warnPct, 3) == map[] && CacheAt(log, warnPct, 4) == map[];
    OneEntry(user, block, 0);
    OneEntry(user, allow, 0);
    assert CacheAt(log, warnPct, 5) == map[user := CacheEntry(block, 0)];
    assert map[user := CacheEntry(block, 0)][user := CacheEntry(allow, 0)] == map[][user := CacheEntry(allow, 0)];
  }
}
