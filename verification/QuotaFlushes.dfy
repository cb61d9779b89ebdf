/**
 Quota checks of a user while flushes write the rows they read: a month is the user's rows of the usage
 table, each under its own transactions, and bytes in and out of a row are counted together.
 */
module QuotaFlushes {
  import opened Sequences
  import opened Quota
  import T = UsageTransactions

  /** What a query of the month adds up to; a row that is not there yet counts nothing. */
  function MonthTotal(month: seq<T.Row>): int {
    if month == [] then 0 else T.Amount(month[0].value) + MonthTotal(month[1..])
  }

  /** The row has come from one state to the other, and has been an empty or a given row at first. */
  ghost predicate RowRuns(start: T.Row, before: T.Row, after: T.Row) {
    && T.Start(start)
    && (exists steps :: T.IsRun(start, steps, before))
    && (exists steps :: T.IsRun(before, steps, after))
  }

  /** Flushes have taken the month from one state to the other, row by row in any order. */
  ghost predicate MonthRuns(start: seq<T.Row>, before: seq<T.Row>, after: seq<T.Row>) {
    && |start| == |before| == |after|
    && forall k :: 0 <= k < |start| ==> RowRuns(start[k], before[k], after[k])
  }

  /** No two committed transactions on a row overlapped, and none counted anything negative. */
  ghost predicate SerialMonth(month: seq<T.Row>) {
    forall k :: 0 <= k < |month| ==> T.Serial(month[k].commits) && T.NonNegative(month[k].commits)
  }

  lemma {:induction false} SerialMonthNeverFalls(start: seq<T.Row>, before: seq<T.Row>, after: seq<T.Row>)
    requires MonthRuns(start, before, after) && SerialMonth(after)
    ensures MonthTotal(before) <= MonthTotal(after)
    decreases |start|
  {
    if start != [] {
      assert RowRuns(start[0], before[0], after[0]);
      var steps :| T.IsRun(start[0], steps, before[0]);
      var more :| T.IsRun(before[0], more, after[0]);
      T.SerialRowNeverFalls(start[0], steps, before[0], more, after[0]);
      forall k | 0 <= k < |start[1..]|
        ensures RowRuns(start[1..][k], before[1..][k], after[1..][k])
      {
        assert RowRuns(start[k + 1], before[k + 1], after[k + 1]);
      }
      SerialMonthNeverFalls(start[1..], before[1..], after[1..]);
    }
  }

  /**
   While flushes of a month do not overlap on a row, an answer is no more permissive than one that comes
   from an earlier query: the two queries have read the month before and after.
   */
  lemma {:induction false} SerialFlushesKeepRank(log: seq<Event>, warnPct: real, i: nat, j: nat,
                                                 start: seq<T.Row>, before: seq<T.Row>, after: seq<T.Row>)
    requires InOrder(log) && IsComputed(log, warnPct, i) && IsComputed(log, warnPct, j)
    requires UserOf(log, i) == UserOf(log, j)
    requires log[Origin(log, warnPct, i)].limit == log[Origin(log, warnPct, j)].limit
    requires MonthRuns(start, before, after) && SerialMonth(after)
    requires TotalBehind(log, warnPct, i) == MonthTotal(before)
    requires TotalBehind(log, warnPct, j) == MonthTotal(after)
    ensures Rank(AnswerAt(log, warnPct, i).decision) <= Rank(AnswerAt(log, warnPct, j).decision)
  {
    SerialMonthNeverFalls(start, before, after);
    AnswersAreRecent(log, warnPct, i);
    AnswersAreRecent(log, warnPct, j);
    DecideMonotone(MonthTotal(before), MonthTotal(after), log[Origin(log, warnPct, i)].limit, warnPct);
  }

  /** Two checks of a user, 30 s apart, each of which reads one row. */
  function TwoChecks(user: User, limit: int, used: int, used': int): seq<Event> {
    [Look(user, 0), Query(0, limit, Some([Usage(used, 0)])), Store(1, 0),
     Look(user, 30), Query(3, limit, Some([Usage(used', 0)])), Store(4, 30)]
  }

  lemma {:induction false} TwoAnswers(user: User, limit: int, used: int, used': int, warnPct: real)
    ensures var log := TwoChecks(user, limit, used, used');
            && IsLog(log, warnPct)
            && AnswerAt(log, warnPct, 2) == QuotaResult(Decide(used, limit, warnPct), used, limit)
            && AnswerAt(log, warnPct, 5) == QuotaResult(Decide(used', limit, warnPct), used', limit)
  {
    var log := TwoChecks(user, limit, used, used');
    OneRow(used);
    OneRow(used');
    TwoCaches(user, limit, used, used', warnPct);
    assert log[2].query == 1 && log[5].query == 4;
  }

  lemma {:induction false} TwoCaches(user: User, limit: int, used: int, used': int, warnPct: real)
    ensures var log := TwoChecks(user, limit, used, used');
            && InOrder(log)
            && CacheAt(log, warnPct, 0) == map[]
            && CacheAt(log, warnPct, 3) == map[user := CacheEntry(Reading(log, 1, warnPct), 0)]
  {
    var log := TwoChecks(user, limit, used, used');
    assert CacheAt(log, warnPct, 0) == map[] && CacheAt(log, warnPct, 1) == map[] && CacheAt(log, warnPct, 2) == map[];
    OneEntry(user, Reading(log, 1, warnPct), 0);
  }

  /**
   Without a failed query and without overlapping checks, overlapping flushes can let a blocked user
   through: a check reads the row after the first flush has committed, the second commits over it, and the
   next check reads less.
   */
  lemma {:induction false} OverlapAllows(user: User, limit: int, warnPct: real, value: int, first: int, second: int)
      returns (start: T.Row, steps: seq<T.Step>, mid: T.Row, r: T.Row, log: seq<Event>)
    requires value + second < limit <= value + first
    requires (value + second) as real < limit as real * warnPct
    ensures T.Start(start) && T.IsRun(start, steps, mid) && T.Enabled(mid, T.Finish(1)) && r == T.Next(mid, T.Finish(1))
    ensures r.commits == [T.Commit(first, 0), T.Commit(second, 0)]
    ensures log == TwoChecks(user, limit, T.Amount(mid.value), T.Amount(r.value)) && IsLog(log, warnPct)
    ensures AnswerAt(log, warnPct, 2).decision == Block && AnswerAt(log, warnPct, 5).decision == Allow
  {
    start, steps, mid, r := T.OverlapLosesACount(value, first, second);
    log := TwoChecks(user, limit, T.Amount(mid.value), T.Amount(r.value));
    TwoAnswers(user, limit, T.Amount(mid.value), T.Amount(r.value), warnPct);
  }
}
