/**
 One row of the usage table under overlapping transactions, each of which reads the row and then saves a
 sum. The database shows a query what has been committed, lets one transaction at a time write the row,
 and has a unique index: its default isolation, read committed, promises no more. A snapshot has one
 record for each row, so a transaction touches the row once. One number stands for a counter of the row,
 or for a sum of its counters.
 */
module UsageTransactions {
  import opened Sequences

  datatype Phase =
    | Begun
    | Queried(found: Option<int>)
    | Saved(pending: int)
    | Committed
    | RolledBack

  /** A transaction with its record's count; `asOf` is how many had committed when it queried, history only. */
  datatype Transaction = Transaction(count: int, phase: Phase, asOf: nat)

  /** A transaction that has committed. */
  datatype Commit = Commit(count: int, asOf: nat)

  datatype Row = Row(
    value: Option<int>,             // what is committed; None while there is no row
    writer: Option<nat>,            // the transaction that holds the row's lock
    transactions: seq<Transaction>,
    start: Option<int>,             // history: the value at the start
    commits: seq<Commit>)           // history

  datatype Step =
    | Begin(count: int)
    | Query(t: nat)
    | Save(t: nat)                  // update what was found, or create
    | Finish(t: nat)                // commit
    | Fail(t: nat)                  // any operation fails: roll back

  predicate Active(p: Phase) {
    p.Begun? || p.Queried? || p.Saved?
  }

  predicate Enabled(r: Row, step: Step) {
    match step
    case Begin(_) => true
    case Query(t) => t < |r.transactions| && r.transactions[t].phase.Begun?
    case Save(t) => t < |r.transactions| && r.transactions[t].phase.Queried? && r.writer.None?
    case Finish(t) => t < |r.transactions| && r.transactions[t].phase.Saved?
    case Fail(t) => t < |r.transactions| && Active(r.transactions[t].phase)
  }

  function Amount(value: Option<int>): int {
    if value.Some? then value.value else 0
  }

  function Moved(r: Row, t: nat, p: Phase): Row
    requires t < |r.transactions|
  {
    r.(transactions := r.transactions[t := r.transactions[t].(phase := p)])
  }

  function Next(r: Row, step: Step): Row
    requires Enabled(r, step)
  {
    match step
    case Begin(count) => r.(transactions := r.transactions + [Transaction(count, Begun, 0)])
    case Query(t) =>
      r.(transactions := r.transactions[t := Transaction(r.transactions[t].count, Queried(r.value), |r.commits|)])
    case Save(t) =>
      var found, count := r.transactions[t].phase.found, r.transactions[t].count;
      // the unique index refuses a second row
      if found.None? && r.value.Some? then Moved(r, t, RolledBack)
      else Moved(r, t, Saved(Amount(found) + count)).(writer := Some(t))
    case Finish(t) =>
      var x := r.transactions[t];
      Moved(r, t, Committed).(value := Some(x.phase.pending), writer := None,
                              commits := r.commits + [Commit(x.count, x.asOf)])
    case Fail(t) => Moved(r, t, RolledBack).(writer := if r.writer == Some(t) then None else r.writer)
  }

  predicate Start(r: Row) {
    r.writer.None? && r.transactions == [] && r.value == r.start && r.commits == []
  }

  predicate IsRun(r: Row, steps: seq<Step>, r': Row)
    decreases steps
  {
    if steps == [] then r == r' else Enabled(r, steps[0]) && IsRun(Next(r, steps[0]), steps[1..], r')
  }

  // ---------- What the row holds ----------

  /** A transaction queries before it commits. */
  predicate QueriedBefore(commits: seq<Commit>) {
    forall k :: 0 <= k < |commits| ==> commits[k].asOf <= k
  }

  /** The row after `k` commits: each commit counts on from the value its query found. */
  function ValueAt(start: Option<int>, commits: seq<Commit>, k: nat): Option<int>
    requires QueriedBefore(commits) && k <= |commits|
  {
    if k == 0 then start else Some(Amount(ValueAt(start, commits, commits[k - 1].asOf)) + commits[k - 1].count)
  }

  /** What the first `k` commits have counted. */
  function Counted(commits: seq<Commit>, k: nat): int
    requires k <= |commits|
  {
    if k == 0 then 0 else Counted(commits, k - 1) + commits[k - 1].count
  }

  lemma {:induction false} ValueAtAppend(start: Option<int>, commits: seq<Commit>, c: Commit, k: nat)
    requires QueriedBefore(commits) && c.asOf <= |commits| && k <= |commits|
    ensures QueriedBefore(commits + [c])
    ensures ValueAt(start, commits + [c], k) == ValueAt(start, commits, k)
    decreases k
  {
    if k > 0 {
      assert (commits + [c])[k - 1] == commits[k - 1];
      ValueAtAppend(start, commits, c, commits[k - 1].asOf);
    }
  }

  /** A transaction's query found the row as it was then, and that is what it counts on from. */
  predicate CountsOn(start: Option<int>, commits: seq<Commit>, x: Transaction)
    requires QueriedBefore(commits)
  {
    (x.phase.Queried? || x.phase.Saved? ==>
       && x.asOf <= |commits|
       && var found := ValueAt(start, commits, x.asOf);
          if x.phase.Queried? then x.phase.found == found else x.phase.pending == Amount(found) + x.count)
  }

  predicate Inv(r: Row) {
    && QueriedBefore(r.commits)
    && r.value == ValueAt(r.start, r.commits, |r.commits|)
    && (forall t :: 0 <= t < |r.transactions| ==> CountsOn(r.start, r.commits, r.transactions[t]))
    && (forall t :: 0 <= t < |r.transactions| && r.transactions[t].phase.Saved? ==> r.writer == Some(t))
  }

  lemma {:induction false} FinishKeepsInv(r: Row, t: nat)
    requires Inv(r) && Enabled(r, Finish(t))
    ensures Inv(Next(r, Finish(t)))
  {
    var r', x := Next(r, Finish(t)), r.transactions[t];
    var c := Commit(x.count, x.asOf);
    assert CountsOn(r.start, r.commits, x);
    ValueAtAppend(r.start, r.commits, c, x.asOf);
    forall u | 0 <= u < |r'.transactions|
      ensures CountsOn(r'.start, r'.commits, r'.transactions[u])
    {
      if u != t {
        var y := r.transactions[u];
        assert r'.transactions[u] == y && CountsOn(r.start, r.commits, y);
        if y.phase.Queried? || y.phase.Saved? {
          ValueAtAppend(r.start, r.commits, c, y.asOf);
        }
      }
    }
  }

  lemma {:induction false} StepKeepsInv(r: Row, step: Step)
    requires Inv(r) && Enabled(r, step)
    ensures Inv(Next(r, step)) && Next(r, step).start == r.start
  {
    match step
    case Begin(_) =>
    case Query(t) =>
    case Save(t) => assert CountsOn(r.start, r.commits, r.transactions[t]);
    case Finish(t) => FinishKeepsInv(r, t);
    case Fail(t) =>
  }

  lemma {:induction false} RunKeepsInv(r: Row, steps: seq<Step>, r': Row)
    requires Inv(r) && IsRun(r, steps, r')
    ensures Inv(r') && r'.start == r.start
    decreases steps
  {
    if steps != [] {
      StepKeepsInv(r, steps[0]);
      RunKeepsInv(Next(r, steps[0]), steps[1..], r');
    }
  }

  // ---------- When it is what was counted ----------

  /** Nobody else commits between a transaction's query and its own commit. */
  predicate Serial(commits: seq<Commit>) {
    forall k :: 0 <= k < |commits| ==> commits[k].asOf == k
  }

  predicate NonNegative(commits: seq<Commit>) {
    forall k :: 0 <= k < |commits| ==> commits[k].count >= 0
  }

  /**
   Back from commit `k - 1` along what its query found: nothing positive was committed between each query
   and its commit.
   */
  predicate NothingMissed(commits: seq<Commit>, k: nat)
    requires QueriedBefore(commits) && k <= |commits|
  {
    k > 0 ==>
      && (forall i :: commits[k - 1].asOf <= i < k - 1 ==> commits[i].count <= 0)
      && NothingMissed(commits, commits[k - 1].asOf)
  }

  lemma {:induction false} CountedGrows(commits: seq<Commit>, j: nat, k: nat)
    requires NonNegative(commits) && j <= k <= |commits|
    ensures Counted(commits, j) <= Counted(commits, k)
    ensures Counted(commits, j) == Counted(commits, k) <==> forall i :: j <= i < k ==> commits[i].count <= 0
    decreases k
  {
    if j < k {
      CountedGrows(commits, j, k - 1);
    }
  }

  lemma {:induction false} AtMostCounted(start: Option<int>, commits: seq<Commit>, k: nat)
    requires QueriedBefore(commits) && NonNegative(commits) && k <= |commits|
    ensures Amount(ValueAt(start, commits, k)) <= Amount(start) + Counted(commits, k)
    ensures Amount(ValueAt(start, commits, k)) == Amount(start) + Counted(commits, k) <==> NothingMissed(commits, k)
    decreases k
  {
    if k > 0 {
      AtMostCounted(start, commits, commits[k - 1].asOf);
      CountedGrows(commits, commits[k - 1].asOf, k - 1);
    }
  }

  /** With positive counts, to miss nothing is to be serial. */
  lemma {:induction false} NothingMissedIffSerial(commits: seq<Commit>, k: nat)
    requires QueriedBefore(commits) && k <= |commits|
    requires forall i :: 0 <= i < |commits| ==> commits[i].count > 0
    ensures NothingMissed(commits, k) <==> forall i :: 0 <= i < k ==> commits[i].asOf == i
    decreases k
  {
    if k > 0 {
      var a := commits[k - 1].asOf;
      NothingMissedIffSerial(commits, a);
      if a < k - 1 {
        assert commits[a].count > 0;
      }
    }
  }

  /** However transactions overlap, with non-negative counts the row never holds more than was counted. */
  lemma {:induction false} NeverOverCounts(start: Row, steps: seq<Step>, r: Row)
    requires Start(start) && IsRun(start, steps, r) && NonNegative(r.commits)
    ensures Amount(r.value) <= Amount(start.value) + Counted(r.commits, |r.commits|)
  {
    RunKeepsInv(start, steps, r);
    AtMostCounted(r.start, r.commits, |r.commits|);
  }

  /**
   With non-negative counts, the row holds all that committed transactions counted exactly when, back from
   the last commit along what each query found, nothing positive was committed between a query and its
   commit. Flushes that overlap so lose traffic.
   */
  lemma {:induction false} ExactIff(start: Row, steps: seq<Step>, r: Row)
    requires Start(start) && IsRun(start, steps, r) && NonNegative(r.commits)
    ensures QueriedBefore(r.commits)
    ensures Amount(r.value) == Amount(start.value) + Counted(r.commits, |r.commits|)
            <==> NothingMissed(r.commits, |r.commits|)
  {
    RunKeepsInv(start, steps, r);
    AtMostCounted(r.start, r.commits, |r.commits|);
  }

  /** With positive counts: exactly when no transaction committed between the query and the commit of another. */
  lemma {:induction false} ExactIffSerial(start: Row, steps: seq<Step>, r: Row)
    requires Start(start) && IsRun(start, steps, r)
    requires forall k :: 0 <= k < |r.commits| ==> r.commits[k].count > 0
    ensures Amount(r.value) == Amount(start.value) + Counted(r.commits, |r.commits|) <==> Serial(r.commits)
  {
    ExactIff(start, steps, r);
    NothingMissedIffSerial(r.commits, |r.commits|);
  }

  // ---------- When the row falls ----------

  /**
   A commit lowers the row exactly when it counts less than the row has grown by since its query; so, if
   it counts nothing negative, only after another has committed in between.
   */
  lemma {:induction false} FallsIff(start: Row, steps: seq<Step>, r: Row, t: nat)
    requires Start(start) && IsRun(start, steps, r) && Enabled(r, Finish(t))
    ensures QueriedBefore(r.commits) && r.transactions[t].asOf <= |r.commits|
    ensures var x, r' := r.transactions[t], Next(r, Finish(t));
            Amount(r'.value) < Amount(r.value)
            <==> x.count < Amount(r.value) - Amount(ValueAt(start.value, r.commits, x.asOf))
    ensures var x := r.transactions[t];
            x.count >= 0 && Amount(Next(r, Finish(t)).value) < Amount(r.value) ==> x.asOf < |r.commits|
  {
    RunKeepsInv(start, steps, r);
    assert CountsOn(r.start, r.commits, r.transactions[t]);
  }

  lemma {:induction false} StepExtends(r: Row, step: Step)
    requires Enabled(r, step)
    ensures r.commits <= Next(r, step).commits && Next(r, step).start == r.start
  {
  }

  lemma {:induction false} RunExtends(r: Row, steps: seq<Step>, r': Row)
    requires IsRun(r, steps, r')
    ensures r.commits <= r'.commits && r'.start == r.start
    decreases steps
  {
    if steps != [] {
      StepExtends(r, steps[0]);
      RunExtends(Next(r, steps[0]), steps[1..], r');
    }
  }

  /** While commits are serial and count nothing negative, the row never falls. */
  lemma {:induction false} SerialRowNeverFalls(start: Row, steps: seq<Step>, r: Row, more: seq<Step>, r': Row)
    requires Start(start) && IsRun(start, steps, r) && IsRun(r, more, r')
    requires Serial(r'.commits) && NonNegative(r'.commits)
    ensures Amount(r.value) <= Amount(r'.value)
  {
    RunKeepsInv(start, steps, r);
    RunKeepsInv(r, more, r');
    RunExtends(r, more, r');
    assert forall k :: 0 <= k < |r.commits| ==> r.commits[k] == r'.commits[k];
    SerialIsExact(r.start, r.commits, |r.commits|);
    SerialIsExact(r'.start, r'.commits, |r'.commits|);
    CountedPrefix(r.commits, r'.commits, |r.commits|);
    CountedGrows(r'.commits, |r.commits|, |r'.commits|);
  }

  lemma {:induction false} SerialIsExact(start: Option<int>, commits: seq<Commit>, k: nat)
    requires Serial(commits) && QueriedBefore(commits) && k <= |commits|
    ensures Amount(ValueAt(start, commits, k)) == Amount(start) + Counted(commits, k)
    decreases k
  {
    if k > 0 {
      SerialIsExact(start, commits, k - 1);
    }
  }

  lemma {:induction false} CountedPrefix(a: seq<Commit>, b: seq<Commit>, k: nat)
    requires a <= b && k <= |a|
    ensures Counted(a, k) == Counted(b, k)
  {
    if k > 0 {
      CountedPrefix(a, b, k - 1);
    }
  }

  lemma {:induction false} RunThen(r: Row, steps: seq<Step>, r': Row, step: Step)
    requires IsRun(r, steps, r') && Enabled(r', step)
    ensures IsRun(r, steps + [step], Next(r', step))
    decreases steps
  {
    if steps == [] {
      assert (steps + [step])[1..] == [];
    } else {
      assert (steps + [step])[1..] == steps[1..] + [step];
      RunThen(Next(r, steps[0]), steps[1..], r', step);
    }
  }

  /**
   Two flushes that both find the row before either saves: both commit, and the first one's count is gone.
   `mid` is the row before the second commit, while the first one's count can still be read.
   */
  lemma {:induction false} OverlapLosesACount(value: int, first: int, second: int)
      returns (start: Row, steps: seq<Step>, mid: Row, r: Row)
    ensures Start(start) && start.value == Some(value) && IsRun(start, steps, mid)
    ensures mid.value == Some(value + first) && Enabled(mid, Finish(1)) && r == Next(mid, Finish(1))
    ensures IsRun(start, steps + [Finish(1)], r)
    ensures r.commits == [Commit(first, 0), Commit(second, 0)] && r.value == Some(value + second)
  {
    start := Row(Some(value), None, [], Some(value), []);
    var queried := [Transaction(first, Queried(Some(value)), 0), Transaction(second, Queried(Some(value)), 0)];
    var r4 := start.(transactions := queried);
    steps := BothQuery(start, first, second, r4);
    var s1 := r4.(transactions := [queried[0].(phase := Saved(value + first)), queried[1]], writer := Some(0));
    assert Next(r4, Save(0)) == s1;
    RunThen(start, steps, r4, Save(0));
    var s2 := Row(Some(value + first), None, [queried[0].(phase := Committed), queried[1]], Some(value),
                  [Commit(first, 0)]);
    assert Next(s1, Finish(0)) == s2;
    RunThen(start, steps + [Save(0)], s1, Finish(0));
    mid := s2.(transactions := [s2.transactions[0], queried[1].(phase := Saved(value + second))], writer := Some(1));
    assert Next(s2, Save(1)) == mid;
    RunThen(start, steps + [Save(0)] + [Finish(0)], s2, Save(1));
    steps := steps + [Save(0)] + [Finish(0)] + [Save(1)];
    RunThen(start, steps, mid, Finish(1));
    r := Next(mid, Finish(1));
    assert [Commit(first, 0)] + [Commit(second, 0)] == [Commit(first, 0), Commit(second, 0)];
  }

  lemma {:induction false} BothQuery(start: Row, first: int, second: int, r: Row) returns (steps: seq<Step>)
    requires Start(start) && start.value.Some?
    requires r == start.(transactions := [Transaction(first, Queried(start.value), 0),
                                          Transaction(second, Queried(start.value), 0)])
    ensures IsRun(start, steps, r)
  {
    var a, b := Transaction(first, Begun, 0), Transaction(second, Begun, 0);
    var r1, r2 := start.(transactions := [a]), start.(transactions := [a, b]);
    var r3 := start.(transactions := [a.(phase := Queried(start.value)), b]);
    assert Next(start, Begin(first)) == r1 && Next(r1, Begin(second)) == r2;
    assert Next(r2, Query(0)) == r3 && Next(r3, Query(1)) == r;
    RunThen(start, [], start, Begin(first));
    RunThen(start, [] + [Begin(first)], r1, Begin(second));
    RunThen(start, [] + [Begin(first)] + [Begin(second)], r2, Query(0));
    RunThen(start, [] + [Begin(first)] + [Begin(second)] + [Query(0)], r3, Query(1));
    steps := [] + [Begin(first)] + [Begin(second)] + [Query(0)] + [Query(1)];
  }
}
