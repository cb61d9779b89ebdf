/**
 The traffic ledger as a step system: increments aggregate in memory, a flush takes the whole memory as
 a snapshot, and the snapshot reaches the database batch by batch while increments, and other flushes,
 go on. A batch is one transaction, taken as one step here; `UsageTransactions` follows transactions that
 overlap on a row. The first batch that fails loses itself and the rest of its snapshot.
 */
module UsageLedger {
  import opened Sequences

  type Domain = nat

  const BatchSize := 1000

  datatype Key = Key(day: nat, user: nat, tunnel: nat)
  datatype Counts = Counts(bytesIn: int, bytesOut: int, requests: int)
  datatype Entry = Entry(key: Key, domain: Domain, counts: Counts)

  datatype Ledger = Ledger(
    memory: map<Key, Entry>,
    flights: seq<seq<Entry>>,     // what is left of every snapshot taken
    rows: seq<Entry>,             // the usage table
    incremented: seq<Entry>,      // history: every increment
    dropped: seq<Entry>)          // history: records lost by failed flushes

  datatype Step =
    | Increment(e: Entry)
    | Snapshot(order: seq<Key>)   // map iteration order
    | Batch(f: nat, commits: bool)

  function Plus(a: Counts, b: Counts): Counts {
    Counts(a.bytesIn + b.bytesIn, a.bytesOut + b.bytesOut, a.requests + b.requests)
  }

  predicate NonNegativeCounts(c: Counts) {
    0 <= c.bytesIn && 0 <= c.bytesOut && 0 <= c.requests
  }

  predicate Start(l: Ledger) {
    l.memory == map[] && l.flights == [] && l.incremented == [] && l.dropped == [] && UniqueRows(l.rows)
  }

  function Added(memory: map<Key, Entry>, e: Entry): map<Key, Entry> {
    if e.key in memory
    then memory[e.key := memory[e.key].(counts := Plus(memory[e.key].counts, e.counts))]
    else memory[e.key := e]
  }

  ghost predicate Lists(order: seq<Key>, memory: map<Key, Entry>) {
    && (forall i, j :: 0 <= i < j < |order| ==> order[i] != order[j])
    && (forall k :: k in order <==> k in memory)
  }

  function Collect(memory: map<Key, Entry>, order: seq<Key>): (s: seq<Entry>)
    requires forall k :: k in order ==> k in memory
    ensures |s| == |order|
  {
    if order == [] then [] else [memory[order[0]]] + Collect(memory, order[1..])
  }

  predicate SameRow(a: Entry, b: Entry) {
    a.key == b.key && a.domain == b.domain
  }

  predicate UniqueRows(rows: seq<Entry>) {
    forall i, j :: 0 <= i < j < |rows| ==> !SameRow(rows[i], rows[j])
  }

  /** Add a record to the row of its period, user, tunnel and domain, or make that row. */
  function Upsert(rows: seq<Entry>, r: Entry): seq<Entry> {
    if rows == [] then [r]
    else if SameRow(rows[0], r) then [rows[0].(counts := Plus(rows[0].counts, r.counts))] + rows[1..]
    else [rows[0]] + Upsert(rows[1..], r)
  }

  function UpsertAll(rows: seq<Entry>, records: seq<Entry>): seq<Entry>
    decreases records
  {
    if records == [] then rows else UpsertAll(Upsert(rows, records[0]), records[1..])
  }

  function FirstBatch(records: seq<Entry>): nat {
    if |records| < BatchSize then |records| else BatchSize
  }

  ghost predicate Enabled(l: Ledger, step: Step) {
    match step
    case Increment(_) => true
    case Snapshot(order) => Lists(order, l.memory)
    case Batch(f, _) => f < |l.flights|
  }

  ghost function Next(l: Ledger, step: Step): Ledger
    requires Enabled(l, step)
  {
    match step
    case Increment(e) =>
      l.(memory := Added(l.memory, e), incremented := l.incremented + [e])
    case Snapshot(order) =>
      if order == [] then l
      else l.(memory := map[], flights := l.flights + [Collect(l.memory, order)])
    case Batch(f, commits) =>
      var n := FirstBatch(l.flights[f]);
      if commits then
        Shortened(l, f, l.flights[f][n..]).(rows := UpsertAll(l.rows, l.flights[f][..n]))
      else
        Shortened(l, f, []).(dropped := l.dropped + l.flights[f])
  }

  /** The flight `f` has `rest` left, or is over. */
  function Shortened(l: Ledger, f: nat, rest: seq<Entry>): Ledger
    requires f < |l.flights|
  {
    l.(flights := l.flights[..f] + (if rest == [] then [] else [rest]) + l.flights[f + 1..])
  }

  ghost predicate IsRun(l: Ledger, steps: seq<Step>, l': Ledger)
    decreases steps
  {
    if steps == [] then l == l'
    else Enabled(l, steps[0]) && IsRun(Next(l, steps[0]), steps[1..], l')
  }

  // ---------- Totals ----------

  datatype Meter = BytesIn | BytesOut | Requests

  function Amount(c: Counts, m: Meter): int {
    match m
    case BytesIn => c.bytesIn
    case BytesOut => c.bytesOut
    case Requests => c.requests
  }

  /** The traffic of one day, user and tunnel: under one domain, or under all of them. */
  datatype Account = Account(key: Key, domain: Option<Domain>)

  predicate In(e: Entry, a: Account) {
    e.key == a.key && (a.domain.None? || a.domain.value == e.domain)
  }

  /** What one entry adds to an account. */
  function Share(e: Entry, a: Account, m: Meter): int {
    if In(e, a) then Amount(e.counts, m) else 0
  }

  /** What a list of entries holds of an account. */
  function Total(s: seq<Entry>, a: Account, m: Meter): int {
    if s == [] then 0 else Share(s[0], a, m) + Total(s[1..], a, m)
  }

  function InMemory(memory: map<Key, Entry>, a: Account, m: Meter): int {
    if a.key in memory then Share(memory[a.key], a, m) else 0
  }

  function InFlight(flights: seq<seq<Entry>>, a: Account, m: Meter): int {
    if flights == [] then 0 else Total(flights[0], a, m) + InFlight(flights[1..], a, m)
  }

  lemma {:induction false} TotalAppend(s: seq<Entry>, t: seq<Entry>, a: Account, m: Meter)
    ensures Total(s + t, a, m) == Total(s, a, m) + Total(t, a, m)
  {
    if s == [] {
      assert s + t == t;
    } else {
      TotalAppend(s[1..], t, a, m);
      assert (s + t)[1..] == s[1..] + t;
    }
  }

  lemma {:induction false} InFlightAppend(s: seq<seq<Entry>>, t: seq<seq<Entry>>, a: Account, m: Meter)
    ensures InFlight(s + t, a, m) == InFlight(s, a, m) + InFlight(t, a, m)
  {
    if s == [] {
      assert s + t == t;
    } else {
      InFlightAppend(s[1..], t, a, m);
      assert (s + t)[1..] == s[1..] + t;
    }
  }

  lemma {:induction false} TotalUpsert(rows: seq<Entry>, r: Entry, a: Account, m: Meter)
    ensures Total(Upsert(rows, r), a, m) == Total(rows, a, m) + Share(r, a, m)
  {
    if rows == [] {
      assert [r][1..] == [];
    } else if SameRow(rows[0], r) {
      var first := rows[0].(counts := Plus(rows[0].counts, r.counts));
      assert ([first] + rows[1..])[1..] == rows[1..];
    } else {
      TotalUpsert(rows[1..], r, a, m);
      assert ([rows[0]] + Upsert(rows[1..], r))[1..] == Upsert(rows[1..], r);
    }
  }

  lemma {:induction false} TotalUpsertAll(rows: seq<Entry>, records: seq<Entry>, a: Account, m: Meter)
    ensures Total(UpsertAll(rows, records), a, m) == Total(rows, a, m) + Total(records, a, m)
    decreases records
  {
    if records != [] {
      TotalUpsert(rows, records[0], a, m);
      TotalUpsertAll(Upsert(rows, records[0]), records[1..], a, m);
    }
  }

  /** A snapshot in any order holds exactly what the memory held. */
  lemma {:induction false} TotalCollect(memory: map<Key, Entry>, order: seq<Key>, a: Account, m: Meter)
    requires forall i, j :: 0 <= i < j < |order| ==> order[i] != order[j]
    requires forall x :: x in order ==> x in memory && memory[x].key == x
    ensures Total(Collect(memory, order), a, m) == if a.key in order then Share(memory[a.key], a, m) else 0
  {
    if order != [] {
      TotalCollect(memory, order[1..], a, m);
      assert order[0] !in order[1..];
      assert Collect(memory, order)[1..] == Collect(memory, order[1..]);
    }
  }

  // ---------- Conservation ----------

  function Accounted(l: Ledger, a: Account, m: Meter): int {
    InMemory(l.memory, a, m) + InFlight(l.flights, a, m) + Total(l.rows, a, m) + Total(l.dropped, a, m)
  }

  ghost predicate Keyed(memory: map<Key, Entry>) {
    forall k :: k in memory ==> memory[k].key == k
  }

  lemma {:induction false} ShortenedInFlight(l: Ledger, f: nat, rest: seq<Entry>, a: Account, m: Meter)
    requires f < |l.flights|
    ensures InFlight(Shortened(l, f, rest).flights, a, m)
            == InFlight(l.flights, a, m) + Total(rest, a, m) - Total(l.flights[f], a, m)
  {
    var before, after := l.flights[..f], l.flights[f + 1..];
    var middle := if rest == [] then [] else [rest];
    assert l.flights == before + ([l.flights[f]] + after);
    InFlightAppend(before, [l.flights[f]] + after, a, m);
    InFlightAppend([l.flights[f]], after, a, m);
    assert before + middle + after == before + (middle + after);
    InFlightAppend(before, middle + after, a, m);
    InFlightAppend(middle, after, a, m);
    InFlightOne(l.flights[f], a, m);
    InFlightOne(rest, a, m);
  }

  lemma {:induction false} InFlightOne(s: seq<Entry>, a: Account, m: Meter)
    ensures InFlight([s], a, m) == Total(s, a, m)
  {
    assert [s][1..] == [];
  }

  lemma {:induction false} BatchConserves(l: Ledger, step: Step, a: Account, m: Meter)
    requires step.Batch? && Enabled(l, step)
    ensures Accounted(Next(l, step), a, m) == Accounted(l, a, m)
  {
    var records := l.flights[step.f];
    var n := FirstBatch(records);
    if step.commits {
      assert records == records[..n] + records[n..];
      TotalAppend(records[..n], records[n..], a, m);
      TotalUpsertAll(l.rows, records[..n], a, m);
      ShortenedInFlight(l, step.f, records[n..], a, m);
    } else {
      ShortenedInFlight(l, step.f, [], a, m);
      TotalAppend(l.dropped, records, a, m);
    }
  }

  /** The record an increment goes to has its domain, or the increment counts nothing. */
  predicate BooksRight(memory: map<Key, Entry>, e: Entry) {
    e.key !in memory || memory[e.key].domain == e.domain || e.counts == Counts(0, 0, 0)
  }

  lemma {:induction false} AddedInMemory(memory: map<Key, Entry>, e: Entry, a: Account, m: Meter)
    requires Keyed(memory) && (a.domain.None? || BooksRight(memory, e))
    ensures InMemory(Added(memory, e), a, m) == InMemory(memory, a, m) + Share(e, a, m)
  {
  }

  /** A step adds to the accounts exactly what it adds to the history of increments. */
  lemma {:induction false} StepConserves(l: Ledger, step: Step, a: Account, m: Meter)
    requires Keyed(l.memory) && Enabled(l, step)
    requires a.domain.Some? && step.Increment? ==> BooksRight(l.memory, step.e)
    ensures Accounted(Next(l, step), a, m) - Accounted(l, a, m)
            == Total(Next(l, step).incremented, a, m) - Total(l.incremented, a, m)
  {
    match step
    case Increment(e) =>
      AddedInMemory(l.memory, e, a, m);
      TotalAppend(l.incremented, [e], a, m);
      assert [e][1..] == [];
    case Snapshot(order) =>
      if order != [] {
        TotalCollect(l.memory, order, a, m);
        InFlightAppend(l.flights, [Collect(l.memory, order)], a, m);
        InFlightOne(Collect(l.memory, order), a, m);
      }
    case Batch(_, _) => BatchConserves(l, step, a, m);
  }

  lemma {:induction false} StepKeepsKeyed(l: Ledger, step: Step)
    requires Keyed(l.memory) && Enabled(l, step)
    ensures Keyed(Next(l, step).memory)
  {
  }

  /** Every increment of the run finds its record under its own domain, or makes it. */
  ghost predicate BooksRightAll(l: Ledger, steps: seq<Step>)
    decreases steps
  {
    steps == []
    || (&& Enabled(l, steps[0])
        && (steps[0].Increment? ==> BooksRight(l.memory, steps[0].e))
        && BooksRightAll(Next(l, steps[0]), steps[1..]))
  }

  lemma {:induction false} RunConserves(l: Ledger, steps: seq<Step>, l': Ledger, a: Account, m: Meter)
    requires Keyed(l.memory) && IsRun(l, steps, l')
    requires a.domain.Some? ==> BooksRightAll(l, steps)
    ensures Accounted(l', a, m) - Accounted(l, a, m) == Total(l'.incremented, a, m) - Total(l.incremented, a, m)
    decreases steps
  {
    if steps != [] {
      StepConserves(l, steps[0], a, m);
      StepKeepsKeyed(l, steps[0]);
      RunConserves(Next(l, steps[0]), steps[1..], l', a, m);
    }
  }

  /**
   Conservation: in every reachable state, for every day, user and tunnel and each of the three
   counters, what was in the database at first and what was ever incremented is exactly what is in
   memory, in flight, in the database, or was dropped by a failed flush.
   */
  lemma {:induction false} Conservation(start: Ledger, steps: seq<Step>, l: Ledger, k: Key, m: Meter)
    requires Start(start) && IsRun(start, steps, l)
    ensures var a := Account(k, None);
            Total(start.rows, a, m) + Total(l.incremented, a, m)
            == InMemory(l.memory, a, m) + InFlight(l.flights, a, m) + Total(l.rows, a, m) + Total(l.dropped, a, m)
  {
    RunConserves(start, steps, l, Account(k, None), m);
  }

  // ---------- The database never over-counts ----------

  ghost predicate NonNegative(s: seq<Entry>) {
    forall e :: e in s ==> NonNegativeCounts(e.counts)
  }

  ghost predicate NonNegativeLedger(l: Ledger) {
    && (forall k :: k in l.memory ==> NonNegativeCounts(l.memory[k].counts))
    && (forall s :: s in l.flights ==> NonNegative(s))
    && NonNegative(l.dropped)
  }

  ghost predicate NonNegativeSteps(steps: seq<Step>) {
    forall s :: s in steps && s.Increment? ==> NonNegativeCounts(s.e.counts)
  }

  lemma {:induction false} NonNegativeTotal(s: seq<Entry>, a: Account, m: Meter)
    requires NonNegative(s)
    ensures 0 <= Total(s, a, m)
  {
    if s != [] {
      NonNegativeTotal(s[1..], a, m);
    }
  }

  lemma {:induction false} NonNegativeInFlight(flights: seq<seq<Entry>>, a: Account, m: Meter)
    requires forall s :: s in flights ==> NonNegative(s)
    ensures 0 <= InFlight(flights, a, m)
  {
    if flights != [] {
      NonNegativeTotal(flights[0], a, m);
      NonNegativeInFlight(flights[1..], a, m);
    }
  }

  lemma {:induction false} CollectMembers(memory: map<Key, Entry>, order: seq<Key>, e: Entry)
    requires forall x :: x in order ==> x in memory
    requires e in Collect(memory, order)
    ensures exists k :: k in order && memory[k] == e
  {
    if e != memory[order[0]] {
      CollectMembers(memory, order[1..], e);
    }
  }

  lemma {:induction false} StepKeepsNonNegative(l: Ledger, step: Step)
    requires NonNegativeLedger(l) && Enabled(l, step)
    requires step.Increment? ==> NonNegativeCounts(step.e.counts)
    ensures NonNegativeLedger(Next(l, step))
  {
    if step.Batch? {
      forall e | e in l.flights[step.f]
        ensures NonNegativeCounts(e.counts)
      {
        assert NonNegative(l.flights[step.f]);
      }
      var rest := l.flights[step.f][FirstBatch(l.flights[step.f])..];
      assert NonNegative(rest);
    } else if step.Snapshot? {
      forall e | e in Collect(l.memory, step.order)
        ensures NonNegativeCounts(e.counts)
      {
        CollectMembers(l.memory, step.order, e);
      }
    }
  }

  lemma {:induction false} RunKeepsNonNegative(l: Ledger, steps: seq<Step>, l': Ledger)
    requires NonNegativeLedger(l) && NonNegativeSteps(steps) && IsRun(l, steps, l')
    ensures NonNegativeLedger(l')
    decreases steps
  {
    if steps != [] {
      StepKeepsNonNegative(l, steps[0]);
      RunKeepsNonNegative(Next(l, steps[0]), steps[1..], l');
    }
  }

  /** With increments that are not negative, the database never holds more than was counted. */
  lemma {:induction false} NeverOverCounts(start: Ledger, steps: seq<Step>, l: Ledger, k: Key, m: Meter)
    requires Start(start) && IsRun(start, steps, l) && NonNegativeSteps(steps)
    ensures Total(l.rows, Account(k, None), m) <= Total(start.rows, Account(k, None), m) + Total(l.incremented, Account(k, None), m)
  {
    Conservation(start, steps, l, k, m);
    RunKeepsNonNegative(start, steps, l);
    NonNegativeInFlight(l.flights, Account(k, None), m);
    NonNegativeTotal(l.dropped, Account(k, None), m);
  }

  lemma {:induction false} NothingDropped(l: Ledger, steps: seq<Step>, l': Ledger)
    requires IsRun(l, steps, l') && forall s :: s in steps && s.Batch? ==> s.commits
    ensures l'.dropped == l.dropped
    decreases steps
  {
    if steps != [] {
      NothingDropped(Next(l, steps[0]), steps[1..], l');
    }
  }

  /** When every batch commits and every snapshot has landed, the database is short only of the memory. */
  lemma {:induction false} ExactWhenNothingFails(start: Ledger, steps: seq<Step>, l: Ledger, k: Key, m: Meter)
    requires Start(start) && IsRun(start, steps, l)
    requires forall s :: s in steps && s.Batch? ==> s.commits
    requires l.flights == []
    ensures Total(l.rows, Account(k, None), m) + InMemory(l.memory, Account(k, None), m)
            == Total(start.rows, Account(k, None), m) + Total(l.incremented, Account(k, None), m)
  {
    Conservation(start, steps, l, k, m);
    NothingDropped(start, steps, l);
  }

  // ---------- Rows ----------

  lemma {:induction false} UpsertKeepsUnique(rows: seq<Entry>, r: Entry)
    requires UniqueRows(rows)
    ensures UniqueRows(Upsert(rows, r))
    ensures forall x :: x in Upsert(rows, r) ==> SameRow(x, r) || x in rows
  {
    if rows != [] && !SameRow(rows[0], r) {
      UpsertKeepsUnique(rows[1..], r);
      assert rows[1..] <= rows[1..] && forall x :: x in rows[1..] ==> !SameRow(rows[0], x);
    }
  }

  lemma {:induction false} UpsertAllKeepsUnique(rows: seq<Entry>, records: seq<Entry>)
    requires UniqueRows(rows)
    ensures UniqueRows(UpsertAll(rows, records))
    decreases records
  {
    if records != [] {
      UpsertKeepsUnique(rows, records[0]);
      UpsertAllKeepsUnique(Upsert(rows, records[0]), records[1..]);
    }
  }

  /** One row for one day, user, tunnel and domain, whatever flushes overlap. */
  lemma {:induction false} RowsStayUnique(l: Ledger, steps: seq<Step>, l': Ledger)
    requires UniqueRows(l.rows) && IsRun(l, steps, l')
    ensures UniqueRows(l'.rows)
    decreases steps
  {
    if steps != [] {
      if steps[0].Batch? && steps[0].commits {
        var records := l.flights[steps[0].f];
        UpsertAllKeepsUnique(l.rows, records[..FirstBatch(records)]);
      }
      RowsStayUnique(Next(l, steps[0]), steps[1..], l');
    }
  }

  // ---------- Domains ----------

  ghost predicate OnlyDomain(s: seq<Entry>, k: Key, d: Domain) {
    forall e :: e in s && e.key == k ==> e.domain == d
  }

  ghost predicate OnlyDomainLedger(l: Ledger, k: Key, d: Domain) {
    && Keyed(l.memory)
    && (k in l.memory ==> l.memory[k].domain == d)
    && (forall s :: s in l.flights ==> OnlyDomain(s, k, d))
    && OnlyDomain(l.rows, k, d)
  }

  lemma {:induction false} UpsertAllOnlyDomain(rows: seq<Entry>, records: seq<Entry>, k: Key, d: Domain)
    requires UniqueRows(rows) && OnlyDomain(rows, k, d) && OnlyDomain(records, k, d)
    ensures OnlyDomain(UpsertAll(rows, records), k, d)
    decreases records
  {
    if records != [] {
      UpsertKeepsUnique(rows, records[0]);
      UpsertAllOnlyDomain(Upsert(rows, records[0]), records[1..], k, d);
    }
  }

  lemma {:induction false} StepOnlyDomain(l: Ledger, step: Step, k: Key, d: Domain)
    requires OnlyDomainLedger(l, k, d) && UniqueRows(l.rows) && Enabled(l, step)
    requires step.Increment? && step.e.key == k ==> step.e.domain == d
    ensures OnlyDomainLedger(Next(l, step), k, d)
  {
    match step
    case Increment(_) =>
    case Snapshot(order) =>
      forall e | e in Collect(l.memory, order) && e.key == k
        ensures e.domain == d
      {
        CollectMembers(l.memory, order, e);
      }
    case Batch(f, _) =>
      var records := l.flights[f];
      assert OnlyDomain(records, k, d);
      UpsertAllOnlyDomain(l.rows, records[..FirstBatch(records)], k, d);
      assert OnlyDomain(records[FirstBatch(records)..], k, d);
  }

  /**
   Domain by domain, a step keeps the accounts exactly when it is not an increment that counts something
   and finds its record under another domain.
   */
  lemma {:induction false} DomainAccountsKeptIff(l: Ledger, step: Step)
    requires Keyed(l.memory) && Enabled(l, step)
    ensures (forall k, d, m :: KeepsAccount(l, step, Account(k, Some(d)), m))
            <==> (step.Increment? ==> BooksRight(l.memory, step.e))
  {
    if step.Increment? ==> BooksRight(l.memory, step.e) {
      forall k, d, m
        ensures KeepsAccount(l, step, Account(k, Some(d)), m)
      {
        StepConserves(l, step, Account(k, Some(d)), m);
      }
    } else {
      var e := step.e;
      var a := Account(e.key, Some(e.domain));
      var m := if e.counts.bytesIn != 0 then BytesIn else if e.counts.bytesOut != 0 then BytesOut else Requests;
      TotalAppend(l.incremented, [e], a, m);
      assert [e][1..] == [];
      assert !KeepsAccount(l, step, a, m);
    }
  }

  ghost predicate KeepsAccount(l: Ledger, step: Step, a: Account, m: Meter)
    requires Enabled(l, step)
  {
    Accounted(Next(l, step), a, m) - Accounted(l, a, m)
    == Total(Next(l, step).incremented, a, m) - Total(l.incremented, a, m)
  }

  /** So the books are right for every domain after a run in which no increment does that. */
  lemma {:induction false} DomainConservation(start: Ledger, steps: seq<Step>, l: Ledger, k: Key, d: Domain, m: Meter)
    requires Start(start) && IsRun(start, steps, l) && BooksRightAll(start, steps)
    ensures var a := Account(k, Some(d));
            Total(start.rows, a, m) + Total(l.incremented, a, m)
            == InMemory(l.memory, a, m) + InFlight(l.flights, a, m) + Total(l.rows, a, m) + Total(l.dropped, a, m)
  {
    RunConserves(start, steps, l, Account(k, Some(d)), m);
  }

  /**
   A record keeps the domain of the first increment since the last snapshot, so the rows of a tunnel are
   all under one domain if all its traffic was.
   */
  lemma {:induction false} OneDomainStays(l: Ledger, steps: seq<Step>, l': Ledger, k: Key, d: Domain)
    requires OnlyDomainLedger(l, k, d) && UniqueRows(l.rows) && IsRun(l, steps, l')
    requires forall s :: s in steps && s.Increment? && s.e.key == k ==> s.e.domain == d
    ensures OnlyDomain(l'.rows, k, d)
    decreases steps
  {
    if steps != [] {
      StepOnlyDomain(l, steps[0], k, d);
      RowsStayUnique(l, [steps[0]], Next(l, steps[0]));
      OneDomainStays(Next(l, steps[0]), steps[1..], l', k, d);
    }
  }

  /** Otherwise it is not: the second domain's traffic is booked under the first. */
  lemma {:induction false} FirstDomainTakesAll(k: Key, d: Domain, other: Domain, c: Counts)
    requires d != other
    ensures var start := Ledger(map[], [], [], [], []);
            exists steps, l ::
              && IsRun(start, steps, l)
              && Entry(k, other, c) in l.incremented
              && l.rows == [Entry(k, d, Plus(c, c))]
  {
    var start := Ledger(map[], [], [], [], []);
    var first, second := Increment(Entry(k, d, c)), Increment(Entry(k, other, c));
    var snapshot, batch := Snapshot([k]), Batch(0, true);
    var l1 := Next(start, first);
    var l2 := Next(l1, second);
    var sum := Entry(k, d, Plus(c, c));
    assert l2.memory[k] == sum && l2.memory.Keys == {k};
    assert l2.incremented[1] == Entry(k, other, c);
    var l3 := Next(l2, snapshot);
    assert Collect(l2.memory, [k]) == [sum] + Collect(l2.memory, [k][1..]) == [sum];
    assert l3.flights == [[sum]];
    var l4 := Next(l3, batch);
    assert [sum][..1] == [sum] && [sum][1..] == [];
    assert UpsertAll([], [sum]) == Upsert([], sum) == [sum];
    assert IsRun(l3, [batch], l4) by { assert [batch][1..] == []; }
    assert IsRun(l2, [snapshot, batch], l4) by { assert [snapshot, batch][1..] == [batch]; }
    assert IsRun(l1, [second, snapshot, batch], l4) by {
      assert [second, snapshot, batch][1..] == [snapshot, batch];
    }
    assert IsRun(start, [first, second, snapshot, batch], l4) by {
      assert [first, second, snapshot, batch][1..] == [second, snapshot, batch];
    }
  }
}
