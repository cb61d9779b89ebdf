/**
 The cache of which tunnels are enabled. A refresh reads the table, and only later, under the lock,
 writes what it read; refreshes overlap each other and changes of the table.
 */
module StatusCache {
  import opened Sequences

  type Domain = nat
  type Table = map<Domain, bool>   // domain to enabled

  /** What a refresh has read; `None` for a single refresh that found no tunnel or failed. */
  datatype Read = All(active: seq<Domain>) | Single(domain: Domain, found: Option<bool>)

  /** A refresh between its read and its write; `version` says which table it read. */
  datatype Refresh = Refresh(read: Read, version: nat)

  /** The cache, with the version of the table that each of its answers goes back to; history only. */
  datatype Cache = Cache(entries: map<Domain, bool>, full: int, single: map<Domain, nat>)

  datatype System = System(
    tables: seq<Table>,       // history of the table; the last is current
    pending: seq<Refresh>,
    seen: seq<Cache>,         // history of the cache; the last is current
    written: seq<Refresh>)    // history of the refreshes written

  datatype Step =
    | ChangeTable(table: Table)
    | ReadAll(active: seq<Domain>)
    | ReadSingle(domain: Domain, fails: bool)
    | Write(i: nat)

  const EmptyCache := Cache(map[], -1, map[])

  predicate Start(s: System) {
    |s.tables| == 1 && s.pending == [] && s.seen == [EmptyCache] && s.written == []
  }

  function Current(s: System): Table
    requires s.tables != []
  {
    s.tables[|s.tables| - 1]
  }

  function Now(s: System): Cache
    requires s.seen != []
  {
    s.seen[|s.seen| - 1]
  }

  /** The active tunnels are the enabled ones, in some order. */
  ghost predicate Enabled(s: System, step: Step) {
    && s.tables != [] && s.seen != []
    && (step.ReadAll? ==> forall d :: d in step.active <==> d in Current(s) && Current(s)[d])
    && (step.Write? ==> step.i < |s.pending|)
  }

  function AllTrue(active: seq<Domain>): map<Domain, bool> {
    map d | d in active :: true
  }

  function Entries(entries: map<Domain, bool>, r: Read): map<Domain, bool> {
    match r
    case All(active) => AllTrue(active)
    case Single(d, None) => entries - {d}
    case Single(d, Some(enabled)) => entries[d := enabled]
  }

  /** A full refresh speaks of every domain, the absent ones too. */
  function Written(c: Cache, r: Refresh): Cache {
    if r.read.All? then Cache(Entries(c.entries, r.read), r.version, map[])
    else Cache(Entries(c.entries, r.read), c.full, c.single[r.read.domain := r.version])
  }

  /** The refresh that a reading step makes. */
  function Made(s: System, step: Step): Refresh
    requires s.tables != [] && (step.ReadAll? || step.ReadSingle?)
  {
    var now := |s.tables| - 1;
    match step
    case ReadAll(active) => Refresh(All(active), now)
    case ReadSingle(d, fails) =>
      Refresh(Single(d, if fails || d !in Current(s) then None else Some(Current(s)[d])), now)
  }

  ghost function Next(s: System, step: Step): System
    requires Enabled(s, step)
  {
    match step
    case ChangeTable(table) => s.(tables := s.tables + [table])
    case ReadAll(_) => s.(pending := s.pending + [Made(s, step)])
    case ReadSingle(_, _) => s.(pending := s.pending + [Made(s, step)])
    case Write(i) =>
      s.(pending := s.pending[..i] + s.pending[i + 1..],
         seen := s.seen + [Written(Now(s), s.pending[i])], written := s.written + [s.pending[i]])
  }

  ghost predicate IsRun(s: System, steps: seq<Step>, s': System)
    decreases steps
  {
    if steps == [] then s == s' else Enabled(s, steps[0]) && IsRun(Next(s, steps[0]), steps[1..], s')
  }

  /** The lookup that a request makes: an absent domain counts as disabled. */
  predicate IsEnabled(c: Cache, d: Domain) {
    d in c.entries && c.entries[d]
  }

  /** The version of the table that the answer for a domain goes back to; -1 before the first refresh. */
  function AsOf(c: Cache, d: Domain): int {
    if d in c.single then c.single[d] else c.full
  }

  predicate Covers(r: Refresh, d: Domain) {
    r.read.All? || r.read.domain == d
  }

  // ---------- What every run keeps ----------

  /** A true answer was true in the table it goes back to. */
  ghost predicate Faithful(tables: seq<Table>, c: Cache, d: Domain) {
    var v := AsOf(c, d);
    && -1 <= v < |tables|
    && (IsEnabled(c, d) ==> v >= 0 && d in tables[v] && tables[v][d])
  }

  ghost predicate ReadRight(tables: seq<Table>, r: Refresh) {
    && r.version < |tables|
    && match r.read
       case All(active) => forall d :: d in active ==> d in tables[r.version] && tables[r.version][d]
       case Single(d, found) => found == Some(true) ==> d in tables[r.version] && tables[r.version][d]
  }

  /** Each cache is the one before with one refresh written into it. */
  predicate Replays(seen: seq<Cache>, written: seq<Refresh>) {
    && |seen| == |written| + 1 && seen[0] == EmptyCache
    && forall k :: 0 <= k < |written| ==> seen[k + 1] == Written(seen[k], written[k])
  }

  ghost predicate Inv(s: System) {
    && s.tables != [] && s.seen != []
    && (forall d :: Faithful(s.tables, Now(s), d))
    && (forall r :: r in s.pending ==> ReadRight(s.tables, r))
    && Replays(s.seen, s.written)
  }

  lemma {:induction false} WriteKeepsFaithful(tables: seq<Table>, c: Cache, r: Refresh, d: Domain)
    requires Faithful(tables, c, d) && ReadRight(tables, r)
    ensures Faithful(tables, Written(c, r), d)
    ensures AsOf(Written(c, r), d) == if Covers(r, d) then r.version else AsOf(c, d)
  {
  }

  lemma {:induction false} WriteKeepsInv(s: System, i: nat)
    requires Inv(s) && i < |s.pending|
    ensures Inv(Next(s, Write(i)))
  {
    var s', r := Next(s, Write(i)), s.pending[i];
    assert r in s.pending && ReadRight(s.tables, r) && Now(s') == Written(Now(s), r);
    assert forall x :: x in s'.pending ==> x in s.pending;
    forall d
      ensures Faithful(s'.tables, Now(s'), d)
    {
      WriteKeepsFaithful(s.tables, Now(s), r, d);
    }
  }

  lemma {:induction false} MadeReadsRight(s: System, step: Step)
    requires Enabled(s, step) && (step.ReadAll? || step.ReadSingle?)
    ensures ReadRight(s.tables, Made(s, step))
  {
  }

  lemma {:induction false} StepKeepsInv(s: System, step: Step)
    requires Inv(s) && Enabled(s, step)
    ensures Inv(Next(s, step))
  {
    match step
    case ChangeTable(table) => ChangeKeepsInv(s, table);
    case Write(i) => WriteKeepsInv(s, i);
    case _ =>
      MadeReadsRight(s, step);
      ReadKeepsInv(s, Made(s, step));
  }

  lemma {:induction false} ChangeKeepsInv(s: System, table: Table)
    requires Inv(s)
    ensures Inv(s.(tables := s.tables + [table]))
  {
    var tables := s.tables + [table];
    var s' := s.(tables := tables);
    assert Now(s') == Now(s);
    assert forall v :: 0 <= v < |s.tables| ==> tables[v] == s.tables[v];
    forall d
      ensures Faithful(s'.tables, Now(s'), d)
    {
      assert Faithful(s.tables, Now(s), d);
    }
    forall r | r in s.pending
      ensures ReadRight(tables, r)
    {
      assert ReadRight(s.tables, r);
    }
  }

  lemma {:induction false} ReadKeepsInv(s: System, r: Refresh)
    requires Inv(s) && ReadRight(s.tables, r)
    ensures Inv(s.(pending := s.pending + [r]))
  {
    var s' := s.(pending := s.pending + [r]);
    assert Now(s') == Now(s);
    forall d
      ensures Faithful(s'.tables, Now(s'), d)
    {
      assert Faithful(s.tables, Now(s), d);
    }
  }

  lemma {:induction false} ReachableIsFaithful(s: System, steps: seq<Step>, s': System)
    requires Inv(s) && IsRun(s, steps, s')
    ensures Inv(s')
    decreases steps
  {
    if steps != [] {
      StepKeepsInv(s, steps[0]);
      ReachableIsFaithful(Next(s, steps[0]), steps[1..], s');
    }
  }

  lemma {:induction false} StartIsFaithful(s: System)
    requires Start(s)
    ensures Inv(s)
  {
    assert Now(s) == EmptyCache;
  }

  /**
   However refreshes and changes overlap, a domain that the cache calls enabled was enabled in the table
   that its answer goes back to.
   */
  lemma {:induction false} EnabledWasTrueOnce(start: System, steps: seq<Step>, s: System, d: Domain)
    requires Start(start) && IsRun(start, steps, s)
    ensures s.seen != []
    ensures IsEnabled(Now(s), d) ==>
              var v := AsOf(Now(s), d); 0 <= v < |s.tables| && d in s.tables[v] && s.tables[v][d]
  {
    StartIsFaithful(start);
    ReachableIsFaithful(start, steps, s);
    assert Faithful(s.tables, Now(s), d);
  }

  // ---------- When the cache goes back in time ----------

  /** The answers for a domain go back to the start or to the refreshes of it that were written. */
  lemma {:induction false} AsOfWritten(seen: seq<Cache>, written: seq<Refresh>, k: nat, d: Domain) returns (j: nat)
    requires Replays(seen, written) && k < |seen| && AsOf(seen[k], d) >= 0
    ensures j < k && Covers(written[j], d) && written[j].version == AsOf(seen[k], d)
  {
    assert seen[k] == if k == 0 then EmptyCache else Written(seen[k - 1], written[k - 1]);
    if Covers(written[k - 1], d) {
      j := k - 1;
    } else {
      j := AsOfWritten(seen, written, k - 1, d);
    }
  }

  lemma {:induction false} WrittenIsSeen(seen: seq<Cache>, written: seq<Refresh>, j: nat, d: Domain)
    requires Replays(seen, written) && j < |written| && Covers(written[j], d)
    ensures AsOf(seen[j + 1], d) == written[j].version
  {
    assert seen[j + 1] == Written(seen[j], written[j]);
  }

  /** The next write gives a domain an answer older than one the cache has already had. */
  ghost predicate GoesBack(s: System, i: nat, d: Domain)
    requires Enabled(s, Write(i))
  {
    var s' := Next(s, Write(i));
    exists k :: 0 <= k < |s.seen| && AsOf(s.seen[k], d) > AsOf(Now(s'), d)
  }

  /**
   A refresh of a domain takes its answer back in time exactly when a refresh of that domain that read a
   later table has already been written.
   */
  lemma {:induction false} GoesBackIff(start: System, steps: seq<Step>, s: System, i: nat, d: Domain)
    requires Start(start) && IsRun(start, steps, s) && Enabled(s, Write(i)) && Covers(s.pending[i], d)
    ensures GoesBack(s, i, d)
            <==> exists r :: r in s.written && Covers(r, d) && r.version > s.pending[i].version
  {
    StartIsFaithful(start);
    ReachableIsFaithful(start, steps, s);
    assert Now(Next(s, Write(i))) == Written(Now(s), s.pending[i]);
    if GoesBack(s, i, d) {
      var k :| 0 <= k < |s.seen| && AsOf(s.seen[k], d) > s.pending[i].version;
      var j := AsOfWritten(s.seen, s.written, k, d);
      assert s.written[j] in s.written;
    }
    if r :| r in s.written && Covers(r, d) && r.version > s.pending[i].version {
      var j :| 0 <= j < |s.written| && s.written[j] == r;
      WrittenIsSeen(s.seen, s.written, j, d);
    }
  }

  lemma {:induction false} Prepend(s: System, step: Step, steps: seq<Step>, s': System)
    requires Enabled(s, step) && IsRun(Next(s, step), steps, s')
    ensures IsRun(s, [step] + steps, s')
  {
    assert ([step] + steps)[1..] == steps;
  }

  /** Two refreshes in flight: the full one read the table before it changed, the single one after. */
  function Racing(d: Domain): System {
    System([map[d := true], map[d := false]], [Refresh(All([d]), 0), Refresh(Single(d, Some(false)), 1)],
           [EmptyCache], [])
  }

  lemma {:induction false} SlowRefreshOverwrites(d: Domain) returns (s: System)
    ensures IsRun(Racing(d), [Write(1)] + ([Write(0)] + []), s)
    ensures s.tables == Racing(d).tables && s.seen != [] && IsEnabled(Now(s), d) && AsOf(Now(s), d) == 0
  {
    var s1 := Next(Racing(d), Write(1));
    assert s1.pending == [Refresh(All([d]), 0)];
    s := Next(s1, Write(0));
    Prepend(s1, Write(0), [], s);
    Prepend(Racing(d), Write(1), [Write(0)] + [], s);
  }

  /** So a slow refresh can undo a later one: the domain is disabled, and the cache calls it enabled. */
  lemma {:induction false} SlowRefreshWinsLate(d: Domain) returns (start: System, steps: seq<Step>, s: System)
    ensures Start(start) && IsRun(start, steps, s)
    ensures |steps| >= 2 && steps[|steps| - 2..] == [Write(1), Write(0)]
    ensures s.tables != [] && s.seen != [] && d in Current(s) && !Current(s)[d] && IsEnabled(Now(s), d)
  {
    var on, off := map[d := true], map[d := false];
    var last := [Write(1)] + ([Write(0)] + []);
    start := System([on], [], [EmptyCache], []);
    var s1 := System([on], [Refresh(All([d]), 0)], [EmptyCache], []);
    var s2 := System([on, off], [Refresh(All([d]), 0)], [EmptyCache], []);
    assert Next(start, ReadAll([d])) == s1;
    assert Next(s1, ChangeTable(off)) == s2;
    assert Next(s2, ReadSingle(d, false)) == Racing(d);
    s := SlowRefreshOverwrites(d);
    Prepend(s2, ReadSingle(d, false), last, s);
    Prepend(s1, ChangeTable(off), [ReadSingle(d, false)] + last, s);
    Prepend(start, ReadAll([d]), [ChangeTable(off)] + ([ReadSingle(d, false)] + last), s);
    steps := [ReadAll([d])] + ([ChangeTable(off)] + ([ReadSingle(d, false)] + last));
  }

  class TunnelStatusCache {
    var cache: map<Domain, bool>

    /** Build the new table first, then swap it in. */
    method RefreshAll(active: seq<Domain>)
      modifies this`cache
      ensures cache == Entries(old(cache), All(active))
    {
      var newCache: map<Domain, bool> := map[];
      var i := 0;
      while i < |active|
        invariant 0 <= i <= |active| && cache == old(cache)
        invariant newCache == AllTrue(active[..i])
      {
        newCache := newCache[active[i] := true];
        assert active[..i + 1] == active[..i] + [active[i]];
        i := i + 1;
      }
      assert active[..i] == active;
      cache := newCache;
    }

    method RefreshSingle(d: Domain, found: Option<bool>)
      modifies this`cache
      ensures cache == Entries(old(cache), Single(d, found))
    {
      if found.None? {
        cache := cache - {d};
      } else {
        cache := cache[d := found.value];
      }
    }
  }
}
