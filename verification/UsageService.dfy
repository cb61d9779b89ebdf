/**
 The usage service as the object the server keeps: its table of records, incremented in place, and its
 flush, tied to the steps of `UsageLedger`.
 */
module UsageService {
  import opened UsageLedger

  class UsageRecord {
    const key: Key
    const domain: Domain
    var bytesIn: int
    var bytesOut: int
    var requests: int

    constructor (key: Key, domain: Domain)
      ensures this.key == key && this.domain == domain
      ensures bytesIn == 0 && bytesOut == 0 && requests == 0
    {
      this.key, this.domain := key, domain;
      bytesIn, bytesOut, requests := 0, 0, 0;
    }

    function ToEntry(): Entry
      reads this
    {
      Entry(key, domain, Counts(bytesIn, bytesOut, requests))
    }
  }

  class Database {
    var rows: seq<Entry>
  }

  /** Whether a batch's transaction commits: its operations are begin, one save per record, and commit. */
  predicate Commits(size: nat, fault: nat) {
    fault > size + 1
  }

  /** What is left when all batches of the only flight have been tried; `faults` says where each fails. */
  ghost function Drained(l: Ledger, faults: nat -> nat, batch: nat): Ledger
    requires |l.flights| <= 1
    decreases if l.flights == [] then 0 else |l.flights[0]| + 1
  {
    if l.flights == [] then l
    else Drained(Next(l, BatchStep(l, faults, batch)), faults, batch + 1)
  }

  ghost function BatchStep(l: Ledger, faults: nat -> nat, batch: nat): Step
    requires |l.flights| == 1
  {
    Batch(0, Commits(FirstBatch(l.flights[0]), faults(batch)))
  }

  /** A flush is a run of ledger steps: a snapshot and its batches. */
  lemma {:induction false} DrainedIsARun(l: Ledger, faults: nat -> nat, batch: nat)
    requires |l.flights| <= 1
    ensures exists steps :: IsRun(l, steps, Drained(l, faults, batch))
    decreases if l.flights == [] then 0 else |l.flights[0]| + 1
  {
    if l.flights == [] {
      assert IsRun(l, [], Drained(l, faults, batch));
    } else {
      var step := BatchStep(l, faults, batch);
      DrainedIsARun(Next(l, step), faults, batch + 1);
      var steps :| IsRun(Next(l, step), steps, Drained(l, faults, batch));
      assert ([step] + steps)[1..] == steps;
      assert IsRun(l, [step] + steps, Drained(l, faults, batch));
    }
  }

  class UsageService {
    var records: map<Key, UsageRecord>
    const db: Database
    ghost var incremented: seq<Entry>
    ghost var dropped: seq<Entry>

    constructor (db: Database)
      ensures this.db == db && Valid() && State() == Ledger(map[], [], db.rows, [], [])
    {
      records := map[];
      this.db := db;
      incremented, dropped := [], [];
    }

    ghost predicate Valid()
      reads this
    {
      forall k :: k in records ==> records[k].key == k
    }

    ghost function State(): Ledger
      reads this, records.Values, db
    {
      Ledger(map k | k in records :: records[k].ToEntry(), [], db.rows, incremented, dropped)
    }

    /** Add to the day's record of this user and tunnel, made on first use. */
    method Increment(day: nat, userID: nat, tunnelID: nat, domain: Domain, bytesIn: int, bytesOut: int, requests: int)
      requires Valid()
      modifies this, records.Values
      ensures Valid() && fresh(records.Values - old(records.Values))
      ensures State() == Next(old(State()), Step.Increment(
                           Entry(Key(day, userID, tunnelID), domain, Counts(bytesIn, bytesOut, requests))))
    {
      ghost var before := State();
      var k := Key(day, userID, tunnelID);
      if k !in records {
        var rec := new UsageRecord(k, domain);
        records := records[k := rec];
      }
      var rec := records[k];
      rec.bytesIn := rec.bytesIn + bytesIn;
      rec.bytesOut := rec.bytesOut + bytesOut;
      rec.requests := rec.requests + requests;
      ghost var e := Entry(k, domain, Counts(bytesIn, bytesOut, requests));
      incremented := incremented + [e];
      assert rec.ToEntry() == Added(before.memory, e)[k];
      assert State().memory == Added(before.memory, e);
    }

    /** Copy every record out, in the map's own order, and start again empty. */
    method SnapshotAndReset() returns (out: seq<Entry>, ghost order: seq<Key>)
      requires Valid()
      modifies this`records
      ensures records == map[]
      ensures Lists(order, old(State().memory)) && out == Collect(old(State().memory), order)
    {
      ghost var memory := State().memory;
      out, order := [], [];
      var todo := records.Keys;
      assert Collect(memory, []) == [];
      while todo != {}
        invariant todo <= records.Keys && records == old(records) && memory == old(State().memory)
        invariant forall k :: k in order <==> k in records && k !in todo
        invariant forall i, j :: 0 <= i < j < |order| ==> order[i] != order[j]
        invariant out == Collect(memory, order)
      {
        var k :| k in todo;
        CollectAppend(memory, order, k);
        out := out + [records[k].ToEntry()];
        order := order + [k];
        todo := todo - {k};
      }
      records := map[];
    }

    /**
     One batch in one transaction: all of its records or, when an operation fails, none. `fault` is the
     first failing operation.
     */
    method ProcessBatch(batch: seq<Entry>, fault: nat) returns (failed: bool)
      modifies db
      ensures failed == !Commits(|batch|, fault)
      ensures db.rows == if failed then old(db.rows) else UpsertAll(old(db.rows), batch)
    {
      if fault == 0 {
        return true;
      }
      var tx := db.rows;
      var i := 0;
      while i < |batch|
        invariant 0 <= i <= |batch| && i < fault
        invariant UpsertAll(tx, batch[i..]) == UpsertAll(db.rows, batch)
        invariant db.rows == old(db.rows)
      {
        assert batch[i..][0] == batch[i] && batch[i..][1..] == batch[i + 1..];
        if fault == i + 1 {
          return true;
        }
        tx := Upsert(tx, batch[i]);
        i := i + 1;
      }
      assert batch[i..] == [];
      if fault == |batch| + 1 {
        return true;
      }
      db.rows := tx;
      return false;
    }

    /** Flush a snapshot batch by batch, stopping at the first batch that fails. */
    method FlushToDB(faults: nat -> nat) returns (failed: bool, ghost order: seq<Key>)
      requires Valid()
      modifies this, db
      ensures Valid() && records == map[]
      ensures Lists(order, old(State().memory))
      ensures State() == Drained(Next(old(State()), Snapshot(order)), faults, 0)
      ensures failed <==> dropped != old(dropped)
    {
      ghost var before := State();
      var snapshot;
      snapshot, order := SnapshotAndReset();
      if |snapshot| == 0 {
        assert State().memory == before.memory;
        return false, order;
      }
      assert Rest(snapshot, 0) == Next(before, Snapshot(order));
      failed := FlushBatches(snapshot, faults);
    }

    /** One turn of the flush: the batch from `i` to `end`. */
    method FlushBatch(snapshot: seq<Entry>, i: nat, end: nat, faults: nat -> nat, batch: nat) returns (failed: bool)
      requires records == map[] && i < |snapshot|
      requires end == if i + BatchSize > |snapshot| then |snapshot| else i + BatchSize
      modifies this`dropped, db
      ensures var now := old(Rest(snapshot, i));
              Rest(snapshot, if failed then |snapshot| else end) == Next(now, BatchStep(now, faults, batch))
      ensures dropped == if failed then old(dropped) + snapshot[i..] else old(dropped)
    {
      SliceOfRest(snapshot, i, end);
      failed := ProcessBatch(snapshot[i..end], faults(batch));
      if failed {
        dropped := dropped + snapshot[i..];
      }
    }

    /** The batches of a flush. */
    method FlushBatches(snapshot: seq<Entry>, faults: nat -> nat) returns (failed: bool)
      requires records == map[]
      modifies this`dropped, db
      ensures State() == Drained(old(Rest(snapshot, 0)), faults, 0)
      ensures failed <==> dropped != old(dropped)
    {
      ghost var l := Rest(snapshot, 0);
      var i, batch := 0, 0;
      while i < |snapshot|
        invariant 0 <= i <= |snapshot| && dropped == old(dropped)
        invariant Drained(l, faults, 0) == Drained(Rest(snapshot, i), faults, batch)
      {
        var end := if i + BatchSize > |snapshot| then |snapshot| else i + BatchSize;
        failed := FlushBatch(snapshot, i, end, faults, batch);
        if failed {
          assert State() == Rest(snapshot, |snapshot|);
          return;
        }
        i, batch := end, batch + 1;
      }
      failed := false;
      assert State() == Rest(snapshot, i);
    }

    /** The ledger with the snapshot from `i` on still to go. */
    ghost function Rest(snapshot: seq<Entry>, i: nat): Ledger
      requires i <= |snapshot|
      reads this, records.Values, db
    {
      State().(flights := if i == |snapshot| then [] else [snapshot[i..]])
    }
  }

  /** The next batch of what is left is the slice the loop cuts. */
  lemma {:induction false} SliceOfRest(snapshot: seq<Entry>, i: nat, end: nat)
    requires i < |snapshot| && end == if i + BatchSize > |snapshot| then |snapshot| else i + BatchSize
    ensures var rest := snapshot[i..];
            && FirstBatch(rest) == end - i
            && rest[..end - i] == snapshot[i..end] && rest[end - i..] == snapshot[end..]
  {
  }

  lemma {:induction false} CollectAppend(memory: map<Key, Entry>, order: seq<Key>, k: Key)
    requires k in memory && forall x :: x in order ==> x in memory
    ensures Collect(memory, order + [k]) == Collect(memory, order) + [memory[k]]
  {
    if order == [] {
      assert ([] + [k])[1..] == [];
    } else {
      CollectAppend(memory, order[1..], k);
      assert (order + [k])[1..] == order[1..] + [k];
    }
  }
}
