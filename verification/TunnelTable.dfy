/**
 The table of tunnels: what creating, updating and deleting a tunnel and a round of the DNS monitor do
 to it, and what every sequence of them keeps.
 */
module TunnelTable {
  import opened Sequences

  type Id = nat
  type User = nat
  type Address = nat

  datatype Status = Verified | PendingDns

  datatype Row = Row(domain: string, targetPort: int, isEnabled: bool, status: Status, owner: User)

  datatype Table = Table(
    rows: map<Id, Row>,
    nextId: Id,
    resolved: set<string>)      // history: domains some lookup has found at the server's address

  /** The server's address and base domain, and the name each user's generated subdomain starts with. */
  datatype Config = Config(serverIP: Option<Address>, baseDomain: string, reservedBase: string, subdomain: User -> string)

  datatype Lookup = LookupFailed | Addresses(found: set<Address>)

  datatype Error = Validation | Conflict | NotFound | Database
  datatype Outcome = Done(id: Id) | Refused(error: Error)

  datatype Changes = Changes(isEnabled: Option<bool>, targetPort: Option<int>)

  datatype Op =
    | Create(user: User, domain: string, port: int, lookup: Lookup)
    | Update(user: User, id: Id, changes: Changes, lookup: Lookup)
    | Delete(id: Id)
    | Monitor(lookups: string -> Lookup, failing: set<Id>)   // `failing`: rows whose update fails

  const Empty := Table(map[], 1, {})

  // ---------- Domains ----------

  predicate HasSuffix(s: string, suffix: string) {
    |suffix| <= |s| && s[|s| - |suffix|..] == suffix
  }

  predicate IsAutoGenerated(c: Config, domain: string) {
    HasSuffix(domain, "." + c.baseDomain)
  }

  function GenerateSubdomain(c: Config, user: User): string {
    c.subdomain(user) + "." + c.baseDomain
  }

  predicate IsReserved(c: Config, domain: string) {
    && c.reservedBase != "" && c.reservedBase != "localhost"
    && domain in {c.reservedBase, "www." + c.reservedBase, "api." + c.reservedBase, "tunnel." + c.reservedBase}
  }

  /** Whether the lookup found the server's address. */
  predicate Points(c: Config, lookup: Lookup) {
    lookup.Addresses? && c.serverIP.Some? && c.serverIP.value in lookup.found
  }

  /** The domains that a lookup made for `domain` adds to the history. */
  function Resolved(c: Config, domain: string, lookup: Lookup): set<string> {
    if Points(c, lookup) then {domain} else {}
  }

  // ---------- Operations ----------

  ghost predicate UsesPort(rows: map<Id, Row>, user: User, port: int) {
    exists id :: id in rows && rows[id].owner == user && rows[id].targetPort == port
  }

  ghost predicate UsesPortElsewhere(rows: map<Id, Row>, user: User, port: int, id: Id) {
    exists other :: other in rows && other != id && rows[other].owner == user && rows[other].targetPort == port
  }

  ghost predicate HasAutoGenerated(c: Config, rows: map<Id, Row>, user: User) {
    exists id :: id in rows && rows[id].owner == user && IsAutoGenerated(c, rows[id].domain)
  }

  ghost predicate DomainTaken(rows: map<Id, Row>, domain: string) {
    exists id :: id in rows && rows[id].domain == domain
  }

  /** Whether a new tunnel starts enabled: a custom domain must resolve to the server, if that is known. */
  predicate StartsEnabled(c: Config, domain: string, lookup: Lookup) {
    IsAutoGenerated(c, domain) || c.serverIP.None? || Points(c, lookup)
  }

  ghost function CreateOutcome(c: Config, t: Table, user: User, domain: string, port: int): Outcome {
    if IsReserved(c, domain) then Refused(Validation)
    else if UsesPort(t.rows, user, port) then Refused(Conflict)
    else if IsAutoGenerated(c, domain) && HasAutoGenerated(c, t.rows, user) then Refused(Conflict)
    else if IsAutoGenerated(c, domain) && domain != GenerateSubdomain(c, user) then Refused(Validation)
    else if domain == "" || port <= 0 || DomainTaken(t.rows, domain) then Refused(Database)
    else Done(t.nextId)
  }

  /** The lookup is made when the checks before it pass, for a custom domain. */
  ghost predicate CreateLooksUp(c: Config, t: Table, user: User, domain: string, port: int) {
    !IsReserved(c, domain) && !UsesPort(t.rows, user, port) && !IsAutoGenerated(c, domain) && c.serverIP.Some?
  }

  /** Whether an update has to verify a custom domain before it may enable the tunnel. */
  predicate MustVerify(c: Config, row: Row, changes: Changes) {
    changes.isEnabled == Some(true) && !row.isEnabled && !IsAutoGenerated(c, row.domain) && c.serverIP.Some?
  }

  ghost predicate PortClashes(t: Table, user: User, id: Id, changes: Changes)
    requires id in t.rows
  {
    && changes.targetPort.Some? && changes.targetPort.value != t.rows[id].targetPort
    && UsesPortElsewhere(t.rows, user, changes.targetPort.value, id)
  }

  ghost function UpdateOutcome(c: Config, t: Table, user: User, id: Id, changes: Changes, lookup: Lookup): Outcome {
    if id !in t.rows then Refused(NotFound)
    else if PortClashes(t, user, id, changes) then Refused(Conflict)
    else if MustVerify(c, t.rows[id], changes) && !Points(c, lookup) then Refused(Validation)
    else if changes.targetPort.Some? && changes.targetPort.value <= 0 then Refused(Database)
    else Done(id)
  }

  function Changed(c: Config, row: Row, changes: Changes): Row {
    row.(isEnabled := if changes.isEnabled.Some? then changes.isEnabled.value else row.isEnabled,
         targetPort := if changes.targetPort.Some? then changes.targetPort.value else row.targetPort,
         status := if MustVerify(c, row, changes) then Verified else row.status)
  }

  predicate Pending(row: Row) {
    row.status == PendingDns && !row.isEnabled
  }

  predicate MonitorEnables(c: Config, rows: map<Id, Row>, id: Id, lookups: string -> Lookup, failing: set<Id>) {
    id in rows && Pending(rows[id]) && Points(c, lookups(rows[id].domain)) && id !in failing
  }

  function AfterMonitor(c: Config, rows: map<Id, Row>, lookups: string -> Lookup, failing: set<Id>): map<Id, Row> {
    map id | id in rows ::
      if MonitorEnables(c, rows, id, lookups, failing) then rows[id].(isEnabled := true, status := Verified)
      else rows[id]
  }

  ghost function Next(c: Config, t: Table, op: Op): Table {
    match op
    case Create(user, domain, port, lookup) =>
      var t' := if CreateLooksUp(c, t, user, domain, port)
                then t.(resolved := t.resolved + Resolved(c, domain, lookup)) else t;
      if CreateOutcome(c, t, user, domain, port).Done? then
        // the repository does not store the status the service chose: the column's default is Verified
        t'.(rows := t.rows[t.nextId := Row(domain, port, StartsEnabled(c, domain, lookup), Verified, user)],
            nextId := t.nextId + 1)
      else t'
    case Update(user, id, changes, lookup) =>
      if id !in t.rows || PortClashes(t, user, id, changes) then t
      else
        var row := t.rows[id];
        var t' := if MustVerify(c, row, changes)
                  then t.(resolved := t.resolved + Resolved(c, row.domain, lookup)) else t;
        if UpdateOutcome(c, t, user, id, changes, lookup).Done? then t'.(rows := t.rows[id := Changed(c, row, changes)])
        else t'
    case Delete(id) => t.(rows := t.rows - {id})
    case Monitor(lookups, failing) =>
      t.(rows := AfterMonitor(c, t.rows, lookups, failing),
         resolved := t.resolved + set id | id in t.rows && Pending(t.rows[id])
                                           && Points(c, lookups(t.rows[id].domain)) :: t.rows[id].domain)
  }

  // ---------- Invariants ----------

  ghost predicate DistinctPorts(t: Table) {
    forall i, j :: i in t.rows && j in t.rows && i != j && t.rows[i].owner == t.rows[j].owner
      ==> t.rows[i].targetPort != t.rows[j].targetPort
  }

  /** Of the domains under the base domain a user has at most one, the one generated for that user. */
  ghost predicate OwnSubdomain(c: Config, t: Table) {
    && (forall i :: i in t.rows && IsAutoGenerated(c, t.rows[i].domain)
          ==> t.rows[i].domain == GenerateSubdomain(c, t.rows[i].owner))
    && (forall i, j :: (i in t.rows && j in t.rows && t.rows[i].owner == t.rows[j].owner
                        && IsAutoGenerated(c, t.rows[i].domain) && IsAutoGenerated(c, t.rows[j].domain))
          ==> i == j)
  }

  ghost predicate GoodRows(c: Config, t: Table) {
    && (forall i :: i in t.rows ==>
          && i < t.nextId && t.rows[i].domain != "" && t.rows[i].targetPort > 0 && !IsReserved(c, t.rows[i].domain))
    && (forall i, j :: i in t.rows && j in t.rows && t.rows[i].domain == t.rows[j].domain ==> i == j)
  }

  /** When the server's address is known, an enabled custom domain was once seen to resolve to it. */
  ghost predicate EnabledWasVerified(c: Config, t: Table) {
    c.serverIP.Some? ==>
      forall i :: i in t.rows && t.rows[i].isEnabled && !IsAutoGenerated(c, t.rows[i].domain)
        ==> t.rows[i].domain in t.resolved
  }

  /** What every operation keeps, whoever asks for it; distinct ports need the owner to ask. */
  ghost predicate Inv(c: Config, t: Table) {
    OwnSubdomain(c, t) && GoodRows(c, t) && EnabledWasVerified(c, t)
  }

  /** An update is made by the tunnel's owner; the service does not check it. */
  ghost predicate ByOwner(t: Table, op: Op) {
    op.Update? && op.id in t.rows ==> t.rows[op.id].owner == op.user
  }

  /** A new row clashes with no other. */
  ghost predicate Fits(c: Config, t: Table, row: Row) {
    && !UsesPort(t.rows, row.owner, row.targetPort) && !DomainTaken(t.rows, row.domain)
    && row.domain != "" && row.targetPort > 0 && !IsReserved(c, row.domain)
    && (IsAutoGenerated(c, row.domain) ==>
          !HasAutoGenerated(c, t.rows, row.owner) && row.domain == GenerateSubdomain(c, row.owner))
  }

  function Inserted(t: Table, row: Row): Table {
    t.(rows := t.rows[t.nextId := row], nextId := t.nextId + 1)
  }

  lemma {:induction false} InsertKeepsPorts(c: Config, t: Table, row: Row)
    requires DistinctPorts(t) && GoodRows(c, t) && Fits(c, t, row)
    ensures DistinctPorts(Inserted(t, row))
  {
    assert t.nextId !in t.rows;
  }

  lemma {:induction false} InsertKeepsSubdomains(c: Config, t: Table, row: Row)
    requires OwnSubdomain(c, t) && GoodRows(c, t) && Fits(c, t, row)
    ensures OwnSubdomain(c, Inserted(t, row))
  {
    assert t.nextId !in t.rows;
  }

  lemma {:induction false} InsertKeepsRows(c: Config, t: Table, row: Row)
    requires GoodRows(c, t) && Fits(c, t, row)
    ensures GoodRows(c, Inserted(t, row))
  {
    assert t.nextId !in t.rows;
  }

  lemma {:induction false} CreateKeepsInv(c: Config, t: Table, op: Op)
    requires Inv(c, t) && op.Create?
    ensures Inv(c, Next(c, t, op))
    ensures DistinctPorts(t) ==> DistinctPorts(Next(c, t, op))
  {
    if CreateOutcome(c, t, op.user, op.domain, op.port).Done? {
      var row := Row(op.domain, op.port, StartsEnabled(c, op.domain, op.lookup), Verified, op.user);
      assert Next(c, t, op).(resolved := t.resolved) == Inserted(t, row);
      if DistinctPorts(t) {
        InsertKeepsPorts(c, t, row);
      }
      InsertKeepsSubdomains(c, t, row);
      InsertKeepsRows(c, t, row);
    }
  }

  function Replaced(t: Table, id: Id, row: Row): Table {
    t.(rows := t.rows[id := row])
  }

  lemma {:induction false} ReplaceKeeps(c: Config, t: Table, id: Id, row: Row)
    requires OwnSubdomain(c, t) && GoodRows(c, t) && id in t.rows
    requires row.domain == t.rows[id].domain && row.owner == t.rows[id].owner && row.targetPort > 0
    ensures OwnSubdomain(c, Replaced(t, id, row)) && GoodRows(c, Replaced(t, id, row))
  {
  }

  lemma {:induction false} UpdateKeepsInv(c: Config, t: Table, op: Op)
    requires Inv(c, t) && op.Update?
    ensures Inv(c, Next(c, t, op))
    ensures DistinctPorts(t) && ByOwner(t, op) ==> DistinctPorts(Next(c, t, op))
  {
    if UpdateOutcome(c, t, op.user, op.id, op.changes, op.lookup).Done? {
      var row := Changed(c, t.rows[op.id], op.changes);
      assert Next(c, t, op).(resolved := t.resolved) == Replaced(t, op.id, row);
      ReplaceKeeps(c, t, op.id, row);
    }
  }

  lemma {:induction false} StepKeepsInv(c: Config, t: Table, op: Op)
    requires Inv(c, t)
    ensures Inv(c, Next(c, t, op))
    ensures DistinctPorts(t) && ByOwner(t, op) ==> DistinctPorts(Next(c, t, op))
  {
    match op
    case Create(_, _, _, _) => CreateKeepsInv(c, t, op);
    case Update(_, _, _, _) => UpdateKeepsInv(c, t, op);
    case Delete(_) =>
    case Monitor(lookups, failing) =>
      var t' := Next(c, t, op);
      forall i | i in t'.rows && t'.rows[i].isEnabled && !IsAutoGenerated(c, t'.rows[i].domain) && c.serverIP.Some?
        ensures t'.rows[i].domain in t'.resolved
      {
        assert t.rows[i].isEnabled || MonitorEnables(c, t.rows, i, lookups, failing);
      }
  }

  ghost predicate IsRun(c: Config, t: Table, ops: seq<Op>, t': Table)
    decreases ops
  {
    if ops == [] then t == t' else IsRun(c, Next(c, t, ops[0]), ops[1..], t')
  }

  /** Throughout the run, updates are made by owners. */
  ghost predicate OwnersUpdate(c: Config, t: Table, ops: seq<Op>)
    decreases ops
  {
    ops == [] || (ByOwner(t, ops[0]) && OwnersUpdate(c, Next(c, t, ops[0]), ops[1..]))
  }

  lemma {:induction false} RunKeepsInv(c: Config, t: Table, ops: seq<Op>, t': Table)
    requires Inv(c, t) && IsRun(c, t, ops, t')
    ensures Inv(c, t')
    ensures DistinctPorts(t) && OwnersUpdate(c, t, ops) ==> DistinctPorts(t')
    decreases ops
  {
    if ops != [] {
      StepKeepsInv(c, t, ops[0]);
      RunKeepsInv(c, Next(c, t, ops[0]), ops[1..], t');
    }
  }

  /**
   After any sequence of creations, updates, deletions and monitor rounds, whoever asks for them: a user
   has at most one tunnel under the base domain, on that user's generated domain; domains are distinct
   and not reserved; and with the server's address known, an enabled tunnel on a custom domain had an
   earlier lookup that found that address. If updates are made by owners, a user's ports are distinct.
   */
  lemma {:induction false} TableInvariants(c: Config, ops: seq<Op>, t: Table)
    requires IsRun(c, Empty, ops, t)
    ensures OwnSubdomain(c, t) && GoodRows(c, t) && EnabledWasVerified(c, t)
    ensures OwnersUpdate(c, Empty, ops) ==> DistinctPorts(t)
  {
    RunKeepsInv(c, Empty, ops, t);
  }

  // ---------- What does not hold ----------

  /** No row is ever pending, because creating one does not store the status. */
  lemma {:induction false} AlwaysVerified(c: Config, t: Table, ops: seq<Op>, t': Table)
    requires IsRun(c, t, ops, t') && forall i :: i in t.rows ==> t.rows[i].status == Verified
    ensures forall i :: i in t'.rows ==> t'.rows[i].status == Verified
    decreases ops
  {
    if ops != [] {
      AlwaysVerified(c, Next(c, t, ops[0]), ops[1..], t');
    }
  }

  /**
   So in every reachable state a monitor round changes nothing, whatever the lookups find: a tunnel
   created disabled is never enabled by the monitor.
   */
  lemma {:induction false} MonitorNeverActs(c: Config, ops: seq<Op>, t: Table, lookups: string -> Lookup, failing: set<Id>)
    requires IsRun(c, Empty, ops, t)
    ensures Next(c, t, Monitor(lookups, failing)) == t
  {
    AlwaysVerified(c, Empty, ops, t);
    assert AfterMonitor(c, t.rows, lookups, failing) == t.rows;
  }

  /**
   An update checks the caller's ports and not the owner's. It keeps ports distinct exactly when the
   new port is free among the other tunnels of the owner.
   */
  lemma {:induction false} UpdateKeepsPortsIff(c: Config, t: Table, op: Op)
    requires DistinctPorts(t) && op.Update? && UpdateOutcome(c, t, op.user, op.id, op.changes, op.lookup).Done?
    ensures DistinctPorts(Next(c, t, op))
            <==> op.changes.targetPort.None?
                 || op.changes.targetPort.value == t.rows[op.id].targetPort
                 || !UsesPortElsewhere(t.rows, t.rows[op.id].owner, op.changes.targetPort.value, op.id)
  {
    var t' := Next(c, t, op);
    var row := t.rows[op.id];
    assert t'.rows == t.rows[op.id := Changed(c, row, op.changes)];
    if op.changes.targetPort.Some? && UsesPortElsewhere(t.rows, row.owner, op.changes.targetPort.value, op.id) {
      var other :| other in t.rows && other != op.id && t.rows[other].owner == row.owner
                   && t.rows[other].targetPort == op.changes.targetPort.value;
      assert t'.rows[other] == t.rows[other] && t'.rows[op.id].targetPort == t'.rows[other].targetPort;
    }
  }

  /** A custom domain that may be given to a tunnel. */
  predicate FreeName(c: Config, domain: string) {
    domain != "" && !IsReserved(c, domain) && !IsAutoGenerated(c, domain)
  }

  lemma {:induction false} TwoTunnels(c: Config, owner: User, a: string, b: string, p: int, q: int, lookup: Lookup)
      returns (t: Table)
    requires FreeName(c, a) && FreeName(c, b) && a != b && 0 < p && 0 < q && p != q
    ensures IsRun(c, Empty, [Create(owner, a, p, lookup), Create(owner, b, q, lookup)], t)
    ensures t.rows.Keys == {1, 2} && t.rows[1].owner == owner && t.rows[2].owner == owner
    ensures t.rows[1].targetPort == p && t.rows[2].targetPort == q
  {
    var ops := [Create(owner, a, p, lookup), Create(owner, b, q, lookup)];
    var t1 := Next(c, Empty, ops[0]);
    assert t1.rows.Keys == {1} && t1.nextId == 2 && t1.rows[1].domain == a;
    t := Next(c, t1, ops[1]);
    assert ops[1..] == [ops[1]] && ops[1..][1..] == [];
  }

  lemma {:induction false} RunThen(c: Config, t: Table, ops: seq<Op>, t': Table, op: Op)
    requires IsRun(c, t, ops, t')
    ensures IsRun(c, t, ops + [op], Next(c, t', op))
    decreases ops
  {
    if ops == [] {
      assert (ops + [op])[1..] == [];
    } else {
      assert (ops + [op])[1..] == ops[1..] + [op];
      RunThen(c, Next(c, t, ops[0]), ops[1..], t', op);
    }
  }

  /** Another user's update of one of an owner's two tunnels is accepted, and gives both the same port. */
  lemma {:induction false} OthersUpdateClashes(c: Config, owner: User, other: User, a: string, b: string, p: int, q: int)
      returns (ops: seq<Op>, t: Table)
    requires FreeName(c, a) && FreeName(c, b) && a != b && 0 < p && 0 < q && p != q && owner != other
    ensures ops == [Create(owner, a, p, LookupFailed), Create(owner, b, q, LookupFailed),
                    Update(other, 1, Changes(None, Some(q)), LookupFailed)]
    ensures IsRun(c, Empty, ops, t)
    ensures !DistinctPorts(t)
  {
    var creates := [Create(owner, a, p, LookupFailed), Create(owner, b, q, LookupFailed)];
    var update := Update(other, 1, Changes(None, Some(q)), LookupFailed);
    var t0 := TwoTunnels(c, owner, a, b, p, q, LookupFailed);
    RunThen(c, Empty, creates, t0, update);
    ops, t := creates + [update], Next(c, t0, update);
    assert t.rows[1].targetPort == q && t.rows[2] == t0.rows[2];
  }
}
