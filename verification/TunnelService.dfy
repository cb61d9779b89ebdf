/**
 The tunnel service and the DNS monitor as the objects that change the table: validation by search
 loops, then one write, tied to the operations of `TunnelTable`.
 */
module TunnelService {
  import opened Sequences
  import opened TunnelTable

  class Tunnels {
    const config: Config
    var rows: map<Id, Row>
    var nextId: Id
    ghost var resolved: set<string>

    constructor (config: Config)
      ensures this.config == config && State() == Empty
    {
      this.config := config;
      rows, nextId, resolved := map[], 1, {};
    }

    ghost function State(): Table
      reads this
    {
      Table(rows, nextId, resolved)
    }

    /** The ids of a user's tunnels. */
    method GetByUserID(user: User) returns (ids: set<Id>)
      ensures ids == set id | id in rows && rows[id].owner == user
    {
      ids := set id | id in rows && rows[id].owner == user;
    }

    /** Look through a user's tunnels, but for one, for a port. */
    method FindPort(user: User, port: int, except: Option<Id>) returns (taken: bool)
      ensures except.None? ==> taken == UsesPort(rows, user, port)
      ensures except.Some? ==> taken == UsesPortElsewhere(rows, user, port, except.value)
    {
      var todo := GetByUserID(user);
      while todo != {}
        invariant forall id :: id in todo ==> id in rows && rows[id].owner == user
        invariant forall id :: id in rows && rows[id].owner == user && rows[id].targetPort == port
                    ==> id in todo || except == Some(id)
      {
        var id :| id in todo;
        if rows[id].targetPort == port && except != Some(id) {
          return true;
        }
        todo := todo - {id};
      }
      return false;
    }

    method FindAutoGenerated(user: User) returns (found: bool)
      ensures found == HasAutoGenerated(config, rows, user)
    {
      var todo := GetByUserID(user);
      while todo != {}
        invariant forall id :: id in todo ==> id in rows && rows[id].owner == user
        invariant forall id :: id in rows && rows[id].owner == user && IsAutoGenerated(config, rows[id].domain)
                    ==> id in todo
      {
        var id :| id in todo;
        if IsAutoGenerated(config, rows[id].domain) {
          return true;
        }
        todo := todo - {id};
      }
      return false;
    }

    /** Go through the addresses found for the server's. */
    method VerifyDomain(domain: string, lookup: Lookup) returns (verified: bool)
      modifies this`resolved
      ensures verified == Points(config, lookup)
      ensures resolved == old(resolved) + Resolved(config, domain, lookup)
    {
      verified := false;
      if lookup.Addresses? {
        var todo := lookup.found;
        while todo != {} && !verified
          invariant todo <= lookup.found
          invariant verified == (config.serverIP.Some? && config.serverIP.value in lookup.found - todo)
        {
          var ip :| ip in todo;
          verified := config.serverIP == Some(ip);
          todo := todo - {ip};
        }
      }
      resolved := resolved + Resolved(config, domain, lookup);
    }

    /** Store a new row; the database refuses an empty or taken domain and a port that is not positive. */
    method Insert(row: Row) returns (outcome: Outcome)
      modifies this`rows, this`nextId
      ensures if row.domain == "" || row.targetPort <= 0 || DomainTaken(old(rows), row.domain)
              then outcome == Refused(Database) && rows == old(rows) && nextId == old(nextId)
              else
                && outcome == Done(old(nextId)) && nextId == old(nextId) + 1
                && rows == old(rows)[old(nextId) := row.(status := Verified)]
    {
      var domains := set id | id in rows :: rows[id].domain;
      if row.domain == "" || row.targetPort <= 0 || row.domain in domains {
        return Refused(Database);
      }
      rows := rows[nextId := row.(status := Verified)];
      nextId := nextId + 1;
      return Done(nextId - 1);
    }

    method CreateTunnel(user: User, domain: string, targetPort: int, lookup: Lookup) returns (outcome: Outcome)
      modifies this
      ensures outcome == CreateOutcome(config, old(State()), user, domain, targetPort)
      ensures State() == Next(config, old(State()), Create(user, domain, targetPort, lookup))
    {
      if IsReserved(config, domain) {
        return Refused(Validation);
      }
      var taken := FindPort(user, targetPort, None);
      if taken {
        return Refused(Conflict);
      }
      var isEnabled, status := true, Verified;
      if IsAutoGenerated(config, domain) {
        var has := FindAutoGenerated(user);
        if has {
          return Refused(Conflict);
        }
        if domain != GenerateSubdomain(config, user) {
          return Refused(Validation);
        }
      } else if config.serverIP.Some? {
        var dnsVerified := VerifyDomain(domain, lookup);
        if !dnsVerified {
          isEnabled, status := false, PendingDns;
        }
      }
      outcome := Insert(Row(domain, targetPort, isEnabled, status, user));
    }

    method UpdateTunnel(user: User, id: Id, changes: Changes, lookup: Lookup) returns (outcome: Outcome)
      modifies this
      ensures outcome == UpdateOutcome(config, old(State()), user, id, changes, lookup)
      ensures State() == Next(config, old(State()), Update(user, id, changes, lookup))
    {
      if id !in rows {
        return Refused(NotFound);
      }
      var current := rows[id];
      if changes.targetPort.Some? && changes.targetPort.value != current.targetPort {
        var taken := FindPort(user, changes.targetPort.value, Some(id));
        if taken {
          return Refused(Conflict);
        }
      }
      var status := current.status;
      if MustVerify(config, current, changes) {
        var dnsVerified := VerifyDomain(current.domain, lookup);
        if !dnsVerified {
          return Refused(Validation);
        }
        status := Verified;
      }
      if changes.targetPort.Some? && changes.targetPort.value <= 0 {
        return Refused(Database);
      }
      var row := current.(status := status);
      if changes.isEnabled.Some? {
        row := row.(isEnabled := changes.isEnabled.value);
      }
      if changes.targetPort.Some? {
        row := row.(targetPort := changes.targetPort.value);
      }
      rows := rows[id := row];
      return Done(id);
    }

    method DeleteTunnel(id: Id) returns (outcome: Outcome)
      modifies this
      ensures outcome == if id in old(rows) then Done(id) else Refused(NotFound)
      ensures State() == Next(config, old(State()), Delete(id))
    {
      if id !in rows {
        assert rows - {id} == rows;
        return Refused(NotFound);
      }
      rows := rows - {id};
      return Done(id);
    }

    /** The monitor's turn at one pending row. */
    method VerifyTunnel(id: Id, lookup: Lookup, fails: bool)
      requires id in rows
      modifies this`rows, this`resolved
      ensures State() == RowChecked(config, old(State()), id, lookup, fails)
    {
      var matched := VerifyDomain(rows[id].domain, lookup);
      if matched && !fails {
        rows := rows[id := rows[id].(isEnabled := true, status := Verified)];
      }
    }

    /** One round of the monitor over the rows found pending at its start. */
    method VerifyTunnels(lookups: string -> Lookup, failing: set<Id>)
      modifies this
      ensures State() == Next(config, old(State()), Monitor(lookups, failing))
    {
      ghost var before := State();
      var todo := set id | id in rows && Pending(rows[id]);
      RoundStarts(config, before, todo, lookups, failing);
      while todo != {}
        invariant forall id :: id in todo ==> id in before.rows && Pending(before.rows[id])
        invariant State() == Round(config, before, todo, lookups, failing)
      {
        var id :| id in todo;
        RoundStep(config, before, todo, id, lookups, failing);
        VerifyTunnel(id, lookups(rows[id].domain), id in failing);
        todo := todo - {id};
      }
    }
  }

  ghost function RowChecked(c: Config, t: Table, id: Id, lookup: Lookup, fails: bool): Table
    requires id in t.rows
  {
    var row := t.rows[id];
    t.(rows := if Points(c, lookup) && !fails then t.rows[id := row.(isEnabled := true, status := Verified)] else t.rows,
       resolved := t.resolved + Resolved(c, row.domain, lookup))
  }

  /** A round that has still to reach the rows in `todo`. */
  ghost function Round(c: Config, t: Table, todo: set<Id>, lookups: string -> Lookup, failing: set<Id>): Table {
    t.(rows := map id | id in t.rows ::
         if id !in todo && MonitorEnables(c, t.rows, id, lookups, failing)
         then t.rows[id].(isEnabled := true, status := Verified) else t.rows[id],
       resolved := t.resolved + set id | id in t.rows && id !in todo && Pending(t.rows[id])
                                         && Points(c, lookups(t.rows[id].domain)) :: t.rows[id].domain)
  }

  lemma {:induction false} RoundStarts(c: Config, t: Table, todo: set<Id>, lookups: string -> Lookup, failing: set<Id>)
    requires todo == set id | id in t.rows && Pending(t.rows[id])
    ensures Round(c, t, todo, lookups, failing) == t
    ensures Round(c, t, {}, lookups, failing) == Next(c, t, Monitor(lookups, failing))
  {
    assert Round(c, t, todo, lookups, failing).rows == t.rows;
    assert Round(c, t, {}, lookups, failing).rows == AfterMonitor(c, t.rows, lookups, failing);
  }

  lemma {:induction false} RoundStep(c: Config, t: Table, todo: set<Id>, id: Id, lookups: string -> Lookup, failing: set<Id>)
    requires id in todo && id in t.rows && Pending(t.rows[id])
    ensures var now := Round(c, t, todo, lookups, failing);
            && now.rows[id] == t.rows[id]
            && RowChecked(c, now, id, lookups(t.rows[id].domain), id in failing)
               == Round(c, t, todo - {id}, lookups, failing)
  {
    var now, next := Round(c, t, todo, lookups, failing), Round(c, t, todo - {id}, lookups, failing);
    var checked := RowChecked(c, now, id, lookups(t.rows[id].domain), id in failing);
    assert checked.rows == next.rows;
    assert checked.resolved == next.resolved;
  }
}
