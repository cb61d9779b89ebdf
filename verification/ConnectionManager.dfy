/**
 The connection manager and its pools as objects, tied operation by operation to `Pools`.
 */
module ConnectionManager {
  import opened Sequences
  import opened Pools
  import RR = RoundRobin

  class TunnelConnectionPool {
    ghost const domain: Domain   // whose pool it is
    ghost const forWs: bool
    var connections: seq<Conn>
    var roundRobin: nat

    constructor (ghost domain: Domain, ghost forWs: bool)
      ensures this.domain == domain && this.forWs == forWs
      ensures connections == [] && roundRobin == 0
    {
      this.domain, this.forWs := domain, forWs;
      connections, roundRobin := [], 0;
    }

    method AddConnection(c: Conn)
      modifies this`connections
      ensures connections == old(connections) + [c]
    {
      connections := connections + [c];
    }

    /**
     The next connection in turn, or nothing from an empty pool. One without a socket is not handed out;
     a cleanup of the pool is started instead.
     */
    method GetConnection(withSocket: set<Conn>) returns (picked: seq<Conn>, startCleanup: bool)
      requires roundRobin < RR.TWO_TO_64
      modifies this`roundRobin
      ensures if connections == [] then picked == [] && !startCleanup && roundRobin == old(roundRobin)
              else
                && roundRobin == RR.Advance(old(roundRobin))
                && var c := connections[RR.Picks(old(roundRobin), |connections|, 1)[0]];
                   if c in withSocket then picked == [c] && !startCleanup else picked == [] && startCleanup
    {
      if |connections| == 0 {
        return [], false;
      }
      roundRobin := (roundRobin + 1) % RR.TWO_TO_64;
      var conn := connections[roundRobin % |connections|];
      if conn !in withSocket {
        return [], true;
      }
      return [conn], false;
    }

    /** Cut the first occurrence out of the slice; tell whether there was one. */
    method RemoveConnection(target: Conn) returns (found: set<Conn>)
      modifies this`connections
      ensures connections == WithoutFirst(old(connections), target)
      ensures found == Members(old(connections)) * {target}
    {
      var i := 0;
      while i < |connections| && connections[i] != target
        invariant 0 <= i <= |connections|
        invariant forall j :: 0 <= j < i ==> connections[j] != target
        invariant connections == old(connections)
      {
        i := i + 1;
      }
      if i < |connections| {
        CutFirst(connections, i, target);
        connections := connections[..i] + connections[i + 1..];
        return {target};
      }
      Absent(connections, target);
      return {};
    }

    /** Keep the healthy connections, in order; the others are closed. */
    method CleanupDeadConnections(healthy: set<Conn>) returns (dead: set<Conn>)
      modifies this`connections
      ensures connections == Keep(old(connections), healthy)
      ensures dead == Members(old(connections)) - healthy
    {
      var kept := [];
      dead := {};
      var i := 0;
      while i < |connections|
        invariant 0 <= i <= |connections| && connections == old(connections)
        invariant Keep(connections, healthy) == kept + Keep(connections[i..], healthy)
        invariant dead == Members(connections[..i]) - healthy
      {
        var tail := connections[i..];
        assert tail[0] == connections[i] && tail[1..] == connections[i + 1..];
        assert connections[..i + 1] == connections[..i] + [connections[i]];
        if connections[i] in healthy {
          kept := kept + [connections[i]];
        } else {
          dead := dead + {connections[i]};
        }
        i := i + 1;
      }
      assert connections[..i] == connections && connections[i..] == [];
      connections := kept;
    }

    method Close() returns (all: set<Conn>)
      modifies this`connections
      ensures connections == [] && all == Members(old(connections))
    {
      all := Members(connections);
      connections := [];
    }
  }

  /** Making the domain's entry first changes nothing about what `Add` comes to. */
  lemma {:induction false} AddCreates(before: Manager, m: Manager, op: Op)
    requires op.Add? && m == before.(domains := before.domains[op.d := PoolsOf(before, op.d)])
    ensures Next(before, op) == Next(m, op)
  {
    assert m.domains[op.d := PoolsOf(m, op.d)] == before.domains[op.d := PoolsOf(before, op.d)];
    var p := PoolsOf(m, op.d);
    assert m.domains[op.d := p.(http := p.http + [op.c])] == before.domains[op.d := p.(http := p.http + [op.c])];
    assert m.domains[op.d := p.(ws := p.ws + [op.c])] == before.domains[op.d := p.(ws := p.ws + [op.c])];
  }

  /** The connections of all domains but those in `todo`, as one more domain is dealt with. */
  lemma {:induction false} OneMoreDomain(m: Manager, todo: set<Domain>, d: Domain)
    requires d in todo && todo <= m.domains.Keys
    ensures var before, after := m.(domains := m.domains - todo), m.(domains := m.domains - (todo - {d}));
            && AllHttp(after) == AllHttp(before) + Members(m.domains[d].http)
            && AllWs(after) == AllWs(before) + Members(m.domains[d].ws)
  {
    var before, after := m.(domains := m.domains - todo), m.(domains := m.domains - (todo - {d}));
    assert after.domains == before.domains[d := m.domains[d]];
    forall c
      ensures c in AllHttp(after) <==> c in AllHttp(before) || c in m.domains[d].http
      ensures c in AllWs(after) <==> c in AllWs(before) || c in m.domains[d].ws
    {
      assert d in after.domains;
      assert forall e :: e in before.domains ==> e in after.domains && after.domains[e] == before.domains[e];
    }
  }

  /** A cleanup that has still to reach the domains in `todo`. */
  ghost function Swept(m: Manager, todo: set<Domain>, healthy: set<Conn>): Manager {
    m.(domains := map d | d in m.domains ::
         if d in todo then m.domains[d] else m.domains[d].(http := Keep(m.domains[d].http, healthy)),
       closed := m.closed + (AllHttp(m.(domains := m.domains - todo)) - healthy))
  }

  /** A closing that has still to reach the domains in `todo`. */
  ghost function Shut(m: Manager, todo: set<Domain>): Manager {
    var reached := m.(domains := m.domains - todo);
    m.(domains := m.domains - (m.domains.Keys - todo),
       closed := m.closed + AllHttp(reached) + AllWs(reached))
  }

  /** What closing one domain comes to. */
  ghost function ShutDomain(m: Manager, d: Domain): Manager
    requires d in m.domains
  {
    var p := m.domains[d];
    m.(domains := m.domains - {d}, closed := m.closed + Members(p.http) + Members(p.ws))
  }

  /** What taking a connection out of one of a domain's pools comes to, before and after it is closed or handed over. */
  ghost function WithoutConn(m: Manager, d: Domain, fromWs: bool, c: Conn): Manager
    requires d in m.domains
  {
    var p := m.domains[d];
    m.(domains := m.domains[d := if fromWs then p.(ws := WithoutFirst(p.ws, c)) else p.(http := WithoutFirst(p.http, c))])
  }

  ghost function PoolMembers(m: Manager, d: Domain, fromWs: bool): set<Conn>
    requires d in m.domains
  {
    if fromWs then Members(m.domains[d].ws) else Members(m.domains[d].http)
  }

  ghost function TakenOut(m: Manager, d: Domain, fromWs: bool, closing: bool, c: Conn): Manager
    requires d in m.domains
  {
    var found := PoolMembers(m, d, fromWs) * {c};
    WithoutConn(m, d, fromWs, c).(closed := if closing then m.closed + found else m.closed,
                                  taken := if closing then m.taken else m.taken + found)
  }

  /** A removal is taking out, and then dropping the domain if nothing is left. */
  lemma {:induction false} TakeOutThenSettle(m: Manager, d: Domain, c: Conn)
    requires d in m.domains
    ensures Next(TakenOut(m, d, false, true, c), RemoveDomain(d)) == Next(m, RemoveHttp(d, c))
    ensures Next(TakenOut(m, d, true, true, c), RemoveDomain(d)) == Next(m, RemoveWs(d, c))
    ensures Next(TakenOut(m, d, true, false, c), RemoveDomain(d)) == Next(m, TakeWs(d, c))
  {
    forall fromWs: bool, closing: bool
      ensures TakenOut(m, d, fromWs, closing, c).domains - {d} == m.domains - {d}
    {
    }
  }

  lemma {:induction false} SweptOneMore(m: Manager, todo: set<Domain>, d: Domain, healthy: set<Conn>)
    requires d in todo && todo <= m.domains.Keys
    ensures Next(Swept(m, todo, healthy), Sweep(d, Http, healthy)) == Swept(m, todo - {d}, healthy)
  {
    OneMoreDomain(m, todo, d);
    assert Next(Swept(m, todo, healthy), Sweep(d, Http, healthy)).domains == Swept(m, todo - {d}, healthy).domains;
  }

  lemma {:induction false} ShutOneMore(m: Manager, todo: set<Domain>, d: Domain)
    requires d in todo && todo <= m.domains.Keys
    ensures ShutDomain(Shut(m, todo), d) == Shut(m, todo - {d})
  {
    OneMoreDomain(m, todo, d);
    assert ShutDomain(Shut(m, todo), d).domains == Shut(m, todo - {d}).domains;
  }

  lemma {:induction false} SweptAndShut(m: Manager, healthy: set<Conn>)
    ensures Swept(m, m.domains.Keys, healthy) == m && Swept(m, {}, healthy) == Next(m, CleanupDead(healthy))
    ensures Shut(m, m.domains.Keys) == m && Shut(m, {}) == Next(m, CloseAll)
  {
    assert m.domains - m.domains.Keys == map[] && m.domains - {} == m.domains;
    assert Swept(m, m.domains.Keys, healthy).domains == m.domains == Shut(m, m.domains.Keys).domains;
    assert Swept(m, {}, healthy).domains == Next(m, CleanupDead(healthy)).domains;
  }

  datatype DomainConnections = DomainConnections(httpPool: TunnelConnectionPool, wsPool: TunnelConnectionPool)

  class Connections {
    var connections: map<Domain, DomainConnections>
    ghost var closed: set<Conn>
    ghost var taken: set<Conn>
    ghost var given: set<Conn>

    constructor ()
      ensures Valid() && State() == NoConnections
    {
      connections := map[];
      closed, taken, given := {}, {}, {};
    }

    ghost function Repr(): set<object>
      reads this
    {
      (set d | d in connections :: connections[d].httpPool as object)
      + (set d | d in connections :: connections[d].wsPool as object)
    }

    /** Every pool belongs to one domain and one kind of connection. */
    ghost predicate Valid()
      reads this
    {
      forall d :: d in connections ==>
        var p := connections[d];
        && p.httpPool.domain == d && !p.httpPool.forWs
        && p.wsPool.domain == d && p.wsPool.forWs
    }

    ghost function State(): Manager
      reads this, Repr()
    {
      Manager(map d | d in connections ::
                DomainPools(connections[d].httpPool.connections, connections[d].wsPool.connections),
              closed, taken, given)
    }

    /** The domain's entry, made if it is not there. */
    method GetOrCreate(domain: Domain) returns (p: DomainConnections)
      requires Valid()
      modifies this`connections
      ensures Valid() && fresh(Repr() - old(Repr()))
      ensures domain in connections && connections[domain] == p
      ensures var before := old(State());
              State() == before.(domains := before.domains[domain := PoolsOf(before, domain)])
    {
      if domain !in connections {
        var httpPool := new TunnelConnectionPool(domain, false);
        var wsPool := new TunnelConnectionPool(domain, true);
        connections := connections[domain := DomainConnections(httpPool, wsPool)];
      }
      p := connections[domain];
    }

    /** The HTTP case of `AddConnection`, once the domain has its entry. */
    method AddHTTP(domain: Domain, conn: Conn)
      requires Valid() && domain in connections
      modifies this`given, Repr()
      ensures Valid()
      ensures var m := old(State()); var p := m.domains[domain];
              State() == m.(domains := m.domains[domain := p.(http := p.http + [conn])], given := m.given + {conn})
    {
      ghost var m := State();
      connections[domain].httpPool.AddConnection(conn);
      given := given + {conn};
      assert State().domains == m.domains[domain := m.domains[domain].(http := m.domains[domain].http + [conn])];
    }

    /** The WebSocket case: over the limit the connection is closed instead of added. */
    method AddWebSocket(domain: Domain, conn: Conn)
      requires Valid() && domain in connections
      modifies this`given, this`closed, Repr()
      ensures Valid()
      ensures var m := old(State()); var p := m.domains[domain];
              State() == if |p.ws| >= MaxWebSocketTunnelsPerDomain
                         then m.(closed := m.closed + {conn}, given := m.given + {conn})
                         else m.(domains := m.domains[domain := p.(ws := p.ws + [conn])], given := m.given + {conn})
    {
      ghost var m := State();
      given := given + {conn};
      if |connections[domain].wsPool.connections| >= MaxWebSocketTunnelsPerDomain {
        closed := closed + {conn};
        assert State().domains == m.domains;
      } else {
        connections[domain].wsPool.AddConnection(conn);
        assert State().domains == m.domains[domain := m.domains[domain].(ws := m.domains[domain].ws + [conn])];
      }
    }

    method AddConnection(domain: Domain, conn: Conn, connType: ConnType)
      requires Valid()
      modifies this, Repr()
      ensures Valid() && fresh(Repr() - old(Repr()))
      ensures State() == Next(old(State()), Add(domain, conn, connType))
    {
      ghost var before := State();
      var p := GetOrCreate(domain);
      ghost var m := State();
      AddCreates(before, m, Add(domain, conn, connType));
      match connType
      case Http => AddHTTP(domain, conn);
      case WebSocket => AddWebSocket(domain, conn);
    }

    /** Remove the domain if no connection is left in either pool. */
    method RemoveConnection(domain: Domain)
      requires Valid()
      modifies this
      ensures Valid() && Repr() <= old(Repr())
      ensures State() == Next(old(State()), RemoveDomain(domain))
    {
      if domain in connections {
        var p := connections[domain];
        if p.httpPool.connections == [] && p.wsPool.connections == [] {
          connections := connections - {domain};
        }
      }
    }

    /** Take a connection out of one of the domain's pools. */
    method TakeFromPool(domain: Domain, fromWs: bool, target: Conn) returns (found: set<Conn>)
      requires Valid() && domain in connections
      modifies Repr()
      ensures Valid() && State() == WithoutConn(old(State()), domain, fromWs, target)
      ensures found == PoolMembers(old(State()), domain, fromWs) * {target}
    {
      ghost var m := State();
      if fromWs {
        found := connections[domain].wsPool.RemoveConnection(target);
      } else {
        found := connections[domain].httpPool.RemoveConnection(target);
      }
      assert State().domains == WithoutConn(m, domain, fromWs, target).domains;
    }

    /** And close it or hand it over. */
    method TakeOut(domain: Domain, fromWs: bool, closing: bool, target: Conn)
      requires Valid() && domain in connections
      modifies this`closed, this`taken, Repr()
      ensures Valid() && State() == TakenOut(old(State()), domain, fromWs, closing, target)
    {
      var found := TakeFromPool(domain, fromWs, target);
      ghost var m := State();
      if closing {
        closed := closed + found;
      } else {
        taken := taken + found;
      }
      assert State().domains == m.domains;
    }

    method RemoveSpecificHTTPConnection(domain: Domain, target: Conn)
      requires Valid()
      modifies this, Repr()
      ensures Valid() && Repr() <= old(Repr())
      ensures State() == Next(old(State()), RemoveHttp(domain, target))
    {
      if domain in connections {
        TakeOutThenSettle(State(), domain, target);
        TakeOut(domain, false, true, target);
        RemoveConnection(domain);
      }
    }

    method RemoveSpecificWebSocketConnection(domain: Domain, target: Conn)
      requires Valid()
      modifies this, Repr()
      ensures Valid() && Repr() <= old(Repr())
      ensures State() == Next(old(State()), RemoveWs(domain, target))
    {
      if domain in connections {
        TakeOutThenSettle(State(), domain, target);
        TakeOut(domain, true, true, target);
        RemoveConnection(domain);
      }
    }

    method RemoveSpecificWebSocketConnectionWithoutClosing(domain: Domain, target: Conn)
      requires Valid()
      modifies this, Repr()
      ensures Valid() && Repr() <= old(Repr())
      ensures State() == Next(old(State()), TakeWs(domain, target))
    {
      if domain in connections {
        TakeOutThenSettle(State(), domain, target);
        TakeOut(domain, true, false, target);
        RemoveConnection(domain);
      }
    }

    /** Drop the unhealthy connections of one pool: a part of `CleanupDeadConnections`, or started by `GetConnection`. */
    method CleanupPool(d: Domain, connType: ConnType, healthy: set<Conn>)
      requires Valid() && d in connections
      modifies this`closed, Repr()
      ensures Valid() && Repr() == old(Repr())
      ensures State() == Next(old(State()), Sweep(d, connType, healthy))
    {
      ghost var m := State();
      var dead;
      match connType {
        case Http => dead := connections[d].httpPool.CleanupDeadConnections(healthy);
        case WebSocket => dead := connections[d].wsPool.CleanupDeadConnections(healthy);
      }
      closed := closed + dead;
      assert State().domains == Next(m, Sweep(d, connType, healthy)).domains;
    }

    /** Drop the unhealthy HTTP connections of every domain; the domains stay, even empty. */
    method CleanupDeadConnections(healthy: set<Conn>)
      requires Valid()
      modifies this`closed, Repr()
      ensures Valid() && Repr() == old(Repr())
      ensures State() == Next(old(State()), CleanupDead(healthy))
    {
      ghost var m := State();
      var todo := connections.Keys;
      SweptAndShut(m, healthy);
      while todo != {}
        invariant Valid() && Repr() == old(Repr()) && todo <= m.domains.Keys
        invariant State() == Swept(m, todo, healthy)
      {
        var d :| d in todo;
        SweptOneMore(m, todo, d, healthy);
        CleanupPool(d, Http, healthy);
        todo := todo - {d};
      }
    }

    /** One domain's part of `Close`. */
    method CloseDomain(d: Domain)
      requires Valid() && d in connections
      modifies this`connections, this`closed, connections[d].httpPool, connections[d].wsPool
      ensures Valid() && Repr() <= old(Repr()) && connections.Keys == old(connections.Keys) - {d}
      ensures State() == ShutDomain(old(State()), d)
    {
      ghost var m := State();
      var closedHttp := connections[d].httpPool.Close();
      var closedWs := connections[d].wsPool.Close();
      closed := closed + closedHttp + closedWs;
      connections := connections - {d};
      assert State().domains == m.domains - {d};
    }

    method Close()
      requires Valid()
      modifies this, Repr()
      ensures Valid() && Repr() == {}
      ensures State() == Next(old(State()), CloseAll)
    {
      ghost var m := State();
      SweptAndShut(m, {});
      while connections.Keys != {}
        invariant Valid() && Repr() <= old(Repr()) && connections.Keys <= m.domains.Keys
        invariant State() == Shut(m, connections.Keys)
        decreases connections.Keys
      {
        var d :| d in connections.Keys;
        ShutOneMore(m, connections.Keys, d);
        CloseDomain(d);
      }
    }
  }
}
