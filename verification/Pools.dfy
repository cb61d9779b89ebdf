/**
 The pools of tunnel connections as values: where every connection is, and what each operation of the
 connection manager does to it.
 */
module Pools {
  import opened Sequences

  type Conn = nat      // a network connection
  type Domain = nat

  const MaxWebSocketTunnelsPerDomain := 25

  datatype ConnType = Http | WebSocket

  datatype DomainPools = DomainPools(http: seq<Conn>, ws: seq<Conn>)

  datatype Manager = Manager(
    domains: map<Domain, DomainPools>,
    closed: set<Conn>,       // history: connections the manager closed
    taken: set<Conn>,        // history: connections handed over unclosed
    given: set<Conn>)        // history: connections passed to AddConnection

  datatype Op =
    | Add(d: Domain, c: Conn, t: ConnType)
    | RemoveDomain(d: Domain)
    | RemoveHttp(d: Domain, c: Conn)
    | RemoveWs(d: Domain, c: Conn)
    | TakeWs(d: Domain, c: Conn)
    | Sweep(d: Domain, t: ConnType, healthy: set<Conn>)   // one pool is cleaned up
    | CleanupDead(healthy: set<Conn>)                     // all HTTP pools are
    | CloseAll

  const NoConnections := Manager(map[], {}, {}, {})

  function Keep(s: seq<Conn>, healthy: set<Conn>): seq<Conn> {
    if s == [] then []
    else (if s[0] in healthy then [s[0]] else []) + Keep(s[1..], healthy)
  }

  function Members(s: seq<Conn>): set<Conn> {
    set c | c in s
  }

  function PoolsOf(m: Manager, d: Domain): DomainPools {
    if d in m.domains then m.domains[d] else DomainPools([], [])
  }

  /** Put the pools back, or drop the domain once both are empty. */
  function Settle(m: Manager, d: Domain, p: DomainPools): map<Domain, DomainPools> {
    if p.http == [] && p.ws == [] then m.domains - {d} else m.domains[d := p]
  }

  predicate Accepts(m: Manager, op: Op) {
    // a network connection is given to the manager once
    op.Add? ==> op.c !in m.given
  }

  function Next(m: Manager, op: Op): Manager {
    match op
    case Add(d, c, t) =>
      var p := PoolsOf(m, d);
      var m' := m.(given := m.given + {c});
      if t.Http? then m'.(domains := m.domains[d := p.(http := p.http + [c])])
      else if |p.ws| >= MaxWebSocketTunnelsPerDomain then
        m'.(domains := m.domains[d := p], closed := m.closed + {c})
      else m'.(domains := m.domains[d := p.(ws := p.ws + [c])])
    case RemoveDomain(d) =>
      if d in m.domains then m.(domains := Settle(m, d, m.domains[d])) else m
    case RemoveHttp(d, c) =>
      if d !in m.domains then m
      else
        var p := m.domains[d];
        m.(domains := Settle(m, d, p.(http := WithoutFirst(p.http, c))),
           closed := m.closed + (Members(p.http) * {c}))
    case RemoveWs(d, c) =>
      if d !in m.domains then m
      else
        var p := m.domains[d];
        m.(domains := Settle(m, d, p.(ws := WithoutFirst(p.ws, c))),
           closed := m.closed + (Members(p.ws) * {c}))
    case TakeWs(d, c) =>
      if d !in m.domains then m
      else
        var p := m.domains[d];
        m.(domains := Settle(m, d, p.(ws := WithoutFirst(p.ws, c))),
           taken := m.taken + (Members(p.ws) * {c}))
    case Sweep(d, t, healthy) =>
      if d !in m.domains then m
      else
        var p := m.domains[d];
        if t.Http? then
          m.(domains := m.domains[d := p.(http := Keep(p.http, healthy))],
             closed := m.closed + (Members(p.http) - healthy))
        else
          m.(domains := m.domains[d := p.(ws := Keep(p.ws, healthy))],
             closed := m.closed + (Members(p.ws) - healthy))
    case CleanupDead(healthy) =>
      m.(domains := map d | d in m.domains ::
           m.domains[d].(http := Keep(m.domains[d].http, healthy)),
         closed := m.closed + (AllHttp(m) - healthy))
    case CloseAll => m.(domains := map[], closed := m.closed + AllHttp(m) + AllWs(m))
  }

  function AllHttp(m: Manager): set<Conn> {
    set d, c | d in m.domains && c in m.domains[d].http :: c
  }

  function AllWs(m: Manager): set<Conn> {
    set d, c | d in m.domains && c in m.domains[d].ws :: c
  }

  // ---------- Where a connection is ----------

  datatype Place = InHttp(d: Domain) | InWs(d: Domain) | Closed | Taken

  ghost predicate At(m: Manager, c: Conn, p: Place) {
    match p
    case InHttp(d) => d in m.domains && c in m.domains[d].http
    case InWs(d) => d in m.domains && c in m.domains[d].ws
    case Closed => c in m.closed
    case Taken => c in m.taken
  }

  /** Every connection given is in exactly one place, once. */
  ghost predicate Inv(m: Manager) {
    && (forall c, p :: At(m, c, p) ==> c in m.given)
    && (forall c :: c in m.given ==> exists p :: At(m, c, p))
    && (forall c, p, q :: At(m, c, p) && At(m, c, q) ==> p == q)
    && (forall d :: d in m.domains ==>
          && NoDuplicates(m.domains[d].http) && NoDuplicates(m.domains[d].ws)
          && |m.domains[d].ws| <= MaxWebSocketTunnelsPerDomain)
  }

  lemma {:induction false} KeepMembers(s: seq<Conn>, healthy: set<Conn>)
    requires NoDuplicates(s)
    ensures NoDuplicates(Keep(s, healthy))
    ensures forall x :: x in Keep(s, healthy) <==> x in s && x in healthy
    ensures |Keep(s, healthy)| <= |s|
  {
    if s != [] {
      KeepMembers(s[1..], healthy);
      assert forall x :: x in s <==> x == s[0] || x in s[1..];
      assert s[0] !in s[1..];
      var t := (if s[0] in healthy then [s[0]] else []) + Keep(s[1..], healthy);
      assert forall x :: x in t <==> (x == s[0] && s[0] in healthy) || x in Keep(s[1..], healthy);
    }
  }

  /** A connection moves from one place to another, and no other connection moves. */
  ghost predicate Moves(m: Manager, m': Manager, c: Conn, source: Place, target: Place) {
    && m'.given == m.given
    && forall x, p :: At(m', x, p) <==> if x == c && At(m, c, source) then p == target else At(m, x, p)
  }

  lemma {:induction false} MoveKeeps(m: Manager, m': Manager, c: Conn, source: Place, target: Place)
    requires Inv(m) && Moves(m, m', c, source, target)
    requires forall d :: d in m'.domains ==>
               && NoDuplicates(m'.domains[d].http) && NoDuplicates(m'.domains[d].ws)
               && |m'.domains[d].ws| <= MaxWebSocketTunnelsPerDomain
    ensures Inv(m')
  {
    forall x | x in m'.given
      ensures exists p :: At(m', x, p)
    {
      var p :| At(m, x, p);
      assert At(m', x, if x == c && At(m, c, source) then target else p);
    }
  }

  /** A removal shortens one pool of one domain, whether or not the domain's entry stays. */
  lemma {:induction false} PoolAfter(m: Manager, op: Op, e: Domain)
    requires op.RemoveHttp? || op.RemoveWs? || op.TakeWs?
    ensures var p := PoolsOf(m, e);
            PoolsOf(Next(m, op), e)
            == if e != op.d then p
               else if op.RemoveHttp? then p.(http := WithoutFirst(p.http, op.c))
               else p.(ws := WithoutFirst(p.ws, op.c))
  {
  }

  lemma AtPool(m: Manager, c: Conn, d: Domain)
    ensures At(m, c, InHttp(d)) <==> c in PoolsOf(m, d).http
    ensures At(m, c, InWs(d)) <==> c in PoolsOf(m, d).ws
  {
  }

  lemma {:induction false} RemoveMoves(m: Manager, op: Op)
    requires Inv(m) && (op.RemoveHttp? || op.RemoveWs? || op.TakeWs?)
    ensures Moves(m, Next(m, op), op.c, if op.RemoveHttp? then InHttp(op.d) else InWs(op.d),
                  if op.TakeWs? then Taken else Closed)
    ensures Inv(Next(m, op))
  {
    var m', source, target := Next(m, op), if op.RemoveHttp? then InHttp(op.d) else InWs(op.d),
                              if op.TakeWs? then Taken else Closed;
    var before := PoolsOf(m, op.d);
    WithoutFirstMembers(before.http, op.c);
    WithoutFirstMembers(before.ws, op.c);
    AtPool(m, op.c, op.d);
    forall x, p
      ensures At(m', x, p) <==> if x == op.c && At(m, op.c, source) then p == target else At(m, x, p)
    {
      assert x == op.c && At(m, op.c, source) ==> (At(m, x, p) ==> p == source);
      match p {
        case InHttp(e) => AtPool(m, x, e); AtPool(m', x, e); PoolAfter(m, op, e);
        case InWs(e) => AtPool(m, x, e); AtPool(m', x, e); PoolAfter(m, op, e);
        case Closed =>
        case Taken =>
      }
    }
    MoveKeeps(m, m', op.c, source, target);
  }

  lemma {:induction false} AddKeeps(m: Manager, op: Op)
    requires Inv(m) && op.Add? && Accepts(m, op)
    ensures Inv(Next(m, op))
  {
    var m', p := Next(m, op), PoolsOf(m, op.d);
    var target := if op.t.Http? then InHttp(op.d)
                  else if |p.ws| >= MaxWebSocketTunnelsPerDomain then Closed else InWs(op.d);
    AtPool(m, op.c, op.d);
    assert forall q :: !At(m, op.c, q);
    assert !At(m, op.c, Closed) && !At(m, op.c, Taken);
    assert forall x :: x in p.http + [op.c] <==> x in p.http || x == op.c;
    assert forall x :: x in p.ws + [op.c] <==> x in p.ws || x == op.c;
    forall x, q
      ensures At(m', x, q) <==> if x == op.c then q == target else At(m, x, q)
    {
      match q {
        case InHttp(e) => AtPool(m, x, e); AtPool(m', x, e);
        case InWs(e) => AtPool(m, x, e); AtPool(m', x, e);
        case Closed =>
        case Taken =>
      }
    }
    forall x | x in m'.given
      ensures exists q :: At(m', x, q)
    {
      if x == op.c {
        assert At(m', x, target);
      } else {
        var q :| At(m, x, q);
        assert At(m', x, q);
      }
    }
  }

  /** Cleaning up or closing sends connections of the pools to `Closed` and leaves the rest alone. */
  lemma {:induction false} BulkKeeps(m: Manager, op: Op)
    requires Inv(m) && (op.CleanupDead? || op.CloseAll?)
    ensures Inv(Next(m, op))
    ensures forall x, q :: At(Next(m, op), x, q) && !At(m, x, q) ==> q == Closed
  {
    var m' := Next(m, op);
    forall d | d in m.domains
      ensures op.CleanupDead? ==>
                && NoDuplicates(m'.domains[d].http)
                && forall x :: x in m'.domains[d].http <==> x in m.domains[d].http && x in op.healthy
    {
      if op.CleanupDead? {
        KeepMembers(m.domains[d].http, op.healthy);
      }
    }
    forall x, q
      ensures At(m', x, q) <==> (At(m, x, q) && !Leaves(op, x, q)) || (q == Closed && Left(m, op, x))
    {
      match q {
        case InHttp(e) =>
        case InWs(e) =>
        case Closed => LeftIff(m, op, x);
        case Taken =>
      }
    }
    forall x | x in m'.given
      ensures exists q :: At(m', x, q)
    {
      var q :| At(m, x, q);
      assert At(m', x, if Leaves(op, x, q) then Closed else q);
    }
  }

  /** Cleaning up one pool does the same to that pool. */
  lemma {:induction false} SweepKeeps(m: Manager, op: Op)
    requires Inv(m) && op.Sweep? && op.d in m.domains
    ensures Inv(Next(m, op))
    ensures forall x, q :: At(Next(m, op), x, q) && !At(m, x, q) ==> q == Closed
  {
    var m', p, swept := Next(m, op), m.domains[op.d], if op.t.Http? then InHttp(op.d) else InWs(op.d);
    KeepMembers(p.http, op.healthy);
    KeepMembers(p.ws, op.healthy);
    forall x, q
      ensures At(m', x, q) <==> (At(m, x, q) && !(q == swept && x !in op.healthy))
                                || (q == Closed && At(m, x, swept) && x !in op.healthy)
    {
      match q {
        case InHttp(e) => AtPool(m, x, e); AtPool(m', x, e);
        case InWs(e) => AtPool(m, x, e); AtPool(m', x, e);
        case Closed => AtPool(m, x, op.d);
        case Taken =>
      }
    }
    forall x | x in m'.given
      ensures exists q :: At(m', x, q)
    {
      var q :| At(m, x, q);
      assert At(m', x, if q == swept && x !in op.healthy then Closed else q);
    }
  }

  lemma {:induction false} LeftIff(m: Manager, op: Op, x: Conn)
    requires op.CleanupDead? || op.CloseAll?
    ensures Left(m, op, x) <==>
              if op.CloseAll? then x in AllHttp(m) + AllWs(m) else x in AllHttp(m) - op.healthy
  {
    if x in AllHttp(m) {
      var d :| d in m.domains && x in m.domains[d].http;
      assert At(m, x, InHttp(d));
    }
    if x in AllWs(m) {
      var d :| d in m.domains && x in m.domains[d].ws;
      assert At(m, x, InWs(d));
    }
  }

  ghost predicate Left(m: Manager, op: Op, x: Conn) {
    exists s :: At(m, x, s) && Leaves(op, x, s)
  }

  ghost predicate Leaves(op: Op, x: Conn, s: Place) {
    if op.CloseAll? then s.InHttp? || s.InWs?
    else op.CleanupDead? && s.InHttp? && x !in op.healthy
  }

  lemma {:induction false} StepKeepsInv(m: Manager, op: Op)
    requires Inv(m) && Accepts(m, op)
    ensures Inv(Next(m, op))
  {
    match op
    case Add(_, _, _) => AddKeeps(m, op);
    case RemoveDomain(d) =>
      var m' := Next(m, op);
      assert forall x, q :: At(m', x, q) <==> At(m, x, q);
    case Sweep(d, _, _) =>
      if d in m.domains {
        SweepKeeps(m, op);
      }
    case CleanupDead(_) => BulkKeeps(m, op);
    case CloseAll => BulkKeeps(m, op);
    case _ => RemoveMoves(m, op);
  }

  ghost predicate IsRun(m: Manager, ops: seq<Op>, m': Manager)
    decreases ops
  {
    if ops == [] then m == m'
    else Accepts(m, ops[0]) && IsRun(Next(m, ops[0]), ops[1..], m')
  }

  lemma {:induction false} RunKeepsInv(m: Manager, ops: seq<Op>, m': Manager)
    requires Inv(m) && IsRun(m, ops, m')
    ensures Inv(m')
    decreases ops
  {
    if ops != [] {
      StepKeepsInv(m, ops[0]);
      RunKeepsInv(Next(m, ops[0]), ops[1..], m');
    }
  }

  /**
   Conservation: after any sequence of operations every connection given to the manager is in exactly
   one place — one pool of one domain, closed, or handed over unclosed — and in a pool only once; no
   domain has more than the allowed number of WebSocket tunnels.
   */
  lemma {:induction false} Conservation(ops: seq<Op>, m: Manager, c: Conn)
    requires IsRun(NoConnections, ops, m)
    ensures c in m.given <==> exists p :: At(m, c, p)
    ensures forall p, q :: At(m, c, p) && At(m, c, q) ==> p == q
    ensures forall d :: d in m.domains ==>
              && NoDuplicates(m.domains[d].http) && NoDuplicates(m.domains[d].ws)
              && |m.domains[d].ws| <= MaxWebSocketTunnelsPerDomain
  {
    RunKeepsInv(NoConnections, ops, m);
  }

  /** A domain's entry disappears only when every connection of its pools is closed or handed over. */
  lemma {:induction false} DeletedOnlyWhenEmpty(m: Manager, op: Op, d: Domain, c: Conn)
    requires d in m.domains && d !in Next(m, op).domains
    requires c in m.domains[d].http || c in m.domains[d].ws
    ensures c in Next(m, op).closed || c in Next(m, op).taken
  {
  }
}
