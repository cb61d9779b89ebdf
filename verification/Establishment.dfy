/**
 Demand-driven tunnel establishment: waiters register, one of them asks the client for a tunnel, and
 a new tunnel wakes them all. Two tables, each under its own lock; every lock section is one step.
 */
module Establishment {
  import opened Sequences

  type Domain = nat
  type RequestId = nat

  // ---------- The protocol ----------

  /** Where a call of waitForTCPTunnelEstablishment stands. */
  datatype Phase =
    | Joined                     // in pendingConnections, has not looked at the flag
    | Waiting                    // in the select
    | Clearing                   // timed out, has not yet cleared the flag
    | Leaving(success: bool)     // has not yet removed itself
    | Returned(success: bool)

  datatype Waiter = Waiter(
    domain: Domain,
    phase: Phase,
    token: bool,                 // a value is buffered in DoneChan
    joinedAt: nat)               // history: wake sections of the domain run before it joined

  /** What pendingConnectionsMu guards, with the waiters themselves. */
  datatype Table = Table(
    pending: map<Domain, seq<RequestId>>,
    waiters: map<RequestId, Waiter>,
    wakes: map<Domain, nat>)     // history: wake sections run, per domain

  /** What establishmentMu guards. */
  datatype Flags = Flags(
    inProgress: set<Domain>,
    started: map<Domain, nat>,   // history: goroutines started, per domain
    cleared: map<Domain, nat>)   // history: clears that found the flag set, per domain

  datatype State = State(
    table: Table,
    flags: Flags,
    asking: multiset<Domain>,     // goroutines of requestTCPTunnelEstablishment
    announcing: multiset<Domain>, // calls of OnTCPTunnelEstablished that have not cleared the flag
    waking: multiset<Domain>)     // calls that have cleared it and have not yet woken anyone

  const Start := State(Table(map[], map[], map[]), Flags({}, map[], map[]), multiset{}, multiset{}, multiset{})

  function Count(m: map<Domain, nat>, d: Domain): nat {
    if d in m then m[d] else 0
  }

  // ---------- The sections on the table of waiters ----------

  function Listed(pending: map<Domain, seq<RequestId>>, d: Domain): seq<RequestId> {
    if d in pending then pending[d] else []
  }

  /** removePendingConnection: drop the waiter, and the whole entry once it is empty. */
  function Removed(pending: map<Domain, seq<RequestId>>, d: Domain, w: RequestId): map<Domain, seq<RequestId>> {
    var rest := WithoutFirst(Listed(pending, d), w);
    if rest == [] then pending - {d} else pending[d := rest]
  }

  predicate Registered(p: Phase) {
    !p.Returned?
  }

  function Add(t: Table, w: RequestId, d: Domain): Table {
    t.(pending := t.pending[d := Listed(t.pending, d) + [w]],
       waiters := t.waiters[w := Waiter(d, Joined, false, Count(t.wakes, d))])
  }

  function Move(t: Table, w: RequestId, p: Phase, token: bool): Table
    requires w in t.waiters
  {
    t.(waiters := t.waiters[w := t.waiters[w].(phase := p, token := token)])
  }

  function Drop(t: Table, w: RequestId): Table
    requires w in t.waiters && t.waiters[w].phase.Leaving?
  {
    Move(t, w, Returned(t.waiters[w].phase.success), t.waiters[w].token)
      .(pending := Removed(t.pending, t.waiters[w].domain, w))
  }

  /** Everybody listed for the domain gets a token; a full channel keeps its one. */
  function Wake(t: Table, d: Domain): Table {
    t.(waiters := map w | w in t.waiters ::
         if w in Listed(t.pending, d) then t.waiters[w].(token := true) else t.waiters[w],
       wakes := t.wakes[d := Count(t.wakes, d) + 1])
  }

  // ---------- The sections on the flags ----------

  function Raised(f: Flags, d: Domain): Flags {
    if d in f.inProgress then f
    else Flags(f.inProgress + {d}, f.started[d := Count(f.started, d) + 1], f.cleared)
  }

  function Cleared(f: Flags, d: Domain): Flags {
    if d in f.inProgress then
      Flags(f.inProgress - {d}, f.started, f.cleared[d := Count(f.cleared, d) + 1])
    else f
  }

  // ---------- The steps ----------

  datatype Step =
    | Join(w: RequestId, d: Domain)
    | Claim(w: RequestId)
    | TakeToken(w: RequestId)
    | TimeOut(w: RequestId)
    | ClearFlag(w: RequestId)
    | Remove(w: RequestId)
    | AskClient(d: Domain)       // the goroutine sends its request, or fails to
    | FindTunnel(d: Domain)      // the goroutine finds a tunnel already there and announces it
    | Announce(d: Domain)        // the TCP server reports a new tunnel
    | AnswerFails(d: Domain)     // the client answers that it could not make a tunnel
    | AnnounceClear(d: Domain)
    | AnnounceWake(d: Domain)

  predicate At(t: Table, w: RequestId, p: Phase) {
    w in t.waiters && t.waiters[w].phase == p
  }

  predicate Enabled(s: State, st: Step) {
    var t := s.table;
    match st
    case Join(w, _) => w !in t.waiters
    case Claim(w) => At(t, w, Joined)
    case TakeToken(w) => At(t, w, Waiting) && t.waiters[w].token
    case TimeOut(w) => At(t, w, Waiting)
    case ClearFlag(w) => At(t, w, Clearing)
    case Remove(w) => w in t.waiters && t.waiters[w].phase.Leaving?
    case AskClient(d) => d in s.asking
    case FindTunnel(d) => d in s.asking
    case Announce(_) => true
    case AnswerFails(_) => true
    case AnnounceClear(d) => d in s.announcing
    case AnnounceWake(d) => d in s.waking
  }

  function NextTable(s: State, st: Step): Table
    requires Enabled(s, st)
  {
    var t := s.table;
    match st
    case Join(w, d) => Add(t, w, d)
    case Claim(w) => Move(t, w, Waiting, t.waiters[w].token)
    case TakeToken(w) => Move(t, w, Leaving(true), false)
    case TimeOut(w) => Move(t, w, Clearing, t.waiters[w].token)
    case ClearFlag(w) => Move(t, w, Leaving(false), t.waiters[w].token)
    case Remove(w) => Drop(t, w)
    case AnnounceWake(d) => Wake(t, d)
    case _ => t
  }

  function NextFlags(s: State, st: Step): Flags
    requires Enabled(s, st)
  {
    match st
    case Claim(w) => Raised(s.flags, s.table.waiters[w].domain)
    case ClearFlag(w) => Cleared(s.flags, s.table.waiters[w].domain)
    case AnswerFails(d) => Cleared(s.flags, d)
    case AnnounceClear(d) => Cleared(s.flags, d)
    case _ => s.flags
  }

  function Next(s: State, st: Step): State
    requires Enabled(s, st)
  {
    var s' := s.(table := NextTable(s, st), flags := NextFlags(s, st));
    match st
    case Claim(w) =>
      var d := s.table.waiters[w].domain;
      if d in s.flags.inProgress then s' else s'.(asking := s.asking + multiset{d})
    case AskClient(d) => s'.(asking := s.asking - multiset{d})
    case FindTunnel(d) =>
      s'.(asking := s.asking - multiset{d}, announcing := s.announcing + multiset{d})
    case Announce(d) => s'.(announcing := s.announcing + multiset{d})
    case AnnounceClear(d) =>
      s'.(announcing := s.announcing - multiset{d}, waking := s.waking + multiset{d})
    case AnnounceWake(d) => s'.(waking := s.waking - multiset{d})
    case _ => s'
  }

  ghost predicate IsRun(s: State, steps: seq<Step>, t: State)
    decreases steps
  {
    if steps == [] then s == t
    else Enabled(s, steps[0]) && IsRun(Next(s, steps[0]), steps[1..], t)
  }

  // ---------- What every run keeps ----------

  /** The table lists exactly the registered waiters, each once, and has no empty entry. */
  ghost predicate TableInv(t: Table) {
    && (forall d :: d in t.pending ==> t.pending[d] != [])
    && (forall d :: NoDuplicates(Listed(t.pending, d)))
    && (forall d, w :: w in Listed(t.pending, d) <==>
          w in t.waiters && t.waiters[w].domain == d && Registered(t.waiters[w].phase))
  }

  /** Goroutines started are the clears that found the flag set, plus one if it is set now. */
  ghost predicate FlagInv(f: Flags) {
    forall d :: Count(f.started, d) == Count(f.cleared, d) + if d in f.inProgress then 1 else 0
  }

  /**
   Until a waiter takes its token, one is buffered exactly when a wake section has run since it
   joined; and success means that one has.
   */
  ghost predicate TokenOk(r: Waiter, wakes: nat) {
    && r.joinedAt <= wakes
    && (r.phase.Joined? || r.phase.Waiting? || r.phase.Clearing? ==> (r.token <==> r.joinedAt < wakes))
    && ((r.phase.Leaving? || r.phase.Returned?) && r.phase.success ==> r.joinedAt < wakes)
  }

  ghost predicate TokenInv(t: Table) {
    forall w :: w in t.waiters ==> TokenOk(t.waiters[w], Count(t.wakes, t.waiters[w].domain))
  }

  ghost predicate Inv(s: State) {
    TableInv(s.table) && TokenInv(s.table) && FlagInv(s.flags)
  }

  lemma {:induction false} AddKeeps(t: Table, w: RequestId, d: Domain)
    requires TableInv(t) && TokenInv(t) && w !in t.waiters
    ensures TableInv(Add(t, w, d)) && TokenInv(Add(t, w, d))
  {
    var prev, t' := Listed(t.pending, d), Add(t, w, d);
    assert w !in prev;
    assert forall x :: x in prev + [w] <==> x in prev || x == w;
    assert forall e :: Listed(t'.pending, e) == if e == d then prev + [w] else Listed(t.pending, e);
  }

  lemma {:induction false} MoveKeepsTable(t: Table, w: RequestId, p: Phase, token: bool)
    requires TableInv(t) && w in t.waiters
    requires Registered(p) && Registered(t.waiters[w].phase)
    ensures TableInv(Move(t, w, p, token))
  {
  }

  lemma {:induction false} MoveKeepsTokens(t: Table, w: RequestId, p: Phase, token: bool)
    requires TokenInv(t) && w in t.waiters
    requires TokenOk(t.waiters[w].(phase := p, token := token), Count(t.wakes, t.waiters[w].domain))
    ensures TokenInv(Move(t, w, p, token))
  {
  }

  lemma {:induction false} DropKeeps(t: Table, w: RequestId)
    requires TableInv(t) && TokenInv(t) && w in t.waiters && t.waiters[w].phase.Leaving?
    ensures TableInv(Drop(t, w)) && TokenInv(Drop(t, w))
  {
    var d, t' := t.waiters[w].domain, Drop(t, w);
    var rest := WithoutFirst(Listed(t.pending, d), w);
    WithoutFirstMembers(Listed(t.pending, d), w);
    assert forall e :: Listed(t'.pending, e) == if e == d then rest else Listed(t.pending, e);
    MoveKeepsTokens(t, w, Returned(t.waiters[w].phase.success), t.waiters[w].token);
  }

  /** The wake section gives a token to every waiter registered for the domain, and changes nobody else. */
  lemma {:induction false} WakeReachesAll(t: Table, d: Domain, w: RequestId)
    requires TableInv(t) && w in t.waiters
    ensures Wake(t, d).waiters[w]
            == if t.waiters[w].domain == d && Registered(t.waiters[w].phase)
               then t.waiters[w].(token := true) else t.waiters[w]
  {
  }

  lemma {:induction false} WakeKeeps(t: Table, d: Domain)
    requires TableInv(t) && TokenInv(t)
    ensures TableInv(Wake(t, d)) && TokenInv(Wake(t, d))
  {
    var t' := Wake(t, d);
    forall w | w in t'.waiters
      ensures TokenOk(t'.waiters[w], Count(t'.wakes, t'.waiters[w].domain))
    {
      WakeReachesAll(t, d, w);
    }
  }

  lemma {:induction false} FlagsKeep(f: Flags, d: Domain)
    requires FlagInv(f)
    ensures FlagInv(Raised(f, d)) && FlagInv(Cleared(f, d))
  {
  }

  lemma {:induction false} StepKeepsTable(s: State, st: Step)
    requires TableInv(s.table) && TokenInv(s.table) && Enabled(s, st)
    ensures TableInv(NextTable(s, st)) && TokenInv(NextTable(s, st))
  {
    var t := s.table;
    match st
    case Join(w, d) => AddKeeps(t, w, d);
    case Claim(w) =>
      MoveKeepsTable(t, w, Waiting, t.waiters[w].token);
      MoveKeepsTokens(t, w, Waiting, t.waiters[w].token);
    case TakeToken(w) =>
      MoveKeepsTable(t, w, Leaving(true), false);
      MoveKeepsTokens(t, w, Leaving(true), false);
    case TimeOut(w) =>
      MoveKeepsTable(t, w, Clearing, t.waiters[w].token);
      MoveKeepsTokens(t, w, Clearing, t.waiters[w].token);
    case ClearFlag(w) =>
      MoveKeepsTable(t, w, Leaving(false), t.waiters[w].token);
      MoveKeepsTokens(t, w, Leaving(false), t.waiters[w].token);
    case Remove(w) => DropKeeps(t, w);
    case AnnounceWake(d) => WakeKeeps(t, d);
    case _ =>
  }

  lemma {:induction false} StepKeepsFlags(s: State, st: Step)
    requires FlagInv(s.flags) && Enabled(s, st)
    ensures FlagInv(NextFlags(s, st))
  {
    match st
    case Claim(w) => FlagsKeep(s.flags, s.table.waiters[w].domain);
    case ClearFlag(w) => FlagsKeep(s.flags, s.table.waiters[w].domain);
    case AnswerFails(d) => FlagsKeep(s.flags, d);
    case AnnounceClear(d) => FlagsKeep(s.flags, d);
    case _ =>
  }

  lemma {:induction false} StepTables(s: State, st: Step)
    requires Enabled(s, st)
    ensures Next(s, st).table == NextTable(s, st) && Next(s, st).flags == NextFlags(s, st)
  {
  }

  lemma {:induction false} RunKeepsInv(s: State, steps: seq<Step>, t: State)
    requires Inv(s) && IsRun(s, steps, t)
    ensures Inv(t)
    decreases steps
  {
    if steps != [] {
      StepKeepsTable(s, steps[0]);
      StepKeepsFlags(s, steps[0]);
      StepTables(s, steps[0]);
      RunKeepsInv(Next(s, steps[0]), steps[1..], t);
    }
  }

  // ---------- Theorems about all runs ----------

  /**
   No wake-up is lost: in every reachable state the wake section gives a token to each waiter that is
   registered for its domain and changes nobody else; and a waiter that still waits has a token
   buffered exactly when a wake section ran since it registered.
   */
  lemma {:induction false} NoLostWakeup(steps: seq<Step>, s: State, d: Domain, w: RequestId)
    requires IsRun(Start, steps, s) && w in s.table.waiters
    ensures var r := s.table.waiters[w];
            && (Enabled(s, AnnounceWake(d)) ==>
                  Next(s, AnnounceWake(d)).table.waiters[w]
                  == if r.domain == d && Registered(r.phase) then r.(token := true) else r)
            && (r.phase.Joined? || r.phase.Waiting? ==>
                  (r.token <==> r.joinedAt < Count(s.table.wakes, r.domain)))
  {
    RunKeepsInv(Start, steps, s);
    WakeReachesAll(s.table, d, w);
  }

  /** A waiter returns true only if a wake section ran while it was registered. */
  lemma {:induction false} SuccessMeansWoken(steps: seq<Step>, s: State, w: RequestId)
    requires IsRun(Start, steps, s) && At(s.table, w, Returned(true))
    ensures s.table.waiters[w].joinedAt < Count(s.table.wakes, s.table.waiters[w].domain)
  {
    RunKeepsInv(Start, steps, s);
  }

  /**
   Single flight: per domain, the goroutines started are the clears that found the flag set, plus one
   if it is set now. And the table holds each waiter exactly once from its registration to its
   removal, and never an empty list.
   */
  lemma {:induction false} SingleFlight(steps: seq<Step>, s: State, d: Domain)
    requires IsRun(Start, steps, s)
    ensures Count(s.flags.started, d) == Count(s.flags.cleared, d) + if d in s.flags.inProgress then 1 else 0
    ensures d in s.table.pending ==> s.table.pending[d] != [] && NoDuplicates(s.table.pending[d])
    ensures forall w :: w in Listed(s.table.pending, d) <==>
              w in s.table.waiters && s.table.waiters[w].domain == d && Registered(s.table.waiters[w].phase)
  {
    RunKeepsInv(Start, steps, s);
    assert NoDuplicates(Listed(s.table.pending, d));
  }

  // ---------- Who clears the flag ----------

  /** Its wake-up is there or on its way: a token, or an announcement that has cleared the flag and woken nobody yet. */
  predicate WokenAlready(s: State, w: RequestId)
    requires w in s.table.waiters
  {
    s.table.waiters[w].token || s.table.waiters[w].domain in s.waking
  }

  /** The flag of the domain has not been cleared between the two states. */
  predicate StaysUp(s: State, t: State, d: Domain) {
    d in s.flags.inProgress && d in t.flags.inProgress && Count(t.flags.cleared, d) == Count(s.flags.cleared, d)
  }

  lemma {:induction false} ClearedOf(f: Flags, e: Domain, d: Domain)
    ensures Count(Cleared(f, e).cleared, d) == Count(f.cleared, d) + if e == d && d in f.inProgress then 1 else 0
    ensures d in Cleared(f, e).inProgress <==> d in f.inProgress && e != d
    ensures Cleared(f, e).started == f.started
    ensures Raised(f, e).cleared == f.cleared && f.inProgress <= Raised(f, e).inProgress
    ensures e != d || d in f.inProgress ==> Count(Raised(f, e).started, d) == Count(f.started, d)
  {
  }

  /** The domain whose flag a step clears or raises. */
  function FlagOf(s: State, st: Step): Domain
    requires Enabled(s, st)
  {
    match st
    case Claim(w) => s.table.waiters[w].domain
    case ClearFlag(w) => s.table.waiters[w].domain
    case AnswerFails(d) => d
    case AnnounceClear(d) => d
    case _ => 0
  }

  predicate ClearsAFlag(st: Step) {
    st.ClearFlag? || st.AnswerFails? || st.AnnounceClear?
  }

  lemma {:induction false} FlagsAfter(s: State, st: Step, d: Domain)
    requires Enabled(s, st) && d in s.flags.inProgress
    ensures var f, e := Next(s, st).flags, FlagOf(s, st);
            if ClearsAFlag(st) && e == d then Count(f.cleared, d) == Count(s.flags.cleared, d) + 1
            else d in f.inProgress && Count(f.cleared, d) == Count(s.flags.cleared, d)
                 && Count(f.started, d) == Count(s.flags.started, d)
  {
    StepTables(s, st);
    ClearedOf(s.flags, FlagOf(s, st), d);
  }

  lemma {:induction false} ClearsOnlyGrow(s: State, st: Step, d: Domain)
    requires Enabled(s, st)
    ensures Count(s.flags.cleared, d) <= Count(Next(s, st).flags.cleared, d)
  {
    StepTables(s, st);
    ClearedOf(s.flags, FlagOf(s, st), d);
  }

  lemma {:induction false} ClearsOnlyGrowInRuns(s: State, steps: seq<Step>, t: State, d: Domain)
    requires IsRun(s, steps, t)
    ensures Count(s.flags.cleared, d) <= Count(t.flags.cleared, d)
    decreases steps
  {
    if steps != [] {
      ClearsOnlyGrow(s, steps[0], d);
      ClearsOnlyGrowInRuns(Next(s, steps[0]), steps[1..], t, d);
    }
  }

  /** The waiter will clear the flag itself unless somebody else does first. */
  predicate Minds(s: State, w: RequestId) {
    && w in s.table.waiters
    && (s.table.waiters[w].phase.Waiting? || s.table.waiters[w].phase.Clearing?) && !s.table.waiters[w].token
    && s.table.waiters[w].domain in s.flags.inProgress && s.table.waiters[w].domain !in s.waking
  }

  /** No step but its own gives or takes the waiter anything, as no wake-up of its domain is on its way. */
  lemma {:induction false} MindsTable(s: State, st: Step, w: RequestId)
    requires Minds(s, w) && Enabled(s, st) && TableInv(s.table) && st != ClearFlag(w)
    ensures var t := NextTable(s, st);
            && w in t.waiters && t.waiters[w].domain == s.table.waiters[w].domain && !t.waiters[w].token
            && (t.waiters[w].phase.Waiting? || t.waiters[w].phase.Clearing?)
  {
    if st.AnnounceWake? {
      WakeReachesAll(s.table, st.d, w);
    }
  }

  /** An announcement that goes on to wake waiters has cleared the flag first. */
  lemma {:induction false} WakingAfterClear(s: State, st: Step, d: Domain)
    requires Enabled(s, st) && d !in s.waking && st != AnnounceClear(d)
    ensures d !in Next(s, st).waking
  {
  }

  lemma {:induction false} StepMinds(s: State, st: Step, w: RequestId)
    requires Minds(s, w) && Enabled(s, st) && TableInv(s.table)
    ensures var d := s.table.waiters[w].domain;
            || Count(Next(s, st).flags.cleared, d) > Count(s.flags.cleared, d)
            || (Minds(Next(s, st), w) && Next(s, st).table.waiters[w].domain == d)
  {
    var d := s.table.waiters[w].domain;
    StepTables(s, st);
    FlagsAfter(s, st, d);
    if !(ClearsAFlag(st) && FlagOf(s, st) == d) {
      WakingAfterClear(s, st, d);
      MindsTable(s, st, w);
    }
  }

  lemma {:induction false} RunMinds(s: State, steps: seq<Step>, t: State, w: RequestId)
    requires Minds(s, w) && IsRun(s, steps, t) && TableInv(s.table) && TokenInv(s.table)
    ensures var d := s.table.waiters[w].domain;
            Minds(t, w) || Count(t.flags.cleared, d) > Count(s.flags.cleared, d)
    decreases steps
  {
    if steps != [] {
      var u, d := Next(s, steps[0]), s.table.waiters[w].domain;
      StepMinds(s, steps[0], w);
      StepKeepsTable(s, steps[0]);
      StepTables(s, steps[0]);
      ClearsOnlyGrow(s, steps[0], d);
      if Count(u.flags.cleared, d) > Count(s.flags.cleared, d) {
        ClearsOnlyGrowInRuns(u, steps[1..], t, d);
      } else {
        RunMinds(u, steps[1..], t, w);
      }
    }
  }

  /** Some run goes on to a state where the waiter has returned and the flag has never been cleared. */
  ghost predicate CanLeaveUp(s: State, w: RequestId) {
    exists steps, t :: IsRun(s, steps, t) && LeftUpBy(s, t, w)
  }

  predicate LeftUpBy(s: State, t: State, w: RequestId) {
    && w in s.table.waiters && w in t.table.waiters && t.table.waiters[w].phase.Returned?
    && StaysUp(s, t, s.table.waiters[w].domain)
  }

  lemma {:induction false} One(s: State, st: Step)
    requires Enabled(s, st)
    ensures IsRun(s, [st], Next(s, st))
  {
    assert [st][1..] == [];
  }

  lemma {:induction false} RunThen(s: State, steps: seq<Step>, t: State, st: Step)
    requires IsRun(s, steps, t) && Enabled(t, st)
    ensures IsRun(s, steps + [st], Next(t, st))
    decreases steps
  {
    if steps == [] {
      assert steps + [st] == [st] && [st][1..] == [];
    } else {
      assert (steps + [st])[1..] == steps[1..] + [st] && (steps + [st])[0] == steps[0];
      RunThen(Next(s, steps[0]), steps[1..], t, st);
    }
  }

  /** A waiter with a token returns, and leaves the flag alone. */
  lemma {:induction false} TokenIsTaken(s: State, steps: seq<Step>, u: State, w: RequestId)
    requires IsRun(s, steps, u) && At(u.table, w, Waiting) && u.table.waiters[w].token && w in s.table.waiters
    requires StaysUp(s, u, s.table.waiters[w].domain)
    ensures CanLeaveUp(s, w)
  {
    var u1 := Next(u, TakeToken(w));
    var u2 := Next(u1, Remove(w));
    RunThen(s, steps, u, TakeToken(w));
    RunThen(s, steps + [TakeToken(w)], u1, Remove(w));
    assert LeftUpBy(s, u2, w);
  }

  /**
   The waiter that raises the flag can return and leave it up exactly when its wake-up was there or on its
   way as it raised the flag: it has a token already, or an announcement has cleared the flag before and
   has not yet woken anyone. Otherwise, as long as nobody else clears the flag, it waits, and clears it at
   its timeout.
   */
  lemma {:induction false} LeavesUpIff(steps: seq<Step>, s: State, w: RequestId)
    requires IsRun(Start, steps, s) && Enabled(s, Claim(w)) && s.table.waiters[w].domain !in s.flags.inProgress
    ensures CanLeaveUp(Next(s, Claim(w)), w) <==> WokenAlready(s, w)
    ensures !WokenAlready(s, w) ==>
              forall more, t :: (IsRun(Next(s, Claim(w)), more, t)
                                 && StaysUp(Next(s, Claim(w)), t, s.table.waiters[w].domain)) ==> Minds(t, w)
  {
    var d, u := s.table.waiters[w].domain, Next(s, Claim(w));
    RunKeepsInv(Start, steps, s);
    StepKeepsTable(s, Claim(w));
    if WokenAlready(s, w) {
      if s.table.waiters[w].token {
        TokenIsTaken(u, [], u, w);
      } else {
        assert w in Listed(u.table.pending, d);
        One(u, AnnounceWake(d));
        TokenIsTaken(u, [AnnounceWake(d)], Next(u, AnnounceWake(d)), w);
      }
    } else {
      assert Minds(u, w);
      forall more, t | IsRun(u, more, t) && StaysUp(u, t, d)
        ensures Minds(t, w)
      {
        RunMinds(u, more, t, w);
      }
    }
  }

  /** The flag is up, and nothing that is under way will clear it or wake anyone. */
  ghost predicate Stranded(s: State, d: Domain) {
    && d in s.flags.inProgress && d !in s.asking && d !in s.announcing && d !in s.waking
  }

  /** A tunnel is announced just before a waiter joins, and the waiter's own request for one fails to be sent. */
  lemma {:induction false} FlagIsLeftUp(w: RequestId, d: Domain) returns (steps: seq<Step>, s: State)
    ensures steps == [Announce(d), AnnounceClear(d), Join(w, d), Claim(w), AnnounceWake(d), TakeToken(w), Remove(w),
                      AskClient(d)]
    ensures IsRun(Start, steps, s) && Stranded(s, d) && s.table.pending == map[]
  {
    var u := WokenWhileClaiming(w, d);
    steps := [Announce(d), AnnounceClear(d), Join(w, d), Claim(w), AnnounceWake(d)];
    var u1 := u.(table := u.table.(waiters := map[w := Waiter(d, Leaving(true), false, 0)]));
    var u2 := u1.(table := Table(map[], map[w := Waiter(d, Returned(true), false, 0)], u.table.wakes));
    assert Next(u, TakeToken(w)) == u1;
    assert WithoutFirst([w], w) == [] && Next(u1, Remove(w)) == u2;
    s := u2.(asking := multiset{});
    assert Next(u2, AskClient(d)) == s;
    RunThen(Start, steps, u, TakeToken(w));
    RunThen(Start, steps + [TakeToken(w)], u1, Remove(w));
    RunThen(Start, steps + [TakeToken(w)] + [Remove(w)], u2, AskClient(d));
    steps := steps + [TakeToken(w)] + [Remove(w)] + [AskClient(d)];
  }

  /** An announcement has cleared the flag, and a waiter joins before it wakes anyone. */
  function JoinedBetween(w: RequestId, d: Domain): State {
    State(Table(map[d := [w]], map[w := Waiter(d, Joined, false, 0)], map[]), Flags({}, map[], map[]),
          multiset{}, multiset{}, multiset{d})
  }

  lemma {:induction false} JoinsBetween(w: RequestId, d: Domain)
    ensures IsRun(Start, [Announce(d), AnnounceClear(d), Join(w, d)], JoinedBetween(w, d))
  {
    var s1, s2 := Start.(announcing := multiset{d}), Start.(waking := multiset{d});
    assert Next(Start, Announce(d)) == s1 && Next(s1, AnnounceClear(d)) == s2;
    assert Listed(s2.table.pending, d) + [w] == [w];
    assert Next(s2, Join(w, d)) == JoinedBetween(w, d);
    One(Start, Announce(d));
    RunThen(Start, [Announce(d)], s1, AnnounceClear(d));
    RunThen(Start, [Announce(d)] + [AnnounceClear(d)], s2, Join(w, d));
    assert [Announce(d)] + [AnnounceClear(d)] + [Join(w, d)] == [Announce(d), AnnounceClear(d), Join(w, d)];
  }

  lemma {:induction false} ClaimsThenWoken(w: RequestId, d: Domain, u: State)
    requires u == State(Table(map[d := [w]], map[w := Waiter(d, Waiting, true, 0)], map[d := 1]),
                        Flags({d}, map[d := 1], map[]), multiset{d}, multiset{}, multiset{})
    ensures var s := JoinedBetween(w, d);
            Enabled(s, Claim(w)) && Enabled(Next(s, Claim(w)), AnnounceWake(d))
            && Next(Next(s, Claim(w)), AnnounceWake(d)) == u
  {
    var s := JoinedBetween(w, d);
    var v := s.(table := s.table.(waiters := map[w := Waiter(d, Waiting, false, 0)]),
                flags := Flags({d}, map[d := 1], map[]), asking := multiset{d});
    assert Next(s, Claim(w)) == v;
    assert Wake(v.table, d).waiters == u.table.waiters;
  }

  lemma {:induction false} WokenWhileClaiming(w: RequestId, d: Domain) returns (u: State)
    ensures IsRun(Start, [Announce(d), AnnounceClear(d), Join(w, d), Claim(w), AnnounceWake(d)], u)
    ensures u == State(Table(map[d := [w]], map[w := Waiter(d, Waiting, true, 0)], map[d := 1]),
                       Flags({d}, map[d := 1], map[]), multiset{d}, multiset{}, multiset{})
  {
    u := State(Table(map[d := [w]], map[w := Waiter(d, Waiting, true, 0)], map[d := 1]),
               Flags({d}, map[d := 1], map[]), multiset{d}, multiset{}, multiset{});
    var s, steps := JoinedBetween(w, d), [Announce(d), AnnounceClear(d), Join(w, d)];
    JoinsBetween(w, d);
    ClaimsThenWoken(w, d, u);
    RunThen(Start, steps, s, Claim(w));
    RunThen(Start, steps + [Claim(w)], Next(s, Claim(w)), AnnounceWake(d));
    assert steps + [Claim(w)] + [AnnounceWake(d)]
        == [Announce(d), AnnounceClear(d), Join(w, d), Claim(w), AnnounceWake(d)];
  }

  /** Neither a new announcement, nor an answer of the client, nor a waiter's timeout clears the flag. */
  predicate Quiet(s: State, st: Step, d: Domain) {
    && st != Announce(d) && st != AnswerFails(d)
    && (st.ClearFlag? && st.w in s.table.waiters ==> s.table.waiters[st.w].domain != d)
  }

  ghost predicate IsQuietRun(s: State, steps: seq<Step>, t: State, d: Domain)
    decreases steps
  {
    if steps == [] then s == t
    else Enabled(s, steps[0]) && Quiet(s, steps[0], d) && IsQuietRun(Next(s, steps[0]), steps[1..], t, d)
  }

  lemma {:induction false} QuietStep(s: State, st: Step, d: Domain)
    requires Stranded(s, d) && Enabled(s, st) && Quiet(s, st, d)
    ensures Stranded(Next(s, st), d)
    ensures Count(Next(s, st).table.wakes, d) == Count(s.table.wakes, d)
    ensures Count(Next(s, st).flags.started, d) == Count(s.flags.started, d)
  {
    FlagsAfter(s, st, d);
    QuietGoroutines(s, st, d);
    StepTables(s, st);
  }

  lemma {:induction false} QuietGoroutines(s: State, st: Step, d: Domain)
    requires Stranded(s, d) && Enabled(s, st) && Quiet(s, st, d)
    ensures var t := Next(s, st); d !in t.asking && d !in t.announcing && d !in t.waking
  {
  }

  lemma {:induction false} QuietRun(s: State, steps: seq<Step>, t: State, d: Domain)
    requires Stranded(s, d) && IsQuietRun(s, steps, t, d)
    ensures Stranded(t, d) && Count(t.table.wakes, d) == Count(s.table.wakes, d)
    ensures Count(t.flags.started, d) == Count(s.flags.started, d) && IsRun(s, steps, t)
    decreases steps
  {
    if steps != [] {
      QuietStep(s, steps[0], d);
      QuietRun(Next(s, steps[0]), steps[1..], t, d);
    }
  }

  /**
   What a flag that is left up costs: until somebody announces a tunnel, or the client answers, or a
   waiter's timeout clears the flag, the client is not asked again, and no waiter that has joined since
   is woken.
   */
  lemma {:induction false} StrandedUntilTimeout(steps: seq<Step>, s: State, more: seq<Step>, t: State, d: Domain, w: RequestId)
    requires IsRun(Start, steps, s) && Stranded(s, d) && IsQuietRun(s, more, t, d)
    requires w in t.table.waiters && t.table.waiters[w].domain == d && t.table.waiters[w].joinedAt >= Count(s.table.wakes, d)
    ensures Stranded(t, d) && Count(t.flags.started, d) == Count(s.flags.started, d)
    ensures var r := t.table.waiters[w];
            && r.phase != Leaving(true) && r.phase != Returned(true)
            && (r.phase.Waiting? ==> !r.token)
  {
    QuietRun(s, more, t, d);
    RunKeepsInv(Start, steps, s);
    RunKeepsInv(s, more, t);
  }
}
