/**
 A tunnel stream: any number of requests sharing one ordered stream of messages, one receive loop
 and one table of pending requests.
 */
module Multiplex {
  import opened Messages
  import opened ResponseStream
  import opened ResponseSafety
  import Sub = Subsequences

  /** What belongs to one request alone. */
  datatype Local = Local(client: Client, server: Server, out: seq<Msg>, losses: Losses)

  /** Where the single receive loop stands. */
  datatype Recv =
    | Idle
    | Looked(m: Msg)           // found the channel of m.id
    | Delivering(m: Msg)        // holds the stream's lock until m is delivered or given up
    | Removing(id: RequestId)  // delivered an error for id
    | Stopped                  // Recv failed
    | Panicked(id: RequestId)

  datatype Sys = Sys(reqs: map<RequestId, Local>, wire: seq<Msg>, recv: Recv)

  datatype Step =
    | Open(id: RequestId, kind: Kind)     // make and register a channel
    | On(id: RequestId, local: LocalStep)
    | Cleanup                             // cleanupTunnelStreamState
    | StopReceiving

  const Empty := Sys(map[], [], Idle)

  /** The messages about one request, in order. */
  function About(ms: seq<Msg>, id: RequestId): seq<Msg> {
    if ms == [] then []
    else (if ms[0].id == id then [ms[0]] else []) + About(ms[1..], id)
  }

  lemma {:induction false} AboutConcat(a: seq<Msg>, b: seq<Msg>, id: RequestId)
    ensures About(a + b, id) == About(a, id) + About(b, id)
  {
    if a == [] {
      assert a + b == b;
    } else {
      AboutConcat(a[1..], b, id);
      assert (a + b)[1..] == a[1..] + b;
      var first := if a[0].id == id then [a[0]] else [];
      assert first + (About(a[1..], id) + About(b, id)) == (first + About(a[1..], id)) + About(b, id);
    }
  }

  function HandOf(recv: Recv, id: RequestId): Hand {
    match recv
    case Looked(m) => if m.id == id then Got(m) else Free
    case Delivering(m) => if m.id == id then Locked(m) else Free
    case Removing(i) => if i == id then ErrorTail else Free
    case Panicked(i) => if i == id then Crashed else Free
    case _ => Free
  }

  function RecvOf(hand: Hand, id: RequestId): Recv {
    match hand
    case Free => Idle
    case Got(m) => Looked(m)
    case Locked(m) => Delivering(m)
    case ErrorTail => Removing(id)
    case Crashed => Panicked(id)
  }

  /** One request as the rest of the system sees it. */
  function ViewOf(s: Sys, id: RequestId): View
    requires id in s.reqs
  {
    var l := s.reqs[id];
    View(l.client, l.server, l.out, About(s.wire, id), HandOf(s.recv, id), s.recv.Delivering?, l.losses)
  }

  predicate StepEnabled(s: Sys, st: Step) {
    !s.recv.Panicked? &&
    match st
    case Open(id, _) => id !in s.reqs && !s.recv.Delivering?
    case On(id, l) =>
      && id in s.reqs && l != ByServer(Disconnect)
      && Enabled(ViewOf(s, id), l)
      && (l == ByLoop(Take) ==> s.recv.Idle? && s.wire != [] && s.wire[0].id == id)
    case Cleanup => !s.recv.Delivering?
    case StopReceiving => s.recv.Idle?
  }

  function StepNext(s: Sys, st: Step): Sys
    requires StepEnabled(s, st)
  {
    match st
    case Open(id, kind) => s.(reqs := s.reqs[id := Local(NewClient, NewServer(kind), [], Losses(0, 0, false))])
    case On(id, l) =>
      var v := Next(id, ViewOf(s, id), l);
      Sys(s.reqs[id := Local(v.client, v.server, v.out, v.losses)],
          if l == ByLoop(Take) then s.wire[1..] else s.wire + Sent(id, ViewOf(s, id), l),
          if l.ByLoop? then RecvOf(v.hand, id) else s.recv)
    case Cleanup =>
      s.(reqs := map id | id in s.reqs ::
           s.reqs[id].(server := ServerNext(s.reqs[id].server, Disconnect)))
    case StopReceiving => s.(recv := Stopped)
  }

  /** `steps` is a run from `s` to `t`. */
  ghost predicate IsRun(s: Sys, steps: seq<Step>, t: Sys)
    decreases steps
  {
    if steps == [] then s == t
    else StepEnabled(s, steps[0]) && IsRun(StepNext(s, steps[0]), steps[1..], t)
  }

  ghost predicate WellAddressed(s: Sys) {
    && (forall m :: m in s.wire ==> m.id in s.reqs)
    && (s.recv.Looked? || s.recv.Delivering? ==> s.recv.m.id in s.reqs)
    && (s.recv.Removing? ==> s.recv.id in s.reqs)
  }

  ghost predicate SysInv(s: Sys) {
    && WellAddressed(s)
    && forall id :: id in s.reqs ==> Inv(id, ViewOf(s, id))
  }

  // ---------- Requests do not disturb each other ----------

  lemma {:induction false} SentAddress(id: RequestId, v: View, l: LocalStep)
    requires Enabled(v, l) && ClientInv(id, v.client)
    ensures forall m :: m in Sent(id, v, l) ==> m.id == id
  {
    if l.ByClient? {
      EmittedIsSent(id, v.client, l.c);
    }
  }

  lemma {:induction false} AboutOwn(ms: seq<Msg>, id: RequestId, other: RequestId)
    requires forall m :: m in ms ==> m.id == id
    ensures About(ms, id) == ms
    ensures other != id ==> About(ms, other) == []
  {
    if ms != [] {
      assert ms[0] in ms && forall m :: m in ms[1..] ==> m in ms;
      AboutOwn(ms[1..], id, other);
    }
  }

  lemma {:induction false} WireAfter(s: Sys, id: RequestId, l: LocalStep, other: RequestId)
    requires StepEnabled(s, On(id, l)) && ClientInv(id, s.reqs[id].client)
    ensures About(StepNext(s, On(id, l)).wire, id) == Next(id, ViewOf(s, id), l).flight
    ensures other != id ==> About(StepNext(s, On(id, l)).wire, other) == About(s.wire, other)
    ensures forall m :: m in StepNext(s, On(id, l)).wire ==> m in s.wire || m.id == id
  {
    if l == ByLoop(Take) {
      assert About(s.wire, id) == [s.wire[0]] + About(s.wire[1..], id);
      assert other != id ==> About(s.wire, other) == [] + About(s.wire[1..], other);
    } else {
      var out := Sent(id, ViewOf(s, id), l);
      SentAddress(id, ViewOf(s, id), l);
      AboutOwn(out, id, other);
      AboutConcat(s.wire, out, id);
      AboutConcat(s.wire, out, other);
      FlightAfter(id, ViewOf(s, id), l);
      assert forall m :: m in s.wire + out <==> m in s.wire || m in out;
    }
  }

  lemma {:induction false} FlightAfter(id: RequestId, v: View, l: LocalStep)
    requires Enabled(v, l) && l != ByLoop(Take)
    ensures Next(id, v, l).flight == v.flight + Sent(id, v, l)
  {
  }

  /** After a step of the loop, the lock is held exactly when the loop waits for room. */
  lemma {:induction false} LockAfter(id: RequestId, v: View, k: LoopStep)
    requires Enabled(v, ByLoop(k)) && (v.lock ==> v.hand.Locked?)
    ensures LoopNext(v, k).lock == LoopNext(v, k).hand.Locked?
  {
  }

  /**
   A step on one request is a step of that request's own machine. Every other request stays exactly as
   it was, its chunks on the stream, its channel, its pipe, but for seeing whether the lock is held.
   */
  lemma {:induction false} StepIsLocal(s: Sys, id: RequestId, l: LocalStep, other: RequestId)
    requires StepEnabled(s, On(id, l)) && ClientInv(id, s.reqs[id].client)
    ensures ViewOf(StepNext(s, On(id, l)), id) == Next(id, ViewOf(s, id), l)
    ensures other in s.reqs && other != id ==>
              var t := StepNext(s, On(id, l));
              ViewOf(t, other) == ViewOf(s, other).(lock := t.recv.Delivering?)
  {
    WireAfter(s, id, l, other);
    var v, v' := ViewOf(s, id), Next(id, ViewOf(s, id), l);
    if l.ByLoop? {
      HandOwner(v, l.l);
      LoopOwns(s, id, l.l);
      LockAfter(id, v, l.l);
    } else {
      assert v'.hand == v.hand && v'.lock == v.lock;
    }
  }

  /** The loop works on one message at a time. */
  lemma {:induction false} LoopOwns(s: Sys, id: RequestId, k: LoopStep)
    requires StepEnabled(s, On(id, ByLoop(k)))
    ensures RecvOf(ViewOf(s, id).hand, id) == s.recv
    ensures ViewOf(s, id).lock ==> ViewOf(s, id).hand.Locked?
  {
  }

  /** A message in hand stays the same or is let go. */
  lemma {:induction false} HandOwner(v: View, k: LoopStep)
    requires LoopEnabled(v, k)
    ensures LoopNext(v, k).hand.Got? ==> v.flight != [] && LoopNext(v, k).hand.m == v.flight[0]
    ensures LoopNext(v, k).hand.Locked? ==> v.hand.Got? && LoopNext(v, k).hand.m == v.hand.m
  {
  }

  // ---------- What every run keeps ----------

  /** To a request whose own message the loop does not hold, the lock is all the same. */
  lemma {:induction false} LockIsElsewhere(id: RequestId, v: View, lock: bool)
    requires Inv(id, v) && (v.hand.Locked? ==> lock)
    ensures Inv(id, v.(lock := lock))
  {
    var v' := v.(lock := lock);
    assert Pipeline(v') == Pipeline(v);
    assert FlowInv(v') && LookInv(v') && OutInv(id, v');
  }

  lemma {:induction false} CleanupProjects(s: Sys, id: RequestId)
    requires StepEnabled(s, Cleanup) && id in s.reqs
    ensures ViewOf(StepNext(s, Cleanup), id)
            == ViewOf(s, id).(server := ServerNext(ViewOf(s, id).server, Disconnect))
  {
  }

  lemma {:induction false} AboutNew(ms: seq<Msg>, id: RequestId)
    requires forall m :: m in ms ==> m.id != id
    ensures About(ms, id) == []
  {
    if ms != [] {
      assert ms[0] in ms && forall m :: m in ms[1..] ==> m in ms;
      AboutNew(ms[1..], id);
    }
  }

  /** While the loop delivers one request's chunk, no step of another takes it out of its hands. */
  lemma {:induction false} OthersLock(s: Sys, id: RequestId, l: LocalStep, other: RequestId)
    requires StepEnabled(s, On(id, l)) && other in s.reqs && other != id
    ensures ViewOf(s, other).hand.Locked? ==> StepNext(s, On(id, l)).recv.Delivering?
  {
  }

  lemma {:induction false} OthersKeepInv(s: Sys, id: RequestId, l: LocalStep, other: RequestId)
    requires StepEnabled(s, On(id, l)) && other in s.reqs && other != id
    requires ClientInv(id, s.reqs[id].client) && Inv(other, ViewOf(s, other))
    ensures Inv(other, ViewOf(StepNext(s, On(id, l)), other))
  {
    StepIsLocal(s, id, l, other);
    OthersLock(s, id, l, other);
    LockIsElsewhere(other, ViewOf(s, other), StepNext(s, On(id, l)).recv.Delivering?);
  }

  lemma {:induction false} LocalStepKeepsSysInv(s: Sys, id: RequestId, l: LocalStep)
    requires SysInv(s) && StepEnabled(s, On(id, l))
    ensures SysInv(StepNext(s, On(id, l)))
  {
    var t := StepNext(s, On(id, l));
    assert Inv(id, ViewOf(s, id));
    forall i | i in t.reqs
      ensures Inv(i, ViewOf(t, i))
    {
      if i == id {
        StepIsLocal(s, id, l, i);
        StepKeepsInv(id, ViewOf(s, id), l);
      } else {
        OthersKeepInv(s, id, l, i);
      }
    }
    AddressesKept(s, id, l);
  }

  lemma {:induction false} AddressesKept(s: Sys, id: RequestId, l: LocalStep)
    requires StepEnabled(s, On(id, l)) && ClientInv(id, s.reqs[id].client) && WellAddressed(s)
    ensures WellAddressed(StepNext(s, On(id, l)))
  {
    WireAfter(s, id, l, id);
    if l.ByLoop? {
      var v := ViewOf(s, id);
      HandOwner(v, l.l);
      AboutMembers(s.wire, id);
      assert v.flight != [] ==> v.flight[0] in v.flight;
    }
  }

  lemma {:induction false} AboutMembers(ms: seq<Msg>, id: RequestId)
    ensures forall m :: m in About(ms, id) ==> m in ms && m.id == id
  {
    if ms != [] {
      AboutMembers(ms[1..], id);
    }
  }

  lemma {:induction false} StepKeepsSysInv(s: Sys, st: Step)
    requires SysInv(s) && StepEnabled(s, st)
    ensures SysInv(StepNext(s, st))
  {
    match st
    case Open(id, kind) => OpenKeepsSysInv(s, id, kind);
    case On(id, l) => LocalStepKeepsSysInv(s, id, l);
    case Cleanup => CleanupKeepsSysInv(s);
    case StopReceiving => StopKeepsSysInv(s);
  }

  lemma {:induction false} StopKeepsSysInv(s: Sys)
    requires SysInv(s) && StepEnabled(s, StopReceiving)
    ensures SysInv(StepNext(s, StopReceiving))
  {
    var t := StepNext(s, StopReceiving);
    forall i | i in t.reqs
      ensures Inv(i, ViewOf(t, i))
    {
      assert ViewOf(t, i) == ViewOf(s, i);
    }
  }

  lemma {:induction false} OpenViews(s: Sys, id: RequestId, kind: Kind, i: RequestId)
    requires WellAddressed(s) && StepEnabled(s, Open(id, kind))
    ensures ViewOf(StepNext(s, Open(id, kind)), id) == NewView(kind, false)
    ensures i in s.reqs ==> ViewOf(StepNext(s, Open(id, kind)), i) == ViewOf(s, i)
    ensures WellAddressed(StepNext(s, Open(id, kind)))
  {
    AboutNew(s.wire, id);
  }

  lemma {:induction false} OpenKeepsSysInv(s: Sys, id: RequestId, kind: Kind)
    requires SysInv(s) && StepEnabled(s, Open(id, kind))
    ensures SysInv(StepNext(s, Open(id, kind)))
  {
    var t := StepNext(s, Open(id, kind));
    OpenViews(s, id, kind, id);
    NewReqInv(id, kind, false);
    forall i | i in s.reqs
      ensures Inv(i, ViewOf(t, i))
    {
      OpenViews(s, id, kind, i);
    }
  }

  lemma {:induction false} CleanupKeepsInvOf(s: Sys, id: RequestId)
    requires StepEnabled(s, Cleanup) && id in s.reqs && Inv(id, ViewOf(s, id))
    ensures Inv(id, ViewOf(StepNext(s, Cleanup), id))
  {
    CleanupProjects(s, id);
    StepKeepsInv(id, ViewOf(s, id), ByServer(Disconnect));
  }

  lemma {:induction false} CleanupKeepsSysInv(s: Sys)
    requires SysInv(s) && StepEnabled(s, Cleanup)
    ensures SysInv(StepNext(s, Cleanup))
  {
    var t := StepNext(s, Cleanup);
    assert WellAddressed(t);
    forall i | i in t.reqs
      ensures Inv(i, ViewOf(t, i))
    {
      CleanupKeepsInvOf(s, i);
    }
  }

  lemma {:induction false} RunKeepsSysInv(s: Sys, steps: seq<Step>, t: Sys)
    requires SysInv(s) && IsRun(s, steps, t)
    ensures SysInv(t)
    decreases steps
  {
    if steps != [] {
      StepKeepsSysInv(s, steps[0]);
      RunKeepsSysInv(StepNext(s, steps[0]), steps[1..], t);
    }
  }

  // ---------- Theorems about all runs of the stream ----------

  /**
   Streaming safety. In every reachable state, with cancellations, timeouts and disconnections
   anywhere, each request's pipe holds the bodies of an order-preserving subsequence of the chunks
   sent for that request, never another's; and a prefix of its body when no delivery of its answer
   timed out.
   */
  lemma {:induction false} StreamingSafety(steps: seq<Step>, t: Sys, id: RequestId)
    requires IsRun(Empty, steps, t) && id in t.reqs
    ensures var l := t.reqs[id];
            && l.server.sink.pipe == Bodies(l.server.sink.written)
            && Sub.Subsequence(l.server.sink.written, l.client.sent)
            && (forall m :: m in l.server.sink.written ==> m.id == id)
            && Bodies(l.client.sent) <= ReplyBody(l.client.reply)
            && (l.losses.answers == 0 ==> l.server.sink.pipe <= ReplyBody(l.client.reply))
  {
    RunKeepsSysInv(Empty, steps, t);
    assert Inv(id, ViewOf(t, id));
    PipeIsSafe(id, ViewOf(t, id));
    SentShape(id, t.reqs[id].client);
  }

  /**
   Correlation. In every reachable state a response channel is open exactly while it is registered,
   no channel is ever closed twice, and after the stream's cleanup nothing is registered.
   */
  lemma {:induction false} Correlation(steps: seq<Step>, t: Sys, id: RequestId)
    requires IsRun(Empty, steps, t) && id in t.reqs
    ensures var c := t.reqs[id].server.chan;
            && (c.open <==> c.registered)
            && c.closes == (if c.open then 0 else 1)
    ensures StepEnabled(t, Cleanup) ==>
              && StepNext(t, Cleanup).reqs.Keys == t.reqs.Keys
              && !StepNext(t, Cleanup).reqs[id].server.chan.registered
              && StepNext(t, Cleanup).reqs[id].server.chan.closes == 1
  {
    RunKeepsSysInv(Empty, steps, t);
    ChannelOf(t, id);
    if StepEnabled(t, Cleanup) {
      CleanupCloses(t, id);
    }
  }

  lemma {:induction false} ChannelOf(s: Sys, id: RequestId)
    requires SysInv(s) && id in s.reqs
    ensures ChannelInv(s.reqs[id].server)
  {
    assert Inv(id, ViewOf(s, id));
  }

  lemma {:induction false} CleanupCloses(s: Sys, id: RequestId)
    requires StepEnabled(s, Cleanup) && id in s.reqs && ChannelInv(s.reqs[id].server)
    ensures var t := StepNext(s, Cleanup);
            t.reqs.Keys == s.reqs.Keys
            && !t.reqs[id].server.chan.registered && t.reqs[id].server.chan.closes == 1
  {
  }

  /** Prompt cancellation: after its cancel function has run, a request sends at most one more chunk. */
  lemma {:induction false} PromptCancellation(steps: seq<Step>, t: Sys, id: RequestId)
    requires IsRun(Empty, steps, t) && id in t.reqs
    ensures t.reqs[id].client.late <= 1
    ensures t.reqs[id].client.late > 0 ==> t.reqs[id].client.cancelled && !t.reqs[id].client.pc.Cleared?
  {
    RunKeepsSysInv(Empty, steps, t);
    assert Inv(id, ViewOf(t, id));
  }

  /**
   The receive loop panics in exactly these steps: taking the lock for a complete response, delivering
   an error, or removing the entry after an error, when another goroutine removed the entry since the
   lookup.
   */
  lemma {:induction false} PanicIff(steps: seq<Step>, t: Sys, st: Step)
    requires IsRun(Empty, steps, t) && StepEnabled(t, st)
    ensures StepNext(t, st).recv.Panicked? <==>
              && st.On? && !t.reqs[st.id].server.chan.registered
              && ((st.local == ByLoop(Enter) && t.recv.m.Whole?)
                  || st.local == ByLoop(Deliver) || st.local == ByLoop(RemoveFailed))
  {
    RunKeepsSysInv(Empty, steps, t);
    if st.On? {
      PanicIffLocal(t, st.id, st.local);
    }
  }

  lemma {:induction false} PanicIffLocal(t: Sys, id: RequestId, l: LocalStep)
    requires SysInv(t) && StepEnabled(t, On(id, l))
    ensures StepNext(t, On(id, l)).recv.Panicked? <==>
              && !t.reqs[id].server.chan.registered
              && ((l == ByLoop(Enter) && t.recv.m.Whole?) || l == ByLoop(Deliver) || l == ByLoop(RemoveFailed))
  {
    assert Inv(id, ViewOf(t, id));
    CrashIff(id, ViewOf(t, id), l);
    PanicIsCrash(t, id, l);
  }

  lemma {:induction false} PanicIsCrash(t: Sys, id: RequestId, l: LocalStep)
    requires StepEnabled(t, On(id, l))
    ensures StepNext(t, On(id, l)).recv.Panicked? <==> Next(id, ViewOf(t, id), l).hand.Crashed?
    ensures l == ByLoop(Enter) ==> t.recv.Looked? && t.recv.m == ViewOf(t, id).hand.m
  {
  }

  /**
   The lookup with which a request turns to collecting chunks — after an upload has been sent, or after
   a first chunk — fails exactly when the receive loop has brought a complete response or an error to
   an end before it, or the stream was cleaned up. When no delivery of the request was given up and
   there was no cleanup: exactly when a complete response or an error lies in its channel, and the loop
   is not still about to remove the entry of that error.
   */
  lemma {:induction false} LookupFails(steps: seq<Step>, t: Sys, id: RequestId)
    requires IsRun(Empty, steps, t) && StepEnabled(t, On(id, ByServer(Lookup)))
    ensures var l, failed := t.reqs[id], StepNext(t, On(id, ByServer(Lookup))).reqs[id].server.phase == Done(false);
            && (failed <==> l.losses.ended || l.server.cleaned)
            && (l.losses.answers == 0 && l.losses.errors == 0 && !l.server.cleaned ==>
                  (failed <==> t.recv != Removing(id) && exists m :: m in l.server.chan.buf && Ender(m)))
  {
    RunKeepsSysInv(Empty, steps, t);
    assert Inv(id, ViewOf(t, id));
    LookupFailsIff(id, ViewOf(t, id));
  }
}
