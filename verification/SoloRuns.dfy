/**
 Runs of a stream that carries a single request, built step by step from the request's own machine.
 */
module SoloRuns {
  import opened Messages
  import opened ResponseStream
  import opened ResponseSafety
  import opened ResponseCompletion
  import opened Multiplex
  import opened MultiplexCompletion

  /** A stream that carries request 0 only. */
  function Solo(v: View): Sys {
    Sys(map[0 := Local(v.client, v.server, v.out, v.losses)], v.flight, RecvOf(v.hand, 0))
  }

  ghost predicate AllOwn(v: View) {
    && (forall m :: m in v.flight ==> m.id == 0)
    && (v.hand.Got? || v.hand.Locked? ==> v.hand.m.id == 0)
    && v.lock == v.hand.Locked?
  }

  /** Steps of a request's own machine, one after the other. */
  ghost predicate IsLocalRun(v: View, ls: seq<LocalStep>, w: View)
    decreases ls
  {
    if ls == [] then v == w
    else
      && Enabled(v, ls[0]) && ls[0] != ByServer(Disconnect)
      && IsLocalRun(Next(0, v, ls[0]), ls[1..], w)
  }

  ghost predicate AllClean(ls: seq<LocalStep>) {
    forall l :: l in ls ==> Clean(l)
  }

  function Lift(ls: seq<LocalStep>): (steps: seq<Step>)
    ensures |steps| == |ls|
  {
    if ls == [] then [] else [On(0, ls[0])] + Lift(ls[1..])
  }

  /** The steps of a lifted run are the request's own. */
  lemma {:induction false} LiftMembers(ls: seq<LocalStep>)
    ensures forall st :: st in Lift(ls) ==> st.On? && st.id == 0 && st.local in ls
  {
    if ls != [] {
      LiftMembers(ls[1..]);
    }
  }

  lemma {:induction false} LiftAppend(ls: seq<LocalStep>, l: LocalStep)
    ensures Lift(ls + [l]) == Lift(ls) + [On(0, l)]
  {
    if ls == [] {
      assert ls + [l] == [l] && [l][1..] == [];
    } else {
      LiftAppend(ls[1..], l);
      assert (ls + [l])[1..] == ls[1..] + [l];
    }
  }

  lemma {:induction false} SoloView(v: View)
    requires AllOwn(v)
    ensures ViewOf(Solo(v), 0) == v
  {
    AboutOwn(v.flight, 0, 0);
  }

  /** The request's own messages are its own still. */
  lemma {:induction false} SoloOwn(v: View, l: LocalStep)
    requires ClientInv(0, v.client) && AllOwn(v) && Enabled(v, l)
    ensures AllOwn(Next(0, v, l))
  {
    SentAddress(0, v, l);
    if l.ByLoop? {
      HandOwner(v, l.l);
      LockAfter(0, v, l.l);
      assert v.flight != [] ==> v.flight[0] in v.flight;
    } else {
      assert Next(0, v, l).flight == v.flight + Sent(0, v, l);
    }
  }

  lemma {:induction false} SoloEnabled(v: View, l: LocalStep)
    requires AllOwn(v) && Enabled(v, l) && l != ByServer(Disconnect)
    ensures StepEnabled(Solo(v), On(0, l))
  {
    SoloView(v);
    assert v.flight != [] ==> v.flight[0] in v.flight;
  }

  /** A request alone on its stream moves as its own machine does. */
  lemma {:induction false} SoloStep(v: View, l: LocalStep)
    requires ClientInv(0, v.client) && AllOwn(v) && Enabled(v, l) && l != ByServer(Disconnect)
    ensures StepEnabled(Solo(v), On(0, l)) && StepNext(Solo(v), On(0, l)) == Solo(Next(0, v, l))
    ensures AllOwn(Next(0, v, l))
  {
    SoloView(v);
    SoloEnabled(v, l);
    SoloOwn(v, l);
    var w := Next(0, v, l);
    var t := StepNext(Solo(v), On(0, l));
    assert t.reqs == map[0 := Local(w.client, w.server, w.out, w.losses)];
    assert t.wire == w.flight by {
      if l != ByLoop(Take) {
        FlightAfter(0, v, l);
      }
    }
    assert t.recv == RecvOf(w.hand, 0);
  }

  lemma {:induction false} ClientStays(v: View, l: LocalStep)
    requires ClientInv(0, v.client) && Enabled(v, l)
    ensures ClientInv(0, Next(0, v, l).client)
  {
    if l.ByClient? {
      StepKeepsClientInv(0, v.client, l.c);
    }
  }

  lemma {:induction false} SoloRun(v: View, ls: seq<LocalStep>, w: View)
    requires ClientInv(0, v.client) && AllOwn(v) && IsLocalRun(v, ls, w)
    ensures IsRun(Solo(v), Lift(ls), Solo(w)) && AllOwn(w)
    ensures AllClean(ls) ==> IsCleanRun(Solo(v), Lift(ls), Solo(w))
    decreases ls
  {
    if ls != [] {
      SoloStep(v, ls[0]);
      ClientStays(v, ls[0]);
      assert ls[0] in ls && forall l :: l in ls[1..] ==> l in ls;
      SoloRun(Next(0, v, ls[0]), ls[1..], w);
      assert Lift(ls)[1..] == Lift(ls[1..]);
    }
  }

  /** The run of a stream on which one request is opened and then makes the given steps. */
  function OpenThen(kind: Kind, ls: seq<LocalStep>): seq<Step> {
    [Open(0, kind)] + Lift(ls)
  }

  lemma {:induction false} FromEmpty(kind: Kind, ls: seq<LocalStep>, w: View)
    requires IsLocalRun(NewView(kind, false), ls, w)
    ensures IsRun(Empty, OpenThen(kind, ls), Solo(w)) && ViewOf(Solo(w), 0) == w && AllOwn(w)
    ensures AllClean(ls) ==> IsCleanRun(Empty, OpenThen(kind, ls), Solo(w))
  {
    var v := NewView(kind, false);
    NewReqInv(0, kind, false);
    SoloRun(v, ls, w);
    SoloView(w);
    assert OpenThen(kind, ls)[1..] == Lift(ls);
    assert StepNext(Empty, Open(0, kind)) == Solo(v);
  }

  /** One more step at the end. */
  lemma {:induction false} Extend(v: View, ls: seq<LocalStep>, w: View, l: LocalStep)
    requires IsLocalRun(v, ls, w) && Enabled(w, l) && l != ByServer(Disconnect)
    ensures IsLocalRun(v, ls + [l], Next(0, w, l))
    ensures AllClean(ls) && Clean(l) ==> AllClean(ls + [l])
    decreases ls
  {
    if ls == [] {
      assert ls + [l] == [l] && [l][1..] == [];
    } else {
      Extend(Next(0, v, ls[0]), ls[1..], w, l);
      assert (ls + [l])[1..] == ls[1..] + [l] && (ls + [l])[0] == ls[0];
      assert forall x :: x in ls + [l] <==> x in ls || x == l;
    }
  }

  lemma {:induction false} Concat(v: View, a: seq<LocalStep>, w: View, b: seq<LocalStep>, x: View)
    requires IsLocalRun(v, a, w) && IsLocalRun(w, b, x)
    ensures IsLocalRun(v, a + b, x)
    ensures AllClean(a) && AllClean(b) ==> AllClean(a + b)
    decreases a
  {
    if a == [] {
      assert a + b == b;
    } else {
      Concat(Next(0, v, a[0]), a[1..], w, b, x);
      assert (a + b)[1..] == a[1..] + b && (a + b)[0] == a[0];
      assert forall l :: l in a + b <==> l in a || l in b;
    }
  }
}
