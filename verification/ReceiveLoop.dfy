/**
 When the server's receive loop panics. The loop looks a response channel up, lets go of the lock,
 and for a complete response or an error sends on the channel and closes it without looking again.
 */
module ReceiveLoop {
  import opened Messages
  import opened ResponseStream
  import opened ResponseSafety
  import opened ResponseCompletion
  import opened Multiplex
  import opened SoloRuns

  /** The request whose channel the loop will close without a further check. */
  ghost predicate InHandUnchecked(s: Sys, id: RequestId) {
    || (s.recv.Looked? && !s.recv.m.Chunk? && s.recv.m.id == id)
    || (s.recv.Removing? && s.recv.id == id)
  }

  /** The step does not remove, behind the loop's back, the entry the loop has in hand. */
  ghost predicate Undisturbed(s: Sys, st: Step)
    requires StepEnabled(s, st)
  {
    forall id :: id in s.reqs && InHandUnchecked(s, id) ==>
                   || (st.On? && st.id == id && st.local.ByLoop?)
                   || StepNext(s, st).reqs[id].server.chan.registered
                   || !s.reqs[id].server.chan.registered
  }

  ghost predicate IsUndisturbedRun(s: Sys, steps: seq<Step>, t: Sys)
    decreases steps
  {
    if steps == [] then s == t
    else
      && StepEnabled(s, steps[0]) && Undisturbed(s, steps[0])
      && IsUndisturbedRun(StepNext(s, steps[0]), steps[1..], t)
  }

  /** What the loop has in hand is still registered. */
  ghost predicate HandRegistered(s: Sys) {
    && !s.recv.Panicked?
    && forall id :: id in s.reqs && InHandUnchecked(s, id) ==> s.reqs[id].server.chan.registered
  }

  predicate Unchecked(h: Hand) {
    (h.Got? && !h.m.Chunk?) || h.ErrorTail?
  }

  lemma {:induction false} HandStays(v: View, k: LoopStep)
    requires Enabled(v, ByLoop(k)) && ChannelInv(v.server) && HandInv(v)
    requires Unchecked(v.hand) ==> v.server.chan.registered
    ensures !LoopNext(v, k).hand.Crashed?
    ensures Unchecked(LoopNext(v, k).hand) ==> LoopNext(v, k).server.chan.registered
  {
  }

  lemma {:induction false} InHandIsUnchecked(s: Sys, id: RequestId, other: RequestId)
    requires id in s.reqs && RecvOf(ViewOf(s, id).hand, id) == s.recv
    requires ViewOf(s, id).hand.Got? || ViewOf(s, id).hand.Locked? ==> ViewOf(s, id).hand.m.id == id
    ensures InHandUnchecked(s, other) <==> other == id && Unchecked(ViewOf(s, id).hand)
  {
  }

  lemma {:induction false} LoopStepKeepsHand(s: Sys, id: RequestId, k: LoopStep)
    requires SysInv(s) && HandRegistered(s) && StepEnabled(s, On(id, ByLoop(k)))
    ensures HandRegistered(StepNext(s, On(id, ByLoop(k))))
  {
    var v, t := ViewOf(s, id), StepNext(s, On(id, ByLoop(k)));
    assert Inv(id, v);
    LoopOwns(s, id, k);
    InHandIsUnchecked(s, id, id);
    HandStays(v, k);
    StepIsLocal(s, id, ByLoop(k), id);
    OwnMessage(s, id, k);
    forall i | i in t.reqs && InHandUnchecked(t, i)
      ensures t.reqs[i].server.chan.registered
    {
      InHandIsUnchecked(t, id, i);
    }
  }

  /** What the loop has in hand after a step on a request is that request's message. */
  lemma {:induction false} OwnMessage(s: Sys, id: RequestId, k: LoopStep)
    requires StepEnabled(s, On(id, ByLoop(k)))
    ensures var h := LoopNext(ViewOf(s, id), k).hand;
            && (h.Got? || h.Locked? ==> h.m.id == id)
            && StepNext(s, On(id, ByLoop(k))).recv == RecvOf(h, id)
  {
    var v := ViewOf(s, id);
    HandOwner(v, k);
    AboutMembers(s.wire, id);
    assert v.flight != [] ==> v.flight[0] in v.flight;
  }

  lemma {:induction false} StepKeepsHand(s: Sys, st: Step)
    requires SysInv(s) && HandRegistered(s) && StepEnabled(s, st) && Undisturbed(s, st)
    ensures HandRegistered(StepNext(s, st))
  {
    if st.On? && st.local.ByLoop? {
      LoopStepKeepsHand(s, st.id, st.local.l);
    } else {
      var t := StepNext(s, st);
      assert t.recv == s.recv || t.recv == Stopped;
      forall id | id in t.reqs && InHandUnchecked(t, id)
        ensures t.reqs[id].server.chan.registered
      {
        assert InHandUnchecked(s, id) && id in s.reqs;
      }
    }
  }

  /** If no other goroutine removes the entry the loop has in hand, the loop never panics. */
  lemma {:induction false} UndisturbedRunKeepsHand(s: Sys, steps: seq<Step>, t: Sys)
    requires SysInv(s) && HandRegistered(s) && IsUndisturbedRun(s, steps, t)
    ensures SysInv(t) && HandRegistered(t)
    decreases steps
  {
    if steps != [] {
      StepKeepsHand(s, steps[0]);
      StepKeepsSysInv(s, steps[0]);
      UndisturbedRunKeepsHand(StepNext(s, steps[0]), steps[1..], t);
    }
  }

  lemma {:induction false} UndisturbedRunNeverPanics(steps: seq<Step>, t: Sys)
    requires IsUndisturbedRun(Empty, steps, t)
    ensures !t.recv.Panicked?
  {
    UndisturbedRunKeepsHand(Empty, steps, t);
  }

  // ---------- A run that panics ----------

  /** A download whose local service failed, once the error is in its channel. */
  const ErrorDelivered := View(
    NewClient.(pc := Ended, sent := [Failure(0)]),
    NewServer(Download).(asked := true, phase := Collecting, chan := Channel(true, true, 0, [Failure(0)])),
    [Failure(0)], [], ErrorTail, false, Losses(0, 0, false))

  /** A step of the goroutines' own accord, or the local service failing to answer: no fault of the stream. */
  predicate Ordinary(l: LocalStep) {
    Progress(l) || l == ByClient(Accept(LocalFailure))
  }

  ghost predicate AllOrdinary(ls: seq<LocalStep>) {
    forall l :: l in ls ==> Ordinary(l)
  }

  lemma {:induction false} Go(v: View, ls: seq<LocalStep>, w: View, l: LocalStep) returns (ls': seq<LocalStep>, w': View)
    requires IsLocalRun(v, ls, w) && AllOrdinary(ls) && Enabled(w, l) && Ordinary(l)
    ensures IsLocalRun(v, ls', w') && AllOrdinary(ls') && ls' == ls + [l] && w' == Next(0, w, l)
  {
    Extend(v, ls, w, l);
    ls', w' := ls + [l], Next(0, w, l);
  }

  lemma {:induction false} ErrorGetsDelivered() returns (ls: seq<LocalStep>)
    ensures IsLocalRun(NewView(Download, false), ls, ErrorDelivered) && AllOrdinary(ls)
  {
    var v := NewView(Download, false);
    var w;
    ls, w := Go(v, [], v, ByServer(Issue(true)));
    ls, w := Go(v, ls, w, ByClient(Accept(LocalFailure)));
    ls, w := Go(v, ls, w, ByClient(SendError(true)));
    assert w.flight == [Failure(0)];
    ls, w := Go(v, ls, w, ByLoop(Take));
    ls, w := Go(v, ls, w, ByLoop(Deliver));
    assert w == ErrorDelivered;
  }

  /** The collector handles the error and removes the channel before the loop does. */
  lemma {:induction false} CollectorWinsTheRace(v: View, ls: seq<LocalStep>) returns (ls': seq<LocalStep>, w': View)
    requires IsLocalRun(v, ls, ErrorDelivered) && AllOrdinary(ls)
    ensures IsLocalRun(v, ls', w') && AllOrdinary(ls') && w'.hand == ErrorTail && !w'.server.chan.open
    ensures Enabled(w', ByLoop(RemoveFailed)) && Next(0, w', ByLoop(RemoveFailed)).hand.Crashed?
  {
    ls', w' := Go(v, ls, ErrorDelivered, ByServer(CollectorTake));
    ls', w' := Go(v, ls', w', ByServer(CollectorWrite));
    assert w'.server.phase == Cleaning(false) && w'.server.chan == Channel(true, true, 0, []);
    ls', w' := Go(v, ls', w', ByServer(CollectorCleanup));
  }

  /** A step of the whole stream that is no fault. */
  predicate OrdinaryStep(st: Step) {
    st.Open? || (st.On? && Ordinary(st.local))
  }

  /**
   So the receive loop can panic, in a run without any cancellation, timeout or disconnection: the last
   step removes the entry of an error, and closes the channel that the collector has closed.
   */
  lemma {:induction false} LoopCanPanic() returns (steps: seq<Step>, t: Sys)
    ensures IsRun(Empty, steps, t) && t.recv.Panicked?
    ensures steps != [] && steps[|steps| - 1] == On(0, ByLoop(RemoveFailed))
    ensures forall st :: st in steps ==> OrdinaryStep(st)
  {
    var a := ErrorGetsDelivered();
    var b, w := CollectorWinsTheRace(NewView(Download, false), a);
    var ls, x := Go(NewView(Download, false), b, w, ByLoop(RemoveFailed));
    FromEmpty(Download, ls, x);
    steps, t := OpenThen(Download, ls), Solo(x);
    LiftMembers(ls);
    LiftAppend(b, ByLoop(RemoveFailed));
    assert forall st :: st in steps ==> st == Open(0, Download) || st in Lift(ls);
  }
}
