/**
 Fault-free runs of a whole tunnel stream: they end after a bounded number of steps, and every
 request then has exactly its own body.
 */
module MultiplexCompletion {
  import opened Messages
  import opened ResponseStream
  import opened ResponseSafety
  import opened ResponseCompletion
  import opened Multiplex

  /** Opening a request, or a fault-free step of one. */
  predicate CleanStep(st: Step) {
    match st
    case Open(_, _) => true
    case On(_, l) => Clean(l)
    case _ => false
  }

  ghost predicate IsCleanRun(s: Sys, steps: seq<Step>, t: Sys)
    decreases steps
  {
    if steps == [] then s == t
    else
      && StepEnabled(s, steps[0]) && CleanStep(steps[0])
      && IsCleanRun(StepNext(s, steps[0]), steps[1..], t)
  }

  ghost predicate CleanSys(s: Sys) {
    && WellAddressed(s)
    && (s.recv.Idle? || s.recv.Looked? || s.recv.Delivering?)
    && forall id :: id in s.reqs ==> CleanInv(id, ViewOf(s, id))
  }

  /** No goroutine of any request, nor the receive loop, can take a step. */
  ghost predicate Quiescent(s: Sys) {
    forall id, l :: Progress(l) ==> !StepEnabled(s, On(id, l))
  }

  /** The receive loop waits for room in a channel whose reader waits for the loop's lock. */
  predicate SysJammed(s: Sys) {
    s.recv.Delivering? && s.recv.m.id in s.reqs && Jammed(ViewOf(s, s.recv.m.id))
  }

  lemma {:induction false} OthersKeepClean(s: Sys, id: RequestId, l: LocalStep, other: RequestId)
    requires CleanSys(s) && StepEnabled(s, On(id, l)) && other in s.reqs && other != id
    ensures CleanInv(other, ViewOf(StepNext(s, On(id, l)), other))
  {
    assert CleanInv(id, ViewOf(s, id)) && CleanInv(other, ViewOf(s, other));
    StepIsLocal(s, id, l, other);
    CleanElsewhere(other, ViewOf(s, other), StepNext(s, On(id, l)).recv.Delivering?);
  }

  lemma {:induction false} CleanElsewhere(id: RequestId, v: View, lock: bool)
    requires CleanInv(id, v)
    ensures CleanInv(id, v.(lock := lock))
  {
    var v' := v.(lock := lock);
    assert Pipeline(v') == Pipeline(v) && CleanEnd(v');
  }

  lemma {:induction false} LocalStepKeepsCleanSys(s: Sys, id: RequestId, l: LocalStep)
    requires CleanSys(s) && StepEnabled(s, On(id, l)) && Clean(l)
    ensures CleanSys(StepNext(s, On(id, l)))
  {
    var t := StepNext(s, On(id, l));
    assert CleanInv(id, ViewOf(s, id));
    forall i | i in t.reqs
      ensures CleanInv(i, ViewOf(t, i))
    {
      if i == id {
        StepIsLocal(s, id, l, i);
        StepKeepsClean(id, ViewOf(s, id), l);
      } else {
        OthersKeepClean(s, id, l, i);
      }
    }
    AddressesKept(s, id, l);
    LoopStaysClean(s, id, l);
  }

  lemma {:induction false} LoopStaysClean(s: Sys, id: RequestId, l: LocalStep)
    requires CleanSys(s) && StepEnabled(s, On(id, l)) && Clean(l)
    ensures var r := StepNext(s, On(id, l)).recv; r.Idle? || r.Looked? || r.Delivering?
  {
    var v := ViewOf(s, id);
    assert CleanInv(id, v);
    StepKeepsClean(id, v, l);
    if l.ByLoop? {
      assert StepNext(s, On(id, l)).recv == RecvOf(Next(id, v, l).hand, id);
    }
  }

  lemma {:induction false} StepKeepsCleanSys(s: Sys, st: Step)
    requires CleanSys(s) && StepEnabled(s, st) && CleanStep(st)
    ensures CleanSys(StepNext(s, st))
  {
    match st
    case Open(id, kind) => OpenKeepsCleanSys(s, id, kind);
    case On(id, l) => LocalStepKeepsCleanSys(s, id, l);
  }

  lemma {:induction false} OpenKeepsCleanSys(s: Sys, id: RequestId, kind: Kind)
    requires CleanSys(s) && StepEnabled(s, Open(id, kind))
    ensures CleanSys(StepNext(s, Open(id, kind)))
  {
    var t := StepNext(s, Open(id, kind));
    OpenViews(s, id, kind, id);
    NewViewClean(id, kind, false);
    forall i | i in s.reqs
      ensures CleanInv(i, ViewOf(t, i))
    {
      OpenViews(s, id, kind, i);
    }
  }

  lemma {:induction false} CleanRunKeepsCleanSys(s: Sys, steps: seq<Step>, t: Sys)
    requires CleanSys(s) && IsCleanRun(s, steps, t)
    ensures CleanSys(t)
    decreases steps
  {
    if steps != [] {
      StepKeepsCleanSys(s, steps[0]);
      CleanRunKeepsCleanSys(StepNext(s, steps[0]), steps[1..], t);
    }
  }

  // ---------- When nothing can move any more ----------

  lemma {:induction false} QuiescentView(s: Sys, id: RequestId, l: LocalStep)
    requires Quiescent(s) && !s.recv.Panicked? && id in s.reqs
    requires Progress(l) && l != ByLoop(Take) && l != ByServer(Disconnect)
    ensures !Enabled(ViewOf(s, id), l)
  {
    assert !StepEnabled(s, On(id, l));
  }

  /** The receive loop is stuck only in a jam. */
  lemma {:induction false} QuiescentLoop(s: Sys)
    requires CleanSys(s) && Quiescent(s)
    ensures s.recv.Idle? || SysJammed(s)
  {
    if !s.recv.Idle? {
      var id := s.recv.m.id;
      var v := ViewOf(s, id);
      assert CleanInv(id, v);
      QuiescentServer(s, id);
      QuiescentView(s, id, ByLoop(Enter));
      QuiescentView(s, id, ByLoop(Deliver));
      if s.recv.Looked? {
        UnfailingHand(id, v);
      } else {
        RoomOrJam(id, v);
      }
    }
  }

  lemma {:induction false} QuiescentServer(s: Sys, id: RequestId)
    requires Quiescent(s) && !s.recv.Panicked? && id in s.reqs
    ensures forall st :: Progress(ByServer(st)) ==> !Enabled(ViewOf(s, id), ByServer(st))
  {
    forall st | Progress(ByServer(st))
      ensures !Enabled(ViewOf(s, id), ByServer(st))
    {
      QuiescentView(s, id, ByServer(st));
    }
  }

  lemma {:induction false} UnfailingHand(id: RequestId, v: View)
    requires CleanInv(id, v) && v.hand.Got?
    ensures !v.hand.m.Failure? && (!v.lock ==> Enabled(v, ByLoop(Enter)))
  {
    DeliverEndsClean(id, v);
  }

  /** An idle loop can take the head of the stream. */
  lemma {:induction false} IdleLoopTakes(s: Sys)
    requires WellAddressed(s) && s.recv.Idle?
    ensures s.wire != [] ==> StepEnabled(s, On(s.wire[0].id, ByLoop(Take)))
  {
    if s.wire != [] {
      var id := s.wire[0].id;
      assert s.wire[0] in s.wire && ViewOf(s, id).flight == [s.wire[0]] + About(s.wire[1..], id);
    }
  }

  /**
   When a fault-free stream can move no further, either the receive loop is idle and nothing is left on
   the stream, or there is a jam: the loop holds the lock for a chunk, the channel is full, and its
   reader has not yet looked it up.
   */
  lemma {:induction false} QuiescentIsIdleOrJammed(s: Sys)
    requires CleanSys(s) && Quiescent(s)
    ensures s.recv.Idle? && s.wire == [] <==> !SysJammed(s)
  {
    QuiescentLoop(s);
    if s.recv.Idle? {
      IdleLoopTakes(s);
      assert Progress(ByLoop(Take));
    }
  }

  lemma {:induction false} QuiescentMeansStuck(s: Sys, id: RequestId)
    requires CleanSys(s) && Quiescent(s) && !SysJammed(s) && id in s.reqs
    ensures Stuck(ViewOf(s, id))
  {
    QuiescentIsIdleOrJammed(s);
    var v := ViewOf(s, id);
    forall st | Progress(ByClient(st))
      ensures !Enabled(v, ByClient(st))
    {
      QuiescentView(s, id, ByClient(st));
    }
    QuiescentServer(s, id);
  }

  /** The request's pipe holds exactly its body, and is closed exactly when the answer ends as it should. */
  ghost predicate Served(l: Local) {
    && l.server.sink.pipe == ReplyBody(l.client.reply)
    && (l.server.sink.closed <==> Terminates(l.client.reply))
    && (l.server.phase == Done(true) <==> Terminates(l.client.reply))
  }

  /** An upload that was answered completely before it looked for its channel gets nothing. */
  ghost predicate Lost(l: Local) {
    && l.server.kind.Upload? && l.client.reply.CompleteBody?
    && l.server.phase == Done(false) && l.server.sink.pipe == [] && !l.server.sink.closed
  }

  /**
   End-to-end streaming. In a fault-free run of any number of interleaved requests, when nothing can
   move any more and the stream is not jammed, every answered request's pipe holds exactly its response
   body; the pipe is closed, and the request done, exactly when the body's last data came with the end
   of file (or the response was sent whole). The exception is an upload that lost a complete answer.
   */
  lemma {:induction false} StreamingCompletes(steps: seq<Step>, t: Sys, id: RequestId)
    requires IsCleanRun(Empty, steps, t) && Quiescent(t) && !SysJammed(t)
    requires id in t.reqs && !t.reqs[id].client.pc.Unasked?
    ensures Served(t.reqs[id]) || Lost(t.reqs[id])
  {
    CleanRunKeepsCleanSys(Empty, steps, t);
    QuiescentMeansStuck(t, id);
    var v := ViewOf(t, id);
    if LostAnswer(v) {
      LostIsComplete(id, v);
    } else {
      StuckMeansComplete(id, v);
    }
  }

  /** No request of the stream can be answered with more than fits before its channel is looked up. */
  ghost predicate AllFit(s: Sys) {
    forall id :: id in s.reqs ==> Fits(s.reqs[id].server.kind, s.reqs[id].client.reply)
  }

  /**
   With downloads of any length, regular answers of at most two chunks, uploads answered with at most
   250, and complete responses, no fault-free run jams.
   */
  lemma {:induction false} FittingAnswersNeverJam(steps: seq<Step>, t: Sys)
    requires IsCleanRun(Empty, steps, t) && AllFit(t)
    ensures !SysJammed(t)
  {
    CleanRunKeepsCleanSys(Empty, steps, t);
    if t.recv.Delivering? {
      var id := t.recv.m.id;
      assert CleanInv(id, ViewOf(t, id));
      FittingDoesNotJam(id, ViewOf(t, id));
    }
  }

  // ---------- What a jam does ----------

  /** Nothing but the delivery timeout ends a jam, and it drops the chunk. */
  lemma {:induction false} OnlyTheTimeoutEndsAJam(s: Sys, st: Step)
    requires SysInv(s) && SysJammed(s) && StepEnabled(s, st) && !SysJammed(StepNext(s, st))
    ensures st == On(s.recv.m.id, ByLoop(DeliveryTimeout))
    ensures var id := s.recv.m.id;
            var l, l' := s.reqs[id], StepNext(s, st).reqs[id];
            l'.losses.answers == l.losses.answers + 1 && l'.server == l.server
  {
    var id := s.recv.m.id;
    assert Inv(id, ViewOf(s, id));
    if st.On? && st.id == id {
      JamHolds(id, ViewOf(s, id), st.local);
    }
  }

  lemma {:induction false} JamHolds(id: RequestId, v: View, l: LocalStep)
    requires Jammed(v) && v.lock && v.server.chan.open && Enabled(v, l)
    ensures Jammed(Next(id, v, l)) || l == ByLoop(DeliveryTimeout)
  {
  }

  // ---------- Termination ----------

  function PcWeight(pc: ClientPc): nat {
    match pc
    case Unasked => 0
    case Top => 2
    case Reading => 1
    case Holding(_, _) => 12
    case Cleared(_, _) => 11
    case Failing => 11
    case Ended => 0
  }

  function PhaseWeight(p: Phase): nat {
    match p
    case Opening => 9
    case Uploading => 8
    case Waiting => 7
    case Looking => 6
    case Collecting => 5
    case Cleaning(_) => 3
    case Closing(_) => 2
    case Done(_) => 1
  }

  function HandWeight(h: Hand): nat {
    match h
    case Got(_) => 7
    case Locked(_) => 6
    case ErrorTail => 1
    case _ => 0
  }

  /** An upper bound on the steps a request's goroutines can still take. */
  function Work(v: View): nat {
    var c, s := v.client, v.server;
    20 * |c.rest| + PcWeight(c.pc) + 8 * |v.flight| + HandWeight(v.hand)
    + 4 * |s.chan.buf| + 3 * |s.sink.current| + PhaseWeight(s.phase)
  }

  lemma {:induction false} ClientUsesWork(id: RequestId, v: View, st: ClientStep)
    requires Enabled(v, ByClient(st)) && Progress(ByClient(st))
    ensures Work(Next(id, v, ByClient(st))) < Work(v)
  {
  }

  lemma {:induction false} ServerUsesWork(id: RequestId, v: View, st: ServerStep)
    requires Enabled(v, ByServer(st)) && Progress(ByServer(st))
    ensures Work(Next(id, v, ByServer(st))) < Work(v)
  {
  }

  lemma {:induction false} LoopUsesWork(id: RequestId, v: View, st: LoopStep)
    requires Enabled(v, ByLoop(st)) && Progress(ByLoop(st))
    ensures Work(Next(id, v, ByLoop(st))) < Work(v)
  {
  }

  lemma {:induction false} ProgressUsesWork(id: RequestId, v: View, st: LocalStep)
    requires Enabled(v, st) && Progress(st)
    ensures Work(Next(id, v, st)) < Work(v)
  {
    match st
    case ByClient(c) => ClientUsesWork(id, v, c);
    case ByServer(s) => ServerUsesWork(id, v, s);
    case ByLoop(l) => LoopUsesWork(id, v, l);
  }

  ghost function TotalWork(s: Sys, ids: seq<RequestId>): nat {
    if ids == [] then 0
    else (if ids[0] in s.reqs then Work(ViewOf(s, ids[0])) else 0) + TotalWork(s, ids[1..])
  }

  ghost predicate Lists(ids: seq<RequestId>, s: Sys) {
    && (forall id :: id in s.reqs ==> id in ids)
    && forall i, j :: 0 <= i < j < |ids| ==> ids[i] != ids[j]
  }

  lemma {:induction false} TotalWorkShrinks(s: Sys, t: Sys, id: RequestId, ids: seq<RequestId>)
    requires forall i, j :: 0 <= i < j < |ids| ==> ids[i] != ids[j]
    requires s.reqs.Keys == t.reqs.Keys && id in s.reqs
    requires forall i :: i in s.reqs && i != id ==> Work(ViewOf(t, i)) == Work(ViewOf(s, i))
    requires Work(ViewOf(t, id)) < Work(ViewOf(s, id))
    ensures TotalWork(t, ids) <= TotalWork(s, ids)
    ensures id in ids ==> TotalWork(t, ids) < TotalWork(s, ids)
  {
    if ids != [] {
      TotalWorkShrinks(s, t, id, ids[1..]);
      if ids[0] == id {
        assert id !in ids[1..];
      }
    }
  }

  ghost predicate AllProgress(steps: seq<Step>) {
    forall st :: st in steps ==> st.On? && Progress(st.local)
  }

  lemma {:induction false} ProgressShrinks(s: Sys, id: RequestId, l: LocalStep, ids: seq<RequestId>)
    requires WellAddressed(s) && StepEnabled(s, On(id, l)) && ClientInv(id, s.reqs[id].client)
    requires Progress(l) && Lists(ids, s)
    ensures var u := StepNext(s, On(id, l)); Lists(ids, u) && TotalWork(u, ids) < TotalWork(s, ids)
  {
    var u := StepNext(s, On(id, l));
    forall i | i in s.reqs && i != id
      ensures Work(ViewOf(u, i)) == Work(ViewOf(s, i))
    {
      StepIsLocal(s, id, l, i);
    }
    StepIsLocal(s, id, l, id);
    ProgressUsesWork(id, ViewOf(s, id), l);
    TotalWorkShrinks(s, u, id, ids);
  }

  /** From any reachable state, a run without faults and without new requests is bounded in advance. */
  lemma {:induction false} ProgressIsBounded(s: Sys, steps: seq<Step>, t: Sys, ids: seq<RequestId>)
    requires SysInv(s) && IsRun(s, steps, t) && AllProgress(steps) && Lists(ids, s)
    ensures |steps| + TotalWork(t, ids) <= TotalWork(s, ids)
    decreases steps
  {
    if steps != [] {
      var id, l := steps[0].id, steps[0].local;
      assert steps[0] in steps && forall st :: st in steps[1..] ==> st in steps;
      assert Inv(id, ViewOf(s, id));
      ProgressShrinks(s, id, l, ids);
      StepKeepsSysInv(s, steps[0]);
      ProgressIsBounded(StepNext(s, steps[0]), steps[1..], t, ids);
    }
  }

  /** From a fault-free state, progress alone leads to one where nothing can move: quiet, or jammed. */
  lemma {:induction false} ProgressReachesQuiescence(s: Sys, ids: seq<RequestId>) returns (steps: seq<Step>, t: Sys)
    requires CleanSys(s) && Lists(ids, s)
    ensures IsCleanRun(s, steps, t) && AllProgress(steps) && CleanSys(t) && Quiescent(t)
    decreases TotalWork(s, ids)
  {
    if Quiescent(s) {
      return [], s;
    }
    var id, l :| Progress(l) && StepEnabled(s, On(id, l));
    assert CleanInv(id, ViewOf(s, id));
    ProgressShrinks(s, id, l, ids);
    LocalStepKeepsCleanSys(s, id, l);
    var rest;
    rest, t := ProgressReachesQuiescence(StepNext(s, On(id, l)), ids);
    steps := [On(id, l)] + rest;
    assert steps[1..] == rest;
  }

  lemma {:induction false} CleanRunConcat(s: Sys, a: seq<Step>, t: Sys, b: seq<Step>, u: Sys)
    requires IsCleanRun(s, a, t) && IsCleanRun(t, b, u)
    ensures IsCleanRun(s, a + b, u)
    decreases a
  {
    if a == [] {
      assert a + b == b;
    } else {
      CleanRunConcat(StepNext(s, a[0]), a[1..], t, b, u);
      assert (a + b)[1..] == a[1..] + b;
    }
  }

  /**
   Every fault-free run goes on, by steps of the goroutines alone, to a state where nothing can move;
   there the stream is jammed, or every answered request is served or has lost its early answer.
   */
  lemma {:induction false} EveryCleanRunEnds(steps: seq<Step>, t: Sys, ids: seq<RequestId>)
    returns (more: seq<Step>, u: Sys)
    requires IsCleanRun(Empty, steps, t) && Lists(ids, t)
    ensures AllProgress(more) && IsCleanRun(Empty, steps + more, u) && Quiescent(u)
    ensures SysJammed(u) || forall id :: id in u.reqs && !u.reqs[id].client.pc.Unasked? ==>
              Served(u.reqs[id]) || Lost(u.reqs[id])
  {
    CleanRunKeepsCleanSys(Empty, steps, t);
    more, u := ProgressReachesQuiescence(t, ids);
    CleanRunConcat(Empty, steps, t, more, u);
    forall id | !SysJammed(u) && id in u.reqs && !u.reqs[id].client.pc.Unasked?
      ensures Served(u.reqs[id]) || Lost(u.reqs[id])
    {
      StreamingCompletes(steps + more, u, id);
    }
  }
}
