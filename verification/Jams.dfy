/**
 Runs without a fault in which a request does not get its answer: an answer that jams the stream, an
 answer that loses a chunk in the jam, a complete answer that comes before its upload looks for it, a
 body that is never closed; and, with a failed upload write, an answer thrown away by an error.
 */
module Jams {
  import opened Messages
  import opened ResponseStream
  import opened ResponseSafety
  import opened ResponseCompletion
  import opened Multiplex
  import opened MultiplexCompletion
  import opened SoloRuns

  // ---------- Building blocks ----------

  /** One step more, clean or not. */
  lemma {:induction false} Go(v: View, ls: seq<LocalStep>, w: View, l: LocalStep) returns (ls': seq<LocalStep>, w': View)
    requires IsLocalRun(v, ls, w) && Enabled(w, l) && l != ByServer(Disconnect)
    ensures IsLocalRun(v, ls', w') && w' == Next(0, w, l)
  {
    Extend(v, ls, w, l);
    ls', w' := ls + [l], Next(0, w, l);
  }

  /** One clean step more. */
  lemma {:induction false} Do(v: View, ls: seq<LocalStep>, w: View, l: LocalStep) returns (ls': seq<LocalStep>, w': View)
    requires IsLocalRun(v, ls, w) && AllClean(ls) && Enabled(w, l) && Clean(l)
    ensures IsLocalRun(v, ls', w') && AllClean(ls') && w' == Next(0, w, l)
  {
    Extend(v, ls, w, l);
    ls', w' := ls + [l], Next(0, w, l);
  }

  /** Steps of the client have put `msgs` on the stream. */
  predicate HasSent(v: View, msgs: seq<Msg>, w: View) {
    && w == v.(client := w.client, out := v.out + msgs, flight := v.flight + msgs)
    && w.client.sent == v.client.sent + msgs
    && w.client.reply == v.client.reply && !w.client.cancelled
  }

  lemma {:induction false} HasSentTrans(v: View, a: seq<Msg>, w: View, b: seq<Msg>, x: View)
    requires HasSent(v, a, w) && HasSent(w, b, x)
    ensures HasSent(v, a + b, x)
  {
    assert v.out + a + b == v.out + (a + b) && v.flight + a + b == v.flight + (a + b);
    assert v.client.sent + a + b == v.client.sent + (a + b);
  }

  lemma {:induction false} ClientReads(v: View) returns (ls: seq<LocalStep>, w: View)
    requires v.client.pc.Top? && v.client.rest != [] && !v.client.cancelled && !v.hand.Crashed?
    ensures IsLocalRun(v, ls, w) && AllClean(ls) && HasSent(v, [], w)
    ensures w.client == AfterRead(0, v.client.(pc := Reading))
  {
    ls, w := Do(v, [], v, ByClient(CheckTop));
    ls, w := Do(v, ls, w, ByClient(ReadBody));
    assert v.out + [] + [] == v.out + [] && v.flight + [] + [] == v.flight + [];
  }

  lemma {:induction false} ClientSends(v: View) returns (ls: seq<LocalStep>, w: View)
    requires v.client.pc.Holding? && !v.client.cancelled && !v.hand.Crashed?
    ensures IsLocalRun(v, ls, w) && AllClean(ls) && HasSent(v, [v.client.pc.msg], w)
    ensures var c := v.client;
            w.client == c.(pc := if c.pc.eof then Ended else Top, sent := c.sent + [c.pc.msg])
  {
    ls, w := Do(v, [], v, ByClient(CheckSend));
    ls, w := Do(v, ls, w, ByClient(SendMsg(true)));
    assert v.out + [] == v.out && v.flight + [] == v.flight;
  }

  /** What one read makes the client send. */
  function Turn(c: Client): seq<Msg>
    requires c.rest != []
  {
    var rd := c.rest[0];
    if rd.data == [] then [] else [Chunk(0, c.num + 1, rd.data, rd.status.Eof?)]
  }

  /** The client reads once and sends what it read. */
  lemma {:induction false} ClientTurn(v: View) returns (ls: seq<LocalStep>, w: View)
    requires v.client.pc.Top? && v.client.rest != [] && !v.client.rest[0].status.Failed?
    requires !v.client.cancelled && !v.hand.Crashed?
    ensures IsLocalRun(v, ls, w) && AllClean(ls) && HasSent(v, Turn(v.client), w)
    ensures var c := v.client;
            && w.client.pc == (if c.rest[0].status.Eof? then Ended else Top)
            && w.client.rest == c.rest[1..] && w.client.num == c.num + |Turn(c)|
  {
    ls, w := ClientReads(v);
    if v.client.rest[0].data != [] {
      var more, x := ClientSends(w);
      Concat(v, ls, w, more, x);
      HasSentTrans(v, [], w, [w.client.pc.msg], x);
      assert [] + [w.client.pc.msg] == Turn(v.client);
      ls, w := ls + more, x;
    }
  }

  /** The client sends its whole body. */
  lemma {:induction false} ClientSendsAll(v: View) returns (ls: seq<LocalStep>, w: View)
    requires v.client.pc.Top? && EndsWithEof(v.client.rest) && !v.client.cancelled && !v.hand.Crashed?
    ensures IsLocalRun(v, ls, w) && AllClean(ls)
    ensures HasSent(v, Emit(0, v.client.rest, v.client.num), w) && w.client.pc.Ended?
    decreases |v.client.rest|
  {
    var c := v.client;
    ls, w := ClientTurn(v);
    if c.rest[0].status.Eof? {
      assert Emit(0, c.rest, c.num) == Turn(c);
    } else {
      var more, x := ClientSendsAll(w);
      Concat(v, ls, w, more, x);
      var tail := Emit(0, w.client.rest, w.client.num);
      HasSentTrans(v, Turn(c), w, tail, x);
      assert Emit(0, c.rest, c.num) == Turn(c) + tail;
      ls, w := ls + more, x;
    }
  }

  /** The loop delivers the chunk at the head of the stream. */
  lemma {:induction false} LoopTurn(v: View) returns (ls: seq<LocalStep>, w: View)
    requires v.hand.Free? && !v.lock && v.server.chan.registered && v.server.chan.open
    requires v.flight != [] && v.flight[0].Chunk? && |v.server.chan.buf| < Capacity(v.server.kind)
    ensures IsLocalRun(v, ls, w) && AllClean(ls)
    ensures w == v.(flight := v.flight[1..],
                    server := v.server.(chan := v.server.chan.(buf := v.server.chan.buf + [v.flight[0]])))
  {
    ls, w := Do(v, [], v, ByLoop(Take));
    ls, w := Do(v, ls, w, ByLoop(Enter));
    ls, w := Do(v, ls, w, ByLoop(Deliver));
  }

  /** The loop delivers the first `n` chunks of the stream. */
  lemma {:induction false} LoopDelivers(v: View, n: nat) returns (ls: seq<LocalStep>, w: View)
    requires v.hand.Free? && !v.lock && v.server.chan.registered && v.server.chan.open
    requires n <= |v.flight| && forall m :: m in v.flight ==> m.Chunk?
    requires |v.server.chan.buf| + n <= Capacity(v.server.kind)
    ensures IsLocalRun(v, ls, w) && AllClean(ls)
    ensures w == v.(flight := v.flight[n..],
                    server := v.server.(chan := v.server.chan.(buf := v.server.chan.buf + v.flight[..n])))
    decreases n
  {
    if n == 0 {
      assert v.flight[0..] == v.flight && v.server.chan.buf + v.flight[..0] == v.server.chan.buf;
      ls, w := [], v;
    } else {
      ls, w := LoopTurn(v);
      var more, x := LoopDelivers(w, n - 1);
      Concat(v, ls, w, more, x);
      assert w.flight[n - 1..] == v.flight[n..] && w.flight[..n - 1] == v.flight[1..n];
      assert v.server.chan.buf + [v.flight[0]] + v.flight[1..n] == v.server.chan.buf + v.flight[..n];
      ls, w := ls + more, x;
    }
  }

  /** The request is issued, and the local service answers. */
  lemma {:induction false} Asked(kind: Kind, r: Reply) returns (ls: seq<LocalStep>, w: View)
    requires Healthy(r)
    ensures IsLocalRun(NewView(kind, false), ls, w) && AllClean(ls)
    ensures w == NewView(kind, false).(
                   client := AfterAccept(0, NewClient, r),
                   server := NewServer(kind).(asked := true, phase := match kind case Regular => Waiting
                                                                                  case Download => Collecting
                                                                                  case Upload => Uploading))
  {
    var v := NewView(kind, false);
    ls, w := Do(v, [], v, ByServer(Issue(true)));
    ls, w := Do(v, ls, w, ByClient(Accept(r)));
    assert w.out == [] && w.flight == [];
  }

  // ---------- The jam ----------

  /** A request that is looking for its channel, with the channel full and more to come. */
  ghost predicate AboutToJam(v: View) {
    && v.hand.Free? && !v.lock && v.server.chan.registered && v.server.chan.open
    && v.server.phase.Looking? && |v.server.chan.buf| == Capacity(v.server.kind)
    && v.flight != [] && v.flight[0].Chunk?
  }

  lemma {:induction false} RegularComesToLooking(v: View) returns (ls: seq<LocalStep>, w: View)
    requires v.hand.Free? && !v.lock && v.server.chan == Channel(true, true, 0, [])
    requires v.server.kind.Regular? && v.server.phase.Waiting?
    requires |v.flight| > 2 && forall m :: m in v.flight ==> m.Chunk?
    ensures IsLocalRun(v, ls, w) && AllClean(ls) && AboutToJam(w) && w.client == v.client
    ensures w.server.kind == v.server.kind && w.flight == v.flight[2..]
    ensures w.server.chan == Channel(true, true, 0, [v.flight[1]]) && w.losses == v.losses
    ensures w.server.sink == v.server.sink.(current := [v.flight[0]], taken := v.server.sink.taken + [v.flight[0]])
  {
    ls, w := LoopTurn(v);
    ls, w := Do(v, ls, w, ByServer(WaiterTake));
    var more, x := LoopTurn(w);
    Concat(v, ls, w, more, x);
    ls, w := ls + more, x;
  }

  lemma {:induction false} UploadComesToLooking(v: View) returns (ls: seq<LocalStep>, w: View)
    requires v.hand.Free? && !v.lock && v.server.chan == Channel(true, true, 0, [])
    requires v.server.kind.Upload? && v.server.phase.Uploading?
    requires |v.flight| > 250 && forall m :: m in v.flight ==> m.Chunk?
    ensures IsLocalRun(v, ls, w) && AllClean(ls) && AboutToJam(w) && w.client == v.client
    ensures w.server.kind == v.server.kind
  {
    ls, w := LoopDelivers(v, 250);
    ls, w := Do(v, ls, w, ByServer(UploadSent(true)));
  }

  /** Every answer with more chunks than fit has a fault-free run that jams the stream. */
  lemma {:induction false} UnfittingAnswerJams(kind: Kind, r: Reply) returns (ls: seq<LocalStep>, w: View)
    requires Healthy(r) && !Fits(kind, r)
    ensures IsLocalRun(NewView(kind, false), ls, w) && AllClean(ls) && Jammed(w)
    ensures w.server.kind == kind && w.client.reply == r
  {
    var v := NewView(kind, false);
    ls, w := Asked(kind, r);
    var more, x := ClientSendsAll(w);
    Concat(v, ls, w, more, x);
    ls, w := ls + more, x;
    FinalChunkIff(0, r.script, 0);
    assert w.flight == [] + Emit(0, r.script, 0) == Emit(0, r.script, 0);
    if kind.Regular? {
      more, x := RegularComesToLooking(w);
    } else {
      more, x := UploadComesToLooking(w);
    }
    Concat(v, ls, w, more, x);
    ls, w := Do(v, ls + more, x, ByLoop(Take));
    ls, w := Do(v, ls, w, ByLoop(Enter));
  }

  /** A fault-free run of a stream with a single request, of this kind and answer. */
  ghost predicate IsLoneRun(kind: Kind, r: Reply, steps: seq<Step>, t: Sys) {
    && IsCleanRun(Empty, steps, t) && t.reqs.Keys == {0}
    && t.reqs[0].server.kind == kind && t.reqs[0].client.reply == r
  }

  /**
   The exact condition: an answer cannot jam its stream if and only if it goes to a download, is sent
   whole, or has no more chunks than are received before the lookup and fit into the channel: two for a
   regular request, 250 for an upload.
   */
  lemma {:induction false} FitsIff(kind: Kind, r: Reply)
    requires Healthy(r)
    ensures Fits(kind, r) <==> forall steps, t :: IsLoneRun(kind, r, steps, t) ==> !SysJammed(t)
  {
    if Fits(kind, r) {
      forall steps, t | IsLoneRun(kind, r, steps, t)
        ensures !SysJammed(t)
      {
        assert 0 in t.reqs.Keys;
        FittingAnswersNeverJam(steps, t);
      }
    } else {
      var ls, w := UnfittingAnswerJams(kind, r);
      FromEmpty(kind, ls, w);
      assert IsLoneRun(kind, r, OpenThen(kind, ls), Solo(w));
      assert SysJammed(Solo(w));
    }
  }

  // ---------- A jam loses data ----------

  /** The answer is on the stream. */
  lemma {:induction false} Answered(kind: Kind, rs: seq<Read>) returns (ls: seq<LocalStep>, w: View)
    requires EndsWithEof(rs)
    ensures IsLocalRun(NewView(kind, false), ls, w) && AllClean(ls)
    ensures w.flight == Emit(0, rs, 0) && w.client.reply == StreamBody(rs)
    ensures w.hand.Free? && !w.lock && w.losses == Losses(0, 0, false)
    ensures w.server == NewServer(kind).(asked := true, phase := match kind case Regular => Waiting
                                                                             case Download => Collecting
                                                                             case Upload => Uploading)
  {
    ls, w := Asked(kind, StreamBody(rs));
    var more, x := ClientSendsAll(w);
    Concat(NewView(kind, false), ls, w, more, x);
    ls, w := ls + more, x;
    assert [] + Emit(0, rs, 0) == Emit(0, rs, 0);
  }

  /** Chunks of which only the last is final. */
  ghost predicate WholeAnswer(ms: seq<Msg>) {
    ms != [] && forall i :: 0 <= i < |ms| ==> ms[i].Chunk? && (ms[i].final <==> i == |ms| - 1)
  }

  lemma {:induction false} EmitIsWholeAnswer(rs: seq<Read>)
    requires EndsWithEof(rs) && LastDataWithEof(rs)
    ensures WholeAnswer(Emit(0, rs, 0))
  {
    EmitShape(0, rs, 0);
    FinalChunkIff(0, rs, 0);
    assert forall i :: 0 <= i < |Emit(0, rs, 0)| ==> Emit(0, rs, 0)[i] in Emit(0, rs, 0);
  }

  /** The request with its third chunk in the jam, one chunk in its channel and one in its hands. */
  ghost predicate JamsWith(w: View, ms: seq<Msg>) {
    && |ms| > 3 && w.hand == Locked(ms[2]) && w.flight == ms[3..] && w.lock
    && w.server.kind.Regular? && w.server.phase.Looking?
    && w.server.chan == Channel(true, true, 0, [ms[1]])
    && w.server.sink == Sink([ms[0]], [ms[0]], [], [], false, false)
  }

  lemma {:induction false} RegularJam(rs: seq<Read>) returns (ls: seq<LocalStep>, w: View)
    requires EndsWithEof(rs) && |Emit(0, rs, 0)| > 3
    ensures IsLocalRun(NewView(Regular, false), ls, w) && AllClean(ls)
    ensures JamsWith(w, Emit(0, rs, 0)) && Jammed(w) && w.client.reply == StreamBody(rs)
  {
    var v := NewView(Regular, false);
    var ms := Emit(0, rs, 0);
    FinalChunkIff(0, rs, 0);
    ls, w := Answered(Regular, rs);
    assert [] + [ms[0]] == [ms[0]];
    var more, x := RegularComesToLooking(w);
    Concat(v, ls, w, more, x);
    assert x.server.sink.taken == [ms[0]] && x.flight == ms[2..];
    ls, w := EnterJam(v, ls + more, x);
    assert w.flight == ms[3..];
  }

  lemma {:induction false} EnterJam(v: View, ls: seq<LocalStep>, w: View) returns (ls': seq<LocalStep>, w': View)
    requires IsLocalRun(v, ls, w) && AllClean(ls) && AboutToJam(w)
    ensures IsLocalRun(v, ls', w') && AllClean(ls') && Jammed(w')
    ensures w' == w.(flight := w.flight[1..], hand := Locked(w.flight[0]), lock := true)
  {
    ls', w' := Do(v, ls, w, ByLoop(Take));
    ls', w' := Do(v, ls', w', ByLoop(Enter));
  }

  /** The collector has written all it took, has `buf` in its channel, and nothing is in its way. */
  ghost predicate Draining(w: View, phase: Phase, buf: seq<Msg>, written: seq<Msg>) {
    && !w.lock && w.hand.Free? && w.server.kind.Regular? && w.server.phase == phase
    && w.server.chan == Channel(true, true, 0, buf)
    && w.server.sink == Sink([], written, written, Bodies(written), false, false)
  }

  function AfterChunk(m: Msg): Phase
    requires m.Chunk?
  {
    if m.final then Cleaning(true) else Collecting
  }

  /** The collector takes and writes the chunk in its channel. */
  lemma {:induction false} ChunkIsWritten(v: View, ls: seq<LocalStep>, w: View, m: Msg, written: seq<Msg>)
      returns (ls': seq<LocalStep>, w': View)
    requires IsLocalRun(v, ls, w) && AllClean(ls) && m.Chunk? && Draining(w, Collecting, [m], written)
    ensures IsLocalRun(v, ls', w') && AllClean(ls') && w'.flight == w.flight && w'.client == w.client
    ensures Draining(w', AfterChunk(m), [], written + [m])
  {
    ls', w' := Do(v, ls, w, ByServer(CollectorTake));
    ls', w' := Do(v, ls', w', ByServer(CollectorWrite));
    BodiesAppend(written, m);
  }

  /** The collector writes the two chunks it has. */
  lemma {:induction false} AfterTheJam(v: View, ls: seq<LocalStep>, w: View, ms: seq<Msg>)
      returns (ls': seq<LocalStep>, w': View)
    requires IsLocalRun(v, ls, w) && AllClean(ls) && WholeAnswer(ms) && |ms| > 3
    requires JamsWith(w.(hand := Locked(ms[2]), lock := true), ms) && w.hand.Free? && !w.lock
    ensures IsLocalRun(v, ls', w') && AllClean(ls') && w'.client == w.client && w'.flight == ms[3..]
    ensures Draining(w', Collecting, [], [ms[0], ms[1]])
  {
    assert !ms[0].final && !ms[1].final;
    ls', w' := Do(v, ls, w, ByServer(Lookup));
    ls', w' := Do(v, ls', w', ByServer(CollectorWrite));
    assert [] + [ms[0]] == [ms[0]];
    BodiesAppend([], ms[0]);
    ls', w' := ChunkIsWritten(v, ls', w', ms[1], [ms[0]]);
    assert [ms[0]] + [ms[1]] == [ms[0], ms[1]];
  }

  /** The chunk at the head of the stream is delivered, taken and written. */
  lemma {:induction false} ChunkPasses(v: View, ls: seq<LocalStep>, w: View, written: seq<Msg>)
      returns (ls': seq<LocalStep>, w': View)
    requires IsLocalRun(v, ls, w) && AllClean(ls) && Draining(w, Collecting, [], written)
    requires w.flight != [] && w.flight[0].Chunk?
    ensures IsLocalRun(v, ls', w') && AllClean(ls') && w'.flight == w.flight[1..] && w'.client == w.client
    ensures Draining(w', AfterChunk(w.flight[0]), [], written + [w.flight[0]])
  {
    var m := w.flight[0];
    var one, x := LoopTurn(w);
    Concat(v, ls, w, one, x);
    assert [] + [m] == [m];
    ls', w' := ChunkIsWritten(v, ls + one, x, m, written);
  }

  lemma {:induction false} CollectorEnds(v: View, ls: seq<LocalStep>, w: View, written: seq<Msg>)
      returns (ls': seq<LocalStep>, w': View)
    requires IsLocalRun(v, ls, w) && AllClean(ls) && Draining(w, Cleaning(true), [], written)
    ensures IsLocalRun(v, ls', w') && AllClean(ls') && w'.client == w.client && Delivered(w', written)
  {
    ls', w' := Do(v, ls, w, ByServer(CollectorCleanup));
    ls', w' := Do(v, ls', w', ByServer(ClosePipe));
  }

  /** The response has been closed as a success. */
  predicate Delivered(w: View, written: seq<Msg>) {
    && w.server.kind.Regular? && w.server.phase == Done(true)
    && w.server.sink.closed && w.server.sink.pipe == Bodies(written)
  }

  /** The rest of the answer is delivered and written, chunk by chunk, and the response closed. */
  lemma {:induction false} Drain(v: View, ls: seq<LocalStep>, w: View, written: seq<Msg>)
      returns (ls': seq<LocalStep>, w': View)
    requires IsLocalRun(v, ls, w) && AllClean(ls) && Draining(w, Collecting, [], written) && WholeAnswer(w.flight)
    ensures IsLocalRun(v, ls', w') && AllClean(ls') && w'.client == w.client && Delivered(w', written + w.flight)
    decreases |w.flight|
  {
    var m, rest := w.flight[0], w.flight[1..];
    ls', w' := ChunkPasses(v, ls, w, written);
    MoveOver(written, w.flight);
    if rest == [] {
      ls', w' := CollectorEnds(v, ls', w', written + [m]);
    } else {
      RestIsWhole(w.flight);
      ls', w' := Drain(v, ls', w', written + [m]);
    }
  }

  lemma MoveOver(a: seq<Msg>, b: seq<Msg>)
    requires b != []
    ensures a + b == a + [b[0]] + b[1..]
    ensures |b| == 1 ==> a + b == a + [b[0]]
  {
  }

  lemma RestIsWhole(ms: seq<Msg>)
    requires WholeAnswer(ms) && |ms| > 1
    ensures WholeAnswer(ms[1..]) && !ms[0].final
  {
    assert forall i :: 0 <= i < |ms[1..]| ==> ms[1..][i] == ms[i + 1];
  }

  /** What a chunk costs that is left out. */
  lemma {:induction false} WithoutOne(ms: seq<Msg>, k: nat)
    requires k < |ms|
    ensures |Bodies(ms[..k] + ms[k + 1..])| + |Body(ms[k])| == |Bodies(ms)|
  {
    BodiesConcat(ms[..k], ms[k + 1..]);
    BodiesAppend(ms[..k], ms[k]);
    BodiesConcat(ms[..k] + [ms[k]], ms[k + 1..]);
    assert ms == ms[..k] + [ms[k]] + ms[k + 1..];
  }

  /**
   A jam loses data silently. For every regular answer of more than three chunks whose last data comes
   with the end of file: a fault-free run jams; the delivery timeout, the only fault, ends the jam; and a
   fault-free run then closes the response as a success, with all its chunks but the third.
   */
  lemma {:induction false} JamLosesData(rs: seq<Read>) returns (before: seq<Step>, s: Sys, after: seq<Step>, t: Sys)
    requires EndsWithEof(rs) && LastDataWithEof(rs) && |Emit(0, rs, 0)| > 3
    ensures IsCleanRun(Empty, before, s) && SysJammed(s)
    ensures var timeout := On(0, ByLoop(DeliveryTimeout));
            StepEnabled(s, timeout) && IsCleanRun(StepNext(s, timeout), after, t)
    ensures t.reqs.Keys == {0} && t.reqs[0].server.kind.Regular? && t.reqs[0].client.reply == StreamBody(rs)
    ensures var k, ms := t.reqs[0].server.sink, Emit(0, rs, 0);
            && t.reqs[0].server.phase == Done(true) && k.closed
            && k.pipe == Bodies(ms[..2] + ms[3..]) && |k.pipe| < |DataOf(rs)|
  {
    var w;
    before, s, w := JamIsReached(rs);
    var ms := Emit(0, rs, 0);
    EmitIsWholeAnswer(rs);
    var more, x := FromTheJam(w, ms);
    SoloRun(Next(0, w, ByLoop(DeliveryTimeout)), more, x);
    after, t := Lift(more), Solo(x);
    ThirdIsMissing(rs);
  }

  lemma {:induction false} ThirdIsMissing(rs: seq<Read>)
    requires EndsWithEof(rs) && |Emit(0, rs, 0)| > 3
    ensures var ms := Emit(0, rs, 0); |Bodies(ms[..2] + ms[3..])| < |DataOf(rs)|
  {
    EmitCarriesData(0, rs, 0);
    WithoutOne(Emit(0, rs, 0), 2);
    NoEmptyChunk(rs, 2);
  }

  lemma {:induction false} NoEmptyChunk(rs: seq<Read>, k: nat)
    requires EndsWithEof(rs) && k < |Emit(0, rs, 0)|
    ensures Body(Emit(0, rs, 0)[k]) != []
  {
    EmitShape(0, rs, 0);
    FinalChunkIff(0, rs, 0);
    assert Emit(0, rs, 0)[k] in Emit(0, rs, 0);
  }

  /** The jam of a stream with this request alone, and the timeout out of it. */
  lemma {:induction false} JamIsReached(rs: seq<Read>) returns (before: seq<Step>, s: Sys, w: View)
    requires EndsWithEof(rs) && |Emit(0, rs, 0)| > 3
    ensures IsCleanRun(Empty, before, s) && SysJammed(s)
    ensures JamsWith(w, Emit(0, rs, 0)) && w.client.reply == StreamBody(rs)
    ensures var timeout, v := On(0, ByLoop(DeliveryTimeout)), Next(0, w, ByLoop(DeliveryTimeout));
            && StepEnabled(s, timeout) && StepNext(s, timeout) == Solo(v)
            && AllOwn(v) && ClientInv(0, v.client)
  {
    var ls;
    ls, w := RegularJam(rs);
    FromEmpty(Regular, ls, w);
    before, s := OpenThen(Regular, ls), Solo(w);
    SoloClient(before, w);
    SoloStep(w, ByLoop(DeliveryTimeout));
    ClientStays(w, ByLoop(DeliveryTimeout));
    SoloJam(w);
  }

  lemma {:induction false} SoloClient(steps: seq<Step>, w: View)
    requires IsRun(Empty, steps, Solo(w)) && ViewOf(Solo(w), 0) == w
    ensures ClientInv(0, w.client)
  {
    RunKeepsSysInv(Empty, steps, Solo(w));
    assert Inv(0, ViewOf(Solo(w), 0));
  }

  lemma {:induction false} SoloJam(w: View)
    requires Jammed(w) && AllOwn(w) && ViewOf(Solo(w), 0) == w
    ensures SysJammed(Solo(w))
  {
  }

  lemma {:induction false} FromTheJam(w: View, ms: seq<Msg>) returns (ls: seq<LocalStep>, x: View)
    requires WholeAnswer(ms) && JamsWith(w, ms)
    ensures IsLocalRun(Next(0, w, ByLoop(DeliveryTimeout)), ls, x) && AllClean(ls) && x.client == w.client
    ensures Delivered(x, ms[..2] + ms[3..])
  {
    var v := Next(0, w, ByLoop(DeliveryTimeout));
    ls, x := AfterTheJam(v, [], v, ms);
    assert forall i :: 0 <= i < |ms[3..]| ==> ms[3..][i] == ms[i + 3];
    assert [ms[0], ms[1]] == ms[..2];
    ls, x := Drain(v, ls, x, ms[..2]);
  }

  // ---------- Answers that come too early ----------

  /** A complete answer that comes before its upload looks for it: a fault-free run that loses it. */
  lemma {:induction false} EarlyAnswerIsLost(content: Bytes) returns (steps: seq<Step>, t: Sys)
    ensures IsCleanRun(Empty, steps, t) && t.reqs.Keys == {0} && Lost(t.reqs[0])
    ensures t.reqs[0].client.reply == CompleteBody(content)
  {
    var ls, w := EarlyAnswerDelivered(content);
    ls, w := Do(NewView(Upload, false), ls, w, ByServer(UploadSent(true)));
    ls, w := Do(NewView(Upload, false), ls, w, ByServer(Lookup));
    FromEmpty(Upload, ls, w);
    steps, t := OpenThen(Upload, ls), Solo(w);
  }

  lemma {:induction false} EarlyAnswerDelivered(content: Bytes) returns (ls: seq<LocalStep>, w: View)
    ensures IsLocalRun(NewView(Upload, false), ls, w) && AllClean(ls)
    ensures w.server == NewServer(Upload).(asked := true, phase := Uploading,
                                           chan := Channel(false, false, 1, [Whole(0, content)]))
    ensures w.client.reply == CompleteBody(content) && !w.lock && w.hand.Free?
  {
    var v := NewView(Upload, false);
    ls, w := Asked(Upload, CompleteBody(content));
    ls, w := Do(v, ls, w, ByClient(SendMsg(true)));
    assert w.flight == [Whole(0, content)];
    ls, w := Do(v, ls, w, ByLoop(Take));
    ls, w := Do(v, ls, w, ByLoop(Enter));
    ls, w := Do(v, ls, w, ByLoop(Deliver));
    assert [] + [Whole(0, content)] == [Whole(0, content)];
  }

  /**
   An upload answered early with a chunked response, whose body the local service then stops reading.
   The failed write of the next upload chunk is reported as an error, and the whole answer, though it
   lies in the channel up to its final chunk, is lost. No complete response was ever sent.
   */
  lemma {:induction false} UploadErrorLosesAnswer() returns (steps: seq<Step>, t: Sys)
    ensures IsRun(Empty, steps, t) && 0 in t.reqs
    ensures var s := t.reqs[0].server;
            && s.kind.Upload? && s.phase == Done(false) && s.sink.pipe == []
            && s.chan.buf == [Chunk(0, 1, [7], true), Failure(0)]
  {
    var v, rs := NewView(Upload, false), [Read([7], Eof)];
    assert Emit(0, rs, 0) == [Chunk(0, 1, [7], true)];
    var ls, w := Answered(Upload, rs);
    var more, x := LoopTurn(w);
    Concat(v, ls, w, more, x);
    ls, w := UploadFails(v, ls + more, x);
    FromEmpty(Upload, ls, w);
    steps, t := OpenThen(Upload, ls), Solo(w);
  }

  /** The client reports a failed upload write, and the loop ends the request before it looks for its channel. */
  lemma {:induction false} UploadFails(v: View, ls: seq<LocalStep>, w: View) returns (ls': seq<LocalStep>, w': View)
    requires IsLocalRun(v, ls, w) && !w.lock && w.hand.Free? && w.flight == []
    requires w.server.kind.Upload? && w.server.asked && w.server.phase.Uploading?
    requires w.server.chan.registered && w.server.chan.open && |w.server.chan.buf| < 250
    ensures IsLocalRun(v, ls', w')
    ensures w'.server.kind.Upload? && w'.server.phase == Done(false) && w'.server.sink == w.server.sink
    ensures w'.server.chan.buf == w.server.chan.buf + [Failure(0)]
  {
    ls', w' := Go(v, ls, w, UploadError(true));
    assert w'.flight == [Failure(0)];
    ls', w' := Go(v, ls', w', ByLoop(Take));
    ls', w' := Go(v, ls', w', ByLoop(Deliver));
    ls', w' := Go(v, ls', w', ByLoop(RemoveFailed));
    ls', w' := Go(v, ls', w', ByServer(UploadSent(true)));
    ls', w' := Go(v, ls', w', ByServer(Lookup));
  }

  // ---------- Bodies that are never closed ----------

  /** Progress does not change what the local service answered, nor for whom. */
  lemma {:induction false} ProgressKeepsReply(id: RequestId, v: View, l: LocalStep)
    requires Enabled(v, l) && Progress(l) && !v.client.pc.Unasked?
    ensures var w := Next(id, v, l);
            w.client.reply == v.client.reply && !w.client.pc.Unasked? && w.server.kind == v.server.kind
  {
  }

  lemma {:induction false} RunKeepsReply(s: Sys, steps: seq<Step>, t: Sys)
    requires IsCleanRun(s, steps, t) && AllProgress(steps) && s.reqs.Keys == {0} && !s.reqs[0].client.pc.Unasked?
    ensures t.reqs.Keys == {0} && !t.reqs[0].client.pc.Unasked?
    ensures t.reqs[0].client.reply == s.reqs[0].client.reply && t.reqs[0].server.kind == s.reqs[0].server.kind
    decreases steps
  {
    if steps != [] {
      assert steps[0] in steps && forall st :: st in steps[1..] ==> st in steps;
      assert 0 in s.reqs.Keys;
      ProgressKeepsReply(0, ViewOf(s, 0), steps[0].local);
      RunKeepsReply(StepNext(s, steps[0]), steps[1..], t);
    }
  }

  /**
   A download of any body whose end of file comes in a read of its own: a fault-free run leads to a
   state where nothing can move, the pipe holds the whole body, and is not closed. For instance
   [Read([7], More), Read([], Eof)].
   */
  lemma {:induction false} BodyIsNeverClosed(rs: seq<Read>) returns (steps: seq<Step>, t: Sys)
    requires EndsWithEof(rs) && !LastDataWithEof(rs)
    ensures IsCleanRun(Empty, steps, t) && Quiescent(t) && t.reqs.Keys == {0}
    ensures t.reqs[0].client.reply == StreamBody(rs)
    ensures t.reqs[0].server.sink.pipe == DataOf(rs) && !t.reqs[0].server.sink.closed
  {
    var start, s := DownloadAsked(rs);
    var more;
    more, t := ProgressReachesQuiescence(s, [0]);
    CleanRunConcat(Empty, start, s, more, t);
    RunKeepsReply(s, more, t);
    steps := start + more;
    NotClosed(steps, t, rs);
  }

  lemma {:induction false} DownloadAsked(rs: seq<Read>) returns (steps: seq<Step>, t: Sys)
    requires EndsWithEof(rs)
    ensures IsCleanRun(Empty, steps, t) && CleanSys(t) && t.reqs.Keys == {0} && Lists([0], t)
    ensures t.reqs[0].client.reply == StreamBody(rs) && !t.reqs[0].client.pc.Unasked?
    ensures t.reqs[0].server.kind.Download?
  {
    var ls, w := Asked(Download, StreamBody(rs));
    FromEmpty(Download, ls, w);
    steps, t := OpenThen(Download, ls), Solo(w);
    CleanRunKeepsCleanSys(Empty, steps, t);
  }

  lemma {:induction false} NotClosed(steps: seq<Step>, t: Sys, rs: seq<Read>)
    requires IsCleanRun(Empty, steps, t) && Quiescent(t) && t.reqs.Keys == {0} && !t.reqs[0].client.pc.Unasked?
    requires t.reqs[0].client.reply == StreamBody(rs) && t.reqs[0].server.kind.Download? && !LastDataWithEof(rs)
    ensures t.reqs[0].server.sink.pipe == DataOf(rs) && !t.reqs[0].server.sink.closed
  {
    assert 0 in t.reqs.Keys;
    FittingAnswersNeverJam(steps, t);
    StreamingCompletes(steps, t, 0);
  }

  lemma {:induction false} SeparateEofIsNeverClosed() returns (steps: seq<Step>, t: Sys)
    ensures IsCleanRun(Empty, steps, t) && Quiescent(t) && 0 in t.reqs
    ensures t.reqs[0].client.reply == StreamBody([Read([7], More), Read([], Eof)])
    ensures t.reqs[0].server.sink.pipe == [7] && !t.reqs[0].server.sink.closed
  {
    var rs := [Read([7], More), Read([], Eof)];
    assert rs[1..] == [Read([], Eof)];
    assert DataOf(rs[1..]) == [] && DataOf(rs) == [7] + DataOf(rs[1..]) == [7];
    steps, t := BodyIsNeverClosed(rs);
    assert 0 in t.reqs.Keys;
  }
}
