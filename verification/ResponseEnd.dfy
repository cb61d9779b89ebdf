/**
 What the end of a response pipe tells its reader. The pipe is closed when the collector exits, whatever
 the reason, so its reader sees an end of file after a success, a timeout, an error, a closed channel or
 a write that failed.
 */
module ResponseEnd {
  import opened Messages
  import opened ResponseStream
  import opened ResponseSafety
  import opened ResponseCompletion
  import opened Multiplex
  import opened MultiplexCompletion
  import opened SoloRuns
  import opened Jams
  import Sub = Subsequences

  ghost predicate NonEmptyBodies(ms: seq<Msg>) {
    forall m :: m in ms ==> Body(m) != []
  }

  /** Every message missing from a subsequence costs at least a byte. */
  lemma {:induction false} MissingBytes(a: seq<Msg>, b: seq<Msg>)
    requires Sub.Subsequence(a, b) && NonEmptyBodies(b)
    ensures |Bodies(a)| + |b| <= |Bodies(b)| + |a|
    decreases b
  {
    if b != [] {
      assert b[0] in b && forall m :: m in b[1..] ==> m in b;
      if a != [] && a[0] == b[0] {
        MissingBytes(a[1..], b[1..]);
      } else {
        MissingBytes(a, b[1..]);
      }
    }
  }

  /** The answer's chunks are not empty, and only the last can be final. */
  lemma {:induction false} AnswerEmit(id: RequestId, rs: seq<Read>, num: nat)
    ensures var a := Answer(Emit(id, rs, num));
            && NonEmptyBodies(a)
            && forall i :: 0 <= i < |a| && Terminal(a[i]) ==> i == |a| - 1
  {
    var e := Emit(id, rs, num);
    if rs != [] && rs[0].status.More? {
      var k := if rs[0].data == [] then 0 else 1;
      AnswerEmit(id, rs[1..], num + k);
      var a, tail := Answer(e), Answer(Emit(id, rs[1..], num + k));
      if k == 1 {
        var first := Chunk(id, num + 1, rs[0].data, false);
        assert e[0] == first && e[1..] == Emit(id, rs[1..], num + k);
        assert a == [first] + tail;
        assert forall m :: m in a ==> m == first || m in tail;
      }
    } else if e != [] {
      assert e == [e[0]];
      AnswerOne(e[0]);
    }
  }

  lemma {:induction false} SentWithinScript(id: RequestId, c: Client)
    requires ClientInv(id, c)
    ensures Answer(c.sent) <= Answer(Script(id, c.reply))
  {
    SentIsCut(id, c);
    var script := Script(id, c.reply);
    if c.sent <= script {
      AnswerPrefix(c.sent, script);
    } else {
      var core := c.sent[..|c.sent| - 1];
      assert c.sent == core + [Failure(id)];
      AnswerConcat(core, [Failure(id)]);
      AnswerOne(Failure(id));
      AnswerPrefix(core, script);
    }
  }

  lemma {:induction false} WrittenWithinScript(id: RequestId, v: View)
    requires Inv(id, v)
    ensures var w, a := v.server.sink.written, Answer(Script(id, v.client.reply));
            && Sub.Subsequence(w, a) && |w| + v.losses.answers <= |a|
            && (v.losses.answers == 0 ==> w <= a)
  {
    var sent, a := Answer(v.client.sent), Answer(Script(id, v.client.reply));
    WrittenOfAnswer(id, v);
    SentWithinScript(id, v.client);
    assert a == sent + a[|sent|..];
    Sub.Extend(v.server.sink.written, sent, a[|sent|..]);
  }

  /**
   Whether the pipe holds the whole body: exactly when as many chunks were written as the answer has.
   A read error of the client ends the answer, and the body, before the error.
   */
  lemma {:induction false} PipeIsWholeIff(id: RequestId, v: View)
    requires Inv(id, v) && v.client.reply.StreamBody?
    ensures v.server.sink.pipe == ReplyBody(v.client.reply)
            <==> |v.server.sink.written| == |Answer(Script(id, v.client.reply))|
  {
    var w, script := v.server.sink.written, Script(id, v.client.reply);
    WrittenWithinScript(id, v);
    AnswerEmit(id, v.client.reply.script, 0);
    ScriptShape(id, v.client.reply);
    AnswerBodies(script);
    MissingBytes(w, Answer(script));
    Sub.Lengths(w, Answer(script));
  }

  /**
   A success is no proof of completeness: after a terminal message has been written, the pipe holds the
   whole body exactly when no delivery of the answer was given up.
   */
  lemma {:induction false} SuccessIsWholeIff(id: RequestId, v: View)
    requires Inv(id, v) && v.server.phase == Done(true)
    ensures v.server.sink.pipe == ReplyBody(v.client.reply) <==> v.losses.answers == 0
  {
    var w, r := v.server.sink.written, v.client.reply;
    WrittenWithinScript(id, v);
    match r
    case StreamBody(script) =>
      PipeIsWholeIff(id, v);
      AnswerEmit(id, script, 0);
      if v.losses.answers == 0 {
        assert Answer(Script(id, r))[|w| - 1] == w[|w| - 1];
      }
    case CompleteBody(content) =>
      AnswerOne(Whole(id, content));
      Sub.Lengths(w, [Whole(id, content)]);
      assert Bodies([Whole(id, content)]) == content + Bodies([]);
    case LocalFailure =>
      AnswerOne(Failure(id));
      Sub.Lengths(w, []);
  }

  /**
   For the reader of a pipe that has ended, in every reachable state. After a success the pipe holds the
   whole body exactly when no delivery of its answer was given up; after any other end, exactly when
   the collector had already written as many chunks as the answer has.
   */
  lemma {:induction false} ClosedIsWholeIff(steps: seq<Step>, t: Sys, id: RequestId)
    requires IsRun(Empty, steps, t) && id in t.reqs && t.reqs[id].server.sink.closed
    ensures var l := t.reqs[id];
            && l.server.phase.Done?
            && (l.server.phase.ok ==> (l.server.sink.pipe == ReplyBody(l.client.reply) <==> l.losses.answers == 0))
            && (l.client.reply.StreamBody? ==>
                  (l.server.sink.pipe == ReplyBody(l.client.reply)
                   <==> |l.server.sink.written| == |Answer(Script(id, l.client.reply))|))
  {
    RunKeepsSysInv(Empty, steps, t);
    var v := ViewOf(t, id);
    assert Inv(id, v);
    if v.server.phase == Done(true) {
      SuccessIsWholeIff(id, v);
    }
    if v.client.reply.StreamBody? {
      PipeIsWholeIff(id, v);
    }
  }

  // ---------- By what ended the response ----------

  /** An answer has a terminal message exactly when the body's last data came with the end of file. */
  lemma {:induction false} TerminalIff(id: RequestId, rs: seq<Read>, num: nat)
    ensures (exists m :: m in Answer(Emit(id, rs, num)) && Terminal(m)) <==> LastDataWithEof(rs)
  {
    var e := Emit(id, rs, num);
    if rs != [] && rs[0].status.More? {
      var k := if rs[0].data == [] then 0 else 1;
      TerminalIff(id, rs[1..], num + k);
      if k == 1 {
        var first := Chunk(id, num + 1, rs[0].data, false);
        assert e[0] == first && e[1..] == Emit(id, rs[1..], num + k);
        assert Answer(e) == [first] + Answer(e[1..]);
        assert forall m :: m in Answer(e) <==> m == first || m in Answer(e[1..]);
      }
    } else if e != [] {
      assert e == [e[0]];
      AnswerOne(e[0]);
      if e[0].Chunk? {
        assert e[0] in Answer(e) && Terminal(e[0]) && LastDataWithEof(rs);
      } else {
        assert Answer(e) == [] && !LastDataWithEof(rs);
      }
    }
  }

  /** Of the answer, no more was taken than was sent and not given up. */
  lemma {:induction false} TakenOfAnswer(id: RequestId, v: View)
    requires Inv(id, v)
    ensures |Answer(v.server.sink.taken)| + v.losses.answers <= |Answer(Script(id, v.client.reply))|
  {
    var taken := v.server.sink.taken;
    var back := v.server.chan.buf + InHand(v.hand) + v.flight;
    assert Pipeline(v) == taken + back;
    AnswerConcat(taken, back);
    SentWithinScript(id, v.client);
  }

  /** A message that the pipe refused is missing from what was written. */
  lemma {:induction false} RefusedIsMissing(id: RequestId, v: View)
    requires Inv(id, v) && v.server.end.WriteFailed?
    ensures |v.server.sink.written| < |Answer(Script(id, v.client.reply))|
  {
    var k := v.server.sink;
    var n := |k.written|;
    assert k.taken == k.written + [k.taken[n]] + k.taken[n + 1..];
    AnswerConcat(k.written + [k.taken[n]], k.taken[n + 1..]);
    AnswerConcat(k.written, [k.taken[n]]);
    AnswerOne(k.taken[n]);
    AnswerOfAnswer(k.written);
    TakenOfAnswer(id, v);
  }

  /** Without a terminal message written, a body whose last data came with the end of file is not whole. */
  lemma {:induction false} WholeNeedsTerminal(id: RequestId, v: View)
    requires Inv(id, v) && v.client.reply.StreamBody? && !v.server.end.Complete?
    ensures v.server.sink.pipe == ReplyBody(v.client.reply) ==> !LastDataWithEof(v.client.reply.script)
  {
    var w, a := v.server.sink.written, Answer(Script(id, v.client.reply));
    if v.server.sink.pipe == ReplyBody(v.client.reply) {
      PipeIsWholeIff(id, v);
      WrittenWithinScript(id, v);
      TerminalIff(id, v.client.reply.script, 0);
      assert w == a;
    }
  }

  lemma {:induction false} CompleteIsTerminal(id: RequestId, v: View)
    requires Inv(id, v) && v.client.reply.StreamBody? && v.server.end.Complete?
    ensures LastDataWithEof(v.client.reply.script)
  {
    var w, a := v.server.sink.written, Answer(Script(id, v.client.reply));
    WrittenWithinScript(id, v);
    Sub.Members(w, a);
    TerminalIff(id, v.client.reply.script, 0);
    assert w[|w| - 1] in a;
  }

  /**
   What the end of a streamed response says, in every reachable state. A complete one has the whole body
   exactly when no delivery was given up. After a failed write the body is never whole. After a timeout,
   a closed channel or an error it can only be whole if its last data did not come with the end of file;
   and then exactly when all its chunks had been written.
   */
  lemma {:induction false} WholeByEnd(steps: seq<Step>, t: Sys, id: RequestId)
    requires IsRun(Empty, steps, t) && id in t.reqs && t.reqs[id].server.sink.closed
    requires t.reqs[id].client.reply.StreamBody?
    ensures var l := t.reqs[id];
            var rs := l.client.reply.script;
            var whole := l.server.sink.pipe == DataOf(rs);
            match l.server.end
            case NotYet => false
            case Complete => l.server.phase == Done(true) && LastDataWithEof(rs) && (whole <==> l.losses.answers == 0)
            case WriteFailed => l.server.phase == Done(false) && !whole
            case _ =>
              && l.server.phase == Done(false)
              && (whole <==> !LastDataWithEof(rs) && |l.server.sink.written| == |Answer(Emit(id, rs, 0))|)
  {
    RunKeepsSysInv(Empty, steps, t);
    var v := ViewOf(t, id);
    assert Inv(id, v);
    PipeIsWholeIff(id, v);
    match v.server.end
    case NotYet =>
    case Complete =>
      SuccessIsWholeIff(id, v);
      CompleteIsTerminal(id, v);
    case WriteFailed => RefusedIsMissing(id, v);
    case _ => WholeNeedsTerminal(id, v);
  }

  /**
   So a body whose last data came with the end of file is whole exactly after a success with no delivery
   given up.
   */
  lemma {:induction false} ProperBodyIsWholeIff(steps: seq<Step>, t: Sys, id: RequestId)
    requires IsRun(Empty, steps, t) && id in t.reqs && t.reqs[id].server.sink.closed
    requires t.reqs[id].client.reply.StreamBody? && LastDataWithEof(t.reqs[id].client.reply.script)
    ensures var l := t.reqs[id];
            l.server.sink.pipe == DataOf(l.client.reply.script)
            <==> l.server.phase == Done(true) && l.losses.answers == 0
  {
    WholeByEnd(steps, t, id);
  }

  /**
   A collector that times out while its entry is registered has the whole body exactly when no delivery
   was given up, the client has sent all of the answer, and none of it is still on its way.
   */
  lemma {:induction false} TimeoutIsWholeIff(steps: seq<Step>, t: Sys, id: RequestId)
    requires IsRun(Empty, steps, t) && StepEnabled(t, On(id, ByServer(CollectorTimeout)))
    requires t.reqs[id].server.chan.registered && t.reqs[id].client.reply.StreamBody?
    ensures var l, v := t.reqs[id], ViewOf(t, id);
            l.server.sink.pipe == ReplyBody(l.client.reply)
            <==> && l.losses.answers == 0
                 && Answer(l.client.sent) == Answer(Script(id, l.client.reply))
                 && Answer(v.server.chan.buf + InHand(v.hand) + v.flight) == []
  {
    RunKeepsSysInv(Empty, steps, t);
    assert Inv(id, ViewOf(t, id));
    CollectorIsIdle(ViewOf(t, id).server);
    RegisteredIsWholeIff(id, ViewOf(t, id));
  }

  lemma {:induction false} CollectorIsIdle(s: Server)
    requires PipeInv(s) && ServerEnabled(s, CollectorTimeout)
    ensures s.sink.written == s.sink.taken
  {
    assert s.sink.written + [] == s.sink.written;
  }

  lemma {:induction false} RegisteredIsWholeIff(id: RequestId, v: View)
    requires Inv(id, v) && v.server.chan.registered && v.client.reply.StreamBody?
    requires v.server.sink.written == v.server.sink.taken
    ensures v.server.sink.pipe == ReplyBody(v.client.reply)
            <==> && v.losses.answers == 0
                 && Answer(v.client.sent) == Answer(Script(id, v.client.reply))
                 && Answer(v.server.chan.buf + InHand(v.hand) + v.flight) == []
  {
    var w, back := v.server.sink.written, v.server.chan.buf + InHand(v.hand) + v.flight;
    PipeIsWholeIff(id, v);
    SentWithinScript(id, v.client);
    assert Pipeline(v) == w + back;
    AnswerConcat(w, back);
    AnswerOfAnswer(w);
  }

  // ---------- Ends that say nothing ----------

  /**
   A collector that times out after the first of two chunks: a fault-free run, the timeout, and a
   fault-free run from there. Its reader sees a clean, early end of file.
   */
  lemma {:induction false} TimeoutLooksLikeTheEnd() returns (before: seq<Step>, s: Sys, after: seq<Step>, t: Sys)
    ensures IsCleanRun(Empty, before, s)
    ensures var timeout := On(0, ByServer(CollectorTimeout));
            StepEnabled(s, timeout) && IsCleanRun(StepNext(s, timeout), after, t) && 0 in t.reqs
    ensures var l := t.reqs[0];
            && l.server.sink.closed && l.server.phase == Done(false)
            && l.server.sink.pipe == [1] && ReplyBody(l.client.reply) == [1, 2]
  {
    var ls, w := OneOfTwoWritten();
    FromEmpty(Download, ls, w);
    before, s := OpenThen(Download, ls), Solo(w);
    SoloClient(before, w);
    SoloStep(w, ByServer(CollectorTimeout));
    ClientStays(w, ByServer(CollectorTimeout));
    var v := Next(0, w, ByServer(CollectorTimeout));
    var more, x := CollectorLeaves(v);
    SoloRun(v, more, x);
    after, t := Lift(more), Solo(x);
  }

  lemma {:induction false} OneOfTwoWritten() returns (ls: seq<LocalStep>, w: View)
    ensures IsLocalRun(NewView(Download, false), ls, w) && AllClean(ls)
    ensures !w.lock && w.hand.Free? && w.server.phase.Collecting? && w.server.sink.current == []
    ensures w.server.sink.pipe == [1] && w.client.reply.StreamBody? && ReplyBody(w.client.reply) == [1, 2]
  {
    var v, rs := NewView(Download, false), [Read([1], More), Read([2], Eof)];
    assert rs[1..] == [Read([2], Eof)];
    assert Emit(0, rs[1..], 1) == [Chunk(0, 2, [2], true)] && DataOf(rs[1..]) == [2];
    assert Emit(0, rs, 0) == [Chunk(0, 1, [1], false)] + Emit(0, rs[1..], 1);
    assert DataOf(rs) == [1] + [2] == [1, 2 as Byte];
    ls, w := Answered(Download, rs);
    var more, x := LoopTurn(w);
    Concat(v, ls, w, more, x);
    ls, w := Do(v, ls + more, x, ByServer(CollectorTake));
    ls, w := Do(v, ls, w, ByServer(CollectorWrite));
    assert [] + [1] == [1 as Byte];
  }

  /** A collector that has stopped cleans up and closes the pipe. */
  lemma {:induction false} CollectorLeaves(v: View) returns (ls: seq<LocalStep>, w: View)
    requires v.server.phase == Cleaning(false) && !v.lock && !v.hand.Crashed?
    ensures IsLocalRun(v, ls, w) && AllClean(ls) && w.client == v.client
    ensures w.server.phase == Done(false) && w.server.sink == v.server.sink.(closed := true)
    ensures w.server.end == v.server.end
  {
    ls, w := Do(v, [], v, ByServer(CollectorCleanup));
    ls, w := Do(v, ls, w, ByServer(ClosePipe));
  }

  /** The error that ends an answer is on the stream, and all before it is written. */
  ghost predicate ErrorToCome(w: View) {
    && !w.lock && w.hand.Free? && w.flight == [Failure(0)]
    && w.server.phase.Collecting? && w.server.chan == Channel(true, true, 0, []) && w.server.sink.current == []
    && w.client.reply.StreamBody?
  }

  /** The collector of such an answer can end by the error, by the closed channel, or by its timeout. */
  lemma {:induction false} EndsBy(v: View, ls: seq<LocalStep>, w: View, end: End) returns (ls': seq<LocalStep>, w': View)
    requires IsLocalRun(v, ls, w) && ErrorToCome(w)
    requires end.ErrorArrived? || end.ChannelClosed? || end.TimedOut?
    ensures IsLocalRun(v, ls', w') && w'.client == w.client && !w'.lock && !w'.hand.Crashed?
    ensures w'.server.phase == Cleaning(false) && w'.server.end == end && w'.server.sink.pipe == w.server.sink.pipe
  {
    ls', w' := ls, w;
    if end.TimedOut? {
      ls', w' := Go(v, ls', w', ByServer(CollectorTimeout));
    } else {
      ls', w' := Go(v, ls', w', ByLoop(Take));
      ls', w' := Go(v, ls', w', ByLoop(if end.ErrorArrived? then Deliver else DeliveryTimeout));
      ls', w' := Go(v, ls', w', ByLoop(RemoveFailed));
      if end.ErrorArrived? {
        assert w'.server.chan.buf == [Failure(0)];
        ls', w' := Go(v, ls', w', ByServer(CollectorTake));
        ls', w' := Go(v, ls', w', ByServer(CollectorWrite));
      } else {
        ls', w' := Go(v, ls', w', ByServer(CollectorNil));
      }
    }
  }

  /** The client could not send its only chunk, and reports that. */
  lemma {:induction false} NothingWritten() returns (ls: seq<LocalStep>, w: View)
    ensures IsLocalRun(NewView(Download, false), ls, w) && ErrorToCome(w)
    ensures w.server.sink.pipe == [] && ReplyBody(w.client.reply) == [7]
  {
    var v, rs := NewView(Download, false), [Read([7], Eof)];
    ls, w := Asked(Download, StreamBody(rs));
    ls, w := Go(v, ls, w, ByClient(CheckTop));
    ls, w := Go(v, ls, w, ByClient(ReadBody));
    ls, w := Go(v, ls, w, ByClient(CheckSend));
    ls, w := Go(v, ls, w, ByClient(SendMsg(false)));
    ls, w := Go(v, ls, w, ByClient(SendError(true)));
    assert DataOf(rs) == [7];
  }

  /** The client has sent a chunk that was written, and then the stream's timeout ends its loop. */
  lemma {:induction false} AllWritten() returns (ls: seq<LocalStep>, w: View)
    ensures IsLocalRun(NewView(Download, false), ls, w) && ErrorToCome(w)
    ensures w.server.sink.pipe == [7] && ReplyBody(w.client.reply) == [7]
  {
    var v, rs := NewView(Download, false), [Read([7], More), Read([], Eof)];
    assert rs[1..] == [Read([], Eof)] && DataOf(rs[1..]) == [] && DataOf(rs) == [7] + DataOf(rs[1..]) == [7];
    assert EndsWithEof(rs[1..]);
    var x;
    ls, x := Asked(Download, StreamBody(rs));
    var more;
    more, w := ClientTurn(x);
    Concat(v, ls, x, more, w);
    assert w.flight == [Chunk(0, 1, [7], false)];
    ls, w := OneWritten(v, ls + more, w);
    ls, w := Go(v, ls, w, ByClient(CheckTop));
    ls, w := Go(v, ls, w, ByClient(StreamTimeout));
    ls, w := Go(v, ls, w, ByClient(SendError(true)));
  }

  lemma {:induction false} OneWritten(v: View, ls: seq<LocalStep>, w: View) returns (ls': seq<LocalStep>, w': View)
    requires IsLocalRun(v, ls, w) && !w.lock && w.hand.Free? && w.flight == [Chunk(0, 1, [7], false)]
    requires w.server.phase.Collecting? && w.server.chan == Channel(true, true, 0, []) && w.server.kind.Download?
    requires w.server.sink == Sink([], [], [], [], false, false)
    ensures IsLocalRun(v, ls', w') && w'.client == w.client && !w'.lock && w'.hand.Free? && w'.flight == []
    ensures w'.server.phase.Collecting? && w'.server.chan == Channel(true, true, 0, [])
    ensures w'.server.sink.current == [] && w'.server.sink.pipe == [7]
  {
    var more;
    more, w' := LoopTurn(w);
    Concat(v, ls, w, more, w');
    ls', w' := Go(v, ls + more, w', ByServer(CollectorTake));
    ls', w' := Go(v, ls', w', ByServer(CollectorWrite));
    assert [] + [7] == [7 as Byte];
  }

  /** After an error, a closed channel or a timeout the body may be whole, and it may not. */
  lemma {:induction false} EndSaysNothing(end: End, whole: bool) returns (steps: seq<Step>, t: Sys)
    requires end.ErrorArrived? || end.ChannelClosed? || end.TimedOut?
    ensures IsRun(Empty, steps, t) && 0 in t.reqs
    ensures var l := t.reqs[0];
            && l.server.sink.closed && l.server.end == end && l.client.reply.StreamBody?
            && (l.server.sink.pipe == ReplyBody(l.client.reply) <==> whole)
  {
    var v, ls, w := NewView(Download, false), [], NewView(Download, false);
    if whole {
      ls, w := AllWritten();
    } else {
      ls, w := NothingWritten();
    }
    ls, w := EndsBy(v, ls, w, end);
    var more, x := CollectorLeaves(w);
    Concat(v, ls, w, more, x);
    FromEmpty(Download, ls + more, x);
    steps, t := OpenThen(Download, ls + more), Solo(x);
  }
}
