/**
 What every reachable state of one request guarantees, whatever is cancelled, timed out,
 disconnected or dropped.
 */
module ResponseSafety {
  import opened Messages
  import opened ResponseStream
  import Sub = Subsequences

  // ---------- The client: what has been sent ----------

  /** The messages the client sends when nothing stops it. */
  function Script(id: RequestId, r: Reply): seq<Msg> {
    match r
    case StreamBody(script) => Emit(id, script, 0)
    case CompleteBody(content) => [Whole(id, content)]
    case LocalFailure => [Failure(id)]
  }

  /** The response body the local service produced. */
  function ReplyBody(r: Reply): Bytes {
    match r
    case StreamBody(script) => DataOf(script)
    case CompleteBody(content) => content
    case LocalFailure => []
  }

  /** `sent` is a prefix of the script, possibly cut short by an error message. */
  ghost predicate CutShort(id: RequestId, sent: seq<Msg>, script: seq<Msg>) {
    || sent <= script
    || (&& sent != [] && sent[|sent| - 1] == Failure(id) && sent[..|sent| - 1] <= script
        && forall m :: m in sent[..|sent| - 1] ==> !Terminal(m))
  }

  /** The message in the loop's hands, and what follows it, is what the script still owes. */
  ghost predicate StillOwed(id: RequestId, c: Client, m: Msg, eof: bool) {
    && m.id == id && !m.Failure?
    && (m.Chunk? ==> c.reply.StreamBody? && m.final == eof)
    && (m.Whole? ==> eof)
    && c.sent + [m] + (if eof then [] else Emit(id, c.rest, c.num)) == Script(id, c.reply)
  }

  ghost predicate NoneTerminal(ms: seq<Msg>) {
    forall m :: m in ms ==> !Terminal(m)
  }

  /** The part of the script still owed is exactly what the loop's variables say. */
  ghost predicate ClientInv(id: RequestId, c: Client) {
    var script := Script(id, c.reply);
    match c.pc
    case Unasked => c.sent == [] && c.num == 0
    case Top => LoopInv(id, c)
    case Reading => LoopInv(id, c)
    case Holding(m, eof) => StillOwed(id, c, m, eof) && m.Chunk? && NoneTerminal(c.sent)
    case Cleared(m, eof) => StillOwed(id, c, m, eof) && NoneTerminal(c.sent)
    case Failing => c.sent <= script && NoneTerminal(c.sent)
    case Ended => CutShort(id, c.sent, script)
  }

  ghost predicate LoopInv(id: RequestId, c: Client) {
    && c.reply.StreamBody?
    && c.sent + Emit(id, c.rest, c.num) == Script(id, c.reply)
    && NoneTerminal(c.sent)
  }

  /** After the cancellation at most one chunk goes out: the one that had already passed its check. */
  ghost predicate CancelInv(c: Client) {
    && (c.pc.Unasked? ==> !c.cancelled && !c.active)
    && (!c.cancelled ==> c.late == 0)
    && (c.pc.Cleared? ==> c.late == 0)
    && c.late <= 1
  }

  /** A script carries the body, belongs to its request and is terminal only at its end. */
  lemma {:induction false} ScriptShape(id: RequestId, r: Reply)
    ensures forall i :: 0 <= i < |Script(id, r)| ==>
              Script(id, r)[i].id == id && (Terminal(Script(id, r)[i]) ==> i == |Script(id, r)| - 1)
    ensures Bodies(Script(id, r)) == ReplyBody(r)
  {
    match r
    case StreamBody(script) =>
      EmitShape(id, script, 0);
      EmitCarriesData(id, script, 0);
    case CompleteBody(content) =>
      assert Bodies([Whole(id, content)]) == content + Bodies([]);
    case LocalFailure =>
      assert Bodies([Failure(id)]) == [] + Bodies([]);
  }

  lemma {:induction false} PrefixShape(id: RequestId, r: Reply, ms: seq<Msg>)
    requires ms <= Script(id, r)
    ensures Bodies(ms) <= ReplyBody(r)
    ensures forall i :: 0 <= i < |ms| ==> ms[i].id == id && (Terminal(ms[i]) ==> i == |ms| - 1)
  {
    ScriptShape(id, r);
    BodiesPrefix(ms, Script(id, r));
    assert forall i :: 0 <= i < |ms| ==> ms[i] == Script(id, r)[i];
  }

  /** Whatever stopped the loop, what it has sent is a prefix of the script, perhaps cut short. */
  lemma {:induction false} SentIsCut(id: RequestId, c: Client)
    requires ClientInv(id, c)
    ensures CutShort(id, c.sent, Script(id, c.reply))
  {
  }

  /** What is sent carries a prefix of the body, belongs to the request, and is terminal only at its end. */
  lemma {:induction false} SentShape(id: RequestId, c: Client)
    requires ClientInv(id, c)
    ensures Bodies(c.sent) <= ReplyBody(c.reply)
    ensures forall i :: 0 <= i < |c.sent| ==>
              c.sent[i].id == id && (Terminal(c.sent[i]) ==> i == |c.sent| - 1)
  {
    SentIsCut(id, c);
    CutShape(id, c.reply, c.sent);
  }

  lemma {:induction false} CutShape(id: RequestId, r: Reply, sent: seq<Msg>)
    requires CutShort(id, sent, Script(id, r))
    ensures Bodies(sent) <= ReplyBody(r)
    ensures forall i :: 0 <= i < |sent| ==> sent[i].id == id && (Terminal(sent[i]) ==> i == |sent| - 1)
  {
    if sent <= Script(id, r) {
      PrefixShape(id, r, sent);
    } else {
      var core := sent[..|sent| - 1];
      assert sent == core + [Failure(id)];
      PrefixShape(id, r, core);
      BodiesAppend(core, Failure(id));
      forall i | 0 <= i < |core|
        ensures sent[i].id == id && !Terminal(sent[i])
      {
        assert sent[i] == core[i] && core[i] in core;
      }
    }
  }

  /** What the loop owes before and after a read. */
  lemma {:induction false} OwedAfterRead(id: RequestId, c: Client, sent: seq<Msg>)
    requires c.rest != []
    ensures var rd, owed := c.rest[0], sent + Emit(id, c.rest, c.num);
            var chunk := Chunk(id, c.num + 1, rd.data, rd.status.Eof?);
            match rd.status
            case Failed => owed == sent + [Failure(id)]
            case Eof => owed == if rd.data == [] then sent else sent + [chunk]
            case More =>
              owed == if rd.data == [] then sent + Emit(id, c.rest[1..], c.num)
                      else sent + [chunk] + Emit(id, c.rest[1..], c.num + 1)
  {
  }

  lemma {:induction false} ReadKeepsClientInv(id: RequestId, c: Client)
    requires ClientEnabled(c, ReadBody) && ClientInv(id, c)
    ensures ClientInv(id, AfterRead(id, c))
  {
    OwedAfterRead(id, c, c.sent);
    var c' := AfterRead(id, c);
    if c'.pc.Holding? {
      assert StillOwed(id, c', c'.pc.msg, c'.pc.eof) by {
        assert c.sent + [c'.pc.msg] + [] == c.sent + [c'.pc.msg];
      }
    }
  }

  lemma {:induction false} SendKeepsClientInv(id: RequestId, c: Client, ok: bool)
    requires ClientEnabled(c, SendMsg(ok)) && ClientInv(id, c)
    ensures ClientInv(id, ClientNext(id, c, SendMsg(ok)))
  {
    var c' := ClientNext(id, c, SendMsg(ok));
    if ok && c.pc.eof {
      assert c'.sent <= Script(id, c.reply);
    }
  }

  lemma {:induction false} ErrorKeepsClientInv(id: RequestId, c: Client, ok: bool)
    requires ClientEnabled(c, SendError(ok)) && ClientInv(id, c)
    ensures ClientInv(id, ClientNext(id, c, SendError(ok)))
  {
    if ok {
      assert (c.sent + [Failure(id)])[..|c.sent|] == c.sent;
    }
  }

  lemma {:induction false} StepKeepsClientInv(id: RequestId, c: Client, st: ClientStep)
    requires ClientEnabled(c, st) && ClientInv(id, c)
    ensures ClientInv(id, ClientNext(id, c, st))
  {
    match st
    case Accept(reply) =>
      assert [] + Script(id, reply) == Script(id, reply);
    case ReadBody => ReadKeepsClientInv(id, c);
    case SendMsg(ok) => SendKeepsClientInv(id, c, ok);
    case SendError(ok) => ErrorKeepsClientInv(id, c, ok);
    case _ =>
  }

  lemma {:induction false} StepKeepsCancelInv(id: RequestId, c: Client, st: ClientStep)
    requires ClientEnabled(c, st) && CancelInv(c)
    ensures CancelInv(ClientNext(id, c, st))
  {
  }

  // ---------- The server: what has been received ----------

  /** The channel is open exactly while it is registered, and is closed at most once. */
  ghost predicate ChannelInv(s: Server) {
    && s.chan.registered == s.chan.open
    && s.chan.closes == (if s.chan.open then 0 else 1)
    && |s.chan.buf| <= Capacity(s.kind)
    && (s.cleaned ==> !s.chan.registered)
  }

  /** The pipe holds the bodies of the messages taken, in order, except perhaps that of the last one. */
  ghost predicate PipeInv(s: Server) {
    && s.sink.pipe == Bodies(s.sink.written)
    && s.sink.written <= s.sink.taken
    && (forall m :: m in s.sink.written ==> !m.Failure?)
    && PhaseInv(s)
  }

  /** What each phase says of the sink. A success has written a terminal message last. */
  ghost predicate PhaseInv(s: Server) {
    var k := s.sink;
    && (k.closed ==> s.phase.Done?)
    && match s.phase
       case Opening => k.taken == [] && k.current == []
       case Uploading => s.kind.Upload? && k.taken == [] && k.current == []
       case Waiting => s.kind.Regular? && k.taken == [] && k.current == []
       case Looking =>
         && k.written == [] && k.current == k.taken
         && (if s.kind.Regular? then |k.taken| == 1 && k.taken[0].Chunk? else s.kind.Upload? && k.taken == [])
       case Collecting => k.written + k.current == k.taken && |k.current| <= 1
       case Cleaning(ok) => ok ==> EndsTerminal(k.written)
       case Closing(ok) => ok ==> EndsTerminal(k.written)
       case Done(ok) => ok ==> EndsTerminal(k.written)
  }

  lemma {:induction false} StepKeepsChannelInv(s: Server, st: ServerStep)
    requires ServerEnabled(s, st) && ChannelInv(s)
    ensures ChannelInv(ServerNext(s, st))
  {
  }

  lemma {:induction false} WriteKeepsPipeInv(s: Server)
    requires ServerEnabled(s, CollectorWrite) && PipeInv(s)
    ensures PipeInv(AfterWrite(s))
  {
    var m := s.sink.current[0];
    BodiesAppend(s.sink.written, m);
    assert s.sink.current == [m] && s.sink.taken == s.sink.written + [m];
    var s' := AfterWrite(s);
    assert s'.sink.current == [] && s'.sink.taken == s.sink.taken;
    if Accepts(s.sink, m) {
      assert s'.sink.written == s.sink.written + [m];
      assert s'.sink.written + s'.sink.current == s'.sink.taken;
    } else {
      assert s'.sink.written == s.sink.written && s'.sink.pipe == s.sink.pipe && s'.phase == Cleaning(false);
    }
  }

  lemma {:induction false} WaiterKeepsPipeInv(s: Server)
    requires ServerEnabled(s, WaiterTake) && PipeInv(s)
    ensures PipeInv(AfterWaiterTake(s))
  {
    BodiesAppend(s.sink.written, s.chan.buf[0]);
    assert [] + [s.chan.buf[0]] == [s.chan.buf[0]];
  }

  lemma {:induction false} LookupKeepsPipeInv(s: Server)
    requires ServerEnabled(s, Lookup) && PipeInv(s)
    ensures PipeInv(ServerNext(s, Lookup))
  {
    assert [] + s.sink.current == s.sink.current;
  }

  lemma {:induction false} StepKeepsPipeInv(s: Server, st: ServerStep)
    requires ServerEnabled(s, st) && PipeInv(s)
    ensures PipeInv(ServerNext(s, st))
  {
    match st
    case CollectorWrite => WriteKeepsPipeInv(s);
    case WaiterTake => WaiterKeepsPipeInv(s);
    case Lookup => LookupKeepsPipeInv(s);
    case CollectorTake =>
      assert s.sink.written + [s.chan.buf[0]] == s.sink.written + s.sink.current + [s.chan.buf[0]];
    case Issue(_) => assert [] + s.sink.current == s.sink.current;
    case _ =>
  }

  // ---------- How the response ended ----------

  predicate Over(p: Phase, ok: bool) {
    p == Cleaning(ok) || p == Closing(ok) || p == Done(ok)
  }

  /**
   What each end says of the sink. Only a response that is complete has a terminal message written; an
   error, or a message that the pipe refused, was taken last and not written.
   */
  ghost predicate EndInv(s: Server) {
    var k := s.sink;
    && (s.end.Complete? || NoneTerminal(k.written))
    && match s.end
       case NotYet => !k.closed && !s.phase.Cleaning? && !s.phase.Closing?
       case Complete => Over(s.phase, true) && EndsTerminal(k.written)
       case ErrorArrived => Over(s.phase, false)
       case WriteFailed =>
         && Over(s.phase, false)
         && |k.taken| > |k.written| && k.written <= k.taken && !k.taken[|k.written|].Failure?
       case _ => Over(s.phase, false)
  }

  lemma {:induction false} WriteKeepsEndInv(s: Server)
    requires ServerEnabled(s, CollectorWrite) && PipeInv(s) && EndInv(s)
    ensures EndInv(AfterWrite(s))
  {
    var m, s' := s.sink.current[0], AfterWrite(s);
    assert s.sink.current == [m] && s.sink.taken == s.sink.written + [m];
    assert s'.sink.written == if Accepts(s.sink, m) then s.sink.written + [m] else s.sink.written;
  }

  lemma {:induction false} StepKeepsEndInv(s: Server, st: ServerStep)
    requires ServerEnabled(s, st) && PipeInv(s) && EndInv(s)
    ensures EndInv(ServerNext(s, st))
  {
    match st
    case CollectorWrite => WriteKeepsEndInv(s);
    case WaiterTake => assert s.sink.written == [];
    case _ =>
  }

  // ---------- The receive loop ----------

  /** While the loop waits for room it holds the lock, so nobody has removed the entry. */
  ghost predicate HandInv(v: View) {
    v.hand.Locked? ==> v.lock && v.server.chan.registered && !v.hand.m.Failure?
  }

  predicate Ender(m: Msg) {
    m.Whole? || m.Failure?
  }

  predicate BeforeLookup(p: Phase) {
    p.Opening? || p.Uploading? || p.Waiting? || p.Looking?
  }

  /** Until the request looks its channel up again, only the receive loop or the stream's cleanup removes the entry. */
  ghost predicate LookInv(v: View) {
    var s := v.server;
    BeforeLookup(s.phase) ==>
      && (s.chan.registered <==> !v.losses.ended && !s.cleaned)
      && (v.losses.answers == 0 && v.losses.errors == 0 && !s.cleaned ==>
            && (s.chan.registered && !v.hand.ErrorTail? ==> forall m :: m in s.chan.buf ==> !Ender(m))
            && (v.losses.ended ==> exists m :: m in s.chan.buf && Ender(m))
            && (v.hand.ErrorTail? ==> s.chan.registered && exists m :: m in s.chan.buf && Ender(m)))
  }

  lemma {:induction false} LoopKeepsServerInv(v: View, st: LoopStep)
    requires LoopEnabled(v, st) && ChannelInv(v.server) && PipeInv(v.server)
    ensures ChannelInv(LoopNext(v, st).server) && PipeInv(LoopNext(v, st).server)
  {
    LoopChangesChannel(v, st);
    LoopKeepsChannelInv(v, st);
  }

  /** All that the loop changes of the server is the channel. */
  lemma {:induction false} LoopChangesChannel(v: View, st: LoopStep)
    requires LoopEnabled(v, st)
    ensures LoopNext(v, st).server == v.server.(chan := LoopNext(v, st).server.chan)
  {
  }

  lemma {:induction false} LoopKeepsChannelInv(v: View, st: LoopStep)
    requires LoopEnabled(v, st) && ChannelInv(v.server)
    ensures ChannelInv(LoopNext(v, st).server)
  {
  }

  lemma {:induction false} LoopKeepsLookInv(v: View, st: LoopStep)
    requires Enabled(v, ByLoop(st)) && ChannelInv(v.server) && LookInv(v)
    ensures LookInv(LoopNext(v, st))
  {
    var buf, buf' := v.server.chan.buf, LoopNext(v, st).server.chan.buf;
    if st.Deliver? && v.server.chan.open {
      var m := v.hand.m;
      assert buf' == buf + [m];
      assert forall x :: x in buf' <==> x in buf || x == m;
      assert m in buf';
    } else {
      assert buf' == buf;
    }
  }

  lemma {:induction false} ServerKeepsLookInv(v: View, st: ServerStep)
    requires Enabled(v, ByServer(st)) && ChannelInv(v.server) && PipeInv(v.server) && LookInv(v)
    ensures LookInv(v.(server := ServerNext(v.server, st)))
  {
    if st.WaiterTake? {
      WaiterKeepsLookInv(v);
    }
  }

  /** The waiter goes on to the lookup only with a chunk, so an end of the answer stays in the channel. */
  lemma {:induction false} WaiterKeepsLookInv(v: View)
    requires Enabled(v, ByServer(WaiterTake)) && LookInv(v)
    ensures LookInv(v.(server := AfterWaiterTake(v.server)))
  {
    var buf := v.server.chan.buf;
    assert forall x :: x in buf <==> x == buf[0] || x in buf[1..];
  }

  // ---------- The flow from one side to the other ----------

  function InHand(h: Hand): seq<Msg> {
    if h.Got? || h.Locked? then [h.m] else []
  }

  /** Everything sent for the request that was not lost, oldest first. */
  function Pipeline(v: View): seq<Msg> {
    v.server.sink.taken + v.server.chan.buf + InHand(v.hand) + v.flight
  }

  /** The stream carries the loop's messages, and for an upload errors between them. */
  ghost predicate OutInv(id: RequestId, v: View) {
    && Answer(v.out) == Answer(v.client.sent)
    && (!v.server.kind.Upload? ==> v.out == v.client.sent)
    && (forall m :: m in v.out ==> m.id == id)
  }

  /**
   Nothing is reordered, duplicated or invented, and each delivery given up costs a message; without
   one, nothing of the answer is lost while the channel is registered, and what reached the channel is
   a prefix of it.
   */
  ghost predicate FlowInv(v: View) {
    && Sub.Subsequence(Pipeline(v), v.out)
    && |Answer(Pipeline(v))| + v.losses.answers <= |Answer(v.out)|
    && (v.losses.answers == 0 ==>
          && (v.server.chan.registered ==> Answer(Pipeline(v)) == Answer(v.out))
          && Answer(v.server.sink.taken + v.server.chan.buf) <= Answer(v.out))
  }

  ghost predicate Inv(id: RequestId, v: View) {
    && ClientInv(id, v.client)
    && CancelInv(v.client)
    && ChannelInv(v.server)
    && PipeInv(v.server)
    && EndInv(v.server)
    && HandInv(v)
    && LookInv(v)
    && OutInv(id, v)
    && FlowInv(v)
  }

  lemma {:induction false} SendKeepsFlowInv(v: View, v': View, m: Msg)
    requires FlowInv(v) && v'.server == v.server && v'.hand == v.hand && v'.losses == v.losses
    requires v'.out == v.out + [m] && v'.flight == v.flight + [m]
    ensures FlowInv(v')
  {
    assert Pipeline(v') == Pipeline(v) + [m];
    Sub.Append(Pipeline(v), v.out, m);
    AnswerConcat(Pipeline(v), [m]);
    AnswerConcat(v.out, [m]);
  }

  lemma {:induction false} ClientKeepsFlow(id: RequestId, v: View, st: ClientStep)
    requires Enabled(v, ByClient(st)) && ClientInv(id, v.client) && FlowInv(v) && OutInv(id, v)
    ensures FlowInv(Next(id, v, ByClient(st))) && OutInv(id, Next(id, v, ByClient(st)))
  {
    var v' := Next(id, v, ByClient(st));
    var out := Emitted(id, v.client, st);
    EmittedIsSent(id, v.client, st);
    if out == [] {
      assert v'.flight == v.flight && v'.out == v.out && v'.client.sent == v.client.sent;
    } else {
      SendKeepsFlowInv(v, v', out[0]);
      AnswerConcat(v.out, out);
      AnswerConcat(v.client.sent, out);
    }
  }

  /** The loop's history is what it puts on the stream, at most one message of its request at a time. */
  lemma {:induction false} EmittedIsSent(id: RequestId, c: Client, st: ClientStep)
    requires ClientEnabled(c, st) && ClientInv(id, c)
    ensures ClientNext(id, c, st).sent == c.sent + Emitted(id, c, st)
    ensures Emitted(id, c, st) == [] || Emitted(id, c, st) == [Emitted(id, c, st)[0]]
    ensures forall m :: m in Emitted(id, c, st) ==> m.id == id
  {
  }

  lemma {:induction false} UploadErrorKeepsFlow(id: RequestId, v: View, ok: bool)
    requires Enabled(v, UploadError(ok)) && FlowInv(v) && OutInv(id, v)
    ensures FlowInv(Next(id, v, UploadError(ok))) && OutInv(id, Next(id, v, UploadError(ok)))
  {
    var v' := Next(id, v, UploadError(ok));
    if ok {
      SendKeepsFlowInv(v, v', Failure(id));
      AnswerConcat(v.out, [Failure(id)]);
      AnswerOne(Failure(id));
    } else {
      assert v'.out == v.out && v'.flight == v.flight;
    }
  }

  /** A message moves from the channel to its reader. */
  lemma {:induction false} ReceiveKeepsFlowInv(v: View, v': View)
    requires FlowInv(v) && v.server.chan.buf != []
    requires v' == v.(server := v'.server) && v'.server.chan.registered == v.server.chan.registered
    requires v'.server.sink.taken == v.server.sink.taken + [v.server.chan.buf[0]]
    requires v'.server.chan.buf == v.server.chan.buf[1..]
    ensures FlowInv(v')
  {
    assert v'.server.sink.taken + v'.server.chan.buf == v.server.sink.taken + v.server.chan.buf;
  }

  lemma {:induction false} ServerKeepsFlowInv(id: RequestId, v: View, st: ServerStep)
    requires Enabled(v, ByServer(st)) && FlowInv(v)
    ensures FlowInv(Next(id, v, ByServer(st)))
  {
    var v' := Next(id, v, ByServer(st));
    if st.WaiterTake? || st.CollectorTake? {
      ReceiveKeepsFlowInv(v, v');
    } else {
      KeepsQueues(v.server, st);
    }
  }

  /** No other step touches the channel's contents or re-registers it. */
  lemma {:induction false} KeepsQueues(s: Server, st: ServerStep)
    requires ServerEnabled(s, st) && !st.WaiterTake? && !st.CollectorTake?
    ensures ServerNext(s, st).sink.taken == s.sink.taken && ServerNext(s, st).chan.buf == s.chan.buf
    ensures ServerNext(s, st).chan.registered ==> s.chan.registered
  {
  }

  /** The message in hand, or at the head of the stream, is lost. */
  lemma {:induction false} LossKeepsFlowInv(v: View, v': View, front: seq<Msg>, m: Msg, back: seq<Msg>)
    requires FlowInv(v) && Pipeline(v) == front + [m] + back && Pipeline(v') == front + back && v'.out == v.out
    requires front == v.server.sink.taken + v.server.chan.buf == v'.server.sink.taken + v'.server.chan.buf
    requires v'.losses.answers == v.losses.answers + (if m.Failure? then 0 else 1)
             || (v'.losses.answers == v.losses.answers && (m.Failure? || !v'.server.chan.registered))
    requires v'.server.chan.registered ==> v.server.chan.registered
    ensures FlowInv(v')
  {
    Sub.Delete(front, m, back, v.out);
    AnswerConcat(front + [m], back);
    AnswerConcat(front, [m]);
    AnswerConcat(front, back);
    AnswerOne(m);
    assert Answer(front) + [] == Answer(front);
  }

  lemma {:induction false} TakeKeepsFlowInv(v: View)
    requires LoopEnabled(v, Take) && FlowInv(v)
    ensures FlowInv(LoopNext(v, Take))
  {
    var v' := LoopNext(v, Take);
    var front := v.server.sink.taken + v.server.chan.buf;
    var m, back := v.flight[0], v.flight[1..];
    assert Pipeline(v) == front + [m] + back;
    if v.server.chan.registered {
      assert Pipeline(v') == front + [m] + back;
    } else {
      assert Pipeline(v') == front + back;
      LossKeepsFlowInv(v, v', front, m, back);
    }
  }

  lemma {:induction false} EnterKeepsFlowInv(v: View)
    requires LoopEnabled(v, Enter) && ChannelInv(v.server) && FlowInv(v)
    ensures FlowInv(AfterEnter(v))
  {
    var v' := AfterEnter(v);
    var front := v.server.sink.taken + v.server.chan.buf;
    if v'.hand.Locked? {
      assert Pipeline(v') == Pipeline(v);
    } else {
      assert Pipeline(v) == front + [v.hand.m] + v.flight;
      assert Pipeline(v') == front + v.flight;
      LossKeepsFlowInv(v, v', front, v.hand.m, v.flight);
    }
  }

  lemma {:induction false} DeliverKeepsFlowInv(v: View)
    requires LoopEnabled(v, Deliver) && ChannelInv(v.server) && FlowInv(v)
    ensures FlowInv(AfterDeliver(v))
  {
    var v' := AfterDeliver(v);
    var front := v.server.sink.taken + v.server.chan.buf;
    var m := v.hand.m;
    assert Pipeline(v) == front + [m] + v.flight;
    if v.server.chan.open {
      assert v'.server.sink.taken + v'.server.chan.buf == front + [m];
      assert Pipeline(v') == front + [m] + v.flight;
      AnswerPrefix(front + [m], front + [m] + v.flight);
    } else {
      assert Pipeline(v') == front + v.flight;
      LossKeepsFlowInv(v, v', front, m, v.flight);
    }
  }

  lemma {:induction false} TimeoutKeepsFlowInv(v: View)
    requires LoopEnabled(v, DeliveryTimeout) && FlowInv(v)
    ensures FlowInv(AfterTimeout(v))
  {
    var v' := AfterTimeout(v);
    var front := v.server.sink.taken + v.server.chan.buf;
    assert Pipeline(v) == front + [v.hand.m] + v.flight;
    assert Pipeline(v') == front + v.flight;
    LossKeepsFlowInv(v, v', front, v.hand.m, v.flight);
  }

  lemma {:induction false} LoopKeepsFlowInv(v: View, st: LoopStep)
    requires LoopEnabled(v, st) && ChannelInv(v.server) && FlowInv(v)
    ensures FlowInv(LoopNext(v, st))
  {
    match st
    case Take => TakeKeepsFlowInv(v);
    case Enter => EnterKeepsFlowInv(v);
    case Deliver => DeliverKeepsFlowInv(v);
    case DeliveryTimeout => TimeoutKeepsFlowInv(v);
    case RemoveFailed => assert Pipeline(LoopNext(v, st)) == Pipeline(v);
  }

  // ---------- Every step ----------

  lemma {:induction false} NewReqInv(id: RequestId, kind: Kind, lock: bool)
    ensures Inv(id, NewView(kind, lock))
  {
  }

  lemma {:induction false} ClientKeepsInv(id: RequestId, v: View, c: ClientStep)
    requires Enabled(v, ByClient(c)) && Inv(id, v)
    ensures Inv(id, Next(id, v, ByClient(c)))
  {
    StepKeepsClientInv(id, v.client, c);
    StepKeepsCancelInv(id, v.client, c);
    ClientKeepsFlow(id, v, c);
  }

  lemma {:induction false} ServerKeepsInv(id: RequestId, v: View, s: ServerStep)
    requires Enabled(v, ByServer(s)) && Inv(id, v)
    ensures Inv(id, Next(id, v, ByServer(s)))
  {
    StepKeepsServerInvs(v.server, s);
    ServerKeepsLookInv(v, s);
    ServerKeepsFlowInv(id, v, s);
    ServerKeepsHandInv(v, s);
    assert OutInv(id, Next(id, v, ByServer(s)));
  }

  lemma {:induction false} StepKeepsServerInvs(s: Server, st: ServerStep)
    requires ServerEnabled(s, st) && ChannelInv(s) && PipeInv(s) && EndInv(s)
    ensures ChannelInv(ServerNext(s, st)) && PipeInv(ServerNext(s, st)) && EndInv(ServerNext(s, st))
  {
    StepKeepsChannelInv(s, st);
    StepKeepsPipeInv(s, st);
    StepKeepsEndInv(s, st);
  }

  lemma {:induction false} ServerKeepsHandInv(v: View, s: ServerStep)
    requires Enabled(v, ByServer(s)) && HandInv(v)
    ensures HandInv(v.(server := ServerNext(v.server, s)))
  {
    if v.lock {
      OnlyLockSectionsRemove(v, s);
    }
  }

  /** While the loop holds the lock, no other goroutine removes the entry. */
  lemma {:induction false} OnlyLockSectionsRemove(v: View, s: ServerStep)
    requires Enabled(v, ByServer(s)) && v.lock
    ensures ServerNext(v.server, s).chan.registered == v.server.chan.registered
  {
  }

  lemma {:induction false} LoopKeepsInv(id: RequestId, v: View, l: LoopStep)
    requires Enabled(v, ByLoop(l)) && Inv(id, v)
    ensures Inv(id, Next(id, v, ByLoop(l)))
  {
    LoopKeepsServerInv(v, l);
    LoopChangesChannel(v, l);
    LoopKeepsLookInv(v, l);
    LoopKeepsFlowInv(v, l);
    LoopKeepsHandInv(v, l);
  }

  lemma {:induction false} LoopKeepsHandInv(v: View, l: LoopStep)
    requires Enabled(v, ByLoop(l)) && ChannelInv(v.server) && HandInv(v)
    ensures HandInv(LoopNext(v, l)) && LoopNext(v, l).client == v.client && LoopNext(v, l).out == v.out
  {
  }

  lemma {:induction false} StepKeepsInv(id: RequestId, v: View, st: LocalStep)
    requires Enabled(v, st) && Inv(id, v)
    ensures Inv(id, Next(id, v, st))
  {
    match st
    case ByClient(c) => ClientKeepsInv(id, v, c);
    case ByServer(s) => ServerKeepsInv(id, v, s);
    case ByLoop(l) => LoopKeepsInv(id, v, l);
    case UploadError(ok) => UploadErrorKeepsFlow(id, v, ok);
  }

  // ---------- What the invariant means ----------

  /** What was written is part of the answer on the stream, and no more of it than was not given up. */
  lemma {:induction false} WrittenOfAnswer(id: RequestId, v: View)
    requires Inv(id, v)
    ensures var w := v.server.sink.written;
            && Sub.Subsequence(w, Answer(v.client.sent))
            && |w| + v.losses.answers <= |Answer(v.client.sent)|
            && (v.losses.answers == 0 ==> w <= Answer(v.client.sent))
  {
    var w := v.server.sink.written;
    var front := v.server.sink.taken + v.server.chan.buf;
    var back := v.server.sink.taken[|w|..] + v.server.chan.buf + InHand(v.hand) + v.flight;
    assert Pipeline(v) == w + back;
    Sub.TakePrefix(w, back, v.out);
    AnswerSubsequence(w, v.out);
    AnswerOfAnswer(w);
    AnswerPrefix(w, Pipeline(v));
    assert w <= front;
    AnswerPrefix(w, front);
  }

  /**
   The response pipe holds the bodies of an order-preserving subsequence of what was sent for this
   very request, and a prefix of the response body when no delivery of its answer timed out.
   */
  lemma {:induction false} PipeIsSafe(id: RequestId, v: View)
    requires Inv(id, v)
    ensures v.server.sink.pipe == Bodies(v.server.sink.written)
    ensures Sub.Subsequence(v.server.sink.written, v.client.sent)
    ensures forall m :: m in v.server.sink.written ==> m.id == id
    ensures v.losses.answers == 0 ==> v.server.sink.pipe <= ReplyBody(v.client.reply)
  {
    var w := v.server.sink.written;
    WrittenOfAnswer(id, v);
    AnswerWeaken(w, v.client.sent);
    Sub.Members(w, v.client.sent);
    SentShape(id, v.client);
    if v.losses.answers == 0 {
      BodiesPrefix(w, Answer(v.client.sent));
      AnswerBodies(v.client.sent);
    }
  }

  /**
   A step crashes the receive loop exactly when the message in hand is a complete response or an
   error and its entry was removed after the lookup, or after the error was delivered.
   */
  lemma {:induction false} CrashIff(id: RequestId, v: View, st: LocalStep)
    requires Enabled(v, st) && Inv(id, v)
    ensures Next(id, v, st).hand.Crashed? <==>
              && !v.server.chan.registered
              && ((st == ByLoop(Enter) && v.hand.m.Whole?) || st == ByLoop(Deliver) || st == ByLoop(RemoveFailed))
  {
  }

  /**
   The lookup that turns a request to collecting fails exactly when the receive loop has brought a
   complete response or an error to an end before it, or the stream was cleaned up. If no delivery was
   given up, that is: when one of them lies in the channel, unless the loop still has to remove the
   entry of an error it has just delivered.
   */
  lemma {:induction false} LookupFailsIff(id: RequestId, v: View)
    requires Inv(id, v) && Enabled(v, ByServer(Lookup))
    ensures Next(id, v, ByServer(Lookup)).server.phase == Done(false) <==> v.losses.ended || v.server.cleaned
    ensures v.losses.answers == 0 && v.losses.errors == 0 && !v.server.cleaned ==>
              (Next(id, v, ByServer(Lookup)).server.phase == Done(false)
               <==> !v.hand.ErrorTail? && exists m :: m in v.server.chan.buf && Ender(m))
  {
  }
}
