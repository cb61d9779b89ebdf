/**
 What a request gets when nothing goes wrong: no cancellation, timeout, disconnection or failed
 send, and a body that ends properly.
 */
module ResponseCompletion {
  import opened Messages
  import opened ResponseStream
  import opened ResponseSafety

  /** Steps the goroutines take of their own accord, as opposed to faults and new work. */
  predicate Progress(st: LocalStep) {
    match st
    case ByClient(c) =>
      c.CheckTop? || c.ReadBody? || c.CheckSend? || c == SendMsg(true) || c == SendError(true)
    case ByServer(s) =>
      match s {
        case Issue(ok) => ok
        case UploadSent(ok) => ok
        case WaiterGiveUp => false
        case CollectorTimeout => false
        case ReaderGone => false
        case Disconnect => false
        case _ => true
      }
    case ByLoop(l) => !l.DeliveryTimeout?
    case UploadError(_) => false
  }

  /** The local service answers with a body that ends without a read error. */
  predicate Healthy(r: Reply) {
    match r
    case StreamBody(script) => EndsWithEof(script)
    case CompleteBody(_) => true
    case LocalFailure => false
  }

  /** A step of a fault-free run. */
  predicate Clean(st: LocalStep) {
    Progress(st) || (st.ByClient? && st.c.Accept? && Healthy(st.c.reply))
  }

  predicate Finished(s: Server) {
    s.phase.Cleaning? || s.phase.Closing? || s.phase.Done?
  }

  /** The response is expected to end: it is complete, or its last data came with the end of file. */
  predicate Terminates(r: Reply) {
    r.CompleteBody? || (r.StreamBody? && LastDataWithEof(r.script))
  }

  ghost predicate CleanClient(id: RequestId, c: Client) {
    && !c.cancelled && !c.pc.Failing?
    && (!c.pc.Unasked? ==> Healthy(c.reply))
    && (c.pc.Top? || c.pc.Reading? ==> EndsWithEof(c.rest))
    && ((c.pc.Holding? || c.pc.Cleared?) && !c.pc.eof ==> EndsWithEof(c.rest))
    && (c.pc.Ended? ==> c.sent == Script(id, c.reply))
    && (forall m :: m in c.sent ==> !m.Failure?)
  }

  ghost predicate CleanInv(id: RequestId, v: View) {
    var c, s := v.client, v.server;
    && ClientInv(id, c) && CleanClient(id, c)
    && ChannelInv(s) && PipeInv(s)
    && v.losses.answers == 0 && v.losses.errors == 0 && !s.cleaned && !s.sink.readerGone
    && (v.hand.Free? || v.hand.Got? || v.hand.Locked?)
    && Pipeline(v) == c.sent
    && CleanEnd(v)
  }

  /** An upload whose complete answer came before the upload looked for its channel: nobody will read it. */
  ghost predicate LostAnswer(v: View) {
    && v.server.phase == Done(false) && v.server.kind.Upload? && v.server.sink.taken == []
    && |v.client.sent| == 1 && v.client.sent[0].Whole?
  }

  /** The response is closed after its terminal message, and only then. */
  ghost predicate CleanEnd(v: View) {
    var c, s := v.client, v.server;
    && (if Finished(s) then LostAnswer(v) || (s.phase.ok && s.sink.written == c.sent && EndsTerminal(c.sent))
        else NoneTerminal(s.sink.written))
    && (s.sink.closed <==> s.phase == Done(true))
    && (s.phase.Closing? || s.phase.Done? ==> !s.chan.registered)
    && (!s.chan.registered ==> EndsTerminal(c.sent) && s.sink.taken + s.chan.buf == c.sent)
    && (!s.chan.registered && !Finished(s) ==> c.sent[|c.sent| - 1].Whole?)
    && (forall m :: m in s.sink.taken + s.chan.buf && m.Whole? ==> !s.chan.registered)
  }

  lemma {:induction false} StepKeepsServerInv(s: Server, st: ServerStep)
    requires ServerEnabled(s, st) && ChannelInv(s) && PipeInv(s)
    ensures ChannelInv(ServerNext(s, st)) && PipeInv(ServerNext(s, st))
  {
    StepKeepsChannelInv(s, st);
    StepKeepsPipeInv(s, st);
  }

  lemma {:induction false} CleanClientStep(id: RequestId, c: Client, st: ClientStep)
    requires ClientEnabled(c, st) && ClientInv(id, c) && CleanClient(id, c)
    requires Progress(ByClient(st)) || (st.Accept? && Healthy(st.reply))
    ensures CleanClient(id, ClientNext(id, c, st))
    ensures forall m :: m in Emitted(id, c, st) ==> !m.Failure?
  {
    var c' := ClientNext(id, c, st);
    if st == SendMsg(true) && c.pc.eof {
      assert c'.sent == Script(id, c.reply);
    }
    if st.ReadBody? && c'.pc.Ended? {
      assert Emit(id, c.rest, c.num) == [];
      assert c'.sent == Script(id, c.reply);
    }
  }

  /** Once a terminal message has been sent the client has ended. */
  lemma {:induction false} TerminalMeansEnded(id: RequestId, c: Client)
    requires ClientInv(id, c) && EndsTerminal(c.sent)
    ensures c.pc.Ended?
  {
    assert c.sent[|c.sent| - 1] in c.sent;
  }

  /** In a clean state a terminal message is the last of what was sent. */
  lemma {:induction false} TerminalIsLast(id: RequestId, v: View, front: seq<Msg>, m: Msg, back: seq<Msg>)
    requires CleanInv(id, v) && v.client.sent == front + [m] + back && Terminal(m)
    ensures back == [] && EndsTerminal(v.client.sent) && v.client.sent == front + [m]
  {
    SentShape(id, v.client);
    assert v.client.sent[|front|] == m;
  }

  /** A complete response is the only message of its request. */
  lemma {:induction false} WholeIsAlone(id: RequestId, c: Client)
    requires ClientInv(id, c) && CleanClient(id, c) && c.sent != [] && c.sent[|c.sent| - 1].Whole?
    ensures |c.sent| == 1 && c.reply.CompleteBody?
  {
    assert c.sent[|c.sent| - 1] in c.sent;
    var script := Script(id, c.reply);
    assert c.sent <= script;
    assert script[|c.sent| - 1].Whole?;
    if c.reply.StreamBody? {
      EmitShape(id, c.reply.script, 0);
    }
  }

  lemma {:induction false} ClientKeepsClean(id: RequestId, v: View, st: ClientStep)
    requires CleanInv(id, v) && Enabled(v, ByClient(st)) && Clean(ByClient(st))
    ensures CleanInv(id, Next(id, v, ByClient(st)))
  {
    var v' := Next(id, v, ByClient(st));
    StepKeepsClientInv(id, v.client, st);
    CleanClientStep(id, v.client, st);
    EmittedIsSent(id, v.client, st);
    NoneAfterTerminal(id, v.client, st);
    SendingKeepsEnd(v, v', Emitted(id, v.client, st));
  }

  lemma {:induction false} NoneAfterTerminal(id: RequestId, c: Client, st: ClientStep)
    requires ClientEnabled(c, st) && ClientInv(id, c) && Clean(ByClient(st))
    ensures !EndsTerminal(c.sent)
  {
    if EndsTerminal(c.sent) {
      TerminalMeansEnded(id, c);
    }
  }

  /** While more is sent, the response is open and its channel registered. */
  lemma {:induction false} SendingKeepsEnd(v: View, v': View, out: seq<Msg>)
    requires CleanEnd(v) && Pipeline(v) == v.client.sent && !EndsTerminal(v.client.sent)
    requires v'.server == v.server && v'.hand == v.hand && v'.flight == v.flight + out
    requires v'.client.sent == v.client.sent + out
    requires LostAnswer(v) ==> EndsTerminal(v.client.sent)
    ensures CleanEnd(v') && Pipeline(v') == v'.client.sent
  {
    assert Pipeline(v') == Pipeline(v) + out;
  }

  /** A server step that moves no message in or out only has to end the response properly. */
  lemma {:induction false} ServerClean(id: RequestId, v: View, v': View)
    requires CleanInv(id, v) && v' == v.(server := v'.server) && ChannelInv(v'.server) && PipeInv(v'.server)
    requires v'.server.sink.taken + v'.server.chan.buf == v.server.sink.taken + v.server.chan.buf
    requires !v'.server.sink.readerGone && !v'.server.cleaned && CleanEnd(v')
    ensures CleanInv(id, v')
  {
  }

  lemma {:induction false} WaiterTakesFirst(id: RequestId, v: View)
    requires CleanInv(id, v) && Enabled(v, ByServer(WaiterTake))
    ensures var s := v.server;
            var m := s.chan.buf[0];
            && v.client.sent == [] + [m] + (s.chan.buf[1..] + InHand(v.hand) + v.flight)
            && m in v.client.sent && m in s.sink.taken + s.chan.buf
  {
    PipelineFrom(v, []);
    assert v.server.chan.buf[0] in Pipeline(v);
  }

  /** The pipeline, split at the head of the channel, or at the last message taken. */
  lemma {:induction false} PipelineFrom(v: View, front: seq<Msg>)
    ensures var s, back := v.server, InHand(v.hand) + v.flight;
            && (s.sink.taken == front && s.chan.buf != [] ==>
                  Pipeline(v) == front + [s.chan.buf[0]] + (s.chan.buf[1..] + InHand(v.hand) + v.flight))
            && (forall m :: s.sink.taken == front + [m] ==>
                  Pipeline(v) == front + [m] + (s.chan.buf + InHand(v.hand) + v.flight))
  {
    var s := v.server;
    if s.chan.buf != [] {
      assert s.chan.buf == [s.chan.buf[0]] + s.chan.buf[1..];
    }
  }

  lemma {:induction false} WaiterEndsClean(id: RequestId, v: View)
    requires CleanInv(id, v) && Enabled(v, ByServer(WaiterTake))
    ensures var s := v.server;
            var m := s.chan.buf[0];
            m.Chunk? || (m.Whole? && !s.chan.registered && v.client.sent == [m])
  {
    var s := v.server;
    var m := s.chan.buf[0];
    WaiterTakesFirst(id, v);
    if m.Whole? {
      TerminalIsLast(id, v, [], m, s.chan.buf[1..] + InHand(v.hand) + v.flight);
    }
  }

  /** A whole response that is taken is written, and ends the request at once. */
  lemma {:induction false} WholeMovesEnd(v: View, v': View, m: Msg)
    requires CleanEnd(v) && !v.server.chan.registered && m.Whole? && v.client.sent == [m]
    requires v'.client == v.client && !v'.server.chan.registered
    requires v.server.sink.written == [] && v'.server.sink.written == v.server.sink.written + [m]
    requires v'.server.sink.closed && v'.server.phase == Done(true)
    requires v'.server.sink.taken + v'.server.chan.buf == v.server.sink.taken + v.server.chan.buf
    ensures CleanEnd(v')
  {
  }

  /** A waiter that takes a chunk goes on; one that takes a whole response is done. */
  lemma {:induction false} WaiterMoves(s: Server)
    requires ServerEnabled(s, WaiterTake) && PhaseInv(s) && !s.chan.buf[0].Failure?
    ensures var s', m := AfterWaiterTake(s), s.chan.buf[0];
            && s'.chan.registered == s.chan.registered && s'.cleaned == s.cleaned && s'.kind == s.kind
            && s'.sink.readerGone == s.sink.readerGone
            && s'.sink.taken + s'.chan.buf == s.sink.taken + s.chan.buf
            && (if m.Chunk? then s'.phase.Looking? && s'.sink.written == s.sink.written && s'.sink.closed == s.sink.closed
                else s'.phase == Done(true) && s'.sink.written == s.sink.written + [m] && s'.sink.closed)
  {
    ReceiveMoves(s);
  }

  lemma {:induction false} ChunkKeepsClean(id: RequestId, v: View)
    requires CleanInv(id, v) && Enabled(v, ByServer(WaiterTake)) && v.server.chan.buf[0].Chunk?
    ensures CleanInv(id, Next(id, v, ByServer(WaiterTake)))
  {
    var v' := v.(server := AfterWaiterTake(v.server));
    assert v' == Next(id, v, ByServer(WaiterTake));
    StepKeepsServerInv(v.server, WaiterTake);
    WaiterMoves(v.server);
    ReceivingKeepsEnd(v, v');
    ServerClean(id, v, v');
  }

  lemma {:induction false} WholeKeepsClean(id: RequestId, v: View)
    requires CleanInv(id, v) && Enabled(v, ByServer(WaiterTake)) && v.server.chan.buf[0].Whole?
    ensures CleanInv(id, Next(id, v, ByServer(WaiterTake)))
  {
    var v' := v.(server := AfterWaiterTake(v.server));
    assert v' == Next(id, v, ByServer(WaiterTake));
    StepKeepsServerInv(v.server, WaiterTake);
    WaiterEndsClean(id, v);
    WaiterMoves(v.server);
    WholeMovesEnd(v, v', v.server.chan.buf[0]);
    ServerClean(id, v, v');
  }

  lemma {:induction false} WaiterKeepsClean(id: RequestId, v: View)
    requires CleanInv(id, v) && Enabled(v, ByServer(WaiterTake))
    ensures CleanInv(id, Next(id, v, ByServer(WaiterTake)))
  {
    WaiterEndsClean(id, v);
    if v.server.chan.buf[0].Whole? {
      WholeKeepsClean(id, v);
    } else {
      ChunkKeepsClean(id, v);
    }
  }

  lemma {:induction false} WriterHolds(id: RequestId, v: View)
    requires CleanInv(id, v) && Enabled(v, ByServer(CollectorWrite))
    ensures var k, m := v.server.sink, v.server.sink.current[0];
            && k.taken == k.written + [m]
            && v.client.sent == k.written + [m] + (v.server.chan.buf + InHand(v.hand) + v.flight)
            && m in v.client.sent
  {
    var k, m := v.server.sink, v.server.sink.current[0];
    assert k.current == [m] && k.taken == k.written + [m];
    PipelineFrom(v, k.written);
    assert (k.written + [m])[|k.written|] == m && m in Pipeline(v);
  }

  lemma {:induction false} WriteEndsClean(id: RequestId, v: View)
    requires CleanInv(id, v) && Enabled(v, ByServer(CollectorWrite))
    ensures var k, m := v.server.sink, v.server.sink.current[0];
            && Accepts(k, m)
            && (Terminal(m) ==> v.client.sent == k.written + [m] && EndsTerminal(v.client.sent))
  {
    var m := v.server.sink.current[0];
    WriterHolds(id, v);
    if Terminal(m) {
      TerminalIsLast(id, v, v.server.sink.written, m, v.server.chan.buf + InHand(v.hand) + v.flight);
    }
  }

  /** An accepted message is written, and a terminal one begins the end. */
  lemma {:induction false} WriteMovesEnd(v: View, v': View, m: Msg)
    requires CleanEnd(v) && !Finished(v.server) && v'.client == v.client
    requires v'.server.chan == v.server.chan && v'.server.sink.taken == v.server.sink.taken
    requires v'.server.sink.closed == v.server.sink.closed && v'.server.sink.written == v.server.sink.written + [m]
    requires v'.server.phase == if Terminal(m) then Cleaning(true) else Collecting
    requires Terminal(m) ==> v.client.sent == v.server.sink.written + [m] && EndsTerminal(v.client.sent)
    ensures CleanEnd(v')
  {
  }

  lemma {:induction false} WriteKeepsClean(id: RequestId, v: View)
    requires CleanInv(id, v) && Enabled(v, ByServer(CollectorWrite))
    ensures CleanInv(id, Next(id, v, ByServer(CollectorWrite)))
  {
    var v' := Next(id, v, ByServer(CollectorWrite));
    StepKeepsServerInv(v.server, CollectorWrite);
    WriteEndsClean(id, v);
    WriteMovesEnd(v, v', v.server.sink.current[0]);
    ServerClean(id, v, v');
  }

  /** A response that is not over yet stays so, whatever its phase. */
  lemma {:induction false} StillOpen(v: View, v': View)
    requires CleanEnd(v) && !Finished(v.server) && !Finished(v'.server)
    requires v'.client == v.client && v'.server.sink == v.server.sink && v'.server.chan == v.server.chan
    ensures CleanEnd(v')
  {
  }

  lemma {:induction false} IssueKeepsClean(id: RequestId, v: View, st: ServerStep)
    requires CleanInv(id, v) && Enabled(v, ByServer(st)) && (st == Issue(true) || st == UploadSent(true))
    ensures CleanInv(id, Next(id, v, ByServer(st)))
  {
    var v' := Next(id, v, ByServer(st));
    StepKeepsServerInv(v.server, st);
    PhaseOnly(v.server, st);
    StillOpen(v, v');
    ServerClean(id, v, v');
  }

  lemma {:induction false} PhaseOnly(s: Server, st: ServerStep)
    requires ServerEnabled(s, st) && (st == Issue(true) || st == UploadSent(true))
    ensures ServerNext(s, st).sink == s.sink && ServerNext(s, st).chan == s.chan
    ensures !Finished(s) && !Finished(ServerNext(s, st)) && ServerNext(s, st).cleaned == s.cleaned
  {
  }

  /** An entry is gone before the lookup only when a complete answer has been delivered. */
  lemma {:induction false} LookupOfLost(id: RequestId, v: View)
    requires CleanInv(id, v) && v.server.phase.Looking? && !v.server.chan.registered
    ensures v.server.kind.Upload? && v.server.sink.taken == [] && v.server.sink.written == []
    ensures |v.client.sent| == 1 && v.client.sent[0].Whole?
  {
    WholeIsAlone(id, v.client);
    HeadOf(v.server.sink.taken, v.server.chan.buf, v.client.sent);
  }

  lemma HeadOf(a: seq<Msg>, b: seq<Msg>, c: seq<Msg>)
    requires a + b == c
    ensures a != [] ==> c != [] && c[0] == a[0]
  {
  }

  lemma {:induction false} LookupKeepsClean(id: RequestId, v: View)
    requires CleanInv(id, v) && Enabled(v, ByServer(Lookup))
    ensures CleanInv(id, Next(id, v, ByServer(Lookup)))
  {
    var v' := Next(id, v, ByServer(Lookup));
    StepKeepsServerInv(v.server, Lookup);
    assert v'.server == v.server.(phase := v'.server.phase);
    if v.server.chan.registered {
      assert v'.server.phase.Collecting?;
      StillOpen(v, v');
    } else {
      LookupOfLost(id, v);
      assert v'.server.phase == Done(false) && LostAnswer(v');
      LostKeepsEnd(v, v');
    }
    ServerClean(id, v, v');
  }

  lemma {:induction false} LostKeepsEnd(v: View, v': View)
    requires CleanEnd(v) && !Finished(v.server) && !v.server.chan.registered && v'.client == v.client
    requires v'.server == v.server.(phase := Done(false)) && LostAnswer(v')
    ensures CleanEnd(v')
  {
  }

  /** Receiving a message changes neither what was written nor whether the channel is registered. */
  lemma {:induction false} ReceivingKeepsEnd(v: View, v': View)
    requires CleanEnd(v) && !Finished(v.server) && !Finished(v'.server) && v'.client == v.client
    requires v'.server.sink.written == v.server.sink.written && v'.server.sink.closed == v.server.sink.closed
    requires v'.server.chan.registered == v.server.chan.registered
    requires v'.server.sink.taken + v'.server.chan.buf == v.server.sink.taken + v.server.chan.buf
    ensures CleanEnd(v')
  {
  }

  lemma {:induction false} ReceiveMoves(s: Server)
    requires s.chan.buf != []
    ensures Receive(s).sink.taken + Receive(s).chan.buf == s.sink.taken + s.chan.buf
  {
    assert s.chan.buf == [s.chan.buf[0]] + s.chan.buf[1..];
  }

  lemma {:induction false} TakeKeepsClean(id: RequestId, v: View)
    requires CleanInv(id, v) && Enabled(v, ByServer(CollectorTake))
    ensures CleanInv(id, Next(id, v, ByServer(CollectorTake)))
  {
    var v' := Next(id, v, ByServer(CollectorTake));
    StepKeepsServerInv(v.server, CollectorTake);
    ReceiveMoves(v.server);
    ReceivingKeepsEnd(v, v');
    ServerClean(id, v, v');
  }

  /** Once the response is over, everything sent has been taken. */
  lemma {:induction false} FinishedTookAll(id: RequestId, v: View)
    requires CleanInv(id, v) && Finished(v.server)
    ensures v.server.sink.taken + v.server.chan.buf == v.client.sent && EndsTerminal(v.client.sent)
  {
    var s := v.server;
    assert s.sink.taken == s.sink.written + s.sink.taken[|s.sink.written|..];
    var back := s.sink.taken[|s.sink.written|..] + s.chan.buf + InHand(v.hand) + v.flight;
    assert Pipeline(v) == s.sink.written + back;
  }

  lemma {:induction false} EndingKeepsClean(id: RequestId, v: View, st: ServerStep)
    requires CleanInv(id, v) && Enabled(v, ByServer(st)) && (st.CollectorCleanup? || st.ClosePipe?)
    ensures CleanInv(id, Next(id, v, ByServer(st)))
  {
    var v' := Next(id, v, ByServer(st));
    StepKeepsServerInv(v.server, st);
    FinishedTookAll(id, v);
    var s, s' := v.server, v'.server;
    assert s'.sink.taken == s.sink.taken && s'.sink.written == s.sink.written && s'.chan.buf == s.chan.buf;
    assert CleanEnd(v');
    ServerClean(id, v, v');
  }

  /** A channel is never found closed and empty. */
  lemma {:induction false} NeverNil(id: RequestId, v: View, st: ServerStep)
    requires CleanInv(id, v) && (st.WaiterNil? || st.CollectorNil?)
    ensures !Enabled(v, ByServer(st))
  {
    var s := v.server;
    assert Enabled(v, ByServer(st)) ==> !Finished(s) && !s.chan.registered;
    assert Enabled(v, ByServer(st)) ==> s.sink.written == s.sink.taken == v.client.sent;
    assert EndsTerminal(s.sink.written) ==> s.sink.written[|s.sink.written| - 1] in s.sink.written;
  }

  /** While messages are under way the channel is registered. */
  lemma {:induction false} UnderWayMeansRegistered(id: RequestId, v: View)
    requires CleanInv(id, v) && InHand(v.hand) + v.flight != []
    ensures v.server.chan.registered && !Finished(v.server)
  {
    PipelineLength(v);
  }

  lemma {:induction false} PipelineLength(v: View)
    ensures |Pipeline(v)| == |v.server.sink.taken + v.server.chan.buf| + |InHand(v.hand) + v.flight|
  {
  }

  lemma {:induction false} LoopTakeKeepsClean(id: RequestId, v: View)
    requires CleanInv(id, v) && Enabled(v, ByLoop(Take))
    ensures CleanInv(id, Next(id, v, ByLoop(Take)))
  {
    var v' := LoopNext(v, Take);
    LoopKeepsServerInv(v, Take);
    UnderWayMeansRegistered(id, v);
    assert v.flight == [v.flight[0]] + v.flight[1..];
    assert InHand(v'.hand) + v'.flight == v.flight;
    assert Pipeline(v') == Pipeline(v);
    assert CleanEnd(v');
  }

  /** Nobody removes the entry behind the loop's back, so it gets the lock and goes on. */
  lemma {:induction false} EnterKeepsClean(id: RequestId, v: View)
    requires CleanInv(id, v) && Enabled(v, ByLoop(Enter))
    ensures CleanInv(id, Next(id, v, ByLoop(Enter))) && Next(id, v, ByLoop(Enter)).hand == Locked(v.hand.m)
  {
    var v' := AfterEnter(v);
    LoopKeepsServerInv(v, Enter);
    UnderWayMeansRegistered(id, v);
    assert v' == v.(hand := Locked(v.hand.m), lock := true);
    assert Pipeline(v') == Pipeline(v) && CleanEnd(v');
  }

  lemma {:induction false} DeliverEndsClean(id: RequestId, v: View)
    requires CleanInv(id, v) && (v.hand.Got? || v.hand.Locked?)
    ensures v.server.chan.registered && !Finished(v.server) && !v.hand.m.Failure?
    ensures v.client.sent == v.server.sink.taken + v.server.chan.buf + [v.hand.m] + v.flight
    ensures v.hand.m.Whole? ==> v.flight == [] && EndsTerminal(v.client.sent)
  {
    UnderWayMeansRegistered(id, v);
    var front, m := v.server.sink.taken + v.server.chan.buf, v.hand.m;
    assert v.client.sent == front + [m] + v.flight;
    assert v.client.sent[|front|] == m && m in v.client.sent;
    if m.Whole? {
      TerminalIsLast(id, v, front, m, v.flight);
    }
  }

  lemma {:induction false} DeliverKeepsClean(id: RequestId, v: View)
    requires CleanInv(id, v) && Enabled(v, ByLoop(Deliver))
    ensures CleanInv(id, Next(id, v, ByLoop(Deliver)))
  {
    var v' := AfterDeliver(v);
    LoopKeepsServerInv(v, Deliver);
    DeliverEndsClean(id, v);
    DeliverMoves(v);
    DeliveryKeepsEnd(v, v');
  }

  /** The message in hand goes to the end of the channel. */
  lemma {:induction false} DeliverMoves(v: View)
    requires (v.hand.Got? || v.hand.Locked?) && v.server.chan.open && !v.hand.m.Failure?
    ensures var v', s, s' := AfterDeliver(v), v.server, AfterDeliver(v).server;
            && v'.hand.Free? && v'.out == v.out && v'.client == v.client
            && v'.losses.answers == v.losses.answers && v'.losses.errors == v.losses.errors
            && s'.sink == s.sink && s'.phase == s.phase && s'.cleaned == s.cleaned
            && s'.chan.buf == s.chan.buf + [v.hand.m]
            && (s.chan.registered ==> s'.chan.registered == !v.hand.m.Whole?)
            && Pipeline(v') == Pipeline(v)
  {
    var s, s' := v.server, AfterDeliver(v).server;
    assert s'.sink.taken + s'.chan.buf == s.sink.taken + s.chan.buf + [v.hand.m];
  }

  /** A chunk joins the channel of an open response; a whole response also closes its channel. */
  lemma {:induction false} DeliveryKeepsEnd(v: View, v': View)
    requires CleanEnd(v) && !Finished(v.server) && v.server.chan.registered && (v.hand.Got? || v.hand.Locked?)
    requires v'.client == v.client && v'.server.sink == v.server.sink && v'.server.phase == v.server.phase
    requires v'.server.chan.buf == v.server.chan.buf + [v.hand.m]
    requires v'.server.chan.registered == !v.hand.m.Whole?
    requires v.client.sent == v.server.sink.taken + v.server.chan.buf + [v.hand.m] + v.flight
    requires v.hand.m.Whole? ==> v.flight == [] && EndsTerminal(v.client.sent)
    ensures CleanEnd(v')
  {
    var s, s' := v.server, v'.server;
    assert s'.sink.taken + s'.chan.buf == s.sink.taken + s.chan.buf + [v.hand.m];
  }

  lemma {:induction false} ServerKeepsClean(id: RequestId, v: View, s: ServerStep)
    requires CleanInv(id, v) && Enabled(v, ByServer(s)) && Progress(ByServer(s))
    ensures CleanInv(id, Next(id, v, ByServer(s)))
  {
    match s
    case WaiterTake => WaiterKeepsClean(id, v);
    case CollectorWrite => WriteKeepsClean(id, v);
    case WaiterNil => NeverNil(id, v, s);
    case CollectorNil => NeverNil(id, v, s);
    case CollectorTake => TakeKeepsClean(id, v);
    case CollectorCleanup => EndingKeepsClean(id, v, s);
    case ClosePipe => EndingKeepsClean(id, v, s);
    case Lookup => LookupKeepsClean(id, v);
    case Issue(_) => IssueKeepsClean(id, v, s);
    case UploadSent(_) => IssueKeepsClean(id, v, s);
  }

  lemma {:induction false} LoopKeepsClean(id: RequestId, v: View, l: LoopStep)
    requires CleanInv(id, v) && Enabled(v, ByLoop(l)) && Progress(ByLoop(l))
    ensures CleanInv(id, Next(id, v, ByLoop(l)))
  {
    match l
    case Take => LoopTakeKeepsClean(id, v);
    case Enter => EnterKeepsClean(id, v);
    case Deliver => DeliverKeepsClean(id, v);
    case RemoveFailed =>
  }

  lemma {:induction false} StepKeepsClean(id: RequestId, v: View, st: LocalStep)
    requires CleanInv(id, v) && Enabled(v, st) && Clean(st)
    ensures CleanInv(id, Next(id, v, st))
  {
    match st
    case ByClient(c) => ClientKeepsClean(id, v, c);
    case ByServer(s) => ServerKeepsClean(id, v, s);
    case ByLoop(l) => LoopKeepsClean(id, v, l);
  }

  lemma {:induction false} NewViewClean(id: RequestId, kind: Kind, lock: bool)
    ensures CleanInv(id, NewView(kind, lock))
  {
  }

  // ---------- Who can empty a channel ----------

  /** With the lock free, some goroutine can empty the channel of a request that is not over. */
  lemma {:induction false} SomeoneReceives(id: RequestId, v: View)
    requires CleanInv(id, v) && v.server.chan.buf != [] && !v.lock && !LostAnswer(v)
    ensures exists st :: Progress(ByServer(st)) && Enabled(v, ByServer(st))
  {
    var s := v.server;
    var st := match s.phase
      case Opening => Issue(true)
      case Uploading => UploadSent(true)
      case Waiting => WaiterTake
      case Looking => Lookup
      case Collecting => if s.sink.current == [] then CollectorTake else CollectorWrite
      case Cleaning(_) => CollectorCleanup
      case Closing(_) => ClosePipe
      case Done(_) => ClosePipe;
    if s.phase.Done? {
      assert false;
    }
    assert Progress(ByServer(st)) && Enabled(v, ByServer(st));
  }

  /**
   The loop holds the lock and waits for room, and the one goroutine that will read the channel waits
   for the lock to look it up.
   */
  predicate Jammed(v: View) {
    && v.hand.Locked? && v.hand.m.Chunk?
    && v.server.phase.Looking? && |v.server.chan.buf| == Capacity(v.server.kind)
  }

  /** With the lock held for its own message, a request's channel gets room unless it is jammed. */
  lemma {:induction false} RoomOrJam(id: RequestId, v: View)
    requires CleanInv(id, v) && v.hand.Locked?
    ensures || Enabled(v, ByLoop(Deliver)) || Jammed(v)
            || exists st :: Progress(ByServer(st)) && Enabled(v, ByServer(st))
  {
    DeliverEndsClean(id, v);
    var s := v.server;
    if !CanSend(v) && !s.phase.Looking? {
      var st := match s.phase
        case Opening => Issue(true)
        case Uploading => UploadSent(true)
        case Waiting => WaiterTake
        case _ => if s.sink.current == [] then CollectorTake else CollectorWrite;
      assert Progress(ByServer(st)) && Enabled(v, ByServer(st));
    }
    if !CanSend(v) && v.hand.m.Whole? {
      WholeWaitsForNoOne(id, v);
    }
  }

  /** A complete response is alone in its request, so its channel is empty. */
  lemma {:induction false} WholeWaitsForNoOne(id: RequestId, v: View)
    requires CleanInv(id, v) && v.hand.Locked? && v.hand.m.Whole?
    ensures v.server.chan.buf == []
  {
    DeliverEndsClean(id, v);
    var front := v.server.sink.taken + v.server.chan.buf;
    assert v.client.sent == front + [v.hand.m] + [];
    WholeIsAlone(id, v.client);
    assert |front| == 0;
  }

  /** What a jam takes: more messages than are received before the lookup and fit into the channel. */
  function BeforeJam(kind: Kind): nat {
    Capacity(kind) + if kind.Regular? then 1 else 0
  }

  /** The answer cannot jam: a download, a complete response, or no more chunks than that. */
  predicate Fits(kind: Kind, r: Reply) {
    kind.Download? || !r.StreamBody? || |Emit(0, r.script, 0)| <= BeforeJam(kind)
  }

  lemma {:induction false} EmitCount(id: RequestId, other: RequestId, rs: seq<Read>, num: nat)
    ensures |Emit(id, rs, num)| == |Emit(other, rs, num)|
  {
    if rs != [] && rs[0].status.More? {
      EmitCount(id, other, rs[1..], if rs[0].data == [] then num else num + 1);
    }
  }

  lemma {:induction false} FittingDoesNotJam(id: RequestId, v: View)
    requires CleanInv(id, v) && Fits(v.server.kind, v.client.reply)
    ensures !Jammed(v)
  {
    if v.hand.Locked? && v.hand.m.Chunk? {
      DeliverEndsClean(id, v);
      var s, c := v.server, v.client;
      assert |c.sent| >= |s.sink.taken| + |s.chan.buf| + 1;
      assert c.sent[|s.sink.taken + s.chan.buf|] == v.hand.m;
      CleanSentIsPrefix(id, c);
      if c.reply.StreamBody? {
        EmitCount(0, id, c.reply.script, 0);
      }
    }
  }

  lemma {:induction false} CleanSentIsPrefix(id: RequestId, c: Client)
    requires ClientInv(id, c) && CleanClient(id, c) && c.sent != []
    ensures c.sent <= Script(id, c.reply)
  {
    SentIsCut(id, c);
    assert c.sent[|c.sent| - 1] in c.sent;
  }

  // ---------- When nothing can move any more ----------

  /** None of the request's own goroutines can move, and the stream and the loop hold nothing for it. */
  ghost predicate Stuck(v: View) {
    && v.flight == [] && v.hand.Free? && !v.lock
    && (forall st :: Progress(ByClient(st)) ==> !Enabled(v, ByClient(st)))
    && (forall st :: Progress(ByServer(st)) ==> !Enabled(v, ByServer(st)))
  }

  lemma {:induction false} StuckClientEnded(id: RequestId, v: View)
    requires CleanInv(id, v) && Stuck(v) && !v.client.pc.Unasked?
    ensures v.client.pc.Ended?
  {
    var pc := v.client.pc;
    var st := if pc.Top? then CheckTop else if pc.Reading? then ReadBody
              else if pc.Holding? then CheckSend else SendMsg(true);
    if !pc.Ended? {
      assert Progress(ByClient(st)) && Enabled(v, ByClient(st));
    }
  }

  /**
   When a fault-free request can move no further, its pipe holds exactly the response body, and it
   is closed exactly when the last data came with the end of file (or the response was complete);
   otherwise the server waits for a final chunk that is never sent. The one exception is an upload
   whose complete answer came too early.
   */
  lemma {:induction false} StuckMeansComplete(id: RequestId, v: View)
    requires CleanInv(id, v) && Stuck(v) && !v.client.pc.Unasked? && !LostAnswer(v)
    ensures v.server.sink.pipe == ReplyBody(v.client.reply)
    ensures v.server.sink.closed <==> Terminates(v.client.reply)
    ensures v.server.sink.closed ==> v.server.phase == Done(true)
    ensures !v.server.sink.closed ==> v.server.phase.Waiting? || v.server.phase.Collecting?
  {
    StuckClientEnded(id, v);
    StuckWroteAll(id, v);
    ScriptShape(id, v.client.reply);
    ScriptEnds(id, v.client.reply);
  }

  lemma {:induction false} StuckWroteAll(id: RequestId, v: View)
    requires CleanInv(id, v) && Stuck(v) && !LostAnswer(v)
    ensures v.server.sink.written == v.client.sent
    ensures v.server.phase.Waiting? || v.server.phase.Collecting? || v.server.phase.Done?
  {
    var s := v.server;
    if s.chan.buf != [] {
      SomeoneReceives(id, v);
      assert false;
    }
    assert s.sink.taken == v.client.sent;
    var st := match s.phase
      case Opening => Issue(true)
      case Uploading => UploadSent(true)
      case Looking => Lookup
      case Cleaning(_) => CollectorCleanup
      case Closing(_) => ClosePipe
      case _ => CollectorWrite;
    assert Progress(ByServer(st)) ==> !Enabled(v, ByServer(st));
    assert s.phase.Collecting? ==> s.sink.current == [];
  }

  lemma {:induction false} LostIsComplete(id: RequestId, v: View)
    requires CleanInv(id, v) && LostAnswer(v)
    ensures v.client.reply.CompleteBody? && v.server.sink.pipe == [] && !v.server.sink.closed
  {
    WholeIsAlone(id, v.client);
    assert v.server.sink.written == [];
  }

  lemma {:induction false} ScriptEnds(id: RequestId, r: Reply)
    requires Healthy(r)
    ensures Terminates(r) ==> EndsTerminal(Script(id, r))
    ensures !Terminates(r) ==> NoneTerminal(Script(id, r))
    ensures EndsTerminal(Script(id, r)) ==> !NoneTerminal(Script(id, r))
  {
    var script := Script(id, r);
    if r.StreamBody? {
      FinalChunkIff(id, r.script, 0);
    }
    if EndsTerminal(script) {
      assert script[|script| - 1] in script;
    }
  }
}
