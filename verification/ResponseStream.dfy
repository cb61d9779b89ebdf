/**
 One request of a tunnel stream, from the client's sending loop to the server's response pipe,
 as a machine whose steps are the atomic actions of the goroutines involved.
 */
module ResponseStream {
  import opened Messages

  // ---------- The client's sending loop ----------

  /** What the local service makes the client answer with. */
  datatype Reply =
    | StreamBody(script: seq<Read>)
    | CompleteBody(content: Bytes)
    | LocalFailure

  /** Where the sending loop stands. */
  datatype ClientPc =
    | Unasked                            // the request has not reached the client
    | Top                                // about to check for cancellation
    | Reading                            // check passed, about to read
    | Holding(msg: Msg, eof: bool)       // chunk built, about to check again
    | Cleared(msg: Msg, eof: bool)       // check passed, about to send
    | Failing                            // about to send an error message
    | Ended

  datatype Client = Client(
    pc: ClientPc,
    reply: Reply,             // meaningful once pc is not Unasked
    rest: seq<Read>,          // reads still to come
    num: nat,                 // chunkNum
    active: bool,             // registered in activeStreams
    cancelled: bool,
    sent: seq<Msg>,           // history: what was put on the stream
    late: nat)                // history: chunks sent after the cancellation

  datatype ClientStep =
    | Accept(reply: Reply)
    | CheckTop
    | StreamTimeout
    | ReadBody
    | CheckSend
    | SendMsg(ok: bool)
    | SendError(ok: bool)
    | Cancel

  const NewClient := Client(Unasked, LocalFailure, [], 0, false, false, [], 0)

  predicate ClientEnabled(c: Client, st: ClientStep) {
    match st
    case Accept(_) => c.pc.Unasked?
    case CheckTop => c.pc.Top?
    case StreamTimeout => c.pc.Reading?
    case ReadBody => c.pc.Reading? && c.rest != []
    case CheckSend => c.pc.Holding?
    case SendMsg(_) => c.pc.Cleared?
    case SendError(_) => c.pc.Failing?
    case Cancel => true
  }

  /** The client starts to answer. */
  function AfterAccept(id: RequestId, c: Client, reply: Reply): Client {
    match reply
    case StreamBody(script) => c.(reply := reply, rest := script, active := true, pc := Top)
    case CompleteBody(content) => c.(reply := reply, pc := Cleared(Whole(id, content), true))
    case LocalFailure => c.(reply := reply, pc := Failing)
  }

  /** The loop reads once. */
  function AfterRead(id: RequestId, c: Client): Client
    requires c.rest != []
  {
    var rd, tail := c.rest[0], c.rest[1..];
    if rd.status.Failed? then c.(rest := tail, pc := Failing)
    else if rd.data == [] then c.(rest := tail, pc := if rd.status.Eof? then Ended else Top)
    else c.(rest := tail, num := c.num + 1,
            pc := Holding(Chunk(id, c.num + 1, rd.data, rd.status.Eof?), rd.status.Eof?))
  }

  function ClientNext(id: RequestId, c: Client, st: ClientStep): Client
    requires ClientEnabled(c, st)
  {
    match st
    case Accept(reply) => AfterAccept(id, c, reply)
    case CheckTop => c.(pc := if c.cancelled then Ended else Reading)
    case StreamTimeout => c.(pc := Failing)
    case ReadBody => AfterRead(id, c)
    case CheckSend => c.(pc := if c.cancelled then Ended else Cleared(c.pc.msg, c.pc.eof))
    case SendMsg(ok) =>
      // a chunk that cannot be sent is reported, a complete response is not
      if !ok then c.(pc := if c.pc.msg.Whole? then Ended else Failing)
      else c.(pc := if c.pc.eof then Ended else Top, sent := c.sent + [c.pc.msg],
              late := if c.cancelled then c.late + 1 else c.late)
    case SendError(ok) => c.(pc := Ended, sent := if ok then c.sent + [Failure(id)] else c.sent)
    case Cancel => if c.active && !c.pc.Ended? then c.(active := false, cancelled := true) else c
  }

  /** What a client step puts on the shared stream. */
  function Emitted(id: RequestId, c: Client, st: ClientStep): seq<Msg>
    requires ClientEnabled(c, st)
  {
    match st
    case SendMsg(ok) => if ok then [c.pc.msg] else []
    case SendError(ok) => if ok then [Failure(id)] else []
    case _ => []
  }

  // ---------- The server's side of the request ----------

  /** Which server function issued the request. */
  datatype Kind = Regular | Download | Upload

  /** Where the goroutine that wants the response stands; `ok` tells a normal end from an error. */
  datatype Phase =
    | Opening
    | Uploading
    | Waiting
    | Looking                  // about to look its channel up, under the stream's lock
    | Collecting
    | Cleaning(ok: bool)
    | Closing(ok: bool)
    | Done(ok: bool)

  /** A response channel and its entry in pendingRequests. */
  datatype Channel = Channel(
    registered: bool,         // in pendingRequests
    open: bool,               // not closed
    closes: nat,              // history: times it was closed
    buf: seq<Msg>)            // its buffer

  /** The receiving end: what was taken from the channel and what the response pipe accepted. */
  datatype Sink = Sink(
    current: seq<Msg>,        // at most one message taken but not yet written
    taken: seq<Msg>,          // history: messages received from the channel
    written: seq<Msg>,        // history: messages whose body the pipe accepted
    pipe: Bytes,
    closed: bool,
    readerGone: bool)

  /** What made the collector stop; history only. */
  datatype End = NotYet | Complete | TimedOut | ChannelClosed | ErrorArrived | WriteFailed

  datatype Server = Server(
    kind: Kind,
    asked: bool,              // the request message was sent to the client
    phase: Phase,
    chan: Channel,
    sink: Sink,
    cleaned: bool,            // history: the stream's cleanup has run since the request was opened
    end: End)                 // history

  datatype ServerStep =
    // issuing the request
    | Issue(ok: bool)
    | UploadSent(ok: bool)
    // waiting for a complete response
    | WaiterTake
    | WaiterNil
    | WaiterGiveUp
    // a request already under way turns to collecting chunks
    | Lookup
    // collector goroutine
    | CollectorTake
    | CollectorWrite
    | CollectorNil
    | CollectorTimeout
    | CollectorCleanup
    | ClosePipe
    // environment
    | ReaderGone
    | Disconnect

  function Capacity(k: Kind): nat {
    if k.Regular? then 1 else 250
  }

  /** The channel has been made and registered. */
  function NewServer(kind: Kind): Server {
    Server(kind, false, Opening, Channel(true, true, 0, []), Sink([], [], [], [], false, false), false,
           NotYet)
  }

  /** Remove the entry and close its channel, if the entry is still there. */
  function Removed(c: Channel): Channel {
    if c.registered then Channel(false, false, c.closes + 1, c.buf) else c
  }

  function Deregister(s: Server): Server {
    s.(chan := Removed(s.chan))
  }

  predicate ServerEnabled(s: Server, st: ServerStep) {
    match st
    case Issue(_) => s.phase.Opening?
    case UploadSent(_) => s.phase.Uploading?
    case WaiterTake => s.phase.Waiting? && s.chan.buf != []
    case WaiterNil => s.phase.Waiting? && s.chan.buf == [] && !s.chan.open
    case WaiterGiveUp => s.phase.Waiting?
    case Lookup => s.phase.Looking?
    case CollectorTake => s.phase.Collecting? && s.sink.current == [] && s.chan.buf != []
    case CollectorWrite => s.phase.Collecting? && s.sink.current != []
    case CollectorNil =>
      s.phase.Collecting? && s.sink.current == [] && s.chan.buf == [] && !s.chan.open
    case CollectorTimeout => s.phase.Collecting? && s.sink.current == []
    case CollectorCleanup => s.phase.Cleaning?
    case ClosePipe => s.phase.Closing?
    case ReaderGone => true
    case Disconnect => true
  }

  /** The head of the channel is received. */
  function Receive(s: Server): Server
    requires s.chan.buf != []
  {
    var m := s.chan.buf[0];
    s.(chan := s.chan.(buf := s.chan.buf[1..]),
       sink := s.sink.(current := [m], taken := s.sink.taken + [m]))
  }

  /** Whether a write to the pipe succeeds; an error message is never written. */
  predicate Accepts(k: Sink, m: Msg) {
    match m
    case Chunk(_, _, body, _) => !k.readerGone || body == []
    case Whole(_, _) => !k.readerGone
    case Failure(_) => false
  }

  function Put(k: Sink, m: Msg): Sink {
    k.(current := [], written := k.written + [m], pipe := k.pipe + Body(m))
  }

  /** A waiter receives a message: a chunk makes it look its channel up again, anything else ends it. */
  function AfterWaiterTake(s: Server): Server
    requires s.chan.buf != []
  {
    var m, s' := s.chan.buf[0], Receive(s);
    match m
    case Chunk(_, _, _, _) => s'.(phase := Looking)
    case Whole(_, _) => s'.(sink := Put(s'.sink, m).(closed := true), phase := Done(true), end := Complete)
    case Failure(_) => s'.(phase := Done(false))
  }

  /** The collector handles the message it took. */
  function AfterWrite(s: Server): Server
    requires s.sink.current != []
  {
    var m := s.sink.current[0];
    if Accepts(s.sink, m) then
      if Terminal(m) then s.(sink := Put(s.sink, m), phase := Cleaning(true), end := Complete)
      else s.(sink := Put(s.sink, m))
    else
      s.(sink := s.sink.(current := []), phase := Cleaning(false),
         end := if m.Failure? then ErrorArrived else WriteFailed)
  }

  function ServerNext(s: Server, st: ServerStep): Server
    requires ServerEnabled(s, st)
  {
    match st
    case Issue(ok) =>
      if ok then
        s.(asked := true,
           phase := match s.kind case Regular => Waiting
                                 case Download => Collecting
                                 case Upload => Uploading)
      else
        // only a regular request takes its entry back
        (if s.kind.Regular? then Deregister(s) else s).(phase := Done(false))
    case UploadSent(ok) => s.(phase := if ok then Looking else Done(false))
    case WaiterTake => AfterWaiterTake(s)
    case WaiterNil => s.(phase := Done(false))
    case WaiterGiveUp => Deregister(s).(phase := Done(false))
    case Lookup => s.(phase := if s.chan.registered then Collecting else Done(false))
    case CollectorTake => Receive(s)
    case CollectorWrite => AfterWrite(s)
    case CollectorNil => s.(phase := Cleaning(false), end := ChannelClosed)
    case CollectorTimeout => s.(phase := Cleaning(false), end := TimedOut)
    case CollectorCleanup => Deregister(s).(phase := Closing(s.phase.ok))
    case ClosePipe => s.(sink := s.sink.(closed := true), phase := Done(s.phase.ok))
    case ReaderGone => s.(sink := s.sink.(readerGone := true))
    case Disconnect => Deregister(s).(cleaned := true)
  }

  // ---------- The server's receive loop ----------

  /** What the receive loop has in hand for this request. */
  datatype Hand =
    | Free
    | Got(m: Msg)      // found the channel, and let go of the lock
    | Locked(m: Msg)   // holds the stream's lock and waits for room in the channel
    | ErrorTail        // delivered an error, has not yet removed the channel
    | Crashed          // sent on, or closed, a closed channel

  datatype LoopStep =
    | Take
    | Enter             // take the lock for a chunk or a complete response
    | Deliver
    | DeliveryTimeout
    | RemoveFailed

  /** A request together with what the shared stream and the receive loop hold of it. */
  datatype View = View(
    client: Client,
    server: Server,
    out: seq<Msg>,       // history: everything put on the stream about the request
    flight: seq<Msg>,
    hand: Hand,
    lock: bool,          // the receive loop holds the stream's lock, for this request or another
    losses: Losses)

  /** What the receive loop has given up or brought to an end for the request; history only. */
  datatype Losses = Losses(
    answers: nat,        // messages of the answer given up after the delivery timeout
    errors: nat,         // errors given up after the delivery timeout
    ended: bool)         // a complete response or an error has removed the entry

  /** The send does not block: there is room, or the channel is closed and the send panics. */
  predicate CanSend(v: View) {
    v.server.chan.open ==> |v.server.chan.buf| < Capacity(v.server.kind)
  }

  predicate LoopEnabled(v: View, st: LoopStep) {
    match st
    case Take => v.hand.Free? && v.flight != []
    case Enter => v.hand.Got? && !v.hand.m.Failure?
    case Deliver => ((v.hand.Got? && v.hand.m.Failure?) || v.hand.Locked?) && CanSend(v)
    case DeliveryTimeout => ((v.hand.Got? && v.hand.m.Failure?) || v.hand.Locked?) && v.server.chan.open
    case RemoveFailed => v.hand.ErrorTail?
  }

  /** The loop removes the entry and is done with the message. */
  function EntryEnded(v: View): View {
    v.(hand := Free, server := Deregister(v.server), losses := v.losses.(ended := true))
  }

  /** The loop takes the lock. Only for a chunk does it look again; a send on a closed channel panics. */
  function AfterEnter(v: View): View
    requires v.hand.Got?
  {
    var m := v.hand.m;
    if m.Chunk? && !v.server.chan.registered then v.(hand := Free)
    else if !v.server.chan.open then v.(hand := Crashed)
    else v.(hand := Locked(m), lock := true)
  }

  /** The message goes into the channel; a complete response is also the end of its entry. */
  function AfterDeliver(v: View): View
    requires v.hand.Got? || v.hand.Locked?
  {
    var s, m := v.server, v.hand.m;
    var full := s.(chan := s.chan.(buf := s.chan.buf + [m]));
    if !s.chan.open then v.(hand := Crashed, lock := false)
    else match m
      case Chunk(_, _, _, _) => v.(hand := Free, lock := false, server := full)
      case Whole(_, _) => EntryEnded(v.(lock := false, server := full))
      case Failure(_) => v.(hand := ErrorTail, lock := false, server := full)
  }

  /** The receive loop gives up delivering. */
  function AfterTimeout(v: View): View
    requires v.hand.Got? || v.hand.Locked?
  {
    var l := v.losses;
    match v.hand.m
    case Chunk(_, _, _, _) => v.(hand := Free, lock := false, losses := l.(answers := l.answers + 1))
    case Whole(_, _) => EntryEnded(v.(lock := false, losses := l.(answers := l.answers + 1)))
    case Failure(_) => v.(hand := ErrorTail, lock := false, losses := l.(errors := l.errors + 1))
  }

  function LoopNext(v: View, st: LoopStep): View
    requires LoopEnabled(v, st)
  {
    match st
    case Take =>
      v.(flight := v.flight[1..], hand := if v.server.chan.registered then Got(v.flight[0]) else Free)
    case Enter => AfterEnter(v)
    case Deliver => AfterDeliver(v)
    case DeliveryTimeout => AfterTimeout(v)
    case RemoveFailed =>
      // the entry is deleted in any case, and the channel closed without a check
      if v.server.chan.open then EntryEnded(v) else v.(hand := Crashed)
  }

  // ---------- The request as a whole ----------

  datatype LocalStep =
    | ByClient(c: ClientStep)
    | ByServer(s: ServerStep)
    | ByLoop(l: LoopStep)
    | UploadError(ok: bool)   // the client's receiving goroutine reports an upload chunk it could not write

  function NewView(kind: Kind, lock: bool): View {
    View(NewClient, NewServer(kind), [], [], Free, lock, Losses(0, 0, false))
  }

  /** The step is a section under the stream's lock, on the server. */
  predicate NeedsLock(v: View, st: LocalStep) {
    match st
    case ByServer(s) =>
      || (s == Issue(false) && v.server.kind.Regular?)
      || s.WaiterGiveUp? || s.Lookup? || s.CollectorCleanup? || s.Disconnect?
    case ByLoop(l) => l.Enter? || l.RemoveFailed?
    case _ => false
  }

  predicate Enabled(v: View, st: LocalStep) {
    && !v.hand.Crashed?
    && (NeedsLock(v, st) ==> !v.lock)
    && match st
       case ByClient(c) => ClientEnabled(v.client, c) && (c.Accept? ==> v.server.asked)
       case ByServer(s) => ServerEnabled(v.server, s)
       case ByLoop(l) => LoopEnabled(v, l)
       case UploadError(_) => v.server.kind.Upload? && v.server.asked
  }

  /** What a step puts on the shared stream. */
  function Sent(id: RequestId, v: View, st: LocalStep): seq<Msg>
    requires Enabled(v, st)
  {
    match st
    case ByClient(c) => Emitted(id, v.client, c)
    case UploadError(ok) => if ok then [Failure(id)] else []
    case _ => []
  }

  function Next(id: RequestId, v: View, st: LocalStep): View
    requires Enabled(v, st)
  {
    var sent := Sent(id, v, st);
    match st
    case ByClient(c) =>
      v.(client := ClientNext(id, v.client, c), out := v.out + sent, flight := v.flight + sent)
    case ByServer(s) => v.(server := ServerNext(v.server, s))
    case ByLoop(l) => LoopNext(v, l)
    case UploadError(_) => v.(out := v.out + sent, flight := v.flight + sent)
  }
}
