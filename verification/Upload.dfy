/**
 Uploads: the server cuts request bodies into Start, Data and End messages, all sharing one ordered
 stream; the client turns them back into one pipe per upload.
 */
module Upload {
  import opened Messages

  const DefaultChunkSize := 4 * 1024 * 1024

  /** `valid` tells whether a local request can be built from the start message. */
  datatype UploadMsg =
    | Start(id: RequestId, valid: bool)
    | Data(id: RequestId, data: Bytes)
    | End(id: RequestId)

  // ---------- The server's sending loop ----------

  /** What one read makes the loop send. Bytes that come with a read error are still sent. */
  function TurnMessages(id: RequestId, r: Read): seq<UploadMsg> {
    (if r.data == [] then [] else [Data(id, r.data)]) + (if r.status.Eof? then [End(id)] else [])
  }

  /** The messages that follow the start message. */
  function BodyScript(id: RequestId, rs: seq<Read>): seq<UploadMsg> {
    if rs == [] then []
    else TurnMessages(id, rs[0]) + if rs[0].status.More? then BodyScript(id, rs[1..]) else []
  }

  function UploadScript(id: RequestId, valid: bool, rs: seq<Read>): seq<UploadMsg> {
    [Start(id, valid)] + BodyScript(id, rs)
  }

  /** The request body. */
  function UploadBody(rs: seq<Read>): Bytes {
    if rs == [] then []
    else rs[0].data + if rs[0].status.More? then UploadBody(rs[1..]) else []
  }

  /** `Read` never returns more than the buffer holds. */
  predicate FitsBuffer(rs: seq<Read>) {
    forall r :: r in rs ==> |r.data| <= DefaultChunkSize
  }

  function Take<T>(s: seq<T>, n: nat): seq<T> {
    if n < |s| then s[..n] else s
  }

  /** No chunk is empty, and none exceeds the buffer. */
  lemma {:induction false} ChunksFit(id: RequestId, rs: seq<Read>)
    requires FitsBuffer(rs)
    ensures forall m :: m in BodyScript(id, rs) && m.Data? ==> 0 < |m.data| <= DefaultChunkSize
  {
    if rs != [] {
      assert rs[0] in rs && forall r :: r in rs[1..] ==> r in rs;
      ChunksFit(id, rs[1..]);
    }
  }

  lemma {:induction false} TakeConcat<T>(a: seq<T>, b: seq<T>, c: seq<T>, n: nat)
    requires |a| <= n
    ensures |a + b| >= n ==> Take(a + b + c, n) == a + Take(b, n - |a|)
    ensures Take(a + b, n) == a + Take(b, n - |a|)
  {
  }

  /** One turn of the sending loop, on a stream that takes `room` more messages. */
  method SendTurn(id: RequestId, r: Read, room: nat) returns (out: seq<UploadMsg>, goOn: bool)
    ensures out == Take(TurnMessages(id, r), room)
    ensures goOn <==> r.status.More? && |TurnMessages(id, r)| <= room
  {
    out := [];
    if r.data != [] {
      if room == 0 {
        return [], false;
      }
      out := [Data(id, r.data)];
    }
    if r.status.Failed? {
      return out, false;
    }
    if r.status.Eof? {
      if |out| < room {
        out := out + [End(id)];
      }
      return out, false;
    }
    return out, true;
  }

  /** What is left to send when the loop is at read `i`. */
  ghost predicate Owed(id: RequestId, rs: seq<Read>, i: nat, out: seq<UploadMsg>, script: seq<UploadMsg>)
    requires i <= |rs|
  {
    out + BodyScript(id, rs[i..]) == script
  }

  /** A turn that goes on leaves the rest owed; one that does not has sent all that the stream takes. */
  lemma {:induction false} OwedStep(id: RequestId, rs: seq<Read>, i: nat, out: seq<UploadMsg>, script: seq<UploadMsg>,
                                    budget: nat)
    requires i < |rs| && |out| <= budget && Owed(id, rs, i, out, script)
    ensures var turn := TurnMessages(id, rs[i]);
            var out1 := out + Take(turn, budget - |out|);
            && (rs[i].status.More? && |turn| <= budget - |out| ==> Owed(id, rs, i + 1, out1, script))
            && (!(rs[i].status.More? && |turn| <= budget - |out|) ==> out1 == Take(script, budget))
  {
    var turn, tail := TurnMessages(id, rs[i]), BodyScript(id, rs[i + 1..]);
    assert rs[i..][1..] == rs[i + 1..];
    TakeConcat(out, turn, tail, budget);
    if rs[i].status.More? {
      assert script == out + (turn + tail) == out + turn + tail;
    } else {
      assert script == out + (turn + []) == out + turn;
    }
  }

  /** The sending loop, on a stream that accepts `budget` messages and then fails. */
  method HandleLargeFileUploadWithStreaming(id: RequestId, valid: bool, rs: seq<Read>, budget: nat)
    returns (out: seq<UploadMsg>)
    ensures out == Take(UploadScript(id, valid, rs), budget)
  {
    if budget == 0 {
      return [];
    }
    out := [Start(id, valid)];
    ghost var script := UploadScript(id, valid, rs);
    var i := 0;
    while i < |rs|
      invariant 0 <= i <= |rs| && |out| <= budget
      invariant Owed(id, rs, i, out, script)
    {
      OwedStep(id, rs, i, out, script, budget);
      var sent, goOn := SendTurn(id, rs[i], budget - |out|);
      out := out + sent;
      if !goOn {
        return;
      }
      i := i + 1;
    }
    assert rs[i..] == [] && out + [] == script;
  }

  // ---------- The client's session table ----------

  /** The pipe into a local request: what was written, whether it was closed, whether the reader is gone. */
  datatype Pipe = Pipe(bytes: Bytes, closed: bool, readerGone: bool)

  /** `sessions` is the key set of uploadSessions; `pipes` also remembers the pipes of ended uploads. */
  datatype Uploads = Uploads(sessions: set<RequestId>, pipes: map<RequestId, Pipe>)

  datatype Event =
    | Arrive(m: UploadMsg)
    | ReaderDone(id: RequestId)   // the local request is over and closes its end

  function EventId(e: Event): RequestId {
    match e
    case Arrive(m) => m.id
    case ReaderDone(id) => id
  }

  /** One upload as the table holds it. */
  datatype Slot = Slot(session: bool, pipes: seq<Pipe>)

  function SlotOf(u: Uploads, id: RequestId): Slot {
    Slot(id in u.sessions, if id in u.pipes then [u.pipes[id]] else [])
  }

  function SlotStep(s: Slot, e: Event): Slot {
    match e
    case Arrive(Start(_, valid)) => if valid then Slot(true, [Pipe([], false, false)]) else s
    case Arrive(Data(_, data)) =>
      if s.session && s.pipes != [] && !s.pipes[0].readerGone then
        s.(pipes := [s.pipes[0].(bytes := s.pipes[0].bytes + data)])
      else s
    case Arrive(End(_)) =>
      if s.session && s.pipes != [] then Slot(false, [s.pipes[0].(closed := true)])
      else s.(session := false)
    case ReaderDone(_) =>
      if s.pipes != [] then s.(pipes := [s.pipes[0].(readerGone := true)]) else s
  }

  class SessionTable {
    var sessions: set<RequestId>
    var pipes: map<RequestId, Pipe>

    constructor ()
      ensures State() == Uploads({}, map[])
    {
      sessions, pipes := {}, map[];
    }

    ghost function State(): Uploads
      reads this
    {
      Uploads(sessions, pipes)
    }

    /** Only the upload the message is about changes. */
    twostate predicate Handles(e: Event)
      reads this
    {
      && SlotOf(State(), EventId(e)) == SlotStep(SlotOf(old(State()), EventId(e)), e)
      && forall i :: i != EventId(e) ==> SlotOf(State(), i) == SlotOf(old(State()), i)
    }

    method HandleUploadStart(id: RequestId, valid: bool)
      modifies this
      ensures Handles(Arrive(Start(id, valid)))
    {
      if valid {
        sessions := sessions + {id};
        pipes := pipes[id := Pipe([], false, false)];
      }
    }

    method HandleUploadChunk(id: RequestId, data: Bytes) returns (failed: bool)
      modifies this
      ensures Handles(Arrive(Data(id, data)))
      ensures failed ==> id in pipes && pipes[id].readerGone
    {
      failed := false;
      assert data == [] && id in pipes ==> pipes[id].bytes + data == pipes[id].bytes;
      if id in sessions && id in pipes && |data| > 0 {
        if pipes[id].readerGone {
          return true;
        }
        pipes := pipes[id := pipes[id].(bytes := pipes[id].bytes + data)];
      }
    }

    method HandleUploadEnd(id: RequestId)
      modifies this
      ensures Handles(Arrive(End(id)))
    {
      if id in sessions && id in pipes {
        pipes := pipes[id := pipes[id].(closed := true)];
      }
      sessions := sessions - {id};
    }

    method ReaderIsDone(id: RequestId)
      modifies this
      ensures Handles(ReaderDone(id))
    {
      if id in pipes {
        pipes := pipes[id := pipes[id].(readerGone := true)];
      }
    }

    /** Handle everything that arrives, in order. */
    method Run(log: seq<Event>)
      requires State() == Uploads({}, map[])
      modifies this
      ensures forall i :: SlotOf(State(), i) == SlotAfter(log, i)
    {
      var k := 0;
      while k < |log|
        invariant 0 <= k <= |log|
        invariant forall i :: SlotOf(State(), i) == SlotAfter(log[..k], i)
      {
        ghost var before := State();
        match log[k] {
          case Arrive(Start(id, valid)) => HandleUploadStart(id, valid);
          case Arrive(Data(id, data)) => var _ := HandleUploadChunk(id, data);
          case Arrive(End(id)) => HandleUploadEnd(id);
          case ReaderDone(id) => ReaderIsDone(id);
        }
        ghost var upTo := log[..k + 1];
        assert upTo[..k] == log[..k] && upTo[k] == log[k];
        k := k + 1;
      }
      assert log[..k] == log;
    }
  }

  /** What the table holds of an upload after a log of events. */
  function SlotAfter(log: seq<Event>, id: RequestId): Slot {
    if log == [] then Slot(false, [])
    else
      var s := SlotAfter(log[..|log| - 1], id);
      var e := log[|log| - 1];
      if EventId(e) == id then SlotStep(s, e) else s
  }

  // ---------- Round trip ----------

  /** The upload messages of one request, in the order of the stream. */
  function MessagesOf(log: seq<Event>, id: RequestId): seq<UploadMsg> {
    if log == [] then []
    else
      var e := log[|log| - 1];
      MessagesOf(log[..|log| - 1], id) + if e.Arrive? && e.m.id == id then [e.m] else []
  }

  /** The bytes a list of messages carries. */
  function DataIn(ms: seq<UploadMsg>): Bytes {
    if ms == [] then []
    else DataIn(ms[..|ms| - 1]) + if ms[|ms| - 1].Data? then ms[|ms| - 1].data else []
  }

  ghost predicate Ends(ms: seq<UploadMsg>) {
    ms != [] && ms[|ms| - 1].End?
  }

  /** A script starts once, ends at most once, and carries the body in between. */
  lemma {:induction false} BodyScriptShape(id: RequestId, rs: seq<Read>, i: nat)
    requires i < |BodyScript(id, rs)|
    ensures var m := BodyScript(id, rs)[i];
            m.id == id && !m.Start? && (m.End? ==> i == |BodyScript(id, rs)| - 1)
  {
    var k := |TurnMessages(id, rs[0])|;
    if i >= k {
      BodyScriptShape(id, rs[1..], i - k);
      assert BodyScript(id, rs)[k..] == BodyScript(id, rs[1..]);
    }
  }

  lemma {:induction false} DataInConcat(a: seq<UploadMsg>, b: seq<UploadMsg>)
    ensures DataIn(a + b) == DataIn(a) + DataIn(b)
  {
    if b == [] {
      assert a + b == a;
    } else {
      assert (a + b)[..|a + b| - 1] == a + b[..|b| - 1];
      DataInConcat(a, b[..|b| - 1]);
    }
  }

  lemma {:induction false} ScriptCarriesBody(id: RequestId, rs: seq<Read>)
    ensures DataIn(BodyScript(id, rs)) == UploadBody(rs)
    ensures EndsWithEof(rs) ==> Ends(BodyScript(id, rs))
  {
    if rs != [] {
      var turn := TurnMessages(id, rs[0]);
      TurnCarriesData(id, rs[0]);
      if rs[0].status.More? {
        ScriptCarriesBody(id, rs[1..]);
        DataInConcat(turn, BodyScript(id, rs[1..]));
      } else {
        assert BodyScript(id, rs) == turn;
      }
    }
  }

  lemma {:induction false} TurnCarriesData(id: RequestId, r: Read)
    ensures DataIn(TurnMessages(id, r)) == r.data
    ensures r.status.Eof? ==> Ends(TurnMessages(id, r))
  {
    var d := if r.data == [] then [] else [Data(id, r.data)];
    var e := if r.status.Eof? then [End(id)] else [];
    DataInConcat(d, e);
    assert d != [] ==> d[..0] == [];
    assert e != [] ==> e[..0] == [];
  }

  /** What has arrived of an upload tells everything about its session and its pipe. */
  ghost predicate Faithful(s: Slot, ms: seq<UploadMsg>, valid: bool) {
    if ms == [] || !valid then s == Slot(false, [])
    else
      && |s.pipes| == 1
      && s.session == !Ends(ms)
      && s.pipes[0].closed == Ends(ms)
      && s.pipes[0].bytes <= DataIn(ms)
      && (!s.pipes[0].readerGone ==> s.pipes[0].bytes == DataIn(ms))
  }

  /**
   However the uploads are interleaved on the stream, at every moment a session is in the table
   exactly from its start to its end, and its pipe holds what has arrived of its own body, cut short
   only if the local request ended early.
   */
  lemma {:induction false} UploadSafety(log: seq<Event>, id: RequestId, valid: bool, rs: seq<Read>)
    requires MessagesOf(log, id) <= UploadScript(id, valid, rs)
    ensures Faithful(SlotAfter(log, id), MessagesOf(log, id), valid)
  {
    if log != [] {
      var front, e := log[..|log| - 1], log[|log| - 1];
      UploadSafety(front, id, valid, rs);
      if e.Arrive? && e.m.id == id {
        var prev := MessagesOf(front, id);
        assert MessagesOf(log, id) == prev + [e.m];
        ScriptGoesOn(id, valid, rs, prev, e.m);
        ArrivalKeepsFaithful(SlotAfter(front, id), prev, e.m, valid);
      } else {
        assert MessagesOf(log, id) == MessagesOf(front, id);
      }
    }
  }

  /** A script starts with its one start message, and nothing follows its end. */
  lemma {:induction false} ScriptGoesOn(id: RequestId, valid: bool, rs: seq<Read>, prev: seq<UploadMsg>, m: UploadMsg)
    requires prev + [m] <= UploadScript(id, valid, rs)
    ensures prev == [] ==> m == Start(id, valid)
    ensures prev != [] ==> !m.Start? && !Ends(prev)
  {
    var script := UploadScript(id, valid, rs);
    assert (prev + [m])[|prev|] == m && script[|prev|] == m && script[1..] == BodyScript(id, rs);
    if prev != [] {
      BodyScriptShape(id, rs, |prev| - 1);
      if |prev| > 1 {
        BodyScriptShape(id, rs, |prev| - 2);
        assert prev[|prev| - 1] == (prev + [m])[|prev| - 1] == script[1..][|prev| - 2];
      } else {
        assert prev[0] == (prev + [m])[0] == script[0];
      }
    }
  }

  lemma {:induction false} ArrivalKeepsFaithful(s: Slot, prev: seq<UploadMsg>, m: UploadMsg, valid: bool)
    requires Faithful(s, prev, valid)
    requires if prev == [] then m == Start(m.id, valid) else !m.Start? && !Ends(prev)
    ensures Faithful(SlotStep(s, Arrive(m)), prev + [m], valid)
  {
    assert (prev + [m])[..|prev|] == prev;
    assert DataIn(prev + [m]) == DataIn(prev) + if m.Data? then m.data else [];
  }

  /** An upload that arrives whole leaves no session, and a closed pipe with exactly its body. */
  lemma {:induction false} UploadRoundTrip(log: seq<Event>, id: RequestId, rs: seq<Read>)
    requires EndsWithEof(rs) && MessagesOf(log, id) == UploadScript(id, true, rs)
    ensures var s := SlotAfter(log, id);
            && !s.session && |s.pipes| == 1 && s.pipes[0].closed
            && s.pipes[0].bytes <= UploadBody(rs)
            && (!s.pipes[0].readerGone ==> s.pipes[0].bytes == UploadBody(rs))
  {
    UploadSafety(log, id, true, rs);
    ScriptCarriesBody(id, rs);
    var script := UploadScript(id, true, rs);
    DataInConcat([Start(id, true)], BodyScript(id, rs));
    assert DataIn([Start(id, true)]) == DataIn([Start(id, true)][..0]);
    assert script[|script| - 1] == BodyScript(id, rs)[|script| - 2];
  }

  /** Events about other uploads change nothing for this one. */
  lemma {:induction false} UploadsAreIndependent(log: seq<Event>, id: RequestId)
    ensures SlotAfter(log, id) == SlotAfter(OwnEvents(log, id), id)
  {
    if log != [] {
      var front, e := log[..|log| - 1], log[|log| - 1];
      UploadsAreIndependent(front, id);
      var own := OwnEvents(log, id);
      if EventId(e) == id {
        assert own[..|own| - 1] == OwnEvents(front, id);
      } else {
        assert own == OwnEvents(front, id);
      }
    }
  }

  function OwnEvents(log: seq<Event>, id: RequestId): seq<Event> {
    if log == [] then []
    else
      var e := log[|log| - 1];
      OwnEvents(log[..|log| - 1], id) + if EventId(e) == id then [e] else []
  }
}
