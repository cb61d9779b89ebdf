/**
 The two loops of a streamed response as they are written: the client's read-and-send loop and the
 server's collector loop.
 */
module StreamingLoops {
  import opened Messages
  import opened ResponseStream
  import opened ResponseSafety

  /** What one turn of the sending loop meets: the outcome of each check, of the read and of the send. */
  datatype Turn = Turn(
    cancelledAtTop: bool, timedOut: bool, read: Read, cancelledBeforeSend: bool,
    sendOk: bool, errorSendOk: bool)

  function Reads(turns: seq<Turn>): (rs: seq<Read>)
    ensures |rs| == |turns|
    ensures forall i :: 0 <= i < |turns| ==> rs[i] == turns[i].read
  {
    seq(|turns|, i requires 0 <= i < |turns| => turns[i].read)
  }

  /** No check fires and every chunk is sent. */
  predicate Calm(t: Turn) {
    !t.cancelledAtTop && !t.timedOut && !t.cancelledBeforeSend && t.sendOk && t.errorSendOk
  }

  /** The loop has sent `out` of the script, and nothing that ends the response. */
  ghost predicate Sending(id: RequestId, rs: seq<Read>, i: nat, num: nat, out: seq<Msg>) {
    i <= |rs| && out + Emit(id, rs[i..], num) == Emit(id, rs, 0) && NoneTerminal(out)
  }

  /** Wherever the loop stops, with or without telling, the script is cut short. */
  lemma {:induction false} CutOff(id: RequestId, rs: seq<Read>, i: nat, num: nat, out: seq<Msg>)
    requires Sending(id, rs, i, num, out)
    ensures CutShort(id, out, Emit(id, rs, 0)) && CutShort(id, out + [Failure(id)], Emit(id, rs, 0))
  {
    assert (out + [Failure(id)])[..|out|] == out;
    assert out <= out + Emit(id, rs[i..], num);
  }

  /** What a read adds to the script, and where the loop is after it. */
  lemma {:induction false} OwedAt(id: RequestId, rs: seq<Read>, i: nat, num: nat, out: seq<Msg>)
    requires Sending(id, rs, i, num, out) && i < |rs|
    ensures var r, script := rs[i], Emit(id, rs, 0);
            var chunk := Chunk(id, num + 1, r.data, r.status.Eof?);
            match r.status
            case Failed => script == out + [Failure(id)]
            case Eof => script == if r.data == [] then out else out + [chunk]
            case More =>
              if r.data == [] then Sending(id, rs, i + 1, num, out)
              else Sending(id, rs, i + 1, num + 1, out + [chunk])
  {
    assert rs[i..][0] == rs[i] && rs[i..][1..] == rs[i + 1..];
    var chunk := Chunk(id, num + 1, rs[i].data, rs[i].status.Eof?);
    if rs[i].status.More? && rs[i].data != [] {
      SeqAssoc(out, [chunk], Emit(id, rs[i + 1..], num + 1));
    }
  }

  lemma SeqAssoc(a: seq<Msg>, b: seq<Msg>, c: seq<Msg>)
    ensures a + (b + c) == a + b + c
  {
  }

  /**
   The client's sending loop. What it sends is a prefix of the chunks of the body, perhaps cut short
   by an error message; on calm turns it is exactly those chunks.
   */
  method StreamResponseInChunksWithContext(id: RequestId, contentLength: int, turns: seq<Turn>)
    returns (out: seq<Msg>)
    ensures contentLength == 0 ==> out == [Whole(id, [])]
    ensures contentLength != 0 ==> CutShort(id, out, Emit(id, Reads(turns), 0))
    ensures contentLength != 0 && (forall i :: 0 <= i < |turns| ==> Calm(turns[i])) ==>
              out == Emit(id, Reads(turns), 0)
  {
    out := [];
    if contentLength == 0 {
      return [Whole(id, [])];
    }
    ghost var rs := Reads(turns);
    var chunkNum := 0;
    var i := 0;
    while i < |turns|
      invariant 0 <= i <= |turns| && Sending(id, rs, i, chunkNum, out)
    {
      var t := turns[i];
      OwedAt(id, rs, i, chunkNum, out);
      CutOff(id, rs, i, chunkNum, out);
      if t.cancelledAtTop {
        return;
      }
      if t.timedOut || t.read.status.Failed? {
        out := if t.errorSendOk then out + [Failure(id)] else out;
        return;
      }
      if t.read.data != [] {
        chunkNum := chunkNum + 1;
        var final := t.read.status.Eof?;
        var chunk := Chunk(id, chunkNum, t.read.data, final);
        if t.cancelledBeforeSend {
          return;
        }
        if !t.sendOk {
          out := if t.errorSendOk then out + [Failure(id)] else out;
          return;
        }
        out := out + [chunk];
      }
      if t.read.status.Eof? {
        return;
      }
      i := i + 1;
    }
  }

  /** What one turn of a collector meets: a message, and whether the pipe takes its body, or the timeout. */
  datatype Arrival = Arrives(m: Msg, pipeTakes: bool) | TimesOut

  /** The turn puts a message into the pipe; an empty chunk is not written, and cannot fail. */
  predicate Accepted(a: Arrival) {
    a.Arrives? && !a.m.Failure? && (a.pipeTakes || (a.m.Chunk? && a.m.body == []))
  }

  /** The messages a collector writes, given its turns until its channel is found closed. */
  function Collected(turns: seq<Arrival>): seq<Msg> {
    if turns == [] || !Accepted(turns[0]) then []
    else [turns[0].m] + if Terminal(turns[0].m) then [] else Collected(turns[1..])
  }

  /** The metadata is that of the first message, written or not. */
  function Metadata(turns: seq<Arrival>): seq<Msg> {
    if turns != [] && turns[0].Arrives? && !turns[0].m.Failure? then [turns[0].m] else []
  }

  /** The turns bring the response to its end. */
  predicate Completes(turns: seq<Arrival>) {
    turns != [] && Accepted(turns[0]) && (Terminal(turns[0].m) || Completes(turns[1..]))
  }

  /** The collector has written `done`, and the rest is decided by the turns from `i` on. */
  ghost predicate Collecting(turns: seq<Arrival>, i: nat, done: seq<Msg>) {
    && i <= |turns|
    && Collected(turns) == done + Collected(turns[i..])
    && Completes(turns) == Completes(turns[i..])
  }

  /** What a turn adds, and where the collector is after it. */
  lemma {:induction false} CollectedAt(turns: seq<Arrival>, i: nat, done: seq<Msg>)
    requires Collecting(turns, i, done) && i < |turns|
    ensures var a := turns[i];
            if !Accepted(a) then Collected(turns) == done && !Completes(turns)
            else if Terminal(a.m) then Collected(turns) == done + [a.m] && Completes(turns)
            else Collecting(turns, i + 1, done + [a.m])
  {
    var tail := turns[i..];
    assert tail[0] == turns[i] && tail[1..] == turns[i + 1..];
    if Accepted(turns[i]) {
      SeqAssoc(done, [turns[i].m], if Terminal(turns[i].m) then [] else Collected(turns[i + 1..]));
    }
  }

  lemma {:induction false} AllCollected(turns: seq<Arrival>, done: seq<Msg>)
    requires Collecting(turns, |turns|, done)
    ensures Collected(turns) == done && !Completes(turns)
  {
    assert turns[|turns|..] == [];
  }

  /** The collector's loop, until its channel is found closed. */
  method CollectLoop(turns: seq<Arrival>) returns (pipe: Bytes, metadata: seq<Msg>, ok: bool)
    ensures pipe == Bodies(Collected(turns)) && metadata == Metadata(turns)
    ensures ok == Completes(turns)
  {
    pipe, metadata, ok := [], [], false;
    ghost var done := [];
    var i := 0;
    while i < |turns|
      invariant 0 <= i <= |turns| && Collecting(turns, i, done)
      invariant pipe == Bodies(done) && metadata == (if i == 0 then [] else Metadata(turns))
      invariant i > 0 ==> metadata != []
    {
      var a := turns[i];
      CollectedAt(turns, i, done);
      if a.TimesOut? || a.m.Failure? {
        return;
      }
      if metadata == [] {
        metadata := [a.m];
      }
      if (a.m.Whole? || |a.m.body| > 0) && !a.pipeTakes {
        return;
      }
      BodiesAppend(done, a.m);
      pipe, done := pipe + a.m.body, done + [a.m];
      if Terminal(a.m) {
        return pipe, metadata, true;
      }
      i := i + 1;
    }
    AllCollected(turns, done);
  }

  /**
   The collector. A first chunk handed over directly gives the same pipe, the same metadata and the
   same outcome as one left at the head of the channel.
   */
  method CollectChunkedResponseNoSend(initialChunk: seq<Arrival>, turns: seq<Arrival>)
    returns (pipe: Bytes, metadata: seq<Msg>, ok: bool)
    requires |initialChunk| <= 1 && forall a :: a in initialChunk ==> a.Arrives? && a.m.Chunk?
    ensures pipe == Bodies(Collected(initialChunk + turns))
    ensures metadata == Metadata(initialChunk + turns)
    ensures ok == Completes(initialChunk + turns)
  {
    if initialChunk == [] {
      pipe, metadata, ok := CollectLoop(turns);
      assert initialChunk + turns == turns;
      return;
    }
    var a := initialChunk[0];
    assert (initialChunk + turns)[1..] == turns && (initialChunk + turns)[0] == a;
    if |a.m.body| > 0 && !a.pipeTakes {
      return [], [a.m], false;
    }
    if a.m.final {
      BodiesAppend([], a.m);
      return a.m.body, [a.m], true;
    }
    pipe, metadata, ok := CollectLoop(turns);
    pipe, metadata := a.m.body + pipe, [a.m];
  }

  /** Every message arrives, and the pipe takes it. */
  function Smoothly(ms: seq<Msg>): (turns: seq<Arrival>)
    ensures |turns| == |ms| && forall i :: 0 <= i < |ms| ==> turns[i] == Arrives(ms[i], true)
  {
    seq(|ms|, i requires 0 <= i < |ms| => Arrives(ms[i], true))
  }

  /** What the sending loop emits for a body, the collecting loop turns back into that body. */
  lemma {:induction false} CollectedScript(id: RequestId, rs: seq<Read>, num: nat)
    requires EndsWithEof(rs)
    ensures var turns := Smoothly(Emit(id, rs, num));
            && Collected(turns) == Emit(id, rs, num)
            && Bodies(Collected(turns)) == DataOf(rs)
            && (Completes(turns) <==> LastDataWithEof(rs))
  {
    EmitCarriesData(id, rs, num);
    if rs[0].status.More? {
      var k := if rs[0].data == [] then 0 else 1;
      CollectedScript(id, rs[1..], num + k);
      if k == 1 {
        var e, t := Emit(id, rs, num), Emit(id, rs[1..], num + 1);
        assert e == [Chunk(id, num + 1, rs[0].data, false)] + t && e[1..] == t;
        assert Smoothly(e)[1..] == Smoothly(t);
      }
    } else if rs[0].data != [] {
      assert Smoothly(Emit(id, rs, num))[1..] == [];
    }
  }
}
