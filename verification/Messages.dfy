/**
 The messages a tunnel client sends back over the shared gRPC stream, and the reference
 meaning of a response body: which chunks a sequence of reads turns into.
 */
module Messages {
  import Sub = Subsequences

  /** Request identifiers. Two requests never share one. */
  type RequestId = nat

  newtype Byte = b: int | 0 <= b < 256

  type Bytes = seq<Byte>

  /** How a call of the body's `Read` ended: more to come, end of file, or another error. */
  datatype ReadStatus = More | Eof | Failed

  /** One result of `Read`: the bytes it put in the buffer, and its error. */
  datatype Read = Read(data: Bytes, status: ReadStatus)

  /**
   A client-to-server message about one request. `Chunk` is an HTTP response with IsChunked set,
   `final` standing for the `_final` suffix of its chunk id; `Whole` is a complete response;
   `Failure` is an error message.
   */
  datatype Msg =
    | Chunk(id: RequestId, num: nat, body: Bytes, final: bool)
    | Whole(id: RequestId, body: Bytes)
    | Failure(id: RequestId)

  function Body(m: Msg): Bytes {
    if m.Failure? then [] else m.body
  }

  /** A receiver stops after a terminal message. */
  predicate Terminal(m: Msg) {
    m.Chunk? ==> m.final
  }

  /** The last message is terminal. */
  predicate EndsTerminal(ms: seq<Msg>) {
    ms != [] && Terminal(ms[|ms| - 1])
  }

  /** The bytes a list of messages carries. */
  function Bodies(ms: seq<Msg>): Bytes {
    if ms == [] then [] else Body(ms[0]) + Bodies(ms[1..])
  }

  lemma {:induction false} BodiesConcat(a: seq<Msg>, b: seq<Msg>)
    ensures Bodies(a + b) == Bodies(a) + Bodies(b)
  {
    if a == [] {
      assert a + b == b;
    } else {
      assert (a + b)[1..] == a[1..] + b;
      BodiesConcat(a[1..], b);
    }
  }

  lemma BodiesAppend(a: seq<Msg>, m: Msg)
    ensures Bodies(a + [m]) == Bodies(a) + Body(m)
  {
    BodiesConcat(a, [m]);
    assert Bodies([m]) == Body(m) + Bodies([]);
  }

  /** A prefix of a message list carries a prefix of its bytes. */
  lemma BodiesPrefix(a: seq<Msg>, b: seq<Msg>)
    requires a <= b
    ensures Bodies(a) <= Bodies(b)
  {
    BodiesConcat(a, b[|a|..]);
    assert b == a + b[|a|..];
  }

  /** The bytes a body yields before its end of file; bytes that come with an error are not part of it. */
  function DataOf(rs: seq<Read>): Bytes {
    if rs == [] || rs[0].status.Failed? then []
    else if rs[0].status.Eof? then rs[0].data
    else rs[0].data + DataOf(rs[1..])
  }

  /** The messages the sending loop still owes when it has numbered `num` chunks and will see the reads `rs`. */
  function Emit(id: RequestId, rs: seq<Read>, num: nat): seq<Msg> {
    if rs == [] then []
    else
      var r := rs[0];
      if r.status.Failed? then [Failure(id)]
      else if r.data == [] then
        if r.status.Eof? then [] else Emit(id, rs[1..], num)
      else
        [Chunk(id, num + 1, r.data, r.status.Eof?)]
        + if r.status.Eof? then [] else Emit(id, rs[1..], num + 1)
  }

  /** The body ends, without a read error. */
  predicate EndsWithEof(rs: seq<Read>) {
    rs != [] && !rs[0].status.Failed?
    && (rs[0].status.Eof? || EndsWithEof(rs[1..]))
  }

  /** The read that reports the end of file is one that also returns data. */
  predicate LastDataWithEof(rs: seq<Read>) {
    rs != [] && !rs[0].status.Failed?
    && if rs[0].status.Eof? then rs[0].data != [] else LastDataWithEof(rs[1..])
  }

  /** The chunks carry exactly the body. */
  lemma {:induction false} EmitCarriesData(id: RequestId, rs: seq<Read>, num: nat)
    ensures Bodies(Emit(id, rs, num)) == DataOf(rs)
  {
    if rs != [] && !rs[0].status.Failed? {
      if !rs[0].status.Eof? {
        EmitCarriesData(id, rs[1..], if rs[0].data == [] then num else num + 1);
      }
      if rs[0].data != [] {
        var tail := Emit(id, rs, num)[1..];
        assert Bodies(Emit(id, rs, num)) == rs[0].data + Bodies(tail);
      }
    }
  }

  /** The chunks belong to the request, are numbered consecutively, and only the last can be terminal. */
  lemma {:induction false} EmitShape(id: RequestId, rs: seq<Read>, num: nat)
    ensures forall i :: 0 <= i < |Emit(id, rs, num)| ==>
              var m := Emit(id, rs, num)[i];
              && m.id == id && !m.Whole?
              && (m.Chunk? ==> m.num == num + 1 + i && m.body != [])
              && (Terminal(m) ==> i == |Emit(id, rs, num)| - 1)
  {
    if rs != [] && rs[0].status.More? {
      var k := if rs[0].data == [] then 0 else 1;
      EmitShape(id, rs[1..], num + k);
      var e, t := Emit(id, rs, num), Emit(id, rs[1..], num + k);
      assert e == (if k == 0 then [] else [Chunk(id, num + 1, rs[0].data, false)]) + t;
      forall i | 0 <= i < |e|
        ensures e[i].id == id && !e[i].Whole? && (e[i].Chunk? ==> e[i].num == num + 1 + i && e[i].body != [])
        ensures Terminal(e[i]) ==> i == |e| - 1
      {
        assert i >= k ==> e[i] == t[i - k];
      }
    }
  }

  /** A body that ends properly is closed by a final chunk exactly when its last data came with the end of file. */
  lemma {:induction false} FinalChunkIff(id: RequestId, rs: seq<Read>, num: nat)
    requires EndsWithEof(rs)
    ensures LastDataWithEof(rs) <==>
              var e := Emit(id, rs, num);
              e != [] && e[|e| - 1].Chunk? && e[|e| - 1].final
    ensures forall m :: m in Emit(id, rs, num) ==> m.Chunk?
    ensures !LastDataWithEof(rs) ==> forall m :: m in Emit(id, rs, num) ==> !Terminal(m)
  {
    if rs[0].status.More? {
      var k := if rs[0].data == [] then 0 else 1;
      FinalChunkIff(id, rs[1..], num + k);
      var e, t := Emit(id, rs, num), Emit(id, rs[1..], num + k);
      if k == 1 {
        assert e == [Chunk(id, num + 1, rs[0].data, false)] + t;
      }
    }
  }

  // ---------- The answer among the messages ----------

  /** The messages that carry the answer: all but the errors. */
  function Answer(ms: seq<Msg>): seq<Msg> {
    if ms == [] then []
    else (if ms[0].Failure? then [] else [ms[0]]) + Answer(ms[1..])
  }

  lemma {:induction false} AnswerConcat(a: seq<Msg>, b: seq<Msg>)
    ensures Answer(a + b) == Answer(a) + Answer(b)
  {
    if a == [] {
      assert a + b == b;
    } else {
      AnswerConcat(a[1..], b);
      assert (a + b)[1..] == a[1..] + b;
      var first := if a[0].Failure? then [] else [a[0]];
      assert first + (Answer(a[1..]) + Answer(b)) == (first + Answer(a[1..])) + Answer(b);
    }
  }

  lemma {:induction false} AnswerOne(m: Msg)
    ensures Answer([m]) == if m.Failure? then [] else [m]
  {
    assert [m][1..] == [];
  }

  lemma {:induction false} AnswerPrefix(a: seq<Msg>, b: seq<Msg>)
    requires a <= b
    ensures Answer(a) <= Answer(b)
  {
    AnswerConcat(a, b[|a|..]);
    assert b == a + b[|a|..];
  }

  /** Messages without an error are all of the answer. */
  lemma {:induction false} AnswerOfAnswer(ms: seq<Msg>)
    requires forall m :: m in ms ==> !m.Failure?
    ensures Answer(ms) == ms
  {
    if ms != [] {
      assert ms[0] in ms && forall m :: m in ms[1..] ==> m in ms;
      AnswerOfAnswer(ms[1..]);
    }
  }

  lemma {:induction false} AnswerHasNoError(ms: seq<Msg>)
    ensures |Answer(ms)| <= |ms|
    ensures forall m :: m in Answer(ms) ==> m in ms && !m.Failure?
  {
    if ms != [] {
      AnswerHasNoError(ms[1..]);
    }
  }

  lemma {:induction false} AnswerBodies(ms: seq<Msg>)
    ensures Bodies(Answer(ms)) == Bodies(ms)
  {
    if ms != [] {
      AnswerBodies(ms[1..]);
      AnswerOne(ms[0]);
      BodiesConcat(Answer([ms[0]]), Answer(ms[1..]));
      assert Bodies([ms[0]]) == Body(ms[0]) + Bodies([]);
    }
  }

  /** What is found among the answer is found, in order, among all messages. */
  lemma {:induction false} AnswerWeaken(a: seq<Msg>, b: seq<Msg>)
    requires Sub.Subsequence(a, Answer(b))
    ensures Sub.Subsequence(a, b)
    decreases b
  {
    if a != [] && b != [] {
      if b[0].Failure? {
        assert Answer(b) == [] + Answer(b[1..]) == Answer(b[1..]);
        AnswerWeaken(a, b[1..]);
        Sub.Weaken(a, b);
      } else {
        assert Answer(b)[1..] == Answer(b[1..]);
        if a[0] == b[0] {
          AnswerWeaken(a[1..], b[1..]);
        } else {
          AnswerWeaken(a, b[1..]);
        }
      }
    }
  }

  /** A subsequence's answer is a subsequence of the answer. */
  lemma {:induction false} AnswerSubsequence(a: seq<Msg>, b: seq<Msg>)
    requires Sub.Subsequence(a, b)
    ensures Sub.Subsequence(Answer(a), Answer(b))
    decreases b
  {
    if a != [] {
      if a[0] == b[0] {
        AnswerSubsequence(a[1..], b[1..]);
        if a[0].Failure? {
          assert Answer(a) == [] + Answer(a[1..]) == Answer(a[1..]);
          assert Answer(b) == [] + Answer(b[1..]) == Answer(b[1..]);
        } else {
          assert Answer(a)[1..] == Answer(a[1..]) && Answer(b)[1..] == Answer(b[1..]);
        }
      } else {
        AnswerSubsequence(a, b[1..]);
        if b[0].Failure? {
          assert Answer(b) == [] + Answer(b[1..]) == Answer(b[1..]);
        } else {
          assert Answer(b)[1..] == Answer(b[1..]);
          Sub.Weaken(Answer(a), Answer(b));
        }
      }
    }
  }
}
