/**
 Cutting a response that is wholly in memory into numbered chunks.
 */
module ChunkArithmetic {

  datatype FileChunk<T> = FileChunk(number: nat, data: seq<T>, isFinal: bool, hasHeaders: bool)

  /** How many chunks: the quotient rounded up, and one for an empty body. */
  function NumChunks(size: nat, chunkSize: nat): (n: nat)
    requires chunkSize >= 1
    ensures n >= 1 && (n - 1) * chunkSize <= size <= n * chunkSize
    ensures size > 0 ==> (n - 1) * chunkSize < size
    ensures size == 0 ==> n == 1
  {
    var n := (size + chunkSize - 1) / chunkSize;
    RoundUp(size, chunkSize);
    if n == 0 then 1 else n
  }

  lemma {:induction false} RoundUp(size: nat, c: nat)
    requires c >= 1
    ensures var n := (size + c - 1) / c;
            n >= 0 && size <= n * c && (size > 0 ==> n >= 1 && (n - 1) * c < size) && (size == 0 ==> n == 0)
  {
    var n, r := (size + c - 1) / c, (size + c - 1) % c;
    assert size + c - 1 == n * c + r;
    assert (n - 1) * c == n * c - c;
    assert n >= 1 ==> n * c >= c;
    assert n <= 0 ==> n * c <= 0;
  }

  function Data<T>(chunks: seq<FileChunk<T>>): seq<T> {
    if chunks == [] then [] else chunks[0].data + Data(chunks[1..])
  }

  lemma {:induction false} DataAppend<T>(a: seq<FileChunk<T>>, c: FileChunk<T>)
    ensures Data(a + [c]) == Data(a) + c.data
  {
    if a == [] {
      assert [c][1..] == [];
    } else {
      DataAppend(a[1..], c);
      assert (a + [c])[1..] == a[1..] + [c];
    }
  }

  /**
   The chunks join to the data, are numbered from 1, all but the last are full, only the last is final
   and only the first carries status and headers.
   */
  method StreamResponseInChunks<T>(data: seq<T>, chunkSize: nat) returns (sent: seq<FileChunk<T>>)
    requires chunkSize >= 1
    ensures |sent| == NumChunks(|data|, chunkSize)
    ensures Data(sent) == data
    ensures forall i :: 0 <= i < |sent| ==>
              && sent[i].number == i + 1
              && (sent[i].isFinal <==> i == |sent| - 1)
              && (sent[i].hasHeaders <==> i == 0)
              && |sent[i].data| <= chunkSize
              && (i < |sent| - 1 ==> |sent[i].data| == chunkSize)
    ensures |data| > 0 ==> forall i :: 0 <= i < |sent| ==> sent[i].data != []
  {
    var numChunks := NumChunks(|data|, chunkSize);
    sent := [];
    var i := 0;
    while i < numChunks
      invariant 0 <= i <= numChunks && |sent| == i
      invariant i * chunkSize <= |data| || i == numChunks
      invariant Data(sent) == if i == numChunks then data else data[..i * chunkSize]
      invariant forall j :: 0 <= j < i ==>
                  && sent[j].number == j + 1
                  && (sent[j].isFinal <==> j == numChunks - 1)
                  && (sent[j].hasHeaders <==> j == 0)
                  && |sent[j].data| <= chunkSize
                  && (j < numChunks - 1 ==> |sent[j].data| == chunkSize)
                  && (|data| > 0 ==> sent[j].data != [])
    {
      Bounds(i, numChunks, chunkSize, |data|);
      var start := i * chunkSize;
      var end := start + chunkSize;
      if end > |data| {
        end := |data|;
      }
      var chunk := FileChunk(i + 1, data[start..end], i == numChunks - 1, i == 0);
      DataAppend(sent, chunk);
      assert data[..start] + data[start..end] == data[..end];
      sent := sent + [chunk];
      i := i + 1;
    }
  }

  /** Where chunk `i` starts and ends. */
  lemma {:induction false} Bounds(i: nat, n: nat, c: nat, size: nat)
    requires c >= 1 && i < n && n == NumChunks(size, c)
    ensures i * c <= size && (i + 1) * c == i * c + c
    ensures if i == n - 1 then size <= i * c + c else i * c + c <= size
    ensures size > 0 ==> i * c < size
  {
    Monotone(i, n - 1, c);
    if i < n - 1 {
      Monotone(i + 1, n - 1, c);
    }
    assert (i + 1) * c == i * c + c && n * c == (n - 1) * c + c;
  }

  lemma Monotone(a: nat, b: nat, c: nat)
    requires a <= b
    ensures a * c <= b * c
  {
  }
}
