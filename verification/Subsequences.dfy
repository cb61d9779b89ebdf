/** Order-preserving subsequences, used to state what a lossy FIFO channel still guarantees. */
module Subsequences {

  /** `a` can be obtained from `b` by deleting elements, keeping the order of the rest. */
  ghost predicate Subsequence<T>(a: seq<T>, b: seq<T>) {
    if a == [] then true
    else if b == [] then false
    else if a[0] == b[0] then Subsequence(a[1..], b[1..])
    else Subsequence(a, b[1..])
  }

  lemma {:induction false} Reflexive<T>(a: seq<T>)
    ensures Subsequence(a, a)
  {
    if a != [] {
      Reflexive(a[1..]);
    }
  }

  /** Dropping the first element of the smaller sequence keeps the relation. */
  lemma {:induction false} DropHead<T>(a: seq<T>, b: seq<T>)
    requires a != [] && Subsequence(a, b)
    ensures Subsequence(a[1..], b)
    decreases b, 1
  {
    if a[0] == b[0] {
      Weaken(a[1..], b);
    } else {
      DropHead(a, b[1..]);
      Weaken(a[1..], b);
    }
  }

  /** Adding an element in front of the larger sequence keeps the relation. */
  lemma {:induction false} Weaken<T>(a: seq<T>, b: seq<T>)
    requires b != [] && Subsequence(a, b[1..])
    ensures Subsequence(a, b)
    decreases b, 0
  {
    if a != [] && a[0] == b[0] {
      DropHead(a, b[1..]);
    }
  }

  lemma {:induction false} Append<T>(a: seq<T>, b: seq<T>, x: T)
    requires Subsequence(a, b)
    ensures Subsequence(a + [x], b + [x])
    decreases b
  {
    if a == [] {
      Suffix([x], b);
      assert a + [x] == [x];
    } else {
      assert (a + [x])[1..] == a[1..] + [x];
      assert (b + [x])[1..] == b[1..] + [x];
      Append(if a[0] == b[0] then a[1..] else a, b[1..], x);
    }
  }

  lemma {:induction false} Suffix<T>(a: seq<T>, b: seq<T>)
    ensures Subsequence(a, b + a)
    decreases b
  {
    if b == [] {
      assert b + a == a;
      Reflexive(a);
    } else {
      assert (b + a)[1..] == b[1..] + a;
      Suffix(a, b[1..]);
      Weaken(a, b + a);
    }
  }

  /** Deleting one element of the smaller sequence keeps the relation. */
  lemma {:induction false} Delete<T>(p: seq<T>, x: T, q: seq<T>, b: seq<T>)
    requires Subsequence(p + [x] + q, b)
    ensures Subsequence(p + q, b)
    decreases b, p
  {
    var a := p + [x] + q;
    if p == [] {
      assert a[1..] == q && p + q == q;
      DropHead(a, b);
    } else if a[0] == b[0] {
      assert a[1..] == p[1..] + [x] + q && (p + q)[1..] == p[1..] + q;
      Delete(p[1..], x, q, b[1..]);
    } else {
      Delete(p, x, q, b[1..]);
      Weaken(p + q, b);
    }
  }

  /** Every element of a subsequence is an element of the larger sequence. */
  lemma {:induction false} Members<T>(a: seq<T>, b: seq<T>)
    requires Subsequence(a, b)
    ensures forall x :: x in a ==> x in b
  {
    if a != [] {
      if a[0] == b[0] {
        Members(a[1..], b[1..]);
        assert forall x :: x in a ==> x == a[0] || x in a[1..];
      } else {
        Members(a, b[1..]);
      }
    }
  }

  /** Dropping a tail keeps the relation. */
  lemma {:induction false} TakePrefix<T>(p: seq<T>, q: seq<T>, b: seq<T>)
    requires Subsequence(p + q, b)
    ensures Subsequence(p, b)
    decreases |q|
  {
    if q == [] {
      assert p + q == p;
    } else {
      assert p + q == p + [q[0]] + q[1..];
      Delete(p, q[0], q[1..], b);
      TakePrefix(p, q[1..], b);
    }
  }

  /** Extending the larger sequence keeps the relation. */
  lemma {:induction false} Extend<T>(a: seq<T>, b: seq<T>, c: seq<T>)
    requires Subsequence(a, b)
    ensures Subsequence(a, b + c)
    decreases b
  {
    if b != [] {
      assert (b + c)[1..] == b[1..] + c;
      if a != [] {
        Extend(if a[0] == b[0] then a[1..] else a, b[1..], c);
      }
    }
  }

  /** A subsequence is no longer than the sequence, and as long only if it is the sequence. */
  lemma {:induction false} Lengths<T>(a: seq<T>, b: seq<T>)
    requires Subsequence(a, b)
    ensures |a| <= |b| && (|a| == |b| ==> a == b)
    decreases b
  {
    if a != [] {
      if a[0] == b[0] {
        Lengths(a[1..], b[1..]);
        assert a == [a[0]] + a[1..] && b == [b[0]] + b[1..];
      } else {
        Lengths(a, b[1..]);
      }
    }
  }
}
