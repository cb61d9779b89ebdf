/**
 Round-robin selection: a 64-bit counter is incremented and reduced modulo the size of the pool.
 */
module RoundRobin {

  const TWO_TO_64 := 0x1_0000_0000_0000_0000

  /** The counter after one atomic increment. */
  function Advance(counter: nat): (next: nat)
    requires counter < TWO_TO_64
    ensures next < TWO_TO_64
  {
    (counter + 1) % TWO_TO_64
  }

  /** The positions that `calls` successive selections pick in a pool of `n`. */
  function Picks(counter: nat, n: nat, calls: nat): seq<nat>
    requires n > 0 && counter < TWO_TO_64
    decreases calls
  {
    if calls == 0 then []
    else [Advance(counter) % n] + Picks(Advance(counter), n, calls - 1)
  }

  /** How often position `i` is picked. */
  function Hits(picks: seq<nat>, i: nat): nat {
    if picks == [] then 0 else (if picks[0] == i then 1 else 0) + Hits(picks[1..], i)
  }

  // ---------- Integer division ----------

  lemma {:induction false} MulMonotone(a: int, b: int, n: int)
    requires a <= b && n >= 0
    ensures a * n <= b * n
  {
    assert (b - a) * n >= 0;
  }

  lemma {:induction false} Quotient(x: int, n: int, q: int, r: int)
    requires n > 0 && x == q * n + r && 0 <= r < n
    ensures x / n == q && x % n == r
  {
    assert x == n * (x / n) + x % n;
    if x / n > q {
      MulMonotone(q + 1, x / n, n);
    } else if x / n < q {
      MulMonotone(x / n + 1, q, n);
    }
  }

  lemma {:induction false} DivStep(x: int, n: int)
    requires n > 0
    ensures (x + 1) / n == x / n + if (x + 1) % n == 0 then 1 else 0
  {
    var q, r := x / n, x % n;
    if r + 1 < n {
      Quotient(x + 1, n, q, r + 1);
    } else {
      Quotient(x + 1, n, q + 1, 0);
    }
  }

  lemma {:induction false} ModShift(x: int, n: int, i: int)
    requires n > 0 && 0 <= i < n
    ensures x % n == i <==> (x - i) % n == 0
  {
    var q, r := x / n, x % n;
    if r >= i {
      Quotient(x - i, n, q, r - i);
    } else {
      Quotient(x - i, n, q - 1, r - i + n);
    }
  }

  /** `x` split into whole multiples of `n` and a remainder. */
  lemma {:induction false} Split(x: int, n: int)
    requires n > 0
    ensures x == (x / n) * n + x % n && 0 <= x % n < n
  {
  }

  /** A window of `k` integers holds k/n multiples of n, rounded down or up; exactly k/n if n divides k. */
  lemma {:induction false} WindowBounds(x: int, n: int, k: nat)
    requires n > 0
    ensures k / n <= (x + k) / n - x / n <= k / n + if k % n == 0 then 0 else 1
  {
    var q, r, a, b := x / n, x % n, k / n, k % n;
    Split(x, n);
    Split(k, n);
    Distribute(q, a, n);
    if r + b < n {
      Quotient(x + k, n, q + a, r + b);
    } else {
      Distribute(q + a, 1, n);
      Quotient(x + k, n, q + a + 1, r + b - n);
    }
  }

  lemma Distribute(a: int, b: int, n: int)
    ensures (a + b) * n == a * n + b * n
  {
  }

  // ---------- Fairness ----------

  lemma {:induction false} HitsUnfold(counter: nat, n: nat, calls: nat, i: nat)
    requires i < n && calls > 0 && counter + 1 < TWO_TO_64
    ensures Hits(Picks(counter, n, calls), i)
            == (if (counter + 1) % n == i then 1 else 0) + Hits(Picks(counter + 1, n, calls - 1), i)
  {
    assert Advance(counter) == counter + 1;
    var picks := Picks(counter, n, calls);
    assert picks[0] == (counter + 1) % n && picks[1..] == Picks(counter + 1, n, calls - 1);
  }

  /** One call moves the quotient on exactly when it picks position `i`. */
  lemma {:induction false} QuotientMoves(counter: nat, n: nat, i: nat)
    requires i < n
    ensures (counter + 1 - i) / n - (counter - i) / n == if (counter + 1) % n == i then 1 else 0
  {
    DivStep(counter - i, n);
    ModShift(counter + 1, n, i);
    assert counter - i + 1 == counter + 1 - i;
  }

  /** Without a wrap of the counter, hits are a difference of quotients. */
  lemma {:induction false} HitsClosedForm(counter: nat, n: nat, calls: nat, i: nat)
    requires i < n && counter + calls < TWO_TO_64
    ensures Hits(Picks(counter, n, calls), i) == (counter + calls - i) / n - (counter - i) / n
    decreases calls
  {
    if calls > 0 {
      HitsClosedForm(counter + 1, n, calls - 1, i);
      assert counter + 1 + (calls - 1) - i == counter + calls - i;
      HitsUnfold(counter, n, calls, i);
      QuotientMoves(counter, n, i);
    }
  }

  /**
   Fairness: over any window of calls on an unchanged pool, without a wrap of the counter, any two
   connections are picked equally often up to one; k·n calls pick each exactly k times.
   */
  lemma {:induction false} Fairness(counter: nat, n: nat, calls: nat, i: nat, j: nat)
    requires i < n && j < n && counter + calls < TWO_TO_64
    ensures var p := Picks(counter, n, calls);
            -1 <= Hits(p, i) - Hits(p, j) <= 1
            && (calls % n == 0 ==> Hits(p, i) == calls / n)
  {
    HitsClosedForm(counter, n, calls, i);
    HitsClosedForm(counter, n, calls, j);
    WindowBounds(counter - i, n, calls);
    WindowBounds(counter - j, n, calls);
  }

  /**
   The rotation moves on by one position at every call, except exactly when the counter wraps and the
   size of the pool does not divide 2^64.
   */
  lemma {:induction false} RotationIff(counter: nat, n: nat)
    requires n > 0 && counter < TWO_TO_64
    ensures Advance(counter) % n == (counter % n + 1) % n
            <==> counter < TWO_TO_64 - 1 || TWO_TO_64 % n == 0
  {
    SuccessorMod(counter, n);
    if counter < TWO_TO_64 - 1 {
      assert Advance(counter) == counter + 1;
    } else {
      assert Advance(counter) == 0;
      Quotient(0, n, 0, 0);
    }
  }

  lemma {:induction false} SuccessorMod(x: int, n: int)
    requires n > 0
    ensures (x + 1) % n == (x % n + 1) % n
  {
    var q, r := x / n, x % n;
    Split(x, n);
    if r + 1 < n {
      Quotient(x + 1, n, q, r + 1);
      Quotient(r + 1, n, 0, r + 1);
    } else {
      Distribute(q, 1, n);
      Quotient(x + 1, n, q + 1, 0);
      Quotient(n, n, 1, 0);
    }
  }
}
