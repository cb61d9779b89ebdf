/**
 The two reconnection loops: the gRPC client's, with its circuit breaker, on exact nanoseconds; and the
 tunnel's, with its jitter, on real-valued durations.
 */
module Backoff {

  // ---------- Reconnecting the gRPC stream ----------

  const Second: nat := 1_000_000_000
  const ReconnectDelay := Second
  const DelayCap := 30 * Second
  const LongDelay := 300 * Second
  const MaxConsecutiveFailures := 10

  datatype Attempt = Connects | Fails | FailsFatally   // a certificate or configuration error is fatal

  datatype Ended = Connected | GaveUp | Fatal | Stopped

  /** The delay and the run of failures that the loop carries from one attempt to the next. */
  datatype Pace = Pace(delay: nat, failures: nat)

  const FreshPace := Pace(ReconnectDelay, 0)

  /** A duration times the default multiplier 1.5, truncated to nanoseconds. */
  function Grown(delay: nat): nat {
    delay * 3 / 2
  }

  /** How long the loop sleeps after one more failure, and the pace it goes on with. */
  function AfterFailure(p: Pace): (nat, Pace) {
    if p.failures + 1 >= MaxConsecutiveFailures then (LongDelay, FreshPace)
    else
      var next := Grown(p.delay);
      (p.delay, Pace(if next > DelayCap then DelayCap else next, p.failures + 1))
  }

  function PaceAfter(n: nat): Pace {
    if n == 0 then FreshPace else AfterFailure(PaceAfter(n - 1)).1
  }

  /** The sleep that follows failure number `n`, counted from 0. */
  function SleepAfter(n: nat): nat {
    AfterFailure(PaceAfter(n)).0
  }

  function Sum(f: nat -> nat, n: nat): nat {
    if n == 0 then 0 else Sum(f, n - 1) + f(n - 1)
  }

  function TotalSleep(n: nat): nat {
    Sum(SleepAfter, n)
  }

  function Failures(attempts: seq<Attempt>): (n: nat)
    ensures n <= |attempts| && (n < |attempts| ==> !attempts[n].Fails?)
    ensures forall i :: 0 <= i < n ==> attempts[i].Fails?
  {
    if attempts == [] || !attempts[0].Fails? then 0 else 1 + Failures(attempts[1..])
  }

  lemma {:induction false} FailuresAre(attempts: seq<Attempt>, n: nat)
    requires n <= |attempts| && forall i :: 0 <= i < n ==> attempts[i].Fails?
    requires n < |attempts| ==> !attempts[n].Fails?
    ensures Failures(attempts) == n
  {
    if n > 0 {
      FailuresAre(attempts[1..], n - 1);
    }
  }

  /**
   The loop, given what each attempt would meet; it is stopped when the attempts run out. It makes all
   the failing attempts allowed, sleeps once after each, and ends for the reason found next.
   */
  method Reconnect(attempts: seq<Attempt>, maxReconnectAttempts: int)
    returns (ended: Ended, made: nat, sleeps: seq<nat>)
    ensures maxReconnectAttempts > 0 ==> made <= maxReconnectAttempts
    ensures var failures := Failures(attempts);
            if 0 < maxReconnectAttempts <= failures then
              ended == GaveUp && made == |sleeps| == maxReconnectAttempts
            else
              && |sleeps| == failures
              && if failures == |attempts| then ended == Stopped && made == failures
                 else made == failures + 1 && ended == if attempts[failures].Connects? then Connected else Fatal
    ensures forall i :: 0 <= i < |sleeps| ==> sleeps[i] == SleepAfter(i)
  {
    var delay: nat := ReconnectDelay;
    var consecutiveFailures := 0;
    made, sleeps := 0, [];
    while made < |attempts|
      invariant made <= |attempts| && |sleeps| == made
      invariant maxReconnectAttempts > 0 ==> made <= maxReconnectAttempts
      invariant forall i :: 0 <= i < made ==> attempts[i].Fails?
      invariant forall i :: 0 <= i < made ==> sleeps[i] == SleepAfter(i)
      invariant PaceAfter(made) == Pace(delay, consecutiveFailures)
    {
      if maxReconnectAttempts > 0 && made + 1 > maxReconnectAttempts {
        return GaveUp, made, sleeps;
      }
      var attempt := attempts[made];
      if attempt.Connects? || attempt.FailsFatally? {
        FailuresAre(attempts, made);
        return if attempt.Connects? then Connected else Fatal, made + 1, sleeps;
      }
      made := made + 1;
      consecutiveFailures := consecutiveFailures + 1;
      if consecutiveFailures >= MaxConsecutiveFailures {
        sleeps := sleeps + [LongDelay];
        consecutiveFailures := 0;
        delay := ReconnectDelay;
      } else {
        sleeps := sleeps + [delay];
        delay := Grown(delay);
        if delay > DelayCap {
          delay := DelayCap;
        }
      }
    }
    FailuresAre(attempts, made);
    return if 0 < maxReconnectAttempts <= made then GaveUp else Stopped, made, sleeps;
  }

  function Pow(b: nat, e: nat): nat {
    if e == 0 then 1 else b * Pow(b, e - 1)
  }

  /** The first ten failures, which bring the loop back to where it started. */
  lemma {:induction false} FirstCycle()
    ensures PaceAfter(0) == Pace(1_000_000_000, 0) && PaceAfter(1) == Pace(1_500_000_000, 1)
    ensures PaceAfter(2) == Pace(2_250_000_000, 2) && PaceAfter(3) == Pace(3_375_000_000, 3)
    ensures PaceAfter(4) == Pace(5_062_500_000, 4) && PaceAfter(5) == Pace(7_593_750_000, 5)
    ensures PaceAfter(6) == Pace(11_390_625_000, 6) && PaceAfter(7) == Pace(17_085_937_500, 7)
    ensures PaceAfter(8) == Pace(25_628_906_250, 8) && PaceAfter(9) == Pace(30_000_000_000, 9)
    ensures PaceAfter(10) == FreshPace
  {
    assert PaceAfter(1) == Pace(1_500_000_000, 1);
    assert PaceAfter(2) == Pace(2_250_000_000, 2);
    assert PaceAfter(3) == Pace(3_375_000_000, 3);
    assert PaceAfter(4) == Pace(5_062_500_000, 4);
    assert PaceAfter(5) == Pace(7_593_750_000, 5);
    assert PaceAfter(6) == Pace(11_390_625_000, 6);
    assert PaceAfter(7) == Pace(17_085_937_500, 7);
    assert PaceAfter(8) == Pace(25_628_906_250, 8);
    assert PaceAfter(9) == Pace(30_000_000_000, 9);
  }

  lemma {:induction false} PaceRepeats(n: nat)
    ensures PaceAfter(10 + n) == PaceAfter(n)
  {
    if n == 0 {
      FirstCycle();
    } else {
      PaceRepeats(n - 1);
      assert 10 + n - 1 == 10 + (n - 1);
    }
  }

  lemma {:induction false} SleepRepeats(q: nat, r: nat)
    ensures SleepAfter(10 * q + r) == SleepAfter(r)
    decreases q
  {
    if q > 0 {
      SleepRepeats(q - 1, r);
      PaceRepeats(10 * (q - 1) + r);
      assert 10 * q + r == 10 + (10 * (q - 1) + r);
    }
  }

  lemma {:induction false} Powers(b: nat)
    ensures Pow(b, 0) == 1 && Pow(b, 1) == b && Pow(b, 2) == b * Pow(b, 1) && Pow(b, 3) == b * Pow(b, 2)
    ensures Pow(b, 4) == b * Pow(b, 3) && Pow(b, 5) == b * Pow(b, 4) && Pow(b, 6) == b * Pow(b, 5)
    ensures Pow(b, 7) == b * Pow(b, 6) && Pow(b, 8) == b * Pow(b, 7) && Pow(b, 9) == b * Pow(b, 8)
  {
  }

  /** Before the breaker the sleep is 1.5^r seconds, with nothing truncated and nothing capped. */
  lemma {:induction false} SleepInCycle(r: nat)
    requires r <= 8
    ensures SleepAfter(r) < DelayCap && Pow(2, r) * SleepAfter(r) == Pow(3, r) * 1_000_000_000
  {
    FirstCycle();
    Powers(2);
    Powers(3);
  }

  /** The 30 s cap never shortens a sleep: a sleep is 1.5^r seconds, below the cap, or is the long one. */
  lemma {:induction false} CapNeverBinds(n: nat)
    ensures if n % 10 == 9 then SleepAfter(n) == LongDelay
            else SleepAfter(n) < DelayCap && Pow(2, n % 10) * SleepAfter(n) == Pow(3, n % 10) * 1_000_000_000
  {
    SleepRepeats(n / 10, n % 10);
    assert n == 10 * (n / 10) + n % 10;
    if n % 10 == 9 {
      FirstCycle();
    } else {
      SleepInCycle(n % 10);
    }
  }

  lemma {:induction false} FirstSums()
    ensures TotalSleep(0) == 0 && TotalSleep(1) == 1_000_000_000 && TotalSleep(2) == 2_500_000_000
    ensures TotalSleep(3) == 4_750_000_000 && TotalSleep(4) == 8_125_000_000 && TotalSleep(5) == 13_187_500_000
    ensures TotalSleep(6) == 20_781_250_000 && TotalSleep(7) == 32_171_875_000 && TotalSleep(8) == 49_257_812_500
    ensures TotalSleep(9) == 74_886_718_750 && TotalSleep(10) == 374_886_718_750
  {
    FirstCycle();
    assert TotalSleep(3) == 4_750_000_000;
    assert TotalSleep(6) == 20_781_250_000;
    assert TotalSleep(9) == 74_886_718_750;
  }

  /** The first `r` sleeps sum to 2 (1.5^r - 1) seconds. */
  lemma {:induction false} SumInCycle(r: nat)
    requires r <= 9
    ensures Pow(2, r) * TotalSleep(r) == 2_000_000_000 * (Pow(3, r) - Pow(2, r))
  {
    FirstSums();
    Powers(2);
    Powers(3);
  }

  predicate RepeatsAt(f: nat -> nat, k: nat) {
    f(10 + k) == f(k)
  }

  /** Sums of a function that repeats with period 10. */
  lemma {:induction false} SumRepeats(f: nat -> nat, n: nat)
    requires forall k: nat :: RepeatsAt(f, k)
    ensures Sum(f, 10 + n) == Sum(f, 10) + Sum(f, n)
  {
    if n > 0 {
      SumRepeats(f, n - 1);
      assert RepeatsAt(f, n - 1) && 10 + n - 1 == 10 + (n - 1);
    }
  }

  lemma {:induction false} SumOverCycles(f: nat -> nat, q: nat, r: nat)
    requires (forall k: nat :: RepeatsAt(f, k)) && Sum(f, 10) == 374_886_718_750
    ensures Sum(f, 10 * q + r) == q * 374_886_718_750 + Sum(f, r)
    decreases q
  {
    if q > 0 {
      SumOverCycles(f, q - 1, r);
      var n: nat := 10 * (q - 1) + r;
      SumRepeats(f, n);
      assert 10 * q + r == 10 + n;
    }
  }

  /**
   Closed form: after 10q+r failures in a row the loop has slept q whole cycles of 374.88671875 s and
   the first r sleeps of the next, which sum to 2 (1.5^r - 1) s.
   */
  lemma {:induction false} TotalSleepClosedForm(q: nat, r: nat)
    requires r <= 9
    ensures TotalSleep(10 * q + r) == q * 374_886_718_750 + TotalSleep(r)
    ensures Pow(2, r) * TotalSleep(r) == 2_000_000_000 * (Pow(3, r) - Pow(2, r))
  {
    SumInCycle(r);
    FirstSums();
    forall k: nat
      ensures RepeatsAt(SleepAfter, k)
    {
      PaceRepeats(k);
    }
    SumOverCycles(SleepAfter, q, r);
  }

  // ---------- Connecting the tunnel ----------

  datatype RetryConfig = RetryConfig(
    maxRetries: int, initialDelay: real, maxDelay: real, backoffFactor: real, jitterEnabled: bool,
    healthCheckInterval: real)

  /** What an attempt meets; `draw` is the random number used if the failure leads to a new delay. */
  datatype Result = Succeeds | AuthError | MaintenanceError | OtherError(draw: real)

  datatype State = Established | Failed | Cancelled

  ghost predicate ValidDraws(results: seq<Result>) {
    forall i :: 0 <= i < |results| && results[i].OtherError? ==> 0.0 <= results[i].draw < 1.0
  }

  ghost predicate ValidConfig(c: RetryConfig) {
    0.0 < c.initialDelay && 0.0 < c.maxDelay && 0.0 < c.healthCheckInterval && 0.0 < c.backoffFactor
  }

  function Min(a: real, b: real): real {
    if a < b then a else b
  }

  /** A delay with the jitter of one random draw: up to a tenth more or less. */
  function Jittered(next: real, draw: real): real {
    next + next * 0.1 * (2.0 * draw - 1.0)
  }

  function NextDelay(c: RetryConfig, delay: real, draw: real): real {
    var next := Min(delay * c.backoffFactor, c.maxDelay);
    if c.jitterEnabled then Jittered(next, draw) else next
  }

  function DelayAfter(c: RetryConfig, results: seq<Result>, n: nat): real
    requires n <= |results|
  {
    if n == 0 then c.initialDelay
    else if results[n - 1].OtherError? then NextDelay(c, DelayAfter(c, results, n - 1), results[n - 1].draw)
    else c.healthCheckInterval
  }

  predicate Retried(r: Result) {
    r.MaintenanceError? || r.OtherError?
  }

  /**
   The loop, given what each attempt would meet; it is cancelled when the results run out. It never
   waits before the first attempt, waits once before each other one, and gives up after the allowed
   number of attempts or at once on an authentication error.
   */
  method ConnectWithRetry(c: RetryConfig, results: seq<Result>)
    returns (state: State, retryCount: nat, waits: seq<real>, attempts: nat)
    ensures c.maxRetries > 0 ==> attempts <= c.maxRetries
    ensures attempts <= |results| && forall i :: 0 <= i < attempts - 1 ==> Retried(results[i])
    ensures |waits| == (if attempts == 0 then 0 else attempts - 1)
    ensures forall i :: 0 <= i < |waits| ==> waits[i] == DelayAfter(c, results, i + 1)
    ensures match state
            case Established => attempts > 0 && results[attempts - 1].Succeeds? && retryCount == 0
            case Failed =>
              && retryCount == attempts
              && ((attempts > 0 && results[attempts - 1].AuthError?)
                  || (attempts == c.maxRetries > 0 && Retried(results[attempts - 1])))
            case Cancelled => attempts == |results| && (attempts > 0 ==> Retried(results[attempts - 1]))
  {
    retryCount, waits, attempts := 0, [], 0;
    var delay := c.initialDelay;
    while true
      invariant attempts <= |results| && retryCount == attempts
      invariant forall i :: 0 <= i < attempts ==> Retried(results[i])
      invariant c.maxRetries > 0 ==> attempts <= c.maxRetries
      invariant |waits| == (if attempts == 0 then 0 else attempts - 1)
      invariant forall i :: 0 <= i < |waits| ==> waits[i] == DelayAfter(c, results, i + 1)
      invariant delay == DelayAfter(c, results, attempts)
      decreases |results| - attempts
    {
      if attempts == |results| {
        return Cancelled, retryCount, waits, attempts;
      }
      if c.maxRetries > 0 && retryCount >= c.maxRetries {
        return Failed, retryCount, waits, attempts;
      }
      if retryCount != 0 {
        waits := waits + [delay];
      }
      var result := results[attempts];
      attempts := attempts + 1;
      if result.Succeeds? {
        return Established, 0, waits, attempts;
      }
      retryCount := retryCount + 1;
      if result.AuthError? {
        return Failed, retryCount, waits, attempts;
      }
      if result.MaintenanceError? {
        delay := c.healthCheckInterval;
      } else {
        delay := NextDelay(c, delay, result.draw);
      }
    }
  }

  /** `base` times `b` to the power of `n`. */
  function Scaled(b: real, n: nat, base: real): real {
    if n == 0 then base else b * Scaled(b, n - 1, base)
  }

  /** The factor with a tenth off, and with a tenth added. */
  ghost predicate Factors(c: RetryConfig, g: real, h: real) {
    g == 0.9 * c.backoffFactor && h == 1.1 * c.backoffFactor
  }

  lemma Scale(g: real, h: real, f: real, delay: real)
    requires g == 0.9 * f && h == 1.1 * f
    ensures 0.9 * (delay * f) == g * delay && 1.1 * (delay * f) == h * delay
  {
  }

  lemma {:induction false} NextNearScaled(c: RetryConfig, delay: real, draw: real)
    requires 0.0 < c.maxDelay && delay * c.backoffFactor > 0.0 && 0.0 <= draw < 1.0
    ensures var next := Min(delay * c.backoffFactor, c.maxDelay);
            0.9 * next <= NextDelay(c, delay, draw) <= 1.1 * next
  {
    Jitter(Min(delay * c.backoffFactor, c.maxDelay), draw);
  }

  /** One step of the backoff moves the delay by the factor, give or take a tenth, below the jittered cap. */
  lemma {:induction false} NextDelayBounds(c: RetryConfig, delay: real, draw: real, g: real, h: real)
    requires ValidConfig(c) && delay > 0.0 && 0.0 <= draw < 1.0 && Factors(c, g, h)
    ensures var d := NextDelay(c, delay, draw);
            && d > 0.0
            && (0.9 * c.maxDelay <= d || g * delay <= d)
            && d <= 1.1 * c.maxDelay && d <= h * delay
  {
    var scaled := delay * c.backoffFactor;
    Positive(delay, c.backoffFactor);
    Scale(g, h, c.backoffFactor, delay);
    NextNearScaled(c, delay, draw);
    FromScaled(c.maxDelay, scaled, NextDelay(c, delay, draw));
  }

  lemma FromScaled(max: real, scaled: real, d: real)
    requires max > 0.0 && scaled > 0.0 && 0.9 * Min(scaled, max) <= d <= 1.1 * Min(scaled, max)
    ensures d > 0.0 && (0.9 * max <= d || 0.9 * scaled <= d) && d <= 1.1 * max && d <= 1.1 * scaled
  {
  }

  lemma Positive(a: real, b: real)
    requires a > 0.0 && b > 0.0
    ensures a * b > 0.0
  {
  }

  lemma {:induction false} Jitter(next: real, draw: real)
    requires next > 0.0 && 0.0 <= draw < 1.0
    ensures 0.9 * next <= Jittered(next, draw) <= 1.1 * next
  {
    var tenth, v := next * 0.1, 2.0 * draw - 1.0;
    assert v + 1.0 >= 0.0 && 1.0 - v > 0.0;
    Positive(tenth, 1.0 - v);
    assert tenth * (v + 1.0) >= 0.0;
    assert next * 0.1 * (2.0 * draw - 1.0) == tenth * v;
    assert tenth * (v + 1.0) == tenth * v + tenth && tenth * (1.0 - v) == tenth - tenth * v;
  }

  /**
   What `n` failures leave at least of the delay `base`. A factor that grows in spite of the jitter is
   stopped only by the cap, 0.9 Max after jitter; one that shrinks may go on shrinking from the cap.
   */
  predicate AtLeast(c: RetryConfig, base: real, n: nat, d: real, g: real) {
    || Scaled(g, n, base) <= d
    || (if g >= 1.0 then 0.9 * c.maxDelay <= d else n > 0 && Scaled(g, n - 1, 0.9 * c.maxDelay) <= d)
  }

  predicate Bounded(c: RetryConfig, base: real, n: nat, d: real, g: real, h: real) {
    AtLeast(c, base, n, d, g) && d <= Scaled(h, n, base)
  }

  lemma {:induction false} AtLeastStep(c: RetryConfig, base: real, n: nat, before: real, d: real, g: real)
    requires g > 0.0 && c.maxDelay > 0.0 && before > 0.0 && AtLeast(c, base, n, before, g)
    requires 0.9 * c.maxDelay <= d || g * before <= d
    ensures AtLeast(c, base, n + 1, d, g)
  {
    var max := 0.9 * c.maxDelay;
    if max <= d {
      if g < 1.0 {
        ScaledShrinks(g, n, max);
      }
    } else if Scaled(g, n, base) <= before {
      Monotone(g, Scaled(g, n, base), before);
    } else if g >= 1.0 {
      Grows(g, before);
    } else {
      Monotone(g, Scaled(g, n - 1, max), before);
    }
  }

  lemma {:induction false} ScaledShrinks(g: real, n: nat, base: real)
    requires 0.0 < g < 1.0 && base > 0.0
    ensures 0.0 < Scaled(g, n, base) <= base
  {
    if n > 0 {
      ScaledShrinks(g, n - 1, base);
      Positive(g, Scaled(g, n - 1, base));
      Positive(1.0 - g, Scaled(g, n - 1, base));
    }
  }

  lemma Grows(g: real, x: real)
    requires g >= 1.0 && x > 0.0
    ensures x <= g * x
  {
  }

  lemma Monotone(a: real, x: real, y: real)
    requires a >= 0.0 && x <= y
    ensures a * x <= a * y
  {
  }

  lemma {:induction false} BoundedStep(c: RetryConfig, base: real, n: nat, before: real, draw: real, g: real, h: real)
    requires ValidConfig(c) && before > 0.0 && 0.0 <= draw < 1.0 && Factors(c, g, h)
    requires Bounded(c, base, n, before, g, h)
    ensures Bounded(c, base, n + 1, NextDelay(c, before, draw), g, h)
    ensures NextDelay(c, before, draw) <= 1.1 * c.maxDelay
  {
    NextDelayBounds(c, before, draw, g, h);
    AtLeastStep(c, base, n, before, NextDelay(c, before, draw), g);
    Monotone(h, before, Scaled(h, n, base));
  }

  /**
   Bounds, for any positive factor: `n` failures that are not maintenance after the delay was `base` (the
   initial delay, or the health-check interval of the last maintenance answer) leave a delay of at most
   min(1.1 Max, (1.1 f)^n base), and at least min(0.9 Max, (0.9 f)^n base) if 0.9 f is 1 or more, or else
   min((0.9 f)^(n-1) 0.9 Max, (0.9 f)^n base), whatever the jitter. Only the upper bound by Max needs a
   first failure, or a base already below it.
   */
  lemma {:induction false} DelayBounds(c: RetryConfig, results: seq<Result>, start: nat, n: nat, g: real, h: real)
    requires ValidConfig(c) && ValidDraws(results) && start + n <= |results| && Factors(c, g, h)
    requires forall i :: start <= i < start + n ==> results[i].OtherError?
    ensures var base, d := DelayAfter(c, results, start), DelayAfter(c, results, start + n);
            && Bounded(c, base, n, d, g, h)
            && (n > 0 || base <= 1.1 * c.maxDelay ==> d <= 1.1 * c.maxDelay)
    decreases n
  {
    if n > 0 {
      DelayBounds(c, results, start, n - 1, g, h);
      DelaysArePositive(c, results, start + n - 1);
      BoundedStep(c, DelayAfter(c, results, start), n - 1, DelayAfter(c, results, start + n - 1),
                  results[start + n - 1].draw, g, h);
    }
  }

  lemma {:induction false} DelaysArePositive(c: RetryConfig, results: seq<Result>, n: nat)
    requires ValidConfig(c) && ValidDraws(results) && n <= |results|
    ensures DelayAfter(c, results, n) > 0.0
  {
    if n > 0 && results[n - 1].OtherError? {
      DelaysArePositive(c, results, n - 1);
      NextDelayBounds(c, DelayAfter(c, results, n - 1), results[n - 1].draw,
                      0.9 * c.backoffFactor, 1.1 * c.backoffFactor);
    }
  }

  /** The same from the start of the loop with the default factor 2: between 1.8^n and 2.2^n initial delays. */
  lemma {:induction false} DefaultDelayBounds(c: RetryConfig, results: seq<Result>, n: nat)
    requires ValidConfig(c) && ValidDraws(results) && n <= |results| && c.backoffFactor == 2.0
    requires forall i :: 0 <= i < n ==> results[i].OtherError?
    requires n > 0 || c.initialDelay <= 1.1 * c.maxDelay
    ensures var d := DelayAfter(c, results, n);
            && (0.9 * c.maxDelay <= d || Scaled(1.8, n, c.initialDelay) <= d)
            && d <= 1.1 * c.maxDelay
            && d <= Scaled(2.2, n, c.initialDelay)
  {
    DelayBounds(c, results, 0, n, 1.8, 2.2);
  }
}
