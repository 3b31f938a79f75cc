/** Retry delays in nanoseconds: exponential growth, cap and jitter. */
module Backoff {
  import opened Domain

  datatype Config = Config(baseDelay: nat, maxDelay: nat, maxAttempts: nat, jitter: real)

  function Pow2(n: nat): (p: nat)
    ensures p >= 1
  {
    if n == 0 then 1 else 2 * Pow2(n - 1)
  }

  function Min(a: int, b: int): int {
    if a < b then a else b
  }

  function Uncapped(c: Config, attempt: nat, circuit: CircuitState): nat {
    match circuit
    case Open => 300 * SECOND
    case HalfOpen => 30 * SECOND
    case Closed => c.baseDelay * Pow2(if attempt < 10 then attempt else 10)
  }

  /** The delay before jitter. */
  function BaseDelay(c: Config, attempt: nat, circuit: CircuitState): nat {
    Min(Uncapped(c, attempt, circuit), c.maxDelay)
  }

  /** Conversion to an integer duration: the fraction is dropped, toward zero. */
  function Truncated(x: real): int {
    if x < 0.0 then -(-x).Floor else x.Floor
  }

  /** `addJitter` for a uniform draw `u` in [0, 1). */
  function Jittered(jitter: real, d: nat, u: real): int {
    if jitter <= 0.0 then d else Truncated(d as real + (2.0 * u - 1.0) * (d as real * jitter))
  }

  function NextDelay(c: Config, attempt: nat, circuit: CircuitState, u: real): int {
    Jittered(c.jitter, BaseDelay(c, attempt, circuit), u)
  }

  // ---------------------------------------------------------------- growth

  lemma {:induction false} Pow2Monotone(m: nat, n: nat)
    requires m <= n
    ensures Pow2(m) <= Pow2(n)
    decreases n
  {
    if m < n {
      Pow2Monotone(m, n - 1);
    }
  }

  /** The delay before jitter never falls as attempts go on, stays put from attempt 10, and respects the cap. */
  lemma DelayMonotone(c: Config, a: nat, b: nat)
    requires a <= b
    ensures BaseDelay(c, a, Closed) <= BaseDelay(c, b, Closed) <= c.maxDelay
    ensures 10 <= a ==> BaseDelay(c, a, Closed) == BaseDelay(c, b, Closed)
  {
    var m, n := if a < 10 then a else 10, if b < 10 then b else 10;
    Pow2Monotone(m, n);
    MulMonotone(c.baseDelay, Pow2(m), Pow2(n));
  }

  lemma MulMonotone(k: nat, x: nat, y: nat)
    requires x <= y
    ensures k * x <= k * y
  {
  }

  function Sum(delays: seq<int>): int {
    if delays == [] then 0 else Sum(delays[..|delays| - 1]) + delays[|delays| - 1]
  }

  /** The first `n` delays before jitter. */
  function Delays(c: Config, n: nat): (ds: seq<int>)
    ensures |ds| == n && forall i :: 0 <= i < n ==> ds[i] == BaseDelay(c, i, Closed)
  {
    seq(n, i requires 0 <= i => BaseDelay(c, i, Closed))
  }

  /** Main result: while the cap is not reached, the first `n <= 11` retries take BaseDelay * (2^n - 1) in all. */
  lemma {:induction false} GeometricSum(c: Config, n: nat)
    requires n <= 11 && forall k :: 0 <= k < n ==> Uncapped(c, k, Closed) <= c.maxDelay
    ensures Sum(Delays(c, n)) == c.baseDelay * (Pow2(n) - 1)
  {
    if n > 0 {
      GeometricSum(c, n - 1);
      assert Delays(c, n)[..n - 1] == Delays(c, n - 1);
      assert Uncapped(c, n - 1, Closed) == c.baseDelay * Pow2(n - 1);
      Distribute(c.baseDelay, Pow2(n - 1));
    }
  }

  lemma Distribute(b: nat, p: nat)
    ensures b * (p - 1) + b * p == b * (2 * p - 1)
  {
  }

  // ---------------------------------------------------------------- jitter

  /** The first `n` delays with jitter, for the draws `us`. */
  function JitteredDelays(c: Config, n: nat, us: seq<real>): (ts: seq<int>)
    requires n <= |us|
    ensures |ts| == n && forall i :: 0 <= i < n ==> ts[i] == NextDelay(c, i, Closed, us[i])
  {
    seq(n, i requires 0 <= i < n => NextDelay(c, i, Closed, us[i]))
  }

  predicate Draws(us: seq<real>) {
    forall i :: 0 <= i < |us| ==> 0.0 <= us[i] < 1.0
  }

  /** `t` is `d` scaled by a factor between 1 - j and 1 + j, with up to `slack` nanoseconds dropped. */
  predicate Within(j: real, d: int, t: int, slack: nat) {
    (1.0 - j) * d as real - slack as real <= t as real <= (1.0 + j) * d as real
  }

  lemma Scaled(f: real, j: real)
    requires -1.0 <= f <= 1.0 && 0.0 <= j
    ensures -j <= f * j <= j
  {
    assert (f + 1.0) * j == f * j + j;
    assert (1.0 - f) * j == j - f * j;
  }

  lemma WithinAdds(j: real, d: int, t: int, slack: nat, e: int, u: int, more: nat)
    requires Within(j, d, t, slack) && Within(j, e, u, more)
    ensures Within(j, d + e, t + u, slack + more)
  {
    assert (1.0 - j) * (d + e) as real == (1.0 - j) * d as real + (1.0 - j) * e as real;
    assert (1.0 + j) * (d + e) as real == (1.0 + j) * d as real + (1.0 + j) * e as real;
  }

  /** The jitter never exceeds its width, and the width never exceeds the delay. */
  lemma OffsetRange(j: real, d: real, f: real)
    requires 0.0 <= j < 1.0 && 0.0 <= d && -1.0 <= f <= 1.0
    ensures -(d * j) <= f * (d * j) <= d * j <= d
  {
    Scaled(j, d);
    Scaled(f, d * j);
  }

  lemma JitterSpread(x: real, width: real, offset: real, t: int)
    requires -width <= offset <= width <= x && t == Truncated(x + offset)
    ensures x - width - 1.0 <= t as real <= x + width
  {
    Dropped(x + offset);
  }

  lemma JitterWidth(j: real, d: nat, u: real, width: real)
    requires 0.0 < j < 1.0 && 0.0 <= u < 1.0 && width == d as real * j
    ensures d as real - width - 1.0 <= Jittered(j, d, u) as real <= d as real + width
  {
    OffsetRange(j, d as real, 2.0 * u - 1.0);
    JitterSpread(d as real, width, (2.0 * u - 1.0) * width, Jittered(j, d, u));
  }

  lemma JitterRange(j: real, d: nat, u: real)
    requires 0.0 <= j < 1.0 && 0.0 <= u < 1.0
    ensures Within(j, d, Jittered(j, d, u), 1)
  {
    var width := d as real * j;
    if j > 0.0 {
      JitterWidth(j, d, u, width);
    }
    WithinByWidth(j, d, width, Jittered(j, d, u));
  }

  /** While the circuit is open or half-open the delay is five minutes or 30 seconds at any attempt, capped and
      jittered. */
  lemma CircuitDelays(c: Config, attempt: nat, u: real)
    requires 0.0 <= c.jitter < 1.0 && 0.0 <= u < 1.0
    ensures Within(c.jitter, Min(300_000_000_000, c.maxDelay), NextDelay(c, attempt, Open, u), 1)
    ensures Within(c.jitter, Min(30_000_000_000, c.maxDelay), NextDelay(c, attempt, HalfOpen, u), 1)
  {
    JitterRange(c.jitter, BaseDelay(c, attempt, Open), u);
    JitterRange(c.jitter, BaseDelay(c, attempt, HalfOpen), u);
  }

  lemma WithinByWidth(j: real, d: nat, width: real, t: int)
    requires width == d as real * j && d as real - width - 1.0 <= t as real <= d as real + width
    ensures Within(j, d, t, 1)
  {
    assert (1.0 - j) * d as real == d as real - width;
    assert (1.0 + j) * d as real == d as real + width;
  }

  lemma Dropped(x: real)
    requires 0.0 <= x
    ensures x - 1.0 <= Truncated(x) as real <= x
  {
  }

  lemma DrawFor(x: real, d: real, width: real) returns (u: real)
    requires 0.0 < width && d - width <= x < d + width
    ensures 0.0 <= u < 1.0 && d + (2.0 * u - 1.0) * width == x
  {
    u := (x - d + width) / (2.0 * width);
    assert u * (2.0 * width) == x - d + width;
    assert (2.0 * u - 1.0) * width == u * (2.0 * width) - width;
    assert (1.0 - u) * (2.0 * width) == width - (x - d);
  }

  /** Main result: the next delay is the base delay without jitter, and with jitter j every value within the factors 1 -
      j and 1 + j of it is the next delay for some draw, the cap notwithstanding. */
  lemma JitterReaches(c: Config, attempt: nat, circuit: CircuitState, x: real) returns (u: real)
    requires var d := BaseDelay(c, attempt, circuit) as real;
             0.0 < c.jitter && 0.0 < d ==> d - d * c.jitter <= x < d + d * c.jitter
    ensures 0.0 <= u < 1.0
    ensures NextDelay(c, attempt, circuit, u) ==
            if 0.0 < c.jitter && 0 < BaseDelay(c, attempt, circuit) then Truncated(x)
            else BaseDelay(c, attempt, circuit)
  {
    var d := BaseDelay(c, attempt, circuit);
    if 0.0 < c.jitter && 0 < d {
      u := SomeDraw(c.jitter, d, x);
    } else {
      u := 0.0;
      NoJitter(c.jitter, d);
    }
  }

  lemma SomeDraw(j: real, d: nat, x: real) returns (u: real)
    requires 0.0 < j && 0 < d && d as real - d as real * j <= x < d as real + d as real * j
    ensures 0.0 <= u < 1.0 && Jittered(j, d, u) == Truncated(x)
  {
    var width := d as real * j;
    u := DrawReaches(d, width, x);
    JitterIs(j, d, width, u);
  }

  lemma NoJitter(j: real, d: nat)
    requires j <= 0.0 || d == 0
    ensures Jittered(j, d, 0.0) == d
  {
    if d == 0 {
      assert d as real * j == 0.0;
    }
  }

  lemma JitterIs(j: real, d: nat, width: real, u: real)
    requires 0.0 < j && width == d as real * j
    ensures Jittered(j, d, u) == Truncated(d as real + (2.0 * u - 1.0) * width)
  {
    assert (2.0 * u - 1.0) * width == (2.0 * u - 1.0) * (d as real * j);
    var x := d as real + (2.0 * u - 1.0) * width;
    assert Jittered(j, d, u) == Truncated(x);
  }

  lemma DrawReaches(d: nat, width: real, x: real) returns (u: real)
    requires 0.0 < width && d as real - width <= x < d as real + width
    ensures 0.0 <= u < 1.0 && Truncated(d as real + (2.0 * u - 1.0) * width) == Truncated(x)
  {
    u := DrawFor(x, d as real, width);
  }

  lemma {:induction false} SumWithin(j: real, ds: seq<int>, ts: seq<int>)
    requires |ds| == |ts| && forall i :: 0 <= i < |ds| ==> Within(j, ds[i], ts[i], 1)
    ensures Within(j, Sum(ds), Sum(ts), |ds|)
  {
    if ds != [] {
      var n := |ds| - 1;
      SumWithin(j, ds[..n], ts[..n]);
      WithinAdds(j, Sum(ds[..n]), Sum(ts[..n]), n, ds[n], ts[n], 1);
    }
  }

  /** Main result: whatever the draws, every partial sum of jittered delays is within the factors 1 - j and 1 + j of the
      unjittered one, up to the nanosecond each conversion may drop. */
  lemma JitteredSumRange(c: Config, n: nat, us: seq<real>)
    requires 0.0 <= c.jitter < 1.0 && n <= |us| && Draws(us)
    ensures Within(c.jitter, Sum(Delays(c, n)), Sum(JitteredDelays(c, n, us)), n)
  {
    forall i | 0 <= i < n
      ensures Within(c.jitter, Delays(c, n)[i], JitteredDelays(c, n, us)[i], 1)
    {
      JitterRange(c.jitter, BaseDelay(c, i, Closed), us[i]);
    }
    SumWithin(c.jitter, Delays(c, n), JitteredDelays(c, n, us));
  }

  /** `RetrySchedule`: the running totals of the delays, one per attempt. */
  method RetrySchedule(c: Config, us: seq<real>) returns (schedule: seq<int>)
    requires c.maxAttempts <= |us|
    ensures |schedule| == c.maxAttempts
    ensures forall i :: 0 <= i < c.maxAttempts ==> schedule[i] == Sum(JitteredDelays(c, i + 1, us))
  {
    schedule := [];
    var total := 0;
    for i := 0 to c.maxAttempts
      invariant |schedule| == i && total == Sum(JitteredDelays(c, i, us))
      invariant forall k :: 0 <= k < i ==> schedule[k] == Sum(JitteredDelays(c, k + 1, us))
    {
      assert JitteredDelays(c, i + 1, us)[..i] == JitteredDelays(c, i, us);
      total := total + NextDelay(c, i, Closed, us[i]);
      schedule := schedule + [total];
    }
  }
}
