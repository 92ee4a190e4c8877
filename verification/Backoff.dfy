/** The retry delay, over reals, and what it adds up to over the life of one delivery task. */
module Backoff {
  import opened Conversions
  import opened Configuration
  import Protocol
  import ProtocolInvariants
  import ProtocolTokens
  import ProtocolTheorems

  function Power(m: real, n: nat): real {
    if n == 0 then 1.0 else m * Power(m, n - 1)
  }

  function Min(a: real, b: real): real { if a <= b then a else b }

  function Exponential(attempt: nat, policy: RetryPolicy): real {
    policy.baseDelayMs as real * Power(policy.multiplier, attempt)
  }

  /** The delay before jitter; a cap of zero or less is no cap. */
  function Raw(attempt: nat, policy: RetryPolicy): real {
    var raw := Exponential(attempt, policy);
    if policy.maxDelayMs > 0 then Min(raw, policy.maxDelayMs as real) else raw
  }

  /** `calculateBackoff` in whole milliseconds; `random` is what the random source returned. */
  function Delay(attempt: nat, policy: RetryPolicy, random: real): int {
    Trunc(Jittered(Raw(attempt, policy), policy.jitter, random))
  }

  function Jittered(raw: real, jitter: real, random: real): real {
    if jitter > 0.0 then raw * (1.0 - jitter * random) else raw
  }

  /** The policies the bounds are about. */
  predicate Sensible(policy: RetryPolicy) {
    policy.multiplier >= 1.0 && policy.baseDelayMs >= 0 && policy.maxDelayMs > 0 && 0.0 <= policy.jitter <= 1.0
  }

  // ---- Arithmetic ----

  lemma ProductIsMonotone(a: real, b: real, x: real, y: real)
    requires 0.0 <= a <= b && 0.0 <= x <= y
    ensures 0.0 <= a * x <= b * y
  {
    assert b * y - a * x == (b - a) * y + a * (y - x);
    assert (b - a) * y >= 0.0 && a * (y - x) >= 0.0;
  }

  lemma {:induction false} PowerGrows(m: real, j: nat, k: nat)
    requires m >= 1.0 && j <= k
    ensures 1.0 <= Power(m, j) <= Power(m, k)
  {
    if k > 0 {
      PowerGrows(m, if j == 0 then 0 else j - 1, k - 1);
      ProductIsMonotone(1.0, m, Power(m, if j == 0 then 0 else j - 1), Power(m, k - 1));
      if j > 0 { ProductIsMonotone(m, m, Power(m, j - 1), Power(m, k - 1)); }
      if j > 0 { ProductIsMonotone(1.0, m, 1.0, Power(m, j - 1)); }
    }
  }

  lemma TruncIsMonotone(a: real, b: real)
    requires 0.0 <= a <= b
    ensures 0 <= Trunc(a) <= Trunc(b) && Trunc(b) as real <= b
  {
  }

  lemma ExponentialGrows(policy: RetryPolicy, j: nat, k: nat)
    requires Sensible(policy) && j <= k
    ensures 0.0 <= Exponential(j, policy) <= Exponential(k, policy)
  {
    var base := policy.baseDelayMs as real;
    PowerGrows(policy.multiplier, j, k);
    ProductIsMonotone(base, base, Power(policy.multiplier, j), Power(policy.multiplier, k));
  }

  lemma RawIsMonotone(policy: RetryPolicy, j: nat, k: nat)
    requires Sensible(policy) && j <= k
    ensures 0.0 <= Raw(j, policy) <= Raw(k, policy) <= policy.maxDelayMs as real
    ensures Raw(k, policy) <= Exponential(k, policy)
  {
    ExponentialGrows(policy, j, k);
    hide Exponential;
  }

  /** Jitter takes a share away, at most `j` of the whole. */
  lemma JitterShrinks(raw: real, j: real, random: real)
    requires 0.0 <= raw && 0.0 <= j <= 1.0 && 0.0 <= random <= 1.0
    ensures 0.0 <= (1.0 - j) * raw <= raw * (1.0 - j * random) <= raw
  {
    ProductIsMonotone(j, j, random, 1.0);
    var share := j * random;
    assert share <= j * 1.0 == j;
    ProductIsMonotone(raw, raw, 0.0, 1.0 - j);
    ProductIsMonotone(raw, raw, 1.0 - j, 1.0 - share);
    ProductIsMonotone(raw, raw, 1.0 - share, 1.0);
  }

  /** Powers are what their name says: one factor more for each step, from one. */
  lemma {:induction false} PowerAdds(m: real, j: nat, k: nat)
    ensures Power(m, 0) == 1.0 && Power(m, 1) == m
    ensures Power(m, j + k) == Power(m, j) * Power(m, k)
  {
    assert Power(m, 1) == m * Power(m, 0);
    if j > 0 {
      PowerAdds(m, j - 1, k);
      assert Power(m, j + k) == m * Power(m, j - 1 + k) && Power(m, j) == m * Power(m, j - 1);
      hide Power;
      Regroup(m, Power(m, j - 1), Power(m, k));
    }
  }

  lemma Regroup(a: real, b: real, c: real)
    ensures a * (b * c) == (a * b) * c
  {
  }

  // ---- One delay ----

  /**
    The delay of any attempt under any policy: the exponential, capped if there is a cap, reduced by
    the jitter's share of the random number if there is jitter, in whole milliseconds.
   */
  lemma DelayIsExact(attempt: nat, policy: RetryPolicy, random: real)
    ensures
      var raw := policy.baseDelayMs as real * Power(policy.multiplier, attempt);
      var cap := policy.maxDelayMs as real;
      var capped := if policy.maxDelayMs > 0 && raw > cap then cap else raw;
      var delay := capped * (if policy.jitter > 0.0 then 1.0 - policy.jitter * random else 1.0);
      Delay(attempt, policy, random) == if delay >= 0.0 then delay.Floor else -((-delay).Floor)
  {
    hide Power;
  }

  /** Without jitter an uncapped delay is multiplied from attempt to attempt. */
  lemma UncappedDelayMultiplies(attempt: nat, policy: RetryPolicy, random: real)
    requires policy.baseDelayMs >= 0 && policy.multiplier >= 1.0 && policy.jitter == 0.0 && policy.maxDelayMs <= 0
    ensures
      var exact := policy.baseDelayMs as real * Power(policy.multiplier, attempt);
      && Delay(attempt, policy, random) == exact.Floor
      && Delay(attempt + 1, policy, random) == (exact * policy.multiplier).Floor
  {
    PowerGrows(policy.multiplier, 0, attempt);
    PowerGrows(policy.multiplier, 0, attempt + 1);
    DelayIsExact(attempt, policy, random);
    DelayIsExact(attempt + 1, policy, random);
    var base, m, p := policy.baseDelayMs as real, policy.multiplier, Power(policy.multiplier, attempt);
    assert Power(m, attempt + 1) == m * p;
    hide Power, Delay;
    ProductIsMonotone(base, base, 0.0, p);
    ProductIsMonotone(base, base, 0.0, m * p);
    assert base * (m * p) == base * p * m;
  }

  /** A delay lies between the jitter's share of the capped exponential and the cap. */
  lemma DelayIsBounded(attempt: nat, policy: RetryPolicy, random: real)
    requires Sensible(policy) && 0.0 <= random <= 1.0
    ensures
      var raw := policy.baseDelayMs as real * Power(policy.multiplier, attempt);
      var capped := if raw <= policy.maxDelayMs as real then raw else policy.maxDelayMs as real;
      0 <= ((1.0 - policy.jitter) * capped).Floor <= Delay(attempt, policy, random) <= capped.Floor <= policy.maxDelayMs
  {
    hide *;
    RawSpelledOut(attempt, policy);
    var raw := policy.baseDelayMs as real * Power(policy.multiplier, attempt);
    DelayIsWithin(attempt, policy, random, if raw <= policy.maxDelayMs as real then raw else policy.maxDelayMs as real);
  }

  lemma DelayIsWithin(attempt: nat, policy: RetryPolicy, random: real, capped: real)
    requires Sensible(policy) && 0.0 <= random <= 1.0 && Raw(attempt, policy) == capped
    ensures
      0 <= ((1.0 - policy.jitter) * capped).Floor <= Delay(attempt, policy, random) <= capped.Floor <= policy.maxDelayMs
  {
    RawIsMonotone(policy, attempt, attempt);
    hide Raw, Jittered, Trunc, Exponential;
    DelayShrinks(capped, policy.jitter, random);
  }

  lemma RawSpelledOut(attempt: nat, policy: RetryPolicy)
    requires Sensible(policy)
    ensures
      var raw := policy.baseDelayMs as real * Power(policy.multiplier, attempt);
      Raw(attempt, policy) == if raw <= policy.maxDelayMs as real then raw else policy.maxDelayMs as real
  {
    hide Power;
  }

  lemma DelayShrinks(raw: real, j: real, random: real)
    requires 0.0 <= raw && 0.0 <= j <= 1.0 && 0.0 <= random <= 1.0
    ensures 0 <= ((1.0 - j) * raw).Floor <= Trunc(Jittered(raw, j, random)) <= raw.Floor
  {
    JitterShrinks(raw, j, random);
    var low, middle := (1.0 - j) * raw, raw * (1.0 - j * random);
    TruncIsMonotone(low, middle);
    TruncIsMonotone(middle, raw);
    TruncIsMonotone(low, raw);
  }

  lemma DelayIsBelowExponential(attempt: nat, policy: RetryPolicy, random: real)
    requires Sensible(policy) && 0.0 <= random <= 1.0
    ensures 0 <= Delay(attempt, policy, random) <= policy.maxDelayMs
    ensures Delay(attempt, policy, random) as real <= Exponential(attempt, policy)
  {
    DelayIsBounded(attempt, policy, random);
    hide Exponential, Delay;
  }

  /** Without jitter a later attempt never waits less. */
  lemma DelayGrows(policy: RetryPolicy, j: nat, k: nat, r: real, r': real)
    requires Sensible(policy) && policy.jitter == 0.0 && j <= k
    ensures Delay(j, policy, r) <= Delay(k, policy, r')
  {
    RawIsMonotone(policy, j, k);
    hide Raw;
    TruncIsMonotone(Raw(j, policy), Raw(k, policy));
  }

  // ---- All delays of a task ----

  /** The sum of the delays for these attempts, with the random numbers drawn for each. */
  function Total(policy: RetryPolicy, attempts: seq<nat>, randoms: seq<real>): int
    requires |attempts| == |randoms|
  {
    if attempts == [] then 0
    else
      var last := |attempts| - 1;
      Total(policy, attempts[..last], randoms[..last]) + Delay(attempts[last], policy, randoms[last])
  }

  ghost predicate Drawn(randoms: seq<real>) {
    forall i :: 0 <= i < |randoms| ==> 0.0 <= randoms[i] < 1.0
  }

  /** base * (m^(k+1) - m): the sum of base * m^n for n = 1, ..., k, times m - 1. */
  function Geometric(policy: RetryPolicy, k: nat): real {
    policy.baseDelayMs as real * (Power(policy.multiplier, k + 1) - policy.multiplier)
  }

  function Scaled(x: int, policy: RetryPolicy): real {
    x as real * (policy.multiplier - 1.0)
  }

  lemma {:induction false} TotalIsBounded(policy: RetryPolicy, k: nat, randoms: seq<real>)
    requires Sensible(policy) && |randoms| == k && Drawn(randoms)
    ensures 0 <= Total(policy, ProtocolTokens.Upto(k), randoms) <= k * policy.maxDelayMs
    ensures Scaled(Total(policy, ProtocolTokens.Upto(k), randoms), policy) <= Geometric(policy, k)
  {
    if k == 0 {
      assert Power(policy.multiplier, 1) == policy.multiplier;
    } else {
      assert ProtocolTokens.Upto(k)[..k - 1] == ProtocolTokens.Upto(k - 1);
      TotalIsBounded(policy, k - 1, randoms[..k - 1]);
      hide Delay, Power, Scaled, Geometric, Exponential;
      var before := Total(policy, ProtocolTokens.Upto(k - 1), randoms[..k - 1]);
      OneMoreDelay(policy, k, before, randoms[k - 1]);
    }
  }

  lemma OneMoreDelay(policy: RetryPolicy, k: nat, before: int, random: real)
    requires Sensible(policy) && 0.0 <= random < 1.0 && k > 0
    requires 0 <= before <= (k - 1) * policy.maxDelayMs && Scaled(before, policy) <= Geometric(policy, k - 1)
    ensures
      var total := before + Delay(k, policy, random);
      0 <= total <= k * policy.maxDelayMs && Scaled(total, policy) <= Geometric(policy, k)
  {
    DelayIsBelowExponential(k, policy, random);
    var delay := Delay(k, policy, random);
    hide Delay, Exponential;
    OneMoreTerm(policy, k, before, delay);
    OneMoreCap(k, policy.maxDelayMs);
  }

  lemma OneMoreCap(k: nat, cap: int)
    ensures (k - 1) * cap + cap == k * cap
  {
  }

  lemma OneMoreTerm(policy: RetryPolicy, k: nat, before: int, delay: int)
    requires Sensible(policy) && k > 0 && 0 <= delay && delay as real <= Exponential(k, policy)
    requires Scaled(before, policy) <= Geometric(policy, k - 1)
    ensures Scaled(before + delay, policy) <= Geometric(policy, k)
  {
    var m, base, p := policy.multiplier, policy.baseDelayMs as real, Power(policy.multiplier, k);
    assert Power(m, k + 1) == m * p;
    hide Power;
    NextTerm(before as real, delay as real, base, m, p);
  }

  lemma NextTerm(before: real, delay: real, base: real, m: real, p: real)
    requires before * (m - 1.0) <= base * (p - m) && 0.0 <= delay <= base * p && m >= 1.0
    ensures (before + delay) * (m - 1.0) <= base * (m * p - m)
  {
    ProductIsMonotone(delay, base * p, m - 1.0, m - 1.0);
    assert base * (p - m) + base * p * (m - 1.0) == base * (m * p - m);
  }

  /** The retry policy of the task's vendor and event type, as the run's configuration knows it. */
  predicate PolicyOf(cfg: Protocol.Config, row: Protocol.Task, policy: RetryPolicy) {
    (row.vendor, row.eventType) in cfg.maxAttempts && cfg.maxAttempts[(row.vendor, row.eventType)] == policy.maxAttempts
  }

  /**
    Over its whole life, in any run, a task that was not redelivered is made to wait at most
    (MaxAttempts - 1) * cap, and at most base * (m^MaxAttempts - m) / (m - 1) when m > 1.
   */
  lemma WaitingIsBounded(cfg: Protocol.Config, r: Protocol.Run, i: nat, t: nat, policy: RetryPolicy, randoms: seq<real>)
    requires Protocol.IsRun(cfg, r) && i < |r.states| && t in r.states[i].tasks && t !in r.states[i].history.redelivered
    requires PolicyOf(cfg, r.states[i].tasks[t], policy) && Sensible(policy) && policy.maxAttempts >= 1
    requires |randoms| == |Protocol.AttemptsOf(r.states[i].history, t)| && Drawn(randoms)
    ensures
      var total := Total(policy, Protocol.AttemptsOf(r.states[i].history, t), randoms);
      && 0 <= total <= (policy.maxAttempts - 1) * policy.maxDelayMs
      && (policy.multiplier > 1.0 ==>
            var base, m := policy.baseDelayMs as real, policy.multiplier;
            total as real <= base * (Power(m, policy.maxAttempts) - m) / (m - 1.0))
  {
    hide Protocol.IsRun;
    ProtocolTheorems.AttemptsAreBounded(cfg, r, i, t);
    var attempts := Protocol.AttemptsOf(r.states[i].history, t);
    var k := |attempts|;
    assert Geometric(policy, policy.maxAttempts - 1) ==
      policy.baseDelayMs as real * (Power(policy.multiplier, policy.maxAttempts) - policy.multiplier);
    hide Protocol.AttemptsOf, Geometric, Scaled, Total, Power;
    TotalIsBounded(policy, k, randoms);
    FewerAttempts(policy, k, Total(policy, attempts, randoms));
  }

  lemma FewerAttempts(policy: RetryPolicy, k: nat, total: int)
    requires Sensible(policy) && k + 1 <= policy.maxAttempts
    requires total <= k * policy.maxDelayMs && Scaled(total, policy) <= Geometric(policy, k)
    ensures total <= (policy.maxAttempts - 1) * policy.maxDelayMs
    ensures policy.multiplier > 1.0 ==>
        total as real <= Geometric(policy, policy.maxAttempts - 1) / (policy.multiplier - 1.0)
  {
    assert Scaled(total, policy) == total as real * (policy.multiplier - 1.0);
    hide Geometric, Scaled;
    MoreCaps(k, policy.maxAttempts - 1, policy.maxDelayMs);
    GeometricGrows(policy, k, policy.maxAttempts - 1);
    if policy.multiplier > 1.0 {
      Divide(total as real, policy.multiplier - 1.0, Geometric(policy, policy.maxAttempts - 1));
    }
  }

  lemma MoreCaps(j: nat, k: nat, cap: int)
    requires j <= k && cap >= 0
    ensures j * cap <= k * cap
  {
    assert k * cap - j * cap == (k - j) * cap;
  }

  lemma GeometricGrows(policy: RetryPolicy, j: nat, k: nat)
    requires Sensible(policy) && j <= k
    ensures Geometric(policy, j) <= Geometric(policy, k)
  {
    var m, base := policy.multiplier, policy.baseDelayMs as real;
    PowerGrows(m, 1, j + 1);
    PowerGrows(m, j + 1, k + 1);
    assert Power(m, 1) == m;
    hide Power;
    DifferenceGrows(base, m, Power(m, j + 1), Power(m, k + 1));
  }

  lemma DifferenceGrows(base: real, m: real, p: real, q: real)
    requires 0.0 <= base && m <= p <= q
    ensures base * (p - m) <= base * (q - m)
  {
    ProductIsMonotone(base, base, p - m, q - m);
  }

  lemma Divide(x: real, d: real, y: real)
    requires d > 0.0 && x * d <= y
    ensures x <= y / d
  {
    assert y / d - x == (y - x * d) / d;
  }
}
