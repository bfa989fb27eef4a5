/** Retrying a step: how often it is tried, and how long the waits between the tries are. */
module Retry {
  /** `backoffMultiplier` is a fraction of a wait; the delays are milliseconds. */
  datatype RetryPolicy = RetryPolicy(maxRetries: int, backoffMultiplier: real, initialDelayMs: int, maxDelayMs: int)

  /** The policy of a step, or that of its workflow when the step asks for no retries. */
  function ChosenPolicy(step: RetryPolicy, workflowDefault: RetryPolicy): RetryPolicy
  {
    if step.maxRetries == 0 then workflowDefault else step
  }

  function Min(a: int, b: int): int { if a <= b then a else b }

  /** Conversion to an integer drops the fraction. */
  function Truncated(x: real): int { if x >= 0.0 then x.Floor else -((-x).Floor) }

  function Times(a: real, b: real): real { a * b }

  function NextDelay(p: RetryPolicy, delay: int): int
  {
    Min(Truncated(Times(delay as real, p.backoffMultiplier)), p.maxDelayMs)
  }

  /** The wait after failure number `k`. The first one is not capped. */
  function Delay(p: RetryPolicy, k: nat): int
  {
    if k == 0 then p.initialDelayMs else NextDelay(p, Delay(p, k - 1))
  }

  function Delays(p: RetryPolicy, n: nat): seq<int> { seq(n, k requires 0 <= k => Delay(p, k)) }

  lemma NoDelays(p: RetryPolicy)
    ensures Delays(p, 0) == [] && Delay(p, 0) == p.initialDelayMs
  {
  }

  lemma OneMoreDelay(p: RetryPolicy, k: nat)
    ensures Delays(p, k) + [Delay(p, k)] == Delays(p, k + 1)
    ensures Delay(p, k + 1) == NextDelay(p, Delay(p, k))
  {
  }

  /** The first try that succeeds among those the policy allows, if there is one. */
  ghost predicate SucceedsAt(p: RetryPolicy, succeeds: nat -> bool, k: int)
  {
    0 <= k <= p.maxRetries && succeeds(k) && forall j: nat | j < k :: !succeeds(j)
  }

  ghost predicate NeverSucceeds(p: RetryPolicy, succeeds: nat -> bool)
  {
    forall k: nat | k <= p.maxRetries :: !succeeds(k)
  }

  /** Tries a step until it succeeds or the retries are used up, waiting in between.
      `succeeds` tells the outcome of each try. */
  method ExecuteStepWithRetry(p: RetryPolicy, succeeds: nat -> bool)
    returns (ok: bool, tries: nat, sleeps: seq<int>)
    ensures ok ==> SucceedsAt(p, succeeds, tries - 1) && sleeps == Delays(p, tries - 1)
    ensures !ok ==> NeverSucceeds(p, succeeds)
    ensures !ok && p.maxRetries >= 0 ==> tries == p.maxRetries + 1 && sleeps == Delays(p, p.maxRetries)
    ensures !ok && p.maxRetries < 0 ==> tries == 0 && sleeps == []
  {
    hide Truncated, Times, Min, Delay, Delays;
    NoDelays(p);
    var attempt := 0;
    var delay := p.initialDelayMs;
    sleeps := [];
    while attempt <= p.maxRetries
      invariant 0 <= attempt && (0 <= p.maxRetries ==> attempt <= p.maxRetries + 1)
      invariant p.maxRetries < 0 ==> attempt == 0
      invariant forall j: nat | j < attempt :: !succeeds(j)
      invariant sleeps == Delays(p, if attempt <= p.maxRetries then attempt else if attempt == 0 then 0 else attempt - 1)
      invariant attempt <= p.maxRetries ==> delay == Delay(p, attempt)
      decreases p.maxRetries - attempt
    {
      if succeeds(attempt) {
        return true, attempt + 1, sleeps;
      }
      attempt := attempt + 1;
      if attempt <= p.maxRetries {
        OneMoreDelay(p, attempt - 1);
        sleeps := sleeps + [delay];
        delay := Truncated(Times(delay as real, p.backoffMultiplier));
        delay := Min(delay, p.maxDelayMs);
      }
    }
    return false, attempt, sleeps;
  }

  // ---- bounds on the waits

  function Sum(xs: seq<int>): int
    decreases |xs|
  {
    if xs == [] then 0 else Sum(xs[..|xs| - 1]) + xs[|xs| - 1]
  }

  /** Every wait after the first is within the cap. */
  lemma LaterDelaysAreCapped(p: RetryPolicy, k: nat)
    requires k > 0
    ensures Delay(p, k) <= p.maxDelayMs
  {
  }

  /** All waits together: the first one as configured, the others at most the cap. */
  lemma {:induction false} TotalSleep(p: RetryPolicy, n: nat)
    requires n > 0
    ensures Sum(Delays(p, n)) <= p.initialDelayMs + (n - 1) * p.maxDelayMs
    decreases n
  {
    LastDelay(p, n);
    hide Delay, Delays, Sum;
    if n > 1 {
      TotalSleep(p, n - 1);
      LaterDelaysAreCapped(p, n - 1);
      OnceMore(n - 1, p.maxDelayMs);
    }
  }

  lemma LastDelay(p: RetryPolicy, n: nat)
    requires n > 0
    ensures Sum(Delays(p, n)) == Sum(Delays(p, n - 1)) + Delay(p, n - 1)
    ensures Sum(Delays(p, 0)) == 0 && Delay(p, 0) == p.initialDelayMs
  {
    OneMoreDelay(p, n - 1);
    NoDelays(p);
    assert (Delays(p, n - 1) + [Delay(p, n - 1)])[..n - 1] == Delays(p, n - 1);
    hide Truncated, Times, Min, Delays;
  }

  lemma OnceMore(n: nat, x: int)
    requires n > 0
    ensures n * x == (n - 1) * x + x
  {
  }

  lemma GrowsByMultiplier(x: int, m: real)
    requires x >= 0 && m >= 1.0
    ensures Truncated(Times(x as real, m)) >= x
  {
    assert x as real * m >= x as real;
  }

  lemma NextDelayGrows(p: RetryPolicy, delay: int)
    requires p.backoffMultiplier >= 1.0 && 0 <= delay <= p.maxDelayMs
    ensures delay <= NextDelay(p, delay) <= p.maxDelayMs
  {
    hide Truncated, Times;
    GrowsByMultiplier(delay, p.backoffMultiplier);
  }

  /** With a multiplier of at least one and a first wait within the cap, no wait is shorter
      than the one before. */
  lemma {:induction false} DelaysDoNotShrink(p: RetryPolicy, k: nat)
    requires p.backoffMultiplier >= 1.0 && 0 <= p.initialDelayMs <= p.maxDelayMs
    ensures 0 <= Delay(p, k) <= Delay(p, k + 1) <= p.maxDelayMs
    decreases k
  {
    hide NextDelay;
    if k > 0 {
      DelaysDoNotShrink(p, k - 1);
    }
    NextDelayGrows(p, Delay(p, k));
  }

  function Power(m: real, k: nat): real { if k == 0 then 1.0 else Times(Power(m, k - 1), m) }

  lemma TruncationIsBelow(x: real)
    requires x >= 0.0
    ensures 0.0 <= Truncated(x) as real <= x
  {
  }

  lemma TimesKeepsOrder(m: real, a: real, b: real)
    requires m >= 0.0 && 0.0 <= a <= b
    ensures 0.0 <= Times(a, m) <= Times(b, m)
  {
  }

  lemma NextDelayIsBelow(p: RetryPolicy, delay: int, bound: real)
    requires p.backoffMultiplier >= 0.0 && 0 <= p.maxDelayMs && 0.0 <= delay as real <= bound
    ensures 0.0 <= NextDelay(p, delay) as real <= Times(bound, p.backoffMultiplier)
  {
    hide Truncated, Times;
    TimesKeepsOrder(p.backoffMultiplier, delay as real, bound);
    TruncationIsBelow(Times(delay as real, p.backoffMultiplier));
  }

  lemma TimesAssociates(a: real, b: real, c: real)
    ensures Times(Times(a, b), c) == Times(a, Times(b, c))
  {
  }

  /** The waits stay within the geometric series of the multiplier. */
  lemma {:induction false} DelayIsGeometric(p: RetryPolicy, k: nat)
    requires p.backoffMultiplier >= 0.0 && 0 <= p.initialDelayMs && 0 <= p.maxDelayMs
    ensures 0.0 <= Delay(p, k) as real <= Times(p.initialDelayMs as real, Power(p.backoffMultiplier, k))
    decreases k
  {
    var m, first := p.backoffMultiplier, p.initialDelayMs as real;
    if k > 0 {
      hide NextDelay, Times;
      DelayIsGeometric(p, k - 1);
      NextDelayIsBelow(p, Delay(p, k - 1), Times(first, Power(m, k - 1)));
      TimesAssociates(first, Power(m, k - 1), m);
    }
  }

  /** Once a wait has reached the cap all later ones are the cap. */
  lemma CapIsReachedForGood(p: RetryPolicy, k: nat, later: nat)
    requires p.backoffMultiplier >= 1.0 && 0 <= p.initialDelayMs <= p.maxDelayMs
    requires Delay(p, k) == p.maxDelayMs && k <= later
    ensures Delay(p, later) == p.maxDelayMs
    decreases later
  {
    if k < later {
      CapIsReachedForGood(p, k, later - 1);
      DelaysDoNotShrink(p, later - 1);
    }
  }

  // ---- the waits themselves

  /** Every later wait is the one before it times the multiplier without its fraction, or the cap where that is
      less. */
  lemma DelayExactly(p: RetryPolicy, k: nat)
    requires p.backoffMultiplier >= 0.0 && Delay(p, k) >= 0
    ensures var product, next := Times(Delay(p, k) as real, p.backoffMultiplier), Delay(p, k + 1);
            && next <= p.maxDelayMs && next as real <= product
            && (next == p.maxDelayMs || product < next as real + 1.0)
  {
    var x := Times(Delay(p, k) as real, p.backoffMultiplier);
    TimesKeepsOrder(p.backoffMultiplier, 0.0, Delay(p, k) as real);
    NextDelayIs(p, k);
    hide Times, Delay;
    TruncatedBounds(x);
    hide Truncated;
  }

  lemma NextDelayIs(p: RetryPolicy, k: nat)
    ensures Delay(p, k + 1) == Min(Truncated(Times(Delay(p, k) as real, p.backoffMultiplier)), p.maxDelayMs)
  {
    hide Times, Truncated, Min;
  }

  lemma TruncatedBounds(x: real)
    requires x >= 0.0
    ensures Truncated(x) as real <= x < Truncated(x) as real + 1.0
  {
  }

  function IntPower(m: nat, k: nat): nat { if k == 0 then 1 else IntPower(m, k - 1) * m }

  lemma WholeProduct(a: int, m: nat)
    requires a >= 0
    ensures Truncated(Times(a as real, m as real)) == a * m
  {
    assert a as real * m as real == (a * m) as real;
  }

  lemma CappedProduct(x: int, cap: int, m: nat)
    requires m >= 1 && 0 <= cap && 0 <= x
    ensures Min(Min(x, cap) * m, cap) == Min(x * m, cap)
  {
    ProductOrder(cap, x, m);
    ProductOrder(1, m, cap);
  }

  lemma ProductOrder(a: int, b: int, m: nat)
    ensures a <= b ==> a * m <= b * m
    ensures a == 1 ==> a * m == m && b * m == m * b
  {
  }

  /** With a whole multiplier the waits are the first one times its powers, each cut at the cap. */
  lemma {:induction false} DelayIsCappedPower(p: RetryPolicy, m: nat, k: nat)
    requires m >= 1 && p.backoffMultiplier == m as real && 0 <= p.initialDelayMs <= p.maxDelayMs
    ensures Delay(p, k) == Min(p.initialDelayMs * IntPower(m, k), p.maxDelayMs)
    decreases k
  {
    if k > 0 {
      DelayIsCappedPower(p, m, k - 1);
      var before := p.initialDelayMs * IntPower(m, k - 1);
      assert before >= 0;
      WholeProduct(Delay(p, k - 1), m);
      CappedProduct(before, p.maxDelayMs, m);
      PowerStep(p.initialDelayMs, m, k);
      hide Truncated, Times, Min;
    }
  }

  lemma PowerStep(a: int, m: nat, k: nat)
    requires k > 0
    ensures a * IntPower(m, k) == a * IntPower(m, k - 1) * m
  {
  }
}
