/** Bounded exponential retry with jitter. Delays are real numbers: rounding of floats is not modelled. */
module Retry {

  predicate ShouldRetry(maximumAttempts: nat, transient: bool, attempt: nat) {
    transient && attempt < maximumAttempts
  }

  function Pow2(n: nat): nat {
    if n == 0 then 1 else 2 * Pow2(n - 1)
  }

  function Min(a: real, b: real): real {
    if a <= b then a else b
  }

  function Times(a: real, b: real): real {
    a * b
  }

  function Clamp(x: real): real {
    if x < 0.0 then 0.0 else if x > 1.0 then 1.0 else x
  }

  /** What one call of the retried operation comes to. */
  datatype Outcome = Success | Failure(transient: bool)

  class RetryPolicy {
    const maximumAttempts: nat
    const baseDelay: real
    const maximumDelay: real
    const jitter: nat -> real

    ghost predicate Valid() {
      maximumAttempts >= 1 && baseDelay > 0.0 && maximumDelay > 0.0
    }

    constructor (maximumAttempts: nat, baseDelay: real, maximumDelay: real, jitter: nat -> real)
      requires maximumAttempts >= 1 && baseDelay > 0.0 && maximumDelay > 0.0
      ensures Valid() && this.maximumAttempts == maximumAttempts
      ensures this.baseDelay == baseDelay && this.maximumDelay == maximumDelay && this.jitter == jitter
    {
      this.maximumAttempts, this.baseDelay, this.maximumDelay, this.jitter := maximumAttempts, baseDelay, maximumDelay, jitter;
    }

    /** The delay after the given attempt, with the `draw`-th jitter value: within a fifth of the capped exponential. */
    function Delay(attempt: nat, draw: nat): (r: real)
      requires Valid() && attempt >= 1
      ensures 0.8 * Exponential(baseDelay, maximumDelay, attempt) <= r <= 1.2 * Exponential(baseDelay, maximumDelay, attempt)
    {
      ExponentialIsPositive(baseDelay, maximumDelay, attempt);
      var factor := 0.8 + Clamp(jitter(draw)) * 0.4;
      Scaled(Exponential(baseDelay, maximumDelay, attempt), factor);
      Times(Exponential(baseDelay, maximumDelay, attempt), factor)
    }

    /** The engine's retry loop around a remote call, from attempt 0: how often it calls and how long it sleeps. */
    method Attempts(outcome: nat -> Outcome) returns (calls: nat, slept: real)
      requires Valid()
      ensures 1 <= calls <= maximumAttempts
      ensures forall i | 1 <= i < calls :: outcome(i) == Failure(true)
      ensures calls == maximumAttempts || outcome(calls) != Failure(true)
      ensures 0.0 <= slept <= 1.2 * Min(Times((maximumAttempts - 1) as real, maximumDelay),
                                        Times(baseDelay, (Pow2(maximumAttempts - 1) - 1) as real))
    {
      calls, slept := 0, 0.0;
      while true
        invariant calls < maximumAttempts
        invariant forall i | 1 <= i <= calls :: outcome(i) == Failure(true)
        invariant 0.0 <= slept <= 1.2 * Total(baseDelay, maximumDelay, calls)
        decreases maximumAttempts - calls
      {
        calls := calls + 1;
        var result := outcome(calls);
        if result.Success? || !ShouldRetry(maximumAttempts, result.transient, calls) {
          TotalIsCapped(baseDelay, maximumDelay, maximumAttempts - 1, calls - 1);
          TotalIsGeometric(baseDelay, maximumDelay, maximumAttempts - 1, calls - 1);
          return;
        }
        ExponentialIsPositive(baseDelay, maximumDelay, calls);
        slept := slept + Delay(calls, calls);
      }
    }
  }

  /** The delay before jitter: doubling from the base, capped. */
  function Exponential(base: real, cap: real, attempt: nat): real
    requires attempt >= 1
  {
    Min(cap, base * Pow2(attempt - 1) as real)
  }

  /** From the base delay each delay is twice the one before it, up to the cap, for one and the same jitter. */
  lemma DelaysDouble(policy: RetryPolicy, attempt: nat, draw: nat, next: nat)
    requires policy.Valid() && attempt >= 1 && policy.jitter(next) == policy.jitter(draw)
    ensures var factor := 0.8 + 0.4 * Clamp(policy.jitter(draw));
            && policy.Delay(1, draw) == Times(Min(policy.baseDelay, policy.maximumDelay), factor)
            && policy.Delay(attempt + 1, next) == Min(2.0 * policy.Delay(attempt, draw), Times(policy.maximumDelay, factor))
  {
    hide Min, Times, Clamp, Pow2;
    var base, cap, factor := policy.baseDelay, policy.maximumDelay, 0.8 + 0.4 * Clamp(policy.jitter(draw));
    ClampIsFraction(policy.jitter(draw));
    DelayIs(policy, 1, draw);
    DelayIs(policy, attempt, draw);
    DelayIs(policy, attempt + 1, next);
    FirstPower(base);
    FirstDelay(base, cap, factor);
    PowDoubles(base, attempt);
    DoubledAndCapped(Raw(base, attempt), cap, factor);
  }

  /** The delay that neither cap nor jitter has touched. */
  function Raw(base: real, attempt: nat): real
    requires attempt >= 1
  {
    base * Pow2(attempt - 1) as real
  }

  lemma DelayIs(policy: RetryPolicy, attempt: nat, draw: nat)
    requires policy.Valid() && attempt >= 1
    ensures policy.Delay(attempt, draw)
            == Times(Min(policy.maximumDelay, Raw(policy.baseDelay, attempt)), 0.8 + 0.4 * Clamp(policy.jitter(draw)))
    ensures Raw(policy.baseDelay, attempt) > 0.0
  {
    hide Min, Times, Clamp;
    RawIsPositive(policy.baseDelay, attempt);
  }

  lemma RawIsPositive(base: real, attempt: nat)
    requires base > 0.0 && attempt >= 1
    ensures Raw(base, attempt) > 0.0
  {
    PowIsPositive(attempt - 1);
    hide Pow2;
    Positive(base, Pow2(attempt - 1) as real);
  }

  lemma ClampIsFraction(x: real)
    ensures 0.0 <= Clamp(x) <= 1.0
  {
  }

  lemma FirstPower(base: real)
    ensures Raw(base, 1) == base
  {
  }

  lemma FirstDelay(base: real, cap: real, factor: real)
    ensures Times(Min(cap, base), factor) == Times(Min(base, cap), factor)
  {
  }

  lemma PowDoubles(base: real, attempt: nat)
    requires attempt >= 1
    ensures Raw(base, attempt + 1) == 2.0 * Raw(base, attempt)
  {
    assert Pow2(attempt) == 2 * Pow2(attempt - 1);
    Twice(base, Pow2(attempt - 1));
  }

  lemma Twice(base: real, p: nat)
    ensures base * (2 * p) as real == 2.0 * (base * p as real)
  {
  }

  lemma DoubledAndCapped(x: real, cap: real, factor: real)
    requires x > 0.0 && cap > 0.0 && factor > 0.0
    ensures Times(Min(cap, 2.0 * x), factor) == Min(2.0 * Times(Min(cap, x), factor), Times(cap, factor))
  {
    if 2.0 * x <= cap {
      Nonnegative(factor, cap - 2.0 * x);
      assert factor * (cap - 2.0 * x) == factor * cap - 2.0 * (x * factor);
    } else if x <= cap {
      Nonnegative(factor, 2.0 * x - cap);
      assert factor * (2.0 * x - cap) == 2.0 * (x * factor) - factor * cap;
    } else {
      Nonnegative(factor, cap);
    }
  }

  /** The sum of the first `n` unjittered delays. */
  ghost function Total(base: real, cap: real, n: nat): real {
    if n == 0 then 0.0 else Total(base, cap, n - 1) + Exponential(base, cap, n)
  }

  lemma PowIsPositive(n: nat)
    ensures Pow2(n) >= 1
  {
  }

  lemma ExponentialIsPositive(base: real, cap: real, attempt: nat)
    requires base > 0.0 && cap > 0.0 && attempt >= 1
    ensures Exponential(base, cap, attempt) > 0.0
  {
    PowIsPositive(attempt - 1);
    Positive(base, Pow2(attempt - 1) as real);
  }

  lemma Positive(a: real, b: real)
    requires a > 0.0 && b >= 1.0
    ensures a * b >= a
  {
  }

  lemma Scaled(e: real, f: real)
    requires e > 0.0 && 0.8 <= f <= 1.2
    ensures 0.8 * e <= Times(e, f) <= 1.2 * e
  {
    Nonnegative(e, f - 0.8);
    Nonnegative(e, 1.2 - f);
    assert e * (f - 0.8) == e * f - 0.8 * e;
    assert e * (1.2 - f) == 1.2 * e - e * f;
  }

  lemma Nonnegative(a: real, b: real)
    requires a >= 0.0 && b >= 0.0
    ensures a * b >= 0.0
  {
  }

  /** Two bounds on the total: every delay capped, and the geometric sum. */
  lemma {:induction false} TotalIsCapped(base: real, cap: real, n: nat, k: nat)
    requires base > 0.0 && cap > 0.0 && k <= n
    ensures 0.0 <= Total(base, cap, k) <= Times(n as real, cap)
    decreases n
  {
    hide Times, Pow2;
    Steps((n as real) - 1.0, cap);
    if n > 0 {
      TotalIsCapped(base, cap, n - 1, if k < n then k else n - 1);
      ExponentialIsPositive(base, cap, n);
      assert (n - 1) as real == n as real - 1.0;
    }
  }

  lemma {:induction false} TotalIsGeometric(base: real, cap: real, n: nat, k: nat)
    requires base > 0.0 && cap > 0.0 && k <= n
    ensures Total(base, cap, k) <= Times(base, (Pow2(n) - 1) as real)
    decreases n
  {
    hide Times;
    PowIsPositive(n);
    assert n == 0 ==> (Pow2(n) - 1) as real == 0.0;
    NoTime(base);
    if n > 0 {
      TotalIsGeometric(base, cap, n - 1, if k < n then k else n - 1);
      PowIsPositive(n - 1);
      Positive(base, Pow2(n - 1) as real);
      assert (Pow2(n) - 1) as real == (Pow2(n - 1) - 1) as real + Pow2(n - 1) as real;
      Distributes(base, (Pow2(n - 1) - 1) as real, Pow2(n - 1) as real);
    }
  }

  lemma Steps(a: real, c: real)
    ensures Times(a + 1.0, c) == Times(a, c) + c && Times(0.0, c) == 0.0
  {
  }

  lemma NoTime(a: real)
    ensures Times(a, 0.0) == 0.0
  {
  }

  lemma Distributes(a: real, b: real, c: real)
    ensures Times(a, b + c) == Times(a, b) + a * c
  {
  }
}
