/**
 Delays between retries (zel_core/src/protocol/retry.rs), without jitter and with the multiplier as an
 exact number.  The policy multiplies the previous delay and cuts it off at the maximum; the
 documentation gives the closed form.
 */
module Backoff {
  type Duration = d: real | 0.0 <= d witness 0.0

  datatype Policy = Policy(initial: Duration, max: Duration, multiplier: real)

  predicate Valid(p: Policy) {
    p.initial < p.max && 1.0 < p.multiplier
  }

  function Min(a: real, b: real): real {
    if a <= b then a else b
  }

  /** The delay after one of length d. */
  function Next(p: Policy, d: Duration): Duration
    requires Valid(p)
  {
    ProductPositive(d, p.multiplier);
    Min(d * p.multiplier, p.max)
  }

  function Delay(p: Policy, i: nat): Duration
    requires Valid(p)
  {
    if i == 0 then p.initial else Next(p, Delay(p, i - 1))
  }

  function Power(x: real, n: nat): real {
    if n == 0 then 1.0 else x * Power(x, n - 1)
  }

  /** multiplier^n. */
  function Growth(p: Policy, n: nat): real {
    Power(p.multiplier, n)
  }

  /** The documented formula before the cut: initial * multiplier^i. */
  function Uncut(p: Policy, i: nat): real {
    p.initial * Growth(p, i)
  }

  /** The geometric series of n uncut delays: initial * (multiplier^n - 1) / (multiplier - 1). */
  function Series(p: Policy, n: nat): real
    requires Valid(p)
  {
    p.initial * (Growth(p, n) - 1.0) / (p.multiplier - 1.0)
  }

  function Total(p: Policy, n: nat): real
    requires Valid(p)
  {
    if n == 0 then 0.0 else Total(p, n - 1) + Delay(p, n - 1)
  }

  lemma ProductPositive(a: real, b: real)
    requires 0.0 <= a && 0.0 <= b
    ensures 0.0 <= a * b
  {
  }

  lemma ProductGrows(a: real, m: real)
    requires 0.0 <= a && 1.0 < m
    ensures a <= a * m && (0.0 < a ==> a < a * m)
  {
    ProductPositive(a, m - 1.0);
    assert a * m == a + a * (m - 1.0);
  }

  lemma {:induction false} PowerPositive(x: real, n: nat)
    requires 1.0 < x
    ensures 1.0 <= Power(x, n)
  {
    if n > 0 {
      PowerPositive(x, n - 1);
      ProductGrows(Power(x, n - 1), x);
    }
  }

  /** Cutting off before multiplying makes no difference once the result is cut off as well. */
  lemma CutOffEarly(u: real, m: real, max: real)
    requires 0.0 <= u && 1.0 < m && 0.0 <= max
    ensures Min(Min(u, max) * m, max) == Min(u * m, max)
  {
    ProductGrows(max, m);
    ProductGrows(u, m);
  }

  lemma NextCut(p: Policy, d: Duration, u: real)
    requires Valid(p) && 0.0 <= u && d == Min(u, p.max)
    ensures Next(p, d) == Min(u * p.multiplier, p.max)
  {
    CutOffEarly(u, p.multiplier, p.max);
  }

  lemma GrowthStep(p: Policy, n: nat)
    requires Valid(p)
    ensures Growth(p, 0) == 1.0
    ensures 1.0 <= Growth(p, n)
    ensures Growth(p, n + 1) == p.multiplier * Growth(p, n)
  {
    PowerPositive(p.multiplier, n);
  }

  lemma UncutStep(p: Policy, i: nat)
    requires Valid(p)
    ensures 0.0 <= Uncut(p, i)
    ensures Uncut(p, i + 1) == Uncut(p, i) * p.multiplier
  {
    hide Growth;
    GrowthStep(p, i);
    var q := Growth(p, i);
    ProductPositive(p.initial, q);
    assert p.initial * (p.multiplier * q) == p.initial * q * p.multiplier;
  }

  /** The i-th delay is initial * multiplier^i, cut off at the maximum. */
  lemma {:induction false} DelayClosedForm(p: Policy, i: nat)
    requires Valid(p)
    ensures Delay(p, i) == Min(Uncut(p, i), p.max)
  {
    hide Uncut, Next;
    if i == 0 {
      UncutAtZero(p);
    } else {
      DelayClosedForm(p, i - 1);
      UncutStep(p, i - 1);
      NextCut(p, Delay(p, i - 1), Uncut(p, i - 1));
    }
  }

  lemma UncutAtZero(p: Policy)
    ensures Uncut(p, 0) == p.initial
  {
  }

  lemma NextGrows(p: Policy, d: Duration)
    requires Valid(p) && d <= p.max
    ensures d <= Next(p, d) <= p.max
    ensures 0.0 < d < p.max ==> d < Next(p, d)
  {
    ProductGrows(d, p.multiplier);
  }

  /** Delays never decrease, never exceed the maximum, and grow strictly until they reach it, unless the
      initial delay is 0. */
  lemma {:induction false} DelaysGrow(p: Policy, i: nat)
    requires Valid(p)
    ensures Delay(p, i) <= Delay(p, i + 1) <= p.max
    ensures 0.0 < p.initial && Delay(p, i) < p.max ==> Delay(p, i) < Delay(p, i + 1)
    ensures 0.0 < p.initial ==> 0.0 < Delay(p, i)
  {
    if i > 0 {
      DelaysGrow(p, i - 1);
    }
    NextGrows(p, Delay(p, i));
  }

  lemma SeriesUnfolds(p: Policy, n: nat)
    requires Valid(p)
    ensures Series(p, n) * (p.multiplier - 1.0) == p.initial * (Growth(p, n) - 1.0)
  {
    hide Growth;
    QuotientTimes(p.initial * (Growth(p, n) - 1.0), p.multiplier - 1.0);
  }

  lemma QuotientTimes(b: real, d: real)
    requires 0.0 < d
    ensures b / d * d == b
  {
  }

  lemma EqualByFactor(x: real, y: real, d: real)
    requires x * d == y * d && 0.0 < d
    ensures x == y
  {
  }

  lemma StepByFactor(x: real, a: real, q: real, r: real, m: real)
    requires x * (m - 1.0) == a * (q - 1.0) && r == m * q
    ensures (x + a * q) * (m - 1.0) == a * (r - 1.0)
  {
  }

  lemma SeriesStep(p: Policy, n: nat)
    requires Valid(p)
    ensures Series(p, n + 1) == Series(p, n) + Uncut(p, n)
  {
    hide Growth, Series;
    GrowthStep(p, n);
    SeriesUnfolds(p, n);
    SeriesUnfolds(p, n + 1);
    StepByFactor(Series(p, n), p.initial, Growth(p, n), Growth(p, n + 1), p.multiplier);
    EqualByFactor(Series(p, n + 1), Series(p, n) + Uncut(p, n), p.multiplier - 1.0);
  }

  lemma SeriesAtZero(p: Policy)
    requires Valid(p)
    ensures Series(p, 0) == 0.0
  {
    hide Series;
    SeriesUnfolds(p, 0);
    EqualByFactor(Series(p, 0), 0.0, p.multiplier - 1.0);
  }

  lemma OneMoreDelay(n: nat, max: real)
    ensures (n + 1) as real * max == n as real * max + max
  {
  }

  /** n delays take at most n times the maximum, and at most what the geometric series without the cut
      would take. */
  lemma {:induction false} TotalBounded(p: Policy, n: nat)
    requires Valid(p)
    ensures Total(p, n) <= n as real * p.max
    ensures Total(p, n) <= Series(p, n)
  {
    hide Uncut, Series, Next;
    if n == 0 {
      SeriesAtZero(p);
    } else {
      TotalBounded(p, n - 1);
      DelayClosedForm(p, n - 1);
      SeriesStep(p, n - 1);
      OneMoreDelay(n - 1, p.max);
    }
  }
}
