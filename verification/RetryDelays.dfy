/** Exponential backoff: the list of delays built for a task and the delays its retries then wait. */
module RetryDelays {
  import opened Wrappers
  import opened TaskEngine

  function Pow2(n: nat): nat { if n == 0 then 1 else 2 * Pow2(n - 1) }

  function Cap(retries: int): nat { if retries < 0 then 0 else if retries < 50 then retries else 50 }

  /** `exponential_backoff(factor)(retries)`: at most 50 delays, doubling each time. */
  function ExponentialBackoff(factor: real, retries: int): seq<real> {
    seq(Cap(retries), r requires 0 <= r => factor * Pow2(r) as real)
  }

  /** `Task.__init__` rejects longer lists. */
  predicate AcceptedByTask(d: Delays) { d.Listed? ==> |d.list| <= 50 }

  function Sum(s: seq<real>): real { if s == [] then 0.0 else Sum(s[..|s| - 1]) + s[|s| - 1] }

  /** The delays of the first `n` retries. */
  function Waits(d: Delays, n: nat): seq<real>
    requires d.Truthy()
  {
    seq(n, i requires 0 <= i => d.Chosen(i))
  }

  lemma {:induction false} Pow2Grows(i: nat, j: nat)
    requires i <= j
    ensures 1 <= Pow2(i) <= Pow2(j)
    decreases j
  {
    if i < j { Pow2Grows(i, j - 1); } else if i > 0 { Pow2Grows(i - 1, j - 1); }
  }

  lemma Scale(factor: real, a: nat, b: nat)
    requires factor >= 0.0 && a <= b
    ensures factor * a as real <= factor * b as real
  {}

  /** The delay before retry `i` with a list of `m`. */
  function DelayAt(factor: real, m: nat, i: nat): real
    requires m >= 1
  {
    factor * Pow2(if i < m then i else m - 1) as real
  }

  /** The backoff list is accepted, never empty when there are retries, and the delay before retry `i` is
      the factor times two to the `i`, up to the last listed delay, which then repeats. */
  lemma BackoffDelay(factor: real, retries: nat, i: nat)
    requires retries >= 1
    ensures var d, m := Listed(ExponentialBackoff(factor, retries)), Cap(retries);
            && AcceptedByTask(d) && d.Truthy() && |d.list| == m == (if retries < 50 then retries else 50)
            && d.Chosen(i) == DelayAt(factor, m, i) && DelayBefore(d, i) == Some(d.Chosen(i))
  {}

  /** Delays never decrease. */
  lemma BackoffGrows(factor: real, retries: nat, i: nat, j: nat)
    requires factor >= 0.0 && retries >= 1 && i <= j
    ensures var d := Listed(ExponentialBackoff(factor, retries)); d.Chosen(i) <= d.Chosen(j)
  {
    BackoffDelay(factor, retries, i);
    BackoffDelay(factor, retries, j);
    DelayAtGrows(factor, Cap(retries), i, j);
  }

  lemma DelayAtGrows(factor: real, m: nat, i: nat, j: nat)
    requires factor >= 0.0 && m >= 1 && i <= j
    ensures DelayAt(factor, m, i) <= DelayAt(factor, m, j)
  {
    var a, b := if i < m then i else m - 1, if j < m then j else m - 1;
    Pow2Grows(a, b);
    Scale(factor, Pow2(a), Pow2(b));
  }

  /** The total of the first `n` delays of a list of `m`. */
  function Total(factor: real, m: nat, n: nat): real
    requires m >= 1
  {
    if n <= m then factor * (Pow2(n) - 1) as real
    else factor * (Pow2(m) - 1) as real + OverTime(factor * Pow2(m - 1) as real, n - m)
  }

  function OverTime(unit: real, times: nat): real { times as real * unit }

  lemma TotalStep(factor: real, m: nat, n: nat)
    requires m >= 1 && n >= 1
    ensures Total(factor, m, n) == Total(factor, m, n - 1) + DelayAt(factor, m, n - 1)
  {
    if n <= m {
      Distribute(factor, Pow2(n - 1));
    } else {
      OneMore(factor * Pow2(m - 1) as real, n - m - 1);
    }
  }

  lemma OneMore(unit: real, times: nat)
    ensures OverTime(unit, times + 1) == OverTime(unit, times) + unit && OverTime(unit, 0) == 0.0
  {
    assert (times + 1) as real == times as real + 1.0;
  }

  lemma Distribute(factor: real, p: nat)
    ensures factor * (2 * p - 1) as real == factor * (p - 1) as real + factor * p as real
  {
    assert (p - 1) as real + p as real == (2 * p - 1) as real;
  }

  lemma {:induction false} PrefixTotal(d: Delays, factor: real, m: nat, n: nat)
    requires d.Truthy() && m >= 1 && forall i: nat :: d.Chosen(i) == DelayAt(factor, m, i)
    ensures Sum(Waits(d, n)) == Total(factor, m, n)
  {
    if n == 0 {
      NoWait(d, factor, m);
    } else {
      PrefixTotal(d, factor, m, n - 1);
      OneMoreWait(d, n);
      TotalStep(factor, m, n);
    }
  }

  lemma NoWait(d: Delays, factor: real, m: nat)
    requires d.Truthy() && m >= 1
    ensures Sum(Waits(d, 0)) == 0.0 == Total(factor, m, 0)
  {
    assert Waits(d, 0) == [];
  }

  lemma OneMoreWait(d: Delays, n: nat)
    requires d.Truthy() && n >= 1
    ensures Sum(Waits(d, n)) == Sum(Waits(d, n - 1)) + d.Chosen(n - 1)
  {
    assert Waits(d, n)[..n - 1] == Waits(d, n - 1);
  }

  /** The total time a task with `retries` retries can spend waiting. */
  lemma BackoffTotal(factor: real, retries: nat)
    requires retries >= 1
    ensures var d, m := Listed(ExponentialBackoff(factor, retries)), Cap(retries);
            Sum(Waits(d, retries)) ==
            factor * (Pow2(m) - 1) as real + (retries - m) as real * (factor * Pow2(m - 1) as real)
  {
    var d := Listed(ExponentialBackoff(factor, retries));
    forall i: nat ensures d.Truthy() && d.Chosen(i) == DelayAt(factor, Cap(retries), i) { BackoffDelay(factor, retries, i); }
    PrefixTotal(d, factor, Cap(retries), retries);
    OneMore(factor * Pow2(Cap(retries) - 1) as real, 0);
  }
}
