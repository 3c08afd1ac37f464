/**
  The concurrency controller: an M/M/1-style estimate of the queueing delay from the
  queue length and the ceiling, and a one-step nudge of the ceiling within [1, 10].
*/
module Controller {
  import opened RealArith

  /**
    A wait estimate in milliseconds; `Infinity` when arrivals outpace service, and
    `-Infinity` for a negative arrival rate over a zero service rate (a division by +0).
  */
  datatype Wait = Finite(ms: real) | Overloaded | MinusInfinity
  {
    /** `wait > bound`, with `Infinity` above and `-Infinity` below every bound. */
    predicate Above(bound: real)
    {
      Overloaded? || (Finite? && ms > bound)
    }

    /** `wait < bound`, with `-Infinity` below and `Infinity` above every bound. */
    predicate Below(bound: real)
    {
      MinusInfinity? || (Finite? && ms < bound)
    }
  }

  const MinCeiling := 1
  const MaxCeiling := 10
  const ShrinkAboveMs := 5000.0
  const GrowBelowMs := 1000.0

  /** Arrival rate: the queue length read as tasks per minute, in tasks per millisecond. */
  function Lambda(queueLength: int): real
  {
    queueLength as real / 60000.0
  }

  /** Service rate: the ceiling read as tasks per second, in tasks per millisecond. */
  function Mu(ceiling: int): real
  {
    ceiling as real / 1000.0
  }

  /**
    `estimateWaitTime`. With a zero ceiling and a negative queue length the divisor
    `mu * (mu - lambda)` is +0 and the quotient of the negative rate is `-Infinity`.
  */
  function Estimate(queueLength: int, ceiling: int): (w: Wait)
    ensures w.Overloaded? <==> queueLength >= 60 * ceiling
    ensures w.MinusInfinity? <==> ceiling == 0 && queueLength < 0
    ensures w.Finite? && queueLength >= 0 ==> w.ms >= 0.0
    ensures w.Finite? && queueLength >= 0 ==> (w.ms == 0.0 <==> queueLength == 0)
  {
    var lambda := Lambda(queueLength);
    var mu := Mu(ceiling);
    if lambda >= mu then Overloaded
    else if mu == 0.0 then MinusInfinity
    else
      var d := mu - lambda;
      var b := mu * d;
      var quotient := lambda / b;
      assert queueLength >= 0 ==> quotient >= 0.0 && (quotient == 0.0 <==> queueLength == 0) by {
        if queueLength >= 0 {
          PositiveProduct(mu, d);
          QuotientNonNegative(lambda, b);
          assert lambda == 0.0 <==> queueLength == 0;
        }
      }
      Finite(quotient * 1000.0)
  }

  /** For a fixed positive ceiling the finite estimate grows strictly with the queue length. */
  lemma EstimateIncreasing(q1: int, q2: int, ceiling: int)
    requires ceiling > 0
    requires 0 <= q1 < q2 < 60 * ceiling
    ensures Estimate(q1, ceiling).Finite? && Estimate(q2, ceiling).Finite?
    ensures Estimate(q1, ceiling).ms < Estimate(q2, ceiling).ms
  {
    var l1, l2, mu := Lambda(q1), Lambda(q2), Mu(ceiling);
    assert 0.0 <= l1 < l2 < mu;
    var d1, d2 := mu - l1, mu - l2;
    // l1 / (mu * d1) < l2 / (mu * d2) follows from l1 * d2 < l2 * d1, i.e. l1 * mu < l2 * mu
    var b1, b2 := mu * d1, mu * d2;
    CrossLess(l1, l2, mu, d1, d2);
    PositiveProduct(mu, d1);
    PositiveProduct(mu, d2);
    FracLess(l1, b1, l2, b2);
    assert Estimate(q1, ceiling).ms == l1 / b1 * 1000.0;
    assert Estimate(q2, ceiling).ms == l2 / b2 * 1000.0;
  }

  lemma CrossLess(l1: real, l2: real, mu: real, d1: real, d2: real)
    requires 0.0 <= l1 < l2 && mu > 0.0
    requires d1 == mu - l1 && d2 == mu - l2
    ensures l1 * (mu * d2) < l2 * (mu * d1)
  {
    assert l1 * mu < l2 * mu;
    assert l1 * (mu * d2) == mu * (l1 * mu) - mu * (l1 * l2);
    assert l2 * (mu * d1) == mu * (l2 * mu) - mu * (l1 * l2);
    assert mu * (l1 * mu) < mu * (l2 * mu);
  }

  lemma QuotientNonNegative(a: real, b: real)
    requires a >= 0.0 && b > 0.0
    ensures a / b >= 0.0
    ensures a / b == 0.0 <==> a == 0.0
  {
  }

  /** a / b < c / d for positive b and d when a * d < c * b. */
  lemma FracLess(a: real, b: real, c: real, d: real)
    requires b > 0.0 && d > 0.0
    requires a * d < c * b
    ensures a / b < c / d
  {
    assert a / b == (a * d) / (b * d);
    assert c / d == (c * b) / (b * d);
    PositiveProduct(b, d);
  }

  /**
    `adjustConcurrency` on the ceiling: shrink by one when the estimate exceeds 5000 ms
    (overload included) and the ceiling is above 1; otherwise grow by one when the
    estimate is below 1000 ms and the ceiling is below 10.
  */
  function Adjust(queueLength: int, ceiling: int): (c: int)
    ensures c == ceiling - 1 <==> Estimate(queueLength, ceiling).Above(ShrinkAboveMs) && ceiling > MinCeiling
    ensures c == ceiling + 1 <==>
              !(Estimate(queueLength, ceiling).Above(ShrinkAboveMs) && ceiling > MinCeiling)
              && Estimate(queueLength, ceiling).Below(GrowBelowMs) && ceiling < MaxCeiling
    ensures ceiling - 1 <= c <= ceiling + 1
  {
    var wait := Estimate(queueLength, ceiling);
    if wait.Above(ShrinkAboveMs) && ceiling > MinCeiling then ceiling - 1
    else if wait.Below(GrowBelowMs) && ceiling < MaxCeiling then ceiling + 1
    else ceiling
  }

  /** A ceiling in [1, 10] stays in [1, 10]. */
  lemma AdjustInBounds(queueLength: int, ceiling: int)
    requires MinCeiling <= ceiling <= MaxCeiling
    ensures MinCeiling <= Adjust(queueLength, ceiling) <= MaxCeiling
  {
  }

  /** An empty queue at the cap of 10: the estimate is 0 ms (below 1000) and the ceiling stays at 10. */
  lemma IdleAtCap()
    ensures Estimate(0, MaxCeiling) == Finite(0.0)
    ensures Adjust(0, MaxCeiling) == MaxCeiling
  {
  }

  /** A zero ceiling under a negative queue length estimates `-Infinity`, below 1000 ms, so the ceiling grows to 1. */
  lemma ZeroCeilingGrows(queueLength: int)
    requires queueLength < 0
    ensures Estimate(queueLength, 0) == MinusInfinity
    ensures Adjust(queueLength, 0) == 1
  {
  }
}
