/** Properties of the pricing engine: the reverse solver and the forward
    evaluation are inverses, the solver's guard, its bounds, and the worked
    examples of the calculator. */
module PricingProofs {
  import opened Pricing

  /** The fixed costs are the four per-sale currency amounts and nothing
      else: zero when all four are zero, each amount counts one for one, and
      the commission and tax rates play no part. They are also exactly what a
      sale at price zero loses. */
  lemma FixedCostsIgnoreRates(c: Costs, delta: real, commissionRate: real, taxRate: real)
    ensures FixedCosts(c.(cmv := 0.0, listingShipping := 0.0, extra := 0.0, feePerSale := 0.0)) == 0.0
    ensures FixedCosts(c.(cmv := c.cmv + delta)) == FixedCosts(c) + delta
    ensures FixedCosts(c.(listingShipping := c.listingShipping + delta)) == FixedCosts(c) + delta
    ensures FixedCosts(c.(extra := c.extra + delta)) == FixedCosts(c) + delta
    ensures FixedCosts(c.(feePerSale := c.feePerSale + delta)) == FixedCosts(c) + delta
    ensures FixedCosts(c.(commissionRate := commissionRate, taxRate := taxRate)) == FixedCosts(c)
    ensures ProfitAt(c, 0.0) == -FixedCosts(c)
  {
  }

  /** At a positive price the margin is the profit scaled to percent, and it
      states the profit back: price times margin over a hundred. */
  lemma MarginStatesProfit(c: Costs, price: real)
    requires price > 0.0
    ensures ProfitAt(c, price) == price * MarginPctAt(c, price) / 100.0
    ensures MarginPctAt(c, price) == ProfitAt(c, price) / price * 100.0
  {
  }

  /** Margin strategy round trip: at the suggested price the margin is the
      requested one exactly when the fixed costs are positive; otherwise the
      suggested price is not positive and the reported margin is zero. */
  lemma MarginRoundTrip(c: Costs, m: real)
    requires Divisor(c, Margin(m)) > MinDivisor
    ensures FixedCosts(c) > 0.0 ==> MarginPctAt(c, SuggestedPrice(c, Margin(m))) == m
    ensures FixedCosts(c) <= 0.0 ==> MarginPctAt(c, SuggestedPrice(c, Margin(m))) == 0.0
  {
  }

  /** Profit strategy round trip: at the suggested price the profit is
      exactly the requested amount, whatever the costs. */
  lemma ProfitRoundTrip(c: Costs, amount: real)
    requires Divisor(c, Profit(amount)) > MinDivisor
    ensures ProfitAt(c, SuggestedPrice(c, Profit(amount))) == amount
  {
  }

  /** The profit target pins the price down: with the guard passed, a price
      earns exactly the target profit if and only if it is the suggested
      price. */
  lemma ProfitPriceUnique(c: Costs, amount: real, price: real)
    requires Divisor(c, Profit(amount)) > MinDivisor
    ensures ProfitAt(c, price) == amount <==> price == SuggestedPrice(c, Profit(amount))
  {
  }

  /** The margin target pins the price down: with the guard passed, a
      positive price shows exactly the target margin if and only if it is the
      suggested price and the fixed costs are positive. */
  lemma MarginPriceUnique(c: Costs, m: real, price: real)
    requires Divisor(c, Margin(m)) > MinDivisor && price > 0.0
    ensures MarginPctAt(c, price) == m <==> price == SuggestedPrice(c, Margin(m)) && FixedCosts(c) > 0.0
  {
  }

  /** The ERP target is met: at the price suggested for the profit derived
      from an ERP price and margin, the profit measured against the ERP price
      is the ERP margin. */
  lemma ErpTargetRoundTrip(c: Costs, pErp: real, mErp: real)
    requires Divisor(c, Profit(TargetProfit(pErp, mErp))) > MinDivisor
    requires pErp != 0.0
    ensures ProfitAt(c, SuggestedPrice(c, Profit(TargetProfit(pErp, mErp)))) / pErp * 100.0 == mErp
  {
  }

  /** The guard: with a divisor not above MinDivisor, either strategy
      suggests zero, at which the whole fixed cost is lost and the margin
      reads zero. */
  lemma GuardYieldsZero(c: Costs, s: Strategy)
    requires Divisor(c, s) <= MinDivisor
    ensures SuggestedPrice(c, s) == 0.0
    ensures ProfitAt(c, SuggestedPrice(c, s)) == -FixedCosts(c)
    ensures MarginPctAt(c, SuggestedPrice(c, s)) == 0.0
  {
  }

  /** The suggested price is zero exactly when the guard fires or there is
      nothing to cover. */
  lemma SuggestedZeroIff(c: Costs, s: Strategy)
    ensures SuggestedPrice(c, s) == 0.0 <==> (Divisor(c, s) <= MinDivisor || Numerator(c, s) == 0.0)
  {
  }

  /** Every cost input is non-negative. */
  predicate NonNegativeCosts(c: Costs)
  {
    && c.cmv >= 0.0 && c.listingShipping >= 0.0 && c.extra >= 0.0 && c.feePerSale >= 0.0
    && c.commissionRate >= 0.0 && c.taxRate >= 0.0
  }

  /** The strategy's target is non-negative. */
  predicate NonNegativeTarget(s: Strategy)
  {
    match s
    case Margin(m) => m >= 0.0
    case Profit(amount) => amount >= 0.0
  }

  /** With non-negative costs, rates and target, the divisor lies in
      (0, 1], so the suggested price is non-negative and at least what it has
      to cover. */
  lemma SuggestedPriceBounds(c: Costs, s: Strategy)
    requires NonNegativeCosts(c) && NonNegativeTarget(s)
    requires Divisor(c, s) > MinDivisor
    ensures SuggestedPrice(c, s) >= 0.0
    ensures SuggestedPrice(c, s) >= Numerator(c, s)
  {
    var d := Divisor(c, s);
    var n := Numerator(c, s);
    var p := SuggestedPrice(c, s);
    assert 0.0 < d <= 1.0;
    assert n >= 0.0;
    assert p * d == n;
  }

  /** Asking for a higher margin never lowers the suggested price, as long
      as the fixed costs are not negative: the divisor shrinks while the
      fixed costs stay put. */
  lemma MarginTargetMonotone(c: Costs, m1: real, m2: real)
    requires m1 <= m2 && Divisor(c, Margin(m2)) > MinDivisor && FixedCosts(c) >= 0.0
    ensures SuggestedPrice(c, Margin(m1)) <= SuggestedPrice(c, Margin(m2))
  {
    var d1, d2 := Divisor(c, Margin(m1)), Divisor(c, Margin(m2));
    var p1, p2 := SuggestedPrice(c, Margin(m1)), SuggestedPrice(c, Margin(m2));
    assert d2 <= d1;
    assert p1 * d1 == p2 * d2;
    assert p2 >= 0.0;
    assert p2 * d2 <= p2 * d1;
  }

  /** Asking for a higher profit never lowers the suggested price. */
  lemma ProfitTargetMonotone(c: Costs, a1: real, a2: real)
    requires a1 <= a2 && Divisor(c, Profit(a1)) > MinDivisor
    ensures SuggestedPrice(c, Profit(a1)) <= SuggestedPrice(c, Profit(a2))
  {
  }

  /** Worked example: CMV 32.57, shipping 18.86, commission 16.5 %, tax 27 %
      and a profit target of 17.088 give a suggested price of about 121.27. */
  lemma ProfitExample()
    ensures var p := SuggestedPrice(Costs(32.57, 18.86, 0.0, 0.0, 16.5, 27.0), Profit(17.088));
            121.27 < p < 121.28
  {
  }

  /** Worked example: commission and tax summing to 105 % leave no price to
      suggest. */
  lemma RatesOverHundredExample(m: real)
    requires m >= 0.0
    ensures SuggestedPrice(Costs(32.57, 18.86, 0.0, 0.0, 60.0, 45.0), Profit(m)) == 0.0
    ensures SuggestedPrice(Costs(32.57, 18.86, 0.0, 0.0, 60.0, 45.0), Margin(m)) == 0.0
  {
  }

  /** Worked example with the calculator's defaults: CMV 30, shipping 18.90,
      commission 16.5 % and tax 27 % at a price of 100 leave a profit of 7.60,
      a 7.6 % margin. */
  lemma EvaluateExample()
    ensures var e := Evaluate(Costs(30.0, 18.90, 0.0, 0.0, 16.5, 27.0), 100.0);
            e.tax == 27.0 && e.commission == 16.5 && e.totalCost == 92.4
            && e.profit == 7.6 && e.marginPct == 7.6
  {
  }

  /** Worked example: the same costs under the default 20 % margin target
      suggest 48.90 / 0.365, about 133.97, at which the margin is 20 %. */
  lemma MarginExample()
    ensures var c := Costs(30.0, 18.90, 0.0, 0.0, 16.5, 27.0);
            var p := SuggestedPrice(c, Margin(20.0));
            133.97 < p < 133.98 && MarginPctAt(c, p) == 20.0
  {
  }
}
