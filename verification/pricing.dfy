/** The pricing engine of the marketplace price calculator: the per-sale cost
    inputs, the forward evaluation of a sale price (tax, commission, profit,
    margin) and the reverse solver that suggests the sale price reaching a
    margin or a fixed profit target. All amounts are exact reals; the binary
    floating point and display rounding of the calculator (app.py) are not
    modelled. */
module Pricing {

  /** A divisor at or below this value makes the reverse solver give up and
      leave the suggested price at zero. */
  const MinDivisor: real := 0.0001

  /** Everything that is charged on one sale. Currency amounts: product cost
      (CMV), the listing's flat shipping fee, packaging and other extras, and
      the fixed fee per sale. Percentages: the marketplace commission and the
      average tax burden, both taken on the sale price. */
  datatype Costs = Costs(
    cmv: real,
    listingShipping: real,
    extra: real,
    feePerSale: real,
    commissionRate: real,
    taxRate: real
  )

  /** The profitability target: a net margin percentage of the sale price,
      or an absolute profit amount in currency. */
  datatype Strategy = Margin(m: real) | Profit(amount: real)

  /** The breakdown of one sale at a given price. */
  datatype Evaluation = Evaluation(
    price: real,
    tax: real,
    commission: real,
    totalCost: real,
    profit: real,
    marginPct: real
  )

  /** The amount a sale costs whatever its price. */
  function FixedCosts(c: Costs): real
  {
    c.cmv + c.listingShipping + c.extra + c.feePerSale
  }

  /** The fraction of the price that remains after tax and commission. */
  function Retained(c: Costs): real
  {
    1.0 - (c.taxRate + c.commissionRate) / 100.0
  }

  function TaxAt(c: Costs, price: real): real
  {
    price * (c.taxRate / 100.0)
  }

  function CommissionAt(c: Costs, price: real): real
  {
    price * (c.commissionRate / 100.0)
  }

  /** Net profit of a sale at `price`: what is left of the price after the
      fixed costs, the tax and the commission. */
  function ProfitAt(c: Costs, price: real): (r: real)
    ensures r == price * Retained(c) - FixedCosts(c)
    ensures r + FixedCosts(c) + TaxAt(c, price) + CommissionAt(c, price) == price
  {
    price - (FixedCosts(c) + TaxAt(c, price) + CommissionAt(c, price))
  }

  /** Net margin as a percentage of the price; zero for a price that is not
      positive, so the division is never by zero. */
  function MarginPctAt(c: Costs, price: real): (r: real)
    ensures price <= 0.0 ==> r == 0.0
    ensures price > 0.0 ==> r * price == ProfitAt(c, price) * 100.0
  {
    if price > 0.0 then ProfitAt(c, price) / price * 100.0 else 0.0
  }

  /** The full breakdown at `price`; the same evaluation serves the price the
      seller charges today and the suggested price. */
  function Evaluate(c: Costs, price: real): (e: Evaluation)
    ensures e.price == price
    ensures e.totalCost == FixedCosts(c) + e.tax + e.commission
    ensures e.profit + e.totalCost == price
    ensures e.tax * 100.0 == price * c.taxRate
    ensures e.commission * 100.0 == price * c.commissionRate
    ensures e.profit == ProfitAt(c, price)
    ensures e.marginPct == MarginPctAt(c, price)
  {
    var tax := TaxAt(c, price);
    var commission := CommissionAt(c, price);
    Evaluation(price, tax, commission, FixedCosts(c) + tax + commission,
               ProfitAt(c, price), MarginPctAt(c, price))
  }

  /** The profit to secure in currency, derived from an ERP reference price
      and the margin percentage the ERP expects on it. */
  function TargetProfit(pErp: real, mErp: real): (r: real)
    ensures pErp == 0.0 || mErp == 0.0 ==> r == 0.0
    ensures pErp != 0.0 ==> r / pErp * 100.0 == mErp
    ensures pErp >= 0.0 && mErp >= 0.0 ==> r >= 0.0
  {
    pErp * (mErp / 100.0)
  }

  /** The fraction of the price left to cover the numerator once every
      percentage the strategy takes from the price is removed: the retained
      share, less the target margin in margin mode. */
  function Divisor(c: Costs, s: Strategy): (r: real)
    ensures s.Margin? ==> r == 1.0 - (c.commissionRate + c.taxRate + s.m) / 100.0
    ensures s.Profit? ==> r == 1.0 - (c.commissionRate + c.taxRate) / 100.0
  {
    match s
    case Margin(m) => Retained(c) - m / 100.0
    case Profit(_) => Retained(c)
  }

  /** The currency amount the suggested price has to cover after the
      strategy's percentages are taken. */
  function Numerator(c: Costs, s: Strategy): real
  {
    match s
    case Margin(_) => FixedCosts(c)
    case Profit(amount) => FixedCosts(c) + amount
  }

  /** Reverse pricing: the price whose retained part covers the numerator.
      When the divisor is not above MinDivisor no price is computed and the
      result silently stays zero. */
  function SuggestedPrice(c: Costs, s: Strategy): (r: real)
    ensures Divisor(c, s) <= MinDivisor ==> r == 0.0
    ensures Divisor(c, s) > MinDivisor ==> r * Divisor(c, s) == Numerator(c, s)
  {
    var d := Divisor(c, s);
    if d > MinDivisor then Numerator(c, s) / d else 0.0
  }

  /** One run of the calculation block: the breakdown at the price charged
      today, the breakdown at the suggested price, and how far apart the two
      prices are. */
  datatype Quote = Quote(current: Evaluation, suggested: Evaluation, difference: real)

  function MakeQuote(c: Costs, s: Strategy, currentPrice: real): (q: Quote)
    ensures q.current == Evaluate(c, currentPrice) && q.suggested == Evaluate(c, q.suggested.price)
    ensures q.suggested.price == SuggestedPrice(c, s)
    ensures q.current.price + q.difference == q.suggested.price
    ensures Divisor(c, s) <= MinDivisor ==> q.suggested.price == 0.0 && q.suggested.marginPct == 0.0
    ensures s.Profit? && Divisor(c, s) > MinDivisor ==> q.suggested.profit == s.amount
    ensures s.Margin? && Divisor(c, s) > MinDivisor && FixedCosts(c) > 0.0 ==> q.suggested.marginPct == s.m
  {
    var p := SuggestedPrice(c, s);
    Quote(Evaluate(c, currentPrice), Evaluate(c, p), p - currentPrice)
  }
}
