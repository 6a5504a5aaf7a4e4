/** The list of priced products the calculator accumulates: one row per
    product added, built from the quote on screen at that moment. */
module ProductList {
  import opened Pricing

  /** One saved line of the list. The calculator (app.py) rounds the prices
      and profits to cents and the margins to one decimal; here they are kept
      exact. */
  datatype Row = Row(
    code: string,
    name: string,
    currentPrice: real,
    currentProfit: real,
    currentMarginPct: real,
    suggestedPrice: real,
    suggestedProfit: real,
    suggestedMarginPct: real,
    cmv: real,
    shipping: real
  )

  datatype AddResult = Added(rows: seq<Row>) | MissingName

  /** The row recording product `name` priced today at `currentPrice` under
      strategy `s`: the current column is the forward evaluation of today's
      price, and the suggested column meets the strategy's target. */
  function MakeRow(code: string, name: string, c: Costs, s: Strategy, currentPrice: real): (r: Row)
    ensures r.code == code && r.name == name
    ensures r.currentPrice == currentPrice
    ensures r.currentProfit == ProfitAt(c, currentPrice)
    ensures r.currentMarginPct == MarginPctAt(c, currentPrice)
    ensures r.suggestedPrice == SuggestedPrice(c, s)
    ensures r.suggestedProfit == ProfitAt(c, r.suggestedPrice) && r.suggestedMarginPct == MarginPctAt(c, r.suggestedPrice)
    ensures Divisor(c, s) <= MinDivisor ==> r.suggestedPrice == 0.0 && r.suggestedMarginPct == 0.0
    ensures s.Profit? && Divisor(c, s) > MinDivisor ==> r.suggestedProfit == s.amount
    ensures s.Margin? && Divisor(c, s) > MinDivisor && FixedCosts(c) > 0.0 ==> r.suggestedMarginPct == s.m
    ensures r.cmv == c.cmv && r.shipping == c.listingShipping
  {
    var q := MakeQuote(c, s, currentPrice);
    Row(code, name,
        q.current.price, q.current.profit, q.current.marginPct,
        q.suggested.price, q.suggested.profit, q.suggested.marginPct,
        c.cmv, c.listingShipping)
  }

  /** Adding a product: refused while the name is empty; otherwise the new
      row goes at the end and every earlier row stays as it was. */
  function AddProduct(rows: seq<Row>, code: string, name: string, c: Costs, s: Strategy, currentPrice: real): (r: AddResult)
    ensures r.MissingName? <==> name == ""
    ensures r.Added? ==> |r.rows| == |rows| + 1
    ensures r.Added? ==> r.rows[..|rows|] == rows
    ensures r.Added? ==> r.rows[|rows|] == MakeRow(code, name, c, s, currentPrice)
  {
    if name == "" then MissingName else Added(rows + [MakeRow(code, name, c, s, currentPrice)])
  }
}
