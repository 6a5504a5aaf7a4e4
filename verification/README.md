# Precificador ML — pricing engine model

A Dafny model of the calculation block of the marketplace price calculator
(`app.py`). For one product it works out:

- the fixed costs per sale: CMV, plus the listing's flat shipping fee, plus packaging/extras, plus the fixed fee per sale;
- the forward evaluation at a price: tax, commission, total cost, profit, and the margin percentage, which is reported as zero for a price that is not positive;
- the target profit derived from an ERP reference price and ERP margin;
- the reverse pricing. For the "Margem %" strategy, the fixed costs are divided by `1 − (commission + tax + margin)/100`. For the "Lucro Fixo (ERP)" strategy, fixed costs plus target profit are divided by `1 − (commission + tax)/100`. The division happens only when the divisor exceeds `0.0001`. Otherwise the suggested price silently stays zero;
- the difference between the suggested price and the current price;
- the row saved to the product list when a named product is added.

Modules:

- `Pricing` (`pricing.dfy`) holds the cost inputs `Costs`, the strategy `Strategy = Margin(m) | Profit(amount)`, the evaluation and the reverse solver.
- `PricingProofs` (`pricing_proofs.dfy`) proves the round trips between the solver and the evaluation, the guard, the bounds and worked examples.
- `ProductList` (`product_list.dfy`) models adding a row to the list of priced products.

All arithmetic is over exact `real`. The threshold `0.0001` is the constant `Pricing.MinDivisor`.

The calculator has no shipping-tier table, no search for a fixed point between price and tier, no promotion or rebate layer and no error for an impossible rate configuration. Shipping is one flat fee that the caller supplies. The free-shipping limit input is read but never used. When the rates leave no room, the suggested price is zero and no error is raised. This model follows the code in all of these respects.

## Model

| member | source | states |
|---|---|---|
| Pricing.ProfitAt | app.py:77-81 | Profit at any price equals the price times the share left after tax and commission, minus the fixed costs. Profit, fixed costs, tax and commission add up to the price. |
| Pricing.MarginPctAt | app.py:82 | The margin is zero for a price ≤ 0. For a positive price, margin × price = profit × 100. The division is never by zero. |
| Pricing.Evaluate | app.py:77-82 | The breakdown at a price: total cost = fixed costs + tax + commission, and profit + total cost = price. Tax and commission are their rates' share of the price. Profit and margin agree with ProfitAt and MarginPctAt, so one formula serves both the current and the suggested price. |
| Pricing.TargetProfit | app.py:71 | The target profit is zero when the ERP price or the ERP margin is zero. Measured against a non-zero ERP price, it is exactly the ERP margin. It is non-negative when both inputs are. |
| Pricing.Divisor | app.py:87-93 | In margin mode the divisor is 1 − (commission + tax + margin)/100. In profit mode it is 1 − (commission + tax)/100. These are the source's forms, and the model's retained-share definition is proved equal to them. |
| Pricing.SuggestedPrice | app.py:84-95 | If the strategy's divisor is ≤ 0.0001, the result is 0. Otherwise result × divisor equals `Numerator`, the amount to cover: the fixed costs under a margin target (app.py:89), and fixed costs + target profit under a profit target (app.py:92). |
| Pricing.MakeQuote | app.py:85-118 | Each column is the full forward evaluation at its own price: tax, commission, total cost, profit and margin. The suggested column's price is the solver's suggested price. The current price plus the reported difference is the suggested price. If the divisor is ≤ 0.0001, the suggested column shows price 0 and margin 0. Otherwise, under a profit target the suggested profit is the target, and under a margin target with positive fixed costs the suggested margin is the target. |
| PricingProofs.FixedCostsIgnoreRates | app.py:77 | `FixedCosts` is zero when CMV, listing shipping, extra and fee per sale are all zero. Each of those four amounts adds to it one for one. The commission and tax rates do not change it. It is exactly what a sale at price 0 loses. |
| PricingProofs.MarginStatesProfit | app.py:82 | At a positive price, profit = price × margin / 100, and the margin is profit / price × 100. |
| PricingProofs.MarginRoundTrip | app.py:86-101 | Under a margin target, with divisor > 0.0001: the margin at the suggested price is the target whenever fixed costs are positive, and 0 otherwise. |
| PricingProofs.ProfitRoundTrip | app.py:91-100 | Under a profit target, with divisor > 0.0001: the profit at the suggested price equals the target profit exactly, for any costs. |
| PricingProofs.ErpTargetRoundTrip | app.py:69-95 | For a target derived from a non-zero ERP price and ERP margin, the profit at the suggested price, measured against the ERP price, is the ERP margin. |
| PricingProofs.GuardYieldsZero | app.py:85-101 | For either strategy, a divisor ≤ 0.0001 gives a suggested price of 0, with no error. At that price the profit is minus the fixed costs and the margin is 0. |
| PricingProofs.SuggestedZeroIff | app.py:85-95 | The suggested price is 0 if and only if the guard fires or the amount to cover is 0. |
| PricingProofs.SuggestedPriceBounds | app.py:86-95 | Suppose costs, rates and target are non-negative and the divisor is > 0.0001. Then the suggested price is ≥ 0 and ≥ the amount to cover: fixed costs, plus the target profit in profit mode. |
| PricingProofs.ProfitPriceUnique | app.py:91-100 | Under a profit target past the guard, a price earns exactly the target profit if and only if it is the suggested price. |
| PricingProofs.MarginPriceUnique | app.py:86-101 | Under a margin target past the guard, a positive price shows exactly the target margin if and only if it is the suggested price and the fixed costs are positive. |
| PricingProofs.MarginTargetMonotone | app.py:86-89 | With non-negative fixed costs and the guard passed for the higher target, a higher target margin never gives a lower suggested price. |
| PricingProofs.ProfitTargetMonotone | app.py:91-95 | With the guard passed, a higher target profit never gives a lower suggested price. |
| PricingProofs.ProfitExample | app.py:91-95 | CMV 32.57, shipping 18.86, commission 16.5 %, tax 27 % and target profit 17.088 give a suggested price between 121.27 and 121.28. |
| PricingProofs.RatesOverHundredExample | app.py:85-95 | With commission 60 % and tax 45 %, both strategies suggest 0 for any non-negative target. |
| PricingProofs.EvaluateExample | app.py:77-82 | With the default rates, CMV 30 and shipping 18.90 at price 100: tax 27, commission 16.5, total cost 92.4, profit 7.6, margin 7.6 %. |
| PricingProofs.MarginExample | app.py:86-101 | The same costs with a 20 % margin target suggest a price between 133.97 and 133.98, where the margin is exactly 20 %. |
| ProductList.MakeRow | app.py:133-144 | A saved row holds today's price with its profit and margin, and the suggested price from the solver with the profit and margin at that price. The suggested column meets the strategy's target: price and margin 0 when the guard fires, the target profit in profit mode, the target margin in margin mode with positive fixed costs. It also holds the CMV and the listing shipping fee. |
| ProductList.AddProduct | app.py:128-146 | An empty product name is refused. Otherwise the list grows by exactly one row at the end, the new row is the row for the product's quote, and every earlier row is unchanged. |

## Left out

- User interface: the Streamlit widgets, sidebar, CSS and metric display (app.py:1-70, 72, 103-117 and 119-127, including the "Adicionar" button that triggers the append). This layer only reads numbers and shows them. The inputs become parameters of the functions.
- Rounding: `round(…, 2)`, `round(…, 1)` and the `:.2f` / `:.1f` display formats are not modelled. Stored rows and displayed values are kept exact.
- Floating point: IEEE-754 binary floating point is replaced by exact reals, so no rounding error is reproduced.
- List plumbing: the session-state list, the warning and success messages, the pandas table, the CSV download and the "Limpar Lista" reset (app.py:7-9, 149-172). These are storage and presentation with no calculation. The append itself is modelled by `ProductList.AddProduct`.
- Free-shipping limit: the input at app.py:23 is never used by the calculation, so it has no counterpart here.
