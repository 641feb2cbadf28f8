# Tibia currency converter: verified model of the conversion core

The converter is a single browser script (`script.js`). It converts Tibia gold pieces (GP), entered in kk (millions), to Tibia Coins (TC) at a market price, or TC to GP. It can also price the coins in six fiat currencies from the price of 250 TC, using an exchange-rate table for the selected currency.

This project models the two parts of the script that hold logic:

- **The exchange-rate cache** (`fetchExchangeRates`), in module `Rates`. The script keeps two module-level variables: `exchangeRates`, a map from currency code to rate table, and `lastInputCurrency`. Here they are the fields of the class `RateCache`. The pure function `Lookup` gives one call's effect on a `CacheState` value, and the class method `FetchExchangeRates` is proved equal to it. The network request becomes a `FetchOutcome` parameter: the provider's answer if it were asked.
- **The conversion** (`calculate`), in module `Convert`. `Calculation` is a pure function. It maps the form inputs and the cache state to the displayed results and the new cache state. The imperative method `Calculate` pushes result items onto a `results` sequence, as the script does, and is proved equal to `Calculation`. The fiat grid (`generateCurrencyGrid`) is in module `Currencies`. It is a loop that appends one tile per currency, proved equal to the recursive `Grid`.

Modelling choices:

- Numbers are `real`, so the arithmetic is exact.
- A form field that `parseFloat` reads as NaN is `None`. The script's guard `x && x > 0` is `IsPositive`.
- A cost for a code with no rate in the table is `NaN`, because that is what `costInInputCurrency * rates.X` gives in JavaScript when `X` is missing.
- The result area is a `Display`. `Cleared` is the early return, which empties the area. `Shown(results)` is everything else; an empty list is the "Enter values to see conversions" placeholder.

Three behaviours of the script that are easy to misread, and how the model treats them:

- No eviction. Tables stored for other currencies are never deleted from `exchangeRates`. They are simply never served again, because a hit also requires `lastInputCurrency` to equal the requested code (script.js:51). `Rates.Lookup` keeps them, and `Rates.SwitchingCurrencyRefetches` shows that the cache still acts as a single slot.
- One error. Every failure, whether the request is rejected, the body is not JSON or its `result` is not `"success"`, becomes one fixed message (script.js:63-70). `Rates.Lookup` yields that message for every failed miss.
- Multiplying by the rates. Each non-selected cost is the cost in the selected currency multiplied by `rates[code]`, from a table based on the selected currency (script.js:134-139). `Convert.CostIn` and `Convert.Costs` compute exactly that, and `Convert.EurQuoteExample` works one case through.

## Model

| member | source | states |
|---|---|---|
| `Currencies.Tiles` | script.js:37-44 | the grid has exactly one tile per listed code |
| `Currencies.TilesAt` | script.js:37-44 | the k-th tile carries the k-th code, that code's cost, and is highlighted exactly when the code is the selected currency |
| `Currencies.GridLayout` | script.js:34-44 | the grid lists PLN, EUR, USD, GBP, BRL, SEK in that fixed order, each with its own cost, highlighting exactly the selected code |
| `Currencies.GridHighlightsSelected` | script.js:38 | exactly one tile is highlighted, the selected currency's, when the selection is one of the six; none otherwise |
| `Currencies.Grid` | script.js:33-47 | the grid for a cost table has one tile for each of the six supported currencies |
| `Currencies.GenerateCurrencyGrid` | script.js:33-47 | the loop that appends one tile per currency builds exactly the grid |
| `Rates.IsHit` | script.js:51 | when the remembered code always has a stored table, a request hits exactly when its code is `lastInputCurrency` |
| `Rates.Lookup` | script.js:50-72 | a hit returns the stored table with `fromCache` true and leaves the state alone; a successful miss returns and stores the delivered table and remembers the code; a failed miss leaves the state alone and yields the single connectivity message; entries for other codes are never touched; the remembered code always has a stored table |
| `Rates.CachedCodeNeedsNoFetch` | script.js:51-53 | once a code is cached, any number of further requests for it never consult the network |
| `Rates.RepeatedRequestsFetchUntilSuccess` | script.js:51-70 | repeated requests for one code fetch at most once more than the failures before the first success |
| `Rates.SwitchingCurrencyRefetches` | script.js:51-67 | after a successful fetch for one code, a request for another code goes to the network and serves the fresh table even if an older table for it is stored |
| `Rates.RateCache.constructor` | script.js:2-3 | the cache starts with no tables and no remembered code |
| `Rates.RateCache.FetchExchangeRates` | script.js:50-72 | the in-place update of the two fields and the response are exactly those of `Lookup`, and the consistency invariant is kept; the answer comes from the cache exactly when the requested code is the remembered one |
| `Convert.IsPositive` | script.js:124 | the guard `x && x > 0` holds exactly when the field parsed to a number above zero, so the truthiness test decides nothing on its own; the same guard, negated, clears the output at line 112 and gates lines 129, 153 and 160 |
| `Convert.GpToTc` | script.js:125 | the TC amount times the market price gives back the GP amount, and is positive for positive gold |
| `Convert.TcToGp` | script.js:154 | the GP amount divided by the market price gives back the TC amount |
| `Convert.GpTcGpRoundTrip` | script.js:121-157 | converting GP to TC and back at the same market price returns the original GP |
| `Convert.CostInInputCurrency` | script.js:130 | the cost is proportional to the coins: 250 coins cost exactly the quoted price |
| `Convert.CostIn` | script.js:134-139 | one entry of the cost object is a number exactly when its code is the selected currency or the rate table has the code; the selected currency's entry is the cost itself |
| `Convert.Costs` | script.js:133-140 | the cost object has exactly the six codes; the selected currency's entry is the cost itself; every other entry is the cost times that code's rate, or NaN when the table lacks it |
| `Convert.FiatStep` | script.js:131-145 | the fiat step's cache effect is that of one lookup for the selected currency, and it yields a grid exactly when the lookup served rates, otherwise the single connectivity error |
| `Convert.NoAmountNoOutput` | script.js:112-115 | an absent, zero or negative amount clears the output whatever the other inputs, leaves the cache unchanged and ignores the network |
| `Convert.GpDirection` | script.js:119-147 | from GP: gold is amount × 1,000,000; the GP/TC line, fiat pricing and any lookup happen only with a positive market price; the fiat item follows exactly when the 250-TC price is positive, and it is the grid or error of the fiat step for the TC amount just computed, with that step's cache state |
| `Convert.TcDirection` | script.js:148-178 | from TC: the GP/TC line exists exactly when the market price is positive, with gold = coins × price and kk = gold / 1,000,000; the fiat item exists exactly when the 250-TC price is positive, and the last item and the new cache state are those of the fiat step for the entered coins |
| `Convert.TcFiatIgnoresMarketPrice` | script.js:159-178 | from TC, the fiat results and the resulting cache state do not depend on the market price |
| `Convert.GpTcRoundTrip` | script.js:119-157 | the TC amount a GP input produces, entered as a TC amount at the same price, converts back to the original gold and kk |
| `Convert.FetchFailureKeepsConversion` | script.js:124-145 | a failed rate lookup keeps the GP/TC line, appends the connectivity error after it, and leaves the cache unchanged |
| `Convert.CostGridPrices` | script.js:133-142 | the grid of the cost object shows the selected currency highlighted at the cost itself and every other currency at cost × rate, or NaN |
| `Convert.FiatGridPrices` | script.js:131-142 | whenever a grid is shown, it prices the coins with the table the cache served for the selected currency |
| `Convert.EurQuoteExample` | script.js:161-171 | 500 TC at 10 EUR per 250 TC cost 20 EUR, and the other entries are 20 times their rates |
| `Convert.TwentyKkExample` | script.js:119-126 | the script's own sample "20,000,000 GP (20 kk)" = "500.00 TC" (the comment at line 245): 20 kk at 40,000 GP per coin gives 20,000,000 GP and 500 TC, with no fiat line and no lookup when no 250-TC price is set |
| `Convert.CalculationCacheEffect` | script.js:129-132 | a run touches the cache only through one lookup for the selected currency; when that currency is cached, the run changes nothing and does not depend on the network |
| `Convert.Calculation` | script.js:104-195 | the output is cleared exactly when the amount is not positive; otherwise at most two items are shown; the cache either stays as it was or becomes that of one lookup for the selected currency |
| `Convert.Calculate` | script.js:104-195 | the step-by-step pushes onto `results` and the in-place cache update give exactly the display and cache state of `Calculation` |
| `Convert.PriceInCurrencies` | script.js:131-177 | the try/catch around the rate fetch, in either direction (lines 131-145 and 160-177), yields the grid or the error message and the cache state that `FiatStep` specifies |

## Left out

- DOM access and rendering are not modelled: element lookups, `innerHTML`, class toggling, the reflow and `setTimeout` animation, and showing or hiding the result actions (script.js:75-101, 181-194). The `<br>` separators pushed between result items (script.js:173) and the loading indicator of `fetchExchangeRates` (script.js:55-58) are left out too. These are presentation only.
- The `localStorage` preferences and the dark-mode flag (script.js:16-30, 268-286) are browser persistence and are not modelled.
- The real `fetch` call and JSON parsing (script.js:61-62) become the `FetchOutcome` parameter. The model assumes that a body whose `result` is `"success"` always carries a rate table. Without one, the script would store `undefined` and then fail with a different error inside `calculate`.
- Clipboard copy and its copy text (script.js:35, 238-265) read the rendered HTML through a foreign API and are not modelled.
- IEEE-754 double rounding, `toFixed(2)`, `toLocaleString()` and a `parseFloat` result of Infinity are not modelled. Numbers are exact reals, and a tile carries the number rather than its text.
- Overlapping asynchronous runs of `calculate` are not modelled. The model is sequential: each run completes, with its one lookup, before the next begins.
- The event-listener wiring, the reset button, the swap toggle between GP and TC, and `updateAmountLabel` (script.js:89-101, 197-235) are UI glue.
- The currency-type select is a two-valued `Direction`. In the script, any value other than `'gp'` takes the TC branch.
- The `currencySymbols` table (script.js:6-13) is never read by the script, so it is not modelled.
- The `catch` blocks of `calculate` would catch any exception. In the model, only the rate lookup can fail.
