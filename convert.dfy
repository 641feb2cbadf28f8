/**
 * The conversion that `calculate` in script.js performs on every input
 * change: GP (gold pieces, entered in kk = millions) to Tibia Coins (TC) or
 * back at the TC market price, and the fiat cost of the TC amount in six
 * currencies from the price of 250 TC and a fetched rate table.
 *
 * Numbers are reals, so the arithmetic is exact. A form field that
 * `parseFloat` reads as NaN is `None`. The page's HTML is replaced by the list
 * of result items `calculate` pushes; the rate fetch goes through the
 * RateCache of module Rates.
 */
module Convert {
  import opened Wrappers
  import opened Currencies
  import opened Rates

  /** Gold pieces in one kk. */
  const GP_PER_KK: real := 1000000.0

  /** The number of Tibia Coins the fiat price is quoted for. */
  const TC_PER_QUOTE: real := 250.0

  /** The value of the currency-type select: start from GP, or from TC. */
  datatype Direction = Gp | Tc

  /** The form as `calculate` reads it. */
  datatype Input = Input(
    currencyType: Direction,
    amount: Option<real>,
    tcMarketPrice: Option<real>,
    tc250Price: Option<real>,
    currency: string)

  /** One entry of `results`: the GP/TC line, the fiat grid, or the fetch error. */
  datatype ResultItem =
    | Conversion(from: Direction, gpAmount: real, kk: real, tcAmount: real)
    | CurrencyGrid(tiles: seq<GridItem>)
    | FetchError(message: string)

  /**
   * What the result area ends up showing: cleared (no amount entered), or the
   * collected results, where an empty list is the "Enter values" placeholder.
   */
  datatype Display = Cleared | Shown(results: seq<ResultItem>)

  datatype Outcome = Outcome(display: Display, cache: CacheState)

  /** JavaScript truthiness of a parsed number: NaN and zero are falsy. */
  predicate Truthy(x: Option<real>) {
    x.Some? && x.value != 0.0
  }

  /** The source's guard `x && x > 0`. */
  predicate IsPositive(x: Option<real>)
    // the truthiness half of the guard never decides anything a positive number would not
    ensures IsPositive(x) <==> x.Some? && x.value > 0.0
  {
    Truthy(x) && x.value > 0.0
  }

  /** TC bought by `gpAmount` gold at `tcMarketPrice` gold per coin. */
  function GpToTc(gpAmount: real, tcMarketPrice: real): (tcAmount: real)
    requires tcMarketPrice > 0.0
    ensures tcAmount * tcMarketPrice == gpAmount
    ensures gpAmount > 0.0 ==> tcAmount > 0.0
  {
    gpAmount / tcMarketPrice
  }

  /** Gold worth `tcAmount` coins at `tcMarketPrice` gold per coin. */
  function TcToGp(tcAmount: real, tcMarketPrice: real): (gpAmount: real)
    requires tcMarketPrice > 0.0
    ensures gpAmount / tcMarketPrice == tcAmount
  {
    tcAmount * tcMarketPrice
  }

  /** Converting GP to TC and back at the same market price gives the original GP. */
  lemma GpTcGpRoundTrip(gpAmount: real, tcMarketPrice: real)
    requires tcMarketPrice > 0.0
    ensures TcToGp(GpToTc(gpAmount, tcMarketPrice), tcMarketPrice) == gpAmount
  {
  }

  /** The cost of `tcAmount` coins in the selected currency, given the price of 250 coins. */
  function CostInInputCurrency(tcAmount: real, tc250Price: real): (cost: real)
    ensures cost * TC_PER_QUOTE == tcAmount * tc250Price
    ensures tcAmount == TC_PER_QUOTE ==> cost == tc250Price
  {
    (tcAmount / TC_PER_QUOTE) * tc250Price
  }

  /** The entry of one code in the cost object. */
  function CostIn(code: string, cost: real, currency: string, rates: RateTable): (n: Number)
    // an entry is a number exactly when it is the selected currency's or the table rates the code
    ensures n.Num? <==> (code == currency || code in rates)
    ensures code == currency ==> n == Num(cost)
  {
    if currency == code then Num(cost)
    else if code in rates then Num(cost * rates[code])
    else NaN
  }

  /**
   * The six-entry cost object: the selected currency's entry is the cost
   * itself, every other code's is the cost times that code's rate (NaN when
   * the table has no rate for it).
   */
  function Costs(cost: real, currency: string, rates: RateTable): (costs: map<string, Number>)
    ensures costs.Keys == {"PLN", "EUR", "USD", "GBP", "BRL", "SEK"}
    ensures Priced(CURRENCIES, costs)
    ensures currency in costs ==> costs[currency] == Num(cost)
    ensures forall c :: c in costs && c != currency ==>
      costs[c] == if c in rates then Num(cost * rates[c]) else NaN
  {
    map c | c in {"PLN", "EUR", "USD", "GBP", "BRL", "SEK"} :: CostIn(c, cost, currency, rates)
  }

  datatype FiatResult = FiatResult(item: ResultItem, cache: CacheState)

  /** The `try` block of either branch: fetch the rates, then price the coins in all six currencies. */
  function FiatStep(tcAmount: real, tc250Price: real, currency: string, s: CacheState, network: FetchOutcome): (r: FiatResult)
    ensures r.cache == Lookup(s, currency, network).cache
    ensures r.item.CurrencyGrid? || r.item == FetchError(CONNECTIVITY_MESSAGE)
    ensures r.item.CurrencyGrid? <==> Lookup(s, currency, network).response.Rates?
  {
    var fetched := Lookup(s, currency, network);
    match fetched.response
    case Rates(rates, _) =>
      var costs := Costs(CostInInputCurrency(tcAmount, tc250Price), currency, rates);
      FiatResult(CurrencyGrid(Grid(costs, currency)), fetched.cache)
    case Failed(message) =>
      FiatResult(FetchError(message), fetched.cache)
  }

  /** One run of `calculate`, from the form and the cache state before it. */
  function Calculation(input: Input, s: CacheState, network: FetchOutcome): (r: Outcome)
    // the area is cleared exactly when the amount is absent, zero or negative
    ensures r.display.Cleared? <==> !IsPositive(input.amount)
    // otherwise at most the GP/TC line and one fiat item are shown
    ensures r.display.Shown? ==> |r.display.results| <= 2
    // the cache changes only through one lookup for the selected currency
    ensures r.cache == s || r.cache == Lookup(s, input.currency, network).cache
  {
    var amount := input.amount;
    if !Truthy(amount) || amount.value <= 0.0 then
      Outcome(Cleared, s)
    else
      match input.currencyType
      case Gp =>
        var gpAmount := amount.value * GP_PER_KK;
        if IsPositive(input.tcMarketPrice) then
          var tcAmount := GpToTc(gpAmount, input.tcMarketPrice.value);
          var line := Conversion(Gp, gpAmount, amount.value, tcAmount);
          if IsPositive(input.tc250Price) then
            var fiat := FiatStep(tcAmount, input.tc250Price.value, input.currency, s, network);
            Outcome(Shown([line, fiat.item]), fiat.cache)
          else
            Outcome(Shown([line]), s)
        else
          Outcome(Shown([]), s)
      case Tc =>
        var tcAmount := amount.value;
        var primary :=
          if IsPositive(input.tcMarketPrice) then
            var gpAmount := TcToGp(tcAmount, input.tcMarketPrice.value);
            [Conversion(Tc, gpAmount, gpAmount / GP_PER_KK, tcAmount)]
          else [];
        if IsPositive(input.tc250Price) then
          var fiat := FiatStep(tcAmount, input.tc250Price.value, input.currency, s, network);
          Outcome(Shown(primary + [fiat.item]), fiat.cache)
        else
          Outcome(Shown(primary), s)
  }

  /** The results after the GP/TC line, if there is one: the fiat part. */
  function FiatPart(d: Display): seq<ResultItem> {
    if d.Cleared? then []
    else if |d.results| > 0 && d.results[0].Conversion? then d.results[1..]
    else d.results
  }

  /**
   * An absent, zero or negative amount clears the result area, whatever the
   * other inputs, and triggers no rate lookup: the cache stays as it was and
   * the network's answer plays no part.
   */
  lemma NoAmountNoOutput(input: Input, s: CacheState, network: FetchOutcome)
    requires !IsPositive(input.amount)
    ensures Calculation(input, s, network) == Outcome(Cleared, s)
  {
  }

  /**
   * Starting from GP: the gold is the amount times 1,000,000; the GP/TC line,
   * and with it any fiat pricing and any rate lookup, exists only when the
   * market price is positive; when the 250-TC price is positive too, the
   * item after it is the fiat step's (the grid, or the connectivity error)
   * for the coins just computed, and the cache is the one that step leaves.
   */
  lemma GpDirection(input: Input, s: CacheState, network: FetchOutcome)
    requires input.currencyType == Gp && IsPositive(input.amount)
    ensures var o := Calculation(input, s, network);
      && o.display.Shown?
      && (!IsPositive(input.tcMarketPrice) ==> o.display.results == [] && o.cache == s)
      && (IsPositive(input.tcMarketPrice) ==>
           && |o.display.results| == (if IsPositive(input.tc250Price) then 2 else 1)
           && o.display.results[0].Conversion?
           && o.display.results[0].from == Gp
           && o.display.results[0].gpAmount == input.amount.value * GP_PER_KK
           && o.display.results[0].kk == input.amount.value
           && o.display.results[0].tcAmount * input.tcMarketPrice.value == input.amount.value * GP_PER_KK)
      && (IsPositive(input.tcMarketPrice) && IsPositive(input.tc250Price) ==>
           var fiat := FiatStep(GpToTc(input.amount.value * GP_PER_KK, input.tcMarketPrice.value),
                                input.tc250Price.value, input.currency, s, network);
           o.display.results[1] == fiat.item && o.cache == fiat.cache)
      && (!IsPositive(input.tc250Price) ==> o.cache == s)
  {
  }

  /**
   * Starting from TC: the GP/TC line exists exactly when the market price is
   * positive, with gold = coins times price and kk = gold / 1,000,000; the fiat
   * item is present exactly when the 250-TC price is positive, and then it is
   * the last item, the fiat step's for the entered coins, and the cache is
   * the one that step leaves.
   */
  lemma TcDirection(input: Input, s: CacheState, network: FetchOutcome)
    requires input.currencyType == Tc && IsPositive(input.amount)
    ensures var o := Calculation(input, s, network);
      && o.display.Shown?
      && |o.display.results| == (if IsPositive(input.tcMarketPrice) then 1 else 0)
                                + (if IsPositive(input.tc250Price) then 1 else 0)
      && (IsPositive(input.tcMarketPrice) ==>
           && o.display.results[0].Conversion?
           && o.display.results[0].from == Tc
           && o.display.results[0].tcAmount == input.amount.value
           && o.display.results[0].gpAmount == input.amount.value * input.tcMarketPrice.value
           && o.display.results[0].kk * GP_PER_KK == o.display.results[0].gpAmount)
      && (IsPositive(input.tc250Price) ==>
           var fiat := FiatStep(input.amount.value, input.tc250Price.value, input.currency, s, network);
           o.display.results[|o.display.results| - 1] == fiat.item && o.cache == fiat.cache)
      && (!IsPositive(input.tc250Price) ==> o.cache == s)
  {
  }

  /**
   * Starting from TC, the fiat part of the result and the cache state after
   * the run do not depend on the market price at all.
   */
  lemma TcFiatIgnoresMarketPrice(input: Input, otherPrice: Option<real>, s: CacheState, network: FetchOutcome)
    requires input.currencyType == Tc
    ensures var o1 := Calculation(input, s, network);
      var o2 := Calculation(input.(tcMarketPrice := otherPrice), s, network);
      FiatPart(o1.display) == FiatPart(o2.display) && o1.cache == o2.cache
  {
  }

  /**
   * The TC line a GP amount produces, fed back as a TC amount at the same
   * market price, converts to the original gold and kk.
   */
  lemma GpTcRoundTrip(input: Input, s: CacheState, network: FetchOutcome, s2: CacheState, network2: FetchOutcome)
    requires input.currencyType == Gp && IsPositive(input.amount) && IsPositive(input.tcMarketPrice)
    ensures var there := Calculation(input, s, network).display;
      there.Shown? && |there.results| > 0 && there.results[0].Conversion? &&
      var back := Calculation(input.(currencyType := Tc, amount := Some(there.results[0].tcAmount)), s2, network2).display;
      back.Shown? && |back.results| > 0 &&
      back.results[0] == Conversion(Tc, input.amount.value * GP_PER_KK, input.amount.value, there.results[0].tcAmount)
  {
  }

  /**
   * A failed rate lookup keeps the GP/TC line already produced and adds the
   * connectivity error after it, leaving the cache untouched.
   */
  lemma FetchFailureKeepsConversion(input: Input, s: CacheState, network: FetchOutcome)
    requires IsPositive(input.amount) && IsPositive(input.tcMarketPrice) && IsPositive(input.tc250Price)
    requires !IsHit(s, input.currency) && !Succeeded(network)
    ensures var o := Calculation(input, s, network);
      && o.display.Shown?
      && |o.display.results| == 2
      && o.display.results[0].Conversion?
      && o.display.results[1] == FetchError(CONNECTIVITY_MESSAGE)
      && o.cache == s
  {
  }

  /**
   * Six tiles listing the currencies in order: the selected one, highlighted,
   * at exactly `cost`, every other one at `cost` times its rate, or NaN when
   * the table lacks the code.
   */
  predicate PricedAt(tiles: seq<GridItem>, cost: real, currency: string, rates: RateTable) {
    && |tiles| == 6
    && forall k :: 0 <= k < 6 ==> PricedTile(tiles[k], CURRENCIES[k], cost, currency, rates)
  }

  /** One tile of such a grid, for `code`. */
  predicate PricedTile(t: GridItem, code: string, cost: real, currency: string, rates: RateTable) {
    && t.code == code
    && (t.highlighted <==> code == currency)
    && (code == currency ==> t.amount == Num(cost))
    && (code != currency && code in rates ==> t.amount == Num(cost * rates[code]))
    && (code != currency && code !in rates ==> t.amount == NaN)
  }

  lemma CostInCases(code: string, cost: real, currency: string, rates: RateTable, n: Number)
    requires n == CostIn(code, cost, currency, rates)
    ensures code == currency ==> n == Num(cost)
    ensures code != currency && code in rates ==> n == Num(cost * rates[code])
    ensures code != currency && code !in rates ==> n == NaN
  {
  }

  /** The grid of a cost object shows the six currencies priced as `PricedAt` says. */
  lemma CostGridPrices(cost: real, currency: string, rates: RateTable, costs: map<string, Number>)
    requires costs == Costs(cost, currency, rates)
    ensures Priced(CURRENCIES, costs)
    ensures PricedAt(Grid(costs, currency), cost, currency, rates)
  {
    var tiles := Grid(costs, currency);
    GridLayout(costs, currency);
    forall k | 0 <= k < 6
      ensures PricedTile(tiles[k], CURRENCIES[k], cost, currency, rates)
    {
      var code := CURRENCIES[k];
      assert tiles[k].amount == costs[code];
      CostInCases(code, cost, currency, rates, costs[code]);
    }
  }

  /**
   * Whenever the fiat step shows a grid, it prices the coins with the table
   * the cache served for the selected currency: that currency, highlighted,
   * at the cost in it, every other one at that cost times its served rate.
   */
  lemma FiatGridPrices(tcAmount: real, tc250Price: real, currency: string, s: CacheState, network: FetchOutcome)
    ensures var item := FiatStep(tcAmount, tc250Price, currency, s, network).item;
      var served := Lookup(s, currency, network).response;
      var cost := CostInInputCurrency(tcAmount, tc250Price);
      item.CurrencyGrid? ==> served.Rates? && PricedAt(item.tiles, cost, currency, served.rates)
  {
    var served := Lookup(s, currency, network).response;
    if served.Rates? {
      var cost := CostInInputCurrency(tcAmount, tc250Price);
      var costs := Costs(cost, currency, served.rates);
      assert FiatStep(tcAmount, tc250Price, currency, s, network).item == CurrencyGrid(Grid(costs, currency));
      CostGridPrices(cost, currency, served.rates, costs);
    }
  }

  /**
   * The script's own sample conversion, "20,000,000 GP (20 kk)" = "500.00 TC":
   * 20 kk at the default market price of 40,000 gold per coin.
   */
  lemma TwentyKkExample(s: CacheState, network: FetchOutcome)
    ensures Calculation(Input(Gp, Some(20.0), Some(40000.0), None, "PLN"), s, network)
         == Outcome(Shown([Conversion(Gp, 20000000.0, 20.0, 500.0)]), s)
  {
  }

  /**
   * 500 TC at 10 EUR per 250 TC cost 20 EUR; with a table based on EUR the
   * EUR entry is that cost itself and the others are it times their rates.
   */
  lemma EurQuoteExample()
    ensures var rates := map["PLN" := 4.25, "EUR" := 1.0, "USD" := 1.1, "GBP" := 0.85, "BRL" := 6.0, "SEK" := 11.5];
      var costs := Costs(CostInInputCurrency(500.0, 10.0), "EUR", rates);
      && costs["EUR"] == Num(20.0)
      && costs["PLN"] == Num(85.0)
      && costs["USD"] == Num(22.0)
      && costs["GBP"] == Num(17.0)
      && costs["BRL"] == Num(120.0)
      && costs["SEK"] == Num(230.0)
  {
  }

  /**
   * A run of `calculate` touches the cache through at most one lookup, for
   * the selected currency; when that currency is already cached the run
   * changes nothing in the cache and does not depend on the network.
   */
  lemma CalculationCacheEffect(input: Input, s: CacheState, network: FetchOutcome, other: FetchOutcome)
    ensures var o := Calculation(input, s, network);
      o.cache == s || o.cache == Lookup(s, input.currency, network).cache
    ensures IsHit(s, input.currency) ==>
      Calculation(input, s, network) == Calculation(input, s, other) && Calculation(input, s, network).cache == s
  {
  }

  /**
   * One run of `calculate` against the real cache object: it pushes each
   * result item in turn and consults the cache at most once.
   */
  method Calculate(cache: RateCache, input: Input, network: FetchOutcome) returns (display: Display)
    requires cache.Valid()
    modifies cache
    ensures cache.Valid()
    ensures Outcome(display, cache.State()) == Calculation(input, old(cache.State()), network)
  {
    ghost var before := cache.State();
    var amount := input.amount;
    if !Truthy(amount) || amount.value <= 0.0 {
      return Cleared;
    }
    var results: seq<ResultItem> := [];
    match input.currencyType {
      case Gp =>
        var gpAmount := amount.value * GP_PER_KK;
        if IsPositive(input.tcMarketPrice) {
          var tcAmount := gpAmount / input.tcMarketPrice.value;
          results := results + [Conversion(Gp, gpAmount, amount.value, tcAmount)];
          if IsPositive(input.tc250Price) {
            var item := PriceInCurrencies(cache, tcAmount, input.tc250Price.value, input.currency, network);
            results := results + [item];
            assert results == [results[0], item];
          } else {
            assert cache.State() == before;
            assert Calculation(input, before, network).display == Shown([Conversion(Gp, gpAmount, amount.value, tcAmount)]);
          }
        } else {
          assert Calculation(input, before, network).display == Shown([]);
        }
        assert Outcome(Shown(results), cache.State()) == Calculation(input, before, network);
      case Tc =>
        var tcAmount := amount.value;
        if IsPositive(input.tcMarketPrice) {
          var gpAmount := tcAmount * input.tcMarketPrice.value;
          var gpAmountKk := gpAmount / GP_PER_KK;
          results := results + [Conversion(Tc, gpAmount, gpAmountKk, tcAmount)];
        }
        ghost var primary := results;
        assert primary == (if IsPositive(input.tcMarketPrice) then
            [Conversion(Tc, TcToGp(tcAmount, input.tcMarketPrice.value), TcToGp(tcAmount, input.tcMarketPrice.value) / GP_PER_KK, tcAmount)]
          else []);
        if IsPositive(input.tc250Price) {
          var item := PriceInCurrencies(cache, tcAmount, input.tc250Price.value, input.currency, network);
          results := results + [item];
          assert Calculation(input, before, network).display == Shown(primary + [item]);
        } else {
          assert Calculation(input, before, network).display == Shown(primary);
        }
        assert Outcome(Shown(results), cache.State()) == Calculation(input, before, network);
    }
    display := Shown(results);
  }

  /** The `try`/`catch` around the rate fetch: the grid on success, the error message on failure. */
  method PriceInCurrencies(cache: RateCache, tcAmount: real, tc250Price: real, currency: string, network: FetchOutcome)
    returns (item: ResultItem)
    requires cache.Valid()
    modifies cache
    ensures cache.Valid()
    ensures FiatResult(item, cache.State()) == FiatStep(tcAmount, tc250Price, currency, old(cache.State()), network)
  {
    var costInInputCurrency := (tcAmount / TC_PER_QUOTE) * tc250Price;
    var response := cache.FetchExchangeRates(currency, network);
    match response
    case Rates(rates, _) =>
      var costs := Costs(costInInputCurrency, currency, rates);
      var grid := GenerateCurrencyGrid(costs, currency);
      item := CurrencyGrid(grid);
    case Failed(message) =>
      item := FetchError(message);
  }
}
