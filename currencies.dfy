/**
 * The fixed set of fiat currencies the converter prices in, and the grid of
 * tiles that shows one cost per currency (generateCurrencyGrid in script.js).
 * Number-to-text formatting is abstracted: a tile carries the number itself.
 */
module Currencies {

  /** The six supported fiat codes, in the order the grid lists them. */
  const CURRENCIES: seq<string> := ["PLN", "EUR", "USD", "GBP", "BRL", "SEK"]

  /** A rate table as the exchange-rate provider returns it: code to multiplier. */
  type RateTable = map<string, real>

  /**
   * A JavaScript number as far as the converter produces one: a real value, or
   * NaN, which is what multiplying by the rate of a code the table lacks gives.
   */
  datatype Number = Num(value: real) | NaN

  /** One tile of the grid: the currency code, the amount shown, and whether it is highlighted. */
  datatype GridItem = GridItem(code: string, amount: Number, highlighted: bool)

  /** Every code in `codes` has a cost (the source reads `costs[code]` for each of them). */
  predicate Priced(codes: seq<string>, costs: map<string, Number>) {
    forall k :: 0 <= k < |codes| ==> codes[k] in costs
  }

  function Tile(code: string, costs: map<string, Number>, selected: string): GridItem
    requires code in costs
  {
    GridItem(code, costs[code], code == selected)
  }

  /** The tiles for `codes`, one per code and in the same order. */
  function Tiles(codes: seq<string>, costs: map<string, Number>, selected: string): (g: seq<GridItem>)
    requires Priced(codes, costs)
    ensures |g| == |codes|
  {
    if codes == [] then [] else [Tile(codes[0], costs, selected)] + Tiles(codes[1..], costs, selected)
  }

  lemma {:induction false} TilesAt(codes: seq<string>, costs: map<string, Number>, selected: string, k: nat)
    requires Priced(codes, costs)
    requires k < |codes|
    ensures Tiles(codes, costs, selected)[k] == Tile(codes[k], costs, selected)
  {
    if k > 0 {
      TilesAt(codes[1..], costs, selected, k - 1);
    }
  }

  /** The grid the converter shows for a cost table: one tile per supported currency. */
  function Grid(costs: map<string, Number>, selected: string): (g: seq<GridItem>)
    requires Priced(CURRENCIES, costs)
    ensures |g| == |CURRENCIES|
  {
    Tiles(CURRENCIES, costs, selected)
  }

  lemma CurrenciesDistinct()
    ensures forall j, k :: 0 <= j < k < |CURRENCIES| ==> CURRENCIES[j] != CURRENCIES[k]
  {
  }

  /**
   * The grid lists the six supported currencies in their fixed order, each
   * with its own cost, and highlights a tile exactly when its code is the
   * selected currency.
   */
  lemma GridLayout(costs: map<string, Number>, selected: string)
    requires Priced(CURRENCIES, costs)
    ensures |Grid(costs, selected)| == |CURRENCIES| == 6
    ensures forall k :: 0 <= k < |CURRENCIES| ==>
      && Grid(costs, selected)[k].code == CURRENCIES[k]
      && Grid(costs, selected)[k].amount == costs[CURRENCIES[k]]
      && (Grid(costs, selected)[k].highlighted <==> CURRENCIES[k] == selected)
  {
    forall k | 0 <= k < |CURRENCIES|
      ensures Grid(costs, selected)[k] == Tile(CURRENCIES[k], costs, selected)
    {
      TilesAt(CURRENCIES, costs, selected, k);
    }
  }

  /**
   * Exactly one tile is highlighted, the selected currency's, when the selected
   * code is a supported one; none is highlighted otherwise.
   */
  lemma GridHighlightsSelected(costs: map<string, Number>, selected: string)
    requires Priced(CURRENCIES, costs)
    ensures selected in CURRENCIES ==>
      exists k :: 0 <= k < |Grid(costs, selected)| && Grid(costs, selected)[k].highlighted
                  && Grid(costs, selected)[k].code == selected
    ensures forall j, k ::
      (0 <= j < |Grid(costs, selected)| && 0 <= k < |Grid(costs, selected)|
       && Grid(costs, selected)[j].highlighted && Grid(costs, selected)[k].highlighted) ==> j == k
    ensures selected !in CURRENCIES ==>
      forall k :: 0 <= k < |Grid(costs, selected)| ==> !Grid(costs, selected)[k].highlighted
  {
    GridLayout(costs, selected);
    CurrenciesDistinct();
    var g := Grid(costs, selected);
    if selected in CURRENCIES {
      var k :| 0 <= k < |CURRENCIES| && CURRENCIES[k] == selected;
      assert g[k].highlighted && g[k].code == selected;
    }
    forall j, k | 0 <= j < |g| && 0 <= k < |g| && g[j].highlighted && g[k].highlighted
      ensures j == k
    {
      assert CURRENCIES[j] == selected == CURRENCIES[k];
    }
  }

  /** Builds the grid tile by tile, as the source's `forEach` appends one item per code. */
  method GenerateCurrencyGrid(costs: map<string, Number>, selected: string) returns (html: seq<GridItem>)
    requires Priced(CURRENCIES, costs)
    ensures html == Grid(costs, selected)
  {
    html := [];
    for i := 0 to |CURRENCIES|
      invariant |html| == i
      invariant forall k :: 0 <= k < i ==> html[k] == Tile(CURRENCIES[k], costs, selected)
    {
      var code := CURRENCIES[i];
      var isHighlighted := code == selected;
      html := html + [GridItem(code, costs[code], isHighlighted)];
    }
    forall k | 0 <= k < |CURRENCIES|
      ensures html[k] == Grid(costs, selected)[k]
    {
      TilesAt(CURRENCIES, costs, selected, k);
    }
  }
}
