/**
 * The exchange-rate cache (fetchExchangeRates in script.js). The module-level
 * `exchangeRates` object and `lastInputCurrency` variable are the fields of a
 * RateCache object; the network request is replaced by a FetchOutcome value
 * that says what the provider would answer if it were asked.
 */
module Rates {
  import opened Wrappers
  import opened Currencies

  /** The one message every failed lookup raises, whatever went wrong. */
  const CONNECTIVITY_MESSAGE: string :=
    "Error fetching exchange rates. Please check your internet connection and try again."

  /** The status the provider's body must carry for its rates to be accepted. */
  const SUCCESS: string := "success"

  /**
   * What the provider answers when asked: a parsed body with its `result`
   * field and its rate table, or nothing usable (the request was rejected or
   * the body was not JSON).
   */
  datatype FetchOutcome = Delivered(result: string, rates: RateTable) | Unreachable

  predicate Succeeded(network: FetchOutcome) {
    network.Delivered? && network.result == SUCCESS
  }

  /** The values of `exchangeRates` and `lastInputCurrency`. */
  datatype CacheState = CacheState(exchangeRates: map<string, RateTable>, lastInputCurrency: Option<string>)

  /** The state when the page loads: `{}` and `null`. */
  const INITIAL: CacheState := CacheState(map[], None)

  /** The remembered currency, when there is one, always has a stored table. */
  predicate Consistent(s: CacheState) {
    s.lastInputCurrency.Some? ==> s.lastInputCurrency.value in s.exchangeRates
  }

  /**
   * A request is served from the cache when a table is stored for the code and
   * the code is the last one fetched. A stored table is an object, hence truthy.
   */
  predicate IsHit(s: CacheState, code: string)
    // in a consistent state the stored-table half of the test never decides a hit
    ensures Consistent(s) ==> (IsHit(s, code) <==> s.lastInputCurrency == Some(code))
  {
    code in s.exchangeRates && s.lastInputCurrency == Some(code)
  }

  /** What fetchExchangeRates resolves to or rejects with. */
  datatype Response = Rates(rates: RateTable, fromCache: bool) | Failed(message: string)

  datatype LookupResult = LookupResult(cache: CacheState, response: Response)

  /** One call of fetchExchangeRates, as a function of the state before it. */
  function Lookup(s: CacheState, code: string, network: FetchOutcome): (r: LookupResult)
    // a hit is answered from the stored table, without the network, and changes nothing
    ensures IsHit(s, code) ==> r.cache == s && r.response == Rates(s.exchangeRates[code], true)
    // a miss answers with whatever the provider delivered successfully, marked as not cached
    ensures !IsHit(s, code) && Succeeded(network) ==> r.response == Rates(network.rates, false)
    // a miss whose fetch fails leaves the state alone and raises the one fixed message
    ensures !IsHit(s, code) && !Succeeded(network) ==>
      r.cache == s && r.response == Failed(CONNECTIVITY_MESSAGE)
    // whatever is served is what is now stored for the code, and the next request for it hits
    ensures r.response.Rates? ==>
      IsHit(r.cache, code) && r.cache.exchangeRates[code] == r.response.rates
    // entries for other codes are never added, removed or replaced
    ensures forall c :: c != code ==>
      (c in r.cache.exchangeRates <==> c in s.exchangeRates)
      && (c in s.exchangeRates ==> r.cache.exchangeRates[c] == s.exchangeRates[c])
    // the remembered currency changes only to the requested one
    ensures r.cache.lastInputCurrency == s.lastInputCurrency || r.cache.lastInputCurrency == Some(code)
    ensures Consistent(s) ==> Consistent(r.cache)
  {
    if IsHit(s, code) then
      LookupResult(s, Rates(s.exchangeRates[code], true))
    else if Succeeded(network) then
      LookupResult(CacheState(s.exchangeRates[code := network.rates], Some(code)), Rates(network.rates, false))
    else
      LookupResult(s, Failed(CONNECTIVITY_MESSAGE))
  }

  /**
   * How many times a run of requests for one code consults the provider; the
   * i-th request would be answered with outcomes[i] if it went to the network.
   */
  function NetworkRequests(s: CacheState, code: string, outcomes: seq<FetchOutcome>): nat
    decreases |outcomes|
  {
    if outcomes == [] then 0
    else
      (if IsHit(s, code) then 0 else 1)
      + NetworkRequests(Lookup(s, code, outcomes[0]).cache, code, outcomes[1..])
  }

  /** Once a code is cached, any number of further requests for it never touch the network. */
  lemma {:induction false} CachedCodeNeedsNoFetch(s: CacheState, code: string, outcomes: seq<FetchOutcome>)
    requires IsHit(s, code)
    ensures NetworkRequests(s, code, outcomes) == 0
  {
    if outcomes != [] {
      CachedCodeNeedsNoFetch(Lookup(s, code, outcomes[0]).cache, code, outcomes[1..]);
    }
  }

  /**
   * Repeating a request for the same code fetches at most once when the first
   * fetch succeeds; every failure before it costs exactly one more fetch.
   */
  lemma {:induction false} RepeatedRequestsFetchUntilSuccess(s: CacheState, code: string, outcomes: seq<FetchOutcome>, n: nat)
    requires n < |outcomes| && Succeeded(outcomes[n])
    requires forall i :: 0 <= i < n ==> !Succeeded(outcomes[i])
    ensures NetworkRequests(s, code, outcomes) <= n + 1
  {
    var next := Lookup(s, code, outcomes[0]).cache;
    if IsHit(s, code) {
      CachedCodeNeedsNoFetch(s, code, outcomes);
    } else if n == 0 {
      CachedCodeNeedsNoFetch(next, code, outcomes[1..]);
    } else {
      assert next == s;
      RepeatedRequestsFetchUntilSuccess(s, code, outcomes[1..], n - 1);
    }
  }

  /**
   * Switching currency: after a successful fetch for `b`, a request for a
   * different code `a` goes to the network even though a table for `a` may
   * still be stored, so the cache behaves as a single slot.
   */
  lemma SwitchingCurrencyRefetches(s: CacheState, a: string, b: string, first: FetchOutcome, second: FetchOutcome)
    requires a != b && Succeeded(first)
    ensures !IsHit(Lookup(s, b, first).cache, a)
    ensures Lookup(Lookup(s, b, first).cache, a, second).response.Rates? ==>
      Lookup(Lookup(s, b, first).cache, a, second).response == Rates(second.rates, false)
  {
  }

  /** The cache whose fields fetchExchangeRates reads and updates in place. */
  class RateCache {
    var exchangeRates: map<string, RateTable>
    var lastInputCurrency: Option<string>

    function State(): CacheState
      reads this
    {
      CacheState(exchangeRates, lastInputCurrency)
    }

    /** Under this invariant a request hits exactly when its code is `lastInputCurrency`. */
    ghost predicate Valid()
      reads this
    {
      Consistent(State())
    }

    constructor ()
      ensures Valid() && State() == INITIAL
    {
      exchangeRates := map[];
      lastInputCurrency := None;
    }

    /** fetchExchangeRates: answers from the cache on a hit, otherwise asks the network. */
    method FetchExchangeRates(inputCurrency: string, network: FetchOutcome) returns (response: Response)
      requires Valid()
      modifies this
      ensures Valid()
      ensures LookupResult(State(), response) == Lookup(old(State()), inputCurrency, network)
      ensures (response.Rates? && response.fromCache) <==> old(lastInputCurrency) == Some(inputCurrency)
    {
      if inputCurrency in exchangeRates && lastInputCurrency == Some(inputCurrency) {
        return Rates(exchangeRates[inputCurrency], true);
      }
      match network
      case Delivered(result, rates) =>
        if result != SUCCESS {
          return Failed(CONNECTIVITY_MESSAGE);
        }
        exchangeRates := exchangeRates[inputCurrency := rates];
        lastInputCurrency := Some(inputCurrency);
        return Rates(rates, false);
      case Unreachable =>
        return Failed(CONNECTIVITY_MESSAGE);
    }
  }
}
