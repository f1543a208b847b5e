/** The state the `useCrypto` and `useSearch` hooks hold. Each `useState`
    slot is a field; each state-changing callback is a method whose contract
    gives the whole new state. The clock (`new Date()`) is a parameter, and
    the request a callback awaits is given as the outcomes of its attempts
    and the body it would decode. */
module MarketHook {
  import opened Wrappers
  import opened Assets
  import opened Api
  import opened MarketSort
  import JsStrings

  /** `useCrypto()`: the market list, its load and error flags, the time of
      the last successful refresh and the current sort. */
  class MarketState {
    var cryptos: seq<Asset>
    var loading: bool
    var error: Option<string>
    var lastUpdate: Option<nat>
    var sortBy: SortSpec

    /** The initial `useState` values: an empty list, loading, no error, no
        refresh yet, sorted by rank ascending. */
    constructor ()
      ensures cryptos == [] && loading && error == None && lastUpdate == None
      ensures sortBy == InitialSortSpec
    {
      cryptos := [];
      loading := true;
      error := None;
      lastUpdate := None;
      sortBy := InitialSortSpec;
    }

    /** `fetchData()`: on success the list is replaced wholesale by the fetched
        one and the error cleared; on failure the old list stays and the
        error's message is recorded. Loading is off afterwards either way, and
        the sort state is not touched (a refreshed list arrives in the API's
        order, whatever `sortBy` says). */
    method FetchData(outcomes: seq<Attempt>, body: seq<RawCoin>, now: nat)
      requires MaxRetries < |outcomes|
      modifies this
      ensures var fetched := FetchCryptoMarketData(outcomes, body);
        match fetched
        case Ok(data) => cryptos == data && error == None && lastUpdate == Some(now)
        case Err(e) => cryptos == old(cryptos) && error == Some(e.message) && lastUpdate == old(lastUpdate)
      ensures !loading
      ensures sortBy == old(sortBy)
    {
      loading := true;
      error := None;
      var fetched := FetchCryptoMarketData(outcomes, body);
      match fetched {
        case Ok(data) =>
          cryptos := data;
          lastUpdate := Some(now);
        case Err(e) =>
          error := Some(e.message);
      }
      loading := false;
    }

    /** `sortCryptos(field)`: the sort state moves to the next one for that
        column and the list is re-ordered by it: the same entries, in
        comparator order. */
    method SortCryptos(field: SortField)
      modifies this
      ensures sortBy == NextSortSpec(old(sortBy), field)
      ensures multiset(cryptos) == multiset(old(cryptos))
      ensures Sorted(sortBy, cryptos)
      ensures loading == old(loading) && error == old(error) && lastUpdate == old(lastUpdate)
    {
      var spec := NextSortSpec(sortBy, field);
      sortBy := spec;
      cryptos := SortAssets(spec, cryptos);
    }
  }

  /** `useSearch()`: the latest results, the loading flag and the error. */
  class SearchState {
    var searchResults: seq<SearchCoin>
    var searchLoading: bool
    var searchError: Option<string>

    constructor ()
      ensures searchResults == [] && !searchLoading && searchError == None
    {
      searchResults := [];
      searchLoading := false;
      searchError := None;
    }

    /** `search(query)`: a query that trims to nothing empties the results and
        makes no request (`requested` is false); any other query is sent, and
        its results replace the old ones, or its error is recorded and the
        old results stay. */
    method Search(query: string, outcomes: seq<Attempt>, body: SearchEnvelope) returns (requested: bool)
      requires MaxRetries < |outcomes|
      modifies this
      ensures requested <==> !JsStrings.AllWhiteSpace(query)
      ensures !requested ==> searchResults == [] && searchError == old(searchError)
                             && searchLoading == old(searchLoading)
      ensures requested ==> !searchLoading
      ensures requested ==>
        match SearchCryptocurrencies(outcomes, body)
        case Ok(coins) => searchResults == coins && searchError == None
        case Err(e) => searchResults == old(searchResults) && searchError == Some(e.message)
    {
      if JsStrings.Trim(query) == [] {
        searchResults := [];
        return false;
      }
      searchLoading := true;
      searchError := None;
      var found := SearchCryptocurrencies(outcomes, body);
      match found {
        case Ok(coins) =>
          searchResults := coins;
        case Err(e) =>
          searchError := Some(e.message);
      }
      searchLoading := false;
      return true;
    }

    /** `clearSearch()`. */
    method ClearSearch()
      modifies this
      ensures searchResults == [] && searchError == None && searchLoading == old(searchLoading)
    {
      searchResults := [];
      searchError := None;
    }
  }
}
