/** The request layer of the market-data client: the retry budget around one
    HTTP request, the `!response.ok` check every fetcher makes, the
    normalisation of market records, and the envelope each fetcher unwraps.

    The network is abstracted away. Each request attempt is an `Attempt`: the
    response it resolved to (only its status matters here) or the error it
    was rejected with. A timed-out attempt is a rejection whose error name is
    `AbortError`. A fetch is given the sequence of outcomes its successive
    attempts would produce, and the decoded JSON body it would read. */
module Api {
  import opened Wrappers
  import opened Assets
  import opened JsStrings

  /** Retries after the first attempt. */
  const MaxRetries: nat := 3
  /** Pause before each retry, in milliseconds. */
  const RetryDelayMs: nat := 1000

  /** A JavaScript `Error`: its `name` decides retrying, its `message` is shown. */
  datatype JsError = JsError(name: string, message: string)

  /** What one call of the timed fetch produced. */
  datatype Attempt = Resolved(status: nat) | Rejected(error: JsError)

  /** The result of a retried request, with how many attempts it made and how
      long it waited between them. */
  datatype RetryRun = RetryRun(result: Result<nat, JsError>, attempts: nat, waitedMs: nat)

  /** Only aborts (time-outs) and network-level `TypeError`s are retried. */
  predicate Retryable(e: JsError) {
    e.name == "AbortError" || e.name == "TypeError"
  }

  predicate RetriesAfter(a: Attempt) {
    a.Rejected? && Retryable(a.error)
  }

  function AttemptResult(a: Attempt): Result<nat, JsError> {
    match a
    case Resolved(status) => Ok(status)
    case Rejected(e) => Err(e)
  }

  /** `fetchWithRetry(url, options, retries)`: try once; a resolved response is
      returned whatever its status; a retryable rejection with retries left waits
      and tries again with one retry fewer; any other rejection is rethrown.
      `outcomes[k]` is what the k-th attempt produces; one is needed for every
      attempt the budget allows. */
  function FetchWithRetry(outcomes: seq<Attempt>, retries: nat): (r: RetryRun)
    requires retries < |outcomes|
    ensures 1 <= r.attempts <= retries + 1
    ensures r.waitedMs == RetryDelayMs * (r.attempts - 1)
    ensures r.result == AttemptResult(outcomes[r.attempts - 1])
    ensures forall j :: 0 <= j < r.attempts - 1 ==> RetriesAfter(outcomes[j])
    ensures r.attempts - 1 == retries || !RetriesAfter(outcomes[r.attempts - 1])
    decreases retries
  {
    match outcomes[0]
    case Resolved(status) => RetryRun(Ok(status), 1, 0)
    case Rejected(e) =>
      if retries > 0 && Retryable(e) then
        var rest := FetchWithRetry(outcomes[1..], retries - 1);
        RetryRun(rest.result, rest.attempts + 1, rest.waitedMs + RetryDelayMs)
      else
        RetryRun(Err(e), 1, 0)
  }

  /** Attempt `k` is where a retry loop with budget `retries` stops: every
      earlier attempt was a retryable rejection, and this one either is not, or
      used up the budget. */
  predicate StopsAt(outcomes: seq<Attempt>, retries: nat, k: nat)
    requires retries < |outcomes|
  {
    && k <= retries
    && (forall j :: 0 <= j < k ==> RetriesAfter(outcomes[j]))
    && (k == retries || !RetriesAfter(outcomes[k]))
  }

  /** Every outcome sequence has a stopping attempt. */
  lemma {:induction false} StopIndexExists(outcomes: seq<Attempt>, retries: nat)
    requires retries < |outcomes|
    ensures exists k: nat :: StopsAt(outcomes, retries, k)
    decreases retries
  {
    if retries > 0 && RetriesAfter(outcomes[0]) {
      StopIndexExists(outcomes[1..], retries - 1);
      var k: nat :| StopsAt(outcomes[1..], retries - 1, k);
      assert StopsAt(outcomes, retries, k + 1);
    } else {
      assert StopsAt(outcomes, retries, 0);
    }
  }

  /** The retry loop, described without recursion: it stops at the stopping
      attempt `k`, makes `k + 1` attempts, waits 1000 ms before each of the `k`
      retries, and returns that attempt's response or rethrows its error. In
      particular a resolved response of any status ends it at once, a
      non-retryable error is rethrown with no wait, and an exhausted budget
      rethrows the last attempt's error. */
  lemma {:induction false} FetchWithRetryStopsAt(outcomes: seq<Attempt>, retries: nat, k: nat)
    requires retries < |outcomes|
    requires StopsAt(outcomes, retries, k)
    ensures FetchWithRetry(outcomes, retries)
            == RetryRun(AttemptResult(outcomes[k]), k + 1, RetryDelayMs * k)
    decreases retries
  {
    if k > 0 {
      assert RetriesAfter(outcomes[0]);
      assert StopsAt(outcomes[1..], retries - 1, k - 1);
      FetchWithRetryStopsAt(outcomes[1..], retries - 1, k - 1);
    }
  }

  /** With the module's budget a request makes at most four attempts and
      waits at most three seconds in all. */
  lemma AtMostFourAttempts(outcomes: seq<Attempt>)
    requires MaxRetries < |outcomes|
    ensures FetchWithRetry(outcomes, MaxRetries).attempts <= 4
    ensures FetchWithRetry(outcomes, MaxRetries).waitedMs <= 3000
  {
  }

  /** `response.ok`: a status in the 200 to 299 range. */
  predicate IsOk(status: nat) {
    200 <= status <= 299
  }

  /** `new Error(`HTTP error! status: ${response.status}`)`. */
  function HttpError(status: nat): (e: JsError)
    ensures e.name == "Error"
    ensures |e.message| > 20 && e.message[..20] == "HTTP error! status: "
  {
    JsError("Error", "HTTP error! status: " + DecimalString(status))
  }

  /** The status can be read back from an HTTP error's message: after the
      prefix comes the status's canonical decimal text, with no leading zero. */
  lemma HttpErrorNamesStatus(status: nat)
    ensures HttpError(status).message[20..] == DecimalString(status)
    ensures HttpError(status).message[20] == '0' ==> status == 0
    ensures forall i :: 20 <= i < |HttpError(status).message| ==> IsDigit(HttpError(status).message[i])
    ensures ParseDecimal(HttpError(status).message[20..]) == status
  {
    var m := HttpError(status).message;
    assert m[20..] == DecimalString(status);
    ParseDecimalString(status);
  }

  /** What every fetcher does first: the retried request, then
      `if (!response.ok) throw new Error(...)`. The result is the status of an
      ok response, or the error the fetcher throws. */
  function CheckedFetch(outcomes: seq<Attempt>): (r: Result<nat, JsError>)
    requires MaxRetries < |outcomes|
    ensures r.Ok? ==> IsOk(r.value)
    ensures r.Ok? <==> FetchWithRetry(outcomes, MaxRetries).result.Ok?
                       && IsOk(FetchWithRetry(outcomes, MaxRetries).result.value)
  {
    match FetchWithRetry(outcomes, MaxRetries).result
    case Err(e) => Err(e)
    case Ok(status) => if IsOk(status) then Ok(status) else Err(HttpError(status))
  }

  /** The fetchers' outcome in terms of the stopping attempt: an ok response
      succeeds, a non-ok response of status `s` fails with
      `HTTP error! status: s` and is never retried, a rejection is passed on. */
  lemma CheckedFetchStopsAt(outcomes: seq<Attempt>, k: nat)
    requires MaxRetries < |outcomes|
    requires StopsAt(outcomes, MaxRetries, k)
    ensures outcomes[k].Resolved? && IsOk(outcomes[k].status) ==> CheckedFetch(outcomes) == Ok(outcomes[k].status)
    ensures outcomes[k].Resolved? && !IsOk(outcomes[k].status) ==> CheckedFetch(outcomes) == Err(HttpError(outcomes[k].status))
    ensures outcomes[k].Rejected? ==> CheckedFetch(outcomes) == Err(outcomes[k].error)
  {
    FetchWithRetryStopsAt(outcomes, MaxRetries, k);
  }

  /** A first response with a non-2xx status is surfaced as an error at once. */
  lemma NonOkStatusIsNotRetried(outcomes: seq<Attempt>)
    requires MaxRetries < |outcomes|
    requires outcomes[0].Resolved? && !IsOk(outcomes[0].status)
    ensures FetchWithRetry(outcomes, MaxRetries).attempts == 1
    ensures CheckedFetch(outcomes) == Err(HttpError(outcomes[0].status))
  {
  }

  /** The seven-day change a normalised asset gets: the `_in_currency` value
      when it is truthy, 0 otherwise (`x || 0`). */
  function SevenDayChange(c: RawCoin): (r: real)
    ensures c.priceChange7dInCurrency.Some? ==> r == c.priceChange7dInCurrency.value
    ensures c.priceChange7dInCurrency.None? ==> r == 0.0
  {
    match c.priceChange7dInCurrency
    case Some(v) => if v != 0.0 then v else 0.0
    case None => 0.0
  }

  function Normalize(c: RawCoin): Asset {
    Asset(
      c.id, ToUpperCase(c.symbol), c.name, c.image,
      c.currentPrice, c.marketCap, c.totalVolume, c.priceChange24h,
      SevenDayChange(c), c.marketCapRank,
      c.circulatingSupply, c.totalSupply, c.maxSupply, c.ath, c.atl,
      c.lastUpdated)
  }

  /** `data.map(crypto => ({...}))`: one asset per record, in the same order;
      every field but two copied verbatim; the symbol upper-cased; the
      seven-day change defaulted to 0. */
  function NormalizeAll(data: seq<RawCoin>): (r: seq<Asset>)
    ensures |r| == |data|
    ensures forall i :: 0 <= i < |r| ==>
      && r[i].id == data[i].id && r[i].name == data[i].name && r[i].image == data[i].image
      && r[i].currentPrice == data[i].currentPrice && r[i].marketCap == data[i].marketCap
      && r[i].totalVolume == data[i].totalVolume && r[i].priceChange24h == data[i].priceChange24h
      && r[i].marketCapRank == data[i].marketCapRank
      && r[i].circulatingSupply == data[i].circulatingSupply && r[i].totalSupply == data[i].totalSupply
      && r[i].maxSupply == data[i].maxSupply && r[i].ath == data[i].ath && r[i].atl == data[i].atl
      && r[i].lastUpdated == data[i].lastUpdated
    ensures forall i :: 0 <= i < |r| ==> r[i].symbol == ToUpperCase(data[i].symbol)
    ensures forall i :: 0 <= i < |r| ==> r[i].priceChange7d == SevenDayChange(data[i])
  {
    if data == [] then [] else [Normalize(data[0])] + NormalizeAll(data[1..])
  }

  /** `fetchCryptoMarketData()`: the checked request, then the normalised body. */
  function FetchCryptoMarketData(outcomes: seq<Attempt>, body: seq<RawCoin>): (r: Result<seq<Asset>, JsError>)
    requires MaxRetries < |outcomes|
    ensures r.Ok? <==> CheckedFetch(outcomes).Ok?
    ensures r.Ok? ==> r.value == NormalizeAll(body)
    ensures r.Err? ==> r.error == CheckedFetch(outcomes).error
  {
    match CheckedFetch(outcomes)
    case Err(e) => Err(e)
    case Ok(_) => Ok(NormalizeAll(body))
  }

  /** The decoded body of a `/search` response. */
  datatype SearchEnvelope = SearchEnvelope(coins: seq<SearchCoin>)

  const MaxSearchResults: nat := 10

  /** `searchCryptocurrencies(query)`: the first ten coins of the envelope, in order. */
  function SearchCryptocurrencies(outcomes: seq<Attempt>, body: SearchEnvelope): (r: Result<seq<SearchCoin>, JsError>)
    requires MaxRetries < |outcomes|
    ensures r.Ok? <==> CheckedFetch(outcomes).Ok?
    ensures r.Ok? ==> |r.value| <= MaxSearchResults && |r.value| <= |body.coins| && r.value == body.coins[..|r.value|]
    ensures r.Ok? && |body.coins| <= MaxSearchResults ==> r.value == body.coins
    ensures r.Ok? && |body.coins| >= MaxSearchResults ==> |r.value| == MaxSearchResults
    ensures r.Err? ==> r.error == CheckedFetch(outcomes).error
  {
    match CheckedFetch(outcomes)
    case Err(e) => Err(e)
    case Ok(_) =>
      var coins := body.coins;
      Ok(if |coins| <= MaxSearchResults then coins else coins[..MaxSearchResults])
  }

  /** `fetchCryptoDetails(coinId)`: the body itself, unnormalised. */
  function FetchCryptoDetails<T>(outcomes: seq<Attempt>, body: T): (r: Result<T, JsError>)
    requires MaxRetries < |outcomes|
    ensures r.Ok? <==> CheckedFetch(outcomes).Ok?
    ensures r.Ok? ==> r.value == body
    ensures r.Err? ==> r.error == CheckedFetch(outcomes).error
  {
    match CheckedFetch(outcomes)
    case Err(e) => Err(e)
    case Ok(_) => Ok(body)
  }

  /** The decoded body of a `/global` response. */
  datatype GlobalEnvelope<T> = GlobalEnvelope(data: T)

  /** `fetchGlobalMarketData()`: the `data` field of the body. */
  function FetchGlobalMarketData<T>(outcomes: seq<Attempt>, body: GlobalEnvelope<T>): (r: Result<T, JsError>)
    requires MaxRetries < |outcomes|
    ensures r.Ok? <==> CheckedFetch(outcomes).Ok?
    ensures r.Ok? ==> r.value == body.data
    ensures r.Err? ==> r.error == CheckedFetch(outcomes).error
  {
    match CheckedFetch(outcomes)
    case Err(e) => Err(e)
    case Ok(_) => Ok(body.data)
  }

  /** The decoded body of a `/search/trending` response. */
  datatype TrendingEnvelope<T> = TrendingEnvelope(coins: seq<T>)

  /** `fetchTrendingCryptos()`: the `coins` field of the body, all of it. */
  function FetchTrendingCryptos<T>(outcomes: seq<Attempt>, body: TrendingEnvelope<T>): (r: Result<seq<T>, JsError>)
    requires MaxRetries < |outcomes|
    ensures r.Ok? <==> CheckedFetch(outcomes).Ok?
    ensures r.Ok? ==> r.value == body.coins
    ensures r.Err? ==> r.error == CheckedFetch(outcomes).error
  {
    match CheckedFetch(outcomes)
    case Err(e) => Err(e)
    case Ok(_) => Ok(body.coins)
  }

  /** An example: a bitcoin record with lower-case symbol and a null
      seven-day change, fetched with a 200 response, comes back as one asset
      with symbol `BTC` and seven-day change 0. */
  lemma BitcoinIsNormalised(rest: seq<Attempt>)
    requires |rest| >= MaxRetries
    ensures var btc := RawCoin("bitcoin", "btc", "Bitcoin", "", None, None, None, Some(5.2), None,
                              Some(1), None, None, None, None, None, "");
            var r := FetchCryptoMarketData([Resolved(200)] + rest, [btc]);
            r.Ok? && |r.value| == 1 && r.value[0].symbol == "BTC" && r.value[0].priceChange7d == 0.0
            && r.value[0].priceChange24h == Some(5.2)
  {
    var btc := RawCoin("bitcoin", "btc", "Bitcoin", "", None, None, None, Some(5.2), None,
                       Some(1), None, None, None, None, None, "");
    assert ToUpperCase("btc") == "BTC";
  }
}
