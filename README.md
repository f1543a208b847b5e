# Crypto dashboard core, modelled in Dafny

The dashboard shows a market list of crypto assets fetched from a public
market-data API, lets the user sort it by column, shows the five best and five
worst performers of the day, and offers a rate-limited search box. Under the
rendering sits a small layer of decisions, and this project models that layer:

- the request layer (`src/utils/api.js`): the retry budget around each HTTP
  request, the `!response.ok` error path, the normalisation of market records
  and the envelope each fetcher unwraps (module `Api`);
- the market-list hook (`src/hooks/useCrypto.js`): the fetch state update, the
  sort toggle and the sort with nulls last (`MarketSort`), the top-five gainers
  and losers (`DerivedViews`), and the hooks' state as classes (`MarketHook`);
- the search box (`src/components/CryptoSearch.jsx`): the input sanitiser
  (`SearchInput`) and the rate limiter with its single pending timer
  (`SearchBoxes`);
- the widgets' own gainers and losers (`src/components/MarketWidgets.jsx`,
  module `MarketWidgets`), and how the home page wires them;
- the display classifiers of `src/utils/formatters.js` (`Formatters`).

Supporting modules: `Wrappers` (Option, Result), `Assets` (the records),
`JsStrings` (JavaScript's `trim`, `toUpperCase` and decimal number text).

The network is abstracted: a request is given the sequence of outcomes its
successive attempts produce (`Resolved(status)` or `Rejected(error)`, a
time-out being a rejection named `AbortError`) and the decoded JSON body.
Clocks are parameters: `new Date()` and `Date.now()` become a `now` argument
in milliseconds. The rate limiter's environment is a sequence of events,
`Input(now, value)` for a call of `debouncedSearch` and `Fire(now)` for the
pending timer's callback.

Sorting uses the hook's comparator as written: it answers only 1 or -1 and
replaces a null key by +Infinity (ascending) or -Infinity (descending). A list
is "sorted" when the comparator puts no entry after a later one; this order is
proved total and transitive, so the sort is specified as a permutation, in
comparator order, with null keys last. Keys are a number or a text (texts in
lexicographic order of characters).

`<script>'; DROP` sanitises to `script; DROP`: only `< > " ' &` are removed, so
the semicolon and the inner space stay (`SearchInput.ScriptTagExample`).

## Model

| member | source | states |
|---|---|---|
| JsStrings.TrimStart | src/components/CryptoSearch.jsx:60 | the result is a suffix of the input, what was cut is all white space, and it does not start with white space |
| JsStrings.TrimEnd | src/components/CryptoSearch.jsx:60 | the result is a prefix of the input, what was cut is all white space, and it does not end with white space |
| JsStrings.Trim | src/hooks/useCrypto.js:94 | `trim()` neither starts nor ends with white space, and is empty exactly when the input is all white space |
| JsStrings.TrimIsSlice | src/components/CryptoSearch.jsx:60 | the trimmed text is one contiguous slice of the input |
| JsStrings.TrimOfTrimmed | src/components/CryptoSearch.jsx:60 | a text with no white space at either end is its own trim |
| JsStrings.TrimIdempotent | src/components/CryptoSearch.jsx:60 | trimming twice is trimming once |
| JsStrings.ToUpperCase | src/utils/api.js:52 | `toUpperCase()` keeps the length, maps each character on its own, and leaves no lower-case ASCII letter |
| JsStrings.ToUpperCaseIdempotent | src/utils/api.js:52 | upper-casing an upper-cased symbol changes nothing |
| JsStrings.DecimalString | src/utils/api.js:45 | the status in the error message is one or more digits with no leading zero |
| JsStrings.ParseDecimalString | src/utils/api.js:45 | the status text reads back as the status |
| Api.FetchWithRetry | src/utils/api.js:25-35 | between 1 and retries+1 attempts, a 1000 ms wait before each retry, the result is the last attempt's response or error, every earlier attempt was an `AbortError`/`TypeError` rejection, and the last one is not retryable or used up the budget |
| Api.StopIndexExists | src/utils/api.js:25-35 | every outcome sequence has an attempt where the retry loop stops |
| Api.FetchWithRetryStopsAt | src/utils/api.js:25-35 | non-recursive characterisation: stopping at attempt k gives k+1 attempts, 1000·k ms of waiting and attempt k's response or error |
| Api.AtMostFourAttempts | src/utils/api.js:4 | with `MAX_RETRIES = 3`, at most four attempts and three seconds of waiting |
| Api.HttpError | src/utils/api.js:45 | the thrown error is an `Error` whose message starts `HTTP error! status: ` |
| Api.HttpErrorNamesStatus | src/utils/api.js:45 | the rest of the message is the status's canonical decimal text, with no leading zero, and parses back to the status |
| Api.CheckedFetch | src/utils/api.js:44-46 | a fetcher's request succeeds exactly when the retried request resolved with a 2xx status |
| Api.CheckedFetchStopsAt | src/utils/api.js:40-46 | at the stopping attempt: a 2xx response succeeds, a non-2xx status s fails with `HTTP error! status: s`, a rejection is rethrown |
| Api.NonOkStatusIsNotRetried | src/utils/api.js:26-27 | a first response with a non-2xx status ends the loop after one attempt and becomes an HTTP error |
| Api.SevenDayChange | src/utils/api.js:59 | the seven-day change is the `_in_currency` value when present (0 stays 0) and 0 when null |
| Api.NormalizeAll | src/utils/api.js:50-67 | one asset per record in the same order, the symbol upper-cased, the seven-day change defaulted, every other field copied |
| Api.FetchCryptoMarketData | src/utils/api.js:38-72 | succeeds exactly when the checked request does, with the normalised body; otherwise fails with the request's error |
| Api.SearchCryptocurrencies | src/utils/api.js:75-89 | on success the first ten coins of the `coins` envelope, in order (all of them when there are at most ten); otherwise the request's error |
| Api.FetchCryptoDetails | src/utils/api.js:92-107 | on success the body itself; otherwise the request's error |
| Api.FetchGlobalMarketData | src/utils/api.js:110-124 | on success the `data` field of the body; otherwise the request's error |
| Api.FetchTrendingCryptos | src/utils/api.js:127-141 | on success the `coins` field of the body; otherwise the request's error |
| Api.BitcoinIsNormalised | src/utils/api.js:50-67 | a `btc` record with a null seven-day change comes back as `BTC` with change 0 and its 24-hour change kept |
| MarketSort.NextSortSpec | src/hooks/useCrypto.js:36 | the new sort is on the clicked field, and descending exactly when that field was sorted ascending |
| MarketSort.FirstRankClickDescends | src/hooks/useCrypto.js:9 | from the initial `{market_cap_rank, asc}` the first rank click sorts descending |
| MarketSort.RepeatedClickAlternates | src/hooks/useCrypto.js:36 | two clicks on the same column give opposite directions |
| MarketSort.TextLtTotal | src/hooks/useCrypto.js:47-51 | two different names are ordered one way or the other |
| MarketSort.TextLtTransitive | src/hooks/useCrypto.js:47-51 | the order on names is transitive |
| MarketSort.Compare | src/hooks/useCrypto.js:39-52 | the comparator answers 1 or -1, never 0 |
| MarketSort.NotAfterTotal | src/hooks/useCrypto.js:39-52 | of any two entries at least one may stand before the other |
| MarketSort.NotAfterTransitive | src/hooks/useCrypto.js:39-52 | "may stand before" is transitive, so comparator order is a total preorder |
| MarketSort.Insert | src/hooks/useCrypto.js:39-52 | inserting into a sorted list gives a sorted list with one more occurrence of the entry |
| MarketSort.SortAssets | src/hooks/useCrypto.js:39-52 | the sorted list is a permutation of the list, in comparator order |
| MarketSort.SortedNullsLast | src/hooks/useCrypto.js:44-51 | in a sorted list entries with a null key come after every entry with a key, in both directions |
| MarketSort.SortedKeysMonotone | src/hooks/useCrypto.js:47-51 | present keys never decrease when ascending and never increase when descending |
| DerivedViews.Filter | src/hooks/useCrypto.js:59 | `filter` keeps exactly the passing entries, each as often as in the list |
| DerivedViews.FilterCons | src/hooks/useCrypto.js:59 | the first entry is kept exactly when it passes, ahead of the filtered rest |
| DerivedViews.FilterSingleton | src/hooks/useCrypto.js:59 | a one-entry list keeps its entry exactly when it passes |
| DerivedViews.FilterAppend | src/hooks/useCrypto.js:59 | filtering a concatenation is the concatenation of the filtered parts, so the kept entries stay in list order |
| DerivedViews.TopFive | src/hooks/useCrypto.js:57-62 | copy, filter, sort, keep five: a sub-multiset of passing entries in order, all of them when fewer than five pass, and any left out may stand after the last one kept |
| DerivedViews.GainersOrderMeans | src/hooks/useCrypto.js:60 | in the gainers' order an entry may stand first exactly when its change is at least as large |
| DerivedViews.LosersOrderMeans | src/hooks/useCrypto.js:67 | in the losers' order an entry may stand first exactly when its change is at most as large |
| DerivedViews.TopGainers | src/hooks/useCrypto.js:57-62 | at most five entries of the list, all with change > 0, non-increasing; all gainers when fewer than five; no gainer left out is larger than the smallest kept |
| DerivedViews.TopLosers | src/hooks/useCrypto.js:64-69 | at most five entries of the list, all with change < 0, non-decreasing; all losers when fewer than five; no loser left out is smaller than the largest kept |
| DerivedViews.GainersAndLosersDisjoint | src/hooks/useCrypto.js:57-69 | no entry is both a top gainer and a top loser; a null or zero change is in neither |
| MarketHook.MarketState.constructor | src/hooks/useCrypto.js:5-9 | the initial state: empty list, loading, no error, no update time, sort `{market_cap_rank, asc}` |
| MarketHook.MarketState.FetchData | src/hooks/useCrypto.js:11-24 | on success the list is replaced by the fetched one, the error cleared and the update time set; on failure the list is kept and the message recorded; loading is off either way |
| MarketHook.MarketState.SortCryptos | src/hooks/useCrypto.js:35-55 | the sort state moves by `NextSortSpec`, and the list becomes a permutation of itself in that order |
| MarketHook.SearchState.constructor | src/hooks/useCrypto.js:89-91 | no results, not loading, no error |
| MarketHook.SearchState.Search | src/hooks/useCrypto.js:93-110 | a request is made exactly when the query is not blank; a blank query empties the results; otherwise results or error as the fetcher returns them, and loading is off |
| MarketHook.SearchState.ClearSearch | src/hooks/useCrypto.js:112-115 | results and error cleared |
| SearchInput.StripUnsafe | src/components/CryptoSearch.jsx:60 | none of `< > " ' &` remains |
| SearchInput.StripUnsafeKeepsOthers | src/components/CryptoSearch.jsx:60 | every other character keeps its number of occurrences |
| SearchInput.StripUnsafeOfSafe | src/components/CryptoSearch.jsx:60 | a text without those characters passes through unchanged |
| SearchInput.StripUnsafeAppend | src/components/CryptoSearch.jsx:60 | stripping works character by character: it distributes over concatenation |
| SearchInput.Sanitize | src/components/CryptoSearch.jsx:60-62 | at most 50 characters, none stripped: the stripped-and-trimmed value when that fits, and its first 50 characters when it is longer; no leading white space; trailing white space only after truncation |
| SearchInput.SendableQueryIsNotBlank | src/components/CryptoSearch.jsx:65 | a value long enough to be sent is never blank, so it passes the search hook's guard |
| SearchInput.SanitizeOfClean | src/components/CryptoSearch.jsx:60-62 | a clean, short, already trimmed value is its own sanitised form |
| SearchInput.SanitizeStable | src/components/CryptoSearch.jsx:60-62 | sanitising again changes nothing unless truncation left trailing white space |
| SearchInput.ScriptTagExample | src/components/CryptoSearch.jsx:60-62 | `<script>'; DROP` becomes `script; DROP` |
| SearchInput.OpeningTagStripped | src/components/CryptoSearch.jsx:60 | `<script>'` is stripped to `script` |
| SearchInput.TruncationCanLeaveTrailingSpace | src/components/CryptoSearch.jsx:60-62 | 49 letters, a space and a letter sanitise to the letters and the space, and a second pass drops the space |
| SearchBoxes.AfterInput | src/components/CryptoSearch.jsx:37-56 | within 500 ms of the last send the single pending timer is replaced by one for the new value due exactly 500 ms after that send and nothing is sent; otherwise the value is sent at once and `now` recorded |
| SearchBoxes.AfterInputCancelling | src/components/CryptoSearch.jsx:37-56 | the corrected limiter: no timer is left pending exactly when the value was sent at once |
| SearchBoxes.AfterFire | src/components/CryptoSearch.jsx:48-50 | the timer's callback records its time as the last send, sends its query and leaves no timer |
| SearchBoxes.SendKeepsSpacing | src/components/CryptoSearch.jsx:41-54 | a send 500 ms or more after the last one keeps the sends spaced |
| SearchBoxes.InputKeepsSpacing | src/components/CryptoSearch.jsx:37-56 | as written, an input keeps consecutive sends at least 500 ms apart provided no timer is overdue |
| SearchBoxes.FireKeepsSpacing | src/components/CryptoSearch.jsx:48-50 | a timer running when due keeps the sends spaced |
| SearchBoxes.CancellingInputKeepsSpacing | src/components/CryptoSearch.jsx:37-56 | with the corrected limiter every input keeps the sends spaced |
| SearchBoxes.SpacedApart | src/components/CryptoSearch.jsx:23 | in a spaced log, sends k places apart are at least k·500 ms apart |
| SearchBoxes.AfterSearchInput | src/components/CryptoSearch.jsx:65-76 | a sanitised value of two or more characters goes to the limiter; a shorter one clears the pending timer and sends nothing |
| SearchBoxes.SearchInputKeepsSpacing | src/components/CryptoSearch.jsx:58-77 | a search input keeps the sends spaced when no timer is overdue |
| SearchBoxes.Step | src/components/CryptoSearch.jsx:37-56 | one event only appends to the log of sends |
| SearchBoxes.StepCancelling | src/components/CryptoSearch.jsx:37-56 | one event of the corrected limiter only appends to the log of sends |
| SearchBoxes.TimelyRunSpaced | src/components/CryptoSearch.jsx:37-56 | as written, any run in which no timer is overdue at an input keeps the sends spaced |
| SearchBoxes.CancellingRunSpaced | src/components/CryptoSearch.jsx:37-56 | with the corrected limiter, every run keeps the sends spaced |
| SearchBoxes.StaleQueryAfterOverdueTimer | src/components/CryptoSearch.jsx:52-54 | inputs at 1000, 1100 and 1500 with the timer running at 1500 send `ab`, `abcd`, then the stale `abc`, and the log is not spaced |
| SearchBoxes.CancellingSendsNewestLast | src/components/CryptoSearch.jsx:37-56 | with the corrected limiter the same inputs send `ab` then `abcd` and leave no timer |
| SearchBoxes.SearchBox.constructor | src/components/CryptoSearch.jsx:16-22 | an empty, closed box; last send at 0 and no timer |
| SearchBoxes.SearchBox.DebouncedSearch | src/components/CryptoSearch.jsx:37-56 | the refs move as `AfterInput` says, and spacing is kept when no timer is overdue |
| SearchBoxes.SearchBox.DebouncedSearchCancelling | src/components/CryptoSearch.jsx:37-56 | the refs move as `AfterInputCancelling` says, and spacing is always kept |
| SearchBoxes.SearchBox.FireTimer | src/components/CryptoSearch.jsx:48-50 | the refs move as `AfterFire` says, and spacing is kept |
| SearchBoxes.SearchBox.HandleSearch | src/components/CryptoSearch.jsx:58-77 | the box shows the sanitised value, the results open exactly when it has two or more characters, and the limiter moves as `AfterSearchInput` says |
| SearchBoxes.SearchBox.ShowQuery | src/components/CryptoSearch.jsx:64-76 | the length gate after sanitising: open and send through the limiter, or close and clear the timer |
| SearchBoxes.SearchBox.HandleFocus | src/components/CryptoSearch.jsx:79-84 | an empty box opens the popular list; otherwise nothing changes |
| SearchBoxes.SearchBox.ClearSearch | src/components/CryptoSearch.jsx:95-99 | the box is emptied and closed; a pending timer is not cleared |
| MarketWidgets.WidgetTopGainers | src/components/MarketWidgets.jsx:6-12 | none for a non-array or empty prop; otherwise at most five entries, all with change > 0, non-increasing, all gainers when fewer than five |
| MarketWidgets.WidgetTopLosers | src/components/MarketWidgets.jsx:14-20 | none for a non-array or empty prop; otherwise at most five entries, all with change < 0, non-decreasing, all losers when fewer than five |
| MarketWidgets.ShortSelectionIsComplete | src/components/MarketWidgets.jsx:8-11 | a selection of fewer than five is empty only when nothing passes the filter |
| MarketWidgets.WidgetAgreesWithHook | src/components/MarketWidgets.jsx:6-20 | on an array the widget selects exactly what the hook selects: the guard changes nothing |
| MarketWidgets.WidgetListsDisjoint | src/components/MarketWidgets.jsx:9-17 | gainers and losers are disjoint, and a null or zero change is in neither |
| MarketWidgets.HomeWidgetsHideGainers | src/pages/Home.jsx:133-136 | as wired, the widget shows no gainers although the hook's view of the same list has one |
| MarketWidgets.HomeWidgetsHideLosers | src/pages/Home.jsx:133-136 | as wired, the widget shows no losers although the hook's view of the same list has one |
| MarketWidgets.HomeWidgetsIntendedShowViews | src/components/MarketWidgets.jsx:5 | given the list as `cryptos`, the widget shows the hook's views, non-empty whenever the list has a gainer or a loser |
| Formatters.PriceChangeColor | src/utils/formatters.js:62-65 | grey exactly for a falsy change, `price-up` exactly for a positive one, `price-down` exactly for a negative one |
| Formatters.PriceChangeIcon | src/utils/formatters.js:68-71 | no icon exactly for a falsy change, ↗ exactly for a positive one, ↘ exactly for a negative one |
| Formatters.AssetChangeColor | src/components/MarketWidgets.jsx:24 | an asset's 24-hour change is grey exactly when it is null or zero, `price-up` exactly when positive, `price-down` exactly when negative |
| Formatters.ColorIconAgree | src/utils/formatters.js:62-71 | colour and arrow always agree |
| Formatters.FormatVolume | src/utils/formatters.js:33-44 | `'0'` when falsy; otherwise exactly one of B (≥1e9), M, K, none applies, and the amount shown times the unit is the volume, in [1, 1000) for M and K |
| Formatters.FormatMarketCap | src/utils/formatters.js:19-30 | `'0'` when falsy; otherwise exactly one of the trillion (≥1e12), billion, million or no suffix applies, the amount times the unit is the value, and only the scaled tiers round to two decimals |
| Formatters.FormatPrice | src/utils/formatters.js:2-9 | `'0.00'` when falsy; otherwise the price with two to eight decimals below 1 and exactly two from 1 on |
| Formatters.FormatPercentage | src/utils/formatters.js:12-16 | `'0.00%'` when falsy; otherwise the absolute value, positive, followed by `%` |
| Formatters.VolumeTierMonotone | src/utils/formatters.js:36-42 | for any two volumes, the larger is never shown in a smaller unit |
| Formatters.MarketCapTierMonotone | src/utils/formatters.js:22-27 | for any two market caps, the larger is never shown in a smaller unit |

## Left out

- Network I/O: `fetch`, the `AbortController` and the 10-second timer of
  `fetchWithTimeout` (src/utils/api.js:7-22) are replaced by a given outcome per
  attempt; a time-out is an outcome named `AbortError`. The URLs, query strings,
  `encodeURIComponent` and `JSON.parse` are not modelled; the decoded body is given.
- Api.FetchWithRetry: requires one outcome for every attempt the budget
  allows (`retries < |outcomes|`), since the environment answers every attempt;
  the wait is counted in milliseconds, not spent.
- `console.error` logging in every fetcher and hook is left out: it changes no state.
- The 60-second auto-refresh interval and overlapping refreshes
  (src/hooks/useCrypto.js:26-33): timer and concurrency behaviour with no
  promise to state; `refreshData` is a plain call of `fetchData`.
- MarketHook.MarketState.FetchData: the intermediate `loading = true` and
  `error = null` render between the request and its answer are not visible in
  the contract, which gives only the state after the awaited request.
- MarketSort.SortAssets: the order among entries with equal keys is left
  unspecified; the comparator never answers 0, so JavaScript's sort gives no
  guarantee there either. JavaScript's comparison of a text key with an
  Infinity placeholder, and UTF-16 code-unit order of texts, are replaced by
  an abstract key order with null placeholders before or after every key.
- DerivedViews.TopGainers, DerivedViews.TopLosers: sorted with the
  ±1 comparator on the 24-hour change rather than by subtraction; the order
  among equal changes, which a stable sort by `b - a` keeps as in the list, is
  not stated, and neither is which of several equal changes at the cut-off is kept.
- NaN, Infinity and floating-point rounding in asset fields: numbers are
  exact reals, and an absent value is `None`.
- JsStrings.ToUpperCase: maps the ASCII letters only; the other Unicode
  case mappings of `toUpperCase` (including ones that change length) are not
  modelled.
- Digit rendering by `toFixed` and `Intl.NumberFormat` in `formatters.js` is
  not modelled: a formatted value is kept as its amount, its rendering style
  and its suffix. `convertToSAR` and `formatSAR` (src/utils/formatters.js:46-59)
  are left out with it.
- Formatters.FormatPercentage: for a value whose magnitude rounds to 0.00
  the rendered text is `0%`; the contract speaks of the amount, not the text.
- SearchInput.Sanitize, SearchInput.SanitizeOfClean, SearchBoxes.AfterSearchInput, SearchBoxes.SearchBox.HandleSearch, SearchBoxes.SearchBox.ShowQuery:
  lengths count characters, not the UTF-16 code units of JavaScript's
  `.length` and `substring`; for characters outside the Basic Multilingual
  Plane the 50-unit cut and the 2-unit gate therefore differ (one emoji is
  sent by the component but not by the model, 26 emoji are cut to 25 by the
  component but kept by the model), and a cut that splits a surrogate pair
  cannot be expressed.
- MarketHook.SearchState.Search: each search is modelled as finishing
  before the next one starts. The rate limiter passes on a query every 500 ms
  while one request may take tens of seconds with its retries, so searches
  overlap: the last response to arrive replaces the results even when it
  answers an older query, and the first search to finish turns
  `searchLoading` off while another is still in flight. The intermediate
  `searchLoading = true` state is not visible in the contract either.
- The popular-coins list, `handleSelect`'s `onSelectCrypto` callback, the
  result rendering and the click-outside listener of `CryptoSearch`
  (src/components/CryptoSearch.jsx:4-13, 25-35, 86-93, 101-132) are left out:
  presentation and DOM events. `handleSelect` changes the box as `clearSearch` does.
- `useTheme.js`, routing, layout and SEO components, and the duplicated
  gainers/losers pipelines in `src/pages/Market.jsx` are not part of this model.

## Findings

| source | as written | input that shows it | evidently intended | confidence | as-written member | corrected member |
|---|---|---|---|---|---|---|
| src/components/CryptoSearch.jsx:52-54 | the immediate-send branch leaves a pending timer in place | "ab" at 1000, "abc" at 1100 (timer due 1500), "abcd" at 1500 before the timer runs: "abcd" is sent, then the timer sends the older "abc" in the same millisecond | a send clears any pending timer, so only the newest query is sent and sends stay 500 ms apart | medium; not executed | SearchBoxes.StaleQueryAfterOverdueTimer | SearchBoxes.CancellingRunSpaced |
| src/pages/Home.jsx:133-136 | the home page passes `topGainers` and `topLosers`, but the widget reads only `cryptos`, which defaults to `[]` | any market list with an entry whose 24-hour change is positive: the hook lists it, the widget shows nothing | the widget receives the market list as `cryptos` and shows the hook's gainers and losers | high; not executed | MarketWidgets.HomeWidgetsHideGainers | MarketWidgets.HomeWidgetsIntendedShowViews |
