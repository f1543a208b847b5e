/** The records that flow through the core. Field names follow the market-data
    API's snake_case names in camelCase (`price_change_percentage_24h` becomes
    `priceChange24h`). A numeric field the API may send as null is an
    `Option<real>`; `None` stands for both null and undefined. */
module Assets {
  import opened Wrappers

  /** One entry of the `/coins/markets` response body, as decoded from JSON. */
  datatype RawCoin = RawCoin(
    id: string,
    symbol: string,
    name: string,
    image: string,
    currentPrice: Option<real>,
    marketCap: Option<real>,
    totalVolume: Option<real>,
    priceChange24h: Option<real>,
    priceChange7dInCurrency: Option<real>,
    marketCapRank: Option<int>,
    circulatingSupply: Option<real>,
    totalSupply: Option<real>,
    maxSupply: Option<real>,
    ath: Option<real>,
    atl: Option<real>,
    lastUpdated: string)

  /** A normalised asset, as held in the market list. The seven-day change is
      never null once normalised. */
  datatype Asset = Asset(
    id: string,
    symbol: string,
    name: string,
    image: string,
    currentPrice: Option<real>,
    marketCap: Option<real>,
    totalVolume: Option<real>,
    priceChange24h: Option<real>,
    priceChange7d: real,
    marketCapRank: Option<int>,
    circulatingSupply: Option<real>,
    totalSupply: Option<real>,
    maxSupply: Option<real>,
    ath: Option<real>,
    atl: Option<real>,
    lastUpdated: string)

  /** One entry of the `coins` array of a `/search` response. */
  datatype SearchCoin = SearchCoin(id: string, name: string, symbol: string, thumb: string, large: string)
}
