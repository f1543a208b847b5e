/** The display helpers of `formatters.js`: which colour class and arrow a
    24-hour change gets, and which unit tier a volume, market cap, price or
    percentage is shown in. The digits themselves are produced by
    `toFixed` and `Intl.NumberFormat`; a formatted number is therefore kept
    as the amount to render, the rendering style and the suffix after it. */
module Formatters {
  import opened Wrappers

  /** A JavaScript number argument as far as these helpers see it: absent
      (`null` or `undefined`), `NaN`, or a finite value. */
  datatype JsNumber = Missing | NaN | Num(x: real)

  /** An API field as passed in: null becomes `Missing`. */
  function FromField(o: Option<real>): JsNumber {
    match o
    case None => Missing
    case Some(v) => Num(v)
  }

  /** `!value`: null, undefined, `NaN` and zero are falsy. */
  predicate Falsy(n: JsNumber) {
    n.Missing? || n.NaN? || n == Num(0.0)
  }

  const Thousand: real := 1000.0
  const Million: real := 1000000.0
  const Billion: real := 1000000000.0
  const Trillion: real := 1000000000000.0

  /** How the digits of an amount are produced. */
  datatype NumberStyle =
    | FixedTwo                                          // `amount.toFixed(2)`
    | Grouped(minFraction: nat, maxFraction: nat)       // `Intl.NumberFormat('en-US', …)`
    | GroupedOfFixedTwo                                 // `Intl.NumberFormat('en-US').format(amount.toFixed(2))`

  /** A formatted value: a fixed text, or an amount rendered in a style and
      followed by a suffix. */
  datatype Display = Literal(text: string) | Formatted(amount: real, style: NumberStyle, suffix: string)

  /** `getPriceChangeColor(change)`: grey for a falsy change, `price-up` for
      a positive one and `price-down` for every other, that is negative, one. */
  function PriceChangeColor(change: JsNumber): (r: string)
    ensures r == "text-gray-500" <==> Falsy(change)
    ensures r == "price-up" <==> change.Num? && change.x > 0.0
    ensures r == "price-down" <==> change.Num? && change.x < 0.0
  {
    if Falsy(change) then "text-gray-500"
    else if change.x > 0.0 then "price-up"
    else "price-down"
  }

  const UpArrow: string := "\U{2197}"
  const DownArrow: string := "\U{2198}"

  /** `getPriceChangeIcon(change)`: no icon for a falsy change, a rising
      arrow for a positive one and a falling arrow for a negative one. */
  function PriceChangeIcon(change: JsNumber): (r: Option<string>)
    ensures r.None? <==> Falsy(change)
    ensures r == Some(UpArrow) <==> change.Num? && change.x > 0.0
    ensures r == Some(DownArrow) <==> change.Num? && change.x < 0.0
  {
    if Falsy(change) then None
    else if change.x > 0.0 then Some(UpArrow)
    else Some(DownArrow)
  }

  /** The colour and the arrow always tell the same story. */
  lemma ColorIconAgree(change: JsNumber)
    ensures PriceChangeIcon(change).None? <==> PriceChangeColor(change) == "text-gray-500"
    ensures PriceChangeIcon(change) == Some(UpArrow) <==> PriceChangeColor(change) == "price-up"
    ensures PriceChangeIcon(change) == Some(DownArrow) <==> PriceChangeColor(change) == "price-down"
  {
  }

  /** The colour an asset's 24-hour change gets, as the widgets pass the
      field in: grey exactly for a null or zero change. */
  lemma AssetChangeColor(change: Option<real>)
    ensures PriceChangeColor(FromField(change)) == "text-gray-500" <==> change.None? || change == Some(0.0)
    ensures PriceChangeColor(FromField(change)) == "price-up" <==> change.Some? && change.value > 0.0
    ensures PriceChangeColor(FromField(change)) == "price-down" <==> change.Some? && change.value < 0.0
  {
  }

  /** The multiplier a volume suffix stands for. */
  function VolumeUnit(suffix: string): real {
    if suffix == "B" then Billion
    else if suffix == "M" then Million
    else if suffix == "K" then Thousand
    else 1.0
  }

  /** `formatVolume(volume)`: `'0'` for a falsy volume; otherwise the volume
      in the largest unit it reaches (billions, millions, thousands, or none),
      with two decimals. The amount shown times the unit is the volume, and
      in the M and K tiers the amount lies in [1, 1000). */
  function FormatVolume(volume: JsNumber): (r: Display)
    ensures Falsy(volume) ==> r == Literal("0")
    ensures !Falsy(volume) ==> r.Formatted? && r.style == FixedTwo
                               && r.amount * VolumeUnit(r.suffix) == volume.x
    ensures !Falsy(volume) ==>
              (r.suffix == "B" <==> volume.x >= Billion)
              && (r.suffix == "M" <==> Million <= volume.x < Billion)
              && (r.suffix == "K" <==> Thousand <= volume.x < Million)
              && (r.suffix == "" <==> volume.x < Thousand)
    ensures r.Formatted? && (r.suffix == "M" || r.suffix == "K") ==> 1.0 <= r.amount < 1000.0
    ensures r.Formatted? && r.suffix == "B" ==> 1.0 <= r.amount
  {
    if Falsy(volume) then Literal("0")
    else if volume.x >= Billion then Formatted(volume.x / Billion, FixedTwo, "B")
    else if volume.x >= Million then Formatted(volume.x / Million, FixedTwo, "M")
    else if volume.x >= Thousand then Formatted(volume.x / Thousand, FixedTwo, "K")
    else Formatted(volume.x, FixedTwo, "")
  }

  /** The Arabic unit suffixes of `formatMarketCap`: trillion, billion, million. */
  const TrillionSuffix: string := " \U{062A}$"
  const BillionSuffix: string := " \U{0645}$"
  const MillionSuffix: string := " \U{0645}\U{0644}\U{064A}\U{0648}\U{0646}$"

  /** The multiplier a market-cap suffix stands for. */
  function MarketCapUnit(suffix: string): real {
    if suffix == TrillionSuffix then Trillion
    else if suffix == BillionSuffix then Billion
    else if suffix == MillionSuffix then Million
    else 1.0
  }

  /** `formatMarketCap(marketCap)`: `'0'` for a falsy value; otherwise the
      value in trillions, billions or millions rounded to two decimals and
      grouped, with the Arabic unit after it, or below a million the value
      itself, grouped. The amount shown times the unit is the market cap. */
  function FormatMarketCap(marketCap: JsNumber): (r: Display)
    ensures Falsy(marketCap) ==> r == Literal("0")
    ensures !Falsy(marketCap) ==> r.Formatted? && r.amount * MarketCapUnit(r.suffix) == marketCap.x
    ensures !Falsy(marketCap) ==>
              (r.suffix == TrillionSuffix <==> marketCap.x >= Trillion)
              && (r.suffix == BillionSuffix <==> Billion <= marketCap.x < Trillion)
              && (r.suffix == MillionSuffix <==> Million <= marketCap.x < Billion)
              && (r.suffix == "" <==> marketCap.x < Million)
    ensures r.Formatted? ==> (r.style == GroupedOfFixedTwo <==> r.suffix != "")
    ensures r.Formatted? && r.suffix == "" ==> r.style == Grouped(0, 3)
    ensures r.Formatted? && (r.suffix == BillionSuffix || r.suffix == MillionSuffix) ==> 1.0 <= r.amount < 1000.0
  {
    if Falsy(marketCap) then Literal("0")
    else if marketCap.x >= Trillion then Formatted(marketCap.x / Trillion, GroupedOfFixedTwo, TrillionSuffix)
    else if marketCap.x >= Billion then Formatted(marketCap.x / Billion, GroupedOfFixedTwo, BillionSuffix)
    else if marketCap.x >= Million then Formatted(marketCap.x / Million, GroupedOfFixedTwo, MillionSuffix)
    else Formatted(marketCap.x, Grouped(0, 3), "")
  }

  /** `formatPrice(price)`: `'0.00'` for a falsy price; otherwise the price
      itself with at least two decimals, and up to eight below 1, two from 1 on. */
  function FormatPrice(price: JsNumber): (r: Display)
    ensures Falsy(price) ==> r == Literal("0.00")
    ensures !Falsy(price) ==> r.Formatted? && r.amount == price.x && r.suffix == ""
    ensures !Falsy(price) ==> r.style.Grouped? && r.style.minFraction == 2
                              && (r.style.maxFraction == 8 <==> price.x < 1.0)
                              && (r.style.maxFraction == 2 <==> price.x >= 1.0)
  {
    if Falsy(price) then Literal("0.00")
    else Formatted(price.x, Grouped(2, if price.x < 1.0 then 8 else 2), "")
  }

  /** `formatPercentage(percentage)`: `'0.00%'` for a falsy value; otherwise
      the absolute value to two decimals, grouped, followed by `%`: the sign
      is dropped, so the colour and the arrow carry it. */
  function FormatPercentage(percentage: JsNumber): (r: Display)
    ensures Falsy(percentage) ==> r == Literal("0.00%")
    ensures !Falsy(percentage) ==> r.Formatted? && r.style == GroupedOfFixedTwo && r.suffix == "%"
    ensures !Falsy(percentage) ==> r.amount > 0.0
                                   && (r.amount == percentage.x || r.amount == -percentage.x)
  {
    if Falsy(percentage) then Literal("0.00%")
    else Formatted(if percentage.x < 0.0 then -percentage.x else percentage.x, GroupedOfFixedTwo, "%")
  }

  /** The rank of a volume tier, from no unit (0) to billions (3). */
  function VolumeTier(d: Display): nat {
    if d.Literal? then 0
    else if d.suffix == "B" then 3
    else if d.suffix == "M" then 2
    else if d.suffix == "K" then 1
    else 0
  }

  /** A larger volume is never shown in a smaller unit; zero, negative and
      small volumes all sit in the lowest tier. */
  lemma VolumeTierMonotone(a: real, b: real)
    requires a <= b
    ensures VolumeTier(FormatVolume(Num(a))) <= VolumeTier(FormatVolume(Num(b)))
  {
  }

  /** The rank of a market-cap tier, from no unit (0) to trillions (3). */
  function MarketCapTier(d: Display): nat {
    if d.Literal? then 0
    else if d.suffix == TrillionSuffix then 3
    else if d.suffix == BillionSuffix then 2
    else if d.suffix == MillionSuffix then 1
    else 0
  }

  /** A larger market cap is never shown in a smaller unit; zero, negative
      and small values all sit in the lowest tier. */
  lemma MarketCapTierMonotone(a: real, b: real)
    requires a <= b
    ensures MarketCapTier(FormatMarketCap(Num(a))) <= MarketCapTier(FormatMarketCap(Num(b)))
  {
  }
}
