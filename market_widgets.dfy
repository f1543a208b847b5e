/** The market widgets' own gainers and losers (`getTopGainers` and
    `getTopLosers` inside `MarketWidgets`): the hook's pipeline behind a guard
    for a `cryptos` prop that is not an array or is empty. The component reads
    only its `cryptos` prop, which defaults to `[]`; the home page passes it
    `topGainers` and `topLosers` instead, so as wired the widgets always show
    empty lists. */
module MarketWidgets {
  import opened Wrappers
  import opened Assets
  import opened DerivedViews

  /** The value of the `cryptos` prop: an array, or any other value. */
  datatype CryptosProp = ArrayProp(items: seq<Asset>) | NonArrayProp

  /** The widget's gainers: none for a non-array or empty prop; otherwise at
      most five entries of the list, all with a positive change, largest
      first, and all the gainers when there are fewer than five. */
  function WidgetTopGainers(cryptos: CryptosProp): (r: seq<Asset>)
    ensures cryptos.NonArrayProp? || cryptos.items == [] ==> r == []
    ensures |r| <= TopCount
    ensures forall i :: 0 <= i < |r| ==> Gains(r[i])
    ensures forall i, j :: 0 <= i < j < |r| ==> Change(r[j]) <= Change(r[i])
    ensures cryptos.ArrayProp? ==> multiset(r) <= multiset(cryptos.items)
    ensures cryptos.ArrayProp? && |r| < TopCount ==> multiset(r) == multiset(Filter(cryptos.items, Gains))
  {
    if cryptos.NonArrayProp? || |cryptos.items| == 0 then [] else TopGainers(cryptos.items)
  }

  /** The widget's losers: none for a non-array or empty prop; otherwise at
      most five entries, all with a negative change, most negative first,
      and all the losers when there are fewer than five. */
  function WidgetTopLosers(cryptos: CryptosProp): (r: seq<Asset>)
    ensures cryptos.NonArrayProp? || cryptos.items == [] ==> r == []
    ensures |r| <= TopCount
    ensures forall i :: 0 <= i < |r| ==> Loses(r[i])
    ensures forall i, j :: 0 <= i < j < |r| ==> Change(r[i]) <= Change(r[j])
    ensures cryptos.ArrayProp? ==> multiset(r) <= multiset(cryptos.items)
    ensures cryptos.ArrayProp? && |r| < TopCount ==> multiset(r) == multiset(Filter(cryptos.items, Loses))
  {
    if cryptos.NonArrayProp? || |cryptos.items| == 0 then [] else TopLosers(cryptos.items)
  }

  /** A selection with fewer than five entries holds every entry that passes
      the filter, so it is empty only when none passes. */
  lemma ShortSelectionIsComplete(r: seq<Asset>, s: seq<Asset>, keep: Asset -> bool, x: Asset)
    requires |r| < TopCount ==> multiset(r) == multiset(Filter(s, keep))
    requires x in s && keep(x)
    ensures r != []
  {
    assert multiset(Filter(s, keep))[x] == multiset(s)[x];
    assert x in multiset(Filter(s, keep));
  }

  /** The guard changes nothing: on an array the widget selects exactly what
      the hook selects, the empty array included. */
  lemma WidgetAgreesWithHook(items: seq<Asset>)
    ensures WidgetTopGainers(ArrayProp(items)) == TopGainers(items)
    ensures WidgetTopLosers(ArrayProp(items)) == TopLosers(items)
  {
    if items == [] {
      var g, l := TopGainers(items), TopLosers(items);
      assert multiset(g) <= multiset(items) && multiset(l) <= multiset(items);
      assert |multiset(g)| == 0 && |multiset(l)| == 0;
    }
  }

  /** No entry is shown both as a gainer and as a loser, and one whose change
      is null or zero is shown as neither. */
  lemma WidgetListsDisjoint(cryptos: CryptosProp, x: Asset)
    ensures !(x in WidgetTopGainers(cryptos) && x in WidgetTopLosers(cryptos))
    ensures x.priceChange24h.None? || x.priceChange24h == Some(0.0) ==>
              x !in WidgetTopGainers(cryptos) && x !in WidgetTopLosers(cryptos)
  {
    var g, l := WidgetTopGainers(cryptos), WidgetTopLosers(cryptos);
    if x in g {
      var i :| 0 <= i < |g| && g[i] == x;
    }
    if x in l {
      var i :| 0 <= i < |l| && l[i] == x;
    }
  }

  /** The props a parent passes; a missing `cryptos` takes the default `[]`. */
  datatype Props = Props(cryptos: Option<CryptosProp>, topGainers: Option<seq<Asset>>, topLosers: Option<seq<Asset>>)

  function CryptosOf(p: Props): CryptosProp {
    match p.cryptos
    case None => ArrayProp([])
    case Some(c) => c
  }

  /** The props the home page passes, as written: the hook's two views under
      names the widget does not read, and no `cryptos`. */
  function HomeProps(list: seq<Asset>): Props {
    Props(None, Some(TopGainers(list)), Some(TopLosers(list)))
  }

  /** The props the widget reads: the market list itself. */
  function HomePropsIntended(list: seq<Asset>): Props {
    Props(Some(ArrayProp(list)), None, None)
  }

  /** As wired, the widget shows no gainers even when the list has one and
      the hook's own view lists it. */
  lemma HomeWidgetsHideGainers(list: seq<Asset>, x: Asset)
    requires x in list && Gains(x)
    ensures TopGainers(list) != []
    ensures WidgetTopGainers(CryptosOf(HomeProps(list))) == []
  {
    ShortSelectionIsComplete(TopGainers(list), list, Gains, x);
  }

  /** As wired, the widget shows no losers even when the list has one. */
  lemma HomeWidgetsHideLosers(list: seq<Asset>, x: Asset)
    requires x in list && Loses(x)
    ensures TopLosers(list) != []
    ensures WidgetTopLosers(CryptosOf(HomeProps(list))) == []
  {
    ShortSelectionIsComplete(TopLosers(list), list, Loses, x);
  }

  /** Passing the list as `cryptos`, the widget shows the hook's own views,
      so every gainer and loser of the list is represented. */
  lemma HomeWidgetsIntendedShowViews(list: seq<Asset>)
    ensures WidgetTopGainers(CryptosOf(HomePropsIntended(list))) == TopGainers(list)
    ensures WidgetTopLosers(CryptosOf(HomePropsIntended(list))) == TopLosers(list)
    ensures forall x :: x in list && Gains(x) ==> WidgetTopGainers(CryptosOf(HomePropsIntended(list))) != []
    ensures forall x :: x in list && Loses(x) ==> WidgetTopLosers(CryptosOf(HomePropsIntended(list))) != []
  {
    WidgetAgreesWithHook(list);
    forall x | x in list && Gains(x) ensures TopGainers(list) != [] {
      ShortSelectionIsComplete(TopGainers(list), list, Gains, x);
    }
    forall x | x in list && Loses(x) ensures TopLosers(list) != [] {
      ShortSelectionIsComplete(TopLosers(list), list, Loses, x);
    }
  }
}
