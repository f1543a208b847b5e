/** The derived views over the market list: the five best and five worst
    performers of the last 24 hours (`getTopGainers` and `getTopLosers`).
    Each copies the list, filters it by the sign of the 24-hour change,
    sorts it by that change and keeps the first five; the list itself is a
    value and is left as it was. A null change is neither positive nor
    negative, as in JavaScript, where `null > 0` and `null < 0` are both false. */
module DerivedViews {
  import opened Wrappers
  import opened Assets
  import opened MarketSort

  /** The 24-hour change of an entry that has one (every entry a view keeps does). */
  function Change(a: Asset): real {
    match a.priceChange24h
    case Some(v) => v
    case None => 0.0
  }

  /** `.slice(0, 5)`. */
  const TopCount: nat := 5

  predicate Gains(a: Asset) {
    a.priceChange24h.Some? && a.priceChange24h.value > 0.0
  }

  predicate Loses(a: Asset) {
    a.priceChange24h.Some? && a.priceChange24h.value < 0.0
  }

  /** `.filter(keep)`: the entries that pass, each as often as in `s`; that
      they keep their order is `FilterCons` and `FilterAppend`. */
  function Filter(s: seq<Asset>, keep: Asset -> bool): (r: seq<Asset>)
    ensures |r| <= |s|
    ensures forall i :: 0 <= i < |r| ==> keep(r[i])
    ensures forall x :: multiset(r)[x] == if keep(x) then multiset(s)[x] else 0
  {
    if s == [] then []
    else
      assert s == [s[0]] + s[1..];
      if keep(s[0]) then [s[0]] + Filter(s[1..], keep) else Filter(s[1..], keep)
  }

  /** A list is filtered from its first entry on. */
  lemma FilterCons(x: Asset, rest: seq<Asset>, keep: Asset -> bool)
    ensures Filter([x] + rest, keep) == (if keep(x) then [x] else []) + Filter(rest, keep)
  {
    var s := [x] + rest;
    assert s[0] == x && s[1..] == rest;
  }

  /** A single entry is kept exactly when it passes. */
  lemma FilterSingleton(x: Asset, keep: Asset -> bool)
    ensures Filter([x], keep) == if keep(x) then [x] else []
  {
    FilterCons(x, [], keep);
    assert [x] + [] == [x];
  }

  /** Filtering distributes over concatenation, so with `FilterSingleton` the
      passing entries keep the order they have in the list. */
  lemma {:induction false} FilterAppend(a: seq<Asset>, b: seq<Asset>, keep: Asset -> bool)
    ensures Filter(a + b, keep) == Filter(a, keep) + Filter(b, keep)
  {
    if a == [] {
      assert a + b == b;
    } else {
      var x, rest := a[0], a[1..];
      assert a == [x] + rest;
      assert a + b == [x] + (rest + b);
      var head := if keep(x) then [x] else [];
      calc {
        Filter(a + b, keep);
        { FilterCons(x, rest + b, keep); }
        head + Filter(rest + b, keep);
        { FilterAppend(rest, b, keep); }
        head + (Filter(rest, keep) + Filter(b, keep));
        (head + Filter(rest, keep)) + Filter(b, keep);
        { FilterCons(x, rest, keep); }
        Filter(a, keep) + Filter(b, keep);
      }
    }
  }

  /** Gainers: largest change first (`b - a`). */
  const GainersOrder := SortSpec(PriceChange24h, Desc)
  /** Losers: most negative change first (`a - b`). */
  const LosersOrder := SortSpec(PriceChange24h, Asc)

  lemma InFilter(s: seq<Asset>, keep: Asset -> bool, x: Asset)
    requires x in multiset(Filter(s, keep))
    ensures keep(x)
  {
    var f := Filter(s, keep);
    var i :| 0 <= i < |f| && f[i] == x;
  }

  /** Filter, sort, keep the first five: the selection is a sub-multiset of
      the list, every entry passes the filter, it is in order, it holds
      every passing entry when fewer than five pass, and any passing entry
      left out may stand after the last one kept. */
  function TopFive(spec: SortSpec, keep: Asset -> bool, s: seq<Asset>): (r: seq<Asset>)
    ensures |r| <= TopCount
    ensures forall i :: 0 <= i < |r| ==> keep(r[i])
    ensures Sorted(spec, r)
    ensures multiset(r) <= multiset(s)
    ensures |r| < TopCount ==> multiset(r) == multiset(Filter(s, keep))
    ensures forall x :: x in multiset(Filter(s, keep)) - multiset(r) ==>
              |r| == TopCount && NotAfter(spec, r[TopCount - 1], x)
  {
    var passing := Filter(s, keep);
    var sorted := SortAssets(spec, passing);
    var r := if |sorted| <= TopCount then sorted else sorted[..TopCount];
    TopFiveFacts(spec, keep, s, passing, sorted, r);
    r
  }

  lemma TopFiveFacts(spec: SortSpec, keep: Asset -> bool, s: seq<Asset>, passing: seq<Asset>, sorted: seq<Asset>, r: seq<Asset>)
    requires passing == Filter(s, keep) && sorted == SortAssets(spec, passing)
    requires r == if |sorted| <= TopCount then sorted else sorted[..TopCount]
    ensures forall i :: 0 <= i < |r| ==> keep(r[i])
    ensures Sorted(spec, r)
    ensures multiset(r) <= multiset(s)
    ensures |r| < TopCount ==> multiset(r) == multiset(passing)
    ensures forall x :: x in multiset(passing) - multiset(r) ==>
              |r| == TopCount && NotAfter(spec, r[TopCount - 1], x)
  {
    PrefixOfSorted(spec, sorted, r);
    forall i | 0 <= i < |r| ensures keep(r[i]) {
      assert r[i] in multiset(passing);
      InFilter(s, keep, r[i]);
    }
    if |sorted| > TopCount {
      TopFiveOmitted(spec, passing, sorted, r);
    }
    assert multiset(passing) <= multiset(s);
  }

  /** A prefix of a sorted list is sorted and holds no more than the list. */
  lemma PrefixOfSorted(spec: SortSpec, sorted: seq<Asset>, r: seq<Asset>)
    requires Sorted(spec, sorted)
    requires r == if |sorted| <= TopCount then sorted else sorted[..TopCount]
    ensures Sorted(spec, r)
    ensures multiset(r) <= multiset(sorted)
  {
    if |sorted| > TopCount {
      assert sorted == r + sorted[TopCount..];
    }
  }

  lemma TopFiveOmitted(spec: SortSpec, passing: seq<Asset>, sorted: seq<Asset>, r: seq<Asset>)
    requires Sorted(spec, sorted) && multiset(sorted) == multiset(passing)
    requires |sorted| > TopCount && r == sorted[..TopCount]
    ensures multiset(r) <= multiset(passing)
    ensures forall x :: x in multiset(passing) - multiset(r) ==> NotAfter(spec, r[TopCount - 1], x)
  {
    var tail := sorted[TopCount..];
    assert sorted == r + tail;
    assert multiset(passing) == multiset(r) + multiset(tail);
    forall x | x in multiset(passing) - multiset(r)
      ensures NotAfter(spec, r[TopCount - 1], x)
    {
      assert x in multiset(tail);
      TailAfterPrefix(spec, sorted, x);
    }
  }

  /** Every entry past the first five of a sorted list may stand after the fifth. */
  lemma TailAfterPrefix(spec: SortSpec, sorted: seq<Asset>, x: Asset)
    requires Sorted(spec, sorted) && |sorted| > TopCount
    requires x in multiset(sorted[TopCount..])
    ensures NotAfter(spec, sorted[TopCount - 1], x)
  {
    var tail := sorted[TopCount..];
    var k :| 0 <= k < |tail| && tail[k] == x;
    assert sorted[TopCount + k] == x;
  }

  /** In the gainers' order an entry may stand before another exactly when
      its change is at least as large. */
  lemma GainersOrderMeans(a: Asset, b: Asset)
    requires a.priceChange24h.Some? && b.priceChange24h.Some?
    ensures NotAfter(GainersOrder, a, b) <==> Change(b) <= Change(a)
  {
  }

  /** In the losers' order an entry may stand before another exactly when
      its change is at most as large. */
  lemma LosersOrderMeans(a: Asset, b: Asset)
    requires a.priceChange24h.Some? && b.priceChange24h.Some?
    ensures NotAfter(LosersOrder, a, b) <==> Change(a) <= Change(b)
  {
  }

  /** `getTopGainers()`: at most five entries of the list, all with a positive
      change, largest first; all the gainers when there are fewer than five;
      and no gainer left out has a larger change than the smallest one kept. */
  function TopGainers(s: seq<Asset>): (r: seq<Asset>)
    ensures |r| <= TopCount
    ensures forall i :: 0 <= i < |r| ==> Gains(r[i])
    ensures forall i, j :: 0 <= i < j < |r| ==> Change(r[j]) <= Change(r[i])
    ensures multiset(r) <= multiset(s)
    ensures |r| < TopCount ==> multiset(r) == multiset(Filter(s, Gains))
    ensures forall x :: x in multiset(Filter(s, Gains)) - multiset(r) ==>
              |r| == TopCount && x.priceChange24h.Some?
              && Change(x) <= Change(r[TopCount - 1])
  {
    var r := TopFive(GainersOrder, Gains, s);
    forall i, j | 0 <= i < j < |r| ensures Change(r[j]) <= Change(r[i]) {
      GainersOrderMeans(r[i], r[j]);
    }
    forall x | x in multiset(Filter(s, Gains)) - multiset(r)
      ensures x.priceChange24h.Some? && Change(x) <= Change(r[TopCount - 1])
    {
      InFilter(s, Gains, x);
      GainersOrderMeans(r[TopCount - 1], x);
    }
    r
  }

  /** `getTopLosers()`: at most five entries of the list, all with a negative
      change, most negative first; all the losers when there are fewer than
      five; and no loser left out has a smaller change than the largest one kept. */
  function TopLosers(s: seq<Asset>): (r: seq<Asset>)
    ensures |r| <= TopCount
    ensures forall i :: 0 <= i < |r| ==> Loses(r[i])
    ensures forall i, j :: 0 <= i < j < |r| ==> Change(r[i]) <= Change(r[j])
    ensures multiset(r) <= multiset(s)
    ensures |r| < TopCount ==> multiset(r) == multiset(Filter(s, Loses))
    ensures forall x :: x in multiset(Filter(s, Loses)) - multiset(r) ==>
              |r| == TopCount && x.priceChange24h.Some?
              && Change(r[TopCount - 1]) <= Change(x)
  {
    var r := TopFive(LosersOrder, Loses, s);
    forall i, j | 0 <= i < j < |r| ensures Change(r[i]) <= Change(r[j]) {
      LosersOrderMeans(r[i], r[j]);
    }
    forall x | x in multiset(Filter(s, Loses)) - multiset(r)
      ensures x.priceChange24h.Some? && Change(r[TopCount - 1]) <= Change(x)
    {
      InFilter(s, Loses, x);
      LosersOrderMeans(r[TopCount - 1], x);
    }
    r
  }

  /** No entry is both a top gainer and a top loser, and an entry whose change
      is null or zero is neither. */
  lemma GainersAndLosersDisjoint(s: seq<Asset>, x: Asset)
    ensures !(x in TopGainers(s) && x in TopLosers(s))
    ensures x.priceChange24h.None? || x.priceChange24h == Some(0.0) ==>
              x !in TopGainers(s) && x !in TopLosers(s)
  {
    var g := TopGainers(s);
    var l := TopLosers(s);
    if x in g {
      var i :| 0 <= i < |g| && g[i] == x;
    }
    if x in l {
      var i :| 0 <= i < |l| && l[i] == x;
    }
  }
}
