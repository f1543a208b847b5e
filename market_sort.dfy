/** Sorting the market list by a column. The sort state is a field and a
    direction; the comparator is the one the hook hands to `Array.prototype.sort`:
    it answers only 1 or -1, and it treats a null or undefined key as
    +Infinity when ascending and -Infinity when descending, so that such
    entries end up last either way.

    Keys are abstract: a number or a text, each totally ordered (texts
    lexicographically by character). */
module MarketSort {
  import opened Wrappers
  import opened Assets

  /** The columns the market table can be sorted by. */
  datatype SortField = Name | CurrentPrice | PriceChange24h | PriceChange7d | MarketCap | TotalVolume | MarketCapRank

  datatype Direction = Asc | Desc

  datatype SortSpec = SortSpec(field: SortField, direction: Direction)

  /** The sort state a fresh hook starts with. */
  const InitialSortSpec := SortSpec(MarketCapRank, Asc)

  /** Clicking a column: the same column while ascending turns descending;
      anything else (another column, or the same one while descending) sorts
      that column ascending. */
  function NextSortSpec(current: SortSpec, field: SortField): (r: SortSpec)
    ensures r.field == field
    ensures r.direction == Desc <==> current == SortSpec(field, Asc)
  {
    SortSpec(field, if current.field == field && current.direction == Asc then Desc else Asc)
  }

  /** The first click on the rank column, from the initial state, sorts it descending. */
  lemma FirstRankClickDescends()
    ensures NextSortSpec(InitialSortSpec, MarketCapRank) == SortSpec(MarketCapRank, Desc)
  {
  }

  /** Two clicks in a row on the same column always give opposite directions. */
  lemma RepeatedClickAlternates(current: SortSpec, field: SortField)
    ensures NextSortSpec(NextSortSpec(current, field), field).direction
            != NextSortSpec(current, field).direction
  {
  }

  datatype Key = Number(x: real) | Text(s: string)

  /** `a[field]` for the sortable columns; `None` is null or undefined. */
  function KeyOf(a: Asset, field: SortField): Option<Key> {
    match field
    case Name => Some(Text(a.name))
    case CurrentPrice => NumberKey(a.currentPrice)
    case PriceChange24h => NumberKey(a.priceChange24h)
    case PriceChange7d => Some(Number(a.priceChange7d))
    case MarketCap => NumberKey(a.marketCap)
    case TotalVolume => NumberKey(a.totalVolume)
    case MarketCapRank =>
      match a.marketCapRank
      case Some(rank) => Some(Number(rank as real))
      case None => None
  }

  function NumberKey(v: Option<real>): Option<Key> {
    match v
    case Some(x) => Some(Number(x))
    case None => None
  }

  /** Strict lexicographic order on texts. */
  predicate TextLt(s: string, t: string) {
    if s == [] then t != []
    else t != [] && (s[0] < t[0] || (s[0] == t[0] && TextLt(s[1..], t[1..])))
  }

  lemma {:induction false} TextLtAsymmetric(s: string, t: string)
    ensures TextLt(s, t) ==> !TextLt(t, s)
  {
    if s != [] && t != [] && s[0] == t[0] {
      TextLtAsymmetric(s[1..], t[1..]);
    }
  }

  lemma {:induction false} TextLtTransitive(s: string, t: string, u: string)
    ensures TextLt(s, t) && TextLt(t, u) ==> TextLt(s, u)
  {
    if s != [] && t != [] && u != [] && s[0] == t[0] == u[0] {
      TextLtTransitive(s[1..], t[1..], u[1..]);
    }
  }

  lemma {:induction false} TextLtTotal(s: string, t: string)
    ensures TextLt(s, t) || s == t || TextLt(t, s)
  {
    if s != [] && t != [] && s[0] == t[0] {
      TextLtTotal(s[1..], t[1..]);
      assert s == [s[0]] + s[1..] && t == [t[0]] + t[1..];
    }
  }

  /** Strict order on keys; numbers and texts never meet in one column. */
  predicate KeyLt(a: Key, b: Key) {
    match (a, b)
    case (Number(x), Number(y)) => x < y
    case (Text(s), Text(t)) => TextLt(s, t)
    case (Number(_), Text(_)) => true
    case (Text(_), Number(_)) => false
  }

  /** A key, or the infinity the comparator substitutes for a missing one. */
  datatype Bound = MinusInfinity | Finite(key: Key) | PlusInfinity

  predicate BoundLt(x: Bound, y: Bound) {
    match (x, y)
    case (MinusInfinity, MinusInfinity) => false
    case (MinusInfinity, _) => true
    case (Finite(a), Finite(b)) => KeyLt(a, b)
    case (Finite(_), PlusInfinity) => true
    case (_, _) => false
  }

  /** `if (aValue == null) aValue = direction === 'asc' ? Infinity : -Infinity`. */
  function Placeholder(direction: Direction, k: Option<Key>): Bound {
    match k
    case Some(key) => Finite(key)
    case None => if direction == Asc then PlusInfinity else MinusInfinity
  }

  /** The hook's comparator: 1 when `a` belongs after `b`, -1 otherwise, never 0. */
  function Compare(spec: SortSpec, a: Asset, b: Asset): (r: int)
    ensures r == 1 || r == -1
  {
    var x := Placeholder(spec.direction, KeyOf(a, spec.field));
    var y := Placeholder(spec.direction, KeyOf(b, spec.field));
    if spec.direction == Asc then (if BoundLt(y, x) then 1 else -1)
    else (if BoundLt(x, y) then 1 else -1)
  }

  /** `a` may stand before `b`: the comparator does not put it after. */
  predicate NotAfter(spec: SortSpec, a: Asset, b: Asset) {
    Compare(spec, a, b) == -1
  }

  lemma BoundLtFacts(x: Bound, y: Bound, z: Bound)
    ensures BoundLt(x, y) ==> !BoundLt(y, x)
    ensures BoundLt(x, y) && BoundLt(y, z) ==> BoundLt(x, z)
    ensures BoundLt(x, y) || x == y || BoundLt(y, x)
  {
    match (x, y, z)
    case (Finite(Text(s)), Finite(Text(t)), Finite(Text(u))) =>
      TextLtAsymmetric(s, t);
      TextLtTransitive(s, t, u);
      TextLtTotal(s, t);
    case (Finite(Text(s)), Finite(Text(t)), _) =>
      TextLtAsymmetric(s, t);
      TextLtTotal(s, t);
    case _ =>
  }

  /** Of any two entries, at least one may stand before the other. */
  lemma NotAfterTotal(spec: SortSpec, a: Asset, b: Asset)
    ensures NotAfter(spec, a, b) || NotAfter(spec, b, a)
  {
    var x := Placeholder(spec.direction, KeyOf(a, spec.field));
    var y := Placeholder(spec.direction, KeyOf(b, spec.field));
    BoundLtFacts(x, y, x);
  }

  /** "May stand before" is transitive. */
  lemma NotAfterTransitive(spec: SortSpec, a: Asset, b: Asset, c: Asset)
    requires NotAfter(spec, a, b) && NotAfter(spec, b, c)
    ensures NotAfter(spec, a, c)
  {
    var x := Placeholder(spec.direction, KeyOf(a, spec.field));
    var y := Placeholder(spec.direction, KeyOf(b, spec.field));
    var z := Placeholder(spec.direction, KeyOf(c, spec.field));
    BoundLtFacts(x, y, z);
    BoundLtFacts(z, y, x);
    BoundLtFacts(x, z, y);
    BoundLtFacts(z, x, y);
    BoundLtFacts(y, z, x);
    BoundLtFacts(y, x, z);
  }

  /** The list is in comparator order: no entry is put after a later one. */
  predicate Sorted(spec: SortSpec, s: seq<Asset>) {
    forall i, j :: 0 <= i < j < |s| ==> NotAfter(spec, s[i], s[j])
  }

  function Insert(spec: SortSpec, x: Asset, s: seq<Asset>): (r: seq<Asset>)
    requires Sorted(spec, s)
    ensures multiset(r) == multiset(s) + multiset{x}
    ensures Sorted(spec, r)
  {
    if s == [] then [x]
    else if NotAfter(spec, x, s[0]) then
      InsertFrontSorted(spec, x, s);
      [x] + s
    else
      var rest := Insert(spec, x, s[1..]);
      NotAfterTotal(spec, x, s[0]);
      InsertBehindSorted(spec, s[0], x, s[1..], rest);
      assert s == [s[0]] + s[1..];
      [s[0]] + rest
  }

  lemma InsertFrontSorted(spec: SortSpec, x: Asset, s: seq<Asset>)
    requires Sorted(spec, s) && s != [] && NotAfter(spec, x, s[0])
    ensures Sorted(spec, [x] + s)
  {
    forall j | 1 <= j < |s| ensures NotAfter(spec, x, s[j]) {
      NotAfterTransitive(spec, x, s[0], s[j]);
    }
  }

  lemma InsertBehindSorted(spec: SortSpec, head: Asset, x: Asset, tail: seq<Asset>, rest: seq<Asset>)
    requires Sorted(spec, [head] + tail) && NotAfter(spec, head, x)
    requires Sorted(spec, rest) && multiset(rest) == multiset(tail) + multiset{x}
    ensures Sorted(spec, [head] + rest)
  {
    forall j | 0 <= j < |rest| ensures NotAfter(spec, head, rest[j]) {
      assert rest[j] in multiset(rest);
      if rest[j] != x {
        assert rest[j] in multiset(tail);
        var k :| 0 <= k < |tail| && tail[k] == rest[j];
        var whole := [head] + tail;
        assert whole[0] == head && whole[k + 1] == tail[k];
        assert NotAfter(spec, whole[0], whole[k + 1]);
      }
    }
  }

  /** `[...cryptos].sort(comparator)`: the same entries, in comparator order.
      Among entries with equal keys the comparator gives no order, so this
      insertion sort is one admissible outcome, not the engine's own. */
  function SortAssets(spec: SortSpec, s: seq<Asset>): (r: seq<Asset>)
    ensures multiset(r) == multiset(s)
    ensures Sorted(spec, r)
  {
    if s == [] then []
    else
      assert s == [s[0]] + s[1..];
      Insert(spec, s[0], SortAssets(spec, s[1..]))
  }

  /** In a sorted list, entries whose key is null or undefined come after
      every entry that has one, in either direction. */
  lemma SortedNullsLast(spec: SortSpec, s: seq<Asset>, i: int, j: int)
    requires Sorted(spec, s) && 0 <= i < j < |s|
    ensures KeyOf(s[i], spec.field).None? ==> KeyOf(s[j], spec.field).None?
  {
    assert NotAfter(spec, s[i], s[j]);
  }

  /** In a sorted list the present keys never decrease when ascending and
      never increase when descending. */
  lemma SortedKeysMonotone(spec: SortSpec, s: seq<Asset>, i: int, j: int)
    requires Sorted(spec, s) && 0 <= i < j < |s|
    requires KeyOf(s[i], spec.field).Some? && KeyOf(s[j], spec.field).Some?
    ensures spec.direction == Asc ==> !KeyLt(KeyOf(s[j], spec.field).value, KeyOf(s[i], spec.field).value)
    ensures spec.direction == Desc ==> !KeyLt(KeyOf(s[i], spec.field).value, KeyOf(s[j], spec.field).value)
  {
    assert NotAfter(spec, s[i], s[j]);
  }
}
