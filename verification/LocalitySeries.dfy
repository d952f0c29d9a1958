/** Gap-free daily locality series (backend/analytics/stockout_episodes.py:97-129). */
module LocalitySeries {
  import opened Wrappers
  import opened Text
  import opened Sequences
  import opened StableSort
  import opened Sums
  import opened KeyedTotals
  import opened DailyFacts

  datatype SeriesKey = SeriesKey(sku: string, destination: string)

  datatype OriginShare = OriginShare(origin: string, quantity: nat, share: real)

  datatype Point = Point(
    key: SeriesKey, day: int, demand: nat, fulfilled: nat, local: nat, external: int,
    localShare: Option<real>, externalShare: Option<real>, shares: seq<OriginShare>)

  // ---- the daily series ----

  datatype DayKey = DayKey(series: SeriesKey, day: int)

  datatype OriginKey = OriginKey(day: DayKey, origin: string)

  function DemandDay(): DemandCell -> DayKey {
    (c: DemandCell) => DayKey(SeriesKey(c.sku, c.destination), c.day)
  }

  function FulfilledDay(c: FulfilledCell): DayKey {
    DayKey(SeriesKey(c.sku, c.destination), c.day)
  }

  function FulfilledOrigin(): FulfilledCell -> OriginKey {
    (c: FulfilledCell) => OriginKey(FulfilledDay(c), c.origin)
  }

  /** The origins seen on a day, in the order of the dictionary. */
  function OriginsOn(keys: seq<OriginKey>, day: DayKey): (r: seq<string>)
    ensures forall o :: o in r <==> OriginKey(day, o) in keys
  {
    if |keys| == 0 then []
    else
      var init, last := OriginsOn(keys[..|keys| - 1], day), keys[|keys| - 1];
      InitLast(keys);
      if last.day == day then init + [last.origin] else init
  }

  function NameOrder(): (string, string) -> bool {
    (a: string, b: string) => TextLe(a, b)
  }

  function SumOver(origins: seq<string>, quantity: string -> nat): nat {
    SumBy(origins, quantity)
  }

  function SharesOf(origins: seq<string>, quantity: string -> nat, whole: nat): (r: seq<OriginShare>)
    requires whole > 0
    ensures |r| == |origins|
    ensures forall i :: 0 <= i < |r| ==> r[i] == OriginShare(origins[i], quantity(origins[i]), Ratio(quantity(origins[i]), whole))
  {
    seq(|origins|, i requires 0 <= i < |origins| => OriginShare(origins[i], quantity(origins[i]), Ratio(quantity(origins[i]), whole)))
  }

  /** One day of a series, from that day's demand and its units per origin. */
  function PointOf(key: SeriesKey, day: int, demand: nat, origins: seq<string>, quantity: string -> nat): Point {
    var fulfilled := SumOver(origins, quantity);
    var local := if key.destination in origins then quantity(key.destination) else 0;
    Point(key, day, demand, fulfilled, local, fulfilled - local,
          if fulfilled > 0 then Some(Ratio(local, fulfilled)) else None,
          if fulfilled > 0 then Some((fulfilled - local) as real / fulfilled as real) else None,
          if fulfilled > 0 then SharesOf(Sort(origins, NameOrder()), quantity, fulfilled) else [])
  }

  function OriginUnits(cells: seq<FulfilledCell>, day: DayKey): string -> nat {
    (o: string) => PerKey(cells, FulfilledOrigin(), FulfilledUnits())(OriginKey(day, o))
  }

  function PointOn(demand: seq<DemandCell>, fulfilled: seq<FulfilledCell>, key: SeriesKey, day: int): Point {
    var dk := DayKey(key, day);
    PointOf(key, day, PerKey(demand, DemandDay(), DemandUnits())(dk),
            OriginsOn(Distinct(fulfilled, FulfilledOrigin()), dk), OriginUnits(fulfilled, dk))
  }

  /** The days of a series: every day from its first cell to `asOf`. */
  function SeriesPoints(demand: seq<DemandCell>, fulfilled: seq<FulfilledCell>, key: SeriesKey, first: int, asOf: int): (ps: seq<Point>)
    ensures |ps| == if first <= asOf then asOf - first + 1 else 0
    ensures forall i :: 0 <= i < |ps| ==> ps[i] == PointOn(demand, fulfilled, key, first + i)
  {
    seq(if first <= asOf then asOf - first + 1 else 0, i => PointOn(demand, fulfilled, key, first + i))
  }

  /** The days of all cells, demand first. */
  function Sightings(demand: seq<DemandCell>, fulfilled: seq<FulfilledCell>): (r: seq<DayKey>)
    ensures |r| == |demand| + |fulfilled|
    ensures forall i :: 0 <= i < |demand| ==> r[i] == DemandDay()(demand[i])
    ensures forall i :: 0 <= i < |fulfilled| ==> r[|demand| + i] == FulfilledDay(fulfilled[i])
  {
    seq(|demand|, i requires 0 <= i < |demand| => DemandDay()(demand[i])) +
    seq(|fulfilled|, i requires 0 <= i < |fulfilled| => FulfilledDay(fulfilled[i]))
  }

  /** A day not later than any sighting of the series, and the day of one of them. */
  ghost predicate IsFirst(seen: seq<DayKey>, key: SeriesKey, first: int) {
    && (forall x <- seen :: x.series == key ==> first <= x.day)
    && DayKey(key, first) in seen
  }

  function SeriesOf(): DayKey -> SeriesKey {
    (x: DayKey) => x.series
  }

  /** The dictionary `first` after the given sightings. */
  ghost predicate Firsts(seen: seq<DayKey>, first: map<SeriesKey, int>, order: seq<SeriesKey>) {
    && order == Distinct(seen, SeriesOf())
    && (forall k :: k in first <==> k in order)
    && (forall k <- first.Keys :: IsFirst(seen, k, first[k]))
  }

  /** `first[key] = min(first.get(key, day), day)` */
  function Sight(first: map<SeriesKey, int>, x: DayKey): map<SeriesKey, int> {
    first[x.series := if x.series in first && first[x.series] < x.day then first[x.series] else x.day]
  }

  lemma SightIsFirst(seen: seq<DayKey>, first: map<SeriesKey, int>, order: seq<SeriesKey>, x: DayKey, k: SeriesKey)
    requires Firsts(seen, first, order) && k in Sight(first, x)
    ensures IsFirst(seen + [x], k, Sight(first, x)[k])
  {
    assert k in first ==> IsFirst(seen, k, first[k]);
    if k !in first {
      forall y | y in seen ensures y.series != k {
        assert SeriesOf()(y) in Distinct(seen, SeriesOf());
      }
    }
  }

  lemma FirstsStep(seen: seq<DayKey>, first: map<SeriesKey, int>, order: seq<SeriesKey>, x: DayKey)
    requires Firsts(seen, first, order)
    ensures Firsts(seen + [x], Sight(first, x), if x.series in first then order else order + [x.series])
  {
    SnocInit(seen, x);
    forall k | k in Sight(first, x) ensures IsFirst(seen + [x], k, Sight(first, x)[k]) {
      SightIsFirst(seen, first, order, x, k);
    }
  }

  /** One turn of the loop over the cells. */
  method SightDay(ghost seen: seq<DayKey>, first: map<SeriesKey, int>, order: seq<SeriesKey>, x: DayKey)
    returns (first': map<SeriesKey, int>, order': seq<SeriesKey>)
    requires Firsts(seen, first, order)
    ensures Firsts(seen + [x], first', order')
  {
    FirstsStep(seen, first, order, x);
    first', order' := Sight(first, x), if x.series in first then order else order + [x.series];
  }

  /** `first[key] = min(first.get(key, cell.day), cell.day)`, over the demand and then the fulfillment cells. */
  method FirstDays(seen: seq<DayKey>) returns (first: map<SeriesKey, int>, order: seq<SeriesKey>)
    ensures Firsts(seen, first, order)
  {
    first, order := map[], [];
    for i := 0 to |seen|
      invariant Firsts(seen[..i], first, order)
    {
      first, order := SightDay(seen[..i], first, order, seen[i]);
      TakeNext(seen, i);
    }
    TakeAll(seen);
  }

  predicate KeyLe(a: SeriesKey, b: SeriesKey) {
    if a.sku != b.sku then TextLe(a.sku, b.sku) else TextLe(a.destination, b.destination)
  }

  function KeyOrder(): (SeriesKey, SeriesKey) -> bool {
    (a: SeriesKey, b: SeriesKey) => KeyLe(a, b)
  }

  /** All series, one after the other. */
  function AllSeries(demand: seq<DemandCell>, fulfilled: seq<FulfilledCell>, keys: seq<SeriesKey>, first: map<SeriesKey, int>, asOf: int): seq<Point>
    requires forall k <- keys :: k in first
  {
    if |keys| == 0 then []
    else
      var k := keys[|keys| - 1];
      AllSeries(demand, fulfilled, keys[..|keys| - 1], first, asOf) + SeriesPoints(demand, fulfilled, k, first[k], asOf)
  }

  /** The two dictionaries of `build_daily_locality_series`. */
  datatype Tables = Tables(demand: map<DayKey, Total>, origins: seq<OriginKey>, units: map<OriginKey, Total>)

  ghost predicate Filled(t: Tables, demand: seq<DemandCell>, fulfilled: seq<FulfilledCell>) {
    && Totalled(demand, DemandDay(), DemandUnits(), DemandCount(), Distinct(demand, DemandDay()), t.demand)
    && Totalled(fulfilled, FulfilledOrigin(), FulfilledUnits(), FulfilledCount(), t.origins, t.units)
  }

  /** `demand.get(key, 0)` */
  function DemandIn(t: Tables, day: DayKey): nat {
    if day in t.demand then t.demand[day].quantity else 0
  }

  function UnitsIn(t: Tables, day: DayKey): string -> nat {
    (o: string) => if OriginKey(day, o) in t.units then t.units[OriginKey(day, o)].quantity else 0
  }

  lemma DemandLookup(t: Tables, demand: seq<DemandCell>, fulfilled: seq<FulfilledCell>, day: DayKey)
    requires Filled(t, demand, fulfilled)
    ensures DemandIn(t, day) == PerKey(demand, DemandDay(), DemandUnits())(day)
  {
    if day !in t.demand {
      NothingUnder(demand, DemandDay(), DemandUnits(), day);
    }
  }

  lemma UnitsLookup(t: Tables, demand: seq<DemandCell>, fulfilled: seq<FulfilledCell>, day: DayKey)
    requires Filled(t, demand, fulfilled)
    ensures t.origins == Distinct(fulfilled, FulfilledOrigin())
    ensures forall o :: UnitsIn(t, day)(o) == OriginUnits(fulfilled, day)(o)
  {
    forall o ensures UnitsIn(t, day)(o) == OriginUnits(fulfilled, day)(o) {
      if OriginKey(day, o) !in t.units {
        NothingUnder(fulfilled, FulfilledOrigin(), FulfilledUnits(), OriginKey(day, o));
      }
    }
  }

  /** One point, from the dictionaries. */
  function PointIn(t: Tables, key: SeriesKey, day: int): Point {
    var dk := DayKey(key, day);
    PointOf(key, day, DemandIn(t, dk), OriginsOn(t.origins, dk), UnitsIn(t, dk))
  }

  lemma PointLookup(t: Tables, demand: seq<DemandCell>, fulfilled: seq<FulfilledCell>, key: SeriesKey, day: int)
    requires Filled(t, demand, fulfilled)
    ensures PointIn(t, key, day) == PointOn(demand, fulfilled, key, day)
  {
    var dk := DayKey(key, day);
    DemandLookup(t, demand, fulfilled, dk);
    UnitsLookup(t, demand, fulfilled, dk);
    PointAgrees(key, day, DemandIn(t, dk), OriginsOn(t.origins, dk), UnitsIn(t, dk), OriginUnits(fulfilled, dk));
  }

  lemma SeriesSnoc(demand: seq<DemandCell>, fulfilled: seq<FulfilledCell>, key: SeriesKey, first: int, day: int)
    requires first <= day
    ensures SeriesPoints(demand, fulfilled, key, first, day) ==
            SeriesPoints(demand, fulfilled, key, first, day - 1) + [PointOn(demand, fulfilled, key, day)]
  {
    var all, before := SeriesPoints(demand, fulfilled, key, first, day), SeriesPoints(demand, fulfilled, key, first, day - 1);
    assert first + |before| == day && all[|before|] == PointOn(demand, fulfilled, key, day);
    OneMore(all, before, PointOn(demand, fulfilled, key, day));
  }

  /** The inner loop of `build_daily_locality_series`: one point for every day. */
  method WalkDays(ghost demand: seq<DemandCell>, ghost fulfilled: seq<FulfilledCell>, key: SeriesKey, first: int, asOf: int, t: Tables)
    returns (points: seq<Point>)
    requires Filled(t, demand, fulfilled)
    ensures points == SeriesPoints(demand, fulfilled, key, first, asOf)
  {
    points := [];
    var day := first;
    while day <= asOf
      invariant first <= day && (day <= asOf + 1 || day == first)
      invariant points == SeriesPoints(demand, fulfilled, key, first, day - 1)
    {
      PointLookup(t, demand, fulfilled, key, day);
      SeriesSnoc(demand, fulfilled, key, first, day);
      points := points + [PointIn(t, key, day)];
      day := day + 1;
    }
  }

  lemma PointAgrees(key: SeriesKey, day: int, demand: nat, origins: seq<string>, f: string -> nat, g: string -> nat)
    requires forall o <- origins :: f(o) == g(o)
    ensures PointOf(key, day, demand, origins, f) == PointOf(key, day, demand, origins, g)
  {
    SumAgrees(origins, f, g);
    SortElements(origins, NameOrder());
    var sorted := Sort(origins, NameOrder());
    assert forall i :: 0 <= i < |sorted| ==> sorted[i] in sorted;
  }

  /** `build_daily_locality_series`. */
  method BuildSeries(demand: seq<DemandCell>, fulfilled: seq<FulfilledCell>, asOf: int)
    returns (points: seq<Point>, ghost keys: seq<SeriesKey>, ghost first: map<SeriesKey, int>)
    ensures Firsts(Sightings(demand, fulfilled), first, Distinct(Sightings(demand, fulfilled), SeriesOf()))
    ensures keys == Sort(Distinct(Sightings(demand, fulfilled), SeriesOf()), KeyOrder()) && forall k <- keys :: k in first
    ensures points == AllSeries(demand, fulfilled, keys, first, asOf)
  {
    var _, totals := Accumulate(demand, DemandDay(), DemandUnits(), DemandCount());
    var origins, units := Accumulate(fulfilled, FulfilledOrigin(), FulfilledUnits(), FulfilledCount());
    var t := Tables(totals, origins, units);
    assert Filled(t, demand, fulfilled);
    var earliest, order := FirstDays(Sightings(demand, fulfilled));
    var sorted := Sort(order, KeyOrder());
    SortElements(order, KeyOrder());
    keys, first := sorted, earliest;
    points := [];
    for j := 0 to |sorted|
      invariant points == AllSeries(demand, fulfilled, sorted[..j], earliest, asOf)
    {
      TakeTake(sorted, j);
      assert sorted[j] in sorted;
      var series := WalkDays(demand, fulfilled, sorted[j], earliest[sorted[j]], asOf, t);
      points := points + series;
    }
    TakeAll(sorted);
  }

  // ---- what the series promises ----

  lemma {:induction false} MemberWithinSum<T>(xs: seq<T>, x: T, f: T -> nat)
    requires x in xs
    ensures f(x) <= SumBy(xs, f)
  {
    if xs[0] != x {
      MemberWithinSum(xs[1..], x, f);
    }
  }

  lemma LocalWithinFulfilled(key: SeriesKey, day: int, demand: nat, origins: seq<string>, quantity: string -> nat)
    ensures var p := PointOf(key, day, demand, origins, quantity); p.local <= p.fulfilled && p.local + p.external == p.fulfilled
  {
    if key.destination in origins {
      MemberWithinSum(origins, key.destination, quantity);
    }
  }

  /** The shares of a day sum to one. */
  lemma SharesOfTheDay(origins: seq<string>, quantity: string -> nat)
    requires SumOver(origins, quantity) > 0
    ensures ShareSum(Sort(origins, NameOrder()), quantity, SumOver(origins, quantity)) == 1.0
  {
    SumSorted(origins, NameOrder(), quantity);
    SharesSumToOne(Sort(origins, NameOrder()), quantity, SumOver(origins, quantity));
  }

  lemma ShareAndRest(local: nat, fulfilled: nat)
    requires local <= fulfilled && fulfilled > 0
    ensures Ratio(local, fulfilled) + (fulfilled - local) as real / fulfilled as real == 1.0
  {
    RatioAdds(local, fulfilled - local, fulfilled);
  }

  /** Local and external units make up the fulfilled ones, and so do their shares. */
  lemma PointIsConsistent(key: SeriesKey, day: int, demand: nat, origins: seq<string>, quantity: string -> nat)
    ensures var p := PointOf(key, day, demand, origins, quantity);
      && 0 <= p.external && p.local + p.external == p.fulfilled
      && (p.fulfilled > 0 ==> p.localShare.value + p.externalShare.value == 1.0)
  {
    LocalWithinFulfilled(key, day, demand, origins, quantity);
    var p := PointOf(key, day, demand, origins, quantity);
    if p.fulfilled > 0 {
      ShareAndRest(p.local, p.fulfilled);
    }
  }

  lemma {:induction false} OriginsDiffer(keys: seq<OriginKey>, day: DayKey)
    requires NoDup(keys)
    ensures NoDup(OriginsOn(keys, day))
  {
    if |keys| > 0 {
      var init, last := keys[..|keys| - 1], keys[|keys| - 1];
      InitLast(keys);
      OriginsDiffer(init, day);
      assert last !in init;
    }
  }

  function OriginName(): FulfilledCell -> string {
    (c: FulfilledCell) => c.origin
  }

  function UnitsOnDay(day: DayKey): FulfilledCell -> nat {
    (c: FulfilledCell) => if FulfilledDay(c) == day then c.quantity else 0
  }

  lemma OriginOfTheDay(fulfilled: seq<FulfilledCell>, dk: DayKey, o: string)
    ensures OriginUnits(fulfilled, dk)(o) == PerKey(fulfilled, OriginName(), UnitsOnDay(dk))(o)
  {
    var a, b := At(FulfilledOrigin(), OriginKey(dk, o), FulfilledUnits()), At(OriginName(), o, UnitsOnDay(dk));
    forall c | c in fulfilled ensures a(c) == b(c) {
    }
    SumAgrees(fulfilled, a, b);
    assert OriginUnits(fulfilled, dk)(o) == PerKey(fulfilled, FulfilledOrigin(), FulfilledUnits())(OriginKey(dk, o));
    assert PerKey(fulfilled, FulfilledOrigin(), FulfilledUnits())(OriginKey(dk, o)) == SumBy(fulfilled, a);
    assert PerKey(fulfilled, OriginName(), UnitsOnDay(dk))(o) == SumBy(fulfilled, b);
  }

  /** A point's fulfilled units are all the units fulfilled on that day, from whatever origin. */
  lemma FulfilledOfTheDay(demand: seq<DemandCell>, fulfilled: seq<FulfilledCell>, key: SeriesKey, day: int)
    ensures PointOn(demand, fulfilled, key, day).fulfilled == SumBy(fulfilled, UnitsOnDay(DayKey(key, day)))
  {
    var dk := DayKey(key, day);
    var keys := Distinct(fulfilled, FulfilledOrigin());
    var names := OriginsOn(keys, dk);
    OriginsDiffer(keys, dk);
    forall c | c in fulfilled ensures OriginName()(c) in names || UnitsOnDay(dk)(c) == 0 {
      assert FulfilledOrigin()(c) in keys;
    }
    SumPerKey(fulfilled, names, OriginName(), UnitsOnDay(dk));
    forall o | o in names ensures OriginUnits(fulfilled, dk)(o) == PerKey(fulfilled, OriginName(), UnitsOnDay(dk))(o) {
      OriginOfTheDay(fulfilled, dk, o);
    }
    SumAgrees(names, OriginUnits(fulfilled, dk), PerKey(fulfilled, OriginName(), UnitsOnDay(dk)));
  }

  /** Days follow each other without a gap. */
  ghost predicate GapFree(points: seq<Point>) {
    forall i :: 0 <= i < |points| ==> points[i].day == points[0].day + i
  }

  function Days(first: int, asOf: int): (ds: seq<int>)
    ensures |ds| == if first <= asOf then asOf - first + 1 else 0
    ensures forall i :: 0 <= i < |ds| ==> ds[i] == first + i
    ensures forall d :: d in ds <==> first <= d <= asOf
    decreases asOf - first
  {
    if asOf < first then [] else Days(first, asOf - 1) + [asOf]
  }

  lemma DaysDiffer(first: int, asOf: int)
    ensures NoDup(Days(first, asOf))
  {
  }

  function DayOfFulfilled(): FulfilledCell -> int {
    (c: FulfilledCell) => c.day
  }

  function DayOfDemand(): DemandCell -> int {
    (c: DemandCell) => c.day
  }

  function SeriesUnits(key: SeriesKey, asOf: int): FulfilledCell -> nat {
    (c: FulfilledCell) => if SeriesKey(c.sku, c.destination) == key && c.day <= asOf then c.quantity else 0
  }

  function SeriesDemand(key: SeriesKey, asOf: int): DemandCell -> nat {
    (c: DemandCell) => if SeriesKey(c.sku, c.destination) == key && c.day <= asOf then c.quantity else 0
  }

  function FulfilledOf(): Point -> nat {
    (p: Point) => p.fulfilled
  }

  function DemandOf(): Point -> nat {
    (p: Point) => p.demand
  }

  /** A series covers every day from its first cell on, and no unit of it is lost or counted twice. */
  lemma SeriesConserves(demand: seq<DemandCell>, fulfilled: seq<FulfilledCell>, key: SeriesKey, first: int, asOf: int)
    requires IsFirst(Sightings(demand, fulfilled), key, first)
    ensures GapFree(SeriesPoints(demand, fulfilled, key, first, asOf))
    ensures SumBy(SeriesPoints(demand, fulfilled, key, first, asOf), FulfilledOf()) == SumBy(fulfilled, SeriesUnits(key, asOf))
    ensures SumBy(SeriesPoints(demand, fulfilled, key, first, asOf), DemandOf()) == SumBy(demand, SeriesDemand(key, asOf))
  {
    FulfilledPerDay(demand, fulfilled, key, first, asOf);
    FulfilledPerPoint(demand, fulfilled, key, first, asOf);
    DemandPerDay(demand, fulfilled, key, first, asOf);
    DemandPerPoint(demand, fulfilled, key, first, asOf);
  }

  lemma FulfilledStep(demand: seq<DemandCell>, fulfilled: seq<FulfilledCell>, key: SeriesKey, day: int, asOf: int)
    requires day <= asOf
    ensures FulfilledOf()(PointOn(demand, fulfilled, key, day)) == PerKey(fulfilled, DayOfFulfilled(), SeriesUnits(key, asOf))(day)
  {
    FulfilledOfTheDay(demand, fulfilled, key, day);
    var a, b := UnitsOnDay(DayKey(key, day)), At(DayOfFulfilled(), day, SeriesUnits(key, asOf));
    forall c | c in fulfilled ensures a(c) == b(c) {
    }
    SumAgrees(fulfilled, a, b);
    assert PerKey(fulfilled, DayOfFulfilled(), SeriesUnits(key, asOf))(day) == SumBy(fulfilled, b);
  }

  lemma FulfilledInDays(demand: seq<DemandCell>, fulfilled: seq<FulfilledCell>, key: SeriesKey, first: int, asOf: int, i: nat)
    requires IsFirst(Sightings(demand, fulfilled), key, first) && i < |fulfilled|
    ensures DayOfFulfilled()(fulfilled[i]) in Days(first, asOf) || SeriesUnits(key, asOf)(fulfilled[i]) == 0
  {
    assert Sightings(demand, fulfilled)[|demand| + i] == FulfilledDay(fulfilled[i]);
  }

  lemma FulfilledPerDay(demand: seq<DemandCell>, fulfilled: seq<FulfilledCell>, key: SeriesKey, first: int, asOf: int)
    requires IsFirst(Sightings(demand, fulfilled), key, first)
    ensures SumBy(Days(first, asOf), PerKey(fulfilled, DayOfFulfilled(), SeriesUnits(key, asOf))) == SumBy(fulfilled, SeriesUnits(key, asOf))
  {
    forall c | c in fulfilled ensures DayOfFulfilled()(c) in Days(first, asOf) || SeriesUnits(key, asOf)(c) == 0 {
      var i :| 0 <= i < |fulfilled| && fulfilled[i] == c;
      FulfilledInDays(demand, fulfilled, key, first, asOf, i);
    }
    DaysDiffer(first, asOf);
    SumPerKey(fulfilled, Days(first, asOf), DayOfFulfilled(), SeriesUnits(key, asOf));
  }

  function FulfilledAt(demand: seq<DemandCell>, fulfilled: seq<FulfilledCell>, key: SeriesKey): int -> nat {
    (day: int) => FulfilledOf()(PointOn(demand, fulfilled, key, day))
  }

  lemma FulfilledAgrees(demand: seq<DemandCell>, fulfilled: seq<FulfilledCell>, key: SeriesKey, first: int, asOf: int)
    ensures SumBy(Days(first, asOf), FulfilledAt(demand, fulfilled, key)) ==
            SumBy(Days(first, asOf), PerKey(fulfilled, DayOfFulfilled(), SeriesUnits(key, asOf)))
  {
    var days := Days(first, asOf);
    forall day | day in days ensures FulfilledAt(demand, fulfilled, key)(day) == PerKey(fulfilled, DayOfFulfilled(), SeriesUnits(key, asOf))(day) {
      FulfilledStep(demand, fulfilled, key, day, asOf);
    }
    SumAgrees(days, FulfilledAt(demand, fulfilled, key), PerKey(fulfilled, DayOfFulfilled(), SeriesUnits(key, asOf)));
  }

  lemma FulfilledPerPoint(demand: seq<DemandCell>, fulfilled: seq<FulfilledCell>, key: SeriesKey, first: int, asOf: int)
    ensures SumBy(SeriesPoints(demand, fulfilled, key, first, asOf), FulfilledOf()) ==
            SumBy(Days(first, asOf), PerKey(fulfilled, DayOfFulfilled(), SeriesUnits(key, asOf)))
  {
    SumMapped(Days(first, asOf), FulfilledAt(demand, fulfilled, key), SeriesPoints(demand, fulfilled, key, first, asOf), FulfilledOf());
    FulfilledAgrees(demand, fulfilled, key, first, asOf);
  }

  lemma DemandStep(demand: seq<DemandCell>, fulfilled: seq<FulfilledCell>, key: SeriesKey, day: int, asOf: int)
    requires day <= asOf
    ensures DemandOf()(PointOn(demand, fulfilled, key, day)) == PerKey(demand, DayOfDemand(), SeriesDemand(key, asOf))(day)
  {
    var a, b := At(DemandDay(), DayKey(key, day), DemandUnits()), At(DayOfDemand(), day, SeriesDemand(key, asOf));
    forall c | c in demand ensures a(c) == b(c) {
    }
    SumAgrees(demand, a, b);
    assert PerKey(demand, DemandDay(), DemandUnits())(DayKey(key, day)) == SumBy(demand, a);
    assert PerKey(demand, DayOfDemand(), SeriesDemand(key, asOf))(day) == SumBy(demand, b);
  }

  lemma DemandInDays(demand: seq<DemandCell>, fulfilled: seq<FulfilledCell>, key: SeriesKey, first: int, asOf: int, i: nat)
    requires IsFirst(Sightings(demand, fulfilled), key, first) && i < |demand|
    ensures DayOfDemand()(demand[i]) in Days(first, asOf) || SeriesDemand(key, asOf)(demand[i]) == 0
  {
    assert Sightings(demand, fulfilled)[i] == DemandDay()(demand[i]);
  }

  lemma DemandPerDay(demand: seq<DemandCell>, fulfilled: seq<FulfilledCell>, key: SeriesKey, first: int, asOf: int)
    requires IsFirst(Sightings(demand, fulfilled), key, first)
    ensures SumBy(Days(first, asOf), PerKey(demand, DayOfDemand(), SeriesDemand(key, asOf))) == SumBy(demand, SeriesDemand(key, asOf))
  {
    forall c | c in demand ensures DayOfDemand()(c) in Days(first, asOf) || SeriesDemand(key, asOf)(c) == 0 {
      var i :| 0 <= i < |demand| && demand[i] == c;
      DemandInDays(demand, fulfilled, key, first, asOf, i);
    }
    DaysDiffer(first, asOf);
    SumPerKey(demand, Days(first, asOf), DayOfDemand(), SeriesDemand(key, asOf));
  }

  function DemandAt(demand: seq<DemandCell>, fulfilled: seq<FulfilledCell>, key: SeriesKey): int -> nat {
    (day: int) => DemandOf()(PointOn(demand, fulfilled, key, day))
  }

  lemma DemandAgrees(demand: seq<DemandCell>, fulfilled: seq<FulfilledCell>, key: SeriesKey, first: int, asOf: int)
    ensures SumBy(Days(first, asOf), DemandAt(demand, fulfilled, key)) ==
            SumBy(Days(first, asOf), PerKey(demand, DayOfDemand(), SeriesDemand(key, asOf)))
  {
    var days := Days(first, asOf);
    forall day | day in days ensures DemandAt(demand, fulfilled, key)(day) == PerKey(demand, DayOfDemand(), SeriesDemand(key, asOf))(day) {
      DemandStep(demand, fulfilled, key, day, asOf);
    }
    SumAgrees(days, DemandAt(demand, fulfilled, key), PerKey(demand, DayOfDemand(), SeriesDemand(key, asOf)));
  }

  lemma DemandPerPoint(demand: seq<DemandCell>, fulfilled: seq<FulfilledCell>, key: SeriesKey, first: int, asOf: int)
    ensures SumBy(SeriesPoints(demand, fulfilled, key, first, asOf), DemandOf()) ==
            SumBy(Days(first, asOf), PerKey(demand, DayOfDemand(), SeriesDemand(key, asOf)))
  {
    SumMapped(Days(first, asOf), DemandAt(demand, fulfilled, key), SeriesPoints(demand, fulfilled, key, first, asOf), DemandOf());
    DemandAgrees(demand, fulfilled, key, first, asOf);
  }

  // ---- what a day shows ----

  /** The units fulfilled from an origin on a day of a series. */
  function UnitsFrom(key: SeriesKey, day: int, origin: string): FulfilledCell -> nat {
    (c: FulfilledCell) => if c.sku == key.sku && c.destination == key.destination && c.day == day && c.origin == origin then c.quantity else 0
  }

  function UnitsFromAnywhere(key: SeriesKey, day: int): FulfilledCell -> nat {
    (c: FulfilledCell) => if c.sku == key.sku && c.destination == key.destination && c.day == day then c.quantity else 0
  }

  function UnitsDemanded(key: SeriesKey, day: int): DemandCell -> nat {
    (c: DemandCell) => if c.sku == key.sku && c.destination == key.destination && c.day == day then c.quantity else 0
  }

  /** The cells of a day hold fulfilled units of this origin, if any. */
  ghost predicate OriginSeen(fulfilled: seq<FulfilledCell>, key: SeriesKey, day: int, origin: string) {
    exists c <- fulfilled :: c.sku == key.sku && c.destination == key.destination && c.day == day && c.origin == origin
  }

  /** The day shows what was demanded, what came from where, and what came from the destination
      itself; shares are parts of what was fulfilled, one for each origin in the cells, by name. */
  ghost predicate ShowsDay(p: Point, demand: seq<DemandCell>, fulfilled: seq<FulfilledCell>) {
    && p.demand == SumBy(demand, UnitsDemanded(p.key, p.day))
    && p.fulfilled == SumBy(fulfilled, UnitsFromAnywhere(p.key, p.day))
    && p.local == SumBy(fulfilled, UnitsFrom(p.key, p.day, p.key.destination))
    && (if p.fulfilled == 0 then p.localShare == None && p.shares == []
        else && p.localShare == Some(p.local as real / p.fulfilled as real)
             && (forall s <- p.shares :: OriginSeen(fulfilled, p.key, p.day, s.origin)
                   && s.quantity == SumBy(fulfilled, UnitsFrom(p.key, p.day, s.origin))
                   && s.share == s.quantity as real / p.fulfilled as real)
             && (forall o :: OriginSeen(fulfilled, p.key, p.day, o) ==> exists s <- p.shares :: s.origin == o))
  }

  lemma OriginUnitsAre(fulfilled: seq<FulfilledCell>, key: SeriesKey, day: int, origin: string)
    ensures OriginUnits(fulfilled, DayKey(key, day))(origin) == SumBy(fulfilled, UnitsFrom(key, day, origin))
  {
    var ok := OriginKey(DayKey(key, day), origin);
    SumAgrees(fulfilled, At(FulfilledOrigin(), ok, FulfilledUnits()), UnitsFrom(key, day, origin));
    assert PerKey(fulfilled, FulfilledOrigin(), FulfilledUnits())(ok) == SumBy(fulfilled, At(FulfilledOrigin(), ok, FulfilledUnits()));
  }

  lemma OriginsAreSeen(fulfilled: seq<FulfilledCell>, key: SeriesKey, day: int, origin: string)
    ensures origin in OriginsOn(Distinct(fulfilled, FulfilledOrigin()), DayKey(key, day)) <==> OriginSeen(fulfilled, key, day, origin)
  {
    var ok := OriginKey(DayKey(key, day), origin);
    var keys := Distinct(fulfilled, FulfilledOrigin());
    if ok in keys {
      var c :| c in fulfilled && FulfilledOrigin()(c) == ok;
    }
    forall c | c in fulfilled && c.sku == key.sku && c.destination == key.destination && c.day == day && c.origin == origin ensures ok in keys {
      assert FulfilledOrigin()(c) == ok;
    }
  }

  lemma LocalUnitsAre(demand: seq<DemandCell>, fulfilled: seq<FulfilledCell>, key: SeriesKey, day: int)
    ensures PointOn(demand, fulfilled, key, day).local == SumBy(fulfilled, UnitsFrom(key, day, key.destination))
  {
    OriginUnitsAre(fulfilled, key, day, key.destination);
    OriginsAreSeen(fulfilled, key, day, key.destination);
    if !OriginSeen(fulfilled, key, day, key.destination) {
      SumZero(fulfilled, UnitsFrom(key, day, key.destination));
    }
  }

  lemma DemandIs(demand: seq<DemandCell>, fulfilled: seq<FulfilledCell>, key: SeriesKey, day: int)
    ensures PointOn(demand, fulfilled, key, day).demand == SumBy(demand, UnitsDemanded(key, day))
  {
    SumAgrees(demand, At(DemandDay(), DayKey(key, day), DemandUnits()), UnitsDemanded(key, day));
  }

  lemma FulfilledIs(demand: seq<DemandCell>, fulfilled: seq<FulfilledCell>, key: SeriesKey, day: int)
    ensures PointOn(demand, fulfilled, key, day).fulfilled == SumBy(fulfilled, UnitsFromAnywhere(key, day))
  {
    FulfilledOfTheDay(demand, fulfilled, key, day);
    SumAgrees(fulfilled, UnitsOnDay(DayKey(key, day)), UnitsFromAnywhere(key, day));
  }

  lemma SharesShowOrigins(origins: seq<string>, quantity: string -> nat, whole: nat)
    requires whole > 0
    ensures var shares := SharesOf(Sort(origins, NameOrder()), quantity, whole);
      && (forall s <- shares :: s.origin in origins && s == OriginShare(s.origin, quantity(s.origin), Ratio(quantity(s.origin), whole)))
      && (forall o <- origins :: exists s <- shares :: s.origin == o)
  {
    var sorted := Sort(origins, NameOrder());
    var shares := SharesOf(sorted, quantity, whole);
    SortElements(origins, NameOrder());
    forall s | s in shares ensures s.origin in origins && s == OriginShare(s.origin, quantity(s.origin), Ratio(quantity(s.origin), whole)) {
      var i :| 0 <= i < |shares| && shares[i] == s;
      assert sorted[i] in sorted;
    }
    forall o | o in origins ensures exists s <- shares :: s.origin == o {
      var i :| 0 <= i < |sorted| && sorted[i] == o;
      assert shares[i] in shares;
    }
  }

  /** A point of a series shows what its day's cells hold. */
  lemma PointShowsDay(demand: seq<DemandCell>, fulfilled: seq<FulfilledCell>, key: SeriesKey, day: int)
    ensures ShowsDay(PointOn(demand, fulfilled, key, day), demand, fulfilled)
  {
    var p, dk := PointOn(demand, fulfilled, key, day), DayKey(key, day);
    DemandIs(demand, fulfilled, key, day);
    FulfilledIs(demand, fulfilled, key, day);
    LocalUnitsAre(demand, fulfilled, key, day);
    if p.fulfilled > 0 {
      SharesShowOrigins(OriginsOn(Distinct(fulfilled, FulfilledOrigin()), dk), OriginUnits(fulfilled, dk), p.fulfilled);
      forall o ensures OriginUnits(fulfilled, dk)(o) == SumBy(fulfilled, UnitsFrom(key, day, o)) {
        OriginUnitsAre(fulfilled, key, day, o);
      }
      forall o ensures o in OriginsOn(Distinct(fulfilled, FulfilledOrigin()), dk) <==> OriginSeen(fulfilled, key, day, o) {
        OriginsAreSeen(fulfilled, key, day, o);
      }
    }
  }
}
