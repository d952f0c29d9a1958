/** Building adjacent tariff tiers from parsed FBO rows (backend/ingestion/tariffs.py,
    `_import_fbo` after the cells are parsed). */
module TariffImport {
  import opened Wrappers
  import opened Text
  import opened Tariffs
  import opened TariffIndex
  import opened Sequences
  import opened StableSort

  datatype Tier = Tier(origin: string, destination: string, minimum: real, low: real, high: real, row: int)

  const PRICE_SPLIT := 300.0

  predicate ByMinimum(a: Tier, b: Tier) {
    a.minimum <= b.minimum
  }

  predicate ByRoute(a: Route, b: Route) {
    if a.origin == b.origin then TextLe(a.destination, b.destination) else TextLe(a.origin, b.origin)
  }

  lemma ByRouteIsTotal()
    ensures TotalPreorder(ByRoute)
  {
    forall a: Route, b: Route ensures ByRoute(a, b) || ByRoute(b, a) {
      TextLeTotal(a.origin, b.origin);
      TextLeTotal(a.destination, b.destination);
    }
    forall a: Route, b: Route, c: Route | ByRoute(a, b) && ByRoute(b, c) ensures ByRoute(a, c) {
      ByRouteTransitive(a, b, c);
    }
  }

  lemma ByRouteTransitive(a: Route, b: Route, c: Route)
    requires ByRoute(a, b) && ByRoute(b, c)
    ensures ByRoute(a, c)
  {
    if a.origin == b.origin == c.origin {
      TextLeTransitive(a.destination, b.destination, c.destination);
    } else if a.origin != b.origin && b.origin != c.origin {
      TextLeTransitive(a.origin, b.origin, c.origin);
      TextLeTotal(a.origin, b.origin);
    }
  }

  function RouteOf(t: Tier): Route {
    Route(t.origin, t.destination)
  }

  /** `grouped[route]`: the tiers of a route in worksheet order. */
  function TiersOf(tiers: seq<Tier>, r: Route): (g: seq<Tier>)
    ensures forall t :: t in g <==> t in tiers && RouteOf(t) == r
  {
    if |tiers| == 0 then []
    else
      InitLast(tiers);
      var rest := TiersOf(tiers[..|tiers| - 1], r);
      if RouteOf(tiers[|tiers| - 1]) == r then rest + [tiers[|tiers| - 1]] else rest
  }

  /** The tiers of a route by lower volume bound. */
  function Ladder(tiers: seq<Tier>, r: Route): seq<Tier> {
    Sort(TiersOf(tiers, r), ByMinimum)
  }

  function UpperBound(ladder: seq<Tier>, k: nat): Option<real>
    requires k < |ladder|
  {
    if k + 1 < |ladder| then Some(ladder[k + 1].minimum) else None
  }

  function LowRow(ladder: seq<Tier>, k: nat): Entry
    requires k < |ladder|
  {
    var t := ladder[k];
    Entry(TariffRow(t.origin, t.destination, t.minimum, UpperBound(ladder, k), None, Some(PRICE_SPLIT), t.low), Some(t.row))
  }

  function HighRow(ladder: seq<Tier>, k: nat): Entry
    requires k < |ladder|
  {
    var t := ladder[k];
    Entry(TariffRow(t.origin, t.destination, t.minimum, UpperBound(ladder, k), Some(PRICE_SPLIT), None, t.high), Some(t.row))
  }

  /** The rows of the first k tiers of a ladder: two price halves a tier. */
  function Rungs(ladder: seq<Tier>, k: nat): seq<Entry>
    requires k <= |ladder|
  {
    if k == 0 then [] else Rungs(ladder, k - 1) + [LowRow(ladder, k - 1), HighRow(ladder, k - 1)]
  }

  function Rows(tiers: seq<Tier>, routes: seq<Route>): seq<Entry> {
    if |routes| == 0 then []
    else
      var ladder := Ladder(tiers, routes[|routes| - 1]);
      Rows(tiers, routes[..|routes| - 1]) + Rungs(ladder, |ladder|)
  }

  function DistinctRoutes(tiers: seq<Tier>): (rs: seq<Route>)
    ensures forall r :: r in rs <==> exists t <- tiers :: RouteOf(t) == r
    ensures forall i, j :: 0 <= i < j < |rs| ==> rs[i] != rs[j]
  {
    if |tiers| == 0 then []
    else
      InitLast(tiers);
      var rest := DistinctRoutes(tiers[..|tiers| - 1]);
      var r := RouteOf(tiers[|tiers| - 1]);
      if r in rest then rest else rest + [r]
  }

  ghost predicate Grouped(grouped: map<Route, seq<Tier>>, tiers: seq<Tier>) {
    forall r: Route :: (if r in grouped then grouped[r] else []) == TiersOf(tiers, r)
  }

  method GroupTiers(tiers: seq<Tier>) returns (grouped: map<Route, seq<Tier>>)
    ensures Grouped(grouped, tiers)
  {
    grouped := map[];
    for i := 0 to |tiers|
      invariant Grouped(grouped, tiers[..i])
    {
      TakeTake(tiers, i);
      var r := RouteOf(tiers[i]);
      grouped := grouped[r := (if r in grouped then grouped[r] else []) + [tiers[i]]];
    }
    TakeAll(tiers);
  }

  method AppendRungs(rows: seq<Entry>, ladder: seq<Tier>) returns (r: seq<Entry>)
    requires SourcesAs(rows, true)
    ensures r == rows + Rungs(ladder, |ladder|) && SourcesAs(r, true)
  {
    r := rows;
    for k := 0 to |ladder|
      invariant r == rows + Rungs(ladder, k) && SourcesAs(r, true)
    {
      r := r + [LowRow(ladder, k), HighRow(ladder, k)];
    }
  }

  /** The routes of the tiers, each once and in order, and the tiers of each by their lower bound. */
  ghost predicate InOrder(tiers: seq<Tier>, routes: seq<Route>) {
    && NoDup(routes) && Sorted(routes, ByRoute)
    && (forall r :: r in routes <==> exists t <- tiers :: RouteOf(t) == r)
    && (forall r :: multiset(Ladder(tiers, r)) == multiset(TiersOf(tiers, r)) && Sorted(Ladder(tiers, r), ByMinimum))
  }

  lemma RoutesAreInOrder(tiers: seq<Tier>)
    ensures InOrder(tiers, Sort(DistinctRoutes(tiers), ByRoute))
  {
    var distinct := DistinctRoutes(tiers);
    ByRouteIsTotal();
    SortKeeps(distinct, ByRoute);
    SortElements(distinct, ByRoute);
    NoDupAmong(distinct, Sort(distinct, ByRoute));
    forall r ensures multiset(Ladder(tiers, r)) == multiset(TiersOf(tiers, r)) && Sorted(Ladder(tiers, r), ByMinimum) {
      SortKeeps(TiersOf(tiers, r), ByMinimum);
    }
  }

  /** `_import_fbo` from the parsed tiers on. */
  method ImportTiers(tiers: seq<Tier>) returns (t: TariffTable)
    ensures Aligned(t)
    ensures exists routes :: InOrder(tiers, routes) && Entries(t) == Rows(tiers, routes)
    ensures Entries(t) == Rows(tiers, Sort(DistinctRoutes(tiers), ByRoute))
  {
    RoutesAreInOrder(tiers);
    var grouped := GroupTiers(tiers);
    var routes := Sort(DistinctRoutes(tiers), ByRoute);
    var rows := ImportRoutes(tiers, grouped, routes);
    EntriesOfTable(rows, true);
    t := TableOf(rows, true);
  }

  /** The loop over the sorted routes. */
  method ImportRoutes(ghost tiers: seq<Tier>, grouped: map<Route, seq<Tier>>, routes: seq<Route>) returns (rows: seq<Entry>)
    requires Grouped(grouped, tiers)
    ensures rows == Rows(tiers, routes) && SourcesAs(rows, true)
  {
    rows := [];
    for i := 0 to |routes|
      invariant rows == Rows(tiers, routes[..i]) && SourcesAs(rows, true)
    {
      TakeTake(routes, i);
      rows := AppendRungs(rows, Sort(if routes[i] in grouped then grouped[routes[i]] else [], ByMinimum));
    }
    TakeAll(routes);
  }

  // ---- no route, volume and price is ambiguous ----

  lemma {:induction false} RouteEntriesConcat(a: seq<Entry>, b: seq<Entry>, origin: string, destination: string)
    ensures RouteEntries(a + b, origin, destination) == RouteEntries(a, origin, destination) + RouteEntries(b, origin, destination)
  {
    if |b| == 0 {
      assert a + b == a;
    } else {
      RouteEntriesConcat(a, b[..|b| - 1], origin, destination);
      ConcatInit(a, b);
    }
  }

  lemma {:induction false} RungsStayOnRoute(ladder: seq<Tier>, k: nat, r: Route)
    requires k <= |ladder| && forall t <- ladder :: RouteOf(t) == r
    ensures forall e <- Rungs(ladder, k) :: OnRoute(e.row, r.origin, r.destination)
  {
    if k > 0 {
      RungsStayOnRoute(ladder, k - 1, r);
      assert ladder[k - 1] in ladder;
    }
  }

  lemma {:induction false} NoneOnRoute(es: seq<Entry>, r: Route)
    requires forall e <- es :: !OnRoute(e.row, r.origin, r.destination)
    ensures RouteEntries(es, r.origin, r.destination) == []
  {
    if |es| > 0 {
      NoneOnRoute(es[..|es| - 1], r);
    }
  }

  lemma RungsOfRoute(tiers: seq<Tier>, own: Route, r: Route)
    ensures var ladder := Ladder(tiers, own);
      RouteEntries(Rungs(ladder, |ladder|), r.origin, r.destination) == if own == r then Rungs(ladder, |ladder|) else []
  {
    var ladder := Ladder(tiers, own);
    SortElements(TiersOf(tiers, own), ByMinimum);
    RungsStayOnRoute(ladder, |ladder|, own);
    if own == r {
      RouteEntriesFixed(Rungs(ladder, |ladder|), r.origin, r.destination);
    } else {
      NoneOnRoute(Rungs(ladder, |ladder|), r);
    }
  }

  lemma {:induction false} RowsOnRoute(tiers: seq<Tier>, routes: seq<Route>, r: Route)
    requires multiset(routes)[r] <= 1
    ensures var ladder := Ladder(tiers, r);
      RouteEntries(Rows(tiers, routes), r.origin, r.destination) == if r in routes then Rungs(ladder, |ladder|) else []
  {
    if |routes| > 0 {
      var init, last := routes[..|routes| - 1], routes[|routes| - 1];
      InitLast(routes);
      RowsOnRoute(tiers, init, r);
      var ladder := Ladder(tiers, last);
      RouteEntriesConcat(Rows(tiers, init), Rungs(ladder, |ladder|), r.origin, r.destination);
      RungsOfRoute(tiers, last, r);
      assert r in init <==> multiset(init)[r] > 0;
    }
  }

  lemma {:induction false} DistinctCounts(routes: seq<Route>, r: Route)
    requires forall i, j :: 0 <= i < j < |routes| ==> routes[i] != routes[j]
    ensures multiset(routes)[r] <= 1
  {
    if |routes| > 0 {
      InitLast(routes);
      DistinctCounts(routes[..|routes| - 1], r);
      assert routes[|routes| - 1] !in multiset(routes[..|routes| - 1]);
    }
  }

  /** How many tiers of a ladder start at or below a volume. */
  function Reach(ladder: seq<Tier>, volume: real): (m: nat)
    ensures m <= |ladder|
  {
    if |ladder| == 0 then 0
    else Reach(ladder[..|ladder| - 1], volume) + if ladder[|ladder| - 1].minimum <= volume then 1 else 0
  }

  lemma {:induction false} ReachIsAPrefix(ladder: seq<Tier>, volume: real)
    requires Sorted(ladder, ByMinimum)
    ensures forall k :: 0 <= k < |ladder| ==> (ladder[k].minimum <= volume <==> k < Reach(ladder, volume))
  {
    if |ladder| > 0 {
      var init := ladder[..|ladder| - 1];
      ReachIsAPrefix(init, volume);
      forall k | 0 <= k < |init| ensures ByMinimum(ladder[k], ladder[|ladder| - 1]) && init[k] == ladder[k] {
      }
    }
  }

  lemma VolumeSnoc(es: seq<Entry>, a: Entry, b: Entry, volume: real)
    ensures VolumeEntries(es + [a, b], volume) == VolumeEntries(es, volume)
      + (if InVolume(a.row, volume) then [a] else []) + (if InVolume(b.row, volume) then [b] else [])
  {
    SnocInit(es, a);
    assert (es + [a, b])[..|es| + 1] == es + [a];
  }

  lemma RungHolds(ladder: seq<Tier>, k: nat, volume: real)
    requires Sorted(ladder, ByMinimum) && k < |ladder|
    ensures InVolume(LowRow(ladder, k).row, volume) <==> Reach(ladder, volume) == k + 1
    ensures InVolume(HighRow(ladder, k).row, volume) <==> Reach(ladder, volume) == k + 1
  {
    ReachIsAPrefix(ladder, volume);
  }

  /** A rung is in force exactly when it is the highest one reached. */
  ghost predicate RungInForce(ladder: seq<Tier>, k: nat, volume: real)
    requires k < |ladder|
  {
    && (InVolume(LowRow(ladder, k).row, volume) <==> Reach(ladder, volume) == k + 1)
    && (InVolume(HighRow(ladder, k).row, volume) <==> Reach(ladder, volume) == k + 1)
  }

  lemma VolumeRungs(ladder: seq<Tier>, volume: real)
    requires Sorted(ladder, ByMinimum)
    ensures var m := Reach(ladder, volume);
      VolumeEntries(Rungs(ladder, |ladder|), volume) == if m > 0 then [LowRow(ladder, m - 1), HighRow(ladder, m - 1)] else []
  {
    forall k: nat | k < |ladder| ensures RungInForce(ladder, k, volume) {
      RungHolds(ladder, k, volume);
    }
    RungsUpTo(ladder, |ladder|, volume);
  }

  /** The rows in force among those of the first k tiers, when m tiers are reached. */
  function InForce(ladder: seq<Tier>, k: nat, m: nat): seq<Entry>
    requires k <= |ladder|
  {
    if 0 < m <= k then [LowRow(ladder, m - 1), HighRow(ladder, m - 1)] else []
  }

  lemma InForceNext(ladder: seq<Tier>, k: nat, m: nat)
    requires 0 < k <= |ladder|
    ensures InForce(ladder, k, m) == InForce(ladder, k - 1, m) + if m == k then [LowRow(ladder, k - 1), HighRow(ladder, k - 1)] else []
  {
  }

  lemma {:induction false} RungsUpTo(ladder: seq<Tier>, k: nat, volume: real)
    requires k <= |ladder| && forall i: nat :: i < |ladder| ==> RungInForce(ladder, i, volume)
    ensures VolumeEntries(Rungs(ladder, k), volume) == InForce(ladder, k, Reach(ladder, volume))
  {
    if k > 0 {
      RungsUpTo(ladder, k - 1, volume);
      VolumeRung(ladder, k, volume);
      InForceNext(ladder, k, Reach(ladder, volume));
    }
  }

  lemma VolumeRung(ladder: seq<Tier>, k: nat, volume: real)
    requires 0 < k <= |ladder| && RungInForce(ladder, k - 1, volume)
    ensures VolumeEntries(Rungs(ladder, k), volume) == VolumeEntries(Rungs(ladder, k - 1), volume)
      + if Reach(ladder, volume) == k then [LowRow(ladder, k - 1), HighRow(ladder, k - 1)] else []
  {
    VolumeSnoc(Rungs(ladder, k - 1), LowRow(ladder, k - 1), HighRow(ladder, k - 1), volume);
  }

  lemma PriceHalves(ladder: seq<Tier>, k: nat, price: Option<real>)
    requires k < |ladder|
    ensures PriceEntries([LowRow(ladder, k), HighRow(ladder, k)], price) ==
      if price.None? then [] else if price.value < PRICE_SPLIT then [LowRow(ladder, k)] else [HighRow(ladder, k)]
  {
    var es := [LowRow(ladder, k), HighRow(ladder, k)];
    assert es[..1] == [es[0]] && es[..1][..0] == [];
    assert PriceEntries([], price) == [];
    assert PriceEntries(es[..1], price) == if AtPrice(es[0].row, price) then [es[0]] else [];
  }

  ghost predicate Imported(tiers: seq<Tier>, t: TariffTable) {
    Aligned(t) && Entries(t) == Rows(tiers, Sort(DistinctRoutes(tiers), ByRoute))
  }

  lemma LadderFacts(tiers: seq<Tier>, r: Route)
    ensures Sorted(Ladder(tiers, r), ByMinimum)
    ensures forall t :: t in Ladder(tiers, r) <==> t in TiersOf(tiers, r)
  {
    SortKeeps(TiersOf(tiers, r), ByMinimum);
    SortElements(TiersOf(tiers, r), ByMinimum);
  }

  lemma SortedRoutes(tiers: seq<Tier>, r: Route)
    ensures var routes := Sort(DistinctRoutes(tiers), ByRoute);
      multiset(routes)[r] <= 1 && (r in routes <==> exists t <- tiers :: RouteOf(t) == r)
  {
    SortKeeps(DistinctRoutes(tiers), ByRoute);
    SortElements(DistinctRoutes(tiers), ByRoute);
    DistinctCounts(DistinctRoutes(tiers), r);
  }

  lemma ImportedRoute(tiers: seq<Tier>, t: TariffTable, r: Route)
    requires Imported(tiers, t)
    ensures var ladder := Ladder(tiers, r);
      RouteEntries(Entries(t), r.origin, r.destination) == Rungs(ladder, |ladder|)
  {
    var ladder := Ladder(tiers, r);
    var routes := Sort(DistinctRoutes(tiers), ByRoute);
    SortedRoutes(tiers, r);
    RowsOnRoute(tiers, routes, r);
    LadderFacts(tiers, r);
    if |ladder| > 0 {
      assert ladder[0] in TiersOf(tiers, r);
      assert ladder[0] in tiers && RouteOf(ladder[0]) == r;
    }
  }

  lemma ImportedCandidates(tiers: seq<Tier>, t: TariffTable, r: Route, volume: real)
    requires Imported(tiers, t)
    ensures var ladder := Ladder(tiers, r); var m := Reach(ladder, volume);
      Candidates(t, r.origin, r.destination, volume) ==
        if m > 0 then [LowRow(ladder, m - 1), HighRow(ladder, m - 1)] else []
  {
    var ladder := Ladder(tiers, r);
    ImportedRoute(tiers, t, r);
    LadderFacts(tiers, r);
    VolumeRungs(ladder, volume);
  }

  /** The tier in force at a volume: no other tier of the route starts later without passing it. */
  ghost predicate TierInForce(tiers: seq<Tier>, r: Route, volume: real, tier: Tier) {
    && tier in TiersOf(tiers, r) && tier.minimum <= volume
    && forall other <- TiersOf(tiers, r) :: other.minimum <= volume ==> other.minimum <= tier.minimum
  }

  predicate PricedBy(e: Entry, tier: Tier, price: real) {
    e.row.fee == (if price < 300.0 then tier.low else tier.high) && e.source == Some(tier.row)
  }

  lemma RungBelow(ladder: seq<Tier>, volume: real, tier: Tier)
    requires Sorted(ladder, ByMinimum) && tier in ladder && tier.minimum <= volume
    ensures var m := Reach(ladder, volume); m > 0 && tier.minimum <= ladder[m - 1].minimum
  {
    ReachIsAPrefix(ladder, volume);
    var m := Reach(ladder, volume);
    var k :| 0 <= k < |ladder| && ladder[k] == tier;
    assert k < m;
    if k < m - 1 {
      assert ByMinimum(ladder[k], ladder[m - 1]);
    }
  }

  lemma TierOnTop(ladder: seq<Tier>, volume: real)
    requires Sorted(ladder, ByMinimum)
    ensures var m := Reach(ladder, volume);
      && (m > 0 ==> ladder[m - 1] in ladder && ladder[m - 1].minimum <= volume)
      && forall tier <- ladder :: tier.minimum <= volume ==> m > 0 && tier.minimum <= ladder[m - 1].minimum
  {
    ReachIsAPrefix(ladder, volume);
    forall tier | tier in ladder && tier.minimum <= volume
      ensures var m := Reach(ladder, volume); m > 0 && tier.minimum <= ladder[m - 1].minimum
    {
      RungBelow(ladder, volume, tier);
    }
  }

  lemma TopRung(tiers: seq<Tier>, r: Route, volume: real)
    ensures var ladder := Ladder(tiers, r); var m := Reach(ladder, volume);
      && (m > 0 ==> TierInForce(tiers, r, volume, ladder[m - 1]))
      && (m == 0 ==> forall tier <- TiersOf(tiers, r) :: volume < tier.minimum)
  {
    LadderFacts(tiers, r);
    TierOnTop(Ladder(tiers, r), volume);
  }

  /** Imported tariffs are never ambiguous, even when tiers repeat a lower bound. Exactly one row
      matches when the price is known and some tier of the route starts at or below the volume:
      the row of a tier with the greatest such start, at the fee of its price half. */
  lemma ImportIsUnambiguous(tiers: seq<Tier>, t: TariffTable, r: Route, volume: real, price: Option<real>)
    requires Imported(tiers, t)
    ensures var ms := Matches(t, r.origin, r.destination, volume, price);
      && |ms| <= 1
      && (|ms| == 1 <==> price.Some? && exists tier <- TiersOf(tiers, r) :: tier.minimum <= volume)
      && (|ms| == 1 ==> exists tier :: TierInForce(tiers, r, volume, tier) && PricedBy(ms[0], tier, price.value))
  {
    var ladder := Ladder(tiers, r);
    var m := Reach(ladder, volume);
    ImportedCandidates(tiers, t, r, volume);
    TopRung(tiers, r, volume);
    if m > 0 {
      PriceHalves(ladder, m - 1, price);
      assert TierInForce(tiers, r, volume, ladder[m - 1]);
    }
  }

  /** Hence the import never makes the logistics lookup of a route ambiguous. */
  lemma ImportNeverAmbiguous(tiers: seq<Tier>, t: TariffTable, ctx: LogisticsContext, cell: RouteCell)
    requires Imported(tiers, t)
    ensures !Contribute(t, ctx, cell).status.Ambiguous?
  {
    ImportIsUnambiguous(tiers, t, Route(ctx.origin, cell.destination), ctx.volume, ctx.price);
  }
}
