/** Target prices over explicit routes and price-tiered tariffs (backend/economics/pricing.py).
    Logistics jump where a tariff row starts or stops matching the price; between two such
    boundaries a goal once met stays met, so one bisection per tier finds the least price. */
module Pricing {
  import opened Wrappers
  import opened Sequences
  import opened Text
  import opened Money
  import opened Tariffs
  import opened TariffIndex
  import opened UnitEconomics
  import opened Workspace

  /** One pricing question: the product, the settings and the goal that every route must meet. */
  datatype Query = Query(
    product: Product, settings: Settings, routes: seq<Route>, drr: real,
    goal: Goal, margin: real, roi: real)

  predicate ValidTariffs(t: TariffTable) {
    Aligned(t) && forall r <- t.records :: 0.0 <= r.fee
  }

  predicate ValidRoutes(routes: seq<Route>) {
    forall r <- routes :: !Blank(r.origin) && !Blank(r.destination)
  }

  /** Numbers in range and nonblank identities: anything else raises in the original. */
  predicate ValidInputs(q: Query) {
    && ValidProduct(q.product) && !Blank(q.product.sku)
    && ValidSettings(q.settings) && 0.0 <= q.drr && 0.0 <= q.margin && 0.0 <= q.roi
    && ValidRoutes(q.routes)
  }

  predicate ValidQuery(q: Query) {
    ValidInputs(q) && q.product.volume.Some? && 0.0 < q.product.volume.value
  }

  // ---- one route at one price ----

  function Probe(sku: string, route: Route): seq<RouteCell> {
    [RouteCell(sku, route.origin, route.destination, 1, 0, 1.0)]
  }

  function ProbeContext(p: Product, route: Route, price: real): LogisticsContext
    requires p.volume.Some?
  {
    LogisticsContext(p.sku, route.origin, p.volume.value, Some(price))
  }

  /** `_unit`, for any table that answers for the route. */
  function UnitOn(t: TariffTable, q: Query, route: Route, price: real, drr: real): (u: Result<Unit, UnitError>)
    requires q.product.volume.Some?
  {
    var l := ExpectedLogistics(Probe(q.product.sku, route), t, ProbeContext(q.product, route, price));
    if l.Err? then Err(BadNumber)
    else CalculateUnitEconomics(q.product.(price := Some(price)), route.origin, l.value, q.settings.(advertising := drr))
  }

  /** The fee of a route at a price, when exactly one row matches. */
  function Fee(t: TariffTable, q: Query, route: Route, price: real): (f: Option<real>)
    requires Aligned(t) && q.product.volume.Some?
  {
    var ms := Matches(t, route.origin, route.destination, q.product.volume.value, Some(price));
    if |ms| == 1 then Some(ms[0].row.fee) else None
  }

  lemma FeeIsNonnegative(t: TariffTable, q: Query, route: Route, price: real)
    requires ValidTariffs(t) && q.product.volume.Some? && Fee(t, q, route, price).Some?
    ensures 0.0 <= Fee(t, q, route, price).value
  {
    var e := Matches(t, route.origin, route.destination, q.product.volume.value, Some(price))[0];
    assert e in Entries(t);
    var i :| 0 <= i < |t.records| && Entries(t)[i] == e;
    assert e.row == t.records[i];
  }

  lemma ProbeLogistics(t: TariffTable, q: Query, route: Route, price: real)
    requires ValidTariffs(t) && ValidQuery(q) && 0.0 <= price && !Blank(route.origin) && !Blank(route.destination)
    ensures var l := ExpectedLogistics(Probe(q.product.sku, route), t, ProbeContext(q.product, route, price));
      && l.Ok? && l.value.sku == q.product.sku && l.value.origin == route.origin
      && l.value.expectedFee == Fee(t, q, route, price)
      && l.value.coverage.Complete? == l.value.expectedFee.Some?
  {
    var ctx := ProbeContext(q.product, route, price);
    var profile := Probe(q.product.sku, route);
    assert profile[..|profile| - 1] == [];
    var cells := Selected(profile, ctx);
    assert Selected([], ctx) == [];
    assert cells == [profile[0]];
    var cs := Contributions(t, ctx, cells);
    assert cs == [Contribute(t, ctx, profile[0])] && cs[..|cs| - 1] == [];
    assert CoveredFee(cs) == if cs[0].weighted.Some? then cs[0].weighted.value else 0.0;
    assert MatchedCount(cs) == if cs[0].status.Matched? then 1 else 0;
  }

  /** A valid route is always answered, and its profit is the closed formula at the route's fee. */
  lemma UnitOnRoute(t: TariffTable, q: Query, route: Route, price: real, drr: real)
    requires ValidTariffs(t) && ValidQuery(q) && 0.0 <= price && 0.0 <= drr && !Blank(route.origin) && !Blank(route.destination)
    ensures var u := UnitOn(t, q, route, price, drr); var fee := Fee(t, q, route, price); var p := q.product;
      && u.Ok?
      && (u.value.amounts.profit.Some? <==>
           p.cost.Some? && p.commissionRate.Some? && fee.Some? && Supported(q.settings.taxSystem))
      && (u.value.amounts.profit.Some? ==>
           u.value.amounts.profit.value == ProfitAtPrice(price, p.cost.value,
             DeliveryCost(fee.value, q.settings.fixedFee, q.settings.buyout), p.commissionRate.value,
             q.settings.(advertising := drr), drr))
  {
    ProbeLogistics(t, q, route, price);
    var fee := Fee(t, q, route, price);
    if fee.Some? {
      FeeIsNonnegative(t, q, route, price);
      var p := q.product.(price := Some(price));
      if p.cost.Some? && p.commissionRate.Some? && Supported(q.settings.taxSystem) {
        FormulaIsTheProfitLine(p, fee.value, q.settings.(advertising := drr));
      }
    }
  }

  // ---- the goal at whole-kopek prices ----

  /** The route's profit at n kopeks is known. */
  predicate RouteKnown(t: TariffTable, q: Query, r: Route, n: int)
    requires q.product.volume.Some?
  {
    var u := UnitOn(t, q, r, Kopeks(n), q.drr);
    u.Ok? && u.value.amounts.profit.Some?
  }

  /** The route's profit at n kopeks is known and reaches the goal. */
  predicate RouteMeets(t: TariffTable, q: Query, r: Route, n: int)
    requires q.product.volume.Some?
  {
    && RouteKnown(t, q, r, n) && q.product.cost.Some?
    && Required(q.goal, q.margin, q.roi, Kopeks(n), q.product.cost.value)
         <= UnitOn(t, q, r, Kopeks(n), q.drr).value.amounts.profit.value
  }

  /** Every route has complete economics and reaches the goal at n kopeks. */
  ghost predicate Good(t: TariffTable, q: Query, n: int)
    requires q.product.volume.Some?
  {
    forall r <- q.routes :: RouteMeets(t, q, r, n)
  }

  function Verdict(t: TariffTable, q: Query, r: Route, n: int): Option<bool>
    requires q.product.volume.Some?
  {
    if RouteKnown(t, q, r, n) then Some(RouteMeets(t, q, r, n)) else None
  }

  /** The first verdict that is not a plain yes decides. */
  function AllOf(vs: seq<Option<bool>>): (b: Option<bool>)
    ensures b == Some(true) <==> forall i :: 0 <= i < |vs| ==> vs[i] == Some(true)
    ensures b == None ==> exists i :: 0 <= i < |vs| && vs[i] == None
  {
    if |vs| == 0 then Some(true)
    else
      var b := AllOf(vs[..|vs| - 1]);
      if b == Some(true) then vs[|vs| - 1] else b
  }

  function Verdicts(t: TariffTable, q: Query, n: int): (vs: seq<Option<bool>>)
    requires q.product.volume.Some?
    ensures |vs| == |q.routes|
    ensures forall i :: 0 <= i < |vs| ==> vs[i] == Verdict(t, q, q.routes[i], n)
  {
    seq(|q.routes|, i requires 0 <= i < |q.routes| => Verdict(t, q, q.routes[i], n))
  }

  /** `meets`: unknown or false as soon as one route is. */
  function MeetsGoal(t: TariffTable, q: Query, n: int): Option<bool>
    requires q.product.volume.Some?
  {
    AllOf(Verdicts(t, q, n))
  }

  /** `meets` answers true exactly for the good prices; it answers None only for an unknown route. */
  lemma MeetsMeaning(t: TariffTable, q: Query, n: int)
    requires q.product.volume.Some?
    ensures MeetsGoal(t, q, n) == Some(true) <==> Good(t, q, n)
    ensures MeetsGoal(t, q, n) == None ==> exists r <- q.routes :: !RouteKnown(t, q, r, n)
  {
    var vs := Verdicts(t, q, n);
    forall i | 0 <= i < |vs| ensures vs[i] == Verdict(t, q, q.routes[i], n) && q.routes[i] in q.routes {
    }
  }

  // ---- tier boundaries ----

  predicate RowBound(row: TariffRow, x: int) {
    || (row.minPrice.Some? && x == MaxInt(1, Cents(row.minPrice.value)))
    || (row.maxPrice.Some? && x == MaxInt(1, Cents(row.maxPrice.value)))
  }

  ghost predicate BoundOfRoute(t: TariffTable, volume: real, r: Route, x: int)
    requires Aligned(t)
  {
    exists e <- Candidates(t, r.origin, r.destination, volume) :: RowBound(e.row, x)
  }

  ghost predicate BoundOfRoutes(t: TariffTable, volume: real, routes: seq<Route>, x: int)
    requires Aligned(t)
  {
    x == 1 || exists i :: 0 <= i < |routes| && BoundOfRoute(t, volume, routes[i], x)
  }

  ghost predicate IsBoundary(t: TariffTable, q: Query, x: int)
    requires Aligned(t) && q.product.volume.Some?
  {
    BoundOfRoutes(t, q.product.volume.value, q.routes, x)
  }

  /** No tier boundary lies above m up to n: the prices m..n share one tier. */
  ghost predicate SameTier(t: TariffTable, q: Query, m: int, n: int)
    requires Aligned(t) && q.product.volume.Some?
  {
    1 <= m <= n && forall x :: m < x <= n ==> !IsBoundary(t, q, x)
  }

  /** A row starts or stops matching only at its own rounded bounds. */
  lemma RowIsConstant(row: TariffRow, m: int, n: int)
    requires 1 <= m <= n && forall x :: m < x <= n ==> !RowBound(row, x)
    ensures AtPrice(row, Some(Kopeks(m))) == AtPrice(row, Some(Kopeks(n)))
  {
    if row.minPrice.Some? {
      KopeksReach(m, row.minPrice.value);
      KopeksReach(n, row.minPrice.value);
      assert RowBound(row, MaxInt(1, Cents(row.minPrice.value)));
    }
    if row.maxPrice.Some? {
      KopeksReach(m, row.maxPrice.value);
      KopeksReach(n, row.maxPrice.value);
      assert RowBound(row, MaxInt(1, Cents(row.maxPrice.value)));
    }
  }

  /** The boundaries are complete: within a tier a route keeps its fee, or keeps having none. */
  lemma FeeIsConstant(t: TariffTable, q: Query, route: Route, m: int, n: int)
    requires ValidTariffs(t) && q.product.volume.Some? && route in q.routes && SameTier(t, q, m, n)
    ensures Fee(t, q, route, Kopeks(m)) == Fee(t, q, route, Kopeks(n))
  {
    var es := Candidates(t, route.origin, route.destination, q.product.volume.value);
    forall e | e in es ensures AtPrice(e.row, Some(Kopeks(m))) == AtPrice(e.row, Some(Kopeks(n))) {
      forall x | m < x <= n ensures !RowBound(e.row, x) {
        assert !IsBoundary(t, q, x);
        assert !BoundOfRoute(t, q.product.volume.value, route, x);
      }
      RowIsConstant(e.row, m, n);
    }
    PriceEntriesAgree(es, Some(Kopeks(m)), Some(Kopeks(n)));
  }

  lemma DeliveryCostIsNonnegative(tariff: real, fixedFee: real, buyout: real)
    requires 0.0 <= tariff && 0.0 <= fixedFee && 0.0 < buyout <= 1.0
    ensures 0.0 <= DeliveryCost(tariff, fixedFee, buyout)
  {
    assert 1.0 / buyout >= 1.0;
    assert (1.0 / buyout - 1.0) * tariff >= 0.0;
  }

  /** Within a tier a route that is unknown stays unknown, and one that reaches the goal keeps it. */
  lemma RouteStaysGood(t: TariffTable, q: Query, route: Route, m: int, n: int)
    requires ValidTariffs(t) && ValidQuery(q) && route in q.routes && SameTier(t, q, m, n)
    ensures RouteKnown(t, q, route, m) == RouteKnown(t, q, route, n)
    ensures RouteMeets(t, q, route, m) ==> RouteMeets(t, q, route, n)
  {
    FeeIsConstant(t, q, route, m, n);
    UnitOnRoute(t, q, route, Kopeks(m), q.drr);
    UnitOnRoute(t, q, route, Kopeks(n), q.drr);
    if RouteMeets(t, q, route, m) {
      var fee := Fee(t, q, route, Kopeks(m));
      FeeIsNonnegative(t, q, route, Kopeks(m));
      DeliveryCostIsNonnegative(fee.value, q.settings.fixedFee, q.settings.buyout);
      GoalStaysMet(Kopeks(m), Kopeks(n), q.product.cost.value,
        DeliveryCost(fee.value, q.settings.fixedFee, q.settings.buyout), q.product.commissionRate.value,
        q.settings.(advertising := q.drr), q.drr, q.goal, q.margin, q.roi);
    }
  }

  lemma GoodStays(t: TariffTable, q: Query, m: int, n: int)
    requires ValidTariffs(t) && ValidQuery(q) && SameTier(t, q, m, n) && Good(t, q, m)
    ensures Good(t, q, n)
  {
    forall r | r in q.routes ensures RouteMeets(t, q, r, n) {
      RouteStaysGood(t, q, r, m, n);
    }
  }

  /** A tier whose first price has an unknown route holds no good price. */
  lemma UnknownTier(t: TariffTable, q: Query, m: int, n: int)
    requires ValidTariffs(t) && ValidQuery(q) && SameTier(t, q, m, n)
    requires MeetsGoal(t, q, m) == None
    ensures !Good(t, q, n)
  {
    MeetsMeaning(t, q, m);
    var r :| r in q.routes && !RouteKnown(t, q, r, m);
    RouteStaysGood(t, q, r, m, n);
  }

  /** If the last price looked at in a tier is bad, so is every earlier one of that tier. */
  lemma BadBelow(t: TariffTable, q: Query, lower: int, n: int)
    requires ValidTariffs(t) && ValidQuery(q) && SameTier(t, q, lower, n) && !Good(t, q, n)
    ensures forall m :: lower <= m <= n ==> !Good(t, q, m)
  {
    forall m | lower <= m <= n ensures !Good(t, q, m) {
      if Good(t, q, m) {
        GoodStays(t, q, m, n);
      }
    }
  }

  // ---- the search ----

  ghost predicate LeastGood(t: TariffTable, q: Query, n: int)
    requires q.product.volume.Some?
  {
    1 <= n && Good(t, q, n) && forall m :: 1 <= m < n ==> !Good(t, q, m)
  }

  ghost predicate GreatestBoundary(t: TariffTable, q: Query, top: int)
    requires Aligned(t) && q.product.volume.Some?
  {
    IsBoundary(t, q, top) && forall x :: IsBoundary(t, q, x) ==> x <= top
  }

  function MaxReal(a: real, b: real): real {
    if a < b then b else a
  }

  /** Where the growth in the last tier begins, given the first price of that tier. */
  function Guess(p: Product, top: int): int {
    MaxInt(top + 1, Cents(MaxReal(MaxReal(Or(p.price, 0.0), Or(p.cost, 0.0)), 1.0)))
  }

  /** The last price the growth tests: 39 doublings of the guess. */
  function SearchLimit(p: Product, top: int): int {
    Doubled(Guess(p, top), 39)
  }

  /** The answer of `_target`: the least good price among the tested range. */
  ghost predicate IsTarget(t: TariffTable, q: Query, top: int, r: Option<int>)
    requires q.product.volume.Some?
  {
    && (r.None? <==> forall n :: 1 <= n <= SearchLimit(q.product, top) ==> !Good(t, q, n))
    && (r.Some? ==> r.value <= SearchLimit(q.product, top) && LeastGood(t, q, r.value))
  }

  ghost predicate Increasing(xs: seq<int>) {
    forall i, j :: 0 <= i < j < |xs| ==> xs[i] < xs[j]
  }

  lemma HeadStaysLeast(xs: seq<int>, x: int, rest: seq<int>)
    requires |xs| > 0 && xs[0] < x && forall y :: y in rest <==> y == x || y in xs[1..]
    requires Increasing(xs[1..]) ==> Increasing(rest)
    ensures Increasing(xs) ==> Increasing([xs[0]] + rest)
  {
    if Increasing(xs) {
      forall i | 0 <= i < |rest| ensures xs[0] < rest[i] {
        assert rest[i] in rest;
      }
    }
  }

  /** `sorted` of the boundary set, one boundary at a time. */
  function Add(xs: seq<int>, x: int): (r: seq<int>)
    ensures forall y :: y in r <==> y == x || y in xs
    ensures Increasing(xs) ==> Increasing(r)
    ensures |r| > 0
  {
    if |xs| == 0 || x < xs[0] then [x] + xs
    else if x == xs[0] then xs
    else
      HeadTail(xs);
      var rest := Add(xs[1..], x);
      HeadStaysLeast(xs, x, rest);
      [xs[0]] + rest
  }

  method AddBounds(rows: seq<TariffRow>, starts: seq<int>) returns (r: seq<int>)
    requires Increasing(starts) && |starts| > 0
    ensures Increasing(r) && |r| > 0
    ensures forall x :: x in r <==> x in starts || exists j :: 0 <= j < |rows| && RowBound(rows[j], x)
  {
    r := starts;
    for k := 0 to |rows|
      invariant Increasing(r) && |r| > 0
      invariant forall x :: x in r <==> x in starts || exists j :: 0 <= j < k && RowBound(rows[j], x)
    {
      if rows[k].minPrice.Some? {
        r := Add(r, MaxInt(1, Cents(rows[k].minPrice.value)));
      }
      if rows[k].maxPrice.Some? {
        r := Add(r, MaxInt(1, Cents(rows[k].maxPrice.value)));
      }
    }
  }

  lemma BoundOfRows(t: TariffTable, r: Route, volume: real, x: int)
    requires Aligned(t)
    ensures var rows := RouteTable(t, r, volume).records;
      (exists j :: 0 <= j < |rows| && RowBound(rows[j], x)) <==> BoundOfRoute(t, volume, r, x)
  {
    var rows := RouteTable(t, r, volume).records;
    var es := Candidates(t, r.origin, r.destination, volume);
    forall j | 0 <= j < |rows| ensures rows[j] == es[j].row && es[j] in es {
    }
  }

  lemma BoundOfOneMore(t: TariffTable, volume: real, some: seq<Route>, r: Route, x: int)
    requires Aligned(t)
    ensures BoundOfRoutes(t, volume, some + [r], x) <==> BoundOfRoutes(t, volume, some, x) || BoundOfRoute(t, volume, r, x)
  {
    var all := some + [r];
    assert all[|some|] == r;
    forall i | 0 <= i < |some| && BoundOfRoute(t, volume, some[i], x) ensures BoundOfRoutes(t, volume, all, x) {
      assert all[i] == some[i];
    }
  }

  lemma BoundOfRoutesSnoc(t: TariffTable, volume: real, routes: seq<Route>, i: nat, rows: seq<TariffRow>, x: int)
    requires Aligned(t) && i < |routes| && rows == RouteTable(t, routes[i], volume).records
    ensures BoundOfRoutes(t, volume, routes[..i + 1], x) <==>
      BoundOfRoutes(t, volume, routes[..i], x) || exists j :: 0 <= j < |rows| && RowBound(rows[j], x)
  {
    BoundOfRows(t, routes[i], volume, x);
    TakeNext(routes, i);
    BoundOfOneMore(t, volume, routes[..i], routes[i], x);
  }

  /** The starts of the price tiers of a query, in increasing order. */
  method TierStarts(index: PricingTariffIndex, q: Query) returns (starts: seq<int>)
    requires index.Valid() && q.product.volume.Some?
    modifies index`byVolume
    ensures index.Valid()
    ensures Increasing(starts) && |starts| > 0
    ensures forall x :: x in starts <==> IsBoundary(index.tariffs, q, x)
  {
    ghost var t, volume := index.tariffs, q.product.volume.value;
    starts := [1];
    for i := 0 to |q.routes|
      invariant index.Valid() && Increasing(starts) && |starts| > 0
      invariant forall x :: x in starts <==> BoundOfRoutes(t, volume, q.routes[..i], x)
    {
      var rows := index.ForRoute(q.routes[i], q.product.volume.value);
      starts := AddBounds(rows.records, starts);
      forall x ensures x in starts <==> BoundOfRoutes(t, volume, q.routes[..i + 1], x) {
        BoundOfRoutesSnoc(t, volume, q.routes, i, rows.records, x);
      }
    }
    TakeAll(q.routes);
  }

  /** `_unit` through the index: the same unit as on the full tariff list. */
  method UnitVia(index: PricingTariffIndex, q: Query, route: Route, price: real, drr: real) returns (u: Result<Unit, UnitError>)
    requires index.Valid() && q.product.volume.Some?
    modifies index`byVolume
    ensures index.Valid() && u == UnitOn(index.tariffs, q, route, price, drr)
  {
    var rows := index.ForRoute(route, q.product.volume.value);
    IndexIsTransparent(Probe(q.product.sku, route), index.tariffs, ProbeContext(q.product, route, price), route);
    u := UnitOn(rows, q, route, price, drr);
  }

  /** One turn of the closure `meets`: no verdict, or whether the profit reaches the goal. */
  method VerdictVia(index: PricingTariffIndex, q: Query, route: Route, n: int) returns (v: Option<bool>)
    requires index.Valid() && q.product.volume.Some?
    requires q.goal.Roi? ==> q.product.cost.Some?
    modifies index`byVolume
    ensures index.Valid() && v == Verdict(index.tariffs, q, route, n)
  {
    var u := UnitVia(index, q, route, Kopeks(n), q.drr);
    if u.Err? || u.value.amounts.profit.None? {
      return None;
    }
    return Some(u.value.amounts.profit.value >= Required(q.goal, q.margin, q.roi, Kopeks(n), Or(q.product.cost, 0.0)));
  }

  /** The closure `meets` of `_target`, returning at the first route that decides. */
  method Meets(index: PricingTariffIndex, q: Query, n: int) returns (b: Option<bool>)
    requires index.Valid() && q.product.volume.Some?
    requires q.goal.Roi? ==> q.product.cost.Some?
    modifies index`byVolume
    ensures index.Valid() && b == MeetsGoal(index.tariffs, q, n)
  {
    ghost var vs := Verdicts(index.tariffs, q, n);
    b := Some(true);
    for i := 0 to |q.routes|
      invariant index.Valid() && b == Some(true) == AllOf(vs[..i])
    {
      b := VerdictVia(index, q, q.routes[i], n);
      AllOfNext(vs, i);
      if b != Some(true) {
        AllOfDecided(vs, i + 1);
        return;
      }
    }
    TakeAll(vs);
  }

  lemma AllOfNext(vs: seq<Option<bool>>, i: nat)
    requires i < |vs|
    ensures AllOf(vs[..i + 1]) == if AllOf(vs[..i]) == Some(true) then vs[i] else AllOf(vs[..i])
  {
    TakeTake(vs, i);
  }

  /** Once a prefix of the verdicts has decided, the rest changes nothing. */
  lemma {:induction false} AllOfDecided(vs: seq<Option<bool>>, k: nat)
    requires k <= |vs|
    ensures AllOf(vs[..k]) != Some(true) ==> AllOf(vs) == AllOf(vs[..k])
  {
    if k < |vs| {
      AllOfDecided(vs[..|vs| - 1], k);
      assert vs[..|vs| - 1][..k] == vs[..k];
    } else {
      assert vs[..k] == vs;
    }
  }

  /** The growth in the last tier: at most 40 prices are tested, each twice the one before. */
  method GrowInLastTier(index: PricingTariffIndex, q: Query, start: int) returns (found: bool, upper: int)
    requires index.Valid() && q.product.volume.Some? && 1 <= start
    requires q.goal.Roi? ==> q.product.cost.Some?
    modifies index`byVolume
    ensures index.Valid()
    ensures found ==> start <= upper <= Doubled(start, 39) && Good(index.tariffs, q, upper)
    ensures !found ==> !Good(index.tariffs, q, Doubled(start, 39))
  {
    ghost var t := index.tariffs;
    upper := start;
    for k := 0 to 40
      invariant index.Valid() && upper == Doubled(start, k)
      invariant k > 0 ==> !Good(t, q, Doubled(start, k - 1))
    {
      var status := Meets(index, q, upper);
      MeetsMeaning(t, q, upper);
      if status == Some(true) {
        DoubledGrows(start, k, 39);
        return true, upper;
      }
      upper := upper * 2;
    }
    return false, upper;
  }

  method BisectTier(index: PricingTariffIndex, q: Query, from: int, to: int) returns (upper: int)
    requires index.Valid() && ValidTariffs(index.tariffs) && ValidQuery(q)
    requires q.goal.Roi? ==> q.product.cost.Some?
    requires SameTier(index.tariffs, q, from, to) && Good(index.tariffs, q, to)
    modifies index`byVolume
    ensures index.Valid()
    ensures from <= upper <= to && Good(index.tariffs, q, upper)
    ensures forall m :: from <= m < upper ==> !Good(index.tariffs, q, m)
  {
    ghost var t := index.tariffs;
    var lower := from;
    upper := to;
    while lower < upper
      invariant index.Valid() && from <= lower <= upper <= to && Good(t, q, upper)
      invariant forall m :: from <= m < lower ==> !Good(t, q, m)
    {
      var mid := (lower + upper) / 2;
      var status := Meets(index, q, mid);
      MeetsMeaning(t, q, mid);
      if status == Some(true) {
        upper := mid;
      } else {
        assert SameTier(t, q, from, mid);
        BadBelow(t, q, from, mid);
        lower := mid + 1;
      }
    }
  }

  /** One turn of the tier loop: the least good price of the tier that starts at `lower`. A
      bounded tier is searched to its end, the last one up to the search limit. */
  method SearchTier(index: PricingTariffIndex, q: Query, lower: int, end: Option<int>) returns (r: Option<int>)
    requires index.Valid() && ValidTariffs(index.tariffs) && ValidQuery(q) && 1 <= lower
    requires q.goal.Roi? ==> q.product.cost.Some?
    requires end.Some? ==> SameTier(index.tariffs, q, lower, end.value)
    requires end.None? ==> forall n :: lower <= n ==> SameTier(index.tariffs, q, lower, n)
    modifies index`byVolume
    ensures index.Valid()
    ensures var last := if end.Some? then end.value else SearchLimit(q.product, lower);
      && (r.None? <==> forall m :: lower <= m <= last ==> !Good(index.tariffs, q, m))
      && (r.Some? ==> lower <= r.value <= last && Good(index.tariffs, q, r.value)
                      && forall m :: lower <= m < r.value ==> !Good(index.tariffs, q, m))
  {
    ghost var t := index.tariffs;
    ghost var last := if end.Some? then end.value else SearchLimit(q.product, lower);
    DoubledGrows(Guess(q.product, lower), 0, 39);
    assert SameTier(t, q, lower, last);
    var status := Meets(index, q, lower);
    MeetsMeaning(t, q, lower);
    if status == None {
      forall m | lower <= m <= last ensures !Good(t, q, m) {
        assert SameTier(t, q, lower, m);
        UnknownTier(t, q, lower, m);
      }
      return None;
    }
    if status == Some(true) {
      return Some(lower);
    }
    var upper: int;
    if end.Some? {
      upper := end.value;
    } else {
      var found: bool;
      found, upper := GrowInLastTier(index, q, Guess(q.product, lower));
      if !found {
        BadBelow(t, q, lower, last);
        return None;
      }
    }
    status := Meets(index, q, upper);
    MeetsMeaning(t, q, upper);
    if status != Some(true) {
      BadBelow(t, q, lower, last);
      return None;
    }
    upper := BisectTier(index, q, lower, upper);
    return Some(upper);
  }

  lemma NothingBetween(starts: seq<int>, k: nat, x: int)
    requires Increasing(starts) && k < |starts| && starts[k] < x && (k + 1 < |starts| ==> x < starts[k + 1])
    ensures x !in starts
  {
    forall i | 0 <= i < |starts| ensures starts[i] != x {
      assert i <= k ==> starts[i] <= starts[k];
      assert i > k ==> starts[k + 1] <= starts[i];
    }
  }

  lemma TierBetween(t: TariffTable, q: Query, starts: seq<int>, k: nat, n: int)
    requires Aligned(t) && q.product.volume.Some?
    requires Increasing(starts) && k < |starts| && 1 <= starts[0]
    requires forall x :: x in starts <==> IsBoundary(t, q, x)
    requires starts[k] <= n && (k + 1 < |starts| ==> n < starts[k + 1])
    ensures SameTier(t, q, starts[k], n)
  {
    forall x | starts[k] < x <= n ensures !IsBoundary(t, q, x) {
      NothingBetween(starts, k, x);
    }
    assert starts[0] <= starts[k];
  }

  lemma TierHolds(t: TariffTable, q: Query, starts: seq<int>, k: nat)
    requires Aligned(t) && q.product.volume.Some?
    requires Increasing(starts) && k < |starts| && 1 <= starts[0]
    requires forall x :: x in starts <==> IsBoundary(t, q, x)
    ensures forall n :: starts[k] <= n && (k + 1 < |starts| ==> n < starts[k + 1]) ==> SameTier(t, q, starts[k], n)
  {
    forall n | starts[k] <= n && (k + 1 < |starts| ==> n < starts[k + 1]) ensures SameTier(t, q, starts[k], n) {
      TierBetween(t, q, starts, k, n);
    }
  }

  // ---- the goal as a rate ----

  /** The route's economics at n kopeks are complete, and the profit is at least the wanted share of
      the price, or of the cost. */
  predicate EarnsRate(t: TariffTable, q: Query, r: Route, n: int)
    requires q.product.volume.Some?
  {
    var u := UnitOn(t, q, r, Kopeks(n), q.drr);
    u.Ok? && u.value.amounts.profit.Some? &&
    var a := u.value.amounts;
    match q.goal
    case Margin => a.margin.Some? && q.margin <= a.margin.value
    case Roi => a.roi.Some? && q.roi <= a.roi.value
  }

  lemma UnitReturns(t: TariffTable, q: Query, r: Route, n: int)
    requires ValidTariffs(t) && ValidQuery(q) && 1 <= n && !Blank(r.origin) && !Blank(r.destination) && RouteKnown(t, q, r, n)
    ensures q.product.cost.Some?
    ensures ReturnsAreRight(q.product.(price := Some(Kopeks(n))), UnitOn(t, q, r, Kopeks(n), q.drr).value.amounts)
  {
    UnitOnRoute(t, q, r, Kopeks(n), q.drr);
    ProbeLogistics(t, q, r, Kopeks(n));
    ReturnsMean(q.product.(price := Some(Kopeks(n))), Fee(t, q, r, Kopeks(n)).value, q.settings.(advertising := q.drr));
  }

  lemma AmountIsRate(q: Query, price: real, a: Amounts)
    requires 0.0 < price && q.product.cost.Some? && a.profit.Some?
    requires q.goal.Roi? ==> 0.0 < q.product.cost.value
    requires ReturnsAreRight(q.product.(price := Some(price)), a)
    ensures Required(q.goal, q.margin, q.roi, price, q.product.cost.value) <= a.profit.value <==>
      match q.goal
      case Margin => a.margin.Some? && q.margin <= a.margin.value
      case Roi => a.roi.Some? && q.roi <= a.roi.value
  {
    match q.goal
    case Margin => RateAndAmount(q.margin, price, a.profit.value);
    case Roi => RateAndAmount(q.roi, q.product.cost.value, a.profit.value);
  }

  lemma RouteMeetsMeansRate(t: TariffTable, q: Query, r: Route, n: int)
    requires ValidTariffs(t) && ValidQuery(q) && 1 <= n && !Blank(r.origin) && !Blank(r.destination)
    requires q.goal.Roi? ==> q.product.cost.Some? && 0.0 < q.product.cost.value
    ensures RouteMeets(t, q, r, n) <==> EarnsRate(t, q, r, n)
  {
    if RouteKnown(t, q, r, n) {
      UnitReturns(t, q, r, n);
      AmountIsRate(q, Kopeks(n), UnitOn(t, q, r, Kopeks(n), q.drr).value.amounts);
    }
  }

  /** At n kopeks every route earns the wanted rate. */
  ghost predicate AllEarn(t: TariffTable, q: Query, n: int)
    requires q.product.volume.Some?
  {
    forall r <- q.routes :: EarnsRate(t, q, r, n)
  }

  lemma GoodMeansEarning(t: TariffTable, q: Query, n: int)
    requires ValidTariffs(t) && ValidQuery(q) && 1 <= n
    requires q.goal.Roi? ==> q.product.cost.Some? && 0.0 < q.product.cost.value
    ensures Good(t, q, n) <==> AllEarn(t, q, n)
  {
    forall r | r in q.routes ensures RouteMeets(t, q, r, n) <==> EarnsRate(t, q, r, n) {
      RouteMeetsMeansRate(t, q, r, n);
    }
  }

  /** n is the least whole-kopek price at which every route earns the wanted rate. */
  ghost predicate LeastEarning(t: TariffTable, q: Query, n: int)
    requires q.product.volume.Some?
  {
    1 <= n && AllEarn(t, q, n) && forall m :: 1 <= m < n ==> !AllEarn(t, q, m)
  }

  lemma GuessCovers(p: Product, top: int)
    ensures var g := Guess(p, top);
      && top + 1 <= g && 1.0 <= Kopeks(g)
      && (p.price.Some? ==> p.price.value <= Kopeks(g)) && (p.cost.Some? ==> p.cost.value <= Kopeks(g))
      && (g == top + 1 || Kopeks(g - 1) < 1.0 || (p.price.Some? && Kopeks(g - 1) < p.price.value) || (p.cost.Some? && Kopeks(g - 1) < p.cost.value))
  {
    var most := MaxReal(MaxReal(Or(p.price, 0.0), Or(p.cost, 0.0)), 1.0);
    assert most == 1.0 || (p.price.Some? && most == p.price.value) || (p.cost.Some? && most == p.cost.value);
    assert p.price.Some? ==> p.price.value <= most;
    assert p.cost.Some? ==> p.cost.value <= most;
    assert Kopeks(Cents(most) - 1) < most <= Kopeks(Cents(most)) <= Kopeks(Guess(p, top));
  }

  /** How far the search looks: 39 doublings of the least price that lies above the start of the last
      tier and reaches the price, the cost and a rouble. */
  lemma SearchReaches(p: Product, top: int)
    ensures var g := Guess(p, top);
      && SearchLimit(p, top) == 0x80_0000_0000 * g
      && top + 1 <= g && 1.0 <= Kopeks(g)
      && (p.price.Some? ==> p.price.value <= Kopeks(g)) && (p.cost.Some? ==> p.cost.value <= Kopeks(g))
      && (g == top + 1 || Kopeks(g - 1) < 1.0 || (p.price.Some? && Kopeks(g - 1) < p.price.value) || (p.cost.Some? && Kopeks(g - 1) < p.cost.value))
  {
    DoubledIsTimes(Guess(p, top), 39);
    ThirtyNineDoublings();
    GuessCovers(p, top);
  }

  lemma TargetEarns(t: TariffTable, q: Query, top: int, r: Option<int>)
    requires ValidTariffs(t) && ValidQuery(q) && IsTarget(t, q, top, r)
    requires q.goal.Roi? ==> q.product.cost.Some? && 0.0 < q.product.cost.value
    ensures r.None? <==> forall n :: 1 <= n <= SearchLimit(q.product, top) ==> !AllEarn(t, q, n)
    ensures r.Some? ==> r.value <= SearchLimit(q.product, top) && LeastEarning(t, q, r.value)
  {
    forall n | 1 <= n ensures Good(t, q, n) <==> AllEarn(t, q, n) {
      GoodMeansEarning(t, q, n);
    }
  }

  /** `_target`: the least whole-kopek price at which every route has complete economics and meets
      the goal, over all price tiers. None is returned exactly when no price up to the last one
      tested is good, or the ROI has no cost to refer to. */
  method Target(index: PricingTariffIndex, q: Query) returns (r: Option<int>)
    requires index.Valid() && ValidTariffs(index.tariffs) && ValidQuery(q)
    modifies index`byVolume
    ensures index.Valid()
    ensures q.goal.Roi? && (q.product.cost.None? || q.product.cost.value <= 0.0) ==> r.None?
    ensures !(q.goal.Roi? && (q.product.cost.None? || q.product.cost.value <= 0.0)) ==>
      exists top :: GreatestBoundary(index.tariffs, q, top) && IsTarget(index.tariffs, q, top, r)
        && (r.None? <==> forall n :: 1 <= n <= SearchLimit(q.product, top) ==> !AllEarn(index.tariffs, q, n))
        && (r.Some? ==> LeastEarning(index.tariffs, q, r.value))
  {
    if q.goal.Roi? && (q.product.cost.None? || q.product.cost.value <= 0.0) {
      return None;
    }
    var starts := TierStarts(index, q);
    StartsFacts(index.tariffs, q, starts);
    r := SearchTiers(index, q, starts);
    TargetEarns(index.tariffs, q, starts[|starts| - 1], r);
  }

  lemma EndsBound(starts: seq<int>, x: int)
    requires Increasing(starts) && x in starts
    ensures |starts| > 0 && starts[0] <= x <= starts[|starts| - 1]
  {
    var i :| 0 <= i < |starts| && starts[i] == x;
    assert i == 0 || starts[0] < starts[i];
    assert i == |starts| - 1 || starts[i] < starts[|starts| - 1];
  }

  lemma StartsFacts(t: TariffTable, q: Query, starts: seq<int>)
    requires Aligned(t) && q.product.volume.Some?
    requires Increasing(starts) && |starts| > 0 && forall x :: x in starts <==> IsBoundary(t, q, x)
    requires forall x <- starts :: 1 <= x
    ensures starts[0] == 1 && GreatestBoundary(t, q, starts[|starts| - 1])
  {
    var last := starts[|starts| - 1];
    assert starts[0] in starts && last in starts;
    assert IsBoundary(t, q, 1) && 1 in starts;
    EndsBound(starts, 1);
    forall x | x in starts ensures x <= last {
      EndsBound(starts, x);
    }
  }

  /** The loop over the tiers. */
  method SearchTiers(index: PricingTariffIndex, q: Query, starts: seq<int>) returns (r: Option<int>)
    requires index.Valid() && ValidTariffs(index.tariffs) && ValidQuery(q)
    requires !(q.goal.Roi? && (q.product.cost.None? || q.product.cost.value <= 0.0))
    requires Increasing(starts) && |starts| > 0 && starts[0] == 1 && forall x :: x in starts <==> IsBoundary(index.tariffs, q, x)
    modifies index`byVolume
    ensures index.Valid()
    ensures IsTarget(index.tariffs, q, starts[|starts| - 1], r)
  {
    ghost var t := index.tariffs;
    ghost var top := starts[|starts| - 1];
    DoubledGrows(Guess(q.product, top), 0, 39);
    for k := 0 to |starts|
      invariant index.Valid()
      invariant k < |starts| ==> forall n :: 1 <= n < starts[k] ==> !Good(t, q, n)
      invariant k == |starts| ==> forall n :: 1 <= n <= SearchLimit(q.product, top) ==> !Good(t, q, n)
    {
      var end := if k + 1 < |starts| then Some(starts[k + 1] - 1) else None;
      TierHolds(t, q, starts, k);
      r := SearchTier(index, q, starts[k], end);
      if r.Some? {
        assert IsTarget(t, q, top, r);
        return;
      }
    }
    assert IsTarget(t, q, top, None);
    return None;
  }
}
