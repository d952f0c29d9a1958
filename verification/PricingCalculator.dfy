/** `calculate_pricing` and its memo table (backend/economics/pricing.py). */
module PricingCalculator {
  import opened Wrappers
  import opened Sequences
  import opened Money
  import opened Tariffs
  import opened TariffIndex
  import opened UnitEconomics
  import opened Workspace
  import opened Pricing

  datatype Reasons = Codes(codes: set<Blocker>) | MissingVolume | NoRoutes

  datatype RouteFigures = RouteFigures(
    route: Route, profit: Option<real>, beforeAds: Option<real>, logistics: Option<real>,
    margin: Option<real>, roi: Option<real>, blockers: seq<Blocker>)

  datatype PricingResult = PricingResult(
    profit: Option<real>, beforeAds: Option<real>, margin: Option<real>, roi: Option<real>,
    target: Option<int>, targetLogistics: Option<real>, limitingRoute: Option<Route>,
    lineItems: Option<Amounts>, reasons: Reasons, routes: seq<RouteFigures>)

  function Empty(reasons: Reasons): PricingResult {
    PricingResult(None, None, None, None, None, None, None, None, reasons, [])
  }

  /** `dict.fromkeys`: the first occurrence of every route, in order. */
  function Distinct(routes: seq<Route>): (r: seq<Route>)
    ensures forall x :: x in r <==> x in routes
    ensures forall i, j :: 0 <= i < j < |r| ==> r[i] != r[j]
  {
    if |routes| == 0 then []
    else
      var rest := Distinct(routes[..|routes| - 1]);
      InitLast(routes);
      if routes[|routes| - 1] in rest then rest else rest + [routes[|routes| - 1]]
  }

  function UnitAt(t: TariffTable, q: Query, r: Route, price: real, drr: real): Unit
    requires ValidTariffs(t) && ValidQuery(q) && r in q.routes && 0.0 <= price && 0.0 <= drr
  {
    UnitOnRoute(t, q, r, price, drr);
    UnitOn(t, q, r, price, drr).value
  }

  function UnitsAt(t: TariffTable, q: Query, price: real, drr: real): (us: seq<Amounts>)
    requires ValidTariffs(t) && ValidQuery(q) && 0.0 <= price && 0.0 <= drr
    ensures |us| == |q.routes|
  {
    seq(|q.routes|, i requires 0 <= i < |q.routes| => UnitAt(t, q, q.routes[i], price, drr).amounts)
  }

  function BlockersAt(t: TariffTable, q: Query, price: real): (bs: seq<seq<Blocker>>)
    requires ValidTariffs(t) && ValidQuery(q) && 0.0 <= price
    ensures |bs| == |q.routes|
  {
    seq(|q.routes|, i requires 0 <= i < |q.routes| => UnitAt(t, q, q.routes[i], price, q.drr).blockers)
  }

  predicate AllKnown(us: seq<Amounts>) {
    forall u <- us :: u.profit.Some?
  }

  function Profits(us: seq<Amounts>): (ps: seq<real>)
    ensures |ps| == |us|
  {
    seq(|us|, i requires 0 <= i < |us| => Or(us[i].profit, 0.0))
  }

  /** `min(range(n), key=…)`: the first position of the smallest value. */
  function ArgMin(xs: seq<real>): (k: nat)
    requires |xs| > 0
    ensures k < |xs|
    ensures forall i :: 0 <= i < |xs| ==> xs[k] <= xs[i]
    ensures forall i :: 0 <= i < k ==> xs[k] < xs[i]
  {
    if |xs| == 1 then 0
    else
      var k := ArgMin(xs[..|xs| - 1]);
      if xs[|xs| - 1] < xs[k] then |xs| - 1 else k
  }

  function FiguresOf(q: Query, units: seq<Amounts>, before: seq<Amounts>, blockers: seq<seq<Blocker>>): PricingResult
    requires |units| == |before| == |blockers| == |q.routes| > 0
  {
    var worst := units[ArgMin(Profits(units))];
    var known := AllKnown(units);
    PricingResult(
      if known then worst.profit else None,
      if AllKnown(before) then before[ArgMin(Profits(before))].profit else None,
      if known then worst.margin else None, if known then worst.roi else None,
      None, None, None, if known then Some(worst) else None,
      Codes(set bs <- blockers, b <- bs :: b),
      seq(|q.routes|, i requires 0 <= i < |q.routes| =>
        RouteFigures(q.routes[i], units[i].profit, before[i].profit, units[i].logistics, units[i].margin, units[i].roi, blockers[i])))
  }

  /** The part of the result at the current price. */
  function CurrentFigures(t: TariffTable, q: Query): PricingResult
    requires ValidTariffs(t) && ValidQuery(q) && |q.routes| > 0
  {
    if q.product.price.None? then Empty(Codes({}))
    else
      var price := q.product.price.value;
      FiguresOf(q, UnitsAt(t, q, price, q.drr), UnitsAt(t, q, price, 0.0), BlockersAt(t, q, price))
  }

  function Surpluses(q: Query, us: seq<Amounts>, price: real): (xs: seq<real>)
    ensures |xs| == |us|
  {
    var required := Required(q.goal, q.margin, q.roi, price, Or(q.product.cost, 0.0));
    seq(|us|, i requires 0 <= i < |us| => Or(us[i].profit, 0.0) - required)
  }

  function WithTarget(t: TariffTable, q: Query, r: PricingResult, target: Option<int>): PricingResult
    requires ValidTariffs(t) && ValidQuery(q) && |q.routes| > 0 && (target.Some? ==> 0 <= target.value)
  {
    if target.None? then r.(target := None)
    else
      var price := Kopeks(target.value);
      var units := UnitsAt(t, q, price, q.drr);
      var k := ArgMin(Surpluses(q, units, price));
      r.(target := target, targetLogistics := units[k].logistics, limitingRoute := Some(q.routes[k]))
  }

  /** What `_target` answers for a query. */
  ghost predicate TargetAnswer(t: TariffTable, q: Query, r: Option<int>)
    requires ValidTariffs(t) && ValidQuery(q)
  {
    if q.goal.Roi? && (q.product.cost.None? || q.product.cost.value <= 0.0) then r.None?
    else exists top :: GreatestBoundary(t, q, top) && IsTarget(t, q, top, r)
  }

  predicate Solvable(q: Query, solve: bool) {
    solve && q.product.cost.Some? && q.product.commissionRate.Some?
  }

  /** The unmemoized result on the full tariff list, for routes already made distinct. */
  ghost predicate IsPricing(t: TariffTable, q: Query, solve: bool, r: PricingResult)
    requires ValidTariffs(t) && ValidInputs(q)
  {
    if q.product.volume.None? || q.product.volume.value <= 0.0 then r == Empty(MissingVolume)
    else if |q.routes| == 0 then r == Empty(NoRoutes)
    else if !Solvable(q, solve) then r == CurrentFigures(t, q)
    else
      exists target: Option<int> :: TargetAnswer(t, q, target) && (target.Some? ==> 0 <= target.value)
        && r == WithTarget(t, q, CurrentFigures(t, q), target)
  }

  lemma SameLeast(t: TariffTable, q: Query, top: int, r: Option<int>, r': Option<int>)
    requires q.product.volume.Some? && IsTarget(t, q, top, r) && IsTarget(t, q, top, r')
    ensures r == r'
  {
    if r.Some? && r'.Some? {
      assert LeastGood(t, q, r.value) && LeastGood(t, q, r'.value);
    }
  }

  lemma SameTop(t: TariffTable, q: Query, a: int, b: int)
    requires Aligned(t) && q.product.volume.Some? && GreatestBoundary(t, q, a) && GreatestBoundary(t, q, b)
    ensures a == b
  {
  }

  lemma TargetIsUnique(t: TariffTable, q: Query, r: Option<int>, r': Option<int>)
    requires ValidTariffs(t) && ValidQuery(q) && TargetAnswer(t, q, r) && TargetAnswer(t, q, r')
    ensures r == r'
  {
    if !(q.goal.Roi? && (q.product.cost.None? || q.product.cost.value <= 0.0)) {
      var top :| GreatestBoundary(t, q, top) && IsTarget(t, q, top, r);
      var top' :| GreatestBoundary(t, q, top') && IsTarget(t, q, top', r');
      SameTop(t, q, top, top');
      SameLeast(t, q, top, r, r');
    }
  }

  /** A query has one result: the memo and the index cannot disagree with a fresh calculation. */
  lemma PricingIsUnique(t: TariffTable, q: Query, solve: bool, r: PricingResult, r': PricingResult)
    requires ValidTariffs(t) && ValidInputs(q) && IsPricing(t, q, solve, r) && IsPricing(t, q, solve, r')
    ensures r == r'
  {
    if q.product.volume.Some? && 0.0 < q.product.volume.value && |q.routes| > 0 && Solvable(q, solve) {
      var x: Option<int> :| TargetAnswer(t, q, x) && (x.Some? ==> 0 <= x.value) && r == WithTarget(t, q, CurrentFigures(t, q), x);
      var y: Option<int> :| TargetAnswer(t, q, y) && (y.Some? ==> 0 <= y.value) && r' == WithTarget(t, q, CurrentFigures(t, q), y);
      TargetIsUnique(t, q, x, y);
    }
  }

  // ---- the result does not depend on the identity of the product ----

  // ---- what the result says ----

  /** Route k has the least known profit of all routes at a price. */
  ghost predicate Worst(t: TariffTable, q: Query, price: real, drr: real, k: nat)
    requires q.product.volume.Some? && k < |q.routes|
  {
    forall i :: 0 <= i < |q.routes| ==> NoBetter(t, q, price, drr, k, i)
  }

  predicate NoBetter(t: TariffTable, q: Query, price: real, drr: real, k: nat, i: nat)
    requires q.product.volume.Some? && k < |q.routes| && i < |q.routes|
  {
    var a, b := UnitOn(t, q, q.routes[k], price, drr), UnitOn(t, q, q.routes[i], price, drr);
    && a.Ok? && b.Ok? && a.value.amounts.profit.Some? && b.value.amounts.profit.Some?
    && a.value.amounts.profit.value <= b.value.amounts.profit.value
  }

  lemma LeastProfit(us: seq<Amounts>, k: nat)
    requires AllKnown(us) && k < |us| && forall i :: 0 <= i < |us| ==> Profits(us)[k] <= Profits(us)[i]
    ensures forall i :: 0 <= i < |us| ==> us[k].profit.Some? && us[i].profit.Some? && us[k].profit.value <= us[i].profit.value
  {
    forall i | 0 <= i < |us| ensures us[k].profit.Some? && us[i].profit.Some? && us[k].profit.value <= us[i].profit.value {
      assert us[k] in us && us[i] in us;
      assert Profits(us)[k] <= Profits(us)[i];
    }
  }

  lemma UnitsCompare(t: TariffTable, q: Query, price: real, drr: real, k: nat, i: nat)
    requires ValidTariffs(t) && ValidQuery(q) && 0.0 <= price && 0.0 <= drr && k < |q.routes| && i < |q.routes|
    requires var us := UnitsAt(t, q, price, drr); us[k].profit.Some? && us[i].profit.Some? && us[k].profit.value <= us[i].profit.value
    ensures NoBetter(t, q, price, drr, k, i)
  {
    UnitOnRoute(t, q, q.routes[k], price, drr);
    UnitOnRoute(t, q, q.routes[i], price, drr);
  }

  lemma WorstOfUnits(t: TariffTable, q: Query, price: real, drr: real, k: nat)
    requires ValidTariffs(t) && ValidQuery(q) && 0.0 <= price && 0.0 <= drr && k < |q.routes|
    requires var us := UnitsAt(t, q, price, drr); AllKnown(us) && forall i :: 0 <= i < |us| ==> Profits(us)[k] <= Profits(us)[i]
    ensures Worst(t, q, price, drr, k)
  {
    LeastProfit(UnitsAt(t, q, price, drr), k);
    forall i | 0 <= i < |q.routes| ensures NoBetter(t, q, price, drr, k, i) {
      UnitsCompare(t, q, price, drr, k, i);
    }
  }

  /** The figures of a result are those of a route with the least profit. */
  ghost predicate ShowsWorst(t: TariffTable, q: Query, price: real, k: nat, r: PricingResult)
    requires q.product.volume.Some? && k < |q.routes|
  {
    && Worst(t, q, price, q.drr, k) && UnitOn(t, q, q.routes[k], price, q.drr).Ok?
    && var a := UnitOn(t, q, q.routes[k], price, q.drr).value.amounts;
      r.profit == a.profit && r.margin == a.margin && r.roi == a.roi && r.lineItems == Some(a)
  }

  lemma CurrentIsWorst(t: TariffTable, q: Query) returns (k: nat)
    requires ValidTariffs(t) && ValidQuery(q) && |q.routes| > 0 && q.product.price.Some?
    requires CurrentFigures(t, q).profit.Some? || CurrentFigures(t, q).lineItems.Some?
    ensures k < |q.routes| && ShowsWorst(t, q, q.product.price.value, k, CurrentFigures(t, q))
  {
    var price := q.product.price.value;
    var us := UnitsAt(t, q, price, q.drr);
    k := ArgMin(Profits(us));
    WorstOfUnits(t, q, price, q.drr, k);
    UnitOnRoute(t, q, q.routes[k], price, q.drr);
  }

  lemma BeforeAdsIsWorst(t: TariffTable, q: Query) returns (k: nat)
    requires ValidTariffs(t) && ValidQuery(q) && |q.routes| > 0 && q.product.price.Some? && CurrentFigures(t, q).beforeAds.Some?
    ensures k < |q.routes| && Worst(t, q, q.product.price.value, 0.0, k)
    ensures var u := UnitOn(t, q, q.routes[k], q.product.price.value, 0.0); u.Ok? && CurrentFigures(t, q).beforeAds == u.value.amounts.profit
  {
    var price := q.product.price.value;
    k := ArgMin(Profits(UnitsAt(t, q, price, 0.0)));
    WorstOfUnits(t, q, price, 0.0, k);
    UnitOnRoute(t, q, q.routes[k], price, 0.0);
  }

  /** What the target price brings: the limiting route is one with the least profit at that price,
      and the logistics shown are its own. */
  ghost predicate ShowsLimit(t: TariffTable, q: Query, r: PricingResult, k: nat)
    requires q.product.volume.Some? && k < |q.routes|
  {
    && r.target.Some? && r.limitingRoute == Some(q.routes[k])
    && Worst(t, q, Kopeks(r.target.value), q.drr, k) && UnitOn(t, q, q.routes[k], Kopeks(r.target.value), q.drr).Ok?
    && r.targetLogistics == UnitOn(t, q, q.routes[k], Kopeks(r.target.value), q.drr).value.amounts.logistics
  }

  lemma LeastSurplus(q: Query, us: seq<Amounts>, price: real, k: nat)
    requires k < |us| && forall i :: 0 <= i < |us| ==> Surpluses(q, us, price)[k] <= Surpluses(q, us, price)[i]
    ensures forall i :: 0 <= i < |us| ==> Profits(us)[k] <= Profits(us)[i]
  {
    forall i | 0 <= i < |us| ensures Profits(us)[k] <= Profits(us)[i] {
      assert Surpluses(q, us, price)[k] <= Surpluses(q, us, price)[i];
    }
  }

  lemma KnownAtTarget(t: TariffTable, q: Query, n: int)
    requires ValidTariffs(t) && ValidQuery(q) && 0 <= n && Good(t, q, n)
    ensures AllKnown(UnitsAt(t, q, Kopeks(n), q.drr))
  {
    var us := UnitsAt(t, q, Kopeks(n), q.drr);
    forall u | u in us ensures u.profit.Some? {
      var i :| 0 <= i < |us| && us[i] == u;
      assert RouteMeets(t, q, q.routes[i], n);
    }
  }

  lemma TargetShowsLimit(t: TariffTable, q: Query, r: PricingResult, target: int) returns (k: nat)
    requires ValidTariffs(t) && ValidQuery(q) && |q.routes| > 0 && 0 <= target && Good(t, q, target)
    ensures k < |q.routes| && ShowsLimit(t, q, WithTarget(t, q, r, Some(target)), k)
  {
    var price := Kopeks(target);
    var us := UnitsAt(t, q, price, q.drr);
    k := ArgMin(Surpluses(q, us, price));
    LeastSurplus(q, us, price, k);
    KnownAtTarget(t, q, target);
    WorstOfUnits(t, q, price, q.drr, k);
    UnitOnRoute(t, q, q.routes[k], price, q.drr);
  }

  /** A pricing result shows the worst route at the current price, and at the target price the route
      that limits it; without a target there is neither limiting route nor logistics. */
  lemma ProfitIsShown(t: TariffTable, q: Query)
    requires ValidTariffs(t) && ValidQuery(q) && |q.routes| > 0 && q.product.price.Some?
    requires forall r <- q.routes :: UnitOn(t, q, r, q.product.price.value, q.drr).Ok? && UnitOn(t, q, r, q.product.price.value, q.drr).value.amounts.profit.Some?
    ensures CurrentFigures(t, q).profit.Some?
  {
    var us := UnitsAt(t, q, q.product.price.value, q.drr);
    forall u | u in us ensures u.profit.Some? {
      var i :| 0 <= i < |us| && us[i] == u;
      assert q.routes[i] in q.routes;
    }
    assert us[ArgMin(Profits(us))] in us;
  }

  /** The profit before advertising is the least of the routes without advertising. */
  ghost predicate ShowsBeforeAds(t: TariffTable, q: Query, price: real, k: nat, r: PricingResult)
    requires q.product.volume.Some? && k < |q.routes|
  {
    && Worst(t, q, price, 0.0, k) && UnitOn(t, q, q.routes[k], price, 0.0).Ok?
    && r.beforeAds == UnitOn(t, q, q.routes[k], price, 0.0).value.amounts.profit
  }

  /** A pricing result shows the worst route at the current price whenever every route is known, and
      at the target price the route that limits it; without a target there is neither. */
  lemma ResultShowsWorst(t: TariffTable, q: Query, solve: bool, r: PricingResult)
    requires ValidTariffs(t) && ValidQuery(q) && |q.routes| > 0 && IsPricing(t, q, solve, r)
    ensures r.profit.Some? ==> q.product.price.Some? && exists k: nat :: k < |q.routes| && ShowsWorst(t, q, q.product.price.value, k, r)
    ensures r.beforeAds.Some? ==> q.product.price.Some? && exists k: nat :: k < |q.routes| && ShowsBeforeAds(t, q, q.product.price.value, k, r)
    ensures q.product.price.Some? && r.profit.None? ==>
      exists x <- q.routes :: !UnitOn(t, q, x, q.product.price.value, q.drr).Ok? || UnitOn(t, q, x, q.product.price.value, q.drr).value.amounts.profit.None?
    ensures r.target.Some? ==> exists k: nat :: k < |q.routes| && ShowsLimit(t, q, r, k)
    ensures r.target.None? ==> r.limitingRoute.None? && r.targetLogistics.None?
  {
    if r.profit.Some? {
      var k := CurrentIsWorst(t, q);
      assert ShowsWorst(t, q, q.product.price.value, k, r);
    } else if q.product.price.Some? {
      if forall x <- q.routes :: UnitOn(t, q, x, q.product.price.value, q.drr).Ok? && UnitOn(t, q, x, q.product.price.value, q.drr).value.amounts.profit.Some? {
        ProfitIsShown(t, q);
      }
    }
    if r.beforeAds.Some? {
      var k := BeforeAdsIsWorst(t, q);
      assert ShowsBeforeAds(t, q, q.product.price.value, k, r);
    }
    if r.target.Some? {
      var target: Option<int> :| TargetAnswer(t, q, target) && (target.Some? ==> 0 <= target.value)
        && r == WithTarget(t, q, CurrentFigures(t, q), target);
      var k := TargetShowsLimit(t, q, CurrentFigures(t, q), target.value);
    }
  }

  /** Two queries that differ only in SKU, article and stock. */
  predicate SameMoney(q: Query, q': Query) {
    q' == q.(product := q.product.(sku := q'.product.sku, article := q'.product.article, available := q'.product.available))
  }

  lemma UnitIgnoresSku(t: TariffTable, q: Query, q': Query, r: Route, price: real, drr: real)
    requires ValidTariffs(t) && ValidQuery(q) && ValidQuery(q') && SameMoney(q, q')
    requires r in q.routes && 0.0 <= price && 0.0 <= drr
    ensures UnitAt(t, q, r, price, drr).amounts == UnitAt(t, q', r, price, drr).amounts
    ensures UnitAt(t, q, r, price, drr).blockers == UnitAt(t, q', r, price, drr).blockers
  {
    UnitOnRoute(t, q, r, price, drr);
    UnitOnRoute(t, q', r, price, drr);
    ProbeLogistics(t, q, r, price);
    ProbeLogistics(t, q', r, price);
    assert Fee(t, q, r, price) == Fee(t, q', r, price);
    LinesIgnoreSku(q.product.(price := Some(price)), q'.product.(price := Some(price)), Fee(t, q, r, price), q.settings.(advertising := drr));
  }

  lemma LinesIgnoreSku(p: Product, p': Product, fee: Option<real>, s: Settings)
    requires s.buyout != 0.0 && s.vat != -1.0
    requires p' == p.(sku := p'.sku, article := p'.article, available := p'.available)
    ensures LineItems(p, fee, s) == LineItems(p', fee, s)
  {
  }

  lemma GoodIgnoresSku(t: TariffTable, q: Query, q': Query, n: int)
    requires ValidTariffs(t) && ValidQuery(q) && ValidQuery(q') && SameMoney(q, q') && 1 <= n
    ensures Good(t, q, n) == Good(t, q', n)
  {
    forall r | r in q.routes ensures RouteMeets(t, q, r, n) == RouteMeets(t, q', r, n) {
      UnitIgnoresSku(t, q, q', r, Kopeks(n), q.drr);
      UnitOnRoute(t, q, r, Kopeks(n), q.drr);
      UnitOnRoute(t, q', r, Kopeks(n), q.drr);
    }
  }

  lemma TargetIgnoresSku(t: TariffTable, q: Query, q': Query, r: Option<int>)
    requires ValidTariffs(t) && ValidQuery(q) && ValidQuery(q') && SameMoney(q, q') && TargetAnswer(t, q, r)
    ensures TargetAnswer(t, q', r)
  {
    forall n | 1 <= n ensures Good(t, q, n) == Good(t, q', n) {
      GoodIgnoresSku(t, q, q', n);
    }
    if !(q.goal.Roi? && (q.product.cost.None? || q.product.cost.value <= 0.0)) {
      var top :| GreatestBoundary(t, q, top) && IsTarget(t, q, top, r);
      assert GreatestBoundary(t, q', top) by {
        forall x ensures IsBoundary(t, q, x) == IsBoundary(t, q', x) {
        }
      }
      assert IsTarget(t, q', top, r);
    }
  }

  lemma UnitsIgnoreSku(t: TariffTable, q: Query, q': Query, price: real, drr: real)
    requires ValidTariffs(t) && ValidQuery(q) && ValidQuery(q') && SameMoney(q, q') && 0.0 <= price && 0.0 <= drr
    ensures UnitsAt(t, q, price, drr) == UnitsAt(t, q', price, drr)
    ensures drr == q.drr ==> BlockersAt(t, q, price) == BlockersAt(t, q', price)
  {
    forall i | 0 <= i < |q.routes|
      ensures UnitsAt(t, q, price, drr)[i] == UnitsAt(t, q', price, drr)[i]
      ensures drr == q.drr ==> BlockersAt(t, q, price)[i] == BlockersAt(t, q', price)[i]
    {
      UnitIgnoresSku(t, q, q', q.routes[i], price, drr);
    }
  }

  lemma FiguresIgnoreSku(t: TariffTable, q: Query, q': Query)
    requires ValidTariffs(t) && ValidQuery(q) && ValidQuery(q') && SameMoney(q, q') && |q.routes| > 0
    ensures CurrentFigures(t, q) == CurrentFigures(t, q')
  {
    if q.product.price.Some? {
      UnitsIgnoreSku(t, q, q', q.product.price.value, q.drr);
      UnitsIgnoreSku(t, q, q', q.product.price.value, 0.0);
    }
  }

  lemma WithTargetIgnoresSku(t: TariffTable, q: Query, q': Query, r: PricingResult, target: Option<int>)
    requires ValidTariffs(t) && ValidQuery(q) && ValidQuery(q') && SameMoney(q, q') && |q.routes| > 0
    requires target.Some? ==> 0 <= target.value
    ensures WithTarget(t, q, r, target) == WithTarget(t, q', r, target)
  {
    if target.Some? {
      UnitsIgnoreSku(t, q, q', Kopeks(target.value), q.drr);
    }
  }

  /** The memo key may leave SKU, article and stock out: products alike in money have the same result. */
  lemma PricingIgnoresSku(t: TariffTable, q: Query, q': Query, solve: bool, r: PricingResult)
    requires ValidTariffs(t) && ValidInputs(q) && ValidInputs(q') && SameMoney(q, q') && IsPricing(t, q, solve, r)
    ensures IsPricing(t, q', solve, r)
  {
    if q.product.volume.Some? && 0.0 < q.product.volume.value && |q.routes| > 0 {
      FiguresIgnoreSku(t, q, q');
      if Solvable(q, solve) {
        var x: Option<int> :| TargetAnswer(t, q, x) && (x.Some? ==> 0 <= x.value) && r == WithTarget(t, q, CurrentFigures(t, q), x);
        TargetIgnoresSku(t, q, q', x);
        WithTargetIgnoresSku(t, q, q', CurrentFigures(t, q), x);
      }
    }
  }

  // ---- the calculation and the memo table ----

  method UnitFigures(index: PricingTariffIndex, q: Query, i: nat, price: real, drr: real) returns (a: Amounts, bs: seq<Blocker>)
    requires index.Valid() && ValidTariffs(index.tariffs) && ValidQuery(q) && i < |q.routes| && 0.0 <= price && 0.0 <= drr
    modifies index`byVolume
    ensures index.Valid()
    ensures a == UnitsAt(index.tariffs, q, price, drr)[i]
    ensures drr == q.drr ==> bs == BlockersAt(index.tariffs, q, price)[i]
  {
    var u := UnitVia(index, q, q.routes[i], price, drr);
    UnitOnRoute(index.tariffs, q, q.routes[i], price, drr);
    a, bs := u.value.amounts, u.value.blockers;
  }

  method Units(index: PricingTariffIndex, q: Query, price: real, drr: real) returns (us: seq<Amounts>, bs: seq<seq<Blocker>>)
    requires index.Valid() && ValidTariffs(index.tariffs) && ValidQuery(q) && 0.0 <= price && 0.0 <= drr
    modifies index`byVolume
    ensures index.Valid() && us == UnitsAt(index.tariffs, q, price, drr)
    ensures drr == q.drr ==> bs == BlockersAt(index.tariffs, q, price)
  {
    ghost var allUnits := UnitsAt(index.tariffs, q, price, drr);
    ghost var allBlockers := BlockersAt(index.tariffs, q, price);
    us, bs := [], [];
    for i := 0 to |q.routes|
      invariant index.Valid() && us == allUnits[..i] && |bs| == i
      invariant drr == q.drr ==> bs == allBlockers[..i]
    {
      var a, b := UnitFigures(index, q, i, price, drr);
      TakeNext(allUnits, i);
      TakeNext(allBlockers, i);
      us, bs := us + [a], bs + [b];
    }
    TakeAll(allUnits);
    TakeAll(allBlockers);
  }

  method FiguresVia(index: PricingTariffIndex, q: Query) returns (r: PricingResult)
    requires index.Valid() && ValidTariffs(index.tariffs) && ValidQuery(q) && |q.routes| > 0
    modifies index`byVolume
    ensures index.Valid() && r == CurrentFigures(index.tariffs, q)
  {
    if q.product.price.None? {
      return Empty(Codes({}));
    }
    var units, blockers := Units(index, q, q.product.price.value, q.drr);
    var before, _ := Units(index, q, q.product.price.value, 0.0);
    r := FiguresOf(q, units, before, blockers);
  }

  /** `calculate_pricing` on an index. */
  method CalculatePricing(index: PricingTariffIndex, q: Query, solve: bool) returns (r: PricingResult)
    requires index.Valid() && ValidTariffs(index.tariffs) && ValidInputs(q)
    modifies index`byVolume
    ensures index.Valid() && IsPricing(index.tariffs, q, solve, r)
  {
    if q.product.volume.None? || q.product.volume.value <= 0.0 {
      return Empty(MissingVolume);
    }
    if |q.routes| == 0 {
      return Empty(NoRoutes);
    }
    r := FiguresVia(index, q);
    if Solvable(q, solve) {
      var target := Target(index, q);
      r := r.(target := target);
      if target.Some? {
        var units, _ := Units(index, q, Kopeks(target.value), q.drr);
        var k := ArgMin(Surpluses(q, units, Kopeks(target.value)));
        r := r.(limitingRoute := Some(q.routes[k]), targetLogistics := units[k].logistics);
      }
      assert r == WithTarget(index.tariffs, q, CurrentFigures(index.tariffs, q), target);
    }
  }

  /** Everything the money of a result may depend on, within one calculator. */
  datatype Key = Key(
    price: Option<real>, cost: Option<real>, commissionRate: Option<real>, volume: Option<real>,
    routes: seq<Route>, drr: real, margin: real, roi: real, goal: Goal, solve: bool)

  function KeyOf(q: Query, solve: bool): Key {
    Key(q.product.price, q.product.cost, q.product.commissionRate, q.product.volume,
        q.routes, q.drr, q.margin, q.roi, q.goal, solve)
  }

  class Calculator {
    const index: PricingTariffIndex
    const settings: Settings
    var results: map<Key, PricingResult>

    ghost predicate Valid()
      reads this, index
    {
      && index.Valid() && ValidTariffs(index.tariffs)
      && forall q: Query, solve: bool | ValidInputs(q) && q.settings == settings && KeyOf(q, solve) in results ::
           IsPricing(index.tariffs, q, solve, results[KeyOf(q, solve)])
    }

    constructor (index: PricingTariffIndex, settings: Settings)
      requires index.Valid() && ValidTariffs(index.tariffs)
      ensures Valid() && this.index == index && this.settings == settings
    {
      this.index := index;
      this.settings := settings;
      results := map[];
    }

    /** `calculate`: whatever was asked before, and however the index was filled, the answer is
        the unmemoized result on the full tariff list. */
    method Calculate(product: Product, routes: seq<Route>, drr: real, margin: real, roi: real, goal: Goal, solve: bool)
      returns (r: PricingResult)
      requires Valid()
      requires ValidInputs(Query(product, settings, routes, drr, goal, margin, roi))
      modifies this`results, index`byVolume
      ensures Valid()
      ensures IsPricing(index.tariffs, Query(product, settings, Distinct(routes), drr, goal, margin, roi), solve, r)
    {
      var q := Query(product, settings, Distinct(routes), drr, goal, margin, roi);
      var key := KeyOf(q, solve);
      if key !in results {
        var computed := CalculatePricing(index, q, solve);
        forall q': Query | ValidInputs(q') && q'.settings == settings && KeyOf(q', solve) == key
          ensures IsPricing(index.tariffs, q', solve, computed)
        {
          PricingIgnoresSku(index.tariffs, q, q', solve, computed);
        }
        results := results[key := computed];
      }
      r := results[key];
    }
  }
}
