/** Weekly observed routes (backend/analytics/routes.py) and their distributions per origin
    (backend/analytics/clean_routes.py:96-116, 236-246). */
module WeeklyRoutes {
  import opened Text
  import opened Sequences
  import opened StableSort
  import opened Sums
  import opened KeyedTotals
  import opened DailyFacts
  import S = StockoutWindows

  datatype WeekKey = WeekKey(week: int, sku: string, origin: string, destination: string)

  datatype OriginKey = OriginKey(sku: string, origin: string)

  datatype TargetKey = TargetKey(week: int, sku: string, place: string)

  /** One weekly cell; the shares are exact. */
  datatype Route = Route(key: WeekKey, quantity: nat, count: nat, ofDestination: real, ofOrigin: real)

  /** A profile with what matters of its window: the day, the included weeks, the excluded count. */
  datatype Profile = Profile(routes: seq<Route>, asOf: int, weeks: set<int>, excludedCurrent: nat)

  function WeekKeyOf(c: FulfilledCell): WeekKey {
    WeekKey(S.Week(c.day), c.sku, c.origin, c.destination)
  }

  function CellKey(): FulfilledCell -> WeekKey {
    (c: FulfilledCell) => WeekKeyOf(c)
  }

  function DestinationOf(): WeekKey -> TargetKey {
    (k: WeekKey) => TargetKey(k.week, k.sku, k.destination)
  }

  function SourceOf(): WeekKey -> TargetKey {
    (k: WeekKey) => TargetKey(k.week, k.sku, k.origin)
  }

  predicate WeekKeyLe(a: WeekKey, b: WeekKey) {
    if a.week != b.week then a.week < b.week
    else if a.sku != b.sku then TextLe(a.sku, b.sku)
    else if a.origin != b.origin then TextLe(a.origin, b.origin)
    else TextLe(a.destination, b.destination)
  }

  function WeekKeyOrder(): (WeekKey, WeekKey) -> bool {
    (a: WeekKey, b: WeekKey) => WeekKeyLe(a, b)
  }

  // ---- the weekly build ----

  /** The cells of completed weeks. */
  function Completed(cells: seq<FulfilledCell>, asOf: int): (r: seq<FulfilledCell>)
    ensures forall c :: c in r <==> c in cells && S.Week(c.day) != S.Week(asOf)
  {
    if |cells| == 0 then []
    else
      var init, last := Completed(cells[..|cells| - 1], asOf), cells[|cells| - 1];
      InitLast(cells);
      if S.Week(last.day) == S.Week(asOf) then init else init + [last]
  }

  function CurrentCount(cells: seq<FulfilledCell>, asOf: int): nat {
    if |cells| == 0 then 0
    else CurrentCount(cells[..|cells| - 1], asOf) +
         if S.Week(cells[|cells| - 1].day) == S.Week(asOf) then cells[|cells| - 1].count else 0
  }

  function UnitsAt(cells: seq<FulfilledCell>, k: WeekKey): nat {
    SumBy(cells, At(CellKey(), k, FulfilledUnits()))
  }

  function CountAt(cells: seq<FulfilledCell>, k: WeekKey): nat {
    SumBy(cells, At(CellKey(), k, FulfilledCount()))
  }

  function UnitsOf(cells: seq<FulfilledCell>): WeekKey -> nat {
    (k: WeekKey) => UnitsAt(cells, k)
  }

  /** A share; the source divides only by totals that hold the part itself. */
  function Share(part: nat, whole: nat): real {
    if whole > 0 then Ratio(part, whole) else 0.0
  }

  /** The weekly cell of a key, given all keys. */
  function RouteAt(cells: seq<FulfilledCell>, keys: seq<WeekKey>, k: WeekKey): Route {
    var q := UnitsAt(cells, k);
    Route(k, q, CountAt(cells, k),
          Share(q, PerKey(keys, DestinationOf(), UnitsOf(cells))(DestinationOf()(k))),
          Share(q, PerKey(keys, SourceOf(), UnitsOf(cells))(SourceOf()(k))))
  }

  /** Keys without units are dropped. */
  function RoutesAt(cells: seq<FulfilledCell>, all: seq<WeekKey>, keys: seq<WeekKey>): seq<Route> {
    if |keys| == 0 then []
    else
      var init, k := RoutesAt(cells, all, keys[..|keys| - 1]), keys[|keys| - 1];
      if UnitsAt(cells, k) > 0 then init + [RouteAt(cells, all, k)] else init
  }

  function Keys(cells: seq<FulfilledCell>): seq<WeekKey> {
    Sort(Distinct(cells, CellKey()), WeekKeyOrder())
  }

  function Weekly(cells: seq<FulfilledCell>, asOf: int): Profile {
    var past := Completed(cells, asOf);
    Profile(RoutesAt(past, Distinct(past, CellKey()), Keys(past)), asOf, set c <- past :: S.Week(c.day), CurrentCount(cells, asOf))
  }

  /** The loop that skips the current week. */
  method SkipCurrent(cells: seq<FulfilledCell>, asOf: int) returns (past: seq<FulfilledCell>, weeks: set<int>, excluded: nat)
    ensures past == Completed(cells, asOf) && weeks == (set c <- past :: S.Week(c.day)) && excluded == CurrentCount(cells, asOf)
  {
    past, weeks, excluded := [], {}, 0;
    for i := 0 to |cells|
      invariant past == Completed(cells[..i], asOf) && excluded == CurrentCount(cells[..i], asOf)
      invariant weeks == set c <- past :: S.Week(c.day)
    {
      TakeTake(cells, i);
      if S.Week(cells[i].day) == S.Week(asOf) {
        excluded := excluded + cells[i].count;
      } else {
        weeks := weeks + {S.Week(cells[i].day)};
        past := past + [cells[i]];
      }
    }
    TakeAll(cells);
  }

  /** The three dictionaries of `build_weekly_route_profile`. */
  datatype Tables = Tables(totals: map<WeekKey, Total>, destinations: map<TargetKey, Total>, origins: map<TargetKey, Total>)

  ghost predicate Filled(t: Tables, cells: seq<FulfilledCell>) {
    && (forall k <- Distinct(cells, CellKey()) :: k in t.totals && t.totals[k] == Total(UnitsAt(cells, k), CountAt(cells, k)))
    && (forall k <- Distinct(cells, CellKey()) :: DestinationOf()(k) in t.destinations
         && t.destinations[DestinationOf()(k)].quantity == PerKey(Distinct(cells, CellKey()), DestinationOf(), UnitsOf(cells))(DestinationOf()(k)))
    && (forall k <- Distinct(cells, CellKey()) :: SourceOf()(k) in t.origins
         && t.origins[SourceOf()(k)].quantity == PerKey(Distinct(cells, CellKey()), SourceOf(), UnitsOf(cells))(SourceOf()(k)))
  }

  lemma PerKeyAgrees<T, K(!new)>(xs: seq<T>, key: T -> K, f: T -> nat, g: T -> nat, k: K)
    requires forall x <- xs :: f(x) == g(x)
    ensures PerKey(xs, key, f)(k) == PerKey(xs, key, g)(k)
  {
    SumAgrees(xs, At(key, k, f), At(key, k, g));
  }

  /** `totals[...][0]` of a key */
  function UnitsIn(totals: map<WeekKey, Total>): WeekKey -> nat {
    (k: WeekKey) => if k in totals then totals[k].quantity else 0
  }

  /** The totals per destination or origin of a week. */
  method GroupTotals(cells: seq<FulfilledCell>, order: seq<WeekKey>, totals: map<WeekKey, Total>, target: WeekKey -> TargetKey)
    returns (groups: map<TargetKey, Total>)
    requires forall k <- order :: k in totals && totals[k].quantity == UnitsAt(cells, k)
    ensures forall k <- order :: target(k) in groups && groups[target(k)].quantity == PerKey(order, target, UnitsOf(cells))(target(k))
  {
    var keys;
    keys, groups := Accumulate(order, target, UnitsIn(totals), UnitsIn(totals));
    forall k | k in order ensures target(k) in groups && groups[target(k)].quantity == PerKey(order, target, UnitsOf(cells))(target(k)) {
      PerKeyAgrees(order, target, UnitsIn(totals), UnitsOf(cells), target(k));
    }
  }

  method FillTables(cells: seq<FulfilledCell>) returns (order: seq<WeekKey>, t: Tables)
    ensures order == Distinct(cells, CellKey()) && Filled(t, cells)
  {
    var totals: map<WeekKey, Total>;
    order, totals := Accumulate(cells, CellKey(), FulfilledUnits(), FulfilledCount());
    assert forall k <- order :: k in totals && totals[k] == Total(UnitsAt(cells, k), CountAt(cells, k));
    var destinations := GroupTotals(cells, order, totals, DestinationOf());
    var origins := GroupTotals(cells, order, totals, SourceOf());
    t := Tables(totals, destinations, origins);
  }

  /** The comprehension over the sorted totals. */
  method EmitRoutes(cells: seq<FulfilledCell>, keys: seq<WeekKey>, t: Tables) returns (routes: seq<Route>)
    requires Filled(t, cells) && forall k <- keys :: k in Distinct(cells, CellKey())
    ensures routes == RoutesAt(cells, Distinct(cells, CellKey()), keys)
  {
    routes := [];
    for i := 0 to |keys|
      invariant routes == RoutesAt(cells, Distinct(cells, CellKey()), keys[..i])
    {
      TakeTake(keys, i);
      var k := keys[i];
      assert k in Distinct(cells, CellKey());
      var total := t.totals[k];
      if total.quantity > 0 {
        routes := routes + [Route(k, total.quantity, total.count, Share(total.quantity, t.destinations[DestinationOf()(k)].quantity),
                                  Share(total.quantity, t.origins[SourceOf()(k)].quantity))];
      }
    }
    TakeAll(keys);
  }

  /** `build_weekly_route_profile` */
  method BuildWeekly(cells: seq<FulfilledCell>, asOf: int) returns (p: Profile)
    ensures p == Weekly(cells, asOf)
  {
    var past, weeks, excluded := SkipCurrent(cells, asOf);
    var order, t := FillTables(past);
    SortElements(order, WeekKeyOrder());
    var routes := EmitRoutes(past, Sort(order, WeekKeyOrder()), t);
    p := Profile(routes, asOf, weeks, excluded);
  }

  // ---- the weekly cells hold the daily units ----

  function RouteOrigin(): Route -> OriginKey {
    (r: Route) => OriginKey(r.key.sku, r.key.origin)
  }

  function RouteUnits(): Route -> nat {
    (r: Route) => r.quantity
  }

  function RouteCount(): Route -> nat {
    (r: Route) => r.count
  }

  function CellOrigin(): FulfilledCell -> OriginKey {
    (c: FulfilledCell) => OriginKey(c.sku, c.origin)
  }

  predicate FromOrigin(k: WeekKey, g: OriginKey) {
    k.sku == g.sku && k.origin == g.origin
  }

  /** Units of the daily cells from one origin. */
  function UnitsFrom(g: OriginKey): FulfilledCell -> nat {
    At(CellOrigin(), g, FulfilledUnits())
  }

  /** Observations of the daily cells from one origin whose weekly cell has units. */
  function SeenFrom(cells: seq<FulfilledCell>, g: OriginKey): FulfilledCell -> nat {
    (c: FulfilledCell) => if OriginKey(c.sku, c.origin) == g && UnitsAt(cells, WeekKeyOf(c)) > 0 then c.count else 0
  }

  /** One number per key, zero for keys that are dropped or belong elsewhere. */
  function KeptUnits(cells: seq<FulfilledCell>, g: OriginKey): WeekKey -> nat {
    (k: WeekKey) => if FromOrigin(k, g) && UnitsAt(cells, k) > 0 then UnitsAt(cells, k) else 0
  }

  function KeptCount(cells: seq<FulfilledCell>, g: OriginKey): WeekKey -> nat {
    (k: WeekKey) => if FromOrigin(k, g) && UnitsAt(cells, k) > 0 then CountAt(cells, k) else 0
  }

  lemma {:induction false} RoutesSum(cells: seq<FulfilledCell>, all: seq<WeekKey>, keys: seq<WeekKey>, g: OriginKey)
    ensures SumBy(RoutesAt(cells, all, keys), At(RouteOrigin(), g, RouteUnits())) == SumBy(keys, KeptUnits(cells, g))
    ensures SumBy(RoutesAt(cells, all, keys), At(RouteOrigin(), g, RouteCount())) == SumBy(keys, KeptCount(cells, g))
  {
    if |keys| > 0 {
      var init, k := keys[..|keys| - 1], keys[|keys| - 1];
      InitLast(keys);
      RoutesSum(cells, all, init, g);
      SumSnoc(init, k, KeptUnits(cells, g));
      SumSnoc(init, k, KeptCount(cells, g));
      SumSnoc(RoutesAt(cells, all, init), RouteAt(cells, all, k), At(RouteOrigin(), g, RouteUnits()));
      SumSnoc(RoutesAt(cells, all, init), RouteAt(cells, all, k), At(RouteOrigin(), g, RouteCount()));
    }
  }

  lemma UnitsUnder(cells: seq<FulfilledCell>, k: WeekKey, g: OriginKey)
    ensures PerKey(cells, CellKey(), UnitsFrom(g))(k) == if FromOrigin(k, g) then UnitsAt(cells, k) else 0
  {
    var a := At(CellKey(), k, UnitsFrom(g));
    if FromOrigin(k, g) {
      SumAgrees(cells, a, At(CellKey(), k, FulfilledUnits()));
    } else {
      SumZero(cells, a);
    }
    assert PerKey(cells, CellKey(), UnitsFrom(g))(k) == SumBy(cells, a);
  }

  lemma SeenUnder(cells: seq<FulfilledCell>, k: WeekKey, g: OriginKey)
    ensures PerKey(cells, CellKey(), SeenFrom(cells, g))(k) == KeptCount(cells, g)(k)
  {
    var a := At(CellKey(), k, SeenFrom(cells, g));
    if FromOrigin(k, g) && UnitsAt(cells, k) > 0 {
      SumAgrees(cells, a, At(CellKey(), k, FulfilledCount()));
    } else {
      SumZero(cells, a);
    }
    assert PerKey(cells, CellKey(), SeenFrom(cells, g))(k) == SumBy(cells, a);
  }

  lemma KeysOfCells(cells: seq<FulfilledCell>)
    ensures NoDup(Keys(cells))
    ensures forall c <- cells :: CellKey()(c) in Keys(cells)
  {
    var distinct := Distinct(cells, CellKey());
    SortKeeps(distinct, WeekKeyOrder());
    SortElements(distinct, WeekKeyOrder());
    NoDupAmong(distinct, Keys(cells));
    forall c | c in cells ensures CellKey()(c) in Keys(cells) {
      assert CellKey()(c) in distinct;
    }
  }

  /** The weekly cells of an origin hold exactly the units of its daily cells, although weekly cells
      without units are dropped; their observations are those of the weekly cells that were kept. */
  lemma WeeklyTotals(cells: seq<FulfilledCell>, all: seq<WeekKey>, g: OriginKey)
    ensures SumBy(RoutesAt(cells, all, Keys(cells)), At(RouteOrigin(), g, RouteUnits())) == SumBy(cells, UnitsFrom(g))
    ensures SumBy(RoutesAt(cells, all, Keys(cells)), At(RouteOrigin(), g, RouteCount())) == SumBy(cells, SeenFrom(cells, g))
  {
    var keys := Keys(cells);
    KeysOfCells(cells);
    RoutesSum(cells, all, keys, g);
    SumPerKey(cells, keys, CellKey(), UnitsFrom(g));
    SumPerKey(cells, keys, CellKey(), SeenFrom(cells, g));
    forall k | k in keys ensures PerKey(cells, CellKey(), UnitsFrom(g))(k) == KeptUnits(cells, g)(k) {
      UnitsUnder(cells, k, g);
    }
    SumAgrees(keys, PerKey(cells, CellKey(), UnitsFrom(g)), KeptUnits(cells, g));
    forall k | k in keys ensures PerKey(cells, CellKey(), SeenFrom(cells, g))(k) == KeptCount(cells, g)(k) {
      SeenUnder(cells, k, g);
    }
    SumAgrees(keys, PerKey(cells, CellKey(), SeenFrom(cells, g)), KeptCount(cells, g));
  }

  // ---- what a weekly cell shows ----

  predicate Toward(k: WeekKey, target: WeekKey -> TargetKey, t: TargetKey) {
    target(k) == t
  }

  /** The units of the daily cells under a destination, or an origin, of a week. */
  function UnitsToward(target: WeekKey -> TargetKey, t: TargetKey): FulfilledCell -> nat {
    (c: FulfilledCell) => if Toward(WeekKeyOf(c), target, t) then c.quantity else 0
  }

  lemma TargetUnits(cells: seq<FulfilledCell>, target: WeekKey -> TargetKey, t: TargetKey)
    ensures PerKey(Distinct(cells, CellKey()), target, UnitsOf(cells))(t) == SumBy(cells, UnitsToward(target, t))
  {
    var keys := Distinct(cells, CellKey());
    var toward := PerKey(cells, CellKey(), UnitsToward(target, t));
    SumPerKey(cells, keys, CellKey(), UnitsToward(target, t));
    forall k | k in keys ensures toward(k) == At(target, t, UnitsOf(cells))(k) {
      KeyToward(cells, target, t, k);
    }
    SumAgrees(keys, toward, At(target, t, UnitsOf(cells)));
  }

  lemma KeyToward(cells: seq<FulfilledCell>, target: WeekKey -> TargetKey, t: TargetKey, k: WeekKey)
    ensures PerKey(cells, CellKey(), UnitsToward(target, t))(k) == At(target, t, UnitsOf(cells))(k)
  {
    var a := At(CellKey(), k, UnitsToward(target, t));
    if target(k) == t {
      SumAgrees(cells, a, At(CellKey(), k, FulfilledUnits()));
    } else {
      SumZero(cells, a);
    }
    assert PerKey(cells, CellKey(), UnitsToward(target, t))(k) == SumBy(cells, a);
  }

  /** The units of one product in one week, on their way to a destination or from an origin. */
  function WeeklyTo(week: int, sku: string, destination: string): FulfilledCell -> nat {
    (c: FulfilledCell) => if (c.day - 1) / 7 == week && c.sku == sku && c.destination == destination then c.quantity else 0
  }

  function WeeklyFrom(week: int, sku: string, origin: string): FulfilledCell -> nat {
    (c: FulfilledCell) => if (c.day - 1) / 7 == week && c.sku == sku && c.origin == origin then c.quantity else 0
  }

  function WeeklyOn(k: WeekKey): FulfilledCell -> nat {
    (c: FulfilledCell) =>
      if (c.day - 1) / 7 == k.week && c.sku == k.sku && c.origin == k.origin && c.destination == k.destination then c.quantity else 0
  }

  lemma KeyUnits(cells: seq<FulfilledCell>, k: WeekKey)
    ensures UnitsAt(cells, k) == SumBy(cells, WeeklyOn(k))
    ensures SumBy(cells, UnitsToward(DestinationOf(), DestinationOf()(k))) == SumBy(cells, WeeklyTo(k.week, k.sku, k.destination))
    ensures SumBy(cells, UnitsToward(SourceOf(), SourceOf()(k))) == SumBy(cells, WeeklyFrom(k.week, k.sku, k.origin))
  {
    SumAgrees(cells, At(CellKey(), k, FulfilledUnits()), WeeklyOn(k));
    SumAgrees(cells, UnitsToward(DestinationOf(), DestinationOf()(k)), WeeklyTo(k.week, k.sku, k.destination));
    SumAgrees(cells, UnitsToward(SourceOf(), SourceOf()(k)), WeeklyFrom(k.week, k.sku, k.origin));
  }

  /** A weekly cell shows the units of its days, and their parts of what the destination received
      and of what the origin shipped in that week. */
  ghost predicate ShowsWeek(r: Route, cells: seq<FulfilledCell>) {
    var toward, from := SumBy(cells, WeeklyTo(r.key.week, r.key.sku, r.key.destination)), SumBy(cells, WeeklyFrom(r.key.week, r.key.sku, r.key.origin));
    && r.quantity == SumBy(cells, WeeklyOn(r.key)) && r.quantity > 0 && toward > 0 && from > 0
    && r.ofDestination == r.quantity as real / toward as real
    && r.ofOrigin == r.quantity as real / from as real
  }

  lemma {:induction false} SumMonotone(cells: seq<FulfilledCell>, f: FulfilledCell -> nat, g: FulfilledCell -> nat)
    requires forall c <- cells :: f(c) <= g(c)
    ensures SumBy(cells, f) <= SumBy(cells, g)
  {
    if |cells| > 0 {
      HeadTail(cells);
      SumMonotone(cells[1..], f, g);
    }
  }

  lemma RouteShowsWeek(cells: seq<FulfilledCell>, k: WeekKey)
    requires UnitsAt(cells, k) > 0
    ensures ShowsWeek(RouteAt(cells, Distinct(cells, CellKey()), k), cells)
  {
    KeyUnits(cells, k);
    TargetUnits(cells, DestinationOf(), DestinationOf()(k));
    TargetUnits(cells, SourceOf(), SourceOf()(k));
    SumMonotone(cells, WeeklyOn(k), WeeklyTo(k.week, k.sku, k.destination));
    SumMonotone(cells, WeeklyOn(k), WeeklyFrom(k.week, k.sku, k.origin));
  }

  lemma {:induction false} RoutesShowWeeks(cells: seq<FulfilledCell>, keys: seq<WeekKey>)
    ensures forall r <- RoutesAt(cells, Distinct(cells, CellKey()), keys) :: ShowsWeek(r, cells)
    ensures forall k <- keys :: UnitsAt(cells, k) > 0 ==> exists r <- RoutesAt(cells, Distinct(cells, CellKey()), keys) :: r.key == k
  {
    if |keys| > 0 {
      var init, k := keys[..|keys| - 1], keys[|keys| - 1];
      InitLast(keys);
      RoutesShowWeeks(cells, init);
      if UnitsAt(cells, k) > 0 {
        RouteShowsWeek(cells, k);
        assert RouteAt(cells, Distinct(cells, CellKey()), k).key == k;
      }
    }
  }
}
