/** Daily demand and fulfillment facts (backend/analytics/daily.py). Days are ordinals: day 1 is a Monday. */
module DailyFacts {
  import opened Wrappers
  import opened Text
  import opened Sequences
  import opened StableSort
  import opened Sums
  import opened KeyedTotals

  datatype Lifecycle = Fulfilled | InProgress | Other

  /** `day` is the calendar date of `accepted_at`, when it has one. */
  datatype Order = Order(sku: string, origin: string, destination: string, quantity: int, lifecycle: Lifecycle, day: Option<int>)

  datatype DemandCell = DemandCell(sku: string, destination: string, day: int, quantity: nat, count: nat)

  datatype FulfilledCell = FulfilledCell(sku: string, origin: string, destination: string, day: int, quantity: nat, count: nat)

  datatype Excluded = Excluded(future: nat, undated: nat)

  datatype InvalidOrder = InvalidOrder

  /** `validate_order`: a quantity of zero is valid. */
  predicate ValidOrder(o: Order) {
    !Blank(o.sku) && !Blank(o.destination) && o.quantity >= 0
  }

  predicate IsDemand(o: Order) {
    o.lifecycle.Fulfilled? || o.lifecycle.InProgress?
  }

  predicate IsRoute(o: Order) {
    o.lifecycle.Fulfilled? && !Blank(o.origin)
  }

  predicate Past(o: Order, asOf: int) {
    o.day.Some? && o.day.value <= asOf
  }

  function Pick(orders: seq<Order>, which: Order -> bool): (r: seq<Order>)
    ensures forall o :: o in r <==> o in orders && which(o)
  {
    if |orders| == 0 then []
    else
      var init, last := Pick(orders[..|orders| - 1], which), orders[|orders| - 1];
      InitLast(orders);
      if which(last) then init + [last] else init
  }

  function PastDemand(asOf: int): Order -> bool {
    (o: Order) => IsDemand(o) && Past(o, asOf)
  }

  function PastRoute(asOf: int): Order -> bool {
    (o: Order) => IsRoute(o) && Past(o, asOf)
  }

  datatype DemandKey = DemandKey(day: int, sku: string, destination: string)

  datatype RouteKey = RouteKey(day: int, sku: string, origin: string, destination: string)

  function DemandKeyOf(): Order -> DemandKey {
    (o: Order) => DemandKey(if o.day.Some? then o.day.value else 0, o.sku, o.destination)
  }

  function RouteKeyOf(): Order -> RouteKey {
    (o: Order) => RouteKey(if o.day.Some? then o.day.value else 0, o.sku, o.origin, o.destination)
  }

  function Units(): Order -> nat {
    (o: Order) => if o.quantity >= 0 then o.quantity else 0
  }

  function One(): Order -> nat {
    (o: Order) => 1
  }

  predicate RouteKeyLe(a: RouteKey, b: RouteKey) {
    if a.day != b.day then a.day < b.day
    else if a.sku != b.sku then TextLe(a.sku, b.sku)
    else if a.origin != b.origin then TextLe(a.origin, b.origin)
    else TextLe(a.destination, b.destination)
  }

  predicate DemandKeyLe(a: DemandKey, b: DemandKey) {
    if a.day != b.day then a.day < b.day
    else if a.sku != b.sku then TextLe(a.sku, b.sku)
    else TextLe(a.destination, b.destination)
  }

  function RouteOrder(): (RouteKey, RouteKey) -> bool {
    (a: RouteKey, b: RouteKey) => RouteKeyLe(a, b)
  }

  function DemandOrder(): (DemandKey, DemandKey) -> bool {
    (a: DemandKey, b: DemandKey) => DemandKeyLe(a, b)
  }

  function DemandCellAt(orders: seq<Order>, k: DemandKey): DemandCell {
    DemandCell(k.sku, k.destination, k.day, PerKey(orders, DemandKeyOf(), Units())(k), PerKey(orders, DemandKeyOf(), One())(k))
  }

  function RouteCellAt(orders: seq<Order>, k: RouteKey): FulfilledCell {
    FulfilledCell(k.sku, k.origin, k.destination, k.day, PerKey(orders, RouteKeyOf(), Units())(k), PerKey(orders, RouteKeyOf(), One())(k))
  }

  function DemandCells(orders: seq<Order>): (cells: seq<DemandCell>)
    ensures var keys := Sort(Distinct(orders, DemandKeyOf()), DemandOrder());
      |cells| == |keys| && forall i :: 0 <= i < |keys| ==> cells[i] == DemandCellAt(orders, keys[i])
  {
    var keys := Sort(Distinct(orders, DemandKeyOf()), DemandOrder());
    seq(|keys|, i requires 0 <= i < |keys| => DemandCellAt(orders, keys[i]))
  }

  function FulfilledCells(orders: seq<Order>): (cells: seq<FulfilledCell>)
    ensures var keys := Sort(Distinct(orders, RouteKeyOf()), RouteOrder());
      |cells| == |keys| && forall i :: 0 <= i < |keys| ==> cells[i] == RouteCellAt(orders, keys[i])
  {
    var keys := Sort(Distinct(orders, RouteKeyOf()), RouteOrder());
    seq(|keys|, i requires 0 <= i < |keys| => RouteCellAt(orders, keys[i]))
  }

  function CountOf(orders: seq<Order>, which: Order -> bool): nat {
    |Pick(orders, which)|
  }

  function FutureOf(which: Order -> bool, asOf: int): Order -> bool {
    (o: Order) => which(o) && o.day.Some? && o.day.value > asOf
  }

  function UndatedOf(which: Order -> bool): Order -> bool {
    (o: Order) => which(o) && o.day.None?
  }

  function Demanding(): Order -> bool {
    (o: Order) => IsDemand(o)
  }

  function Routing(): Order -> bool {
    (o: Order) => IsRoute(o)
  }

  /** What one more order adds to a selection. */
  lemma PickNext(orders: seq<Order>, i: nat, which: Order -> bool)
    requires i < |orders|
    ensures Pick(orders[..i + 1], which) == Pick(orders[..i], which) + if which(orders[i]) then [orders[i]] else []
  {
    TakeTake(orders, i);
    NoneMore(Pick(orders[..i], which));
  }

  datatype Sorting = Sorting(demand: seq<Order>, routes: seq<Order>, noDemand: Excluded, noRoutes: Excluded)

  function SortedOut(orders: seq<Order>, asOf: int): Sorting {
    Sorting(Pick(orders, PastDemand(asOf)), Pick(orders, PastRoute(asOf)),
            Excluded(CountOf(orders, FutureOf(Demanding(), asOf)), CountOf(orders, UndatedOf(Demanding()))),
            Excluded(CountOf(orders, FutureOf(Routing(), asOf)), CountOf(orders, UndatedOf(Routing()))))
  }

  /** One turn of the loop, for a valid order. */
  function SortNext(s: Sorting, o: Order, asOf: int): Sorting {
    var demand, route := if IsDemand(o) then 1 else 0, if IsRoute(o) then 1 else 0;
    if o.day.None? then
      s.(noDemand := s.noDemand.(undated := s.noDemand.undated + demand), noRoutes := s.noRoutes.(undated := s.noRoutes.undated + route))
    else if o.day.value > asOf then
      s.(noDemand := s.noDemand.(future := s.noDemand.future + demand), noRoutes := s.noRoutes.(future := s.noRoutes.future + route))
    else
      s.(demand := if IsDemand(o) then s.demand + [o] else s.demand, routes := if IsRoute(o) then s.routes + [o] else s.routes)
  }

  lemma SortedOutNext(orders: seq<Order>, i: nat, asOf: int)
    requires i < |orders|
    ensures SortedOut(orders[..i + 1], asOf) == SortNext(SortedOut(orders[..i], asOf), orders[i], asOf)
  {
    PickNext(orders, i, PastDemand(asOf));
    PickNext(orders, i, PastRoute(asOf));
    PickNext(orders, i, FutureOf(Demanding(), asOf));
    PickNext(orders, i, UndatedOf(Demanding()));
    PickNext(orders, i, FutureOf(Routing(), asOf));
    PickNext(orders, i, UndatedOf(Routing()));
    NoneMore(Pick(orders[..i], PastDemand(asOf)));
    NoneMore(Pick(orders[..i], PastRoute(asOf)));
  }

  /** `build_daily_order_facts`, the loop that sorts the orders out. */
  method SortOut(orders: seq<Order>, asOf: int) returns (r: Result<Sorting, InvalidOrder>)
    ensures r.Ok? <==> forall o <- orders :: ValidOrder(o)
    ensures r.Ok? ==> r.value == SortedOut(orders, asOf)
  {
    var s := Sorting([], [], Excluded(0, 0), Excluded(0, 0));
    for i := 0 to |orders|
      invariant forall k :: 0 <= k < i ==> ValidOrder(orders[k])
      invariant s == SortedOut(orders[..i], asOf)
    {
      if !ValidOrder(orders[i]) {
        assert orders[i] in orders;
        return Err(InvalidOrder);
      }
      SortedOutNext(orders, i, asOf);
      s := SortNext(s, orders[i], asOf);
    }
    TakeAll(orders);
    r := Ok(s);
  }

  method TotalDemand(orders: seq<Order>) returns (cells: seq<DemandCell>)
    ensures cells == DemandCells(orders)
  {
    var order, totals := Accumulate(orders, DemandKeyOf(), Units(), One());
    var keys := Sort(order, DemandOrder());
    SortElements(order, DemandOrder());
    assert forall i :: 0 <= i < |keys| ==> keys[i] in order;
    cells := seq(|keys|, i requires 0 <= i < |keys| && keys[i] in totals =>
      DemandCell(keys[i].sku, keys[i].destination, keys[i].day, totals[keys[i]].quantity, totals[keys[i]].count));
  }

  method TotalRoutes(orders: seq<Order>) returns (cells: seq<FulfilledCell>)
    ensures cells == FulfilledCells(orders)
  {
    var order, totals := Accumulate(orders, RouteKeyOf(), Units(), One());
    var keys := Sort(order, RouteOrder());
    SortElements(order, RouteOrder());
    assert forall i :: 0 <= i < |keys| ==> keys[i] in order;
    cells := seq(|keys|, i requires 0 <= i < |keys| && keys[i] in totals =>
      FulfilledCell(keys[i].sku, keys[i].origin, keys[i].destination, keys[i].day, totals[keys[i]].quantity, totals[keys[i]].count));
  }

  /** `build_daily_order_facts`. */
  method BuildDailyFacts(orders: seq<Order>, asOf: int)
    returns (r: Result<(seq<DemandCell>, seq<FulfilledCell>), InvalidOrder>, demand: Excluded, routes: Excluded)
    ensures r.Ok? <==> forall o <- orders :: ValidOrder(o)
    ensures r.Ok? ==> r.value == (DemandCells(Pick(orders, PastDemand(asOf))), FulfilledCells(Pick(orders, PastRoute(asOf))))
    ensures r.Ok? ==> HoldDemand(r.value.0, orders, asOf) && HoldShipments(r.value.1, orders, asOf)
    ensures r.Ok? ==> demand == Excluded(CountOf(orders, FutureOf(Demanding(), asOf)), CountOf(orders, UndatedOf(Demanding())))
    ensures r.Ok? ==> routes == Excluded(CountOf(orders, FutureOf(Routing(), asOf)), CountOf(orders, UndatedOf(Routing())))
  {
    var sorted := SortOut(orders, asOf);
    if sorted.Err? {
      return Err(InvalidOrder), Excluded(0, 0), Excluded(0, 0);
    }
    var demandCells := TotalDemand(sorted.value.demand);
    var fulfilledCells := TotalRoutes(sorted.value.routes);
    CellsHoldDemand(orders, asOf);
    CellsHoldShipments(orders, asOf);
    r, demand, routes := Ok((demandCells, fulfilledCells)), sorted.value.noDemand, sorted.value.noRoutes;
  }

  function FulfilledUnits(): FulfilledCell -> nat {
    (c: FulfilledCell) => c.quantity
  }

  function FulfilledCount(): FulfilledCell -> nat {
    (c: FulfilledCell) => c.count
  }

  lemma CellsCarry(orders: seq<Order>, f: Order -> nat, g: FulfilledCell -> nat)
    requires forall k :: g(RouteCellAt(orders, k)) == PerKey(orders, RouteKeyOf(), f)(k)
    ensures SumBy(FulfilledCells(orders), g) == SumBy(orders, f)
  {
    var keys := Distinct(orders, RouteKeyOf());
    var per := PerKey(orders, RouteKeyOf(), f);
    SumPerKey(orders, keys, RouteKeyOf(), f);
    SumSorted(keys, RouteOrder(), per);
    SumMapped(Sort(keys, RouteOrder()), per, FulfilledCells(orders), g);
  }

  /** The fulfillment cells hold the units of all past fulfilled orders, no more and no less. */
  lemma FulfilledUnitsAreKept(orders: seq<Order>)
    ensures SumBy(FulfilledCells(orders), FulfilledUnits()) == SumBy(orders, Units())
    ensures SumBy(FulfilledCells(orders), FulfilledCount()) == |orders|
  {
    CellsCarry(orders, Units(), FulfilledUnits());
    CellsCarry(orders, One(), FulfilledCount());
    SumOnes(orders);
  }

  function DemandUnits(): DemandCell -> nat {
    (c: DemandCell) => c.quantity
  }

  function DemandCount(): DemandCell -> nat {
    (c: DemandCell) => c.count
  }

  lemma DemandCellsCarry(orders: seq<Order>, f: Order -> nat, g: DemandCell -> nat)
    requires forall k :: g(DemandCellAt(orders, k)) == PerKey(orders, DemandKeyOf(), f)(k)
    ensures SumBy(DemandCells(orders), g) == SumBy(orders, f)
  {
    var keys := Distinct(orders, DemandKeyOf());
    var per := PerKey(orders, DemandKeyOf(), f);
    SumPerKey(orders, keys, DemandKeyOf(), f);
    SumSorted(keys, DemandOrder(), per);
    SumMapped(Sort(keys, DemandOrder()), per, DemandCells(orders), g);
  }

  /** The demand cells hold the units of all past orders, fulfilled or on their way. */
  lemma DemandedUnitsAreKept(orders: seq<Order>)
    ensures SumBy(DemandCells(orders), DemandUnits()) == SumBy(orders, Units())
    ensures SumBy(DemandCells(orders), DemandCount()) == |orders|
  {
    DemandCellsCarry(orders, Units(), DemandUnits());
    DemandCellsCarry(orders, One(), DemandCount());
    SumOnes(orders);
  }

  lemma {:induction false} SumOnes(orders: seq<Order>)
    ensures SumBy(orders, One()) == |orders|
  {
    if |orders| > 0 {
      SumOnes(orders[1..]);
    }
  }

  /** Every eligible order is counted exactly once: as a past one, as future or as undated. */
  lemma {:induction false} EveryOrderIsCountedOnce(orders: seq<Order>, asOf: int)
    ensures |Pick(orders, PastDemand(asOf))| + CountOf(orders, FutureOf(Demanding(), asOf)) + CountOf(orders, UndatedOf(Demanding()))
         == CountOf(orders, Demanding())
    ensures |Pick(orders, PastRoute(asOf))| + CountOf(orders, FutureOf(Routing(), asOf)) + CountOf(orders, UndatedOf(Routing()))
         == CountOf(orders, Routing())
  {
    if |orders| > 0 {
      EveryOrderIsCountedOnce(orders[..|orders| - 1], asOf);
    }
  }

  // ---- what a cell holds ----

  /** The order was shipped on that day from a named origin. */
  predicate ShippedOnDay(o: Order, sku: string, origin: string, destination: string, day: int) {
    && o.lifecycle == Fulfilled && !Blank(o.origin) && o.day == Some(day)
    && o.sku == sku && o.origin == origin && o.destination == destination
  }

  /** The order was placed on that day and is fulfilled or on its way. */
  predicate OrderedOnDay(o: Order, sku: string, destination: string, day: int) {
    && (o.lifecycle == Fulfilled || o.lifecycle == InProgress) && o.day == Some(day)
    && o.sku == sku && o.destination == destination
  }

  function ShippedUnits(sku: string, origin: string, destination: string, day: int): Order -> nat {
    (o: Order) => if ShippedOnDay(o, sku, origin, destination, day) && o.quantity >= 0 then o.quantity else 0
  }

  function OrderedUnits(sku: string, destination: string, day: int): Order -> nat {
    (o: Order) => if OrderedOnDay(o, sku, destination, day) && o.quantity >= 0 then o.quantity else 0
  }

  /** One cell for every day, product and route with a past shipped order, holding their units. */
  ghost predicate HoldShipments(cells: seq<FulfilledCell>, orders: seq<Order>, asOf: int) {
    && (forall c <- cells :: c.day <= asOf && c.quantity == SumBy(orders, ShippedUnits(c.sku, c.origin, c.destination, c.day))
          && exists o <- orders :: ShippedOnDay(o, c.sku, c.origin, c.destination, c.day))
    && (forall i, j :: 0 <= i < j < |cells| ==>
          !(cells[i].sku == cells[j].sku && cells[i].origin == cells[j].origin && cells[i].destination == cells[j].destination && cells[i].day == cells[j].day))
    && (forall o <- orders, day: int :: day <= asOf && ShippedOnDay(o, o.sku, o.origin, o.destination, day) ==>
          exists c <- cells :: c.sku == o.sku && c.origin == o.origin && c.destination == o.destination && c.day == day)
  }

  /** One cell for every day, product and destination with a past demanded order, holding their units. */
  ghost predicate HoldDemand(cells: seq<DemandCell>, orders: seq<Order>, asOf: int) {
    && (forall c <- cells :: c.day <= asOf && c.quantity == SumBy(orders, OrderedUnits(c.sku, c.destination, c.day))
          && exists o <- orders :: OrderedOnDay(o, c.sku, c.destination, c.day))
    && (forall i, j :: 0 <= i < j < |cells| ==>
          !(cells[i].sku == cells[j].sku && cells[i].destination == cells[j].destination && cells[i].day == cells[j].day))
    && (forall o <- orders, day: int :: day <= asOf && OrderedOnDay(o, o.sku, o.destination, day) ==>
          exists c <- cells :: c.sku == o.sku && c.destination == o.destination && c.day == day)
  }

  lemma {:induction false} SumOfPicked(orders: seq<Order>, which: Order -> bool, f: Order -> nat, g: Order -> nat)
    requires forall o <- orders :: g(o) == if which(o) then f(o) else 0
    ensures SumBy(Pick(orders, which), f) == SumBy(orders, g)
  {
    if |orders| > 0 {
      var init, last := orders[..|orders| - 1], orders[|orders| - 1];
      InitLast(orders);
      SumOfPicked(init, which, f, g);
      SumSnoc(init, last, g);
      SumSnoc(Pick(init, which), last, f);
    }
  }

  lemma ShippedOfCell(orders: seq<Order>, asOf: int, k: RouteKey)
    requires k.day <= asOf
    ensures PerKey(Pick(orders, PastRoute(asOf)), RouteKeyOf(), Units())(k) == SumBy(orders, ShippedUnits(k.sku, k.origin, k.destination, k.day))
  {
    SumOfPicked(orders, PastRoute(asOf), At(RouteKeyOf(), k, Units()), ShippedUnits(k.sku, k.origin, k.destination, k.day));
  }

  lemma OrderedOfCell(orders: seq<Order>, asOf: int, k: DemandKey)
    requires k.day <= asOf
    ensures PerKey(Pick(orders, PastDemand(asOf)), DemandKeyOf(), Units())(k) == SumBy(orders, OrderedUnits(k.sku, k.destination, k.day))
  {
    SumOfPicked(orders, PastDemand(asOf), At(DemandKeyOf(), k, Units()), OrderedUnits(k.sku, k.destination, k.day));
  }

  lemma KeyIsShipped(orders: seq<Order>, asOf: int, k: RouteKey)
    ensures k in Sort(Distinct(Pick(orders, PastRoute(asOf)), RouteKeyOf()), RouteOrder()) <==>
            k.day <= asOf && exists o <- orders :: ShippedOnDay(o, k.sku, k.origin, k.destination, k.day)
  {
    var picked := Pick(orders, PastRoute(asOf));
    SortElements(Distinct(picked, RouteKeyOf()), RouteOrder());
    if k in Distinct(picked, RouteKeyOf()) {
      var o :| o in picked && RouteKeyOf()(o) == k;
      assert o in orders && ShippedOnDay(o, k.sku, k.origin, k.destination, k.day);
    }
    forall o | k.day <= asOf && o in orders && ShippedOnDay(o, k.sku, k.origin, k.destination, k.day)
      ensures k in Distinct(picked, RouteKeyOf()) {
      assert o in picked && RouteKeyOf()(o) == k;
    }
  }

  lemma KeyIsOrdered(orders: seq<Order>, asOf: int, k: DemandKey)
    ensures k in Sort(Distinct(Pick(orders, PastDemand(asOf)), DemandKeyOf()), DemandOrder()) <==>
            k.day <= asOf && exists o <- orders :: OrderedOnDay(o, k.sku, k.destination, k.day)
  {
    var picked := Pick(orders, PastDemand(asOf));
    SortElements(Distinct(picked, DemandKeyOf()), DemandOrder());
    if k in Distinct(picked, DemandKeyOf()) {
      var o :| o in picked && DemandKeyOf()(o) == k;
      assert o in orders && OrderedOnDay(o, k.sku, k.destination, k.day);
    }
    forall o | k.day <= asOf && o in orders && OrderedOnDay(o, k.sku, k.destination, k.day)
      ensures k in Distinct(picked, DemandKeyOf()) {
      assert o in picked && DemandKeyOf()(o) == k;
    }
  }

  lemma CellIsShipped(orders: seq<Order>, asOf: int, i: nat)
    requires i < |FulfilledCells(Pick(orders, PastRoute(asOf)))|
    ensures var c := FulfilledCells(Pick(orders, PastRoute(asOf)))[i];
      c.day <= asOf && c.quantity == SumBy(orders, ShippedUnits(c.sku, c.origin, c.destination, c.day))
      && exists o <- orders :: ShippedOnDay(o, c.sku, c.origin, c.destination, c.day)
  {
    var picked := Pick(orders, PastRoute(asOf));
    var keys := Sort(Distinct(picked, RouteKeyOf()), RouteOrder());
    assert keys[i] in keys && FulfilledCells(picked)[i] == RouteCellAt(picked, keys[i]);
    KeyIsShipped(orders, asOf, keys[i]);
    ShippedOfCell(orders, asOf, keys[i]);
  }

  lemma ShipmentHasCell(orders: seq<Order>, asOf: int, o: Order, day: int)
    requires o in orders && day <= asOf && ShippedOnDay(o, o.sku, o.origin, o.destination, day)
    ensures exists c <- FulfilledCells(Pick(orders, PastRoute(asOf))) ::
      c.sku == o.sku && c.origin == o.origin && c.destination == o.destination && c.day == day
  {
    var picked := Pick(orders, PastRoute(asOf));
    var keys, k := Sort(Distinct(picked, RouteKeyOf()), RouteOrder()), RouteKey(day, o.sku, o.origin, o.destination);
    KeyIsShipped(orders, asOf, k);
    var i :| 0 <= i < |keys| && keys[i] == k;
    assert FulfilledCells(picked)[i] == RouteCellAt(picked, k) && FulfilledCells(picked)[i] in FulfilledCells(picked);
  }

  lemma ShipmentCellsDiffer(picked: seq<Order>)
    ensures var cells := FulfilledCells(picked);
      forall i, j :: 0 <= i < j < |cells| ==>
        !(cells[i].sku == cells[j].sku && cells[i].origin == cells[j].origin && cells[i].destination == cells[j].destination && cells[i].day == cells[j].day)
  {
    var distinct := Distinct(picked, RouteKeyOf());
    SortKeeps(distinct, RouteOrder());
    NoDupAmong(distinct, Sort(distinct, RouteOrder()));
  }

  lemma CellsHoldShipments(orders: seq<Order>, asOf: int)
    ensures HoldShipments(FulfilledCells(Pick(orders, PastRoute(asOf))), orders, asOf)
  {
    var cells := FulfilledCells(Pick(orders, PastRoute(asOf)));
    ShipmentCellsDiffer(Pick(orders, PastRoute(asOf)));
    forall c | c in cells ensures c.day <= asOf && c.quantity == SumBy(orders, ShippedUnits(c.sku, c.origin, c.destination, c.day))
      && exists o <- orders :: ShippedOnDay(o, c.sku, c.origin, c.destination, c.day) {
      var i :| 0 <= i < |cells| && cells[i] == c;
      CellIsShipped(orders, asOf, i);
    }
    forall o, day: int | o in orders && day <= asOf && ShippedOnDay(o, o.sku, o.origin, o.destination, day)
      ensures exists c <- cells :: c.sku == o.sku && c.origin == o.origin && c.destination == o.destination && c.day == day {
      ShipmentHasCell(orders, asOf, o, day);
    }
  }

  lemma CellIsOrdered(orders: seq<Order>, asOf: int, i: nat)
    requires i < |DemandCells(Pick(orders, PastDemand(asOf)))|
    ensures var c := DemandCells(Pick(orders, PastDemand(asOf)))[i];
      c.day <= asOf && c.quantity == SumBy(orders, OrderedUnits(c.sku, c.destination, c.day))
      && exists o <- orders :: OrderedOnDay(o, c.sku, c.destination, c.day)
  {
    var picked := Pick(orders, PastDemand(asOf));
    var keys := Sort(Distinct(picked, DemandKeyOf()), DemandOrder());
    assert keys[i] in keys && DemandCells(picked)[i] == DemandCellAt(picked, keys[i]);
    KeyIsOrdered(orders, asOf, keys[i]);
    OrderedOfCell(orders, asOf, keys[i]);
  }

  lemma DemandHasCell(orders: seq<Order>, asOf: int, o: Order, day: int)
    requires o in orders && day <= asOf && OrderedOnDay(o, o.sku, o.destination, day)
    ensures exists c <- DemandCells(Pick(orders, PastDemand(asOf))) :: c.sku == o.sku && c.destination == o.destination && c.day == day
  {
    var picked := Pick(orders, PastDemand(asOf));
    var keys, k := Sort(Distinct(picked, DemandKeyOf()), DemandOrder()), DemandKey(day, o.sku, o.destination);
    KeyIsOrdered(orders, asOf, k);
    var i :| 0 <= i < |keys| && keys[i] == k;
    assert DemandCells(picked)[i] == DemandCellAt(picked, k) && DemandCells(picked)[i] in DemandCells(picked);
  }

  lemma DemandCellsDiffer(picked: seq<Order>)
    ensures var cells := DemandCells(picked);
      forall i, j :: 0 <= i < j < |cells| ==>
        !(cells[i].sku == cells[j].sku && cells[i].destination == cells[j].destination && cells[i].day == cells[j].day)
  {
    var distinct := Distinct(picked, DemandKeyOf());
    SortKeeps(distinct, DemandOrder());
    NoDupAmong(distinct, Sort(distinct, DemandOrder()));
  }

  lemma CellsHoldDemand(orders: seq<Order>, asOf: int)
    ensures HoldDemand(DemandCells(Pick(orders, PastDemand(asOf))), orders, asOf)
  {
    var cells := DemandCells(Pick(orders, PastDemand(asOf)));
    DemandCellsDiffer(Pick(orders, PastDemand(asOf)));
    forall c | c in cells ensures c.day <= asOf && c.quantity == SumBy(orders, OrderedUnits(c.sku, c.destination, c.day))
      && exists o <- orders :: OrderedOnDay(o, c.sku, c.destination, c.day) {
      var i :| 0 <= i < |cells| && cells[i] == c;
      CellIsOrdered(orders, asOf, i);
    }
    forall o, day: int | o in orders && day <= asOf && OrderedOnDay(o, o.sku, o.destination, day)
      ensures exists c <- cells :: c.sku == o.sku && c.destination == o.destination && c.day == day {
      DemandHasCell(orders, asOf, o, day);
    }
  }
}
