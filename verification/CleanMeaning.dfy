/** What the clean route profile says about the daily fulfillment cells
    (backend/analytics/clean_routes.py:252-316). */
module CleanMeaning {
  import opened Sequences
  import opened StableSort
  import opened Sums
  import opened KeyedTotals
  import opened DailyFacts
  import opened WeeklyRoutes
  import opened CleanRoutes
  import L = LocalitySeries
  import C = StockoutEpisodes

  // ---- which cells count ----

  /** The cell lies in one of the weeks; day 1 is a Monday. */
  predicate InWeeks(c: FulfilledCell, weeks: set<int>) {
    (c.day - 1) / 7 in weeks
  }

  /** The cell does not lie in the week of the report. */
  predicate Elsewhen(c: FulfilledCell, asOf: int) {
    (c.day - 1) / 7 != (asOf - 1) / 7
  }

  predicate Finished(c: FulfilledCell, observed: Profile) {
    InWeeks(c, observed.weeks) && Elsewhen(c, observed.asOf)
  }

  /** The episode takes the cell out: it may, it is about the cell's product and destination, and it
      affects the cell's day. */
  predicate Takes(e: C.Episode, c: FulfilledCell) {
    e.eligible && e.key.sku == c.sku && e.key.destination == c.destination && c.day in e.affected
  }

  predicate TakenOut(c: FulfilledCell, episodes: seq<C.Episode>) {
    exists e <- episodes :: Takes(e, c)
  }

  function Counted(observed: Profile): FulfilledCell -> bool {
    (c: FulfilledCell) => Finished(c, observed)
  }

  function CountedClean(observed: Profile, episodes: seq<C.Episode>): FulfilledCell -> bool {
    (c: FulfilledCell) => Finished(c, observed) && !TakenOut(c, episodes)
  }

  /** The units of a cell, when it counts and lies on the route. */
  function OnLane(l: Lane, counts: FulfilledCell -> bool): FulfilledCell -> nat {
    (c: FulfilledCell) => if counts(c) && c.sku == l.sku && c.origin == l.origin && c.destination == l.destination then c.quantity else 0
  }

  function FromPlace(sku: string, origin: string, counts: FulfilledCell -> bool): FulfilledCell -> nat {
    (c: FulfilledCell) => if counts(c) && c.sku == sku && c.origin == origin then c.quantity else 0
  }

  /** One row for every route on which counted cells hold units, with these units and their part of
      what the origin ships. */
  ghost predicate Distributes(rows: seq<Row>, cells: seq<FulfilledCell>, counts: FulfilledCell -> bool) {
    && (forall i, j :: 0 <= i < j < |rows| ==> rows[i].lane != rows[j].lane)
    && (forall row <- rows :: RowHolds(row, cells, counts))
    && (forall l: Lane :: SumBy(cells, OnLane(l, counts)) > 0 ==> exists row <- rows :: row.lane == l)
  }

  ghost predicate RowHolds(row: Row, cells: seq<FulfilledCell>, counts: FulfilledCell -> bool) {
    var whole := SumBy(cells, FromPlace(row.lane.sku, row.lane.origin, counts));
    && row.quantity == SumBy(cells, OnLane(row.lane, counts)) && row.quantity > 0
    && whole > 0 && row.share == row.quantity as real / whole as real
  }

  // ---- weekly routes, by what their keys satisfy ----

  predicate Satisfies(k: WeekKey, keep: WeekKey -> bool) {
    keep(k)
  }

  function KeptWhere(cells: seq<FulfilledCell>, keep: WeekKey -> bool): WeekKey -> nat {
    (k: WeekKey) => if Satisfies(k, keep) && UnitsAt(cells, k) > 0 then UnitsAt(cells, k) else 0
  }

  function RouteWhere(keep: WeekKey -> bool): Route -> nat {
    (r: Route) => if Satisfies(r.key, keep) then r.quantity else 0
  }

  function CellWhere(keep: WeekKey -> bool): FulfilledCell -> nat {
    (c: FulfilledCell) => if Satisfies(WeekKeyOf(c), keep) then c.quantity else 0
  }

  lemma {:induction false} RoutesSumWhere(cells: seq<FulfilledCell>, all: seq<WeekKey>, keys: seq<WeekKey>, keep: WeekKey -> bool)
    ensures SumBy(RoutesAt(cells, all, keys), RouteWhere(keep)) == SumBy(keys, KeptWhere(cells, keep))
  {
    if |keys| > 0 {
      var init, k := keys[..|keys| - 1], keys[|keys| - 1];
      InitLast(keys);
      RoutesSumWhere(cells, all, init, keep);
      SumSnoc(init, k, KeptWhere(cells, keep));
      SumSnoc(RoutesAt(cells, all, init), RouteAt(cells, all, k), RouteWhere(keep));
    }
  }

  lemma UnitsWhere(cells: seq<FulfilledCell>, k: WeekKey, keep: WeekKey -> bool)
    ensures PerKey(cells, CellKey(), CellWhere(keep))(k) == KeptWhere(cells, keep)(k)
  {
    var a := At(CellKey(), k, CellWhere(keep));
    if keep(k) {
      SumAgrees(cells, a, At(CellKey(), k, FulfilledUnits()));
    } else {
      SumZero(cells, a);
    }
    assert PerKey(cells, CellKey(), CellWhere(keep))(k) == SumBy(cells, a);
  }

  lemma WeeklyWhere(cells: seq<FulfilledCell>, all: seq<WeekKey>, keep: WeekKey -> bool)
    ensures SumBy(RoutesAt(cells, all, Keys(cells)), RouteWhere(keep)) == SumBy(cells, CellWhere(keep))
  {
    var keys := Keys(cells);
    KeysOfCells(cells);
    RoutesSumWhere(cells, all, keys, keep);
    SumPerKey(cells, keys, CellKey(), CellWhere(keep));
    forall k | k in keys ensures PerKey(cells, CellKey(), CellWhere(keep))(k) == KeptWhere(cells, keep)(k) {
      UnitsWhere(cells, k, keep);
    }
    SumAgrees(keys, PerKey(cells, CellKey(), CellWhere(keep)), KeptWhere(cells, keep));
  }

  // ---- the three selections of cells ----

  function Only(counts: FulfilledCell -> bool, f: FulfilledCell -> nat): FulfilledCell -> nat {
    (c: FulfilledCell) => if counts(c) then f(c) else 0
  }

  function PastOf(asOf: int): FulfilledCell -> bool {
    (c: FulfilledCell) => Elsewhen(c, asOf)
  }

  function WithinWeeks(weeks: set<int>): FulfilledCell -> bool {
    (c: FulfilledCell) => InWeeks(c, weeks)
  }

  function Untaken(episodes: seq<C.Episode>): FulfilledCell -> bool {
    (c: FulfilledCell) => !TakenOut(c, episodes)
  }

  lemma {:induction false} SumCompleted(cells: seq<FulfilledCell>, asOf: int, f: FulfilledCell -> nat)
    ensures SumBy(Completed(cells, asOf), f) == SumBy(cells, Only(PastOf(asOf), f))
  {
    if |cells| > 0 {
      var init, last := cells[..|cells| - 1], cells[|cells| - 1];
      InitLast(cells);
      SumCompleted(init, asOf, f);
      SumSnoc(init, last, Only(PastOf(asOf), f));
      SumSnoc(Completed(init, asOf), last, f);
    }
  }

  lemma {:induction false} SumHistorical(cells: seq<FulfilledCell>, weeks: set<int>, f: FulfilledCell -> nat)
    ensures SumBy(Historical(cells, weeks), f) == SumBy(cells, Only(WithinWeeks(weeks), f))
  {
    if |cells| > 0 {
      var init, last := cells[..|cells| - 1], cells[|cells| - 1];
      InitLast(cells);
      SumHistorical(init, weeks, f);
      SumSnoc(init, last, Only(WithinWeeks(weeks), f));
      SumSnoc(Historical(init, weeks), last, f);
    }
  }

  lemma TakenMeansRemoved(c: FulfilledCell, episodes: seq<C.Episode>)
    ensures EpisodeOn(episodes, DayOf(c)).Some? <==> TakenOut(c, episodes)
  {
    assert forall e <- episodes :: Removes(e, DayOf(c)) <==> Takes(e, c);
  }

  lemma {:induction false} SumLeft(cells: seq<FulfilledCell>, episodes: seq<C.Episode>, f: FulfilledCell -> nat)
    ensures SumBy(Left(cells, episodes), f) == SumBy(cells, Only(Untaken(episodes), f))
  {
    if |cells| > 0 {
      var init, last := cells[..|cells| - 1], cells[|cells| - 1];
      InitLast(cells);
      SumLeft(init, episodes, f);
      TakenMeansRemoved(last, episodes);
      SumSnoc(init, last, Only(Untaken(episodes), f));
      SumSnoc(Left(init, episodes), last, f);
    }
  }

  // ---- the rows ----

  function KeepLane(l: Lane): WeekKey -> bool {
    (k: WeekKey) => k.sku == l.sku && k.origin == l.origin && k.destination == l.destination
  }

  function KeepPlace(sku: string, origin: string): WeekKey -> bool {
    (k: WeekKey) => k.sku == sku && k.origin == origin
  }

  lemma LaneSum(cells: seq<FulfilledCell>, asOf: int, l: Lane)
    ensures PerKey(Weekly(cells, asOf).routes, RouteLane(), RouteUnits())(l) == SumBy(cells, OnLane(l, PastOf(asOf)))
  {
    var past, routes := Completed(cells, asOf), Weekly(cells, asOf).routes;
    SumAgrees(routes, At(RouteLane(), l, RouteUnits()), RouteWhere(KeepLane(l)));
    WeeklyWhere(past, Distinct(past, CellKey()), KeepLane(l));
    SumCompleted(cells, asOf, CellWhere(KeepLane(l)));
    SumAgrees(cells, Only(PastOf(asOf), CellWhere(KeepLane(l))), OnLane(l, PastOf(asOf)));
  }

  lemma PlaceSum(cells: seq<FulfilledCell>, asOf: int, g: OriginKey)
    ensures OriginUnits(Weekly(cells, asOf).routes, g) == SumBy(cells, FromPlace(g.sku, g.origin, PastOf(asOf)))
  {
    var past, routes := Completed(cells, asOf), Weekly(cells, asOf).routes;
    SumAgrees(routes, At(RouteOrigin(), g, RouteUnits()), RouteWhere(KeepPlace(g.sku, g.origin)));
    WeeklyWhere(past, Distinct(past, CellKey()), KeepPlace(g.sku, g.origin));
    SumCompleted(cells, asOf, CellWhere(KeepPlace(g.sku, g.origin)));
    SumAgrees(cells, Only(PastOf(asOf), CellWhere(KeepPlace(g.sku, g.origin))), FromPlace(g.sku, g.origin, PastOf(asOf)));
  }

  lemma LaneShips(cells: seq<FulfilledCell>, all: seq<WeekKey>, keys: seq<WeekKey>, l: Lane)
    requires l in Distinct(RoutesAt(cells, all, keys), RouteLane())
    ensures PerKey(RoutesAt(cells, all, keys), RouteLane(), RouteUnits())(l) > 0
    ensures OriginUnits(RoutesAt(cells, all, keys), LaneOrigin(l)) > 0
  {
    var routes := RoutesAt(cells, all, keys);
    RoutesHaveUnits(cells, all, keys);
    var r :| r in routes && RouteLane()(r) == l;
    L.MemberWithinSum(routes, r, At(RouteLane(), l, RouteUnits()));
    L.MemberWithinSum(routes, r, At(RouteOrigin(), LaneOrigin(l), RouteUnits()));
  }

  lemma RowIsSpread(cells: seq<FulfilledCell>, asOf: int, l: Lane)
    requires l in Distinct(Weekly(cells, asOf).routes, RouteLane())
    ensures RowHolds(RowAt(Weekly(cells, asOf).routes, l), cells, PastOf(asOf))
  {
    var past := Completed(cells, asOf);
    LaneSum(cells, asOf, l);
    PlaceSum(cells, asOf, LaneOrigin(l));
    LaneShips(past, Distinct(past, CellKey()), Keys(past), l);
  }

  lemma LaneIsShown(cells: seq<FulfilledCell>, asOf: int, l: Lane)
    requires SumBy(cells, OnLane(l, PastOf(asOf))) > 0
    ensures exists row <- Aggregated(Weekly(cells, asOf).routes) :: row.lane == l
  {
    var routes := Weekly(cells, asOf).routes;
    LaneSum(cells, asOf, l);
    if l !in Distinct(routes, RouteLane()) {
      NothingUnder(routes, RouteLane(), RouteUnits(), l);
      assert false;
    }
    SortElements(Distinct(routes, RouteLane()), LaneOrder());
    var i :| 0 <= i < |Lanes(routes)| && Lanes(routes)[i] == l;
    assert Aggregated(routes)[i] in Aggregated(routes);
  }

  /** The rows aggregated from the weekly routes of cells. */
  lemma WeeklyDistributes(cells: seq<FulfilledCell>, asOf: int)
    ensures Distributes(Aggregated(Weekly(cells, asOf).routes), cells, PastOf(asOf))
  {
    var routes := Weekly(cells, asOf).routes;
    var rows := Aggregated(routes);
    LanesOf(routes);
    SortElements(Distinct(routes, RouteLane()), LaneOrder());
    forall row | row in rows ensures RowHolds(row, cells, PastOf(asOf)) {
      var i :| 0 <= i < |rows| && rows[i] == row;
      assert Lanes(routes)[i] in Lanes(routes);
      RowIsSpread(cells, asOf, Lanes(routes)[i]);
    }
    forall l: Lane | SumBy(cells, OnLane(l, PastOf(asOf))) > 0 ensures exists row <- rows :: row.lane == l {
      LaneIsShown(cells, asOf, l);
    }
  }

  // ---- from selected cells to all of them ----

  /** Sums over selected cells are sums over all of them. */
  ghost predicate Selects(some: seq<FulfilledCell>, cells: seq<FulfilledCell>, counts: FulfilledCell -> bool, all: FulfilledCell -> bool) {
    && (forall l: Lane :: SumBy(some, OnLane(l, counts)) == SumBy(cells, OnLane(l, all)))
    && (forall sku, origin :: SumBy(some, FromPlace(sku, origin, counts)) == SumBy(cells, FromPlace(sku, origin, all)))
  }

  lemma SelectedDistributes(rows: seq<Row>, some: seq<FulfilledCell>, cells: seq<FulfilledCell>, counts: FulfilledCell -> bool, all: FulfilledCell -> bool)
    requires Selects(some, cells, counts, all) && Distributes(rows, some, counts)
    ensures Distributes(rows, cells, all)
  {
    forall row | row in rows ensures RowHolds(row, cells, all) {
      assert RowHolds(row, some, counts);
    }
  }

  lemma HistorySelects(cells: seq<FulfilledCell>, observed: Profile)
    ensures Selects(Historical(cells, observed.weeks), cells, PastOf(observed.asOf), Counted(observed))
  {
    var history, past := Historical(cells, observed.weeks), PastOf(observed.asOf);
    forall l: Lane ensures SumBy(history, OnLane(l, past)) == SumBy(cells, OnLane(l, Counted(observed))) {
      SumHistorical(cells, observed.weeks, OnLane(l, past));
      SumAgrees(cells, Only(WithinWeeks(observed.weeks), OnLane(l, past)), OnLane(l, Counted(observed)));
    }
    forall sku, origin ensures SumBy(history, FromPlace(sku, origin, past)) == SumBy(cells, FromPlace(sku, origin, Counted(observed))) {
      SumHistorical(cells, observed.weeks, FromPlace(sku, origin, past));
      SumAgrees(cells, Only(WithinWeeks(observed.weeks), FromPlace(sku, origin, past)), FromPlace(sku, origin, Counted(observed)));
    }
  }

  /** Past cells that no episode takes out. */
  function PastUntaken(asOf: int, episodes: seq<C.Episode>): FulfilledCell -> bool {
    (c: FulfilledCell) => Elsewhen(c, asOf) && !TakenOut(c, episodes)
  }

  lemma LeftSelects(history: seq<FulfilledCell>, asOf: int, episodes: seq<C.Episode>)
    ensures Selects(Left(history, episodes), history, PastOf(asOf), PastUntaken(asOf, episodes))
  {
    var left, past := Left(history, episodes), PastOf(asOf);
    forall l: Lane ensures SumBy(left, OnLane(l, past)) == SumBy(history, OnLane(l, PastUntaken(asOf, episodes))) {
      SumLeft(history, episodes, OnLane(l, past));
      SumAgrees(history, Only(Untaken(episodes), OnLane(l, past)), OnLane(l, PastUntaken(asOf, episodes)));
    }
    forall sku, origin ensures SumBy(left, FromPlace(sku, origin, past)) == SumBy(history, FromPlace(sku, origin, PastUntaken(asOf, episodes))) {
      SumLeft(history, episodes, FromPlace(sku, origin, past));
      SumAgrees(history, Only(Untaken(episodes), FromPlace(sku, origin, past)), FromPlace(sku, origin, PastUntaken(asOf, episodes)));
    }
  }

  lemma CleanSelects(cells: seq<FulfilledCell>, observed: Profile, episodes: seq<C.Episode>)
    ensures Selects(Historical(cells, observed.weeks), cells, PastUntaken(observed.asOf, episodes), CountedClean(observed, episodes))
  {
    var history, past := Historical(cells, observed.weeks), PastUntaken(observed.asOf, episodes);
    forall l: Lane ensures SumBy(history, OnLane(l, past)) == SumBy(cells, OnLane(l, CountedClean(observed, episodes))) {
      SumHistorical(cells, observed.weeks, OnLane(l, past));
      SumAgrees(cells, Only(WithinWeeks(observed.weeks), OnLane(l, past)), OnLane(l, CountedClean(observed, episodes)));
    }
    forall sku, origin ensures SumBy(history, FromPlace(sku, origin, past)) == SumBy(cells, FromPlace(sku, origin, CountedClean(observed, episodes))) {
      SumHistorical(cells, observed.weeks, FromPlace(sku, origin, past));
      SumAgrees(cells, Only(WithinWeeks(observed.weeks), FromPlace(sku, origin, past)), FromPlace(sku, origin, CountedClean(observed, episodes)));
    }
  }

  /** The observed rows spread the units of the finished weeks, and the clean ones those of them that
      no eligible episode takes out. */
  lemma ProfileMeans(observed: Profile, cells: seq<FulfilledCell>, episodes: seq<C.Episode>)
    requires CleanProfile(observed, cells, episodes).Ok?
    ensures Distributes(CleanProfile(observed, cells, episodes).value.observed, cells, Counted(observed))
    ensures Distributes(CleanProfile(observed, cells, episodes).value.clean, cells, CountedClean(observed, episodes))
  {
    var history := Historical(cells, observed.weeks);
    var left := Left(history, episodes);
    WeeklyDistributes(history, observed.asOf);
    HistorySelects(cells, observed);
    SelectedDistributes(Aggregated(observed.routes), history, cells, PastOf(observed.asOf), Counted(observed));
    var clean := Aggregated(Weekly(left, observed.asOf).routes);
    WeeklyDistributes(left, observed.asOf);
    LeftSelects(history, observed.asOf, episodes);
    SelectedDistributes(clean, left, history, PastOf(observed.asOf), PastUntaken(observed.asOf, episodes));
    CleanSelects(cells, observed, episodes);
    SelectedDistributes(clean, history, cells, PastUntaken(observed.asOf, episodes), CountedClean(observed, episodes));
  }

  // ---- summaries and audit ----

  function CountedOut(observed: Profile, episodes: seq<C.Episode>): FulfilledCell -> bool {
    (c: FulfilledCell) => InWeeks(c, observed.weeks) && TakenOut(c, episodes)
  }

  /** A summary shows what its origin shipped, what of it is left, and what was taken out. */
  ghost predicate Summarizes(s: Summary, observed: Profile, cells: seq<FulfilledCell>, episodes: seq<C.Episode>) {
    && s.observed.quantity == SumBy(cells, FromPlace(s.origin.sku, s.origin.origin, Counted(observed)))
    && s.clean.quantity == SumBy(cells, FromPlace(s.origin.sku, s.origin.origin, CountedClean(observed, episodes)))
    && s.excluded.quantity == SumBy(cells, FromPlace(s.origin.sku, s.origin.origin, CountedOut(observed, episodes)))
    && (s.fallback <==> s.clean.quantity == 0)
  }

  function Taken(episodes: seq<C.Episode>): FulfilledCell -> bool {
    (c: FulfilledCell) => TakenOut(c, episodes)
  }

  lemma {:induction false} SumRemoved(cells: seq<FulfilledCell>, episodes: seq<C.Episode>, f: FulfilledCell -> nat)
    ensures SumBy(Removed(cells, episodes), f) == SumBy(cells, Only(Taken(episodes), f))
  {
    if |cells| > 0 {
      var init, last := cells[..|cells| - 1], cells[|cells| - 1];
      InitLast(cells);
      SumRemoved(init, episodes, f);
      TakenMeansRemoved(last, episodes);
      SumSnoc(init, last, Only(Taken(episodes), f));
      SumSnoc(Removed(init, episodes), last, f);
    }
  }

  lemma ExcludedMeans(observed: Profile, cells: seq<FulfilledCell>, episodes: seq<C.Episode>, g: OriginKey)
    ensures CellTotal(Removed(Historical(cells, observed.weeks), episodes), g).quantity ==
            SumBy(cells, FromPlace(g.sku, g.origin, CountedOut(observed, episodes)))
  {
    var history := Historical(cells, observed.weeks);
    var taken := Only(Taken(episodes), UnitsFrom(g));
    SumRemoved(history, episodes, UnitsFrom(g));
    SumHistorical(cells, observed.weeks, taken);
    SumAgrees(cells, Only(WithinWeeks(observed.weeks), taken), FromPlace(g.sku, g.origin, CountedOut(observed, episodes)));
  }

  lemma ShownTotal(routes: seq<Route>, cells: seq<FulfilledCell>, asOf: int, g: OriginKey)
    requires routes == Weekly(cells, asOf).routes
    ensures OriginTotal(Aggregated(routes), g).quantity == SumBy(cells, FromPlace(g.sku, g.origin, PastOf(asOf)))
    ensures g in Distinct(Aggregated(routes), RowOrigin()) <==> OriginTotal(Aggregated(routes), g).quantity > 0
  {
    var past := Completed(cells, asOf);
    AggregationKeeps(routes, g);
    PlaceSum(cells, asOf, g);
    RoutesHaveUnits(past, Distinct(past, CellKey()), Keys(past));
    if g in Distinct(Aggregated(routes), RowOrigin()) {
      ShownOriginsShip(routes, g);
    } else {
      NothingUnder(Aggregated(routes), RowOrigin(), RowUnits(), g);
    }
  }

  /** Every summary shows what its origin shipped, kept and lost. */
  lemma SummariesMean(observed: Profile, cells: seq<FulfilledCell>, episodes: seq<C.Episode>, i: nat)
    requires CleanProfile(observed, cells, episodes).Ok?
    requires i < |CleanProfile(observed, cells, episodes).value.summaries|
    ensures Summarizes(CleanProfile(observed, cells, episodes).value.summaries[i], observed, cells, episodes)
  {
    var history := Historical(cells, observed.weeks);
    var left := Left(history, episodes);
    var g := Origins(Aggregated(observed.routes))[i];
    ShownTotal(observed.routes, history, observed.asOf, g);
    ShownTotal(Weekly(left, observed.asOf).routes, left, observed.asOf, g);
    HistorySelects(cells, observed);
    LeftSelects(history, observed.asOf, episodes);
    CleanSelects(cells, observed, episodes);
    ExcludedMeans(observed, cells, episodes, g);
  }

  /** Of the episodes that take the cell out this one starts, and then ends, first; of several such
      the one listed first. */
  predicate TakesFirst(episodes: seq<C.Episode>, i: nat, c: FulfilledCell)
    requires i < |episodes|
  {
    Takes(episodes[i], c)
    && forall j :: 0 <= j < |episodes| && j != i && Takes(episodes[j], c) ==>
         || episodes[i].start < episodes[j].start
         || (episodes[i].start == episodes[j].start && episodes[i].end < episodes[j].end)
         || (episodes[i].start == episodes[j].start && episodes[i].end == episodes[j].end && i < j)
  }

  /** The audit row is about the cell: its route, and the episode that takes it out first. */
  predicate AuditedUnder(c: FulfilledCell, k: AuditKey, episodes: seq<C.Episode>) {
    && c.sku == k.sku && c.origin == k.origin && c.destination == k.destination
    && exists i :: 0 <= i < |episodes| && TakesFirst(episodes, i, c)
         && episodes[i].start == k.start && episodes[i].end == k.end && episodes[i].confidence == k.confidence
  }

  function AuditedUnits(k: AuditKey, weeks: set<int>, episodes: seq<C.Episode>): FulfilledCell -> nat {
    (c: FulfilledCell) => if InWeeks(c, weeks) && AuditedUnder(c, k, episodes) then c.quantity else 0
  }

  lemma {:induction false} EarliestTakes(episodes: seq<C.Episode>, c: FulfilledCell) returns (i: nat)
    requires EpisodeOn(episodes, DayOf(c)).Some?
    ensures i < |episodes| && episodes[i] == EpisodeOn(episodes, DayOf(c)).value && TakesFirst(episodes, i, c)
  {
    var n := |episodes| - 1;
    var before, last := EpisodeOn(episodes[..n], DayOf(c)), episodes[n];
    if Removes(last, DayOf(c)) && (before.None? || Earlier(last, before.value)) {
      i := n;
      if before.Some? {
        var k := EarliestTakes(episodes[..n], c);
        NoneBefore(episodes[..n], k, c, last);
      }
      forall j | 0 <= j < n && Takes(episodes[j], c)
        ensures last.start < episodes[j].start || (last.start == episodes[j].start && last.end < episodes[j].end) {
        assert episodes[..n][j] == episodes[j] && Removes(episodes[j], DayOf(c));
        assert episodes[..n][j] in episodes[..n];
      }
    } else {
      i := EarliestTakes(episodes[..n], c);
      forall j | 0 <= j < n ensures episodes[..n][j] == episodes[j] {
      }
    }
  }

  lemma NoneBefore(episodes: seq<C.Episode>, k: nat, c: FulfilledCell, e: C.Episode)
    requires k < |episodes| && TakesFirst(episodes, k, c) && Earlier(e, episodes[k])
    ensures forall x <- episodes :: Takes(x, c) ==> e.start < x.start || (e.start == x.start && e.end < x.end)
  {
  }

  lemma TakesFirstIsOne(episodes: seq<C.Episode>, i: nat, j: nat, c: FulfilledCell)
    requires i < |episodes| && j < |episodes| && TakesFirst(episodes, i, c) && TakesFirst(episodes, j, c)
    ensures i == j
  {
  }

  lemma AuditedCell(c: FulfilledCell, k: AuditKey, episodes: seq<C.Episode>)
    ensures TakenOut(c, episodes) && AuditOf(episodes)(c) == k <==> AuditedUnder(c, k, episodes)
  {
    TakenMeansRemoved(c, episodes);
    if EpisodeOn(episodes, DayOf(c)).Some? {
      var i := EarliestTakes(episodes, c);
      forall j: nat | j < |episodes| && TakesFirst(episodes, j, c) ensures j == i {
        TakesFirstIsOne(episodes, i, j, c);
      }
    }
  }

  /** Every audit row holds the units of the cells on its route that its episode takes out first. */
  lemma AuditMeans(observed: Profile, cells: seq<FulfilledCell>, episodes: seq<C.Episode>, i: nat)
    requires CleanProfile(observed, cells, episodes).Ok?
    requires i < |CleanProfile(observed, cells, episodes).value.audit|
    ensures var row := CleanProfile(observed, cells, episodes).value.audit[i];
      row.quantity == SumBy(cells, AuditedUnits(row.key, observed.weeks, episodes))
  {
    var history := Historical(cells, observed.weeks);
    var removed := Removed(history, episodes);
    var k := AuditKeys(removed, episodes)[i];
    var under := At(AuditOf(episodes), k, FulfilledUnits());
    var taken := Only(Taken(episodes), under);
    SumRemoved(history, episodes, under);
    SumHistorical(cells, observed.weeks, taken);
    forall c | c in cells ensures Only(WithinWeeks(observed.weeks), taken)(c) == AuditedUnits(k, observed.weeks, episodes)(c) {
      AuditedCell(c, k, episodes);
    }
    SumAgrees(cells, Only(WithinWeeks(observed.weeks), taken), AuditedUnits(k, observed.weeks, episodes));
  }
}
