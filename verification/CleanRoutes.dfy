/** Route distributions with stockout days removed (backend/analytics/clean_routes.py). */
module CleanRoutes {
  import opened Wrappers
  import opened Text
  import opened Sequences
  import opened StableSort
  import opened Sums
  import opened KeyedTotals
  import opened DailyFacts
  import opened WeeklyRoutes
  import L = LocalitySeries
  import S = StockoutWindows
  import C = StockoutEpisodes

  // ---- distributions per origin ----

  datatype Lane = Lane(sku: string, origin: string, destination: string)

  datatype Row = Row(lane: Lane, quantity: nat, count: nat, share: real)

  function RouteLane(): Route -> Lane {
    (r: Route) => Lane(r.key.sku, r.key.origin, r.key.destination)
  }

  function LaneOrigin(l: Lane): OriginKey {
    OriginKey(l.sku, l.origin)
  }

  predicate LaneLe(a: Lane, b: Lane) {
    if a.sku != b.sku then TextLe(a.sku, b.sku)
    else if a.origin != b.origin then TextLe(a.origin, b.origin)
    else TextLe(a.destination, b.destination)
  }

  function LaneOrder(): (Lane, Lane) -> bool {
    (a: Lane, b: Lane) => LaneLe(a, b)
  }

  function OriginUnits(routes: seq<Route>, g: OriginKey): nat {
    SumBy(routes, At(RouteOrigin(), g, RouteUnits()))
  }

  function RowAt(routes: seq<Route>, l: Lane): Row {
    var q := PerKey(routes, RouteLane(), RouteUnits())(l);
    Row(l, q, PerKey(routes, RouteLane(), RouteCount())(l), Share(q, OriginUnits(routes, LaneOrigin(l))))
  }

  function Lanes(routes: seq<Route>): seq<Lane> {
    Sort(Distinct(routes, RouteLane()), LaneOrder())
  }

  /** `_aggregate` */
  function Aggregated(routes: seq<Route>): (rows: seq<Row>)
    ensures |rows| == |Lanes(routes)| && forall i :: 0 <= i < |rows| ==> rows[i] == RowAt(routes, Lanes(routes)[i])
  {
    seq(|Lanes(routes)|, i requires 0 <= i < |Lanes(routes)| => RowAt(routes, Lanes(routes)[i]))
  }

  /** The dictionaries `totals` and `origin_totals`. */
  ghost predicate Tabled(routes: seq<Route>, totals: map<Lane, Total>, origins: map<OriginKey, Total>) {
    && (forall l <- Distinct(routes, RouteLane()) :: l in totals
         && totals[l] == Total(PerKey(routes, RouteLane(), RouteUnits())(l), PerKey(routes, RouteLane(), RouteCount())(l)))
    && (forall g <- Distinct(routes, RouteOrigin()) :: g in origins && origins[g].quantity == PerKey(routes, RouteOrigin(), RouteUnits())(g))
  }

  /** One row, from the dictionaries. */
  function EmitRow(l: Lane, totals: map<Lane, Total>, origins: map<OriginKey, Total>): Row
    requires l in totals && LaneOrigin(l) in origins
  {
    Row(l, totals[l].quantity, totals[l].count, Share(totals[l].quantity, origins[LaneOrigin(l)].quantity))
  }

  lemma EmittedRow(routes: seq<Route>, l: Lane, totals: map<Lane, Total>, origins: map<OriginKey, Total>)
    requires Tabled(routes, totals, origins) && l in Distinct(routes, RouteLane())
    ensures l in totals && LaneOrigin(l) in origins && EmitRow(l, totals, origins) == RowAt(routes, l)
  {
    LaneHasOrigin(routes, l);
  }

  method EmitRows(routes: seq<Route>, lanes: seq<Lane>, totals: map<Lane, Total>, origins: map<OriginKey, Total>) returns (rows: seq<Row>)
    requires Tabled(routes, totals, origins) && forall l <- lanes :: l in Distinct(routes, RouteLane())
    ensures |rows| == |lanes| && forall k :: 0 <= k < |lanes| ==> rows[k] == RowAt(routes, lanes[k])
  {
    rows := [];
    for i := 0 to |lanes|
      invariant |rows| == i && forall k :: 0 <= k < i ==> rows[k] == RowAt(routes, lanes[k])
    {
      EmittedRow(routes, lanes[i], totals, origins);
      rows := rows + [EmitRow(lanes[i], totals, origins)];
    }
  }

  method Aggregate(routes: seq<Route>) returns (rows: seq<Row>)
    ensures rows == Aggregated(routes)
  {
    var order, totals := Accumulate(routes, RouteLane(), RouteUnits(), RouteCount());
    var origins, originTotals := Accumulate(routes, RouteOrigin(), RouteUnits(), RouteCount());
    SortElements(order, LaneOrder());
    rows := EmitRows(routes, Sort(order, LaneOrder()), totals, originTotals);
  }

  lemma LaneHasOrigin(routes: seq<Route>, l: Lane)
    requires l in Distinct(routes, RouteLane())
    ensures LaneOrigin(l) in Distinct(routes, RouteOrigin())
    ensures PerKey(routes, RouteOrigin(), RouteUnits())(LaneOrigin(l)) == OriginUnits(routes, LaneOrigin(l))
  {
    var r :| r in routes && RouteLane()(r) == l;
    assert RouteOrigin()(r) == LaneOrigin(l);
  }

  function RowOrigin(): Row -> OriginKey {
    (r: Row) => LaneOrigin(r.lane)
  }

  function RowUnits(): Row -> nat {
    (r: Row) => r.quantity
  }

  function RowCount(): Row -> nat {
    (r: Row) => r.count
  }

  lemma LaneUnder(routes: seq<Route>, l: Lane, g: OriginKey, f: Route -> nat)
    ensures PerKey(routes, RouteLane(), At(RouteOrigin(), g, f))(l) == if LaneOrigin(l) == g then PerKey(routes, RouteLane(), f)(l) else 0
  {
    var a := At(RouteLane(), l, At(RouteOrigin(), g, f));
    if LaneOrigin(l) == g {
      SumAgrees(routes, a, At(RouteLane(), l, f));
    } else {
      SumZero(routes, a);
    }
    assert PerKey(routes, RouteLane(), At(RouteOrigin(), g, f))(l) == SumBy(routes, a);
  }

  lemma LanesOf(routes: seq<Route>)
    ensures NoDup(Lanes(routes))
    ensures forall r <- routes :: RouteLane()(r) in Lanes(routes)
  {
    var distinct := Distinct(routes, RouteLane());
    SortKeeps(distinct, LaneOrder());
    SortElements(distinct, LaneOrder());
    NoDupAmong(distinct, Lanes(routes));
    forall r | r in routes ensures RouteLane()(r) in Lanes(routes) {
      assert RouteLane()(r) in distinct;
    }
  }

  lemma LanesSum(routes: seq<Route>, g: OriginKey, f: Route -> nat, h: Row -> nat)
    requires forall l :: h(RowAt(routes, l)) == PerKey(routes, RouteLane(), f)(l)
    ensures SumBy(Aggregated(routes), At(RowOrigin(), g, h)) == SumBy(routes, At(RouteOrigin(), g, f))
  {
    var lanes, rows := Lanes(routes), Aggregated(routes);
    LanesOf(routes);
    SumPerKey(routes, lanes, RouteLane(), At(RouteOrigin(), g, f));
    var per := PerKey(routes, RouteLane(), At(RouteOrigin(), g, f));
    forall i | 0 <= i < |lanes| ensures At(RowOrigin(), g, h)(rows[i]) == per(lanes[i]) {
      LaneUnder(routes, lanes[i], g, f);
      assert rows[i] == RowAt(routes, lanes[i]);
    }
    SumMapped(lanes, per, rows, At(RowOrigin(), g, h));
  }

  /** Aggregation loses no units and no observations of an origin. */
  lemma AggregationKeeps(routes: seq<Route>, g: OriginKey)
    ensures SumBy(Aggregated(routes), At(RowOrigin(), g, RowUnits())) == SumBy(routes, At(RouteOrigin(), g, RouteUnits()))
    ensures SumBy(Aggregated(routes), At(RowOrigin(), g, RowCount())) == SumBy(routes, At(RouteOrigin(), g, RouteCount()))
  {
    LanesSum(routes, g, RouteUnits(), RowUnits());
    LanesSum(routes, g, RouteCount(), RowCount());
  }

  /** The sum of the shares that a distribution shows for one origin. */
  function ShareSumOf(rows: seq<Row>, g: OriginKey): real {
    if |rows| == 0 then 0.0 else ShareSumOf(rows[1..], g) + if RowOrigin()(rows[0]) == g then rows[0].share else 0.0
  }

  lemma ShareZero(whole: nat)
    requires whole > 0
    ensures Ratio(0, whole) == 0.0
  {
  }

  lemma {:induction false} ShareSumIsRatio(rows: seq<Row>, g: OriginKey, whole: nat)
    requires whole > 0 && forall r <- rows :: RowOrigin()(r) == g ==> r.share == Ratio(r.quantity, whole)
    ensures ShareSumOf(rows, g) == Ratio(SumBy(rows, At(RowOrigin(), g, RowUnits())), whole)
  {
    if |rows| == 0 {
      ShareZero(whole);
    } else {
      HeadTail(rows);
      ShareSumIsRatio(rows[1..], g, whole);
      var rest := SumBy(rows[1..], At(RowOrigin(), g, RowUnits()));
      if RowOrigin()(rows[0]) == g {
        RatioAdds(rows[0].quantity, rest, whole);
      }
    }
  }

  /** The exact shares of an origin that ships anything sum to one. */
  lemma DistributionSumsToOne(routes: seq<Route>, g: OriginKey)
    requires OriginUnits(routes, g) > 0
    ensures ShareSumOf(Aggregated(routes), g) == 1.0
  {
    var rows, whole := Aggregated(routes), OriginUnits(routes, g);
    forall r | r in rows && RowOrigin()(r) == g ensures r.share == Ratio(r.quantity, whole) {
      var i :| 0 <= i < |rows| && rows[i] == r;
      assert r == RowAt(routes, Lanes(routes)[i]);
    }
    ShareSumIsRatio(rows, g, whole);
    AggregationKeeps(routes, g);
    WholeIsOne(whole);
  }

  // ---- which days are removed ----

  datatype CellDay = CellDay(key: L.SeriesKey, day: int)

  function DayOf(c: FulfilledCell): CellDay {
    CellDay(L.SeriesKey(c.sku, c.destination), c.day)
  }

  predicate Removes(e: C.Episode, d: CellDay) {
    e.eligible && e.key == d.key && d.day in e.affected
  }

  predicate Earlier(a: C.Episode, b: C.Episode) {
    a.start < b.start || (a.start == b.start && a.end < b.end)
  }

  /** `eligible_by_day`: the earliest eligible episode that affects the day. */
  function EpisodeOn(episodes: seq<C.Episode>, d: CellDay): (e: Option<C.Episode>)
    ensures e.Some? ==> e.value in episodes && Removes(e.value, d)
    ensures e.None? <==> forall x <- episodes :: !Removes(x, d)
  {
    if |episodes| == 0 then None
    else
      var before, last := EpisodeOn(episodes[..|episodes| - 1], d), episodes[|episodes| - 1];
      InitLast(episodes);
      if Removes(last, d) && (before.None? || Earlier(last, before.value)) then Some(last) else before
  }

  ghost predicate Mapped(byDay: map<CellDay, C.Episode>, episodes: seq<C.Episode>) {
    forall d :: EpisodeOn(episodes, d) == if d in byDay then Some(byDay[d]) else None
  }

  /** The dictionary while the days of one more episode are entered. */
  ghost predicate Entering(byDay: map<CellDay, C.Episode>, episodes: seq<C.Episode>, e: C.Episode, days: seq<int>) {
    forall d :: (if d in byDay then Some(byDay[d]) else None) ==
      if d.key == e.key && d.day in days then EpisodeOn(episodes + [e], d) else EpisodeOn(episodes, d)
  }

  lemma EpisodeSnoc(episodes: seq<C.Episode>, e: C.Episode, d: CellDay)
    ensures EpisodeOn(episodes + [e], d) ==
      var before := EpisodeOn(episodes, d); if Removes(e, d) && (before.None? || Earlier(e, before.value)) then Some(e) else before
  {
    SnocInit(episodes, e);
  }

  method EnterEpisode(byDay: map<CellDay, C.Episode>, e: C.Episode, ghost episodes: seq<C.Episode>) returns (m: map<CellDay, C.Episode>)
    requires Mapped(byDay, episodes)
    ensures Mapped(m, episodes + [e])
  {
    m := byDay;
    if e.eligible {
      for i := 0 to |e.affected|
        invariant Entering(m, episodes, e, e.affected[..i])
      {
        var d := CellDay(e.key, e.affected[i]);
        TakeNext(e.affected, i);
        EpisodeSnoc(episodes, e, d);
        if d !in m || Earlier(e, m[d]) {
          m := m[d := e];
        }
      }
      TakeAll(e.affected);
    }
    forall d ensures EpisodeOn(episodes + [e], d) == if d in m then Some(m[d]) else None {
      EpisodeSnoc(episodes, e, d);
    }
  }

  /** The loop over the episodes. */
  method MapDays(episodes: seq<C.Episode>) returns (byDay: map<CellDay, C.Episode>)
    ensures Mapped(byDay, episodes)
  {
    byDay := map[];
    for i := 0 to |episodes|
      invariant Mapped(byDay, episodes[..i])
    {
      byDay := EnterEpisode(byDay, episodes[i], episodes[..i]);
      TakeNext(episodes, i);
    }
    TakeAll(episodes);
  }

  // ---- the clean profile ----

  datatype AuditKey = AuditKey(sku: string, start: int, end: int, origin: string, destination: string, confidence: C.Confidence)

  datatype AuditRow = AuditRow(key: AuditKey, quantity: nat, count: nat)

  datatype Summary = Summary(
    origin: OriginKey, observed: Total, clean: Total, excluded: Total,
    observedShares: real, cleanShares: Option<real>, fallback: bool)

  datatype CleanResult = CleanResult(observed: seq<Row>, clean: seq<Row>, summaries: seq<Summary>, audit: seq<AuditRow>)

  datatype UniverseMismatch = UniverseMismatch

  /** The cells of the weeks that the observed profile includes. */
  function Historical(cells: seq<FulfilledCell>, weeks: set<int>): (r: seq<FulfilledCell>)
    ensures forall c :: c in r <==> c in cells && S.Week(c.day) in weeks
  {
    if |cells| == 0 then []
    else
      var init, last := Historical(cells[..|cells| - 1], weeks), cells[|cells| - 1];
      InitLast(cells);
      if S.Week(last.day) in weeks then init + [last] else init
  }

  function Removed(cells: seq<FulfilledCell>, episodes: seq<C.Episode>): (r: seq<FulfilledCell>)
    ensures forall c :: c in r <==> c in cells && EpisodeOn(episodes, DayOf(c)).Some?
  {
    if |cells| == 0 then []
    else
      var init, last := Removed(cells[..|cells| - 1], episodes), cells[|cells| - 1];
      InitLast(cells);
      if EpisodeOn(episodes, DayOf(last)).Some? then init + [last] else init
  }

  function Left(cells: seq<FulfilledCell>, episodes: seq<C.Episode>): (r: seq<FulfilledCell>)
    ensures forall c :: c in r <==> c in cells && EpisodeOn(episodes, DayOf(c)).None?
  {
    if |cells| == 0 then []
    else
      var init, last := Left(cells[..|cells| - 1], episodes), cells[|cells| - 1];
      InitLast(cells);
      if EpisodeOn(episodes, DayOf(last)).Some? then init else init + [last]
  }

  /** Of one cell, the key of its audit row. */
  function AuditOf(episodes: seq<C.Episode>): FulfilledCell -> AuditKey {
    (c: FulfilledCell) =>
      var e := EpisodeOn(episodes, DayOf(c));
      if e.Some? then AuditKey(c.sku, e.value.start, e.value.end, c.origin, c.destination, e.value.confidence)
      else AuditKey(c.sku, 0, 0, c.origin, c.destination, C.Low)
  }

  predicate AuditLe(a: AuditKey, b: AuditKey) {
    if a.sku != b.sku then TextLe(a.sku, b.sku)
    else if a.start != b.start then a.start < b.start
    else if a.end != b.end then a.end < b.end
    else if a.origin != b.origin then TextLe(a.origin, b.origin)
    else TextLe(a.destination, b.destination)
  }

  function AuditOrder(): (AuditKey, AuditKey) -> bool {
    (a: AuditKey, b: AuditKey) => AuditLe(a, b)
  }

  function AuditRowAt(removed: seq<FulfilledCell>, episodes: seq<C.Episode>, k: AuditKey): AuditRow {
    AuditRow(k, PerKey(removed, AuditOf(episodes), FulfilledUnits())(k), PerKey(removed, AuditOf(episodes), FulfilledCount())(k))
  }

  function AuditKeys(removed: seq<FulfilledCell>, episodes: seq<C.Episode>): seq<AuditKey> {
    Sort(Distinct(removed, AuditOf(episodes)), AuditOrder())
  }

  function Audit(removed: seq<FulfilledCell>, episodes: seq<C.Episode>): (rows: seq<AuditRow>)
    ensures |rows| == |AuditKeys(removed, episodes)|
    ensures forall i :: 0 <= i < |rows| ==> rows[i] == AuditRowAt(removed, episodes, AuditKeys(removed, episodes)[i])
  {
    var keys := AuditKeys(removed, episodes);
    seq(|keys|, i requires 0 <= i < |keys| => AuditRowAt(removed, episodes, keys[i]))
  }

  /** `_origin_totals` at one origin, zero when it is absent. */
  function OriginTotal(rows: seq<Row>, g: OriginKey): Total {
    Total(SumBy(rows, At(RowOrigin(), g, RowUnits())), SumBy(rows, At(RowOrigin(), g, RowCount())))
  }

  function CellTotal(cells: seq<FulfilledCell>, g: OriginKey): Total {
    Total(SumBy(cells, At(CellOrigin(), g, FulfilledUnits())), SumBy(cells, At(CellOrigin(), g, FulfilledCount())))
  }

  function SummaryAt(observed: seq<Row>, clean: seq<Row>, removed: seq<FulfilledCell>, g: OriginKey): Summary {
    var known := g in Distinct(clean, RowOrigin());
    Summary(g, OriginTotal(observed, g), OriginTotal(clean, g), CellTotal(removed, g),
            ShareSumOf(observed, g), if known then Some(ShareSumOf(clean, g)) else None, !known)
  }

  predicate OriginLe(a: OriginKey, b: OriginKey) {
    if a.sku != b.sku then TextLe(a.sku, b.sku) else TextLe(a.origin, b.origin)
  }

  function OriginOrder(): (OriginKey, OriginKey) -> bool {
    (a: OriginKey, b: OriginKey) => OriginLe(a, b)
  }

  function Origins(observed: seq<Row>): seq<OriginKey> {
    Sort(Distinct(observed, RowOrigin()), OriginOrder())
  }

  function Summaries(observed: seq<Row>, clean: seq<Row>, removed: seq<FulfilledCell>): (ss: seq<Summary>)
    ensures |ss| == |Origins(observed)| && forall i :: 0 <= i < |ss| ==> ss[i] == SummaryAt(observed, clean, removed, Origins(observed)[i])
  {
    var gs := Origins(observed);
    seq(|gs|, i requires 0 <= i < |gs| => SummaryAt(observed, clean, removed, gs[i]))
  }

  /** `build_episode_clean_route_profile` */
  function CleanProfile(observed: Profile, cells: seq<FulfilledCell>, episodes: seq<C.Episode>): Result<CleanResult, UniverseMismatch> {
    var historical := Historical(cells, observed.weeks);
    if Weekly(historical, observed.asOf).routes != observed.routes then Err(UniverseMismatch)
    else
      var removed := Removed(historical, episodes);
      var rows, clean := Aggregated(observed.routes), Aggregated(Weekly(Left(historical, episodes), observed.asOf).routes);
      Ok(CleanResult(rows, clean, Summaries(rows, clean, removed), Audit(removed, episodes)))
  }

  // ---- the loops of `build_episode_clean_route_profile` ----

  method SelectWeeks(cells: seq<FulfilledCell>, weeks: set<int>) returns (historical: seq<FulfilledCell>)
    ensures historical == Historical(cells, weeks)
  {
    historical := [];
    for i := 0 to |cells|
      invariant historical == Historical(cells[..i], weeks)
    {
      TakeTake(cells, i);
      if S.Week(cells[i].day) in weeks {
        historical := historical + [cells[i]];
      }
    }
    TakeAll(cells);
  }

  method SplitCells(cells: seq<FulfilledCell>, byDay: map<CellDay, C.Episode>, ghost episodes: seq<C.Episode>)
    returns (clean: seq<FulfilledCell>, removed: seq<FulfilledCell>)
    requires Mapped(byDay, episodes)
    ensures clean == Left(cells, episodes) && removed == Removed(cells, episodes)
  {
    clean, removed := [], [];
    for i := 0 to |cells|
      invariant clean == Left(cells[..i], episodes) && removed == Removed(cells[..i], episodes)
    {
      TakeTake(cells, i);
      if DayOf(cells[i]) in byDay {
        removed := removed + [cells[i]];
      } else {
        clean := clean + [cells[i]];
      }
    }
    TakeAll(cells);
  }

  method MakeAudit(removed: seq<FulfilledCell>, episodes: seq<C.Episode>) returns (rows: seq<AuditRow>)
    ensures rows == Audit(removed, episodes)
  {
    var order, totals := Accumulate(removed, AuditOf(episodes), FulfilledUnits(), FulfilledCount());
    var keys := Sort(order, AuditOrder());
    SortElements(order, AuditOrder());
    assert forall i :: 0 <= i < |keys| ==> keys[i] in order;
    rows := seq(|keys|, i requires 0 <= i < |keys| && keys[i] in totals => AuditRow(keys[i], totals[keys[i]].quantity, totals[keys[i]].count));
  }

  /** `totals.get((sku, origin), (0, 0))` */
  function TotalIn(totals: map<OriginKey, Total>, g: OriginKey): Total {
    if g in totals then totals[g] else Total(0, 0)
  }

  method OriginTotals(rows: seq<Row>) returns (order: seq<OriginKey>, totals: map<OriginKey, Total>)
    ensures order == Distinct(rows, RowOrigin()) && (forall g :: g in totals <==> g in order)
    ensures forall g :: TotalIn(totals, g) == OriginTotal(rows, g)
  {
    order, totals := Accumulate(rows, RowOrigin(), RowUnits(), RowCount());
    forall g ensures TotalIn(totals, g) == OriginTotal(rows, g) {
      if g !in totals {
        NothingUnder(rows, RowOrigin(), RowUnits(), g);
        NothingUnder(rows, RowOrigin(), RowCount(), g);
      }
    }
  }

  method RemovedTotals(cells: seq<FulfilledCell>) returns (totals: map<OriginKey, Total>)
    ensures forall g :: TotalIn(totals, g) == CellTotal(cells, g)
  {
    var order;
    order, totals := Accumulate(cells, CellOrigin(), FulfilledUnits(), FulfilledCount());
    forall g ensures TotalIn(totals, g) == CellTotal(cells, g) {
      if g !in totals {
        NothingUnder(cells, CellOrigin(), FulfilledUnits(), g);
        NothingUnder(cells, CellOrigin(), FulfilledCount(), g);
      }
    }
  }

  /** One summary, from the dictionaries. */
  function EmitSummary(g: OriginKey, observed: seq<Row>, clean: seq<Row>, observedTotals: map<OriginKey, Total>,
                       cleanTotals: map<OriginKey, Total>, removedTotals: map<OriginKey, Total>): Summary {
    Summary(g, TotalIn(observedTotals, g), TotalIn(cleanTotals, g), TotalIn(removedTotals, g), ShareSumOf(observed, g),
            if g in cleanTotals then Some(ShareSumOf(clean, g)) else None, g !in cleanTotals)
  }

  lemma EmittedSummary(g: OriginKey, observed: seq<Row>, clean: seq<Row>, removed: seq<FulfilledCell>, observedTotals: map<OriginKey, Total>,
                       cleanTotals: map<OriginKey, Total>, removedTotals: map<OriginKey, Total>)
    requires TotalIn(observedTotals, g) == OriginTotal(observed, g) && TotalIn(removedTotals, g) == CellTotal(removed, g)
    requires TotalIn(cleanTotals, g) == OriginTotal(clean, g) && (g in cleanTotals <==> g in Distinct(clean, RowOrigin()))
    ensures EmitSummary(g, observed, clean, observedTotals, cleanTotals, removedTotals) == SummaryAt(observed, clean, removed, g)
  {
  }

  method Summarize(observed: seq<Row>, clean: seq<Row>, removed: seq<FulfilledCell>) returns (ss: seq<Summary>)
    ensures ss == Summaries(observed, clean, removed)
  {
    var observedOrder, observedTotals := OriginTotals(observed);
    var cleanOrder, cleanTotals := OriginTotals(clean);
    var removedTotals := RemovedTotals(removed);
    var gs := Sort(observedOrder, OriginOrder());
    ss := [];
    for i := 0 to |gs|
      invariant |ss| == i && forall k :: 0 <= k < i ==> ss[k] == SummaryAt(observed, clean, removed, gs[k])
    {
      EmittedSummary(gs[i], observed, clean, removed, observedTotals, cleanTotals, removedTotals);
      ss := ss + [EmitSummary(gs[i], observed, clean, observedTotals, cleanTotals, removedTotals)];
    }
  }

  method BuildCleanProfile(observed: Profile, cells: seq<FulfilledCell>, episodes: seq<C.Episode>) returns (r: Result<CleanResult, UniverseMismatch>)
    ensures r == CleanProfile(observed, cells, episodes)
  {
    var historical := SelectWeeks(cells, observed.weeks);
    var rebuilt := BuildWeekly(historical, observed.asOf);
    if rebuilt.routes != observed.routes {
      return Err(UniverseMismatch);
    }
    var byDay := MapDays(episodes);
    var left, removed := SplitCells(historical, byDay, episodes);
    var cleanWeekly := BuildWeekly(left, observed.asOf);
    var rows := Aggregate(observed.routes);
    var clean := Aggregate(cleanWeekly.routes);
    var summaries := Summarize(rows, clean, removed);
    var audit := MakeAudit(removed, episodes);
    return Ok(CleanResult(rows, clean, summaries, audit));
  }

  // ---- what the clean profile promises ----

  lemma {:induction false} CompletedIsHistorical(cells: seq<FulfilledCell>, asOf: int, weeks: set<int>)
    requires forall c <- cells :: S.Week(c.day) in weeks <==> S.Week(c.day) != S.Week(asOf)
    ensures Historical(cells, weeks) == Completed(cells, asOf)
  {
    if |cells| > 0 {
      InitLast(cells);
      CompletedIsHistorical(cells[..|cells| - 1], asOf, weeks);
    }
  }

  lemma {:induction false} CompletedStays(cells: seq<FulfilledCell>, asOf: int)
    requires forall c <- cells :: S.Week(c.day) != S.Week(asOf)
    ensures Completed(cells, asOf) == cells
  {
    if |cells| > 0 {
      InitLast(cells);
      CompletedStays(cells[..|cells| - 1], asOf);
    }
  }

  /** A profile built from the same daily facts always passes the comparison with its rebuild. */
  lemma RebuildMatches(cells: seq<FulfilledCell>, asOf: int, episodes: seq<C.Episode>)
    ensures S.Week(asOf) !in Weekly(cells, asOf).weeks
    ensures CleanProfile(Weekly(cells, asOf), cells, episodes).Ok?
  {
    var past := Completed(cells, asOf);
    CompletedIsHistorical(cells, asOf, Weekly(cells, asOf).weeks);
    CompletedStays(past, asOf);
  }

  lemma {:induction false} SplitSums(cells: seq<FulfilledCell>, episodes: seq<C.Episode>, f: FulfilledCell -> nat)
    ensures SumBy(cells, f) == SumBy(Left(cells, episodes), f) + SumBy(Removed(cells, episodes), f)
  {
    if |cells| > 0 {
      var init, last := cells[..|cells| - 1], cells[|cells| - 1];
      InitLast(cells);
      SplitSums(init, episodes, f);
      SumSnoc(init, last, f);
      SumSnoc(Left(init, episodes), last, f);
      SumSnoc(Removed(init, episodes), last, f);
    }
  }

  /** Totals of an origin in the distribution of cells that hold no current-week cell. */
  lemma DistributionTotals(cells: seq<FulfilledCell>, asOf: int, g: OriginKey)
    requires forall c <- cells :: S.Week(c.day) != S.Week(asOf)
    ensures OriginTotal(Aggregated(Weekly(cells, asOf).routes), g) == Total(SumBy(cells, UnitsFrom(g)), SumBy(cells, SeenFrom(cells, g)))
  {
    CompletedStays(cells, asOf);
    AggregationKeeps(Weekly(cells, asOf).routes, g);
    WeeklyTotals(cells, Distinct(cells, CellKey()), g);
  }

  /** For every history and every set of episodes: of each SKU and origin, the observed units are the
      clean units plus the excluded ones, although weekly cells without units are dropped. */
  lemma QuantityIsConserved(observed: Profile, cells: seq<FulfilledCell>, episodes: seq<C.Episode>, i: nat)
    requires S.Week(observed.asOf) !in observed.weeks && CleanProfile(observed, cells, episodes).Ok?
    requires i < |CleanProfile(observed, cells, episodes).value.summaries|
    ensures var s := CleanProfile(observed, cells, episodes).value.summaries[i];
      s.observed.quantity == s.clean.quantity + s.excluded.quantity
  {
    var historical := Historical(cells, observed.weeks);
    var g := CleanProfile(observed, cells, episodes).value.summaries[i].origin;
    DistributionTotals(historical, observed.asOf, g);
    DistributionTotals(Left(historical, episodes), observed.asOf, g);
    SplitSums(historical, episodes, UnitsFrom(g));
  }

  /** Observations that leave the clean profile although their day was not removed: their weekly cell
      has units, but none on the days that are left. */
  function Vanished(cells: seq<FulfilledCell>, episodes: seq<C.Episode>, g: OriginKey): FulfilledCell -> nat {
    (c: FulfilledCell) =>
      if OriginKey(c.sku, c.origin) == g && UnitsAt(cells, WeekKeyOf(c)) > 0 && UnitsAt(Left(cells, episodes), WeekKeyOf(c)) == 0 then c.count else 0
  }

  /** Observations that are counted as excluded although the observed profile never showed them:
      their weekly cell has no units at all. */
  function Unseen(cells: seq<FulfilledCell>, g: OriginKey): FulfilledCell -> nat {
    (c: FulfilledCell) => if OriginKey(c.sku, c.origin) == g && UnitsAt(cells, WeekKeyOf(c)) == 0 then c.count else 0
  }

  lemma LeftUnits(cells: seq<FulfilledCell>, episodes: seq<C.Episode>, k: WeekKey)
    ensures UnitsAt(Left(cells, episodes), k) <= UnitsAt(cells, k)
  {
    SplitSums(cells, episodes, At(CellKey(), k, FulfilledUnits()));
  }

  lemma LeftSeen(cells: seq<FulfilledCell>, episodes: seq<C.Episode>, g: OriginKey)
    ensures var left := Left(cells, episodes);
      SumBy(left, SeenFrom(cells, g)) == SumBy(left, SeenFrom(left, g)) + SumBy(left, Vanished(cells, episodes, g))
  {
    var left := Left(cells, episodes);
    forall c | c in left ensures SeenFrom(cells, g)(c) == SeenFrom(left, g)(c) + Vanished(cells, episodes, g)(c) {
      LeftUnits(cells, episodes, WeekKeyOf(c));
    }
    SumPlus(left, SeenFrom(left, g), Vanished(cells, episodes, g), SeenFrom(cells, g));
  }

  lemma RemovedSeen(cells: seq<FulfilledCell>, removed: seq<FulfilledCell>, g: OriginKey)
    ensures SumBy(removed, At(CellOrigin(), g, FulfilledCount())) == SumBy(removed, SeenFrom(cells, g)) + SumBy(removed, Unseen(cells, g))
  {
    SumPlus(removed, SeenFrom(cells, g), Unseen(cells, g), At(CellOrigin(), g, FulfilledCount()));
  }

  /** Observation counts are not conserved in general; this is the exact balance, and so they are
      conserved exactly when as many observations vanish as were unseen. */
  lemma ObservationBalance(observed: Profile, cells: seq<FulfilledCell>, episodes: seq<C.Episode>, i: nat)
    requires S.Week(observed.asOf) !in observed.weeks && CleanProfile(observed, cells, episodes).Ok?
    requires i < |CleanProfile(observed, cells, episodes).value.summaries|
    ensures var s := CleanProfile(observed, cells, episodes).value.summaries[i];
      var historical := Historical(cells, observed.weeks);
      var vanished := SumBy(Left(historical, episodes), Vanished(historical, episodes, s.origin));
      var unseen := SumBy(Removed(historical, episodes), Unseen(historical, s.origin));
      && s.observed.count + unseen == s.clean.count + s.excluded.count + vanished
      && (s.observed.count == s.clean.count + s.excluded.count <==> vanished == unseen)
  {
    var historical := Historical(cells, observed.weeks);
    var g := CleanProfile(observed, cells, episodes).value.summaries[i].origin;
    DistributionTotals(historical, observed.asOf, g);
    DistributionTotals(Left(historical, episodes), observed.asOf, g);
    SplitSums(historical, episodes, SeenFrom(historical, g));
    LeftSeen(historical, episodes, g);
    RemovedSeen(historical, Removed(historical, episodes), g);
  }

  lemma CellIsUnderItsKey(cells: seq<FulfilledCell>, c: FulfilledCell)
    requires c in cells
    ensures c.quantity <= UnitsAt(cells, WeekKeyOf(c))
  {
    L.MemberWithinSum(cells, c, At(CellKey(), WeekKeyOf(c), FulfilledUnits()));
  }

  /** Where every daily cell has units, observation counts are conserved too. */
  lemma CountsAreConservedWithUnits(observed: Profile, cells: seq<FulfilledCell>, episodes: seq<C.Episode>, i: nat)
    requires S.Week(observed.asOf) !in observed.weeks && CleanProfile(observed, cells, episodes).Ok?
    requires i < |CleanProfile(observed, cells, episodes).value.summaries|
    requires forall c <- cells :: c.quantity > 0
    ensures var s := CleanProfile(observed, cells, episodes).value.summaries[i]; s.observed.count == s.clean.count + s.excluded.count
  {
    var historical := Historical(cells, observed.weeks);
    var left, removed := Left(historical, episodes), Removed(historical, episodes);
    var g := CleanProfile(observed, cells, episodes).value.summaries[i].origin;
    ObservationBalance(observed, cells, episodes, i);
    forall c | c in left ensures Vanished(historical, episodes, g)(c) == 0 {
      CellIsUnderItsKey(left, c);
    }
    forall c | c in removed ensures Unseen(historical, g)(c) == 0 {
      CellIsUnderItsKey(historical, c);
    }
    SumZero(left, Vanished(historical, episodes, g));
    SumZero(removed, Unseen(historical, g));
  }

  /** The orders of the counterexample: five units on a removed Monday, and an order of zero units
      on the Tuesday that is left. */
  function LeakyOrders(): seq<Order> {
    [Order("1", "A", "B", 5, Fulfilled, Some(1)), Order("1", "A", "B", 0, Fulfilled, Some(2))]
  }

  /** Their fulfillment cells. */
  function LeakyCells(): seq<FulfilledCell> {
    [FulfilledCell("1", "A", "B", 1, 5, 1), FulfilledCell("1", "A", "B", 2, 0, 1)]
  }

  function LeakyEpisodes(): seq<C.Episode> {
    [C.Episode(L.SeriesKey("1", "B"), 1, 1, [1], -6, 0, 1.0, 0.0, 1.0, [], S.HistoricalComplete, true, C.Neutral, C.High)]
  }

  lemma LeakyKeys()
    ensures var first, second := RouteKey(1, "1", "A", "B"), RouteKey(2, "1", "A", "B");
      Sort(Distinct(LeakyOrders(), RouteKeyOf()), RouteOrder()) == [first, second]
  {
    var first, second := RouteKey(1, "1", "A", "B"), RouteKey(2, "1", "A", "B");
    var orders := LeakyOrders();
    assert orders[..1] == [orders[0]] && orders[..1][..0] == [];
    assert Distinct(orders[..1], RouteKeyOf()) == [first];
    assert Distinct(orders, RouteKeyOf()) == [first, second];
    assert [first, second][1..] == [second] && Sort([second], RouteOrder()) == [second];
  }

  lemma LeakyTotals(f: Order -> nat)
    ensures PerKey(LeakyOrders(), RouteKeyOf(), f)(RouteKey(1, "1", "A", "B")) == f(LeakyOrders()[0])
    ensures PerKey(LeakyOrders(), RouteKeyOf(), f)(RouteKey(2, "1", "A", "B")) == f(LeakyOrders()[1])
  {
    SumOfTwo(LeakyOrders()[0], LeakyOrders()[1], At(RouteKeyOf(), RouteKey(1, "1", "A", "B"), f));
    SumOfTwo(LeakyOrders()[0], LeakyOrders()[1], At(RouteKeyOf(), RouteKey(2, "1", "A", "B"), f));
  }

  lemma LeakyPast()
    ensures forall o <- LeakyOrders() :: ValidOrder(o)
    ensures Pick(LeakyOrders(), PastRoute(8)) == LeakyOrders()
  {
    var orders := LeakyOrders();
    assert '1' in "1" && 'A' in "A" && 'B' in "B";
    assert !Blank("1") && !Blank("A") && !Blank("B");
    assert orders[..1] == [orders[0]] && orders[..1][..0] == [];
    assert Pick(orders[..1], PastRoute(8)) == [orders[0]];
  }

  /** The cells are what the orders give. */
  lemma LeakyFacts()
    ensures forall o <- LeakyOrders() :: ValidOrder(o)
    ensures FulfilledCells(Pick(LeakyOrders(), PastRoute(8))) == LeakyCells()
  {
    LeakyPast();
    LeakyKeys();
    LeakyTotals(Units());
    LeakyTotals(One());
  }

  lemma LeakySplit()
    ensures Left(LeakyCells(), LeakyEpisodes()) == [LeakyCells()[1]]
    ensures Removed(LeakyCells(), LeakyEpisodes()) == [LeakyCells()[0]]
  {
    var cells, e := LeakyCells(), LeakyEpisodes()[0];
    assert cells[..1] == [cells[0]] && cells[..1][..0] == [];
    assert Removes(e, DayOf(cells[0])) && !Removes(e, DayOf(cells[1]));
    assert e in LeakyEpisodes();
    assert EpisodeOn(LeakyEpisodes(), DayOf(cells[0])).Some?;
    assert forall x <- LeakyEpisodes() :: x == e;
    assert EpisodeOn(LeakyEpisodes(), DayOf(cells[1])).None?;
    assert Left(cells[..1], LeakyEpisodes()) == [];
    assert Removed(cells[..1], LeakyEpisodes()) == [cells[0]];
  }

  lemma SumOfTwo<T>(a: T, b: T, f: T -> nat)
    ensures SumBy([a, b], f) == f(a) + f(b)
  {
    SumConcat([a], [b], f);
    assert [a] + [b] == [a, b];
  }

  lemma LeakyUnits()
    ensures UnitsAt(LeakyCells(), WeekKey(0, "1", "A", "B")) == 5
    ensures UnitsAt([LeakyCells()[1]], WeekKey(0, "1", "A", "B")) == 0
  {
    SumOfTwo(LeakyCells()[0], LeakyCells()[1], At(CellKey(), WeekKey(0, "1", "A", "B"), FulfilledUnits()));
  }

  lemma LeakyBalance(g: OriginKey)
    requires g == OriginKey("1", "A")
    ensures SumBy([LeakyCells()[1]], Vanished(LeakyCells(), LeakyEpisodes(), g)) == 1
    ensures SumBy([LeakyCells()[0]], Unseen(LeakyCells(), g)) == 0
  {
    LeakySplit();
    LeakyUnits();
    assert WeekKeyOf(LeakyCells()[1]) == WeekKey(0, "1", "A", "B");
    assert WeekKeyOf(LeakyCells()[0]) == WeekKey(0, "1", "A", "B");
  }

  lemma LeakyHistory()
    ensures Historical(LeakyCells(), Weekly(LeakyCells(), 8).weeks) == LeakyCells()
    ensures 1 !in Weekly(LeakyCells(), 8).weeks
    ensures CleanProfile(Weekly(LeakyCells(), 8), LeakyCells(), LeakyEpisodes()).Ok?
  {
    RebuildMatches(LeakyCells(), 8, LeakyEpisodes());
    LeakyWeeks();
    CompletedIsHistorical(LeakyCells(), 8, {0});
  }

  lemma LeakyWeeks()
    ensures Completed(LeakyCells(), 8) == LeakyCells()
    ensures Weekly(LeakyCells(), 8).weeks == {0}
  {
    CompletedStays(LeakyCells(), 8);
    LeakyWeekSet();
  }

  lemma LeakyWeekSet()
    ensures (set c <- LeakyCells() :: S.Week(c.day)) == {0}
  {
    var cells := LeakyCells();
    assert cells[0] in cells && S.Week(cells[0].day) == 0;
    forall c | c in cells ensures S.Week(c.day) == 0 {
      assert c == cells[0] || c == cells[1];
    }
  }

  lemma LeakOfCells() returns (i: nat)
    ensures CleanProfile(Weekly(LeakyCells(), 8), LeakyCells(), LeakyEpisodes()).Ok?
    ensures var ss := CleanProfile(Weekly(LeakyCells(), 8), LeakyCells(), LeakyEpisodes()).value.summaries;
      i < |ss| && ss[i].observed.count == ss[i].clean.count + ss[i].excluded.count + 1
  {
    var g := OriginKey("1", "A");
    LeakyHistory();
    i := LeakySummary(g);
    ObservationBalance(Weekly(LeakyCells(), 8), LeakyCells(), LeakyEpisodes(), i);
    LeakySplit();
    LeakyBalance(g);
  }

  /** Observation counts leak: a valid order of zero units disappears with its week from the clean
      profile, without being excluded. */
  lemma CountsMayLeak() returns (i: nat)
    ensures forall o <- LeakyOrders() :: ValidOrder(o)
    ensures var cells := FulfilledCells(Pick(LeakyOrders(), PastRoute(8)));
      && CleanProfile(Weekly(cells, 8), cells, LeakyEpisodes()).Ok?
      && var ss := CleanProfile(Weekly(cells, 8), cells, LeakyEpisodes()).value.summaries;
         i < |ss| && ss[i].observed.count == ss[i].clean.count + ss[i].excluded.count + 1
  {
    LeakyFacts();
    i := LeakOfCells();
  }

  lemma ShippingOriginIsShown(routes: seq<Route>, g: OriginKey)
    requires OriginUnits(routes, g) > 0
    ensures g in Distinct(Aggregated(routes), RowOrigin())
  {
    var rows := Aggregated(routes);
    AggregationKeeps(routes, g);
    if g !in Distinct(rows, RowOrigin()) {
      NothingUnder(rows, RowOrigin(), RowUnits(), g);
      assert false;
    }
  }

  /** Every origin that the observed profile shows has a summary. */
  lemma OriginHasSummary(observed: Profile, cells: seq<FulfilledCell>, episodes: seq<C.Episode>, g: OriginKey) returns (i: nat)
    requires CleanProfile(observed, cells, episodes).Ok? && OriginUnits(observed.routes, g) > 0
    ensures i < |CleanProfile(observed, cells, episodes).value.summaries|
    ensures CleanProfile(observed, cells, episodes).value.summaries[i].origin == g
  {
    var rows := Aggregated(observed.routes);
    ShippingOriginIsShown(observed.routes, g);
    SortElements(Distinct(rows, RowOrigin()), OriginOrder());
    i :| 0 <= i < |Origins(rows)| && Origins(rows)[i] == g;
  }

  lemma LeakyOriginShips(g: OriginKey)
    requires g == OriginKey("1", "A")
    ensures OriginUnits(Weekly(LeakyCells(), 8).routes, g) > 0
  {
    var cells := LeakyCells();
    CompletedStays(cells, 8);
    WeeklyTotals(cells, Distinct(cells, CellKey()), g);
    SumOfTwo(cells[0], cells[1], UnitsFrom(g));
  }

  lemma LeakySummary(g: OriginKey) returns (i: nat)
    requires g == OriginKey("1", "A")
    ensures var observed := Weekly(LeakyCells(), 8);
      && CleanProfile(observed, LeakyCells(), LeakyEpisodes()).Ok?
      && i < |CleanProfile(observed, LeakyCells(), LeakyEpisodes()).value.summaries|
      && CleanProfile(observed, LeakyCells(), LeakyEpisodes()).value.summaries[i].origin == g
  {
    RebuildMatches(LeakyCells(), 8, LeakyEpisodes());
    LeakyOriginShips(g);
    i := OriginHasSummary(Weekly(LeakyCells(), 8), LeakyCells(), LeakyEpisodes(), g);
  }

  // ---- shares and audit ----

  lemma {:induction false} RoutesHaveUnits(cells: seq<FulfilledCell>, all: seq<WeekKey>, keys: seq<WeekKey>)
    ensures forall r <- RoutesAt(cells, all, keys) :: r.quantity > 0
  {
    if |keys| > 0 {
      RoutesHaveUnits(cells, all, keys[..|keys| - 1]);
    }
  }

  lemma ShownOriginsShip(routes: seq<Route>, g: OriginKey)
    requires (forall r <- routes :: r.quantity > 0) && g in Distinct(Aggregated(routes), RowOrigin())
    ensures OriginUnits(routes, g) > 0
  {
    var rows := Aggregated(routes);
    var row :| row in rows && RowOrigin()(row) == g;
    var i :| 0 <= i < |rows| && rows[i] == row;
    var l := Lanes(routes)[i];
    SortElements(Distinct(routes, RouteLane()), LaneOrder());
    assert l in Distinct(routes, RouteLane());
    var r :| r in routes && RouteLane()(r) == l;
    L.MemberWithinSum(routes, r, At(RouteOrigin(), g, RouteUnits()));
  }

  /** The observed shares of every summary sum to one, and so do the clean ones where there are any. */
  lemma SummariesSumToOne(observed: Profile, cells: seq<FulfilledCell>, episodes: seq<C.Episode>, i: nat)
    requires CleanProfile(observed, cells, episodes).Ok?
    requires i < |CleanProfile(observed, cells, episodes).value.summaries|
    ensures var s := CleanProfile(observed, cells, episodes).value.summaries[i];
      && s.observedShares == 1.0 && (s.cleanShares.Some? ==> s.cleanShares.value == 1.0)
      && (s.fallback <==> s.cleanShares.None?)
  {
    var historical := Historical(cells, observed.weeks);
    var rows := Aggregated(observed.routes);
    var past, left := Completed(historical, observed.asOf), Completed(Left(historical, episodes), observed.asOf);
    RoutesHaveUnits(past, Distinct(past, CellKey()), Keys(past));
    RoutesHaveUnits(left, Distinct(left, CellKey()), Keys(left));
    var cleanRoutes := Weekly(Left(historical, episodes), observed.asOf).routes;
    var g := Origins(rows)[i];
    SortElements(Distinct(rows, RowOrigin()), OriginOrder());
    assert g in Origins(rows);
    ShownOriginsShip(observed.routes, g);
    DistributionSumsToOne(observed.routes, g);
    if g in Distinct(Aggregated(cleanRoutes), RowOrigin()) {
      ShownOriginsShip(cleanRoutes, g);
      DistributionSumsToOne(cleanRoutes, g);
    }
  }

  function AuditOrigin(): AuditRow -> OriginKey {
    (r: AuditRow) => OriginKey(r.key.sku, r.key.origin)
  }

  function AuditUnits(): AuditRow -> nat {
    (r: AuditRow) => r.quantity
  }

  lemma AuditUnder(removed: seq<FulfilledCell>, episodes: seq<C.Episode>, k: AuditKey, g: OriginKey)
    ensures PerKey(removed, AuditOf(episodes), UnitsFrom(g))(k) == At(AuditOrigin(), g, AuditUnits())(AuditRowAt(removed, episodes, k))
  {
    var a := At(AuditOf(episodes), k, UnitsFrom(g));
    if OriginKey(k.sku, k.origin) == g {
      SumAgrees(removed, a, At(AuditOf(episodes), k, FulfilledUnits()));
    } else {
      SumZero(removed, a);
    }
    assert PerKey(removed, AuditOf(episodes), UnitsFrom(g))(k) == SumBy(removed, a);
  }

  /** The audit rows account for exactly the excluded units of every origin. */
  lemma AuditIsComplete(removed: seq<FulfilledCell>, episodes: seq<C.Episode>, g: OriginKey)
    ensures SumBy(Audit(removed, episodes), At(AuditOrigin(), g, AuditUnits())) == CellTotal(removed, g).quantity
  {
    var distinct, keys := Distinct(removed, AuditOf(episodes)), AuditKeys(removed, episodes);
    SumPerKey(removed, distinct, AuditOf(episodes), UnitsFrom(g));
    SumSorted(distinct, AuditOrder(), PerKey(removed, AuditOf(episodes), UnitsFrom(g)));
    forall i | 0 <= i < |keys|
      ensures At(AuditOrigin(), g, AuditUnits())(Audit(removed, episodes)[i]) == PerKey(removed, AuditOf(episodes), UnitsFrom(g))(keys[i]) {
      AuditUnder(removed, episodes, keys[i], g);
    }
    SumMapped(keys, PerKey(removed, AuditOf(episodes), UnitsFrom(g)), Audit(removed, episodes), At(AuditOrigin(), g, AuditUnits()));
  }

  lemma {:induction false} TwoWithinSum<T>(xs: seq<T>, i: nat, j: nat, f: T -> nat)
    requires i < j < |xs|
    ensures f(xs[i]) + f(xs[j]) <= SumBy(xs, f)
  {
    if i == 0 {
      L.MemberWithinSum(xs[1..], xs[j], f);
    } else {
      TwoWithinSum(xs[1..], i - 1, j - 1, f);
    }
  }

  /** Among the episodes that detection yields, only one removes a given day, so the choice of the
      earliest one is no choice. */
  lemma RemovalIsUnambiguous(episodes: seq<C.Episode>, asOf: int, i: nat, j: nat, d: CellDay)
    requires C.CleaningIsSafe(episodes, asOf) && i < |episodes| && j < |episodes|
    requires Removes(episodes[i], d) && Removes(episodes[j], d)
    ensures i == j && EpisodeOn(episodes, d) == Some(episodes[i])
  {
    assert SumBy(episodes, C.Covering(d.key, d.day)) <= 1;
    if i != j {
      TwoWithinSum(episodes, if i < j then i else j, if i < j then j else i, C.Covering(d.key, d.day));
      assert false;
    }
    var e := EpisodeOn(episodes, d);
    var k :| 0 <= k < |episodes| && episodes[k] == e.value;
    if k != i {
      TwoWithinSum(episodes, if i < k then i else k, if i < k then k else i, C.Covering(d.key, d.day));
      assert false;
    }
  }
}
