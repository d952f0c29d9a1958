/** The orders in which the analytics results are shown (backend/analytics/daily.py:97-113, routes.py:68-90,
    clean_routes.py:96-116 and 298-315, stockout_episodes.py:110-118 and 283-284). */
module ResultOrders {
  import opened Text
  import opened Sequences
  import opened StableSort
  import opened KeyedTotals
  import D = DailyFacts
  import L = LocalitySeries
  import W = WeeklyRoutes
  import R = CleanRoutes
  import S = StockoutWindows
  import C = StockoutEpisodes

  lemma RouteOrderIsTotal()
    ensures TotalPreorder(D.RouteOrder())
  {
    forall x: D.RouteKey, y: D.RouteKey ensures D.RouteKeyLe(x, y) || D.RouteKeyLe(y, x) {
      TextOrders(x.sku, y.sku, y.sku);
      TextOrders(x.origin, y.origin, y.origin);
      TextOrders(x.destination, y.destination, y.destination);
    }
    forall x: D.RouteKey, y: D.RouteKey, z: D.RouteKey | D.RouteKeyLe(x, y) && D.RouteKeyLe(y, z) ensures D.RouteKeyLe(x, z) {
      TextOrders(x.sku, y.sku, z.sku);
      TextOrders(x.origin, y.origin, z.origin);
      TextOrders(x.destination, y.destination, z.destination);
    }
  }

  lemma DemandOrderIsTotal()
    ensures TotalPreorder(D.DemandOrder())
  {
    forall x: D.DemandKey, y: D.DemandKey ensures D.DemandKeyLe(x, y) || D.DemandKeyLe(y, x) {
      TextOrders(x.sku, y.sku, y.sku);
      TextOrders(x.destination, y.destination, y.destination);
    }
    forall x: D.DemandKey, y: D.DemandKey, z: D.DemandKey | D.DemandKeyLe(x, y) && D.DemandKeyLe(y, z) ensures D.DemandKeyLe(x, z) {
      TextOrders(x.sku, y.sku, z.sku);
      TextOrders(x.destination, y.destination, z.destination);
    }
  }

  /** Fulfillment cells are shown by day, SKU, origin and destination. */
  lemma ShipmentsInOrder(orders: seq<D.Order>, i: nat, j: nat)
    requires i < j < |D.FulfilledCells(orders)|
    ensures var a, b := D.FulfilledCells(orders)[i], D.FulfilledCells(orders)[j];
      a.day < b.day || (a.day == b.day && TextThen(a.sku, b.sku, TextThen(a.origin, b.origin, TextLe(a.destination, b.destination))))
  {
    RouteOrderIsTotal();
    SortKeeps(Distinct(orders, D.RouteKeyOf()), D.RouteOrder());
  }

  /** Demand cells are shown by day, SKU and destination. */
  lemma DemandInOrder(orders: seq<D.Order>, i: nat, j: nat)
    requires i < j < |D.DemandCells(orders)|
    ensures var a, b := D.DemandCells(orders)[i], D.DemandCells(orders)[j];
      a.day < b.day || (a.day == b.day && TextThen(a.sku, b.sku, TextLe(a.destination, b.destination)))
  {
    DemandOrderIsTotal();
    SortKeeps(Distinct(orders, D.DemandKeyOf()), D.DemandOrder());
  }

  lemma SeriesOrderIsTotal()
    ensures TotalPreorder(L.KeyOrder())
  {
    forall x: L.SeriesKey, y: L.SeriesKey ensures L.KeyLe(x, y) || L.KeyLe(y, x) {
      TextOrders(x.sku, y.sku, y.sku);
      TextOrders(x.destination, y.destination, y.destination);
    }
    forall x: L.SeriesKey, y: L.SeriesKey, z: L.SeriesKey | L.KeyLe(x, y) && L.KeyLe(y, z) ensures L.KeyLe(x, z) {
      TextOrders(x.sku, y.sku, z.sku);
      TextOrders(x.destination, y.destination, z.destination);
    }
  }

  /** Series are built by SKU and destination. */
  lemma SeriesInOrder(ks: seq<L.SeriesKey>, i: nat, j: nat)
    requires i < j < |ks|
    ensures var sorted := Sort(ks, L.KeyOrder()); TextThen(sorted[i].sku, sorted[j].sku, TextLe(sorted[i].destination, sorted[j].destination))
  {
    SeriesOrderIsTotal();
    SortKeeps(ks, L.KeyOrder());
  }

  lemma NameOrderIsTotal()
    ensures TotalPreorder(L.NameOrder())
  {
    forall x: string, y: string ensures TextLe(x, y) || TextLe(y, x) {
      TextOrders(x, y, y);
    }
    forall x: string, y: string, z: string | TextLe(x, y) && TextLe(y, z) ensures TextLe(x, z) {
      TextOrders(x, y, z);
    }
  }

  /** The shares of a day are shown by origin. */
  lemma SharesInOrder(demand: seq<D.DemandCell>, fulfilled: seq<D.FulfilledCell>, key: L.SeriesKey, day: int, i: nat, j: nat)
    ensures var shares := L.PointOn(demand, fulfilled, key, day).shares; i < j < |shares| ==> TextLe(shares[i].origin, shares[j].origin)
  {
    NameOrderIsTotal();
    SortKeeps(L.OriginsOn(Distinct(fulfilled, L.FulfilledOrigin()), L.DayKey(key, day)), L.NameOrder());
  }

  lemma WeekOrderIsTotal()
    ensures TotalPreorder(W.WeekKeyOrder())
  {
    forall x: W.WeekKey, y: W.WeekKey ensures W.WeekKeyLe(x, y) || W.WeekKeyLe(y, x) {
      TextOrders(x.sku, y.sku, y.sku);
      TextOrders(x.origin, y.origin, y.origin);
      TextOrders(x.destination, y.destination, y.destination);
    }
    forall x: W.WeekKey, y: W.WeekKey, z: W.WeekKey | W.WeekKeyLe(x, y) && W.WeekKeyLe(y, z) ensures W.WeekKeyLe(x, z) {
      TextOrders(x.sku, y.sku, z.sku);
      TextOrders(x.origin, y.origin, z.origin);
      TextOrders(x.destination, y.destination, z.destination);
    }
  }

  /** Weekly cells are built by week, SKU, origin and destination. */
  lemma WeeksInOrder(cells: seq<D.FulfilledCell>, i: nat, j: nat)
    requires i < j < |W.Keys(cells)|
    ensures var a, b := W.Keys(cells)[i], W.Keys(cells)[j];
      a.week < b.week || (a.week == b.week && TextThen(a.sku, b.sku, TextThen(a.origin, b.origin, TextLe(a.destination, b.destination))))
  {
    WeekOrderIsTotal();
    SortKeeps(Distinct(cells, W.CellKey()), W.WeekKeyOrder());
  }

  lemma LaneOrderIsTotal()
    ensures TotalPreorder(R.LaneOrder())
  {
    forall x: R.Lane, y: R.Lane ensures R.LaneLe(x, y) || R.LaneLe(y, x) {
      TextOrders(x.sku, y.sku, y.sku);
      TextOrders(x.origin, y.origin, y.origin);
      TextOrders(x.destination, y.destination, y.destination);
    }
    forall x: R.Lane, y: R.Lane, z: R.Lane | R.LaneLe(x, y) && R.LaneLe(y, z) ensures R.LaneLe(x, z) {
      TextOrders(x.sku, y.sku, z.sku);
      TextOrders(x.origin, y.origin, z.origin);
      TextOrders(x.destination, y.destination, z.destination);
    }
  }

  lemma OriginOrderIsTotal()
    ensures TotalPreorder(R.OriginOrder())
  {
    forall x: W.OriginKey, y: W.OriginKey ensures R.OriginLe(x, y) || R.OriginLe(y, x) {
      TextOrders(x.sku, y.sku, y.sku);
      TextOrders(x.origin, y.origin, y.origin);
    }
    forall x: W.OriginKey, y: W.OriginKey, z: W.OriginKey | R.OriginLe(x, y) && R.OriginLe(y, z) ensures R.OriginLe(x, z) {
      TextOrders(x.sku, y.sku, z.sku);
      TextOrders(x.origin, y.origin, z.origin);
    }
  }

  lemma AuditOrderIsTotal()
    ensures TotalPreorder(R.AuditOrder())
  {
    forall x: R.AuditKey, y: R.AuditKey ensures R.AuditLe(x, y) || R.AuditLe(y, x) {
      TextOrders(x.sku, y.sku, y.sku);
      TextOrders(x.origin, y.origin, y.origin);
      TextOrders(x.destination, y.destination, y.destination);
    }
    forall x: R.AuditKey, y: R.AuditKey, z: R.AuditKey | R.AuditLe(x, y) && R.AuditLe(y, z) ensures R.AuditLe(x, z) {
      TextOrders(x.sku, y.sku, z.sku);
      TextOrders(x.origin, y.origin, z.origin);
      TextOrders(x.destination, y.destination, z.destination);
    }
  }

  /** Distribution rows are shown by SKU, origin and destination. */
  lemma RowsInOrder(routes: seq<W.Route>, i: nat, j: nat)
    requires i < j < |R.Aggregated(routes)|
    ensures var a, b := R.Aggregated(routes)[i].lane, R.Aggregated(routes)[j].lane;
      TextThen(a.sku, b.sku, TextThen(a.origin, b.origin, TextLe(a.destination, b.destination)))
  {
    LaneOrderIsTotal();
    SortKeeps(Distinct(routes, R.RouteLane()), R.LaneOrder());
  }

  /** Summaries are shown by SKU and origin. */
  lemma SummariesInOrder(observed: seq<R.Row>, clean: seq<R.Row>, removed: seq<D.FulfilledCell>, i: nat, j: nat)
    requires i < j < |R.Summaries(observed, clean, removed)|
    ensures var a, b := R.Summaries(observed, clean, removed)[i].origin, R.Summaries(observed, clean, removed)[j].origin;
      TextThen(a.sku, b.sku, TextLe(a.origin, b.origin))
  {
    OriginOrderIsTotal();
    SortKeeps(Distinct(observed, R.RowOrigin()), R.OriginOrder());
  }

  /** Audit rows are shown by SKU, episode, origin and destination. */
  lemma AuditInOrder(removed: seq<D.FulfilledCell>, episodes: seq<C.Episode>, i: nat, j: nat)
    requires i < j < |R.Audit(removed, episodes)|
    ensures var a, b := R.Audit(removed, episodes)[i].key, R.Audit(removed, episodes)[j].key;
      TextThen(a.sku, b.sku,
               || a.start < b.start || (a.start == b.start && a.end < b.end)
               || (a.start == b.start && a.end == b.end && TextThen(a.origin, b.origin, TextLe(a.destination, b.destination))))
  {
    AuditOrderIsTotal();
    SortKeeps(Distinct(removed, R.AuditOf(episodes)), R.AuditOrder());
  }

  lemma EpisodeOrderIsTotal()
    ensures TotalPreorder(C.EpisodeOrder())
  {
    forall x: C.Episode, y: C.Episode ensures C.EpisodeLe(x, y) || C.EpisodeLe(y, x) {
      TextOrders(x.key.sku, y.key.sku, y.key.sku);
      TextOrders(x.key.destination, y.key.destination, y.key.destination);
    }
    forall x: C.Episode, y: C.Episode, z: C.Episode | C.EpisodeLe(x, y) && C.EpisodeLe(y, z) ensures C.EpisodeLe(x, z) {
      TextOrders(x.key.sku, y.key.sku, z.key.sku);
      TextOrders(x.key.destination, y.key.destination, z.key.destination);
    }
  }

  function CompleteFirst(): (C.Episode, C.Episode) -> bool {
    (a: C.Episode, b: C.Episode) => a.eligible || !b.eligible
  }

  lemma GroupOrderIsTotal()
    ensures TotalPreorder(C.GroupKeyOrder())
  {
    forall x: C.GroupKey, y: C.GroupKey ensures C.GroupKeyLe(x, y) || C.GroupKeyLe(y, x) {
      TextOrders(x.key.sku, y.key.sku, y.key.sku);
      TextOrders(x.key.destination, y.key.destination, y.key.destination);
    }
    forall x: C.GroupKey, y: C.GroupKey, z: C.GroupKey | C.GroupKeyLe(x, y) && C.GroupKeyLe(y, z) ensures C.GroupKeyLe(x, z) {
      TextOrders(x.key.sku, y.key.sku, z.key.sku);
      TextOrders(x.key.destination, y.key.destination, z.key.destination);
    }
  }

  lemma GroupsEpisodes(gk: C.GroupKey, groups: seq<seq<S.Candidate>>, src: C.Sources)
    requires forall g <- groups :: |g| > 0
    ensures forall e <- C.EpisodesOf(gk, groups, src) :: e.key == gk.key && e.eligible == gk.scope.HistoricalComplete?
  {
    var es := C.EpisodesOf(gk, groups, src);
    forall e | e in es ensures e.key == gk.key && e.eligible == gk.scope.HistoricalComplete? {
      var i :| 0 <= i < |es| && es[i] == e;
    }
  }

  lemma {:induction false} EpisodeHasKey(cs: seq<S.Candidate>, keys: seq<C.GroupKey>, src: C.Sources, e: C.Episode) returns (gk: C.GroupKey)
    requires e in C.AllEpisodes(cs, keys, src)
    ensures gk in keys && e.key == gk.key && e.eligible == gk.scope.HistoricalComplete?
  {
    InitLast(keys);
    gk := keys[|keys| - 1];
    if e in C.EpisodesOf(gk, C.Merged(C.Values(cs, gk)), src) {
      GroupsEpisodes(gk, C.Merged(C.Values(cs, gk)), src);
    } else {
      gk := EpisodeHasKey(cs, keys[..|keys| - 1], src, e);
    }
  }

  lemma SameEpisodeKey(a: C.Episode, b: C.Episode)
    requires C.EpisodeLe(a, b) && C.EpisodeLe(b, a)
    ensures a.key == b.key
  {
    TextOrders(a.key.sku, b.key.sku, b.key.sku);
    TextOrders(a.key.destination, b.key.destination, b.key.destination);
  }

  lemma LaterGroup(cs: seq<S.Candidate>, init: seq<C.GroupKey>, last: C.GroupKey, src: C.Sources, a: C.Episode, b: C.Episode)
    requires Sorted(init + [last], C.GroupKeyOrder()) && a in C.AllEpisodes(cs, init, src)
    requires b.key == last.key && b.eligible == last.scope.HistoricalComplete? && C.EpisodeLe(a, b) && C.EpisodeLe(b, a)
    ensures CompleteFirst()(a, b)
  {
    var gk := EpisodeHasKey(cs, init, src, a);
    SameEpisodeKey(a, b);
    var i :| 0 <= i < |init| && init[i] == gk;
    assert C.GroupKeyOrder()((init + [last])[i], (init + [last])[|init|]);
  }

  lemma {:induction false} GroupsInOrder(cs: seq<S.Candidate>, keys: seq<C.GroupKey>, src: C.Sources)
    requires Sorted(keys, C.GroupKeyOrder())
    ensures TiesKeep(C.AllEpisodes(cs, keys, src), C.EpisodeOrder(), CompleteFirst())
  {
    if |keys| > 0 {
      var init, last := keys[..|keys| - 1], keys[|keys| - 1];
      InitLast(keys);
      GroupsInOrder(cs, init, src);
      var before, after := C.AllEpisodes(cs, init, src), C.EpisodesOf(last, C.Merged(C.Values(cs, last)), src);
      GroupsEpisodes(last, C.Merged(C.Values(cs, last)), src);
      var all := before + after;
      forall i, j | 0 <= i < j < |all| && C.EpisodeOrder()(all[i], all[j]) && C.EpisodeOrder()(all[j], all[i]) ensures CompleteFirst()(all[i], all[j]) {
        if j < |before| {
          assert all[i] == before[i] && all[j] == before[j];
        } else if i < |before| {
          assert all[i] in before && all[j] in after;
          LaterGroup(cs, init, last, src, all[i], all[j]);
        } else {
          assert all[i] in after && all[j] in after;
        }
      }
    }
  }

  /** Episodes are shown by SKU, destination, first and last day, and of those of the same days the
      one of completed weeks comes first. */
  lemma EpisodesInOrder(cs: seq<S.Candidate>, src: C.Sources, i: nat, j: nat)
    requires i < j < |C.Episodes(cs, src)|
    ensures var a, b := C.Episodes(cs, src)[i], C.Episodes(cs, src)[j];
      TextThen(a.key.sku, b.key.sku,
               TextThen(a.key.destination, b.key.destination,
                        || a.start < b.start || (a.start == b.start && a.end < b.end)
                        || (a.start == b.start && a.end == b.end && (a.eligible || !b.eligible))))
  {
    var keys := Sort(Distinct(cs, C.GroupKeyOf()), C.GroupKeyOrder());
    GroupOrderIsTotal();
    EpisodeOrderIsTotal();
    SortKeeps(Distinct(cs, C.GroupKeyOf()), C.GroupKeyOrder());
    SortKeeps(C.AllEpisodes(cs, keys, src), C.EpisodeOrder());
    GroupsInOrder(cs, keys, src);
    SortIsStable(C.AllEpisodes(cs, keys, src), C.EpisodeOrder(), CompleteFirst());
  }
}
