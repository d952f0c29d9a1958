/** What detected episodes say about the daily series they come from
    (backend/analytics/stockout_episodes.py:177-284). */
module EpisodeMeaning {
  import opened Wrappers
  import opened Sequences
  import opened StableSort
  import opened Sums
  import opened KeyedTotals
  import opened DailyFacts
  import opened LocalitySeries
  import opened StockoutWindows
  import opened StockoutJudgement
  import opened EpisodeEvidence
  import opened StockoutEpisodes

  // ---- every day is accounted for ----

  /** At this position of the series the two windows warrant a candidate that names the day. */
  ghost predicate Tells(key: SeriesKey, points: seq<Point>, th: Thresholds, end: nat, d: int)
    requires ValidThresholds(th) && 2 * th.size - 1 <= end < |points|
  {
    var before, after := Baseline(points, end, th.size), Observed(points, end, th.size);
    && Warranted(key.destination, before, after, th)
    && exists p <- after :: Tainted(p, before, th) && p.day == d
  }

  /** Some position tells of the day; `complete` says whether its window ends by the cutoff. */
  ghost predicate ToldOf(key: SeriesKey, points: seq<Point>, th: Thresholds, cutoff: int, complete: bool, d: int)
    requires ValidThresholds(th)
  {
    exists end: nat :: 2 * th.size - 1 <= end < |points| && (complete <==> points[end].day <= cutoff) && Tells(key, points, th, end, d)
  }

  ghost function WindowOf(points: seq<Point>): (w: Window)
    ensures IsWindow(points, w)
  {
    var shares := AllShares(points);
    var origins := Distinct(shares, ShareOrigin());
    Window(SumBy(points, DemandOf()), SumBy(points, FulfilledOf()), SumBy(points, LocalOf()), origins,
           map o | o in origins :: Total(PerKey(shares, ShareOrigin(), ShareUnits())(o), PerKey(shares, ShareOrigin(), ShareUnits())(o)))
  }

  /** Every position is judged. */
  lemma JudgedSomehow(key: SeriesKey, points: seq<Point>, th: Thresholds, cutoff: int, end: nat) returns (c: Option<Candidate>)
    requires ValidThresholds(th) && 2 * th.size - 1 <= end < |points|
    ensures JudgedAt(key, points, th, cutoff, end, c)
  {
    var before, after := Baseline(points, end, th.size), Observed(points, end, th.size);
    c := Judge(key, before, after, WindowOf(before), WindowOf(after), th, cutoff);
  }

  lemma LastObserved(points: seq<Point>, end: nat, size: nat)
    requires 0 < size && 2 * size - 1 <= end < |points|
    ensures Observed(points, end, size)[size - 1] == points[end]
  {
  }

  lemma CandidateTells(key: SeriesKey, points: seq<Point>, th: Thresholds, cutoff: int, end: nat, c: Candidate, d: int)
    requires ValidThresholds(th) && JudgedAt(key, points, th, cutoff, end, Some(c)) && d in c.affected
    ensures Tells(key, points, th, end, d)
    ensures c.key == key && (c.scope.HistoricalComplete? <==> points[end].day <= cutoff)
  {
    CandidateExactlyWhen(key, points, th, cutoff, end, Some(c));
    LastObserved(points, end, th.size);
  }

  lemma WarrantedIsACandidate(key: SeriesKey, points: seq<Point>, th: Thresholds, cutoff: int, end: nat) returns (c: Candidate)
    requires ValidThresholds(th) && 2 * th.size - 1 <= end < |points|
    requires Warranted(key.destination, Baseline(points, end, th.size), Observed(points, end, th.size), th)
    ensures JudgedAt(key, points, th, cutoff, end, Some(c))
    ensures Reports(c, key, Baseline(points, end, th.size), Observed(points, end, th.size), th, cutoff)
  {
    var judged := JudgedSomehow(key, points, th, cutoff, end);
    CandidateExactlyWhen(key, points, th, cutoff, end, judged);
    c := judged.value;
  }

  lemma ToldIsACandidate(key: SeriesKey, points: seq<Point>, th: Thresholds, cutoff: int, end: nat, d: int) returns (c: Candidate)
    requires ValidThresholds(th) && 2 * th.size - 1 <= end < |points| && Tells(key, points, th, end, d)
    ensures JudgedAt(key, points, th, cutoff, end, Some(c)) && d in c.affected
    ensures c.key == key && (c.scope.HistoricalComplete? <==> points[end].day <= cutoff)
  {
    c := WarrantedIsACandidate(key, points, th, cutoff, end);
    LastObserved(points, end, th.size);
  }

  lemma {:induction false} GroupIsListed(cs: seq<Candidate>, keys: seq<GroupKey>, src: Sources, gk: GroupKey, e: Episode)
    requires gk in keys && e in EpisodesOf(gk, Merged(Values(cs, gk)), src)
    ensures e in AllEpisodes(cs, keys, src)
  {
    InitLast(keys);
    if gk != keys[|keys| - 1] {
      GroupIsListed(cs, keys[..|keys| - 1], src, gk, e);
    }
  }

  lemma EpisodeIsListed(cs: seq<Candidate>, src: Sources, c: Candidate, e: Episode)
    requires c in cs && e in EpisodesOf(GroupKeyOf()(c), Merged(Values(cs, GroupKeyOf()(c))), src)
    ensures e in Episodes(cs, src)
  {
    var gk := GroupKeyOf()(c);
    var distinct := Distinct(cs, GroupKeyOf());
    var keys := Sort(distinct, GroupKeyOrder());
    SortElements(distinct, GroupKeyOrder());
    assert gk in keys;
    GroupIsListed(cs, keys, src, gk, e);
    SortElements(AllEpisodes(cs, keys, src), EpisodeOrder());
  }

  lemma GroupEpisodeFields(gk: GroupKey, groups: seq<seq<Candidate>>, src: Sources, e: Episode)
    requires (forall g <- groups :: |g| > 0) && e in EpisodesOf(gk, groups, src)
    ensures e.key == gk.key && e.eligible == gk.scope.HistoricalComplete?
  {
    var i :| 0 <= i < |groups| && EpisodesOf(gk, groups, src)[i] == e;
  }

  lemma CandidateHasEpisode(cs: seq<Candidate>, src: Sources, c: Candidate, d: int)
    requires AllProper(cs) && c in cs && d in c.affected
    ensures exists e <- Episodes(cs, src) :: e.key == c.key && e.eligible == c.scope.HistoricalComplete? && d in e.affected
  {
    var gk := GroupKeyOf()(c);
    CandidateDayIsEpisodeDay(cs, gk, src, c, d);
    var e :| e in EpisodesOf(gk, Merged(Values(cs, gk)), src) && d in e.affected;
    GroupEpisodeFields(gk, Merged(Values(cs, gk)), src, e);
    EpisodeIsListed(cs, src, c, e);
  }

  lemma EpisodeHasCandidate(cs: seq<Candidate>, src: Sources, e: Episode, d: int) returns (c: Candidate)
    requires AllProper(cs) && e in Episodes(cs, src) && d in e.affected
    ensures c in cs && d in c.affected && c.key == e.key && e.eligible == c.scope.HistoricalComplete?
  {
    var gk, g := EpisodeHasGroup(cs, src, e);
    GroupIsProper(cs, gk, g);
    EpisodeDays(gk, g, src);
    c :| c in g && d in c.affected;
    assert c in cs && GroupKeyOf()(c) == gk;
  }

  lemma KeysAreListed(locality: seq<Point>, key: SeriesKey)
    ensures key in Sort(Distinct(locality, KeyOf()), KeyOrder()) <==> exists p <- locality :: p.key == key
  {
    SortElements(Distinct(locality, KeyOf()), KeyOrder());
    assert key in Distinct(locality, KeyOf()) <==> exists p <- locality :: KeyOf()(p) == key;
  }

  lemma SeriesIsListed(locality: seq<Point>, key: SeriesKey)
    ensures |Series(locality, key)| > 0 ==> key in Sort(Distinct(locality, KeyOf()), KeyOrder())
  {
    SortElements(OfKey(locality, key), DayOrder());
    KeysAreListed(locality, key);
    if |Series(locality, key)| > 0 {
      assert Series(locality, key)[0] in Series(locality, key);
    }
  }

  lemma TellsInEpisodes(locality: seq<Point>, th: Thresholds, cutoff: int, cs: seq<Candidate>, src: Sources, key: SeriesKey, end: nat, d: int)
    requires ValidThresholds(th) && AllProper(cs) && Found(locality, th, cutoff, Sort(Distinct(locality, KeyOf()), KeyOrder()), cs)
    requires 2 * th.size - 1 <= end < |Series(locality, key)| && Tells(key, Series(locality, key), th, end, d)
    ensures exists e <- Episodes(cs, src) :: e.key == key && (e.eligible <==> Series(locality, key)[end].day <= cutoff) && d in e.affected
  {
    var c := ToldIsACandidate(key, Series(locality, key), th, cutoff, end, d);
    SeriesIsListed(locality, key);
    assert c in cs;
    CandidateHasEpisode(cs, src, c, d);
  }

  lemma EpisodesTell(locality: seq<Point>, th: Thresholds, cutoff: int, cs: seq<Candidate>, src: Sources, e: Episode, d: int)
    requires ValidThresholds(th) && AllProper(cs) && Found(locality, th, cutoff, Sort(Distinct(locality, KeyOf()), KeyOrder()), cs)
    requires e in Episodes(cs, src) && d in e.affected
    ensures ToldOf(e.key, Series(locality, e.key), th, cutoff, e.eligible, d)
  {
    var c := EpisodeHasCandidate(cs, src, e, d);
    var end: nat :| JudgedAt(c.key, Series(locality, c.key), th, cutoff, end, Some(c));
    CandidateTells(c.key, Series(locality, c.key), th, cutoff, end, c, d);
  }

  /** Exactly the days that some warranted position tells of lie in episodes of their series, and in
      eligible ones exactly those told of by a window that ends by the cutoff. */
  lemma EpisodeDaysAreTold(locality: seq<Point>, th: Thresholds, cutoff: int, cs: seq<Candidate>, src: Sources, key: SeriesKey, complete: bool, d: int)
    requires ValidThresholds(th) && AllProper(cs) && Found(locality, th, cutoff, Sort(Distinct(locality, KeyOf()), KeyOrder()), cs)
    ensures (exists e <- Episodes(cs, src) :: e.key == key && e.eligible == complete && d in e.affected) <==>
            ToldOf(key, Series(locality, key), th, cutoff, complete, d)
  {
    forall e | e in Episodes(cs, src) && e.key == key && e.eligible == complete && d in e.affected
      ensures ToldOf(key, Series(locality, key), th, cutoff, complete, d) {
      EpisodesTell(locality, th, cutoff, cs, src, e, d);
    }
    if ToldOf(key, Series(locality, key), th, cutoff, complete, d) {
      var points := Series(locality, key);
      var end: nat :| 2 * th.size - 1 <= end < |points| && (complete <==> points[end].day <= cutoff) && Tells(key, points, th, end, d);
      TellsInEpisodes(locality, th, cutoff, cs, src, key, end, d);
    }
  }

  // ---- what an episode shows ----

  /** The first of the candidates to have a baseline. */
  ghost predicate First(c: Candidate, group: seq<Candidate>) {
    c in group && forall x <- group :: c.baselineStart < x.baselineStart || (c.baselineStart == x.baselineStart && c.baselineEnd <= x.baselineEnd)
  }

  lemma {:induction false} EarliestIsFirst(group: seq<Candidate>)
    requires |group| > 0
    ensures First(Earliest(group), group)
  {
    if |group| > 1 {
      EarliestIsFirst(group[..|group| - 1]);
    }
    InitLast(group);
  }

  /** The availability rows of the series support a stockout, speak against it, or do neither. */
  ghost predicate CorroboratedBy(e: Episode, rows: seq<AvailabilityRecord>) {
    var own := set r | r in rows && r.sku == e.key.sku && r.cluster == e.key.destination;
    && (e.corroboration == Supports <==> exists r <- own :: r.daysWithoutStock.Some? && r.daysWithoutStock.value > 0)
    && (e.corroboration == Contradicts <==>
          && e.corroboration != Supports
          && (exists r <- own :: r.daysWithoutStock.Some? && r.daysWithoutStock.value == 0)
          && exists r <- own :: r.fboQuantity.Some? && r.fboQuantity.value > 0)
  }

  /** The share an origin is shown to have had before: the first one among the candidate's donors. */
  ghost predicate ShownBefore(r: Replacement, first: Candidate) {
    || (exists i :: 0 <= i < |first.donors| && first.donors[i].origin == r.origin && r.baseline == first.donors[i].before
                    && forall j :: 0 <= j < i ==> first.donors[j].origin != r.origin)
    || (r.baseline == 0.0 && forall d <- first.donors :: d.origin != r.origin)
  }

  /** An episode shows the baseline of the first of its candidates, the lowest local share and
      retention of any, and the confidence that its scope and the availability rows allow. */
  ghost predicate Portrays(e: Episode, group: seq<Candidate>, rows: seq<AvailabilityRecord>) {
    && (forall c <- group :: c.key == e.key && c.scope == e.scope)
    && (exists c :: First(c, group) && e.baselineStart == c.baselineStart && e.baselineEnd == c.baselineEnd && e.baselineLocal == c.baselineLocal
                    && forall r <- e.replacements :: ShownBefore(r, c))
    && (exists c <- group :: e.representativeLocal == c.observedLocal) && (forall c <- group :: e.representativeLocal <= c.observedLocal)
    && (exists c <- group :: e.retention == c.retention) && (forall c <- group :: e.retention <= c.retention)
    && (e.eligible <==> e.scope == HistoricalComplete)
    && CorroboratedBy(e, rows)
    && e.confidence == (if e.scope == CurrentWeek && e.corroboration != Supports then Medium else High)
  }

  lemma {:induction false} NamedFirst(ds: seq<Donor>, origin: string)
    ensures var named := Named(ds, origin);
      if named == [] then forall d <- ds :: d.origin != origin
      else exists i :: 0 <= i < |ds| && ds[i] == named[0] && ds[i].origin == origin && forall j :: 0 <= j < i ==> ds[j].origin != origin
  {
    if |ds| > 0 {
      var init, last := ds[..|ds| - 1], ds[|ds| - 1];
      InitLast(ds);
      NamedFirst(init, origin);
      if Named(init, origin) == [] && last.origin == origin {
        assert ds[|ds| - 1] == Named(ds, origin)[0];
      }
    }
  }

  lemma BaselineIsShown(first: Candidate, r: Replacement)
    requires r.baseline == BaselineShare(first, r.origin)
    ensures ShownBefore(r, first)
  {
    NamedFirst(first.donors, r.origin);
  }

  lemma AllShownBefore(group: seq<Candidate>, locality: seq<Point>, key: SeriesKey, days: seq<int>)
    requires |group| > 0
    ensures forall r <- Replacements(group, locality, key, days) :: ShownBefore(r, Earliest(group))
  {
    forall r | r in Replacements(group, locality, key, days) ensures ShownBefore(r, Earliest(group)) {
      EvidenceElements(group, locality, key, days, r);
      BaselineIsShown(Earliest(group), r);
    }
  }

  lemma CorroborationIsRead(e: Episode, rows: seq<AvailabilityRecord>)
    requires e.corroboration == Corroborate(e.key, rows)
    ensures CorroboratedBy(e, rows)
  {
  }

  lemma GroupIsPortrayed(gk: GroupKey, group: seq<Candidate>, src: Sources)
    requires |group| > 0 && forall c <- group :: GroupKeyOf()(c) == gk
    ensures Portrays(EpisodeOf(gk, group, src), group, src.rows)
  {
    var e := EpisodeOf(gk, group, src);
    EarliestIsFirst(group);
    AllShownBefore(group, src.locality, gk.key, SortedDays(DaysOf(group)));
    CorroborationIsRead(e, src.rows);
    assert forall c <- group :: LocalAfter()(c) == c.observedLocal && DemandKept()(c) == c.retention;
  }

  /** Every episode portrays candidates of its series and scope, whose days are its days. */
  lemma EpisodesPortray(cs: seq<Candidate>, src: Sources, e: Episode) returns (group: seq<Candidate>)
    requires AllProper(cs) && e in Episodes(cs, src)
    ensures |group| > 0 && (forall c <- group :: c in cs) && Portrays(e, group, src.rows)
    ensures forall d :: d in e.affected <==> exists c <- group :: d in c.affected
  {
    var gk;
    gk, group := EpisodeHasGroup(cs, src, e);
    GroupIsProper(cs, gk, group);
    EpisodeDays(gk, group, src);
    GroupIsPortrayed(gk, group, src);
  }
}
