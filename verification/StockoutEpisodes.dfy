/** Merged stockout episodes (backend/analytics/stockout_episodes.py:235-284). */
module StockoutEpisodes {
  import opened Wrappers
  import opened Sequences
  import opened StableSort
  import opened Sums
  import opened KeyedTotals
  import opened DailyFacts
  import opened LocalitySeries
  import opened StockoutWindows
  import opened EpisodeEvidence

  // ---- merging ----

  /** A candidate that may be merged: its days are sorted and there is at least one. */
  ghost predicate Proper(c: Candidate) {
    |c.affected| > 0 && Increasing(c.affected)
  }

  function FirstDay(c: Candidate): int {
    if |c.affected| > 0 then c.affected[0] else 0
  }

  function LastDay(c: Candidate): int {
    if |c.affected| > 0 then c.affected[|c.affected| - 1] else 0
  }

  function StartOrder(): (Candidate, Candidate) -> bool {
    (a: Candidate, b: Candidate) => FirstDay(a) < FirstDay(b) || (FirstDay(a) == FirstDay(b) && a.baselineStart <= b.baselineStart)
  }

  /** `max(d for c in group for d in c.affected)` */
  function MaxDay(group: seq<Candidate>): int {
    if |group| == 0 then 0
    else if |group| == 1 then LastDay(group[0])
    else
      var before, last := MaxDay(group[..|group| - 1]), LastDay(group[|group| - 1]);
      if before < last then last else before
  }

  /** The grouping of sorted candidates: one joins the last group when it starts at most one day
      after the latest day of that group. */
  function Merged(values: seq<Candidate>): (groups: seq<seq<Candidate>>)
    ensures forall g <- groups :: |g| > 0
    ensures |values| > 0 ==> |groups| > 0
  {
    if |values| == 0 then []
    else
      var groups, c := Merged(values[..|values| - 1]), values[|values| - 1];
      if |groups| > 0 && FirstDay(c) <= MaxDay(groups[|groups| - 1]) + 1 then
        groups[..|groups| - 1] + [groups[|groups| - 1] + [c]]
      else groups + [[c]]
  }

  /** The loop over the sorted candidates, which extends the last group in place. */
  method Merge(values: seq<Candidate>) returns (groups: seq<seq<Candidate>>)
    ensures groups == Merged(values)
  {
    groups := [];
    for i := 0 to |values|
      invariant groups == Merged(values[..i])
    {
      TakeTake(values, i);
      var n := |groups|;
      if n > 0 && FirstDay(values[i]) <= MaxDay(groups[n - 1]) + 1 {
        groups := groups[..n - 1] + [groups[n - 1] + [values[i]]];
      } else {
        groups := groups + [[values[i]]];
      }
    }
    TakeAll(values);
  }

  function Flat(groups: seq<seq<Candidate>>): seq<Candidate> {
    if |groups| == 0 then [] else Flat(groups[..|groups| - 1]) + groups[|groups| - 1]
  }

  /** Merging only cuts the sorted list: no candidate is lost, repeated or moved. */
  lemma {:induction false} MergedIsACut(values: seq<Candidate>)
    ensures Flat(Merged(values)) == values
  {
    if |values| > 0 {
      var init, c := values[..|values| - 1], values[|values| - 1];
      MergedIsACut(init);
      var groups := Merged(init);
      InitLast(values);
      if |groups| > 0 && FirstDay(c) <= MaxDay(groups[|groups| - 1]) + 1 {
        var next := groups[|groups| - 1] + [c];
        assert (groups[..|groups| - 1] + [next])[..|groups| - 1] == groups[..|groups| - 1];
      } else {
        assert (groups + [[c]])[..|groups|] == groups;
      }
    }
  }

  ghost predicate SortedByStart(values: seq<Candidate>) {
    forall i, j :: 0 <= i < j < |values| ==> FirstDay(values[i]) <= FirstDay(values[j])
  }

  ghost predicate Bounded(group: seq<Candidate>, lo: int, hi: int) {
    forall c <- group :: lo <= FirstDay(c) && LastDay(c) <= hi
  }

  lemma {:induction false} MaxDayBounds(group: seq<Candidate>)
    ensures forall c <- group :: LastDay(c) <= MaxDay(group)
  {
    if |group| > 1 {
      MaxDayBounds(group[..|group| - 1]);
      InitLast(group);
    }
  }

  /** Groups are separated by at least one full day; within a group the first candidate starts first. */
  ghost predicate Separated(groups: seq<seq<Candidate>>) {
    && (forall g <- groups :: |g| > 0 && Bounded(g, FirstDay(g[0]), MaxDay(g)))
    && (forall i, j :: 0 <= i < j < |groups| && |groups[j]| > 0 ==> MaxDay(groups[i]) + 1 < FirstDay(groups[j][0]))
  }

  lemma {:induction false} MergedAreSeparated(values: seq<Candidate>)
    requires SortedByStart(values) && forall c <- values :: Proper(c)
    ensures Separated(Merged(values))
    ensures forall g <- Merged(values), c <- g :: c in values
  {
    if |values| > 0 {
      var init, c := values[..|values| - 1], values[|values| - 1];
      InitLast(values);
      MergedAreSeparated(init);
      SeparatedStep(Merged(init), c, values);
    }
  }

  lemma JoinedIsBounded(last: seq<Candidate>, c: Candidate)
    requires |last| > 0 && Bounded(last, FirstDay(last[0]), MaxDay(last)) && FirstDay(last[0]) <= FirstDay(c)
    ensures Bounded(last + [c], FirstDay(last[0]), MaxDay(last + [c]))
  {
    MaxDayBounds(last + [c]);
  }

  lemma JoinKeepsSeparated(groups: seq<seq<Candidate>>, c: Candidate)
    requires Separated(groups) && Proper(c) && |groups| > 0
    requires forall x <- groups[|groups| - 1] :: FirstDay(x) <= FirstDay(c)
    ensures Separated(groups[..|groups| - 1] + [groups[|groups| - 1] + [c]])
  {
    var n := |groups| - 1;
    var last, joined := groups[n], groups[n] + [c];
    var next := groups[..n] + [joined];
    assert last in groups && last[0] in last && joined[0] == last[0];
    JoinedIsBounded(last, c);
    forall i, j | 0 <= i < j < |next| ensures MaxDay(next[i]) + 1 < FirstDay(next[j][0]) {
      assert next[i] == groups[i] && (j < n ==> next[j] == groups[j]);
    }
    forall g | g in next ensures |g| > 0 && Bounded(g, FirstDay(g[0]), MaxDay(g)) {
      assert g != joined ==> g in groups;
    }
  }

  lemma BeforeLast(groups: seq<seq<Candidate>>, c: Candidate, i: nat)
    requires Separated(groups) && i < |groups|
    requires MaxDay(groups[|groups| - 1]) + 1 < FirstDay(c) && |groups[|groups| - 1]| > 0 && FirstDay(groups[|groups| - 1][0]) <= FirstDay(c)
    ensures MaxDay(groups[i]) + 1 < FirstDay(c)
  {
  }

  lemma OneIsBounded(c: Candidate)
    ensures Bounded([c], FirstDay(c), MaxDay([c]))
  {
  }

  lemma NewGroupIsSeparated(groups: seq<seq<Candidate>>, c: Candidate)
    requires Separated(groups) && Proper(c)
    requires |groups| > 0 ==>
      MaxDay(groups[|groups| - 1]) + 1 < FirstDay(c) && |groups[|groups| - 1]| > 0 && FirstDay(groups[|groups| - 1][0]) <= FirstDay(c)
    ensures Separated(groups + [[c]])
  {
    var next := groups + [[c]];
    OneIsBounded(c);
    forall i, j | 0 <= i < j < |next| ensures |next[j]| > 0 ==> MaxDay(next[i]) + 1 < FirstDay(next[j][0]) {
      if j == |groups| {
        BeforeLast(groups, c, i);
      }
    }
  }

  lemma SeparatedStep(groups: seq<seq<Candidate>>, c: Candidate, values: seq<Candidate>)
    requires Separated(groups) && Proper(c) && c in values
    requires forall g <- groups, x <- g :: x in values && FirstDay(x) <= FirstDay(c)
    ensures var next := if |groups| > 0 && FirstDay(c) <= MaxDay(groups[|groups| - 1]) + 1
                        then groups[..|groups| - 1] + [groups[|groups| - 1] + [c]] else groups + [[c]];
      Separated(next) && forall g <- next, x <- g :: x in values
  {
    if |groups| > 0 {
      var last := groups[|groups| - 1];
      assert last in groups && last[0] in last;
      if FirstDay(c) <= MaxDay(last) + 1 {
        JoinKeepsSeparated(groups, c);
        return;
      }
    }
    NewGroupIsSeparated(groups, c);
  }

  // ---- episodes ----

  datatype AvailabilityRecord = AvailabilityRecord(sku: string, cluster: string, daysWithoutStock: Option<int>, fboQuantity: Option<int>)

  datatype Corroboration = Supports | Contradicts | Neutral

  datatype Confidence = Low | Medium | High

  predicate About(row: AvailabilityRecord, key: SeriesKey) {
    row.sku == key.sku && row.cluster == key.destination
  }

  /** `_availability` */
  function Corroborate(key: SeriesKey, rows: seq<AvailabilityRecord>): Corroboration {
    if exists r <- rows :: About(r, key) && r.daysWithoutStock.Some? && r.daysWithoutStock.value > 0 then Supports
    else if (exists r <- rows :: About(r, key) && r.daysWithoutStock == Some(0))
         && exists r <- rows :: About(r, key) && r.fboQuantity.Some? && r.fboQuantity.value > 0 then Contradicts
    else Neutral
  }

  datatype Episode = Episode(
    key: SeriesKey, start: int, end: int, affected: seq<int>, baselineStart: int, baselineEnd: int,
    baselineLocal: real, representativeLocal: real, retention: real, replacements: seq<Replacement>,
    scope: Scope, eligible: bool, corroboration: Corroboration, confidence: Confidence)

  /** What an episode is described from besides its candidates. */
  datatype Sources = Sources(rows: seq<AvailabilityRecord>, locality: seq<Point>)

  function LocalAfter(): Candidate -> real {
    (c: Candidate) => c.observedLocal
  }

  function DemandKept(): Candidate -> real {
    (c: Candidate) => c.retention
  }

  datatype GroupKey = GroupKey(key: SeriesKey, scope: Scope)

  function GroupKeyOf(): Candidate -> GroupKey {
    (c: Candidate) => GroupKey(c.key, c.scope)
  }

  predicate GroupKeyLe(a: GroupKey, b: GroupKey) {
    if a.key != b.key then KeyLe(a.key, b.key) else a.scope.HistoricalComplete? || b.scope.CurrentWeek?
  }

  function GroupKeyOrder(): (GroupKey, GroupKey) -> bool {
    (a: GroupKey, b: GroupKey) => GroupKeyLe(a, b)
  }

  function Of(cs: seq<Candidate>, gk: GroupKey): (r: seq<Candidate>)
    ensures forall c :: c in r <==> c in cs && GroupKeyOf()(c) == gk
  {
    if |cs| == 0 then []
    else
      var init, last := Of(cs[..|cs| - 1], gk), cs[|cs| - 1];
      InitLast(cs);
      if GroupKeyOf()(last) == gk then init + [last] else init
  }

  function Values(cs: seq<Candidate>, gk: GroupKey): seq<Candidate> {
    Sort(Of(cs, gk), StartOrder())
  }

  function DaysOf(group: seq<Candidate>): (ds: seq<int>)
    ensures forall d :: d in ds <==> exists c <- group :: d in c.affected
  {
    if |group| == 0 then []
    else
      InitLast(group);
      DaysOf(group[..|group| - 1]) + group[|group| - 1].affected
  }

  /** The episode of one merged group. */
  function EpisodeOf(gk: GroupKey, group: seq<Candidate>, src: Sources): Episode
    requires |group| > 0
  {
    var days, first := SortedDays(DaysOf(group)), Earliest(group);
    Episode(gk.key, if |days| > 0 then days[0] else 0, if |days| > 0 then days[|days| - 1] else 0, days,
            first.baselineStart, first.baselineEnd, first.baselineLocal,
            Smallest(group, LocalAfter()), Smallest(group, DemandKept()), Replacements(group, src.locality, gk.key, days),
            gk.scope, gk.scope.HistoricalComplete?, Corroborate(gk.key, src.rows),
            if gk.scope.HistoricalComplete? || Corroborate(gk.key, src.rows).Supports? then High else Medium)
  }

  function EpisodesOf(gk: GroupKey, groups: seq<seq<Candidate>>, src: Sources): (es: seq<Episode>)
    requires forall g <- groups :: |g| > 0
    ensures |es| == |groups| && forall i :: 0 <= i < |groups| ==> es[i] == EpisodeOf(gk, groups[i], src)
  {
    seq(|groups|, i requires 0 <= i < |groups| => EpisodeOf(gk, groups[i], src))
  }

  function AllEpisodes(cs: seq<Candidate>, keys: seq<GroupKey>, src: Sources): seq<Episode> {
    if |keys| == 0 then []
    else
      var gk := keys[|keys| - 1];
      AllEpisodes(cs, keys[..|keys| - 1], src) + EpisodesOf(gk, Merged(Values(cs, gk)), src)
  }

  predicate EpisodeLe(a: Episode, b: Episode) {
    if a.key != b.key then KeyLe(a.key, b.key)
    else if a.start != b.start then a.start < b.start
    else a.end <= b.end
  }

  function EpisodeOrder(): (Episode, Episode) -> bool {
    (a: Episode, b: Episode) => EpisodeLe(a, b)
  }

  function Episodes(cs: seq<Candidate>, src: Sources): seq<Episode> {
    Sort(AllEpisodes(cs, Sort(Distinct(cs, GroupKeyOf()), GroupKeyOrder()), src), EpisodeOrder())
  }

  /** The second half of `detect_stockout_episodes`: group, merge, describe and sort. */
  method MergeAll(cs: seq<Candidate>, src: Sources) returns (episodes: seq<Episode>)
    ensures episodes == Episodes(cs, src)
  {
    var keys := Sort(Distinct(cs, GroupKeyOf()), GroupKeyOrder());
    var found: seq<Episode> := [];
    for j := 0 to |keys|
      invariant found == AllEpisodes(cs, keys[..j], src)
    {
      found := MergeNext(cs, keys, j, src, found);
    }
    TakeAll(keys);
    episodes := Sort(found, EpisodeOrder());
  }

  /** One turn of the loop over series and scopes. */
  method MergeNext(cs: seq<Candidate>, keys: seq<GroupKey>, j: nat, src: Sources, before: seq<Episode>) returns (found: seq<Episode>)
    requires j < |keys| && before == AllEpisodes(cs, keys[..j], src)
    ensures found == AllEpisodes(cs, keys[..j + 1], src)
  {
    TakeTake(keys, j);
    var groups := Merge(Values(cs, keys[j]));
    found := before + EpisodesOf(keys[j], groups, src);
  }

  /** `detect_stockout_episodes` */
  method DetectEpisodes(locality: seq<Point>, rows: seq<AvailabilityRecord>, asOf: int, th: Thresholds)
    returns (episodes: seq<Episode>, ghost cs: seq<Candidate>)
    requires ValidThresholds(th)
    ensures Found(locality, th, Cutoff(asOf), Sort(Distinct(locality, KeyOf()), KeyOrder()), cs)
    ensures episodes == Episodes(cs, Sources(rows, locality))
  {
    var candidates := FindCandidates(locality, th, asOf);
    cs := candidates;
    episodes := MergeAll(candidates, Sources(rows, locality));
  }

  // ---- what the episodes promise ----

  ghost predicate AllProper(cs: seq<Candidate>) {
    forall c <- cs :: Proper(c)
  }

  lemma ValuesAreSorted(cs: seq<Candidate>, gk: GroupKey)
    ensures SortedByStart(Values(cs, gk))
    ensures forall c :: c in Values(cs, gk) <==> c in cs && GroupKeyOf()(c) == gk
  {
    SortKeeps(Of(cs, gk), StartOrder());
    SortElements(Of(cs, gk), StartOrder());
    var values := Values(cs, gk);
    forall i, j | 0 <= i < j < |values| ensures FirstDay(values[i]) <= FirstDay(values[j]) {
      assert StartOrder()(values[i], values[j]);
    }
  }

  lemma DaysInBounds(group: seq<Candidate>, d: int)
    requires |group| > 0 && AllProper(group) && Bounded(group, FirstDay(group[0]), MaxDay(group)) && d in DaysOf(group)
    ensures FirstDay(group[0]) <= d <= MaxDay(group)
  {
    var c :| c in group && d in c.affected;
    assert Proper(c);
    IncreasingBounds(c.affected, d);
    assert FirstDay(c) == c.affected[0] && LastDay(c) == c.affected[|c.affected| - 1];
  }

  lemma GroupHasDays(group: seq<Candidate>)
    requires |group| > 0 && AllProper(group)
    ensures FirstDay(group[0]) in DaysOf(group)
  {
    assert group[0] in group && group[0].affected[0] in group[0].affected;
  }

  lemma IncreasingBounds(ds: seq<int>, d: int)
    requires Increasing(ds) && d in ds
    ensures ds[0] in ds && ds[|ds| - 1] in ds && ds[0] <= d <= ds[|ds| - 1]
  {
  }

  /** An episode's days are exactly the days of its candidates; it starts and ends with them. */
  lemma EpisodeDays(gk: GroupKey, group: seq<Candidate>, src: Sources)
    requires |group| > 0 && AllProper(group) && Bounded(group, FirstDay(group[0]), MaxDay(group))
    ensures var e := EpisodeOf(gk, group, src);
      && Increasing(e.affected) && |e.affected| > 0
      && (forall d :: d in e.affected <==> exists c <- group :: d in c.affected)
      && e.start == e.affected[0] && e.end == e.affected[|e.affected| - 1]
      && FirstDay(group[0]) <= e.start <= e.end <= MaxDay(group)
      && forall d <- e.affected :: e.start <= d <= e.end
  {
    var days := SortedDays(DaysOf(group));
    GroupHasDays(group);
    forall d | d in days ensures days[0] <= d <= days[|days| - 1] && FirstDay(group[0]) <= d <= MaxDay(group) {
      IncreasingBounds(days, d);
      DaysInBounds(group, d);
    }
    IncreasingBounds(days, FirstDay(group[0]));
  }

  /** The episodes of one series and scope are separated by at least one full day. */
  lemma EpisodesAreSeparated(cs: seq<Candidate>, gk: GroupKey, src: Sources, i: nat, j: nat)
    requires AllProper(cs) && i < j < |Merged(Values(cs, gk))|
    ensures var es := EpisodesOf(gk, Merged(Values(cs, gk)), src); es[i].end + 1 < es[j].start
  {
    var groups := Merged(Values(cs, gk));
    ValuesAreSorted(cs, gk);
    MergedAreSeparated(Values(cs, gk));
    GroupIsProper(cs, gk, groups[i]);
    GroupIsProper(cs, gk, groups[j]);
    EpisodeDays(gk, groups[i], src);
    EpisodeDays(gk, groups[j], src);
  }

  lemma GroupIsProper(cs: seq<Candidate>, gk: GroupKey, g: seq<Candidate>)
    requires AllProper(cs) && g in Merged(Values(cs, gk))
    ensures |g| > 0 && AllProper(g) && Bounded(g, FirstDay(g[0]), MaxDay(g))
    ensures forall c <- g :: c in cs && GroupKeyOf()(c) == gk
  {
    ValuesAreSorted(cs, gk);
    MergedAreSeparated(Values(cs, gk));
  }

  lemma {:induction false} InFlat(groups: seq<seq<Candidate>>, c: Candidate)
    ensures c in Flat(groups) <==> exists g <- groups :: c in g
  {
    if |groups| > 0 {
      InFlat(groups[..|groups| - 1], c);
      InitLast(groups);
    }
  }

  lemma EpisodeDayIsCandidateDay(cs: seq<Candidate>, gk: GroupKey, src: Sources, i: nat, d: int)
    requires AllProper(cs) && i < |Merged(Values(cs, gk))|
    requires d in EpisodesOf(gk, Merged(Values(cs, gk)), src)[i].affected
    ensures exists c <- cs :: GroupKeyOf()(c) == gk && d in c.affected
  {
    var g := Merged(Values(cs, gk))[i];
    GroupIsProper(cs, gk, g);
    EpisodeDays(gk, g, src);
    var c :| c in g && d in c.affected;
    assert c in cs && GroupKeyOf()(c) == gk;
  }

  lemma GroupOfCandidate(cs: seq<Candidate>, gk: GroupKey, c: Candidate) returns (i: nat)
    requires c in cs && GroupKeyOf()(c) == gk
    ensures i < |Merged(Values(cs, gk))| && c in Merged(Values(cs, gk))[i]
  {
    var groups := Merged(Values(cs, gk));
    ValuesAreSorted(cs, gk);
    MergedIsACut(Values(cs, gk));
    InFlat(groups, c);
    var g :| g in groups && c in g;
    i :| 0 <= i < |groups| && groups[i] == g;
  }

  lemma CandidateDayIsEpisodeDay(cs: seq<Candidate>, gk: GroupKey, src: Sources, c: Candidate, d: int)
    requires AllProper(cs) && c in cs && GroupKeyOf()(c) == gk && d in c.affected
    ensures exists e <- EpisodesOf(gk, Merged(Values(cs, gk)), src) :: d in e.affected
  {
    var groups := Merged(Values(cs, gk));
    var i := GroupOfCandidate(cs, gk, c);
    assert d in DaysOf(groups[i]) && d in SortedDays(DaysOf(groups[i]));
    assert EpisodesOf(gk, groups, src)[i].affected == SortedDays(DaysOf(groups[i]));
    assert EpisodesOf(gk, groups, src)[i] in EpisodesOf(gk, groups, src);
  }

  /** Merging keeps exactly the union of the candidates' days. */
  lemma EpisodesCoverCandidates(cs: seq<Candidate>, gk: GroupKey, src: Sources, d: int)
    requires AllProper(cs)
    ensures (exists e <- EpisodesOf(gk, Merged(Values(cs, gk)), src) :: d in e.affected) <==>
            (exists c <- cs :: GroupKeyOf()(c) == gk && d in c.affected)
  {
    var es := EpisodesOf(gk, Merged(Values(cs, gk)), src);
    forall i: nat | i < |es| && d in es[i].affected ensures exists c <- cs :: GroupKeyOf()(c) == gk && d in c.affected {
      EpisodeDayIsCandidateDay(cs, gk, src, i, d);
    }
    forall c | c in cs && GroupKeyOf()(c) == gk && d in c.affected ensures exists e <- es :: d in e.affected {
      CandidateDayIsEpisodeDay(cs, gk, src, c, d);
    }
  }

  /** Candidates that were found have their days within their window, so those of the completed scope
      do not reach past the last completed Sunday. */
  ghost predicate WithinScope(c: Candidate, cutoff: int) {
    Proper(c) && (c.scope.HistoricalComplete? ==> LastDay(c) <= cutoff)
  }

  lemma JudgedWithinScope(key: SeriesKey, points: seq<Point>, th: Thresholds, cutoff: int, end: nat, c: Candidate)
    requires ValidThresholds(th) && GapFree(points) && JudgedAt(key, points, th, cutoff, end, Some(c))
    ensures WithinScope(c, cutoff)
  {
    WindowsAreConsecutive(key, points, th, cutoff, end, c);
    assert c.affected[|c.affected| - 1] in c.affected;
  }

  lemma FoundAreWithinScope(locality: seq<Point>, th: Thresholds, cutoff: int, keys: seq<SeriesKey>, cs: seq<Candidate>)
    requires ValidThresholds(th) && Found(locality, th, cutoff, keys, cs)
    requires forall k <- keys :: GapFree(Series(locality, k))
    ensures forall c <- cs :: WithinScope(c, cutoff)
  {
    forall c | c in cs ensures WithinScope(c, cutoff) {
      var end: nat :| JudgedAt(c.key, Series(locality, c.key), th, cutoff, end, Some(c));
      JudgedWithinScope(c.key, Series(locality, c.key), th, cutoff, end, c);
    }
  }

  /** 1 for an eligible episode that covers a day of a series. */
  function Covering(key: SeriesKey, d: int): Episode -> nat {
    (e: Episode) => if e.eligible && e.key == key && d in e.affected then 1 else 0
  }

  lemma {:induction false} AtMostOne(es: seq<Episode>, key: SeriesKey, d: int)
    requires forall i, j :: 0 <= i < j < |es| ==> !(d in es[i].affected && d in es[j].affected)
    ensures SumBy(es, Covering(key, d)) <= 1
  {
    if |es| > 0 {
      AtMostOne(es[1..], key, d);
      if d in es[0].affected {
        forall e | e in es[1..] ensures Covering(key, d)(e) == 0 {
          var j :| 0 <= j < |es[1..]| && es[1..][j] == e;
          assert es[j + 1] == e;
        }
        SumZero(es[1..], Covering(key, d));
      }
    }
  }

  lemma GroupsShareNoDay(cs: seq<Candidate>, gk: GroupKey, src: Sources, i: nat, j: nat, d: int)
    requires AllProper(cs) && i < j < |Merged(Values(cs, gk))|
    ensures var es := EpisodesOf(gk, Merged(Values(cs, gk)), src); !(d in es[i].affected && d in es[j].affected)
  {
    var groups := Merged(Values(cs, gk));
    EpisodesAreSeparated(cs, gk, src, i, j);
    GroupIsProper(cs, gk, groups[i]);
    GroupIsProper(cs, gk, groups[j]);
    EpisodeDays(gk, groups[i], src);
    EpisodeDays(gk, groups[j], src);
  }

  lemma GroupCovers(cs: seq<Candidate>, gk: GroupKey, src: Sources, key: SeriesKey, d: int)
    requires AllProper(cs)
    ensures SumBy(EpisodesOf(gk, Merged(Values(cs, gk)), src), Covering(key, d)) <= if gk == GroupKey(key, HistoricalComplete) then 1 else 0
  {
    var groups := Merged(Values(cs, gk));
    var es := EpisodesOf(gk, groups, src);
    if gk == GroupKey(key, HistoricalComplete) {
      forall i, j | 0 <= i < j < |es| ensures !(d in es[i].affected && d in es[j].affected) {
        GroupsShareNoDay(cs, gk, src, i, j, d);
      }
      AtMostOne(es, key, d);
    } else {
      forall e | e in es ensures Covering(key, d)(e) == 0 {
        var i :| 0 <= i < |es| && es[i] == e;
        assert es[i] == EpisodeOf(gk, groups[i], src);
      }
      SumZero(es, Covering(key, d));
    }
  }

  lemma {:induction false} GroupsCover(cs: seq<Candidate>, keys: seq<GroupKey>, src: Sources, key: SeriesKey, d: int)
    requires AllProper(cs) && NoDup(keys)
    ensures SumBy(AllEpisodes(cs, keys, src), Covering(key, d)) <= if GroupKey(key, HistoricalComplete) in keys then 1 else 0
  {
    if |keys| > 0 {
      var init, gk := keys[..|keys| - 1], keys[|keys| - 1];
      InitLast(keys);
      GroupsCover(cs, init, src, key, d);
      GroupCovers(cs, gk, src, key, d);
      SumConcat(AllEpisodes(cs, init, src), EpisodesOf(gk, Merged(Values(cs, gk)), src), Covering(key, d));
    }
  }

  /** Each day of a series lies in at most one eligible episode. */
  lemma OneEligibleEpisodePerDay(cs: seq<Candidate>, src: Sources, key: SeriesKey, d: int)
    requires AllProper(cs)
    ensures SumBy(Episodes(cs, src), Covering(key, d)) <= 1
  {
    var distinct := Distinct(cs, GroupKeyOf());
    var keys := Sort(distinct, GroupKeyOrder());
    SortKeeps(distinct, GroupKeyOrder());
    NoDupAmong(distinct, keys);
    GroupsCover(cs, keys, src, key, d);
    SumSorted(AllEpisodes(cs, keys, src), EpisodeOrder(), Covering(key, d));
  }

  lemma {:induction false} GroupOf(cs: seq<Candidate>, keys: seq<GroupKey>, src: Sources, e: Episode) returns (gk: GroupKey, g: seq<Candidate>)
    requires e in AllEpisodes(cs, keys, src)
    ensures |g| > 0 && g in Merged(Values(cs, gk)) && e == EpisodeOf(gk, g, src)
  {
    var init := keys[..|keys| - 1];
    gk := keys[|keys| - 1];
    if e in AllEpisodes(cs, init, src) {
      gk, g := GroupOf(cs, init, src, e);
    } else {
      var groups := Merged(Values(cs, gk));
      var i :| 0 <= i < |groups| && EpisodesOf(gk, groups, src)[i] == e;
      g := groups[i];
    }
  }

  /** Every episode describes a merged group. */
  lemma EpisodeHasGroup(cs: seq<Candidate>, src: Sources, e: Episode) returns (gk: GroupKey, g: seq<Candidate>)
    requires e in Episodes(cs, src)
    ensures |g| > 0 && g in Merged(Values(cs, gk)) && e == EpisodeOf(gk, g, src)
  {
    var keys := Sort(Distinct(cs, GroupKeyOf()), GroupKeyOrder());
    SortElements(AllEpisodes(cs, keys, src), EpisodeOrder());
    gk, g := GroupOf(cs, keys, src, e);
  }

  lemma DayWithinScope(g: seq<Candidate>, cutoff: int, d: int)
    requires AllProper(g) && d in DaysOf(g) && forall c <- g :: LastDay(c) <= cutoff
    ensures d <= cutoff
  {
    var c :| c in g && d in c.affected;
    assert Proper(c);
    IncreasingBounds(c.affected, d);
  }

  lemma LastIsWithin(days: seq<int>, d: int, cutoff: int)
    requires d in days && forall x <- days :: x <= cutoff
    ensures |days| > 0 && days[|days| - 1] <= cutoff
  {
    assert days[|days| - 1] in days;
  }

  lemma DaysWithinScope(g: seq<Candidate>, cutoff: int)
    requires AllProper(g) && forall c <- g :: LastDay(c) <= cutoff
    ensures forall d <- SortedDays(DaysOf(g)) :: d <= cutoff
  {
    forall d | d in SortedDays(DaysOf(g)) ensures d <= cutoff {
      DayWithinScope(g, cutoff, d);
    }
  }

  lemma GroupWithinScope(g: seq<Candidate>, cutoff: int)
    requires |g| > 0 && AllProper(g) && forall c <- g :: LastDay(c) <= cutoff
    ensures var days := SortedDays(DaysOf(g)); |days| > 0 && days[|days| - 1] <= cutoff && forall d <- days :: d <= cutoff
  {
    DaysWithinScope(g, cutoff);
    GroupHasDays(g);
    LastIsWithin(SortedDays(DaysOf(g)), FirstDay(g[0]), cutoff);
  }

  lemma MemberWithinScope(cs: seq<Candidate>, gk: GroupKey, cutoff: int, c: Candidate)
    requires c in cs && WithinScope(c, cutoff) && GroupKeyOf()(c) == gk && gk.scope.HistoricalComplete?
    ensures LastDay(c) <= cutoff
  {
  }

  lemma ScopedGroup(cs: seq<Candidate>, gk: GroupKey, g: seq<Candidate>, cutoff: int)
    requires AllProper(cs) && (forall c <- cs :: WithinScope(c, cutoff)) && g in Merged(Values(cs, gk))
    ensures |g| > 0 && AllProper(g)
    ensures gk.scope.HistoricalComplete? ==> forall c <- g :: LastDay(c) <= cutoff
  {
    GroupIsProper(cs, gk, g);
    if gk.scope.HistoricalComplete? {
      forall c | c in g ensures LastDay(c) <= cutoff {
        MemberWithinScope(cs, gk, cutoff, c);
      }
    }
  }

  /** An episode that cleaning may use ends by the cutoff. */
  ghost predicate EndsBy(e: Episode, cutoff: int) {
    e.eligible ==> e.end <= cutoff && forall d <- e.affected :: d <= cutoff
  }

  lemma EpisodeFields(gk: GroupKey, g: seq<Candidate>, src: Sources)
    requires |g| > 0
    ensures var e, days := EpisodeOf(gk, g, src), SortedDays(DaysOf(g));
      e.affected == days && e.eligible == gk.scope.HistoricalComplete? && (|days| > 0 ==> e.end == days[|days| - 1])
  {
  }

  lemma FieldsEndBy(e: Episode, days: seq<int>, cutoff: int)
    requires e.affected == days && |days| > 0 && e.end == days[|days| - 1]
    requires e.eligible ==> days[|days| - 1] <= cutoff && forall d <- days :: d <= cutoff
    ensures EndsBy(e, cutoff)
  {
  }

  lemma EligibleOne(cs: seq<Candidate>, gk: GroupKey, g: seq<Candidate>, src: Sources, cutoff: int)
    requires AllProper(cs) && (forall c <- cs :: WithinScope(c, cutoff)) && g in Merged(Values(cs, gk))
    ensures |g| > 0 && EndsBy(EpisodeOf(gk, g, src), cutoff)
  {
    ScopedGroup(cs, gk, g, cutoff);
    EpisodeFields(gk, g, src);
    if gk.scope.HistoricalComplete? {
      GroupWithinScope(g, cutoff);
      FieldsEndBy(EpisodeOf(gk, g, src), SortedDays(DaysOf(g)), cutoff);
    }
  }

  /** Route-cleaning episodes never reach past the last completed Sunday. */
  lemma EligibleEpisodesAreComplete(cs: seq<Candidate>, src: Sources, cutoff: int)
    requires forall c <- cs :: WithinScope(c, cutoff)
    ensures forall e <- Episodes(cs, src) :: EndsBy(e, cutoff)
  {
    forall e | e in Episodes(cs, src) ensures EndsBy(e, cutoff) {
      var gk, g := EpisodeHasGroup(cs, src, e);
      EligibleOne(cs, gk, g, src, cutoff);
    }
  }

  // ---- the evidence of an episode ----

  ghost predicate AllFounded(cs: seq<Candidate>, th: Thresholds) {
    forall c <- cs :: Founded(c, th)
  }

  /** An episode keeps what made its candidates: local fulfillment is down by the threshold against
      the baseline shown, demand stayed, and origins other than the destination took over. */
  ghost predicate Substantial(e: Episode, th: Thresholds) {
    && e.representativeLocal <= e.baselineLocal - th.drop && th.retention <= e.retention
    && |e.replacements| > 0
    && forall r <- e.replacements :: r.origin != e.key.destination && th.rise <= r.increase
  }

  lemma RepresentativeIsLow(group: seq<Candidate>, th: Thresholds)
    requires |group| > 0 && AllFounded(group, th)
    ensures Smallest(group, LocalAfter()) <= Earliest(group).baselineLocal - th.drop
    ensures th.retention <= Smallest(group, DemandKept())
  {
    var first := Earliest(group);
    assert Founded(first, th) && LocalAfter()(first) == first.observedLocal;
    var c :| c in group && DemandKept()(c) == Smallest(group, DemandKept());
    assert Founded(c, th);
  }

  lemma DonorIsExternal(gk: GroupKey, group: seq<Candidate>, th: Thresholds, d: Donor)
    requires AllFounded(group, th) && (forall c <- group :: c.key == gk.key) && d in AllDonors(group)
    ensures d.origin != gk.key.destination && th.rise <= d.increase
  {
    var c :| c in group && d in c.donors;
    assert Founded(c, th);
  }

  lemma EvidenceIsExternal(gk: GroupKey, group: seq<Candidate>, locality: seq<Point>, days: seq<int>, th: Thresholds)
    requires |group| > 0 && AllFounded(group, th) && forall c <- group :: c.key == gk.key
    ensures var rs := Replacements(group, locality, gk.key, days);
      |rs| > 0 && forall r <- rs :: r.origin != gk.key.destination && th.rise <= r.increase
  {
    var rs := Replacements(group, locality, gk.key, days);
    EvidenceDescribed(group, locality, gk.key, days);
    forall r | r in rs ensures r.origin != gk.key.destination && th.rise <= r.increase {
      assert Describes(r, group, locality, gk.key, days);
      var d :| d in AllDonors(group) && d.origin == r.origin && d.increase == r.increase;
      DonorIsExternal(gk, group, th, d);
    }
    assert group[0] in group && Founded(group[0], th);
    EvidenceCovers(group, locality, gk.key, days, group[0], group[0].donors[0]);
  }

  lemma EpisodeIsSubstantial(gk: GroupKey, group: seq<Candidate>, src: Sources, th: Thresholds)
    requires |group| > 0 && AllFounded(group, th) && forall c <- group :: c.key == gk.key
    ensures Substantial(EpisodeOf(gk, group, src), th)
  {
    RepresentativeIsLow(group, th);
    EvidenceIsExternal(gk, group, src.locality, SortedDays(DaysOf(group)), th);
  }

  /** So does every episode of candidates that were found. */
  lemma EpisodesAreSubstantial(cs: seq<Candidate>, src: Sources, th: Thresholds, e: Episode)
    requires AllProper(cs) && AllFounded(cs, th) && e in Episodes(cs, src)
    ensures Substantial(e, th)
  {
    var gk, g := EpisodeHasGroup(cs, src, e);
    GroupIsProper(cs, gk, g);
    EpisodeIsSubstantial(gk, g, src, th);
  }

  /** Every day of a candidate has its point, so the lookups of `point_index` cannot fail. */
  ghost predicate Located(c: Candidate, locality: seq<Point>) {
    forall d <- c.affected :: exists p <- locality :: p.key == c.key && p.day == d
  }

  lemma FoundAreFounded(locality: seq<Point>, th: Thresholds, cutoff: int, keys: seq<SeriesKey>, cs: seq<Candidate>)
    requires Found(locality, th, cutoff, keys, cs)
    ensures AllFounded(cs, th) && forall c <- cs :: Located(c, locality)
  {
    forall c | c in cs ensures Founded(c, th) && Located(c, locality) {
      var points := Series(locality, c.key);
      var end: nat :| JudgedAt(c.key, points, th, cutoff, end, Some(c));
      JudgedIsFounded(c.key, points, th, cutoff, end, c);
      SortElements(OfKey(locality, c.key), DayOrder());
      forall d | d in c.affected ensures exists p <- locality :: p.key == c.key && p.day == d {
        JudgedDaysArePoints(c.key, points, th, cutoff, end, c, d);
      }
    }
  }

  /** The units reported for a replacement origin are those of the fulfillment cells on the
      episode's days. */
  ghost predicate UnitsAreReal(e: Episode, fulfilled: seq<FulfilledCell>) {
    forall r <- e.replacements :: r.quantity == SumBy(e.affected, ShippedOn(fulfilled, e.key, r.origin))
  }

  lemma GroupIsLocated(gk: GroupKey, group: seq<Candidate>, locality: seq<Point>, d: int)
    requires (forall c <- group :: c.key == gk.key && Located(c, locality)) && d in SortedDays(DaysOf(group))
    ensures exists p <- locality :: p.key == gk.key && p.day == d
  {
    assert d in DaysOf(group);
    var c :| c in group && d in c.affected;
    assert Located(c, locality);
  }

  lemma GroupUnits(gk: GroupKey, group: seq<Candidate>, src: Sources, demand: seq<DemandCell>, fulfilled: seq<FulfilledCell>)
    requires |group| > 0 && forall c <- group :: c.key == gk.key && Located(c, src.locality)
    requires forall p <- src.locality :: IsBuilt(p, demand, fulfilled)
    ensures UnitsAreReal(EpisodeOf(gk, group, src), fulfilled)
  {
    var days := SortedDays(DaysOf(group));
    var rs := Replacements(group, src.locality, gk.key, days);
    EvidenceDescribed(group, src.locality, gk.key, days);
    forall d | d in days ensures exists p <- src.locality :: p.key == gk.key && p.day == d {
      GroupIsLocated(gk, group, src.locality, d);
    }
    forall r | r in rs ensures r.quantity == SumBy(days, ShippedOn(fulfilled, gk.key, r.origin)) {
      assert Describes(r, group, src.locality, gk.key, days);
      UnitsAreShipped(src.locality, demand, fulfilled, gk.key, r.origin, days);
    }
  }

  lemma EpisodeUnits(cs: seq<Candidate>, src: Sources, e: Episode, demand: seq<DemandCell>, fulfilled: seq<FulfilledCell>)
    requires AllProper(cs) && (forall c <- cs :: Located(c, src.locality)) && e in Episodes(cs, src)
    requires forall p <- src.locality :: IsBuilt(p, demand, fulfilled)
    ensures UnitsAreReal(e, fulfilled)
  {
    var gk, g := EpisodeHasGroup(cs, src, e);
    GroupIsProper(cs, gk, g);
    forall c | c in g ensures c.key == gk.key && Located(c, src.locality) {
      assert c in cs && GroupKeyOf()(c) == gk;
    }
    GroupUnits(gk, g, src, demand, fulfilled);
  }

  // ---- from daily facts to episodes ----

  lemma {:induction false} OfKeyConcat(a: seq<Point>, b: seq<Point>, key: SeriesKey)
    ensures OfKey(a + b, key) == OfKey(a, key) + OfKey(b, key)
  {
    if |b| == 0 {
      assert a + b == a;
    } else {
      OfKeyConcat(a, b[..|b| - 1], key);
      ConcatInit(a, b);
    }
  }

  lemma {:induction false} OfKeyAll(points: seq<Point>, own: SeriesKey, key: SeriesKey)
    requires forall p <- points :: p.key == own
    ensures OfKey(points, key) == if key == own then points else []
  {
    if |points| > 0 {
      InitLast(points);
      OfKeyAll(points[..|points| - 1], own, key);
    }
  }

  lemma OfKeyOne(demand: seq<DemandCell>, fulfilled: seq<FulfilledCell>, own: SeriesKey, first: int, asOf: int, key: SeriesKey)
    ensures OfKey(SeriesPoints(demand, fulfilled, own, first, asOf), key) ==
            if key == own then SeriesPoints(demand, fulfilled, own, first, asOf) else []
  {
    var points := SeriesPoints(demand, fulfilled, own, first, asOf);
    forall p | p in points ensures p.key == own {
      var i :| 0 <= i < |points| && points[i] == p;
    }
    OfKeyAll(points, own, key);
  }

  lemma {:induction false} OfKeyIsSeries(demand: seq<DemandCell>, fulfilled: seq<FulfilledCell>, keys: seq<SeriesKey>, first: map<SeriesKey, int>, asOf: int, key: SeriesKey)
    requires NoDup(keys) && forall k <- keys :: k in first
    ensures key in keys ==> OfKey(AllSeries(demand, fulfilled, keys, first, asOf), key) == SeriesPoints(demand, fulfilled, key, first[key], asOf)
    ensures key !in keys ==> OfKey(AllSeries(demand, fulfilled, keys, first, asOf), key) == []
  {
    if |keys| > 0 {
      var init, last := keys[..|keys| - 1], keys[|keys| - 1];
      InitLast(keys);
      var before, points := AllSeries(demand, fulfilled, init, first, asOf), SeriesPoints(demand, fulfilled, last, first[last], asOf);
      OfKeyIsSeries(demand, fulfilled, init, first, asOf, key);
      OfKeyConcat(before, points, key);
      OfKeyOne(demand, fulfilled, last, first[last], asOf, key);
      if key == last {
        assert key !in init;
        assert OfKey(before + points, key) == [] + points == points;
      } else {
        assert OfKey(before + points, key) == OfKey(before, key) + [] == OfKey(before, key);
      }
    }
  }

  lemma SortedStays(points: seq<Point>)
    requires GapFree(points)
    ensures Sort(points, DayOrder()) == points
  {
    SortKeeps(points, DayOrder());
    SortElements(points, DayOrder());
    var sorted := Sort(points, DayOrder());
    NoTiesAmong(points, sorted, DayOrder());
    SortedIsUnique(sorted, points, DayOrder());
  }

  /** The series that `detect_stockout_episodes` regroups are the gap-free ones that were built. */
  lemma BuiltSeriesAreGapFree(demand: seq<DemandCell>, fulfilled: seq<FulfilledCell>, keys: seq<SeriesKey>, first: map<SeriesKey, int>, asOf: int, key: SeriesKey)
    requires NoDup(keys) && forall k <- keys :: k in first
    ensures GapFree(Series(AllSeries(demand, fulfilled, keys, first, asOf), key))
    ensures key in keys ==> Series(AllSeries(demand, fulfilled, keys, first, asOf), key) == SeriesPoints(demand, fulfilled, key, first[key], asOf)
  {
    OfKeyIsSeries(demand, fulfilled, keys, first, asOf, key);
    if key in keys {
      SeriesIsGapFree(demand, fulfilled, key, first[key], asOf);
      SortedStays(SeriesPoints(demand, fulfilled, key, first[key], asOf));
    }
  }

  lemma SeriesIsGapFree(demand: seq<DemandCell>, fulfilled: seq<FulfilledCell>, key: SeriesKey, first: int, asOf: int)
    ensures GapFree(SeriesPoints(demand, fulfilled, key, first, asOf))
  {
  }

  ghost predicate CleaningIsSafe(es: seq<Episode>, asOf: int) {
    && (forall e <- es :: e.eligible ==> e.end <= Cutoff(asOf) && forall d <- e.affected :: Week(d) < Week(asOf))
    && (forall key, d :: SumBy(es, Covering(key, d)) <= 1)
  }

  /** From daily facts to episodes: what route cleaning will remove lies in completed weeks, no day
      of a series is removed for two episodes, and every episode is substantial, with evidence whose
      units are those of the fulfillment cells. */
  method EpisodesOfFacts(demand: seq<DemandCell>, fulfilled: seq<FulfilledCell>, rows: seq<AvailabilityRecord>, asOf: int, th: Thresholds)
    returns (episodes: seq<Episode>)
    requires ValidThresholds(th)
    ensures CleaningIsSafe(episodes, asOf)
    ensures forall e <- episodes :: Substantial(e, th) && UnitsAreReal(e, fulfilled)
  {
    var locality, keys, first := BuildSeries(demand, fulfilled, asOf);
    ghost var cs;
    episodes, cs := DetectEpisodes(locality, rows, asOf, th);
    KeysDiffer(demand, fulfilled);
    FoundIsSafe(demand, fulfilled, keys, first, asOf, th, cs, Sources(rows, locality));
    SeriesIsBuilt(demand, fulfilled, keys, first, asOf);
    FoundAreFounded(locality, th, Cutoff(asOf), Sort(Distinct(locality, KeyOf()), KeyOrder()), cs);
    forall e | e in episodes ensures Substantial(e, th) && UnitsAreReal(e, fulfilled) {
      EpisodesAreSubstantial(cs, Sources(rows, locality), th, e);
      EpisodeUnits(cs, Sources(rows, locality), e, demand, fulfilled);
    }
  }

  lemma KeysDiffer(demand: seq<DemandCell>, fulfilled: seq<FulfilledCell>)
    ensures NoDup(Sort(Distinct(Sightings(demand, fulfilled), SeriesOf()), KeyOrder()))
  {
    var distinct := Distinct(Sightings(demand, fulfilled), SeriesOf());
    SortKeeps(distinct, KeyOrder());
    NoDupAmong(distinct, Sort(distinct, KeyOrder()));
  }

  lemma FoundIsSafe(demand: seq<DemandCell>, fulfilled: seq<FulfilledCell>, keys: seq<SeriesKey>, first: map<SeriesKey, int>,
                    asOf: int, th: Thresholds, cs: seq<Candidate>, src: Sources)
    requires ValidThresholds(th) && NoDup(keys) && forall k <- keys :: k in first
    requires var locality := AllSeries(demand, fulfilled, keys, first, asOf);
      Found(locality, th, Cutoff(asOf), Sort(Distinct(locality, KeyOf()), KeyOrder()), cs)
    ensures CleaningIsSafe(Episodes(cs, src), asOf) && AllProper(cs)
  {
    var locality := AllSeries(demand, fulfilled, keys, first, asOf);
    var all := Sort(Distinct(locality, KeyOf()), KeyOrder());
    forall k | k in all ensures GapFree(Series(locality, k)) {
      BuiltSeriesAreGapFree(demand, fulfilled, keys, first, asOf, k);
    }
    FoundAreWithinScope(locality, th, Cutoff(asOf), all, cs);
    EligibleEpisodesAreComplete(cs, src, Cutoff(asOf));
    forall key, d ensures SumBy(Episodes(cs, src), Covering(key, d)) <= 1 {
      OneEligibleEpisodePerDay(cs, src, key, d);
    }
  }
}
