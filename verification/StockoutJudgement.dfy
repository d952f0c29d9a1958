/** What a rolling position must show to become a candidate, in the units of its points
    (backend/analytics/stockout_episodes.py:187-233). */
module StockoutJudgement {
  import opened Wrappers
  import opened Sequences
  import opened StableSort
  import opened Sums
  import opened KeyedTotals
  import opened DailyFacts
  import opened LocalitySeries
  import opened StockoutWindows

  // ---- the units of a run of days ----

  function FulfilledBy(points: seq<Point>): nat {
    SumBy(points, (p: Point) => p.fulfilled)
  }

  function DemandedBy(points: seq<Point>): nat {
    SumBy(points, (p: Point) => p.demand)
  }

  function LocallyBy(points: seq<Point>): nat {
    SumBy(points, (p: Point) => p.local)
  }

  function From(origin: string): OriginShare -> nat {
    (s: OriginShare) => if s.origin == origin then s.quantity else 0
  }

  function FromIn(origin: string): Point -> nat {
    (p: Point) => SumBy(p.shares, From(origin))
  }

  /** The units an origin shows in the shares of the days. */
  function ShippedBy(points: seq<Point>, origin: string): nat {
    SumBy(points, FromIn(origin))
  }

  /** The part of a whole, nothing of nothing. */
  function PartOf(units: nat, whole: nat): real {
    if whole == 0 then 0.0 else units as real / whole as real
  }

  function LocalPart(points: seq<Point>): real {
    PartOf(LocallyBy(points), FulfilledBy(points))
  }

  function OriginPart(points: seq<Point>, origin: string): real {
    PartOf(ShippedBy(points, origin), FulfilledBy(points))
  }

  ghost predicate Shows(points: seq<Point>, origin: string) {
    exists p <- points, s <- p.shares :: s.origin == origin
  }

  // ---- the signs of a stockout ----

  /** Local fulfillment fell from a high share although demand stayed. */
  ghost predicate FellLocally(before: seq<Point>, after: seq<Point>, th: Thresholds) {
    && FulfilledBy(before) >= th.minFulfilled && FulfilledBy(after) >= th.minFulfilled
    && LocalPart(before) >= th.priorLocal
    && LocalPart(after) <= LocalPart(before) - th.drop
    && DemandedBy(before) > 0
    && DemandedBy(after) as real / DemandedBy(before) as real >= th.retention
  }

  /** Another origin took over. */
  ghost predicate TookOver(before: seq<Point>, after: seq<Point>, destination: string, th: Thresholds, origin: string) {
    && (Shows(before, origin) || Shows(after, origin))
    && origin != destination
    && OriginPart(after, origin) >= OriginPart(before, origin) + th.rise
  }

  /** A day on which local fulfillment is down and another origin is up. */
  ghost predicate Tainted(p: Point, before: seq<Point>, th: Thresholds) {
    && p.fulfilled > 0 && p.localShare.Some?
    && p.localShare.value <= LocalPart(before) - th.drop
    && exists s <- p.shares :: s.origin != p.key.destination && s.share >= OriginPart(before, s.origin) + th.rise
  }

  /** The days a candidate names are the tainted ones. */
  ghost predicate NamesDays(ds: seq<int>, before: seq<Point>, after: seq<Point>, th: Thresholds) {
    && Increasing(ds)
    && forall d :: d in ds <==> exists p <- after :: Tainted(p, before, th) && p.day == d
  }

  /** The donors of a candidate are the origins that took over, with their parts. */
  ghost predicate NamesDonors(donors: seq<Donor>, before: seq<Point>, after: seq<Point>, destination: string, th: Thresholds) {
    && (forall d <- donors :: TookOver(before, after, destination, th, d.origin)
          && d == Donor(d.origin, OriginPart(before, d.origin), OriginPart(after, d.origin), OriginPart(after, d.origin) - OriginPart(before, d.origin)))
    && (forall o :: TookOver(before, after, destination, th, o) ==> exists d <- donors :: d.origin == o)
  }

  // ---- the windows hold these units ----

  lemma {:induction false} SharesOfAll(points: seq<Point>, origin: string)
    ensures SumBy(AllShares(points), From(origin)) == SumBy(points, FromIn(origin))
  {
    if |points| > 0 {
      var init, last := points[..|points| - 1], points[|points| - 1];
      InitLast(points);
      SharesOfAll(init, origin);
      SumConcat(AllShares(init), last.shares, From(origin));
      SumSnoc(init, last, FromIn(origin));
    }
  }

  lemma {:induction false} OriginsOfAll(points: seq<Point>, origin: string)
    ensures (exists s <- AllShares(points) :: s.origin == origin) <==> Shows(points, origin)
  {
    if |points| > 0 {
      OriginsOfAll(points[..|points| - 1], origin);
      InitLast(points);
    }
  }

  lemma SharesAreShown(points: seq<Point>, origin: string)
    ensures PerKey(AllShares(points), ShareOrigin(), ShareUnits())(origin) == ShippedBy(points, origin)
    ensures origin in Distinct(AllShares(points), ShareOrigin()) <==> Shows(points, origin)
  {
    SharesOfAll(points, origin);
    OriginsOfAll(points, origin);
    SumAgrees(AllShares(points), At(ShareOrigin(), origin, ShareUnits()), From(origin));
    assert origin in Distinct(AllShares(points), ShareOrigin()) <==> exists s <- AllShares(points) :: ShareOrigin()(s) == origin;
  }

  lemma WindowSums(points: seq<Point>, w: Window)
    requires IsWindow(points, w)
    ensures w.demand == DemandedBy(points) && w.fulfilled == FulfilledBy(points) && w.local == LocallyBy(points)
  {
    SumAgrees(points, DemandOf(), (p: Point) => p.demand);
    SumAgrees(points, FulfilledOf(), (p: Point) => p.fulfilled);
    SumAgrees(points, LocalOf(), (p: Point) => p.local);
  }

  lemma WindowParts(points: seq<Point>, w: Window, origin: string)
    requires IsWindow(points, w)
    ensures LocalShare(w) == LocalPart(points) && ShareIn(w, origin) == OriginPart(points, origin)
    ensures w.fulfilled > 0 ==> (origin in OriginsIn(w) <==> Shows(points, origin))
  {
    WindowSums(points, w);
    SharesAreShown(points, origin);
    if origin !in w.units {
      NothingUnder(AllShares(points), ShareOrigin(), ShareUnits(), origin);
    }
  }

  lemma CollapseIsAFall(before: seq<Point>, after: seq<Point>, base: Window, obs: Window, th: Thresholds)
    requires IsWindow(before, base) && IsWindow(after, obs)
    ensures Collapses(base, obs, th) <==> FellLocally(before, after, th)
  {
    WindowSums(before, base);
    WindowSums(after, obs);
    WindowParts(before, base, "");
    WindowParts(after, obs, "");
  }

  lemma DonorTookOver(before: seq<Point>, after: seq<Point>, base: Window, obs: Window, destination: string, th: Thresholds, origin: string)
    requires IsWindow(before, base) && IsWindow(after, obs) && base.fulfilled > 0 && obs.fulfilled > 0
    ensures (origin in OriginsIn(base) + OriginsIn(obs) && IsDonor(base, obs, destination, th, origin)) <==>
            TookOver(before, after, destination, th, origin)
    ensures DonorOf(base, obs, origin) ==
            Donor(origin, OriginPart(before, origin), OriginPart(after, origin), OriginPart(after, origin) - OriginPart(before, origin))
  {
    WindowParts(before, base, origin);
    WindowParts(after, obs, origin);
  }

  lemma NamesAreKept(all: seq<string>, origin: string)
    ensures origin in Sort(Distinct(all, Self()), NameOrder()) <==> origin in all
  {
    SortElements(Distinct(all, Self()), NameOrder());
    if origin in all {
      assert Self()(origin) == origin;
    }
  }

  lemma DonorsAreWalked(base: Window, obs: Window, destination: string, th: Thresholds, origin: string)
    ensures (exists d <- Donors(base, obs, destination, th) :: d.origin == origin) <==>
            (origin in OriginsIn(base) + OriginsIn(obs) && IsDonor(base, obs, destination, th, origin))
  {
    var all := OriginsIn(base) + OriginsIn(obs);
    NamesAreKept(all, origin);
    var walked := Sort(Distinct(all, Self()), NameOrder());
    assert Donors(base, obs, destination, th) == DonorsAmong(walked, base, obs, destination, th);
    assert origin in walked <==> origin in all;
  }

  lemma DonorsAreNamed(before: seq<Point>, after: seq<Point>, base: Window, obs: Window, destination: string, th: Thresholds)
    requires IsWindow(before, base) && IsWindow(after, obs) && base.fulfilled > 0 && obs.fulfilled > 0
    ensures NamesDonors(Donors(base, obs, destination, th), before, after, destination, th)
  {
    var donors := Donors(base, obs, destination, th);
    forall d | d in donors ensures TookOver(before, after, destination, th, d.origin)
      && d == Donor(d.origin, OriginPart(before, d.origin), OriginPart(after, d.origin), OriginPart(after, d.origin) - OriginPart(before, d.origin)) {
      DonorsAreWalked(base, obs, destination, th, d.origin);
      DonorTookOver(before, after, base, obs, destination, th, d.origin);
    }
    forall o | TookOver(before, after, destination, th, o) ensures exists d <- donors :: d.origin == o {
      DonorTookOver(before, after, base, obs, destination, th, o);
      DonorsAreWalked(base, obs, destination, th, o);
    }
  }

  lemma ContaminatedIsTainted(before: seq<Point>, base: Window, th: Thresholds, p: Point)
    requires IsWindow(before, base)
    ensures Contaminated(p, base, th) <==> Tainted(p, before, th)
  {
    WindowParts(before, base, "");
    forall s | s in p.shares ensures ShareIn(base, s.origin) == OriginPart(before, s.origin) {
      WindowParts(before, base, s.origin);
    }
  }

  lemma DaysAreNamed(before: seq<Point>, after: seq<Point>, base: Window, th: Thresholds)
    requires IsWindow(before, base)
    ensures NamesDays(SortedDays(ContaminatedDays(after, base, th)), before, after, th)
  {
    forall p | p in after ensures Contaminated(p, base, th) <==> Tainted(p, before, th) {
      ContaminatedIsTainted(before, base, th, p);
    }
  }

  lemma {:induction false} SameDays(a: seq<int>, b: seq<int>)
    requires Increasing(a) && Increasing(b) && forall d :: d in a <==> d in b
    ensures a == b
  {
    if |a| > 0 || |b| > 0 {
      assert |a| > 0 ==> a[0] in a;
      assert |b| > 0 ==> b[0] in b;
      assert a[0] == b[0];
      HeadTail(a);
      HeadTail(b);
      HeadIsLeast(a);
      HeadIsLeast(b);
      forall d ensures d in a[1..] <==> d in b[1..] {
        assert d in a <==> d == a[0] || d in a[1..];
        assert d in b <==> d == b[0] || d in b[1..];
      }
      SameDays(a[1..], b[1..]);
    }
  }

  /** In the two windows local fulfillment fell while demand stayed, some other origin took over, and
      enough days of the second window are tainted. */
  ghost predicate Warranted(destination: string, before: seq<Point>, after: seq<Point>, th: Thresholds) {
    && FellLocally(before, after, th)
    && (exists o :: TookOver(before, after, destination, th, o))
    && exists ds :: NamesDays(ds, before, after, th) && |ds| >= th.minDays
  }

  /** The candidate shows the days, parts and origins of its windows. */
  ghost predicate Reports(c: Candidate, key: SeriesKey, before: seq<Point>, after: seq<Point>, th: Thresholds, cutoff: int)
    requires |before| > 0 && |after| > 0
  {
    && c.key == key
    && NamesDays(c.affected, before, after, th)
    && c.baselineStart == before[0].day && c.baselineEnd == before[|before| - 1].day
    && c.baselineLocal == LocalPart(before) && c.observedLocal == LocalPart(after)
    && c.retention == PartOf(DemandedBy(after), DemandedBy(before))
    && c.scope == (if after[|after| - 1].day <= cutoff then HistoricalComplete else CurrentWeek)
    && NamesDonors(c.donors, before, after, key.destination, th)
  }

  lemma DaysAreCounted(before: seq<Point>, after: seq<Point>, base: Window, th: Thresholds)
    requires IsWindow(before, base)
    ensures (exists ds :: NamesDays(ds, before, after, th) && |ds| >= th.minDays) <==> |SortedDays(ContaminatedDays(after, base, th))| >= th.minDays
  {
    var days := SortedDays(ContaminatedDays(after, base, th));
    DaysAreNamed(before, after, base, th);
    forall ds | NamesDays(ds, before, after, th) ensures ds == days {
      SameDays(ds, days);
    }
  }

  lemma DonorsAreFound(before: seq<Point>, after: seq<Point>, base: Window, obs: Window, destination: string, th: Thresholds)
    requires IsWindow(before, base) && IsWindow(after, obs) && base.fulfilled > 0 && obs.fulfilled > 0
    ensures (exists o :: TookOver(before, after, destination, th, o)) <==> |Donors(base, obs, destination, th)| > 0
  {
    var donors := Donors(base, obs, destination, th);
    DonorsAreNamed(before, after, base, obs, destination, th);
    assert |donors| > 0 ==> donors[0] in donors;
  }

  lemma FellMeansFulfilled(before: seq<Point>, after: seq<Point>, base: Window, obs: Window, th: Thresholds)
    requires ValidThresholds(th) && IsWindow(before, base) && IsWindow(after, obs) && FellLocally(before, after, th)
    ensures base.fulfilled > 0 && obs.fulfilled > 0 && base.demand > 0
    ensures Retention(base, obs) == PartOf(DemandedBy(after), DemandedBy(before))
  {
    WindowSums(before, base);
    WindowSums(after, obs);
  }

  lemma JudgedWhenWarranted(key: SeriesKey, before: seq<Point>, after: seq<Point>, base: Window, obs: Window, th: Thresholds, cutoff: int)
    requires ValidThresholds(th) && |before| > 0 && |after| > 0 && IsWindow(before, base) && IsWindow(after, obs)
    ensures Judge(key, before, after, base, obs, th, cutoff).Some? <==> Warranted(key.destination, before, after, th)
  {
    CollapseIsAFall(before, after, base, obs, th);
    DaysAreCounted(before, after, base, th);
    if FellLocally(before, after, th) {
      FellMeansFulfilled(before, after, base, obs, th);
      DonorsAreFound(before, after, base, obs, key.destination, th);
    }
  }

  lemma JudgedReports(key: SeriesKey, before: seq<Point>, after: seq<Point>, base: Window, obs: Window, th: Thresholds, cutoff: int)
    requires ValidThresholds(th) && |before| > 0 && |after| > 0 && IsWindow(before, base) && IsWindow(after, obs)
    requires Judge(key, before, after, base, obs, th, cutoff).Some?
    ensures Reports(Judge(key, before, after, base, obs, th, cutoff).value, key, before, after, th, cutoff)
  {
    CollapseIsAFall(before, after, base, obs, th);
    FellMeansFulfilled(before, after, base, obs, th);
    DaysAreNamed(before, after, base, th);
    DonorsAreNamed(before, after, base, obs, key.destination, th);
    WindowParts(before, base, "");
    WindowParts(after, obs, "");
  }

  /** The windows decide whether there is a candidate, and what it reports. */
  ghost predicate Decide(key: SeriesKey, before: seq<Point>, after: seq<Point>, th: Thresholds, cutoff: int, c: Option<Candidate>)
    requires |before| > 0 && |after| > 0
  {
    && (c.Some? <==> Warranted(key.destination, before, after, th))
    && (c.Some? ==> Reports(c.value, key, before, after, th, cutoff))
  }

  lemma SignsDecide(key: SeriesKey, before: seq<Point>, after: seq<Point>, base: Window, obs: Window, th: Thresholds, cutoff: int, c: Option<Candidate>)
    requires ValidThresholds(th) && |before| > 0 && |after| > 0 && IsWindow(before, base) && IsWindow(after, obs)
    requires c == Judge(key, before, after, base, obs, th, cutoff)
    ensures Decide(key, before, after, th, cutoff, c)
  {
    JudgedWhenWarranted(key, before, after, base, obs, th, cutoff);
    if c.Some? {
      JudgedReports(key, before, after, base, obs, th, cutoff);
    }
  }

  lemma WindowsBehind(key: SeriesKey, points: seq<Point>, th: Thresholds, cutoff: int, end: nat, c: Option<Candidate>) returns (base: Window, obs: Window)
    requires JudgedAt(key, points, th, cutoff, end, c)
    ensures IsWindow(Baseline(points, end, th.size), base) && IsWindow(Observed(points, end, th.size), obs)
    ensures c == Judge(key, Baseline(points, end, th.size), Observed(points, end, th.size), base, obs, th, cutoff)
  {
    base, obs :| IsWindow(Baseline(points, end, th.size), base) && IsWindow(Observed(points, end, th.size), obs)
      && c == Judge(key, Baseline(points, end, th.size), Observed(points, end, th.size), base, obs, th, cutoff);
  }

  /** A position is a candidate exactly when its two windows warrant one, and the candidate then
      reports what these windows show. */
  lemma CandidateExactlyWhen(key: SeriesKey, points: seq<Point>, th: Thresholds, cutoff: int, end: nat, c: Option<Candidate>)
    requires ValidThresholds(th) && JudgedAt(key, points, th, cutoff, end, c)
    ensures Decide(key, Baseline(points, end, th.size), Observed(points, end, th.size), th, cutoff, c)
  {
    var base, obs := WindowsBehind(key, points, th, cutoff, end, c);
    SignsDecide(key, Baseline(points, end, th.size), Observed(points, end, th.size), base, obs, th, cutoff, c);
  }
}
