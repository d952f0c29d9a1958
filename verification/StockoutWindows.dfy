/** Rolling windows and the candidates for a stockout episode
    (backend/analytics/stockout_episodes.py:132-233). */
module StockoutWindows {
  import opened Wrappers
  import opened Sequences
  import opened StableSort
  import opened Sums
  import opened KeyedTotals
  import opened DailyFacts
  import opened LocalitySeries

  datatype Thresholds = Thresholds(size: nat, priorLocal: real, drop: real, rise: real, minFulfilled: nat, retention: real, minDays: nat)

  /** `DailyStockoutThresholds.__post_init__` */
  predicate ValidThresholds(th: Thresholds) {
    && th.size > 0 && th.minFulfilled > 0 && th.minDays > 0
    && 0.0 <= th.priorLocal <= 1.0 && 0.0 <= th.drop <= 1.0 && 0.0 <= th.rise <= 1.0 && 0.0 <= th.retention <= 1.0
  }

  datatype Scope = HistoricalComplete | CurrentWeek

  datatype Candidate = Candidate(
    key: SeriesKey, affected: seq<int>, baselineStart: int, baselineEnd: int,
    baselineLocal: real, observedLocal: real, retention: real, scope: Scope, donors: seq<Donor>)

  /** An origin that replaced local fulfillment: its share before and after, and the increase. */
  datatype Donor = Donor(origin: string, before: real, after: real, increase: real)

  // ---- the calendar ----

  /** `date.weekday()`: Monday is 0. */
  function Weekday(day: int): (w: int)
    ensures 0 <= w < 7
  {
    (day - 1) % 7
  }

  /** The ISO week as a number; `isocalendar()[:2]` names the same weeks in the same order. */
  function Week(day: int): int {
    (day - 1) / 7
  }

  /** The last completed Sunday. */
  function Cutoff(asOf: int): (d: int)
    ensures Weekday(d) == 6 && asOf - 7 <= d < asOf
    ensures forall day :: day <= d <==> Week(day) < Week(asOf)
  {
    asOf - (Weekday(asOf) + 1)
  }

  // ---- sorted days ----

  ghost predicate Increasing(ds: seq<int>) {
    forall i, j :: 0 <= i < j < |ds| ==> ds[i] < ds[j]
  }

  lemma HeadIsLeast(ds: seq<int>)
    requires Increasing(ds) && |ds| > 0
    ensures Increasing(ds[1..]) && forall x <- ds[1..] :: ds[0] < x
  {
  }

  lemma ConsIncreases(d: int, ds: seq<int>)
    requires Increasing(ds) && forall x <- ds :: d < x
    ensures Increasing([d] + ds)
  {
    assert forall i :: 0 <= i < |ds| ==> ds[i] in ds;
  }

  function InsertDay(d: int, ds: seq<int>): (r: seq<int>)
    requires Increasing(ds)
    ensures Increasing(r)
    ensures forall x :: x in r <==> x == d || x in ds
  {
    if |ds| == 0 then [d]
    else
      HeadTail(ds);
      HeadIsLeast(ds);
      if d < ds[0] then ConsIncreases(d, ds); [d] + ds
      else if d == ds[0] then ds
      else
        var rest := InsertDay(d, ds[1..]);
        ConsIncreases(ds[0], rest);
        [ds[0]] + rest
  }

  /** `tuple(sorted(set(days)))` */
  function SortedDays(days: seq<int>): (r: seq<int>)
    ensures Increasing(r)
    ensures forall x :: x in r <==> x in days
  {
    if |days| == 0 then []
    else
      InitLast(days);
      InsertDay(days[|days| - 1], SortedDays(days[..|days| - 1]))
  }

  // ---- windows ----

  function LocalOf(): Point -> nat {
    (p: Point) => p.local
  }

  function AllShares(points: seq<Point>): seq<OriginShare> {
    if |points| == 0 then [] else AllShares(points[..|points| - 1]) + points[|points| - 1].shares
  }

  function ShareOrigin(): OriginShare -> string {
    (s: OriginShare) => s.origin
  }

  function ShareUnits(): OriginShare -> nat {
    (s: OriginShare) => s.quantity
  }

  datatype Window = Window(demand: nat, fulfilled: nat, local: nat, origins: seq<string>, units: map<string, Total>)

  /** What `_window` adds up. */
  ghost predicate IsWindow(points: seq<Point>, w: Window) {
    && w.demand == SumBy(points, DemandOf()) && w.fulfilled == SumBy(points, FulfilledOf()) && w.local == SumBy(points, LocalOf())
    && Totalled(AllShares(points), ShareOrigin(), ShareUnits(), ShareUnits(), w.origins, w.units)
  }

  /** `_window` */
  method MakeWindow(points: seq<Point>) returns (w: Window)
    ensures IsWindow(points, w)
  {
    var demand, fulfilled, local := 0, 0, 0;
    var shares: seq<OriginShare> := [];
    for i := 0 to |points|
      invariant demand == SumBy(points[..i], DemandOf()) && fulfilled == SumBy(points[..i], FulfilledOf())
      invariant local == SumBy(points[..i], LocalOf()) && shares == AllShares(points[..i])
    {
      TakeNext(points, i);
      TakeTake(points, i);
      SumSnoc(points[..i], points[i], DemandOf());
      SumSnoc(points[..i], points[i], FulfilledOf());
      SumSnoc(points[..i], points[i], LocalOf());
      demand := demand + points[i].demand;
      fulfilled := fulfilled + points[i].fulfilled;
      local := local + points[i].local;
      shares := shares + points[i].shares;
    }
    TakeAll(points);
    var origins, units := Accumulate(shares, ShareOrigin(), ShareUnits(), ShareUnits());
    w := Window(demand, fulfilled, local, origins, units);
  }

  function LocalShare(w: Window): real {
    if w.fulfilled > 0 then Ratio(w.local, w.fulfilled) else 0.0
  }

  /** `origin_shares.get(origin, 0)` */
  function ShareIn(w: Window, origin: string): real {
    if w.fulfilled > 0 && origin in w.units then Ratio(w.units[origin].quantity, w.fulfilled) else 0.0
  }

  /** The keys of `origin_shares`: none when nothing was fulfilled. */
  function OriginsIn(w: Window): seq<string> {
    if w.fulfilled > 0 then w.origins else []
  }

  lemma WindowIsUnique(points: seq<Point>, v: Window, w: Window)
    requires IsWindow(points, v) && IsWindow(points, w)
    ensures v == w
  {
    assert forall k :: k in v.units <==> k in w.units;
    assert forall k :: k in v.units ==> v.units[k] == w.units[k];
  }

  // ---- one rolling position ----

  function Retention(base: Window, obs: Window): real
    requires base.demand > 0
  {
    obs.demand as real / base.demand as real
  }

  /** The share of local fulfillment collapses although demand is kept. */
  predicate Collapses(base: Window, obs: Window, th: Thresholds) {
    && base.fulfilled >= th.minFulfilled && obs.fulfilled >= th.minFulfilled
    && LocalShare(base) >= th.priorLocal
    && LocalShare(base) - LocalShare(obs) >= th.drop
    && base.demand > 0
    && Retention(base, obs) >= th.retention
  }

  predicate IsDonor(base: Window, obs: Window, destination: string, th: Thresholds, origin: string) {
    origin != destination && ShareIn(obs, origin) - ShareIn(base, origin) >= th.rise
  }

  function Self(): string -> string {
    (o: string) => o
  }

  /** The donors among the given origins, in their order. */
  function DonorsAmong(origins: seq<string>, base: Window, obs: Window, destination: string, th: Thresholds): (r: seq<Donor>)
    ensures forall d <- r :: IsDonor(base, obs, destination, th, d.origin) && d == DonorOf(base, obs, d.origin)
    ensures forall o :: (exists d <- r :: d.origin == o) <==> o in origins && IsDonor(base, obs, destination, th, o)
  {
    if |origins| == 0 then []
    else
      var init, last := DonorsAmong(origins[..|origins| - 1], base, obs, destination, th), origins[|origins| - 1];
      InitLast(origins);
      if IsDonor(base, obs, destination, th, last) then init + [DonorOf(base, obs, last)] else init
  }

  function DonorOf(base: Window, obs: Window, origin: string): Donor {
    Donor(origin, ShareIn(base, origin), ShareIn(obs, origin), ShareIn(obs, origin) - ShareIn(base, origin))
  }

  /** `sorted(set(baseline.origin_shares) | set(observed.origin_shares))`, and the donors among them. */
  function Donors(base: Window, obs: Window, destination: string, th: Thresholds): seq<Donor> {
    DonorsAmong(Sort(Distinct(OriginsIn(base) + OriginsIn(obs), Self()), NameOrder()), base, obs, destination, th)
  }

  predicate Contaminated(p: Point, base: Window, th: Thresholds) {
    && p.fulfilled > 0 && p.localShare.Some?
    && p.localShare.value <= LocalShare(base) - th.drop
    && exists s <- p.shares :: s.origin != p.key.destination && s.share - ShareIn(base, s.origin) >= th.rise
  }

  function ContaminatedDays(points: seq<Point>, base: Window, th: Thresholds): (ds: seq<int>)
    ensures forall d :: d in ds <==> exists p <- points :: Contaminated(p, base, th) && p.day == d
  {
    if |points| == 0 then []
    else
      var init, last := ContaminatedDays(points[..|points| - 1], base, th), points[|points| - 1];
      InitLast(points);
      if Contaminated(last, base, th) then init + [last.day] else init
  }

  /** The judgement of one position, from its two windows. */
  function Judge(key: SeriesKey, baseline: seq<Point>, observed: seq<Point>, base: Window, obs: Window, th: Thresholds, cutoff: int): Option<Candidate>
    requires |baseline| > 0 && |observed| > 0
  {
    var affected := SortedDays(ContaminatedDays(observed, base, th));
    var donors := Donors(base, obs, key.destination, th);
    if !Collapses(base, obs, th) || |donors| == 0 || |affected| < th.minDays then None
    else Some(Candidate(key, affected, baseline[0].day, baseline[|baseline| - 1].day, LocalShare(base), LocalShare(obs), Retention(base, obs),
                        if observed[|observed| - 1].day <= cutoff then HistoricalComplete else CurrentWeek, donors))
  }

  function Baseline(points: seq<Point>, end: nat, size: nat): (r: seq<Point>)
    requires 0 < size && 2 * size - 1 <= end < |points|
    ensures |r| == size
  {
    points[end - 2 * size + 1..end - size + 1]
  }

  function Observed(points: seq<Point>, end: nat, size: nat): (r: seq<Point>)
    requires 0 < size && 2 * size - 1 <= end < |points|
    ensures |r| == size
  {
    points[end - size + 1..end + 1]
  }

  /** A candidate is the judgement of some position of the series. */
  ghost predicate JudgedAt(key: SeriesKey, points: seq<Point>, th: Thresholds, cutoff: int, end: nat, c: Option<Candidate>) {
    && 0 < th.size && 2 * th.size - 1 <= end < |points|
    && exists base, obs :: IsWindow(Baseline(points, end, th.size), base) && IsWindow(Observed(points, end, th.size), obs)
         && c == Judge(key, Baseline(points, end, th.size), Observed(points, end, th.size), base, obs, th, cutoff)
  }

  lemma WindowDays(points: seq<Point>, end: nat, size: nat, i: nat)
    requires GapFree(points) && 0 < size && 2 * size - 1 <= end < |points| && i < size
    ensures Observed(points, end, size)[i].day == points[end].day - size + 1 + i
    ensures Baseline(points, end, size)[i].day == points[end].day - 2 * size + 1 + i
  {
    assert Observed(points, end, size)[i] == points[end - size + 1 + i];
    assert Baseline(points, end, size)[i] == points[end - 2 * size + 1 + i];
  }

  lemma ContaminatedAreObserved(observed: seq<Point>, base: Window, th: Thresholds, lo: int, hi: int)
    requires forall i :: 0 <= i < |observed| ==> lo <= observed[i].day <= hi
    ensures forall d <- ContaminatedDays(observed, base, th) :: lo <= d <= hi
  {
    forall d | d in ContaminatedDays(observed, base, th) ensures lo <= d <= hi {
      var p :| p in observed && p.day == d;
    }
  }

  lemma JudgedDays(key: SeriesKey, baseline: seq<Point>, observed: seq<Point>, base: Window, obs: Window, th: Thresholds, cutoff: int, lo: int, hi: int)
    requires |baseline| > 0 && |observed| > 0 && ValidThresholds(th)
    requires forall i :: 0 <= i < |observed| ==> lo <= observed[i].day <= hi
    ensures var c := Judge(key, baseline, observed, base, obs, th, cutoff);
      c.Some? ==>
        && (forall d <- c.value.affected :: lo <= d <= hi)
        && Increasing(c.value.affected) && |c.value.affected| >= th.minDays > 0
        && c.value.key == key && c.value.baselineStart == baseline[0].day && c.value.baselineEnd == baseline[|baseline| - 1].day
        && (c.value.scope.HistoricalComplete? <==> observed[|observed| - 1].day <= cutoff)
  {
    ContaminatedAreObserved(observed, base, th, lo, hi);
  }

  /** Rolling windows are consecutive calendar days: the baseline, then the observed days up to the
      position; contaminated days are observed ones, at least as many as the threshold asks for. */
  lemma WindowsAreConsecutive(key: SeriesKey, points: seq<Point>, th: Thresholds, cutoff: int, end: nat, c: Candidate)
    requires ValidThresholds(th) && GapFree(points) && JudgedAt(key, points, th, cutoff, end, Some(c))
    ensures var last := points[end].day;
      && (forall i :: 0 <= i < th.size ==> Observed(points, end, th.size)[i].day == last - th.size + 1 + i)
      && (forall i :: 0 <= i < th.size ==> Baseline(points, end, th.size)[i].day == last - 2 * th.size + 1 + i)
      && c.baselineStart == last - 2 * th.size + 1 && c.baselineEnd == last - th.size
      && (forall d <- c.affected :: c.baselineEnd < d <= last)
      && Increasing(c.affected) && |c.affected| >= th.minDays > 0
      && (c.scope.HistoricalComplete? <==> last <= cutoff) && c.key == key
  {
    var observed, baseline, last := Observed(points, end, th.size), Baseline(points, end, th.size), points[end].day;
    forall i: nat | i < th.size ensures observed[i].day == last - th.size + 1 + i && baseline[i].day == last - 2 * th.size + 1 + i {
      WindowDays(points, end, th.size, i);
    }
    var base, obs :| IsWindow(baseline, base) && IsWindow(observed, obs) && Some(c) == Judge(key, baseline, observed, base, obs, th, cutoff);
    JudgedDays(key, baseline, observed, base, obs, th, cutoff, last - th.size + 1, last);
  }

  /** What makes a candidate: local fulfillment fell from a high share, demand stayed, and origins
      other than the destination took over. */
  ghost predicate Founded(c: Candidate, th: Thresholds) {
    && th.priorLocal <= c.baselineLocal && c.observedLocal <= c.baselineLocal - th.drop && th.retention <= c.retention
    && |c.donors| > 0
    && forall d <- c.donors :: d.origin != c.key.destination && d.increase == d.after - d.before >= th.rise
  }

  lemma JudgedIsFounded(key: SeriesKey, points: seq<Point>, th: Thresholds, cutoff: int, end: nat, c: Candidate)
    requires JudgedAt(key, points, th, cutoff, end, Some(c))
    ensures Founded(c, th)
  {
  }

  lemma ObservedArePoints(points: seq<Point>, end: nat, size: nat, p: Point)
    requires 0 < size && 2 * size - 1 <= end < |points| && p in Observed(points, end, size)
    ensures p in points
  {
  }

  lemma JudgedFromObserved(key: SeriesKey, baseline: seq<Point>, observed: seq<Point>, base: Window, obs: Window, th: Thresholds, cutoff: int, d: int)
    returns (p: Point)
    requires |baseline| > 0 && |observed| > 0
    requires var c := Judge(key, baseline, observed, base, obs, th, cutoff); c.Some? && d in c.value.affected
    ensures p in observed && p.day == d
  {
    assert d in ContaminatedDays(observed, base, th);
    p :| p in observed && p.day == d;
  }

  lemma JudgedDaysArePoints(key: SeriesKey, points: seq<Point>, th: Thresholds, cutoff: int, end: nat, c: Candidate, d: int)
    requires JudgedAt(key, points, th, cutoff, end, Some(c)) && d in c.affected
    ensures exists p <- points :: p.day == d
  {
    var baseline, observed := Baseline(points, end, th.size), Observed(points, end, th.size);
    var base, obs :| IsWindow(baseline, base) && IsWindow(observed, obs) && Some(c) == Judge(key, baseline, observed, base, obs, th, cutoff);
    var p := JudgedFromObserved(key, baseline, observed, base, obs, th, cutoff, d);
    ObservedArePoints(points, end, th.size, p);
  }

  // ---- all positions of all series ----

  function OfKey(locality: seq<Point>, key: SeriesKey): (r: seq<Point>)
    ensures forall p :: p in r <==> p in locality && p.key == key
  {
    if |locality| == 0 then []
    else
      var init, last := OfKey(locality[..|locality| - 1], key), locality[|locality| - 1];
      InitLast(locality);
      if last.key == key then init + [last] else init
  }

  function DayOrder(): (Point, Point) -> bool {
    (a: Point, b: Point) => a.day <= b.day
  }

  /** The points of one series, sorted by day. */
  function Series(locality: seq<Point>, key: SeriesKey): seq<Point> {
    Sort(OfKey(locality, key), DayOrder())
  }

  function KeyOf(): Point -> SeriesKey {
    (p: Point) => p.key
  }

  /** The candidates found at the given positions, which are all positions below `limit` that yield one. */
  ghost predicate Scanned(key: SeriesKey, points: seq<Point>, th: Thresholds, cutoff: int, limit: nat, cs: seq<Candidate>) {
    && (forall c <- cs :: exists end: nat :: JudgedAt(key, points, th, cutoff, end, Some(c)))
    && (forall end: nat, c :: end < limit && JudgedAt(key, points, th, cutoff, end, Some(c)) ==> c in cs)
  }

  lemma JudgedOnce(key: SeriesKey, points: seq<Point>, th: Thresholds, cutoff: int, end: nat, c: Option<Candidate>, d: Option<Candidate>)
    requires JudgedAt(key, points, th, cutoff, end, c) && JudgedAt(key, points, th, cutoff, end, d)
    ensures c == d
  {
    var baseline, observed := Baseline(points, end, th.size), Observed(points, end, th.size);
    var b1, o1 :| IsWindow(baseline, b1) && IsWindow(observed, o1) && c == Judge(key, baseline, observed, b1, o1, th, cutoff);
    var b2, o2 :| IsWindow(baseline, b2) && IsWindow(observed, o2) && d == Judge(key, baseline, observed, b2, o2, th, cutoff);
    WindowIsUnique(baseline, b1, b2);
    WindowIsUnique(observed, o1, o2);
  }

  lemma ScannedKnows(key: SeriesKey, points: seq<Point>, th: Thresholds, cutoff: int, end: nat, cs: seq<Candidate>, c: Option<Candidate>, e: nat, d: Candidate)
    requires Scanned(key, points, th, cutoff, end, cs) && JudgedAt(key, points, th, cutoff, end, c)
    requires e <= end && JudgedAt(key, points, th, cutoff, e, Some(d))
    ensures d in cs || c == Some(d)
  {
    if e == end {
      JudgedOnce(key, points, th, cutoff, end, c, Some(d));
    }
  }

  lemma ScannedStep(key: SeriesKey, points: seq<Point>, th: Thresholds, cutoff: int, end: nat, cs: seq<Candidate>, c: Option<Candidate>)
    requires Scanned(key, points, th, cutoff, end, cs) && JudgedAt(key, points, th, cutoff, end, c)
    ensures Scanned(key, points, th, cutoff, end + 1, if c.Some? then cs + [c.value] else cs)
  {
    var next := if c.Some? then cs + [c.value] else cs;
    forall e: nat, d | e < end + 1 && JudgedAt(key, points, th, cutoff, e, Some(d)) ensures d in next {
      ScannedKnows(key, points, th, cutoff, end, cs, c, e, d);
    }
    forall d | d in next ensures exists e: nat :: JudgedAt(key, points, th, cutoff, e, Some(d)) {
      if d in cs {
      } else {
        assert JudgedAt(key, points, th, cutoff, end, Some(d));
      }
    }
  }

  /** The loop over the end positions of one series. */
  method Scan(key: SeriesKey, points: seq<Point>, th: Thresholds, cutoff: int) returns (cs: seq<Candidate>)
    requires ValidThresholds(th)
    ensures Scanned(key, points, th, cutoff, |points|, cs)
  {
    cs := [];
    var end := 2 * th.size - 1;
    while end < |points|
      invariant Scanned(key, points, th, cutoff, end, cs)
      invariant 2 * th.size - 1 <= end
    {
      var base := MakeWindow(Baseline(points, end, th.size));
      var obs := MakeWindow(Observed(points, end, th.size));
      var c := Judge(key, Baseline(points, end, th.size), Observed(points, end, th.size), base, obs, th, cutoff);
      ScannedStep(key, points, th, cutoff, end, cs, c);
      cs := if c.Some? then cs + [c.value] else cs;
      end := end + 1;
    }
  }

  /** All candidates of the series under the given keys. */
  ghost predicate Found(locality: seq<Point>, th: Thresholds, cutoff: int, keys: seq<SeriesKey>, cs: seq<Candidate>) {
    && (forall c <- cs :: c.key in keys && exists end: nat :: JudgedAt(c.key, Series(locality, c.key), th, cutoff, end, Some(c)))
    && (forall k <- keys, end: nat, c :: JudgedAt(k, Series(locality, k), th, cutoff, end, Some(c)) ==> c in cs)
  }

  lemma JudgedKey(key: SeriesKey, points: seq<Point>, th: Thresholds, cutoff: int, end: nat, c: Candidate)
    requires JudgedAt(key, points, th, cutoff, end, Some(c))
    ensures c.key == key && end < |points|
  {
  }

  lemma FoundStep(locality: seq<Point>, th: Thresholds, cutoff: int, keys: seq<SeriesKey>, cs: seq<Candidate>, key: SeriesKey, more: seq<Candidate>)
    requires Found(locality, th, cutoff, keys, cs) && Scanned(key, Series(locality, key), th, cutoff, |Series(locality, key)|, more)
    ensures Found(locality, th, cutoff, keys + [key], cs + more)
  {
    forall c | c in cs + more ensures c.key in keys + [key] && exists end: nat :: JudgedAt(c.key, Series(locality, c.key), th, cutoff, end, Some(c)) {
      if c in more {
        var end: nat :| JudgedAt(key, Series(locality, key), th, cutoff, end, Some(c));
        JudgedKey(key, Series(locality, key), th, cutoff, end, c);
      }
    }
    forall k, end: nat, c | k in keys + [key] && JudgedAt(k, Series(locality, k), th, cutoff, end, Some(c)) ensures c in cs + more {
      JudgedKey(k, Series(locality, k), th, cutoff, end, c);
    }
  }

  /** The first half of `detect_stockout_episodes`. */
  method FindCandidates(locality: seq<Point>, th: Thresholds, asOf: int) returns (cs: seq<Candidate>)
    requires ValidThresholds(th)
    ensures Found(locality, th, Cutoff(asOf), Sort(Distinct(locality, KeyOf()), KeyOrder()), cs)
  {
    var keys := Sort(Distinct(locality, KeyOf()), KeyOrder());
    cs := [];
    for j := 0 to |keys|
      invariant Found(locality, th, Cutoff(asOf), keys[..j], cs)
    {
      TakeNext(keys, j);
      var more := Scan(keys[j], Series(locality, keys[j]), th, Cutoff(asOf));
      FoundStep(locality, th, Cutoff(asOf), keys[..j], cs, keys[j], more);
      cs := cs + more;
    }
    TakeAll(keys);
  }
}
