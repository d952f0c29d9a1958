/** Evidence for the origins that replaced local fulfillment during an episode
    (backend/analytics/stockout_episodes.py:240-280). */
module EpisodeEvidence {
  import opened Wrappers
  import opened Text
  import opened Sequences
  import opened StableSort
  import opened Sums
  import opened KeyedTotals
  import opened DailyFacts
  import opened LocalitySeries
  import opened StockoutWindows

  datatype Replacement = Replacement(origin: string, baseline: real, peak: real, increase: real, quantity: nat)

  // ---- extremes over a group ----

  function Largest<T>(xs: seq<T>, f: T -> real): (r: real)
    requires |xs| > 0
    ensures forall x <- xs :: f(x) <= r
    ensures exists x <- xs :: f(x) == r
  {
    var last := xs[|xs| - 1];
    InitLast(xs);
    if |xs| == 1 then f(last)
    else
      var before := Largest(xs[..|xs| - 1], f);
      if before < f(last) then f(last) else before
  }

  function Smallest<T>(xs: seq<T>, f: T -> real): (r: real)
    requires |xs| > 0
    ensures forall x <- xs :: r <= f(x)
    ensures exists x <- xs :: f(x) == r
  {
    var last := xs[|xs| - 1];
    InitLast(xs);
    if |xs| == 1 then f(last)
    else
      var before := Smallest(xs[..|xs| - 1], f);
      if f(last) < before then f(last) else before
  }

  /** `min(group, key=lambda item: (item.baseline_start, item.baseline_end))` */
  function Earliest(group: seq<Candidate>): (c: Candidate)
    requires |group| > 0
    ensures c in group
  {
    if |group| == 1 then group[0]
    else
      var best, last := Earliest(group[..|group| - 1]), group[|group| - 1];
      if last.baselineStart < best.baselineStart || (last.baselineStart == best.baselineStart && last.baselineEnd < best.baselineEnd)
      then last else best
  }

  // ---- the donors of a group ----

  function AllDonors(group: seq<Candidate>): (ds: seq<Donor>)
    ensures forall d :: d in ds <==> exists c <- group :: d in c.donors
  {
    if |group| == 0 then []
    else
      InitLast(group);
      AllDonors(group[..|group| - 1]) + group[|group| - 1].donors
  }

  ghost predicate Donates(group: seq<Candidate>, origin: string) {
    exists d <- AllDonors(group) :: d.origin == origin
  }

  /** The donors with a given name, in order. */
  function Named(ds: seq<Donor>, origin: string): (r: seq<Donor>)
    ensures forall d :: d in r <==> d in ds && d.origin == origin
  {
    if |ds| == 0 then []
    else
      var init, last := Named(ds[..|ds| - 1], origin), ds[|ds| - 1];
      InitLast(ds);
      if last.origin == origin then init + [last] else init
  }

  /** The share before the episode: the first one noted with the earliest candidate. */
  function BaselineShare(first: Candidate, origin: string): real {
    var named := Named(first.donors, origin);
    if |named| > 0 then named[0].before else 0.0
  }

  function ShareAfter(): Donor -> real {
    (d: Donor) => d.after
  }

  function Increase(): Donor -> real {
    (d: Donor) => d.increase
  }

  function DonorName(): Donor -> string {
    (d: Donor) => d.origin
  }

  // ---- units during the episode ----

  /** `point_index`: of several points of one series and day the last one counts. */
  function PointAt(locality: seq<Point>, key: SeriesKey, day: int): (r: Option<Point>)
    ensures r.Some? <==> exists p <- locality :: p.key == key && p.day == day
    ensures r.Some? ==> r.value in locality && r.value.key == key && r.value.day == day
  {
    if |locality| == 0 then None
    else
      var last := locality[|locality| - 1];
      InitLast(locality);
      if last.key == key && last.day == day then Some(last) else PointAt(locality[..|locality| - 1], key, day)
  }

  /** The units of the first share of an origin. */
  function SharedUnits(shares: seq<OriginShare>, origin: string): nat {
    if |shares| == 0 then 0
    else if shares[0].origin == origin then shares[0].quantity
    else SharedUnits(shares[1..], origin)
  }

  function UnitsOn(locality: seq<Point>, key: SeriesKey, origin: string): int -> nat {
    (day: int) =>
      var p := PointAt(locality, key, day);
      if p.Some? then SharedUnits(p.value.shares, origin) else 0
  }

  // ---- the evidence ----

  function EvidenceOf(group: seq<Candidate>, locality: seq<Point>, key: SeriesKey, days: seq<int>, origin: string): Replacement
    requires |group| > 0 && Donates(group, origin)
  {
    var entries := Named(AllDonors(group), origin);
    Replacement(origin, BaselineShare(Earliest(group), origin), Largest(entries, ShareAfter()), Largest(entries, Increase()),
                SumBy(days, UnitsOn(locality, key, origin)))
  }

  predicate Stronger(a: Replacement, b: Replacement) {
    b.increase < a.increase || (a.increase == b.increase && TextLe(a.origin, b.origin))
  }

  function StrengthOrder(): (Replacement, Replacement) -> bool {
    (a: Replacement, b: Replacement) => Stronger(a, b)
  }

  function EvidenceFor(group: seq<Candidate>, locality: seq<Point>, key: SeriesKey, days: seq<int>, origins: seq<string>): (r: seq<Replacement>)
    requires |group| > 0 && forall o <- origins :: Donates(group, o)
    ensures |r| == |origins|
    ensures forall i :: 0 <= i < |r| ==> origins[i] in origins && r[i] == EvidenceOf(group, locality, key, days, origins[i])
  {
    seq(|origins|, i requires 0 <= i < |origins| => assert origins[i] in origins; EvidenceOf(group, locality, key, days, origins[i]))
  }

  /** The evidence of a group, strongest origin first. */
  function Replacements(group: seq<Candidate>, locality: seq<Point>, key: SeriesKey, days: seq<int>): seq<Replacement>
    requires |group| > 0
  {
    Sort(EvidenceFor(group, locality, key, days, Distinct(AllDonors(group), DonorName())), StrengthOrder())
  }

  // ---- what it says ----

  lemma StrengthIsTotal()
    ensures TotalPreorder(StrengthOrder())
  {
    forall a: Replacement, b: Replacement ensures Stronger(a, b) || Stronger(b, a) {
      TextLeTotal(a.origin, b.origin);
    }
    forall a: Replacement, b: Replacement, c: Replacement | Stronger(a, b) && Stronger(b, c) ensures Stronger(a, c) {
      if TextLe(a.origin, b.origin) && TextLe(b.origin, c.origin) {
        TextLeTransitive(a.origin, b.origin, c.origin);
      }
    }
  }

  /** The record of one origin: its strongest appearances among the group's donors, and its units on
      the episode's days. */
  ghost predicate Describes(r: Replacement, group: seq<Candidate>, locality: seq<Point>, key: SeriesKey, days: seq<int>) {
    && (exists d <- AllDonors(group) :: d.origin == r.origin && d.after == r.peak)
    && (exists d <- AllDonors(group) :: d.origin == r.origin && d.increase == r.increase)
    && (forall d <- AllDonors(group) :: d.origin == r.origin ==> d.after <= r.peak && d.increase <= r.increase)
    && r.quantity == SumBy(days, UnitsOn(locality, key, r.origin))
  }

  lemma EvidenceDescribes(group: seq<Candidate>, locality: seq<Point>, key: SeriesKey, days: seq<int>, origin: string)
    requires |group| > 0 && Donates(group, origin)
    ensures Describes(EvidenceOf(group, locality, key, days, origin), group, locality, key, days)
  {
    var entries := Named(AllDonors(group), origin);
    var d :| d in AllDonors(group) && d.origin == origin;
    assert d in entries;
    var p :| p in entries && ShareAfter()(p) == Largest(entries, ShareAfter());
    var q :| q in entries && Increase()(q) == Largest(entries, Increase());
    forall x | x in entries ensures x.after <= Largest(entries, ShareAfter()) && x.increase <= Largest(entries, Increase()) {
      assert ShareAfter()(x) == x.after && Increase()(x) == x.increase;
    }
  }

  lemma EvidenceDiffers(group: seq<Candidate>, locality: seq<Point>, key: SeriesKey, days: seq<int>, origins: seq<string>)
    requires |group| > 0 && NoDup(origins) && forall o <- origins :: Donates(group, o)
    ensures NoDup(EvidenceFor(group, locality, key, days, origins))
    ensures NoTies(EvidenceFor(group, locality, key, days, origins), StrengthOrder())
  {
    var found := EvidenceFor(group, locality, key, days, origins);
    forall i, j | 0 <= i < |found| && 0 <= j < |found| && Stronger(found[i], found[j]) && Stronger(found[j], found[i])
      ensures found[i] == found[j] {
      TextLeTotal(found[i].origin, found[j].origin);
    }
  }

  lemma FoundByOrigin(group: seq<Candidate>, locality: seq<Point>, key: SeriesKey, days: seq<int>, origins: seq<string>, r: Replacement)
    requires |group| > 0 && forall o <- origins :: Donates(group, o)
    ensures r in EvidenceFor(group, locality, key, days, origins) <==>
      r.origin in origins && r == EvidenceOf(group, locality, key, days, r.origin)
  {
    var found := EvidenceFor(group, locality, key, days, origins);
    if r.origin in origins && r == EvidenceOf(group, locality, key, days, r.origin) {
      var i :| 0 <= i < |origins| && origins[i] == r.origin;
      assert found[i] == r;
    }
  }

  function OriginsShown(rs: seq<Replacement>): (os: seq<string>)
    ensures |os| == |rs| && forall i :: 0 <= i < |rs| ==> os[i] == rs[i].origin
  {
    seq(|rs|, i requires 0 <= i < |rs| => rs[i].origin)
  }

  lemma EvidenceElements(group: seq<Candidate>, locality: seq<Point>, key: SeriesKey, days: seq<int>, r: Replacement)
    requires |group| > 0
    ensures r in Replacements(group, locality, key, days) <==>
      Donates(group, r.origin) && r == EvidenceOf(group, locality, key, days, r.origin)
  {
    var origins := Distinct(AllDonors(group), DonorName());
    SortElements(EvidenceFor(group, locality, key, days, origins), StrengthOrder());
    FoundByOrigin(group, locality, key, days, origins, r);
    assert r.origin in origins <==> exists d <- AllDonors(group) :: DonorName()(d) == r.origin;
  }

  lemma EvidenceOnce(group: seq<Candidate>, locality: seq<Point>, key: SeriesKey, days: seq<int>)
    requires |group| > 0
    ensures var rs := Replacements(group, locality, key, days); Sorted(rs, StrengthOrder()) && NoDup(OriginsShown(rs))
  {
    var origins := Distinct(AllDonors(group), DonorName());
    var found, rs := EvidenceFor(group, locality, key, days, origins), Replacements(group, locality, key, days);
    StrengthIsTotal();
    SortKeeps(found, StrengthOrder());
    EvidenceDiffers(group, locality, key, days, origins);
    NoDupAmong(found, rs);
    forall i, j | 0 <= i < j < |rs| ensures rs[i].origin != rs[j].origin {
      EvidenceElements(group, locality, key, days, rs[i]);
      EvidenceElements(group, locality, key, days, rs[j]);
    }
  }

  lemma EvidenceDescribed(group: seq<Candidate>, locality: seq<Point>, key: SeriesKey, days: seq<int>)
    requires |group| > 0
    ensures forall r <- Replacements(group, locality, key, days) :: Describes(r, group, locality, key, days)
  {
    forall r | r in Replacements(group, locality, key, days) ensures Describes(r, group, locality, key, days) {
      EvidenceElements(group, locality, key, days, r);
      EvidenceDescribes(group, locality, key, days, r.origin);
    }
  }

  lemma EvidenceCovers(group: seq<Candidate>, locality: seq<Point>, key: SeriesKey, days: seq<int>, c: Candidate, d: Donor)
    requires c in group && d in c.donors
    ensures exists r <- Replacements(group, locality, key, days) :: r.origin == d.origin
  {
    assert d in AllDonors(group) && Donates(group, d.origin);
    EvidenceElements(group, locality, key, days, EvidenceOf(group, locality, key, days, d.origin));
  }

  /** The larger increase comes first, and of equal ones the earlier name. */
  predicate MayStandBefore(a: Replacement, b: Replacement) {
    a.increase > b.increase || (a.increase == b.increase && TextLe(a.origin, b.origin))
  }

  ghost predicate StrongestFirst(rs: seq<Replacement>) {
    forall i, j :: 0 <= i < j < |rs| ==> MayStandBefore(rs[i], rs[j])
  }

  /** The evidence names exactly the donors of the group's candidates, each once and the strongest
      first, with the highest share and increase any of them shows. */
  lemma EvidenceIsComplete(group: seq<Candidate>, locality: seq<Point>, key: SeriesKey, days: seq<int>)
    requires |group| > 0
    ensures var rs := Replacements(group, locality, key, days);
      && StrongestFirst(rs) && NoDup(OriginsShown(rs))
      && (forall r <- rs :: Donates(group, r.origin) && Describes(r, group, locality, key, days))
      && (forall c <- group, d <- c.donors :: exists r <- rs :: r.origin == d.origin)
  {
    var rs := Replacements(group, locality, key, days);
    EvidenceOnce(group, locality, key, days);
    EvidenceDescribed(group, locality, key, days);
    forall i, j | 0 <= i < j < |rs| ensures MayStandBefore(rs[i], rs[j]) {
      assert StrengthOrder()(rs[i], rs[j]);
    }
    forall r | r in rs ensures Donates(group, r.origin) {
      EvidenceElements(group, locality, key, days, r);
    }
    forall c, d | c in group && d in c.donors ensures exists r <- rs :: r.origin == d.origin {
      EvidenceCovers(group, locality, key, days, c, d);
    }
  }

  /** The set of donor names may be walked in any order: the sorted evidence is the same. */
  lemma EvidenceIgnoresOrder(group: seq<Candidate>, locality: seq<Point>, key: SeriesKey, days: seq<int>, origins: seq<string>)
    requires |group| > 0 && NoDup(origins) && forall o :: o in origins <==> Donates(group, o)
    ensures Sort(EvidenceFor(group, locality, key, days, origins), StrengthOrder()) == Replacements(group, locality, key, days)
  {
    var own := Distinct(AllDonors(group), DonorName());
    var a, b := EvidenceFor(group, locality, key, days, origins), EvidenceFor(group, locality, key, days, own);
    forall o ensures o in origins <==> o in own {
      assert o in own <==> exists d <- AllDonors(group) :: DonorName()(d) == o;
    }
    EvidenceDiffers(group, locality, key, days, origins);
    EvidenceDiffers(group, locality, key, days, own);
    forall r ensures r in a <==> r in b {
      FoundByOrigin(group, locality, key, days, origins, r);
      FoundByOrigin(group, locality, key, days, own, r);
    }
    SameByElements(a, b);
    StrengthIsTotal();
    SortIgnoresOrder(a, b, StrengthOrder());
  }

  // ---- the units come from the fulfillment cells ----

  lemma {:induction false} SharedUnitsOf(origins: seq<string>, quantity: string -> nat, whole: nat, origin: string)
    requires whole > 0
    ensures SharedUnits(SharesOf(origins, quantity, whole), origin) == if origin in origins then quantity(origin) else 0
  {
    if |origins| > 0 {
      SharedUnitsOf(origins[1..], quantity, whole, origin);
      assert SharesOf(origins, quantity, whole)[1..] == SharesOf(origins[1..], quantity, whole);
      HeadTail(origins);
    }
  }

  /** The share that a day of a series shows for an origin has the origin's units of that day. */
  lemma ShareOfOrigin(demand: seq<DemandCell>, fulfilled: seq<FulfilledCell>, key: SeriesKey, day: int, origin: string)
    ensures SharedUnits(PointOn(demand, fulfilled, key, day).shares, origin) == OriginUnits(fulfilled, DayKey(key, day))(origin)
  {
    var dk := DayKey(key, day);
    var keys := Distinct(fulfilled, FulfilledOrigin());
    var names, quantity := OriginsOn(keys, dk), OriginUnits(fulfilled, dk);
    SortElements(names, NameOrder());
    if origin in names {
      MemberWithinSum(names, origin, quantity);
    } else {
      NothingUnder(fulfilled, FulfilledOrigin(), FulfilledUnits(), OriginKey(dk, origin));
    }
    if SumOver(names, quantity) > 0 {
      SharedUnitsOf(Sort(names, NameOrder()), quantity, SumOver(names, quantity), origin);
    }
  }

  ghost predicate IsBuilt(p: Point, demand: seq<DemandCell>, fulfilled: seq<FulfilledCell>) {
    p == PointOn(demand, fulfilled, p.key, p.day)
  }

  lemma PointIsBuilt(demand: seq<DemandCell>, fulfilled: seq<FulfilledCell>, key: SeriesKey, day: int)
    ensures IsBuilt(PointOn(demand, fulfilled, key, day), demand, fulfilled)
  {
  }

  lemma PointsAreBuilt(demand: seq<DemandCell>, fulfilled: seq<FulfilledCell>, key: SeriesKey, first: int, asOf: int)
    ensures forall p <- SeriesPoints(demand, fulfilled, key, first, asOf) :: IsBuilt(p, demand, fulfilled)
  {
    var points := SeriesPoints(demand, fulfilled, key, first, asOf);
    forall i | 0 <= i < |points| ensures IsBuilt(points[i], demand, fulfilled) {
      PointIsBuilt(demand, fulfilled, key, first + i);
    }
  }

  lemma {:induction false} SeriesIsBuilt(demand: seq<DemandCell>, fulfilled: seq<FulfilledCell>, keys: seq<SeriesKey>, first: map<SeriesKey, int>, asOf: int)
    requires forall k <- keys :: k in first
    ensures forall p <- AllSeries(demand, fulfilled, keys, first, asOf) :: IsBuilt(p, demand, fulfilled)
  {
    if |keys| > 0 {
      var k := keys[|keys| - 1];
      SeriesIsBuilt(demand, fulfilled, keys[..|keys| - 1], first, asOf);
      PointsAreBuilt(demand, fulfilled, k, first[k], asOf);
    }
  }

  /** What the fulfillment cells hold for an origin of a series, day by day. */
  function ShippedOn(fulfilled: seq<FulfilledCell>, key: SeriesKey, origin: string): int -> nat {
    (day: int) => OriginUnits(fulfilled, DayKey(key, day))(origin)
  }

  /** Where every day has its point, the lookups give the units of the fulfillment cells. */
  lemma UnitsAreShipped(locality: seq<Point>, demand: seq<DemandCell>, fulfilled: seq<FulfilledCell>, key: SeriesKey, origin: string, days: seq<int>)
    requires forall p <- locality :: IsBuilt(p, demand, fulfilled)
    requires forall d <- days :: exists p <- locality :: p.key == key && p.day == d
    ensures SumBy(days, UnitsOn(locality, key, origin)) == SumBy(days, ShippedOn(fulfilled, key, origin))
  {
    forall d | d in days ensures UnitsOn(locality, key, origin)(d) == ShippedOn(fulfilled, key, origin)(d) {
      var p := PointAt(locality, key, d).value;
      assert IsBuilt(p, demand, fulfilled);
      ShareOfOrigin(demand, fulfilled, key, d, origin);
    }
    SumAgrees(days, UnitsOn(locality, key, origin), ShippedOn(fulfilled, key, origin));
  }
}
