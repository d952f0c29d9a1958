/** Expected logistics of a route profile over tariff rows (backend/economics/tariffs.py).
    A row is matched by route, half-open volume interval and half-open price interval. */
module Tariffs {
  import opened Wrappers
  import opened Sequences
  import opened Text

  datatype TariffRow = TariffRow(
    origin: string, destination: string,
    minVolume: real, maxVolume: Option<real>,
    minPrice: Option<real>, maxPrice: Option<real>,
    fee: real)

  /** `ImportResult[TariffRow]`: the source rows are either absent or aligned with the records. */
  datatype TariffTable = TariffTable(records: seq<TariffRow>, sources: seq<int>)

  /** A record together with its worksheet row, when known. */
  datatype Entry = Entry(row: TariffRow, source: Option<int>)

  datatype LogisticsContext = LogisticsContext(sku: string, origin: string, volume: real, price: Option<real>)

  datatype RouteCell = RouteCell(
    sku: string, origin: string, destination: string, quantity: int, observations: int, share: real)

  datatype LookupStatus = Matched | Missing | Ambiguous

  datatype Coverage = Complete | Partial | NoCoverage | NoProfile

  datatype DiagnosticCode = AmbiguousMatch | PriceRequired | MissingTariff | NoRouteProfile

  datatype Diagnostic = Diagnostic(code: DiagnosticCode, destination: Option<string>)

  datatype Contribution = Contribution(
    cell: RouteCell, status: LookupStatus, fee: Option<real>, weighted: Option<real>, source: Option<int>)

  datatype Logistics = Logistics(
    sku: string, origin: string, quantity: int, observations: int,
    shareSum: real, coveredShare: real, uncoveredShare: real, coveredFee: real,
    expectedFee: Option<real>, coverage: Coverage,
    contributions: seq<Contribution>, diagnostics: seq<Diagnostic>)

  datatype LogisticsError = MisalignedSources | BadContext | BadRoute | DuplicateDestination

  // ---- rows ----

  /** `_contains`: half-open interval, an absent bound is open. */
  predicate Contains(value: real, lower: Option<real>, upper: Option<real>) {
    && (lower.None? || lower.value <= value)
    && (upper.None? || value < upper.value)
  }

  predicate Aligned(t: TariffTable) {
    |t.sources| == 0 || |t.sources| == |t.records|
  }

  function Entries(t: TariffTable): (es: seq<Entry>)
    requires Aligned(t)
  {
    seq(|t.records|, i requires 0 <= i < |t.records| =>
      Entry(t.records[i], if |t.sources| == 0 then None else Some(t.sources[i])))
  }

  predicate OnRoute(row: TariffRow, origin: string, destination: string) {
    row.origin == origin && row.destination == destination
  }

  predicate InVolume(row: TariffRow, volume: real) {
    Contains(volume, Some(row.minVolume), row.maxVolume)
  }

  predicate AtPrice(row: TariffRow, price: Option<real>) {
    || (row.minPrice.None? && row.maxPrice.None?)
    || (price.Some? && Contains(price.value, row.minPrice, row.maxPrice))
  }

  predicate PriceBound(row: TariffRow) {
    row.minPrice.Some? || row.maxPrice.Some?
  }

  function RouteEntries(es: seq<Entry>, origin: string, destination: string): (r: seq<Entry>)
    ensures forall e <- r :: e in es && OnRoute(e.row, origin, destination)
    ensures forall e <- es :: OnRoute(e.row, origin, destination) ==> e in r
  {
    if |es| == 0 then []
    else
      var rest := RouteEntries(es[..|es| - 1], origin, destination);
      if OnRoute(es[|es| - 1].row, origin, destination) then rest + [es[|es| - 1]] else rest
  }

  function VolumeEntries(es: seq<Entry>, volume: real): (r: seq<Entry>)
    ensures forall e <- r :: e in es && InVolume(e.row, volume)
    ensures forall e <- es :: InVolume(e.row, volume) ==> e in r
  {
    if |es| == 0 then []
    else
      var rest := VolumeEntries(es[..|es| - 1], volume);
      if InVolume(es[|es| - 1].row, volume) then rest + [es[|es| - 1]] else rest
  }

  function PriceEntries(es: seq<Entry>, price: Option<real>): (r: seq<Entry>)
    ensures forall e <- r :: e in es && AtPrice(e.row, price)
    ensures forall e <- es :: AtPrice(e.row, price) ==> e in r
  {
    if |es| == 0 then []
    else
      var rest := PriceEntries(es[..|es| - 1], price);
      if AtPrice(es[|es| - 1].row, price) then rest + [es[|es| - 1]] else rest
  }

  /** Filtering rows that all satisfy the filter changes nothing, so looking a route up in the
      rows already kept for it is the plain lookup. */
  lemma {:induction false} RouteEntriesFixed(es: seq<Entry>, origin: string, destination: string)
    requires forall e <- es :: OnRoute(e.row, origin, destination)
    ensures RouteEntries(es, origin, destination) == es
  {
    if |es| > 0 {
      RouteEntriesFixed(es[..|es| - 1], origin, destination);
      InitLast(es);
    }
  }

  lemma {:induction false} VolumeEntriesFixed(es: seq<Entry>, volume: real)
    requires forall e <- es :: InVolume(e.row, volume)
    ensures VolumeEntries(es, volume) == es
  {
    if |es| > 0 {
      VolumeEntriesFixed(es[..|es| - 1], volume);
      InitLast(es);
    }
  }

  /** Two prices that no row tells apart select the same entries. */
  lemma {:induction false} PriceEntriesAgree(es: seq<Entry>, p: Option<real>, q: Option<real>)
    requires forall e <- es :: AtPrice(e.row, p) == AtPrice(e.row, q)
    ensures PriceEntries(es, p) == PriceEntries(es, q)
  {
    if |es| > 0 {
      PriceEntriesAgree(es[..|es| - 1], p, q);
    }
  }

  // ---- one route ----

  function Candidates(t: TariffTable, origin: string, destination: string, volume: real): seq<Entry>
    requires Aligned(t)
  {
    VolumeEntries(RouteEntries(Entries(t), origin, destination), volume)
  }

  function Matches(t: TariffTable, origin: string, destination: string, volume: real, price: Option<real>): seq<Entry>
    requires Aligned(t)
  {
    PriceEntries(Candidates(t, origin, destination, volume), price)
  }

  function Weighted(share: real, fee: real): real {
    share * fee
  }

  function Contribute(t: TariffTable, ctx: LogisticsContext, cell: RouteCell): (c: Contribution)
    requires Aligned(t)
  {
    var matches := Matches(t, ctx.origin, cell.destination, ctx.volume, ctx.price);
    if |matches| == 1 then
      Contribution(cell, Matched, Some(matches[0].row.fee), Some(Weighted(cell.share, matches[0].row.fee)), matches[0].source)
    else
      Contribution(cell, if |matches| > 1 then Ambiguous else Missing, None, None, None)
  }

  function Diagnose(t: TariffTable, ctx: LogisticsContext, cell: RouteCell): seq<Diagnostic>
    requires Aligned(t)
  {
    var candidates := Candidates(t, ctx.origin, cell.destination, ctx.volume);
    var matches := Matches(t, ctx.origin, cell.destination, ctx.volume, ctx.price);
    if |matches| == 1 then []
    else if |matches| > 1 then [Diagnostic(AmbiguousMatch, Some(cell.destination))]
    else if ctx.price.None? && |candidates| > 0 && forall e <- candidates :: PriceBound(e.row) then
      [Diagnostic(PriceRequired, Some(cell.destination))]
    else [Diagnostic(MissingTariff, Some(cell.destination))]
  }

  // ---- the whole profile ----

  predicate ValidContext(ctx: LogisticsContext) {
    && !Blank(ctx.sku) && !Blank(ctx.origin) && 0.0 <= ctx.volume
    && (ctx.price.Some? ==> 0.0 <= ctx.price.value)
  }

  predicate ValidCell(cell: RouteCell) {
    !Blank(cell.destination) && 0 < cell.quantity && 0 <= cell.observations && 0.0 < cell.share <= 1.0
  }

  function Selected(profile: seq<RouteCell>, ctx: LogisticsContext): (r: seq<RouteCell>)
    ensures forall c <- r :: c in profile && c.sku == ctx.sku && c.origin == ctx.origin
  {
    if |profile| == 0 then []
    else
      var rest := Selected(profile[..|profile| - 1], ctx);
      var c := profile[|profile| - 1];
      if c.sku == ctx.sku && c.origin == ctx.origin then rest + [c] else rest
  }

  predicate DistinctDestinations(cells: seq<RouteCell>) {
    forall i, j :: 0 <= i < j < |cells| ==> cells[i].destination != cells[j].destination
  }

  function Shares(cells: seq<RouteCell>): real {
    if |cells| == 0 then 0.0 else Shares(cells[..|cells| - 1]) + cells[|cells| - 1].share
  }

  function SumInts(xs: seq<int>): int {
    if |xs| == 0 then 0 else SumInts(xs[..|xs| - 1]) + xs[|xs| - 1]
  }

  function Contributions(t: TariffTable, ctx: LogisticsContext, cells: seq<RouteCell>): seq<Contribution>
    requires Aligned(t)
  {
    seq(|cells|, i requires 0 <= i < |cells| => Contribute(t, ctx, cells[i]))
  }

  function Diagnostics(t: TariffTable, ctx: LogisticsContext, cells: seq<RouteCell>): seq<Diagnostic>
    requires Aligned(t)
  {
    if |cells| == 0 then []
    else Diagnostics(t, ctx, cells[..|cells| - 1]) + Diagnose(t, ctx, cells[|cells| - 1])
  }

  function CoveredShare(cs: seq<Contribution>): real {
    if |cs| == 0 then 0.0
    else CoveredShare(cs[..|cs| - 1]) + if cs[|cs| - 1].status.Matched? then cs[|cs| - 1].cell.share else 0.0
  }

  function UncoveredShare(cs: seq<Contribution>): real {
    if |cs| == 0 then 0.0
    else UncoveredShare(cs[..|cs| - 1]) + if cs[|cs| - 1].status.Matched? then 0.0 else cs[|cs| - 1].cell.share
  }

  function CoveredFee(cs: seq<Contribution>): real {
    if |cs| == 0 then 0.0
    else CoveredFee(cs[..|cs| - 1]) +
         if cs[|cs| - 1].weighted.Some? then cs[|cs| - 1].weighted.value else 0.0
  }

  function MatchedCount(cs: seq<Contribution>): (n: nat)
    ensures n <= |cs|
    ensures n == |cs| <==> forall c <- cs :: c.status.Matched?
    ensures n == 0 <==> forall c <- cs :: !c.status.Matched?
  {
    if |cs| == 0 then 0
    else
      InitLast(cs);
      MatchedCount(cs[..|cs| - 1]) + if cs[|cs| - 1].status.Matched? then 1 else 0
  }

  function CoverageOf(cs: seq<Contribution>): Coverage {
    if MatchedCount(cs) == |cs| then Complete else if MatchedCount(cs) > 0 then Partial else NoCoverage
  }

  /** What `expected_logistics` returns, stated without the accumulating loop. */
  function ExpectedLogistics(profile: seq<RouteCell>, t: TariffTable, ctx: LogisticsContext): Result<Logistics, LogisticsError> {
    if !ValidContext(ctx) then Err(BadContext)
    else if !Aligned(t) then Err(MisalignedSources)
    else
      var cells := Selected(profile, ctx);
      if exists c <- cells :: !ValidCell(c) then Err(BadRoute)
      else if !DistinctDestinations(cells) then Err(DuplicateDestination)
      else if |cells| == 0 then
        Ok(Logistics(ctx.sku, ctx.origin, 0, 0, 0.0, 0.0, 0.0, 0.0, None, NoProfile, [], [Diagnostic(NoRouteProfile, None)]))
      else
        var cs := Contributions(t, ctx, cells);
        Ok(Logistics(ctx.sku, ctx.origin,
          SumInts(seq(|cells|, i requires 0 <= i < |cells| => cells[i].quantity)),
          SumInts(seq(|cells|, i requires 0 <= i < |cells| => cells[i].observations)),
          Shares(cells), CoveredShare(cs), UncoveredShare(cs), CoveredFee(cs),
          if CoverageOf(cs).Complete? then Some(CoveredFee(cs)) else None,
          CoverageOf(cs), cs, Diagnostics(t, ctx, cells)))
  }

  lemma ContributionsSnoc(t: TariffTable, ctx: LogisticsContext, cells: seq<RouteCell>, i: nat)
    requires Aligned(t) && i < |cells|
    ensures Contributions(t, ctx, cells[..i + 1]) == Contributions(t, ctx, cells[..i]) + [Contribute(t, ctx, cells[i])]
    ensures Diagnostics(t, ctx, cells[..i + 1]) == Diagnostics(t, ctx, cells[..i]) + Diagnose(t, ctx, cells[i])
  {
    TakeTake(cells, i);
  }

  lemma TotalsSnoc(cs: seq<Contribution>, c: Contribution)
    ensures CoveredShare(cs + [c]) == CoveredShare(cs) + if c.status.Matched? then c.cell.share else 0.0
    ensures UncoveredShare(cs + [c]) == UncoveredShare(cs) + if c.status.Matched? then 0.0 else c.cell.share
    ensures CoveredFee(cs + [c]) == CoveredFee(cs) + if c.weighted.Some? then c.weighted.value else 0.0
  {
    SnocInit(cs, c);
  }

  /** The loop of `expected_logistics` over already validated cells. */
  method Accumulate(t: TariffTable, ctx: LogisticsContext, cells: seq<RouteCell>)
    returns (cs: seq<Contribution>, ds: seq<Diagnostic>, covered: real, uncovered: real, fee: real)
    requires Aligned(t)
    ensures cs == Contributions(t, ctx, cells) && ds == Diagnostics(t, ctx, cells)
    ensures covered == CoveredShare(cs) && uncovered == UncoveredShare(cs) && fee == CoveredFee(cs)
  {
    cs, ds, covered, uncovered, fee := [], [], 0.0, 0.0, 0.0;
    for i := 0 to |cells|
      invariant cs == Contributions(t, ctx, cells[..i]) && ds == Diagnostics(t, ctx, cells[..i])
      invariant covered == CoveredShare(cs) && uncovered == UncoveredShare(cs) && fee == CoveredFee(cs)
    {
      var route := cells[i];
      ContributionsSnoc(t, ctx, cells, i);
      var c := Contribute(t, ctx, route);
      TotalsSnoc(cs, c);
      cs, ds := cs + [c], ds + Diagnose(t, ctx, route);
      if c.status.Matched? {
        covered, fee := covered + route.share, fee + c.weighted.value;
      } else {
        uncovered := uncovered + route.share;
      }
    }
    TakeAll(cells);
  }

  // ---- properties ----

  /** No share is lost or counted twice: covered and uncovered shares add up to the profile. */
  lemma {:induction false} SharesSplit(t: TariffTable, ctx: LogisticsContext, cells: seq<RouteCell>)
    requires Aligned(t)
    ensures var cs := Contributions(t, ctx, cells); CoveredShare(cs) + UncoveredShare(cs) == Shares(cells)
  {
    if |cells| > 0 {
      SharesSplit(t, ctx, cells[..|cells| - 1]);
      var cs := Contributions(t, ctx, cells);
      assert cs[..|cs| - 1] == Contributions(t, ctx, cells[..|cells| - 1]);
    }
  }

  lemma CompleteMeansMatched(t: TariffTable, ctx: LogisticsContext, cells: seq<RouteCell>)
    requires Aligned(t)
    ensures CoverageOf(Contributions(t, ctx, cells)).Complete? <==>
      forall c <- cells :: |Matches(t, ctx.origin, c.destination, ctx.volume, ctx.price)| == 1
  {
    var cs := Contributions(t, ctx, cells);
    if CoverageOf(cs).Complete? {
      forall c | c in cells ensures |Matches(t, ctx.origin, c.destination, ctx.volume, ctx.price)| == 1 {
        var i :| 0 <= i < |cells| && cells[i] == c;
        MatchedAt(t, ctx, cells, i);
      }
    } else {
      var x :| x in cs && !x.status.Matched?;
      var i :| 0 <= i < |cs| && cs[i] == x;
      MatchedAt(t, ctx, cells, i);
    }
  }

  lemma MatchedAt(t: TariffTable, ctx: LogisticsContext, cells: seq<RouteCell>, i: nat)
    requires Aligned(t) && i < |cells|
    ensures var cs := Contributions(t, ctx, cells);
      && i < |cs| && cs[i] in cs && cells[i] in cells
      && (cs[i].status.Matched? <==> |Matches(t, ctx.origin, cells[i].destination, ctx.volume, ctx.price)| == 1)
  {
  }

  lemma ExpectedIsTotal(profile: seq<RouteCell>, t: TariffTable, ctx: LogisticsContext)
    requires ExpectedLogistics(profile, t, ctx).Ok?
    ensures Aligned(t)
    ensures var l, cs := ExpectedLogistics(profile, t, ctx).value, Contributions(t, ctx, Selected(profile, ctx));
      if |Selected(profile, ctx)| == 0 then l.expectedFee.None? && l.coveredShare + l.uncoveredShare == l.shareSum
      else && (l.expectedFee.Some? <==> CoverageOf(cs).Complete?)
           && l.coveredShare == CoveredShare(cs) && l.uncoveredShare == UncoveredShare(cs) && l.shareSum == Shares(Selected(profile, ctx))
  {
  }

  /** A profile is priced exactly when it has routes and every one of them has one matching row;
      covered and uncovered shares always add up to the profile's. */
  lemma PricedIffEveryRouteMatches(profile: seq<RouteCell>, t: TariffTable, ctx: LogisticsContext)
    requires ExpectedLogistics(profile, t, ctx).Ok?
    ensures var l := ExpectedLogistics(profile, t, ctx).value;
      && l.coveredShare + l.uncoveredShare == l.shareSum
      && (l.expectedFee.Some? <==>
           && |Selected(profile, ctx)| > 0
           && forall c <- Selected(profile, ctx) :: |Matches(t, ctx.origin, c.destination, ctx.volume, ctx.price)| == 1)
  {
    var cells := Selected(profile, ctx);
    ExpectedIsTotal(profile, t, ctx);
    if |cells| > 0 {
      SharesSplit(t, ctx, cells);
      CompleteMeansMatched(t, ctx, cells);
    }
  }

  // ---- what a match and a fee mean ----

  /** The row is of the route, and the volume lies in its half-open interval. */
  predicate Holds(row: TariffRow, origin: string, destination: string, volume: real) {
    && row.origin == origin && row.destination == destination
    && row.minVolume <= volume && (row.maxVolume.Some? ==> volume < row.maxVolume.value)
  }

  /** And the price lies in its half-open interval, or the row has none. */
  predicate Covers(row: TariffRow, origin: string, destination: string, volume: real, price: Option<real>) {
    && Holds(row, origin, destination, volume)
    && match price
       case None => row.minPrice.None? && row.maxPrice.None?
       case Some(p) => (row.minPrice.Some? ==> row.minPrice.value <= p) && (row.maxPrice.Some? ==> p < row.maxPrice.value)
  }

  lemma MatchesAreCovering(t: TariffTable, origin: string, destination: string, volume: real, price: Option<real>, e: Entry)
    requires Aligned(t)
    ensures e in Matches(t, origin, destination, volume, price) <==>
      e in Entries(t) && Covers(e.row, origin, destination, volume, price)
  {
  }

  /** A route contributes the fee of its only matching row, weighted by its share; it is missing
      without a matching row and ambiguous with several. */
  lemma ContributionMeans(t: TariffTable, ctx: LogisticsContext, cell: RouteCell)
    requires Aligned(t)
    ensures var c := Contribute(t, ctx, cell); var n := |Matches(t, ctx.origin, cell.destination, ctx.volume, ctx.price)|;
      && c.cell == cell
      && (c.status.Matched? <==> n == 1) && (c.status.Missing? <==> n == 0) && (c.status.Ambiguous? <==> n > 1)
      && (n == 1 ==> exists e <- Entries(t) ::
           && Covers(e.row, ctx.origin, cell.destination, ctx.volume, ctx.price)
           && c.fee == Some(e.row.fee) && c.source == e.source && c.weighted.Some? && c.weighted.value == cell.share * e.row.fee)
      && (n != 1 ==> c.fee.None? && c.weighted.None? && c.source.None?)
  {
    var matches := Matches(t, ctx.origin, cell.destination, ctx.volume, ctx.price);
    if |matches| == 1 {
      MatchesAreCovering(t, ctx.origin, cell.destination, ctx.volume, ctx.price, matches[0]);
    }
  }

  /** A route is diagnosed exactly when it has no fee; a price is asked for exactly when it is
      unknown and some row covers the volume but none without a price. */
  lemma DiagnosisMeans(t: TariffTable, ctx: LogisticsContext, cell: RouteCell)
    requires Aligned(t)
    ensures var d := Diagnose(t, ctx, cell); var n := |Matches(t, ctx.origin, cell.destination, ctx.volume, ctx.price)|;
      && (d == [] <==> n == 1)
      && (d == [Diagnostic(AmbiguousMatch, Some(cell.destination))] <==> n > 1)
      && (d == [Diagnostic(PriceRequired, Some(cell.destination))] <==>
           n == 0 && ctx.price.None? && exists e <- Entries(t) :: Holds(e.row, ctx.origin, cell.destination, ctx.volume))
      && (d == [Diagnostic(MissingTariff, Some(cell.destination))] <==>
           n == 0 && (ctx.price.Some? || !exists e <- Entries(t) :: Holds(e.row, ctx.origin, cell.destination, ctx.volume)))
  {
    var candidates := Candidates(t, ctx.origin, cell.destination, ctx.volume);
    forall e ensures e in candidates <==>
      e in Entries(t) && Holds(e.row, ctx.origin, cell.destination, ctx.volume) {
    }
    if |Matches(t, ctx.origin, cell.destination, ctx.volume, ctx.price)| == 0 && ctx.price.None? {
      forall e | e in candidates ensures PriceBound(e.row) {
        MatchesAreCovering(t, ctx.origin, cell.destination, ctx.volume, ctx.price, e);
      }
      if |candidates| > 0 {
        assert candidates[0] in candidates;
      }
    }
  }

  predicate FeeWithin(c: Contribution, low: real, high: real) {
    if c.status.Matched? then c.weighted.Some? && Weighted(c.cell.share, low) <= c.weighted.value <= Weighted(c.cell.share, high)
    else c.weighted.None?
  }

  /** A fee that is at least the share times the lower bound, and at most the share times the upper. */
  predicate Between(share: real, fee: real, low: real, high: real) {
    share * low <= fee <= share * high
  }

  lemma AddProducts(a: real, b: real, m: real)
    ensures (a + b) * m == a * m + b * m
  {
  }

  lemma {:induction false} WeightedBetween(cs: seq<Contribution>, low: real, high: real)
    requires forall c <- cs :: FeeWithin(c, low, high)
    ensures Between(CoveredShare(cs), CoveredFee(cs), low, high)
  {
    if |cs| > 0 {
      InitLast(cs);
      var init, last := cs[..|cs| - 1], cs[|cs| - 1];
      WeightedBetween(init, low, high);
      assert FeeWithin(last, low, high);
      AddProducts(CoveredShare(init), last.cell.share, low);
      AddProducts(CoveredShare(init), last.cell.share, high);
    }
  }

  lemma ShareOfFee(share: real, fee: real, low: real, high: real)
    requires 0.0 <= share && low <= fee <= high
    ensures Weighted(share, low) <= Weighted(share, fee) <= Weighted(share, high)
  {
    assert 0.0 <= share * (fee - low) && 0.0 <= share * (high - fee);
  }

  /** The fees of the rows that cover a route lie between the bounds. */
  ghost predicate FeesBetween(t: TariffTable, ctx: LogisticsContext, destination: string, low: real, high: real)
    requires Aligned(t)
  {
    forall e <- Entries(t) :: Covers(e.row, ctx.origin, destination, ctx.volume, ctx.price) ==> low <= e.row.fee <= high
  }

  lemma OnlyMatchWithin(t: TariffTable, ctx: LogisticsContext, cell: RouteCell, low: real, high: real)
    requires Aligned(t) && FeesBetween(t, ctx, cell.destination, low, high)
    requires |Matches(t, ctx.origin, cell.destination, ctx.volume, ctx.price)| == 1
    ensures low <= Matches(t, ctx.origin, cell.destination, ctx.volume, ctx.price)[0].row.fee <= high
  {
    var matches := Matches(t, ctx.origin, cell.destination, ctx.volume, ctx.price);
    assert matches[0] in matches;
    MatchesAreCovering(t, ctx.origin, cell.destination, ctx.volume, ctx.price, matches[0]);
  }

  lemma ContributionWithin(t: TariffTable, ctx: LogisticsContext, cell: RouteCell, low: real, high: real)
    requires Aligned(t) && 0.0 <= cell.share && FeesBetween(t, ctx, cell.destination, low, high)
    ensures FeeWithin(Contribute(t, ctx, cell), low, high)
  {
    var matches := Matches(t, ctx.origin, cell.destination, ctx.volume, ctx.price);
    if |matches| == 1 {
      OnlyMatchWithin(t, ctx, cell, low, high);
      ShareOfFee(cell.share, matches[0].row.fee, low, high);
    }
  }

  lemma ContributionsWithin(t: TariffTable, ctx: LogisticsContext, cells: seq<RouteCell>, low: real, high: real)
    requires Aligned(t) && forall c <- cells :: 0.0 <= c.share && FeesBetween(t, ctx, c.destination, low, high)
    ensures forall c <- Contributions(t, ctx, cells) :: FeeWithin(c, low, high)
  {
    var cs := Contributions(t, ctx, cells);
    forall c | c in cs ensures FeeWithin(c, low, high) {
      var i :| 0 <= i < |cs| && cs[i] == c;
      assert cells[i] in cells;
      ContributionWithin(t, ctx, cells[i], low, high);
    }
  }

  /** The covered fee is a mean weighted by shares: it lies between any bounds on the matching rows'
      fees, times the covered share. */
  lemma FeesOfCells(t: TariffTable, ctx: LogisticsContext, cells: seq<RouteCell>, low: real, high: real)
    requires Aligned(t) && forall c <- cells :: 0.0 <= c.share && FeesBetween(t, ctx, c.destination, low, high)
    ensures var cs := Contributions(t, ctx, cells); Between(CoveredShare(cs), CoveredFee(cs), low, high)
  {
    ContributionsWithin(t, ctx, cells, low, high);
    WeightedBetween(Contributions(t, ctx, cells), low, high);
  }

  lemma CompleteIsCovered(t: TariffTable, ctx: LogisticsContext, cells: seq<RouteCell>)
    requires Aligned(t) && CoverageOf(Contributions(t, ctx, cells)).Complete?
    ensures CoveredShare(Contributions(t, ctx, cells)) == Shares(cells)
  {
    SharesSplit(t, ctx, cells);
    NothingUncovered(Contributions(t, ctx, cells));
  }

  lemma FeeIsAWeightedMean(profile: seq<RouteCell>, t: TariffTable, ctx: LogisticsContext, low: real, high: real)
    requires ExpectedLogistics(profile, t, ctx).Ok?
    requires forall c <- Selected(profile, ctx) :: FeesBetween(t, ctx, c.destination, low, high)
    ensures var l := ExpectedLogistics(profile, t, ctx).value;
      && Between(l.coveredShare, l.coveredFee, low, high)
      && (l.expectedFee.Some? ==> l.expectedFee.value == l.coveredFee && l.coveredShare == l.shareSum)
  {
    var cells := Selected(profile, ctx);
    if |cells| > 0 {
      FeesOfCells(t, ctx, cells, low, high);
      if CoverageOf(Contributions(t, ctx, cells)).Complete? {
        CompleteIsCovered(t, ctx, cells);
      }
    }
  }

  lemma {:induction false} NothingUncovered(cs: seq<Contribution>)
    requires forall c <- cs :: c.status.Matched?
    ensures UncoveredShare(cs) == 0.0
  {
    if |cs| > 0 {
      InitLast(cs);
      NothingUncovered(cs[..|cs| - 1]);
    }
  }
}
