/** The request-local route/volume index (backend/economics/pricing.py, PricingTariffIndex). */
module TariffIndex {
  import opened Wrappers
  import opened Sequences
  import opened Tariffs

  datatype Route = Route(origin: string, destination: string)

  /** The table that holds given entries; with sources exactly when the full table has them. */
  function TableOf(es: seq<Entry>, withSources: bool): (t: TariffTable)
    requires withSources ==> forall e <- es :: e.source.Some?
    ensures Aligned(t)
  {
    TariffTable(seq(|es|, i requires 0 <= i < |es| => es[i].row),
                if withSources then seq(|es|, i requires 0 <= i < |es| => es[i].source.value) else [])
  }

  predicate SourcesAs(es: seq<Entry>, withSources: bool) {
    forall e <- es :: e.source.Some? == withSources
  }

  lemma EntriesOfTable(es: seq<Entry>, withSources: bool)
    requires SourcesAs(es, withSources)
    ensures Entries(TableOf(es, withSources)) == es
  {
    forall i | 0 <= i < |es| ensures Entries(TableOf(es, withSources))[i] == es[i] {
      assert es[i] in es;
    }
  }

  function HasSources(t: TariffTable): bool {
    |t.sources| > 0
  }

  /** What `for_route` keeps of the whole tariff list. */
  function RouteTable(t: TariffTable, route: Route, volume: real): (r: TariffTable)
    requires Aligned(t)
    ensures Aligned(r)
  {
    TableOf(Candidates(t, route.origin, route.destination, volume), HasSources(t))
  }

  /** Looking a route up in its own table finds the entries the whole list has for it, with the
      same worksheet rows. */
  lemma RouteTableKeepsCandidates(t: TariffTable, route: Route, volume: real)
    requires Aligned(t)
    ensures Candidates(RouteTable(t, route, volume), route.origin, route.destination, volume)
         == Candidates(t, route.origin, route.destination, volume)
  {
    var es := Candidates(t, route.origin, route.destination, volume);
    EntriesOfTable(es, HasSources(t));
    RouteEntriesFixed(es, route.origin, route.destination);
    VolumeEntriesFixed(es, volume);
  }

  /** The index is transparent: a profile that leads only along the indexed route costs the same,
      with the same matched rows and the same diagnostics, as on the full tariff list. */
  lemma IndexIsTransparent(profile: seq<RouteCell>, t: TariffTable, ctx: LogisticsContext, route: Route)
    requires Aligned(t) && ctx.origin == route.origin
    requires forall c <- profile :: c.destination == route.destination
    ensures ExpectedLogistics(profile, RouteTable(t, route, ctx.volume), ctx) == ExpectedLogistics(profile, t, ctx)
  {
    var r := RouteTable(t, route, ctx.volume);
    RouteTableKeepsCandidates(t, route, ctx.volume);
    var cells := Selected(profile, ctx);
    SameContributions(t, r, ctx, cells, route);
    forall c | c in cells ensures Diagnose(r, ctx, c) == Diagnose(t, ctx, c) {
      SameDiagnose(t, r, ctx, c);
    }
    SameDiagnostics(t, r, ctx, cells);
  }

  lemma SameDiagnose(t: TariffTable, r: TariffTable, ctx: LogisticsContext, c: RouteCell)
    requires Aligned(t) && Aligned(r)
    requires Candidates(r, ctx.origin, c.destination, ctx.volume) == Candidates(t, ctx.origin, c.destination, ctx.volume)
    ensures Diagnose(r, ctx, c) == Diagnose(t, ctx, c)
  {
  }

  lemma {:induction false} SameDiagnostics(t: TariffTable, r: TariffTable, ctx: LogisticsContext, cells: seq<RouteCell>)
    requires Aligned(t) && Aligned(r)
    requires forall c <- cells :: Diagnose(r, ctx, c) == Diagnose(t, ctx, c)
    ensures Diagnostics(r, ctx, cells) == Diagnostics(t, ctx, cells)
  {
    if |cells| > 0 {
      SameDiagnostics(t, r, ctx, cells[..|cells| - 1]);
    }
  }

  lemma SameContributions(t: TariffTable, r: TariffTable, ctx: LogisticsContext, cells: seq<RouteCell>, route: Route)
    requires Aligned(t) && Aligned(r)
    requires forall c <- cells :: c.destination == route.destination
    requires Candidates(r, ctx.origin, route.destination, ctx.volume) == Candidates(t, ctx.origin, route.destination, ctx.volume)
    ensures Contributions(r, ctx, cells) == Contributions(t, ctx, cells)
  {
    forall i | 0 <= i < |cells| ensures Contribute(r, ctx, cells[i]) == Contribute(t, ctx, cells[i]) {
      assert cells[i] in cells;
    }
  }

  class PricingTariffIndex {
    const tariffs: TariffTable
    var byRoute: map<Route, seq<Entry>>
    var byVolume: map<(Route, real), TariffTable>

    ghost predicate Valid()
      reads this
    {
      && Aligned(tariffs)
      && RouteIndexed(byRoute, Entries(tariffs))
      && forall k <- byVolume.Keys :: byVolume[k] == RouteTable(tariffs, k.0, k.1)
    }

    static ghost predicate RouteIndexed(byRoute: map<Route, seq<Entry>>, es: seq<Entry>) {
      forall r: Route :: (if r in byRoute then byRoute[r] else []) == RouteEntries(es, r.origin, r.destination)
    }

    constructor (tariffs: TariffTable)
      requires Aligned(tariffs)
      ensures Valid() && this.tariffs == tariffs
    {
      var routes := IndexRoutes(Entries(tariffs));
      this.tariffs, byRoute, byVolume := tariffs, routes, map[];
    }

    /** `self._by_route[route].append(...)` */
    static method IndexRoutes(es: seq<Entry>) returns (byRoute: map<Route, seq<Entry>>)
      ensures RouteIndexed(byRoute, es)
    {
      byRoute := map[];
      for i := 0 to |es|
        invariant RouteIndexed(byRoute, es[..i])
      {
        var route := Route(es[i].row.origin, es[i].row.destination);
        TakeTake(es, i);
        byRoute := byRoute[route := (if route in byRoute then byRoute[route] else []) + [es[i]]];
      }
      TakeAll(es);
    }

    method ForRoute(route: Route, volume: real) returns (t: TariffTable)
      requires Valid()
      modifies this`byVolume
      ensures Valid()
      ensures t == RouteTable(tariffs, route, volume)
    {
      var key := (route, volume);
      if key !in byVolume {
        var rows := VolumeEntries(if route in byRoute then byRoute[route] else [], volume);
        byVolume := byVolume[key := TableOf(rows, HasSources(tariffs))];
      }
      t := byVolume[key];
    }
  }

  /** `PricingTariffIndex(tariffs)`, which rejects sources that do not line up with the records. */
  method BuildIndex(tariffs: TariffTable) returns (r: Result<PricingTariffIndex, LogisticsError>)
    ensures r.Ok? <==> Aligned(tariffs)
    ensures r.Ok? ==> fresh(r.value) && r.value.Valid() && r.value.tariffs == tariffs
    ensures r.Err? ==> r.error == MisalignedSources
  {
    if !Aligned(tariffs) {
      return Err(MisalignedSources);
    }
    var index := new PricingTariffIndex(tariffs);
    return Ok(index);
  }
}
