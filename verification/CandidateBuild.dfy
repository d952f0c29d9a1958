/** Building the candidates of a scenario (backend/shipment/candidates.py, `build_candidate_result`). */
module CandidateBuild {
  import opened Wrappers
  import opened Sequences
  import opened StableSort
  import opened Sums
  import opened Candidates
  import opened CandidateBudget
  import G = ShipmentGroups

  // ---- seller warehouse and handoff points ----

  function ActiveOnly(ws: seq<Warehouse>): (r: seq<Warehouse>)
    ensures forall w :: w in r <==> w in ws && w.active
  {
    if |ws| == 0 then []
    else
      HeadTail(ws);
      (if ws[0].active then [ws[0]] else []) + ActiveOnly(ws[1..])
  }

  /** `resolve_seller_warehouse`. */
  function ResolveSeller(ws: seq<Warehouse>, selected: Option<nat>, required: bool): (r: Result<Option<nat>, Reason>)
    ensures r.Ok? && required ==> r.value.Some? && exists w <- ws :: w.active && w.id == r.value.value
    ensures required && selected.Some? ==> (r.Ok? <==> exists w <- ws :: w.active && w.id == selected.value)
  {
    var active := ActiveOnly(ws);
    if !required then Ok(None)
    else if selected.Some? then
      if exists w <- active :: w.id == selected.value then Ok(selected) else Err(SellerInvalid)
    else if |active| == 0 then Err(SellerUnavailable)
    else if |active| > 1 then Err(SellerRequired)
    else assert active[0] in active; Ok(Some(active[0].id))
  }

  /** `resolve_handoff_points` and the destinations made of them; the store says of each known
      point whether it has a warehouse type. */
  function Destinations(store: map<nat, bool>, ids: seq<nat>, required: bool): (r: Result<seq<Option<nat>>, Reason>)
    ensures r.Ok? && NoDup(ids) ==> NoDup(r.value)
    ensures r.Ok? ==> |r.value| > 0
  {
    if !required then Ok([None])
    else if |ids| == 0 then Err(PointRequired)
    else if exists id <- ids :: id !in store || !store[id] then Err(PointUnresolved)
    else Ok(seq(|ids|, i requires 0 <= i < |ids| => Some(ids[i])))
  }

  // ---- groups ----

  function VolumeOf(ls: seq<InputLine>): real {
    if |ls| == 0 then 0.0 else (if ls[0].totalVolume.Some? then ls[0].totalVolume.value else 0.0) + VolumeOf(ls[1..])
  }

  function Sized(scope: seq<InputLine>, ids: seq<string>): (cs: seq<G.Cluster>)
    ensures |cs| == |ids| && forall i :: 0 <= i < |ids| ==> cs[i].id == ids[i]
  {
    seq(|ids|, i requires 0 <= i < |ids| => G.Cluster(ids[i], VolumeOf(InCluster(scope, ids[i]))))
  }

  function Ids(cs: seq<G.Cluster>): (ids: seq<string>)
    ensures |ids| == |cs| && forall i :: 0 <= i < |cs| ==> ids[i] == cs[i].id
  {
    seq(|cs|, i requires 0 <= i < |cs| => cs[i].id)
  }

  function IdGroups(gs: seq<seq<G.Cluster>>): (r: seq<seq<string>>)
    ensures |r| == |gs| && forall i :: 0 <= i < |gs| ==> r[i] == Ids(gs[i])
  {
    seq(|gs|, i requires 0 <= i < |gs| => Ids(gs[i]))
  }

  function GroupSize(s: Scenario, m: Method): nat {
    Min(s.preferred, Min(s.maximum, HardMaxClusters(m)))
  }

  function Pieces(scope: seq<InputLine>, s: Scenario, m: Method): seq<G.Piece> {
    G.Greedy(Sized(scope, EligibleClusters(scope, m, ClusterOrder(scope))), GroupSize(s, m), VolumeLimit(m), [])
  }

  function GroupsOf(scope: seq<InputLine>, s: Scenario, m: Method): seq<seq<string>> {
    IdGroups(G.Shipments(Pieces(scope, s, m)))
  }

  /** Groups of different clusters, none empty, all of them eligible and in the scope. */
  ghost predicate GoodGroups(scope: seq<InputLine>, m: Method, groups: seq<seq<string>>) {
    && NoDup(Concat(groups))
    && (forall g <- groups :: |g| > 0)
    && (forall c <- Concat(groups) :: ClusterEligible(scope, m, c) && exists l <- scope :: l.cluster == c)
  }

  lemma IdsConcat(a: seq<G.Cluster>, b: seq<G.Cluster>)
    ensures Ids(a + b) == Ids(a) + Ids(b)
  {
  }

  lemma ConcatGroup(g: seq<G.Cluster>, gs: seq<seq<G.Cluster>>)
    ensures Concat(IdGroups([g] + gs)) == Ids(g) + Concat(IdGroups(gs))
  {
    assert IdGroups([g] + gs) == [Ids(g)] + IdGroups(gs);
    assert ([Ids(g)] + IdGroups(gs))[1..] == IdGroups(gs);
  }

  lemma {:induction false} ShippedIdsAreSome(ps: seq<G.Piece>)
    ensures multiset(Concat(IdGroups(G.Shipments(ps)))) <= multiset(Ids(G.Flatten(ps)))
  {
    if |ps| > 0 {
      var p, rest := ps[0], ps[1..];
      ShippedIdsAreSome(rest);
      IdsConcat(if p.Shipment? then p.clusters else [p.cluster], G.Flatten(rest));
      if p.Shipment? {
        ConcatGroup(p.clusters, G.Shipments(rest));
      } else {
        assert [] + G.Shipments(rest) == G.Shipments(rest);
      }
    }
  }

  lemma {:induction false} ShipmentsAreValid(ps: seq<G.Piece>, size: nat, limit: Option<real>)
    requires forall p <- ps :: G.ValidPiece(p, size, limit)
    ensures forall g <- G.Shipments(ps) :: 0 < |g| <= size
  {
    if |ps| > 0 {
      assert ps[0] in ps && forall p <- ps[1..] :: p in ps;
      ShipmentsAreValid(ps[1..], size, limit);
    }
  }

  lemma GroupsCover(scope: seq<InputLine>, s: Scenario, m: Method)
    requires ValidScenario(s)
    ensures NoDup(Concat(GroupsOf(scope, s, m)))
    ensures forall c <- Concat(GroupsOf(scope, s, m)) :: c in EligibleClusters(scope, m, ClusterOrder(scope))
  {
    var ids := EligibleClusters(scope, m, ClusterOrder(scope));
    var cs, ps := Sized(scope, ids), Pieces(scope, s, m);
    ClusterOrderFacts(scope);
    G.GreedyCovers(cs, GroupSize(s, m), VolumeLimit(m), []);
    assert [] + cs == cs;
    assert Ids(cs) == ids;
    ShippedIdsAreSome(ps);
    var all := Concat(GroupsOf(scope, s, m));
    NoDupAmong(ids, all);
    forall c | c in all ensures c in ids {
      assert c in multiset(all) && c in multiset(ids);
    }
  }

  lemma GroupsAreGood(scope: seq<InputLine>, s: Scenario, m: Method)
    requires ValidScenario(s)
    ensures GoodGroups(scope, m, GroupsOf(scope, s, m))
    ensures forall g <- GroupsOf(scope, s, m) :: |g| <= GroupSize(s, m)
  {
    var ps, groups := Pieces(scope, s, m), GroupsOf(scope, s, m);
    ClusterOrderFacts(scope);
    G.GreedyCovers(Sized(scope, EligibleClusters(scope, m, ClusterOrder(scope))), GroupSize(s, m), VolumeLimit(m), []);
    GroupsCover(scope, s, m);
    ShipmentsAreValid(ps, GroupSize(s, m), VolumeLimit(m));
    forall g | g in groups ensures 0 < |g| <= GroupSize(s, m) {
      var i :| 0 <= i < |groups| && groups[i] == g;
      assert G.Shipments(ps)[i] in G.Shipments(ps);
    }
  }

  // ---- the volume of a shipment ----

  lemma {:induction false} TotalVolumeConcat(a: seq<Assignment>, b: seq<Assignment>)
    ensures TotalVolume(a + b) == TotalVolume(a) + TotalVolume(b)
  {
    if |a| == 0 {
      EmptyFront(b);
    } else {
      TotalVolumeConcat(a[1..], b);
      ConcatTail(a, b);
    }
  }

  lemma TotalVolumeWithout(rows: seq<Assignment>, i: nat)
    requires i < |rows|
    ensures TotalVolume(rows) == rows[i].totalVolume + TotalVolume(rows[..i] + rows[i + 1..])
  {
    SplitAt(rows, i);
    TotalVolumeConcat(rows[..i] + [rows[i]], rows[i + 1..]);
    TotalVolumeConcat(rows[..i], [rows[i]]);
    TotalVolumeConcat(rows[..i], rows[i + 1..]);
  }

  /** The order of the rows does not matter to their volume. */
  lemma {:induction false} TotalVolumeByMultiset(a: seq<Assignment>, b: seq<Assignment>)
    requires multiset(a) == multiset(b)
    ensures TotalVolume(a) == TotalVolume(b)
  {
    if |a| == 0 {
      NothingLeft(b);
    } else {
      var i := SharedElement(a, b);
      WithoutHead(a, b, i);
      TotalVolumeByMultiset(a[1..], b[..i] + b[i + 1..]);
      TotalVolumeWithout(b, i);
    }
  }

  lemma {:induction false} LineVolumes(ls: seq<InputLine>)
    requires AllAssignable(ls)
    ensures TotalVolume(AssignAll(ls)) == VolumeOf(ls)
  {
    if |ls| > 0 {
      HeadTail(ls);
      assert ls[0] in ls && AssignAll(ls)[0] == Assign(ls[0]);
      LineVolumes(ls[1..]);
      assert AssignAll(ls)[1..] == AssignAll(ls[1..]);
    }
  }

  lemma {:induction false} VolumeOfConcat(a: seq<InputLine>, b: seq<InputLine>)
    ensures VolumeOf(a + b) == VolumeOf(a) + VolumeOf(b)
  {
    if |a| == 0 {
      EmptyFront(b);
    } else {
      VolumeOfConcat(a[1..], b);
      ConcatTail(a, b);
    }
  }

  lemma {:induction false} GroupVolume(scope: seq<InputLine>, clusters: seq<string>)
    ensures VolumeOf(GroupLines(scope, clusters)) == G.Volume(Sized(scope, clusters))
  {
    if |clusters| > 0 {
      GroupVolume(scope, clusters[1..]);
      VolumeOfConcat(InCluster(scope, clusters[0]), GroupLines(scope, clusters[1..]));
      var first := G.Cluster(clusters[0], VolumeOf(InCluster(scope, clusters[0])));
      assert Sized(scope, clusters) == [first] + Sized(scope, clusters[1..]);
      G.VolumeConcat([first], Sized(scope, clusters[1..]));
      assert [first][..0] == [];
    }
  }

  /** A candidate has the volume of the lines of its clusters. */
  lemma BuildVolume(scope: seq<InputLine>, m: Method, seller: Option<nat>, point: Option<nat>, clusters: seq<string>)
    requires AllAssignable(GroupLines(scope, clusters))
    ensures Build(scope, m, seller, point, clusters).totalVolume == G.Volume(Sized(scope, clusters))
  {
    var all := AssignAll(GroupLines(scope, clusters));
    SortKeeps(all, ByPlace);
    TotalVolumeByMultiset(Sort(all, ByPlace), all);
    LineVolumes(GroupLines(scope, clusters));
    GroupVolume(scope, clusters);
  }

  // ---- the groups and their pieces ----

  lemma {:induction false} ShippedPiece(ps: seq<G.Piece>, g: seq<G.Cluster>)
    ensures g in G.Shipments(ps) <==> G.Shipment(g) in ps
  {
    if |ps| > 0 {
      HeadTail(ps);
      ShippedPiece(ps[1..], g);
    }
  }

  lemma {:induction false} PieceInFlatten(ps: seq<G.Piece>, p: G.Piece)
    requires p in ps
    ensures p.Shipment? ==> forall c <- p.clusters :: c in G.Flatten(ps)
    ensures p.TooBig? ==> p.cluster in G.Flatten(ps)
  {
    HeadTail(ps);
    if p != ps[0] {
      PieceInFlatten(ps[1..], p);
    }
  }

  lemma {:induction false} PieceOf(ps: seq<G.Piece>, c: G.Cluster) returns (p: G.Piece)
    requires c in G.Flatten(ps)
    ensures p in ps && if p.Shipment? then c in p.clusters else p.cluster == c
  {
    HeadTail(ps);
    if ps[0].Shipment? && c in ps[0].clusters {
      p := ps[0];
    } else if ps[0].TooBig? && c == ps[0].cluster {
      p := ps[0];
    } else {
      p := PieceOf(ps[1..], c);
    }
  }

  lemma SizedMembers(scope: seq<InputLine>, ids: seq<string>, cs: seq<G.Cluster>)
    requires forall c <- cs :: c in Sized(scope, ids)
    ensures Sized(scope, Ids(cs)) == cs
  {
    forall i | 0 <= i < |cs| ensures Sized(scope, Ids(cs))[i] == cs[i] {
      assert cs[i] in cs;
      var k :| 0 <= k < |ids| && Sized(scope, ids)[k] == cs[i];
    }
  }

  lemma PiecesCover(scope: seq<InputLine>, s: Scenario, m: Method)
    requires ValidScenario(s)
    ensures G.Cover(Pieces(scope, s, m), Sized(scope, EligibleClusters(scope, m, ClusterOrder(scope))), GroupSize(s, m), VolumeLimit(m))
  {
    var cs := Sized(scope, EligibleClusters(scope, m, ClusterOrder(scope)));
    G.GreedyCovers(cs, GroupSize(s, m), VolumeLimit(m), []);
    EmptyFront(cs);
  }

  /** Every group is within the volume limit of its method. */
  lemma GroupWithinVolume(scope: seq<InputLine>, s: Scenario, m: Method, g: seq<string>)
    requires ValidScenario(s) && g in GroupsOf(scope, s, m)
    ensures !G.Over(G.Volume(Sized(scope, g)), VolumeLimit(m))
  {
    var ps := Pieces(scope, s, m);
    var ids := EligibleClusters(scope, m, ClusterOrder(scope));
    var i :| 0 <= i < |GroupsOf(scope, s, m)| && GroupsOf(scope, s, m)[i] == g;
    var cs := G.Shipments(ps)[i];
    assert cs in G.Shipments(ps);
    ShippedPiece(ps, cs);
    PiecesCover(scope, s, m);
    PieceInFlatten(ps, G.Shipment(cs));
    SizedMembers(scope, ids, cs);
    assert G.ValidPiece(G.Shipment(cs), GroupSize(s, m), VolumeLimit(m));
  }

  /** An eligible cluster within the limit is in some group. */
  lemma ClusterIsGrouped(scope: seq<InputLine>, s: Scenario, m: Method, c: string) returns (g: seq<string>)
    requires ValidScenario(s) && c in EligibleClusters(scope, m, ClusterOrder(scope))
    requires !G.Over(VolumeOf(InCluster(scope, c)), VolumeLimit(m))
    ensures g in GroupsOf(scope, s, m) && c in g
  {
    var ps := Pieces(scope, s, m);
    var ids := EligibleClusters(scope, m, ClusterOrder(scope));
    var k :| 0 <= k < |ids| && ids[k] == c;
    var sized := Sized(scope, ids)[k];
    assert sized in Sized(scope, ids);
    PiecesCover(scope, s, m);
    var p := PieceOf(ps, sized);
    assert G.ValidPiece(p, GroupSize(s, m), VolumeLimit(m));
    ShippedPiece(ps, p.clusters);
    var i :| 0 <= i < |G.Shipments(ps)| && G.Shipments(ps)[i] == p.clusters;
    g := GroupsOf(scope, s, m)[i];
    var j :| 0 <= j < |p.clusters| && p.clusters[j] == sized;
    assert g[j] == c;
  }

  lemma {:induction false} GroupAmong<T>(lists: seq<seq<T>>, g: seq<T>)
    requires g in lists
    ensures multiset(g) <= multiset(Concat(lists))
  {
    HeadTail(lists);
    if lists[0] != g {
      GroupAmong(lists[1..], g);
    }
  }

  lemma GroupInConcat<T(!new)>(lists: seq<seq<T>>, g: seq<T>)
    requires g in lists
    ensures forall x <- g :: x in Concat(lists)
    ensures NoDup(Concat(lists)) ==> NoDup(g)
  {
    GroupAmong(lists, g);
    forall x | x in g ensures x in Concat(lists) {
      assert x in multiset(g) && x in multiset(Concat(lists));
    }
    if NoDup(Concat(lists)) {
      NoDupAmong(Concat(lists), g);
    }
  }

  // ---- the enumeration ----

  ghost predicate Buildable(scope: seq<InputLine>, groups: seq<seq<string>>) {
    forall g <- groups :: AllAssignable(GroupLines(scope, g))
  }

  lemma GoodGroupsAreBuildable(scope: seq<InputLine>, m: Method, groups: seq<seq<string>>)
    requires ValidScope(scope) && GoodGroups(scope, m, groups)
    ensures Buildable(scope, groups)
  {
    forall g | g in groups ensures AllAssignable(GroupLines(scope, g)) {
      GroupInConcat(groups, g);
      GroupIsAssignable(scope, m, g);
    }
  }

  /** All groups of a method at one destination. */
  function Row(scope: seq<InputLine>, m: Method, seller: Option<nat>, point: Option<nat>, groups: seq<seq<string>>): (r: seq<Candidate>)
    requires Buildable(scope, groups)
    ensures |r| == |groups|
    ensures forall i :: 0 <= i < |groups| ==> AllAssignable(GroupLines(scope, groups[i])) && r[i] == Build(scope, m, seller, point, groups[i])
  {
    seq(|groups|, i requires 0 <= i < |groups| => assert groups[i] in groups; Build(scope, m, seller, point, groups[i]))
  }

  /** The full point-by-group enumeration of a method. */
  function Enumerate(scope: seq<InputLine>, m: Method, seller: Option<nat>, points: seq<Option<nat>>, groups: seq<seq<string>>): seq<Candidate>
    requires Buildable(scope, groups)
  {
    if |points| == 0 then []
    else
      Enumerate(scope, m, seller, points[..|points| - 1], groups) + Row(scope, m, seller, points[|points| - 1], groups)
  }

  lemma TakeConcat<T>(a: seq<T>, b: seq<T>, n: nat)
    ensures n <= |a| ==> Take(a + b, n) == Take(a, n)
    ensures |a| <= n ==> Take(a + b, n) == a + Take(b, n - |a|)
  {
  }

  /** The inner loop: groups at one destination until the budget is spent. */
  method AddRow(scope: seq<InputLine>, m: Method, seller: Option<nat>, point: Option<nat>, groups: seq<seq<string>>,
                built: seq<Candidate>, max: nat)
    returns (r: seq<Candidate>)
    requires Buildable(scope, groups) && |built| <= max
    ensures r == built + Take(Row(scope, m, seller, point, groups), max - |built|)
  {
    r := built;
    ghost var row := Row(scope, m, seller, point, groups);
    for i := 0 to |groups|
      invariant |r| == |built| + i <= max && r == built + row[..i]
    {
      if |r| >= max {
        return;
      }
      assert groups[i] in groups;
      r := r + [Build(scope, m, seller, point, groups[i])];
    }
  }

  lemma EnumerateSnoc(scope: seq<InputLine>, m: Method, seller: Option<nat>, points: seq<Option<nat>>, groups: seq<seq<string>>, i: nat)
    requires Buildable(scope, groups) && i < |points|
    ensures Enumerate(scope, m, seller, points[..i + 1], groups) ==
      Enumerate(scope, m, seller, points[..i], groups) + Row(scope, m, seller, points[i], groups)
  {
    TakeTake(points, i);
  }

  lemma EnumerateStep(scope: seq<InputLine>, m: Method, seller: Option<nat>, points: seq<Option<nat>>, groups: seq<seq<string>>, i: nat, max: nat)
    requires Buildable(scope, groups) && i < |points|
    ensures var before := Take(Enumerate(scope, m, seller, points[..i], groups), max);
      Take(Enumerate(scope, m, seller, points[..i + 1], groups), max) ==
        before + Take(Row(scope, m, seller, points[i], groups), max - |before|)
  {
    EnumerateSnoc(scope, m, seller, points, groups, i);
    TakeSplit(Enumerate(scope, m, seller, points[..i], groups), Row(scope, m, seller, points[i], groups), max);
  }

  lemma TakeSplit<T>(a: seq<T>, b: seq<T>, n: nat)
    ensures Take(a + b, n) == Take(a, n) + Take(b, n - |Take(a, n)|)
  {
  }

  /** One turn of the outer loop. */
  method AddPoint(scope: seq<InputLine>, m: Method, seller: Option<nat>, points: seq<Option<nat>>, groups: seq<seq<string>>, max: nat,
                  i: nat, built: seq<Candidate>)
    returns (r: seq<Candidate>)
    requires Buildable(scope, groups) && max > 0 && i < |points|
    requires built == Take(Enumerate(scope, m, seller, points[..i], groups), max)
    ensures r == Take(Enumerate(scope, m, seller, points[..i + 1], groups), max)
    ensures |r| >= max ==> r == Take(Enumerate(scope, m, seller, points, groups), max)
  {
    EnumerateStep(scope, m, seller, points, groups, i, max);
    r := AddRow(scope, m, seller, points[i], groups, built, max);
    if |r| >= max {
      EnumerateGrows(scope, m, seller, points, groups, i + 1, max);
    }
  }

  /** The loops over destinations and groups, which stop once the budget of the output is reached. */
  method EnumerateCut(scope: seq<InputLine>, m: Method, seller: Option<nat>, points: seq<Option<nat>>, groups: seq<seq<string>>, max: nat)
    returns (r: seq<Candidate>)
    requires Buildable(scope, groups) && max > 0
    ensures r == Take(Enumerate(scope, m, seller, points, groups), max)
  {
    r := [];
    for i := 0 to |points|
      invariant r == Take(Enumerate(scope, m, seller, points[..i], groups), max)
    {
      r := AddPoint(scope, m, seller, points, groups, max, i, r);
      if |r| >= max {
        return;
      }
    }
    TakeAll(points);
  }

  lemma {:induction false} EnumerateGrows(scope: seq<InputLine>, m: Method, seller: Option<nat>, points: seq<Option<nat>>,
                                          groups: seq<seq<string>>, k: nat, max: nat)
    requires Buildable(scope, groups) && k <= |points|
    requires |Enumerate(scope, m, seller, points[..k], groups)| >= max
    ensures Take(Enumerate(scope, m, seller, points, groups), max) == Take(Enumerate(scope, m, seller, points[..k], groups), max)
    ensures |Enumerate(scope, m, seller, points, groups)| >= max
  {
    if k == |points| {
      assert points[..k] == points;
    } else {
      var init := points[..|points| - 1];
      assert init[..k] == points[..k];
      EnumerateGrows(scope, m, seller, init, groups, k, max);
      TakeConcat(Enumerate(scope, m, seller, init, groups), Row(scope, m, seller, points[|points| - 1], groups), max);
    }
  }

  // ---- all methods ----

  /** The candidates of one method without any cut-off; none when its resources cannot be resolved. */
  function FullList(scope: seq<InputLine>, s: Scenario, m: Method, ws: seq<Warehouse>, store: map<nat, bool>): seq<Candidate>
    requires ValidScope(scope) && ValidScenario(s)
  {
    var seller := ResolveSeller(ws, s.seller, NeedsSeller(m));
    var points := Destinations(store, s.points, NeedsPoint(m));
    if seller.Err? || points.Err? then []
    else
      GroupsAreGood(scope, s, m);
      GoodGroupsAreBuildable(scope, m, GroupsOf(scope, s, m));
      Enumerate(scope, m, seller.value, points.value, GroupsOf(scope, s, m))
  }

  function FullLists(scope: seq<InputLine>, s: Scenario, ms: seq<Method>, ws: seq<Warehouse>, store: map<nat, bool>): (r: seq<seq<Candidate>>)
    requires ValidScope(scope) && ValidScenario(s)
    ensures |r| == |ms|
  {
    if |ms| == 0 then []
    else FullLists(scope, s, ms[..|ms| - 1], ws, store) + [FullList(scope, s, ms[|ms| - 1], ws, store)]
  }

  lemma {:induction false} ViableSnoc<T(!new)>(lists: seq<seq<T>>, l: seq<T>)
    ensures Viable(lists + [l]) == Viable(lists) + if |l| > 0 then [l] else []
  {
    if |lists| > 0 {
      ViableSnoc(lists[1..], l);
      ConcatTail(lists, [l]);
      var first: seq<seq<T>> := if |lists[0]| > 0 then [lists[0]] else [];
      Associative(first, Viable(lists[1..]), if |l| > 0 then [l] else []);
    } else {
      EmptyFront([l]);
      assert [l][1..] == [];
    }
  }

  lemma CutHead<T>(l: seq<T>, rest: seq<seq<T>>, max: nat)
    ensures CutEach([l] + rest, max) == [Take(l, max)] + CutEach(rest, max)
  {
  }

  lemma ViableHead<T(!new)>(l: seq<T>, rest: seq<seq<T>>)
    ensures Viable([l] + rest) == if |l| > 0 then [l] + Viable(rest) else Viable(rest)
  {
    assert ([l] + rest)[1..] == rest;
  }

  lemma ViableCutStep<T(!new)>(l: seq<T>, rest: seq<seq<T>>, max: nat)
    requires max > 0 && Viable(CutEach(rest, max)) == CutEach(Viable(rest), max)
    ensures Viable(CutEach([l] + rest, max)) == CutEach(Viable([l] + rest), max)
  {
    CutHead(l, rest, max);
    ViableHead(Take(l, max), CutEach(rest, max));
    ViableHead(l, rest);
    if |l| > 0 {
      CutHead(l, Viable(rest), max);
    }
  }

  lemma {:induction false} ViableCut<T(!new)>(lists: seq<seq<T>>, max: nat)
    requires max > 0
    ensures Viable(CutEach(lists, max)) == CutEach(Viable(lists), max)
  {
    if |lists| > 0 {
      ViableCut(lists[1..], max);
      ViableCutStep(lists[0], lists[1..], max);
      HeadTail(lists);
    }
  }

  lemma {:induction false} ViableConcat<T(!new)>(lists: seq<seq<T>>)
    ensures Concat(Viable(lists)) == Concat(lists)
  {
    if |lists| > 0 {
      var l, rest := lists[0], lists[1..];
      ViableConcat(rest);
      if |l| > 0 {
        assert ([l] + Viable(rest))[1..] == Viable(rest);
      } else {
        assert [] + Viable(rest) == Viable(rest);
        assert l + Concat(rest) == Concat(rest);
      }
    }
  }

  /** The candidates of one method, cut at the budget. */
  method BuildList(scope: seq<InputLine>, s: Scenario, m: Method, ws: seq<Warehouse>, store: map<nat, bool>, max: nat)
    returns (built: seq<Candidate>)
    requires ValidScope(scope) && ValidScenario(s) && max > 0
    ensures built == Take(FullList(scope, s, m, ws, store), max)
  {
    var seller := ResolveSeller(ws, s.seller, NeedsSeller(m));
    if seller.Err? {
      return [];
    }
    var points := Destinations(store, s.points, NeedsPoint(m));
    if points.Err? {
      return [];
    }
    GroupsAreGood(scope, s, m);
    GoodGroupsAreBuildable(scope, m, GroupsOf(scope, s, m));
    var groups, _ := G.Groups(Sized(scope, EligibleClusters(scope, m, ClusterOrder(scope))), GroupSize(s, m), VolumeLimit(m));
    built := EnumerateCut(scope, m, seller.value, points.value, IdGroups(groups), max);
  }

  lemma CutEachSnoc<T>(lists: seq<seq<T>>, l: seq<T>, max: nat)
    ensures CutEach(lists + [l], max) == CutEach(lists, max) + [Take(l, max)]
  {
  }

  lemma ListsStep(scope: seq<InputLine>, s: Scenario, ms: seq<Method>, i: nat, ws: seq<Warehouse>, store: map<nat, bool>, max: nat)
    requires ValidScope(scope) && ValidScenario(s) && i < |ms| && max > 0
    ensures var built := Take(FullList(scope, s, ms[i], ws, store), max);
      Viable(CutEach(FullLists(scope, s, ms[..i + 1], ws, store), max)) ==
        Viable(CutEach(FullLists(scope, s, ms[..i], ws, store), max)) + if |built| > 0 then [built] else []
  {
    var before, list := FullLists(scope, s, ms[..i], ws, store), FullList(scope, s, ms[i], ws, store);
    TakeTake(ms, i);
    assert FullLists(scope, s, ms[..i + 1], ws, store) == before + [list];
    CutEachSnoc(before, list, max);
    ViableSnoc(CutEach(before, max), Take(list, max));
  }

  /** `if method_candidates: ...append(method_candidates)` */
  method AddList(scope: seq<InputLine>, s: Scenario, ws: seq<Warehouse>, store: map<nat, bool>, max: nat, i: nat, lists: seq<seq<Candidate>>)
    returns (more: seq<seq<Candidate>>)
    requires ValidScope(scope) && ValidScenario(s) && max > 0 && i < |s.methods|
    requires lists == Viable(CutEach(FullLists(scope, s, s.methods[..i], ws, store), max))
    ensures more == Viable(CutEach(FullLists(scope, s, s.methods[..i + 1], ws, store), max))
  {
    ListsStep(scope, s, s.methods, i, ws, store, max);
    var built := BuildList(scope, s, s.methods[i], ws, store, max);
    more := lists + if |built| > 0 then [built] else [];
  }

  /** The loop over the allowed methods. */
  method BuildLists(scope: seq<InputLine>, s: Scenario, ws: seq<Warehouse>, store: map<nat, bool>, max: nat)
    returns (lists: seq<seq<Candidate>>)
    requires ValidScope(scope) && ValidScenario(s) && max > 0
    ensures lists == Viable(CutEach(FullLists(scope, s, s.methods, ws, store), max))
  {
    lists := [];
    for i := 0 to |s.methods|
      invariant lists == Viable(CutEach(FullLists(scope, s, s.methods[..i], ws, store), max))
    {
      lists := AddList(scope, s, ws, store, max, i, lists);
    }
    TakeAll(s.methods);
  }

  /** `build_candidate_result`: stopping each method's enumeration early gives the same candidates
      as selecting from the full enumerations. */
  method BuildCandidates(input: seq<InputLine>, s: Scenario, ws: seq<Warehouse>, store: map<nat, bool>, max: nat)
    returns (r: Result<seq<Candidate>, Reason>)
    requires ValidScenario(s) && max > 0 && forall l <- input :: Packed(l)
    ensures r.Ok? <==> SelectScope(input, s.selected).Ok?
    ensures r.Err? ==> r.error == SelectScope(input, s.selected).error
    ensures r.Ok? ==> var scope := Positive(input, s.selected);
      ValidScope(scope) && r.value == Select(Viable(FullLists(scope, s, s.methods, ws, store)), max)
  {
    var selected := SelectScope(input, s.selected);
    if selected.Err? {
      return Err(selected.error);
    }
    var lists := BuildLists(selected.value, s, ws, store, max);
    ghost var full := FullLists(selected.value, s, s.methods, ws, store);
    ViableCut(full, max);
    CutChangesNothing(Viable(full), max);
    var chosen := SelectCandidates(lists, max);
    return Ok(chosen);
  }

  // ---- no line is used twice ----

  predicate Named(sku: string, cluster: Option<string>, s: string, c: string) {
    s == sku && (cluster.None? || cluster.value == c)
  }

  /** Units of a SKU, at one cluster or at all. */
  function RowWeight(sku: string, cluster: Option<string>): Assignment -> nat {
    (a: Assignment) => if Named(sku, cluster, a.sku, a.cluster) then a.quantity else 0
  }

  function LineWeight(sku: string, cluster: Option<string>): InputLine -> nat {
    (l: InputLine) => if l.quantity.Some? && Named(sku, cluster, l.sku, l.cluster) then l.quantity.value else 0
  }

  /** Units that a candidate ships by one method to one handoff point. */
  function ShippedBy(m: Method, point: Option<nat>, sku: string, cluster: Option<string>): Candidate -> nat {
    (c: Candidate) => if c.kind == m && c.point == point then SumBy(c.assignments, RowWeight(sku, cluster)) else 0
  }

  lemma {:induction false} AssignWeight(ls: seq<InputLine>, sku: string, cluster: Option<string>)
    requires AllAssignable(ls)
    ensures SumBy(AssignAll(ls), RowWeight(sku, cluster)) == SumBy(ls, LineWeight(sku, cluster))
  {
    if |ls| > 0 {
      HeadTail(ls);
      AssignWeight(ls[1..], sku, cluster);
      var all := AssignAll(ls);
      assert all[1..] == AssignAll(ls[1..]);
      assert ls[0] in ls && all[0] == Assign(ls[0]);
      assert RowWeight(sku, cluster)(all[0]) == LineWeight(sku, cluster)(ls[0]);
    }
  }

  lemma BuildWeight(scope: seq<InputLine>, m: Method, seller: Option<nat>, point: Option<nat>, g: seq<string>, sku: string, cluster: Option<string>)
    requires AllAssignable(GroupLines(scope, g))
    ensures SumBy(Build(scope, m, seller, point, g).assignments, RowWeight(sku, cluster)) == SumBy(GroupLines(scope, g), LineWeight(sku, cluster))
  {
    var all := AssignAll(GroupLines(scope, g));
    SortKeeps(all, ByPlace);
    SumAmong(Sort(all, ByPlace), all, RowWeight(sku, cluster));
    AssignWeight(GroupLines(scope, g), sku, cluster);
  }

  lemma {:induction false} GroupLinesConcat(scope: seq<InputLine>, a: seq<string>, b: seq<string>)
    ensures GroupLines(scope, a + b) == GroupLines(scope, a) + GroupLines(scope, b)
  {
    if |a| == 0 {
      assert a + b == b;
    } else {
      GroupLinesConcat(scope, a[1..], b);
      ConcatTail(a, b);
    }
  }

  lemma {:induction false} InClusterCount(scope: seq<InputLine>, c: string, l: InputLine)
    ensures multiset(InCluster(scope, c))[l] == if l.cluster == c then multiset(scope)[l] else 0
  {
    if |scope| > 0 {
      HeadTail(scope);
      InClusterCount(scope[1..], c, l);
    }
  }

  lemma {:induction false} GroupLinesCount(scope: seq<InputLine>, cs: seq<string>, l: InputLine)
    requires NoDup(cs)
    ensures multiset(GroupLines(scope, cs))[l] == if l.cluster in cs then multiset(scope)[l] else 0
  {
    if |cs| > 0 {
      HeadTail(cs);
      assert NoDup(cs[1..]) && cs[0] !in cs[1..];
      GroupLinesCount(scope, cs[1..], l);
      InClusterCount(scope, cs[0], l);
    }
  }

  lemma GroupLinesAmong(scope: seq<InputLine>, cs: seq<string>)
    requires NoDup(cs)
    ensures multiset(GroupLines(scope, cs)) <= multiset(scope)
  {
    forall l ensures multiset(GroupLines(scope, cs))[l] <= multiset(scope)[l] {
      GroupLinesCount(scope, cs, l);
    }
  }

  lemma {:induction false} RowShips(scope: seq<InputLine>, m: Method, seller: Option<nat>, point: Option<nat>, groups: seq<seq<string>>,
                                    to: Option<nat>, sku: string, cluster: Option<string>)
    requires Buildable(scope, groups)
    ensures SumBy(Row(scope, m, seller, point, groups), ShippedBy(m, to, sku, cluster)) ==
      if point == to then SumBy(GroupLines(scope, Concat(groups)), LineWeight(sku, cluster)) else 0
  {
    if |groups| > 0 {
      var g, rest := groups[0], groups[1..];
      HeadTail(groups);
      RowShips(scope, m, seller, point, rest, to, sku, cluster);
      var row := Row(scope, m, seller, point, groups);
      assert row[1..] == Row(scope, m, seller, point, rest);
      BuildWeight(scope, m, seller, point, g, sku, cluster);
      GroupLinesConcat(scope, g, Concat(rest));
      SumConcat(GroupLines(scope, g), GroupLines(scope, Concat(rest)), LineWeight(sku, cluster));
    }
  }

  lemma {:induction false} EnumerateShips(scope: seq<InputLine>, m: Method, seller: Option<nat>, points: seq<Option<nat>>, groups: seq<seq<string>>,
                                          to: Option<nat>, sku: string, cluster: Option<string>)
    requires Buildable(scope, groups) && NoDup(points)
    ensures SumBy(Enumerate(scope, m, seller, points, groups), ShippedBy(m, to, sku, cluster)) ==
      if to in points then SumBy(GroupLines(scope, Concat(groups)), LineWeight(sku, cluster)) else 0
  {
    if |points| > 0 {
      var init, last := points[..|points| - 1], points[|points| - 1];
      InitLast(points);
      EnumerateShips(scope, m, seller, init, groups, to, sku, cluster);
      RowShips(scope, m, seller, last, groups, to, sku, cluster);
      SumConcat(Enumerate(scope, m, seller, init, groups), Row(scope, m, seller, last, groups), ShippedBy(m, to, sku, cluster));
    }
  }

  lemma {:induction false} EnumerateKind(scope: seq<InputLine>, m: Method, seller: Option<nat>, points: seq<Option<nat>>, groups: seq<seq<string>>)
    requires Buildable(scope, groups)
    ensures forall c <- Enumerate(scope, m, seller, points, groups) :: c.kind == m && c.point in points && c.clusters in groups
  {
    if |points| > 0 {
      var init, last := points[..|points| - 1], points[|points| - 1];
      InitLast(points);
      EnumerateKind(scope, m, seller, init, groups);
      forall c | c in Row(scope, m, seller, last, groups) ensures c.kind == m && c.point == last && c.clusters in groups {
      }
    }
  }

  lemma ListShips(scope: seq<InputLine>, s: Scenario, m: Method, ws: seq<Warehouse>, store: map<nat, bool>,
                  n: Method, to: Option<nat>, sku: string, cluster: Option<string>)
    requires ValidScope(scope) && ValidScenario(s)
    ensures SumBy(FullList(scope, s, m, ws, store), ShippedBy(n, to, sku, cluster)) <=
      if n == m then SumBy(scope, LineWeight(sku, cluster)) else 0
  {
    var seller := ResolveSeller(ws, s.seller, NeedsSeller(m));
    var points := Destinations(store, s.points, NeedsPoint(m));
    if seller.Ok? && points.Ok? {
      var groups := GroupsOf(scope, s, m);
      GroupsAreGood(scope, s, m);
      GoodGroupsAreBuildable(scope, m, groups);
      if n == m {
        EnumerateShips(scope, m, seller.value, points.value, groups, to, sku, cluster);
        GroupLinesAmong(scope, Concat(groups));
        SumAmong(GroupLines(scope, Concat(groups)), scope, LineWeight(sku, cluster));
      } else {
        EnumerateKind(scope, m, seller.value, points.value, groups);
        SumZero(Enumerate(scope, m, seller.value, points.value, groups), ShippedBy(n, to, sku, cluster));
      }
    }
  }

  lemma {:induction false} ListsShip(scope: seq<InputLine>, s: Scenario, ms: seq<Method>, ws: seq<Warehouse>, store: map<nat, bool>,
                                     n: Method, to: Option<nat>, sku: string, cluster: Option<string>)
    requires ValidScope(scope) && ValidScenario(s) && NoDup(ms)
    ensures SumBy(Concat(FullLists(scope, s, ms, ws, store)), ShippedBy(n, to, sku, cluster)) <=
      if n in ms then SumBy(scope, LineWeight(sku, cluster)) else 0
  {
    if |ms| > 0 {
      var init, last := ms[..|ms| - 1], ms[|ms| - 1];
      InitLast(ms);
      ListsShip(scope, s, init, ws, store, n, to, sku, cluster);
      ListShips(scope, s, last, ws, store, n, to, sku, cluster);
      var lists, list := FullLists(scope, s, init, ws, store), FullList(scope, s, last, ws, store);
      ConcatSplit(lists, [list]);
      assert Concat([list]) == list;
      SumConcat(Concat(lists), list, ShippedBy(n, to, sku, cluster));
    }
  }

  /** For one method and one handoff point the selected candidates together ship no more of any
      SKU, at any cluster or overall, than the working plan's scope holds. */
  lemma NothingIsShippedTwice(scope: seq<InputLine>, s: Scenario, ws: seq<Warehouse>, store: map<nat, bool>, max: nat,
                              m: Method, to: Option<nat>, sku: string, cluster: Option<string>)
    requires ValidScope(scope) && ValidScenario(s)
    ensures SumBy(Select(Viable(FullLists(scope, s, s.methods, ws, store)), max), ShippedBy(m, to, sku, cluster))
         <= SumBy(scope, LineWeight(sku, cluster))
  {
    var lists := FullLists(scope, s, s.methods, ws, store);
    SelectionIsSome(Viable(lists), max);
    ViableConcat(lists);
    SumAmong(Select(Viable(lists), max), Concat(lists), ShippedBy(m, to, sku, cluster));
    ListsShip(scope, s, s.methods, ws, store, m, to, sku, cluster);
  }

  // ---- every selected candidate is sound, and no two are alike ----

  lemma NoDupConcat<T(!new)>(a: seq<T>, b: seq<T>)
    requires NoDup(a) && NoDup(b) && forall x <- a :: x !in b
    ensures NoDup(a + b)
  {
    forall i, j | 0 <= i < j < |a + b| ensures (a + b)[i] != (a + b)[j] {
      if i < |a| <= j {
        assert (a + b)[i] in a && (a + b)[j] in b;
      }
    }
  }

  lemma NotTwice<T>(s: seq<T>, i: nat, j: nat)
    requires NoDup(s) && i < j < |s|
    ensures s[i] != s[j]
  {
  }

  lemma {:induction false} GroupsDiffer(groups: seq<seq<string>>)
    requires NoDup(Concat(groups)) && forall g <- groups :: |g| > 0
    ensures NoDup(groups)
  {
    if |groups| > 0 {
      var g, rest := groups[0], groups[1..];
      HeadTail(groups);
      NoDupAmong(Concat(groups), Concat(rest));
      GroupsDiffer(rest);
      if g in rest {
        GroupInConcat(rest, g);
        assert g[0] in g && g[0] in Concat(rest);
        var i :| 0 <= i < |Concat(rest)| && Concat(rest)[i] == g[0];
        NotTwice(Concat(groups), 0, |g| + i);
      }
    }
  }

  lemma {:induction false} EnumerateDiffers(scope: seq<InputLine>, m: Method, seller: Option<nat>, points: seq<Option<nat>>, groups: seq<seq<string>>)
    requires Buildable(scope, groups) && NoDup(groups) && NoDup(points)
    ensures NoDup(Enumerate(scope, m, seller, points, groups))
  {
    if |points| > 0 {
      var init, last := points[..|points| - 1], points[|points| - 1];
      InitLast(points);
      EnumerateDiffers(scope, m, seller, init, groups);
      EnumerateKind(scope, m, seller, init, groups);
      var row := Row(scope, m, seller, last, groups);
      forall i, j | 0 <= i < j < |row| ensures row[i] != row[j] {
        assert row[i].clusters == groups[i] && row[j].clusters == groups[j];
      }
      forall c | c in Enumerate(scope, m, seller, init, groups) ensures c !in row {
        assert forall x <- row :: x.point == last;
      }
      NoDupConcat(Enumerate(scope, m, seller, init, groups), row);
    }
  }

  /** A candidate meets the contracts, the cluster limits of its method and scenario, and the volume
      that a pickup point takes. */
  ghost predicate Sound(c: Candidate, s: Scenario) {
    && ValidCandidate(c)
    && |c.clusters| <= (if c.kind.Direct? then 1 else 20) && |c.clusters| <= s.preferred && |c.clusters| <= s.maximum
    && (c.kind.PvzCrossdock? ==> c.totalVolume <= 1000.0)
  }

  /** A line that a method takes: its zones and volume are known, and it is not too bulky for a
      pickup point. */
  predicate Takes(m: Method, l: InputLine) {
    l.zoned && l.unitVolume.Some? && l.totalVolume.Some? && !(m.PvzCrossdock? && l.oversized)
  }

  /** The method can be used: a direct shipment always, a crossdock with the chosen active seller
      warehouse, or the only active one, and with points that are all known with their type. */
  ghost predicate Usable(m: Method, s: Scenario, ws: seq<Warehouse>, store: map<nat, bool>) {
    !m.Direct? ==>
      && (match s.seller
          case Some(id) => exists w <- ws :: w.active && w.id == id
          case None => exists i :: 0 <= i < |ws| && ws[i].active && forall j :: 0 <= j < |ws| && ws[j].active ==> j == i)
      && |s.points| > 0 && forall p <- s.points :: p in store && store[p]
  }

  /** A crossdock has an active seller warehouse and one of the chosen points, known with its type; a
      direct shipment has neither. */
  ghost predicate Resolved(m: Method, seller: Option<nat>, point: Option<nat>, s: Scenario, ws: seq<Warehouse>, store: map<nat, bool>) {
    if m.Direct? then seller.None? && point.None?
    else
      && Usable(m, s, ws, store)
      && seller.Some? && (exists w <- ws :: w.active && w.id == seller.value) && (s.seller.Some? ==> seller == s.seller)
      && point.Some? && point.value in s.points
  }

  /** A candidate ships every line of its clusters and nothing else, all of them lines its method
      takes, from and to where the scenario allows. */
  ghost predicate Permitted(scope: seq<InputLine>, c: Candidate, s: Scenario, ws: seq<Warehouse>, store: map<nat, bool>) {
    && (forall l <- scope :: l.cluster in c.clusters ==> Takes(c.kind, l) && exists a <- c.assignments :: Ships(a, l))
    && (forall a <- c.assignments :: exists l <- scope :: l.cluster in c.clusters && Ships(a, l))
    && Resolved(c.kind, c.seller, c.point, s, ws, store)
  }

  predicate Ships(a: Assignment, l: InputLine) {
    && a.sku == l.sku && a.cluster == l.cluster && l.quantity == Some(a.quantity) && l.pack == Some(a.pack)
    && l.unitVolume == Some(a.unitVolume) && l.totalVolume == Some(a.totalVolume)
  }

  lemma EligibleMeansTaken(scope: seq<InputLine>, m: Method, c: string)
    ensures ClusterEligible(scope, m, c) <==> forall l <- scope :: l.cluster == c ==> Takes(m, l)
  {
    forall l ensures LineEligible(l, m) <==> Takes(m, l) {
    }
    if ClusterEligible(scope, m, c) {
      forall l | l in scope && l.cluster == c ensures Takes(m, l) {
        assert l in InCluster(scope, c);
      }
    }
  }

  lemma BuildShips(scope: seq<InputLine>, m: Method, seller: Option<nat>, point: Option<nat>, clusters: seq<string>)
    requires AllAssignable(GroupLines(scope, clusters))
    ensures var c := Build(scope, m, seller, point, clusters);
      && (forall l <- scope :: l.cluster in clusters ==> exists a <- c.assignments :: Ships(a, l))
      && (forall a <- c.assignments :: exists l <- scope :: l.cluster in clusters && Ships(a, l))
  {
    var ls := GroupLines(scope, clusters);
    RowsOf(ls);
    var c := Build(scope, m, seller, point, clusters);
    forall l | l in scope && l.cluster in clusters ensures exists a <- c.assignments :: Ships(a, l) {
      assert l in ls && Assign(l) in c.assignments && Assignable(l) && Ships(Assign(l), l);
    }
    forall a | a in c.assignments ensures exists l <- scope :: l.cluster in clusters && Ships(a, l) {
      var l :| l in ls && Assign(l) == a;
      assert Assignable(l) && Ships(a, l);
    }
  }

  /** What `_candidate_id` hashes of a candidate besides its rows. */
  function Identity(c: Candidate): (Method, Option<nat>, Option<nat>, seq<string>) {
    (c.kind, c.seller, c.point, c.clusters)
  }

  /** A candidate is built from its own identity. */
  ghost predicate Built(scope: seq<InputLine>, c: Candidate) {
    AllAssignable(GroupLines(scope, c.clusters)) && c == Build(scope, c.kind, c.seller, c.point, c.clusters)
  }

  lemma IdentityDecides(scope: seq<InputLine>, a: Candidate, b: Candidate)
    requires Built(scope, a) && Built(scope, b)
    ensures Identity(a) == Identity(b) ==> a == b
  {
  }

  lemma GroupIsSound(scope: seq<InputLine>, s: Scenario, m: Method, seller: Option<nat>, point: Option<nat>, g: seq<string>)
    requires ValidScope(scope) && ValidScenario(s) && g in GroupsOf(scope, s, m)
    ensures AllAssignable(GroupLines(scope, g)) && Sound(Build(scope, m, seller, point, g), s)
    ensures forall l <- scope :: l.cluster in g ==> Takes(m, l)
  {
    var groups := GroupsOf(scope, s, m);
    GroupsAreGood(scope, s, m);
    GroupInConcat(groups, g);
    BuildIsValid(scope, m, seller, point, g);
    BuildVolume(scope, m, seller, point, g);
    GroupWithinVolume(scope, s, m, g);
    forall l | l in scope && l.cluster in g ensures Takes(m, l) {
      EligibleMeansTaken(scope, m, l.cluster);
    }
  }

  lemma ResourcesAreResolved(m: Method, s: Scenario, ws: seq<Warehouse>, store: map<nat, bool>, point: Option<nat>)
    requires ResolveSeller(ws, s.seller, NeedsSeller(m)).Ok? && Destinations(store, s.points, NeedsPoint(m)).Ok?
    requires point in Destinations(store, s.points, NeedsPoint(m)).value
    ensures Resolved(m, ResolveSeller(ws, s.seller, NeedsSeller(m)).value, point, s, ws, store)
  {
    if !m.Direct? && s.seller.None? {
      var i := OnlyActive(ws);
    }
  }

  /** A single active warehouse stands at one place. */
  lemma {:induction false} OnlyActive(ws: seq<Warehouse>) returns (i: nat)
    requires |ActiveOnly(ws)| == 1
    ensures i < |ws| && ws[i].active && forall j :: 0 <= j < |ws| && ws[j].active ==> j == i
  {
    HeadTail(ws);
    if ws[0].active {
      i := 0;
      assert ActiveOnly(ws[1..]) == [];
      forall j | 0 < j < |ws| ensures !ws[j].active {
        assert ws[j] == ws[1..][j - 1] && ws[j] in ws[1..];
      }
    } else {
      var k := OnlyActive(ws[1..]);
      i := k + 1;
      forall j | 0 < j < |ws| && j != i ensures !ws[j].active {
        assert ws[j] == ws[1..][j - 1];
      }
    }
  }

  lemma EnumerateIsSound(scope: seq<InputLine>, s: Scenario, m: Method, ws: seq<Warehouse>, store: map<nat, bool>, c: Candidate)
    requires ValidScope(scope) && ValidScenario(s) && c in FullList(scope, s, m, ws, store)
    ensures c.kind == m && Sound(c, s) && Built(scope, c) && Permitted(scope, c, s, ws, store)
  {
    var seller, points := ResolveSeller(ws, s.seller, NeedsSeller(m)).value, Destinations(store, s.points, NeedsPoint(m)).value;
    var groups := GroupsOf(scope, s, m);
    GroupsAreGood(scope, s, m);
    GoodGroupsAreBuildable(scope, m, groups);
    EnumerateKind(scope, m, seller, points, groups);
    EnumerateBuilds(scope, m, seller, points, groups);
    GroupIsSound(scope, s, m, seller, c.point, c.clusters);
    ResourcesAreResolved(m, s, ws, store, c.point);
    BuildShips(scope, m, seller, c.point, c.clusters);
  }

  lemma ListIsSound(scope: seq<InputLine>, s: Scenario, m: Method, ws: seq<Warehouse>, store: map<nat, bool>)
    requires ValidScope(scope) && ValidScenario(s)
    ensures NoDup(FullList(scope, s, m, ws, store))
    ensures forall c <- FullList(scope, s, m, ws, store) :: c.kind == m && Sound(c, s) && Built(scope, c) && Permitted(scope, c, s, ws, store)
  {
    var seller := ResolveSeller(ws, s.seller, NeedsSeller(m));
    var points := Destinations(store, s.points, NeedsPoint(m));
    if seller.Ok? && points.Ok? {
      var groups := GroupsOf(scope, s, m);
      GroupsAreGood(scope, s, m);
      GoodGroupsAreBuildable(scope, m, groups);
      GroupsDiffer(groups);
      EnumerateDiffers(scope, m, seller.value, points.value, groups);
      forall c | c in FullList(scope, s, m, ws, store)
        ensures c.kind == m && Sound(c, s) && Built(scope, c) && Permitted(scope, c, s, ws, store) {
        EnumerateIsSound(scope, s, m, ws, store, c);
      }
    }
  }

  lemma {:induction false} EnumerateBuilds(scope: seq<InputLine>, m: Method, seller: Option<nat>, points: seq<Option<nat>>, groups: seq<seq<string>>)
    requires Buildable(scope, groups)
    ensures forall c <- Enumerate(scope, m, seller, points, groups) ::
      AllAssignable(GroupLines(scope, c.clusters)) && c == Build(scope, m, seller, c.point, c.clusters)
  {
    if |points| > 0 {
      EnumerateBuilds(scope, m, seller, points[..|points| - 1], groups);
    }
  }

  lemma {:induction false} ListsAreSound(scope: seq<InputLine>, s: Scenario, ms: seq<Method>, ws: seq<Warehouse>, store: map<nat, bool>)
    requires ValidScope(scope) && ValidScenario(s) && NoDup(ms)
    ensures NoDup(Concat(FullLists(scope, s, ms, ws, store)))
    ensures forall c <- Concat(FullLists(scope, s, ms, ws, store)) :: c.kind in ms && Sound(c, s) && Built(scope, c) && Permitted(scope, c, s, ws, store)
  {
    if |ms| > 0 {
      var init, last := ms[..|ms| - 1], ms[|ms| - 1];
      InitLast(ms);
      ListsAreSound(scope, s, init, ws, store);
      ListIsSound(scope, s, last, ws, store);
      var lists, list := FullLists(scope, s, init, ws, store), FullList(scope, s, last, ws, store);
      ConcatSplit(lists, [list]);
      assert Concat([list]) == list;
      NoDupConcat(Concat(lists), list);
    }
  }

  /** Building candidates never violates the assignment or shipment contracts or the cluster limits,
      and no two selected candidates share method, seller, point and clusters, so their identifiers
      differ. */
  lemma SelectionIsSound(scope: seq<InputLine>, s: Scenario, ws: seq<Warehouse>, store: map<nat, bool>, max: nat)
    requires ValidScope(scope) && ValidScenario(s)
    ensures var chosen := Select(Viable(FullLists(scope, s, s.methods, ws, store)), max);
      && |chosen| <= max
      && (forall c <- chosen :: c.kind in s.methods && Sound(c, s) && Permitted(scope, c, s, ws, store))
      && forall i, j :: 0 <= i < j < |chosen| ==> Identity(chosen[i]) != Identity(chosen[j])
  {
    var lists := FullLists(scope, s, s.methods, ws, store);
    var chosen := Select(Viable(lists), max);
    ListsAreSound(scope, s, s.methods, ws, store);
    SelectionIsSome(Viable(lists), max);
    ViableConcat(lists);
    NoDupAmong(Concat(lists), chosen);
    forall c | c in chosen ensures c.kind in s.methods && Sound(c, s) && Built(scope, c) && Permitted(scope, c, s, ws, store) {
      assert c in multiset(chosen) && c in multiset(Concat(lists));
    }
    forall i, j | 0 <= i < j < |chosen| ensures Identity(chosen[i]) != Identity(chosen[j]) {
      assert chosen[i] in chosen && chosen[j] in chosen;
      IdentityDecides(scope, chosen[i], chosen[j]);
    }
  }

  // ---- every cluster that can be shipped is ----

  lemma {:induction false} OneActive(ws: seq<Warehouse>, i: nat)
    requires i < |ws| && ws[i].active && forall j :: 0 <= j < |ws| && ws[j].active ==> j == i
    ensures ActiveOnly(ws) == [ws[i]]
  {
    HeadTail(ws);
    if i == 0 {
      NoneActive(ws[1..]);
    } else {
      forall j | 0 <= j < |ws| - 1 && ws[1..][j].active ensures j == i - 1 {
        assert ws[j + 1].active;
      }
      OneActive(ws[1..], i - 1);
    }
  }

  lemma {:induction false} NoneActive(ws: seq<Warehouse>)
    requires forall j :: 0 <= j < |ws| ==> !ws[j].active
    ensures ActiveOnly(ws) == []
  {
    if |ws| > 0 {
      NoneActive(ws[1..]);
    }
  }

  lemma UsableResolves(m: Method, s: Scenario, ws: seq<Warehouse>, store: map<nat, bool>)
    requires Usable(m, s, ws, store)
    ensures ResolveSeller(ws, s.seller, NeedsSeller(m)).Ok?
    ensures var points := Destinations(store, s.points, NeedsPoint(m));
      points.Ok? && (m.Direct? ==> None in points.value) && (!m.Direct? ==> forall p <- s.points :: Some(p) in points.value)
  {
    if !m.Direct? {
      if s.seller.None? {
        var i :| 0 <= i < |ws| && ws[i].active && forall j :: 0 <= j < |ws| && ws[j].active ==> j == i;
        OneActive(ws, i);
      }
      var points := Destinations(store, s.points, NeedsPoint(m)).value;
      forall p | p in s.points ensures Some(p) in points {
        var k :| 0 <= k < |s.points| && s.points[k] == p;
        assert points[k] == Some(p);
      }
    }
  }

  lemma {:induction false} EnumerateHas(scope: seq<InputLine>, m: Method, seller: Option<nat>, points: seq<Option<nat>>,
                                        groups: seq<seq<string>>, point: Option<nat>, g: seq<string>)
    requires Buildable(scope, groups) && point in points && g in groups
    ensures exists c <- Enumerate(scope, m, seller, points, groups) :: c.point == point && c.clusters == g
  {
    var init, last := points[..|points| - 1], points[|points| - 1];
    InitLast(points);
    if point == last {
      var i :| 0 <= i < |groups| && groups[i] == g;
      assert Row(scope, m, seller, last, groups)[i] in Row(scope, m, seller, last, groups);
    } else {
      EnumerateHas(scope, m, seller, init, groups, point, g);
    }
  }

  /** The litres of a cluster of the scope. */
  function ClusterVolume(scope: seq<InputLine>, cluster: string): real
    requires AllAssignable(InCluster(scope, cluster))
  {
    TotalVolume(AssignAll(InCluster(scope, cluster)))
  }

  lemma TakenIsAssignable(scope: seq<InputLine>, m: Method, cluster: string)
    requires ValidScope(scope) && forall l <- scope :: l.cluster == cluster ==> Takes(m, l)
    ensures AllAssignable(InCluster(scope, cluster))
  {
    forall l | l in InCluster(scope, cluster) ensures Assignable(l) {
      assert l in scope && Packed(l);
    }
  }

  /** A usable method ships every cluster whose lines it takes and whose volume it allows, to every
      point. */
  lemma TakenIsEligible(scope: seq<InputLine>, m: Method, cluster: string)
    requires (exists l <- scope :: l.cluster == cluster) && forall l <- scope :: l.cluster == cluster ==> Takes(m, l)
    ensures cluster in EligibleClusters(scope, m, ClusterOrder(scope))
  {
    EligibleMeansTaken(scope, m, cluster);
    ClusterOrderFacts(scope);
  }

  lemma GroupIsListed(scope: seq<InputLine>, s: Scenario, m: Method, ws: seq<Warehouse>, store: map<nat, bool>, g: seq<string>, point: Option<nat>)
    requires ValidScope(scope) && ValidScenario(s) && Usable(m, s, ws, store) && g in GroupsOf(scope, s, m)
    requires if m.Direct? then point.None? else point.Some? && point.value in s.points
    ensures exists c <- FullList(scope, s, m, ws, store) :: c.point == point && c.clusters == g
  {
    GroupsAreGood(scope, s, m);
    GoodGroupsAreBuildable(scope, m, GroupsOf(scope, s, m));
    UsableResolves(m, s, ws, store);
    EnumerateHas(scope, m, ResolveSeller(ws, s.seller, NeedsSeller(m)).value, Destinations(store, s.points, NeedsPoint(m)).value,
                 GroupsOf(scope, s, m), point, g);
  }

  lemma AllowedIsGrouped(scope: seq<InputLine>, s: Scenario, m: Method, cluster: string) returns (g: seq<string>)
    requires ValidScenario(s) && cluster in EligibleClusters(scope, m, ClusterOrder(scope)) && AllAssignable(InCluster(scope, cluster))
    requires !(m.PvzCrossdock? && 1000.0 < ClusterVolume(scope, cluster))
    ensures g in GroupsOf(scope, s, m) && cluster in g
  {
    LineVolumes(InCluster(scope, cluster));
    g := ClusterIsGrouped(scope, s, m, cluster);
  }

  lemma EveryClusterIsShipped(scope: seq<InputLine>, s: Scenario, m: Method, ws: seq<Warehouse>, store: map<nat, bool>,
                              cluster: string, point: Option<nat>)
    requires ValidScope(scope) && ValidScenario(s) && Usable(m, s, ws, store)
    requires (exists l <- scope :: l.cluster == cluster) && forall l <- scope :: l.cluster == cluster ==> Takes(m, l)
    requires if m.Direct? then point.None? else point.Some? && point.value in s.points
    ensures AllAssignable(InCluster(scope, cluster))
    ensures !(m.PvzCrossdock? && 1000.0 < ClusterVolume(scope, cluster)) ==>
      exists c <- FullList(scope, s, m, ws, store) :: c.point == point && cluster in c.clusters
  {
    TakenIsAssignable(scope, m, cluster);
    if !(m.PvzCrossdock? && 1000.0 < ClusterVolume(scope, cluster)) {
      TakenIsEligible(scope, m, cluster);
      var g := AllowedIsGrouped(scope, s, m, cluster);
      GroupIsListed(scope, s, m, ws, store, g, point);
    }
  }

  lemma {:induction false} NonnegativeLines(ls: seq<InputLine>)
    requires forall l <- ls :: l.totalVolume.Some? ==> 0.0 <= l.totalVolume.value
    ensures 0.0 <= VolumeOf(ls)
  {
    if |ls| > 0 {
      HeadTail(ls);
      NonnegativeLines(ls[1..]);
    }
  }

  lemma LineIsNonnegative(l: InputLine)
    requires Packed(l) && l.totalVolume.Some?
    ensures 0.0 <= l.totalVolume.value
  {
  }

  /** A cluster beyond the volume limit is in no candidate. */
  lemma NonnegativeSizes(scope: seq<InputLine>, ids: seq<string>)
    requires ValidScope(scope)
    ensures G.NonnegativeVolumes(Sized(scope, ids))
  {
    forall x | x in Sized(scope, ids) ensures 0.0 <= x.volume {
      var i :| 0 <= i < |ids| && Sized(scope, ids)[i] == x;
      forall l | l in InCluster(scope, ids[i]) && l.totalVolume.Some? ensures 0.0 <= l.totalVolume.value {
        LineIsNonnegative(l);
      }
      NonnegativeLines(InCluster(scope, ids[i]));
    }
  }

  lemma ClusterWithinCandidate(scope: seq<InputLine>, c: Candidate, k: nat)
    requires ValidScope(scope) && Built(scope, c) && k < |c.clusters| && AllAssignable(InCluster(scope, c.clusters[k]))
    ensures ClusterVolume(scope, c.clusters[k]) <= c.totalVolume
  {
    var cs := Sized(scope, c.clusters);
    LineVolumes(InCluster(scope, c.clusters[k]));
    BuildVolume(scope, c.kind, c.seller, c.point, c.clusters);
    NonnegativeSizes(scope, c.clusters);
    G.VolumeBounds(cs);
    assert cs[k] in cs;
  }

  lemma TooBigIsNotShipped(scope: seq<InputLine>, s: Scenario, ws: seq<Warehouse>, store: map<nat, bool>, c: Candidate, cluster: string)
    requires ValidScope(scope) && ValidScenario(s) && c.kind.PvzCrossdock? && c in FullList(scope, s, c.kind, ws, store)
    requires AllAssignable(InCluster(scope, cluster)) && 1000.0 < ClusterVolume(scope, cluster)
    ensures cluster !in c.clusters
  {
    EnumerateIsSound(scope, s, c.kind, ws, store, c);
    forall k | 0 <= k < |c.clusters| ensures c.clusters[k] != cluster {
      if AllAssignable(InCluster(scope, c.clusters[k])) {
        ClusterWithinCandidate(scope, c, k);
      }
    }
  }
}
