/** Bounded shipment candidates from the working plan (backend/shipment/candidates.py). */
module Candidates {
  import opened Wrappers
  import opened Text
  import opened Sequences
  import opened StableSort

  datatype Method = Direct | PvzCrossdock | ScCrossdock

  datatype InputLine = InputLine(
    sku: string, cluster: string, quantity: Option<nat>, pack: Option<nat>,
    unitVolume: Option<real>, totalVolume: Option<real>, rank: Option<nat>,
    zoned: bool, oversized: bool, blocked: bool)

  datatype Assignment = Assignment(
    sku: string, cluster: string, quantity: nat, pack: nat, unitVolume: real, totalVolume: real)

  /** A candidate. Its identifier is left out: for one plan and scenario it is a hash of the method,
      the seller, the point, the clusters, and the SKU, cluster and quantity of every row. */
  datatype Candidate = Candidate(
    kind: Method, seller: Option<nat>, point: Option<nat>, clusters: seq<string>,
    assignments: seq<Assignment>, totalQty: nat, totalVolume: real)

  datatype Warehouse = Warehouse(id: nat, active: bool)

  datatype Scenario = Scenario(
    selected: set<string>, methods: seq<Method>, preferred: nat, maximum: nat,
    seller: Option<nat>, points: seq<nat>)

  datatype Reason =
    | EmptyScope | ScopeBlocked | SellerUnavailable | SellerRequired | SellerInvalid
    | PointRequired | PointUnresolved | ZoneIncomplete | ZoneUnsupported

  // ---- method rules (backend/shipment/contracts.py, rules.py) ----

  function HardMaxClusters(m: Method): nat {
    if m.Direct? then 1 else 20
  }

  predicate NeedsPoint(m: Method) {
    !m.Direct?
  }

  predicate NeedsSeller(m: Method) {
    !m.Direct?
  }

  function VolumeLimit(m: Method): Option<real> {
    if m.PvzCrossdock? then Some(1000.0) else None
  }

  /** `ShipmentScenario.__post_init__`. */
  ghost predicate ValidScenario(s: Scenario) {
    && |s.methods| > 0 && NoDup(s.methods) && NoDup(s.points)
    && 1 <= s.preferred <= s.maximum
  }

  // ---- scope, cluster order, eligibility ----

  /** `select_shipment_scope`. */
  function SelectScope(lines: seq<InputLine>, selected: set<string>): (r: Result<seq<InputLine>, Reason>)
    ensures r.Ok? ==> |r.value| > 0 && forall l <- r.value ::
      l in lines && l.cluster in selected && l.quantity.Some? && 0 < l.quantity.value && !l.blocked
    ensures r.Ok? ==> r.value == Positive(lines, selected)
    ensures r.Ok? <==> |Positive(lines, selected)| > 0 && forall l <- Positive(lines, selected) :: !l.blocked
  {
    var rows := Positive(lines, selected);
    if |rows| == 0 then Err(EmptyScope)
    else if exists l <- rows :: l.blocked then Err(ScopeBlocked)
    else Ok(rows)
  }

  function Positive(lines: seq<InputLine>, selected: set<string>): (r: seq<InputLine>)
    ensures forall l :: l in r <==> l in lines && l.cluster in selected && l.quantity.Some? && 0 < l.quantity.value
  {
    if |lines| == 0 then []
    else
      var l := lines[0];
      var rest := Positive(lines[1..], selected);
      assert lines == [l] + lines[1..];
      if l.cluster in selected && l.quantity.Some? && 0 < l.quantity.value then [l] + rest else rest
  }

  function InCluster(lines: seq<InputLine>, cluster: string): (r: seq<InputLine>)
    ensures forall l :: l in r <==> l in lines && l.cluster == cluster
  {
    if |lines| == 0 then []
    else
      var rest := InCluster(lines[1..], cluster);
      HeadTail(lines);
      if lines[0].cluster == cluster then [lines[0]] + rest else rest
  }

  function ClustersOf(lines: seq<InputLine>): (cs: seq<string>)
    ensures forall c :: c in cs <==> exists l <- lines :: l.cluster == c
    ensures NoDup(cs)
  {
    if |lines| == 0 then []
    else
      var rest := ClustersOf(lines[..|lines| - 1]);
      var c := lines[|lines| - 1].cluster;
      InitLast(lines);
      if c in rest then rest else rest + [c]
  }

  const NO_RANK := 0x8000_0000_0000_0000

  function BestRank(lines: seq<InputLine>): nat {
    if |lines| == 0 then NO_RANK
    else
      var rest := BestRank(lines[1..]);
      if lines[0].rank.Some? && lines[0].rank.value < rest then lines[0].rank.value else rest
  }

  /** The key of `_cluster_order`: the best rank of the cluster, then its name. */
  predicate ClusterLe(lines: seq<InputLine>, a: string, b: string) {
    var ra, rb := BestRank(InCluster(lines, a)), BestRank(InCluster(lines, b));
    if ra != rb then ra < rb else TextLe(a, b)
  }

  function ByRank(lines: seq<InputLine>): (string, string) -> bool {
    (a, b) => ClusterLe(lines, a, b)
  }

  function ClusterOrder(lines: seq<InputLine>): seq<string> {
    Sort(ClustersOf(lines), ByRank(lines))
  }

  lemma ByRankIsTotal(lines: seq<InputLine>)
    ensures TotalPreorder(ByRank(lines))
  {
    forall a: string, b: string ensures ClusterLe(lines, a, b) || ClusterLe(lines, b, a) {
      TextLeTotal(a, b);
    }
    forall a: string, b: string, c: string | ClusterLe(lines, a, b) && ClusterLe(lines, b, c) ensures ClusterLe(lines, a, c) {
      if TextLe(a, b) && TextLe(b, c) {
        TextLeTransitive(a, b, c);
      }
    }
  }

  /** The clusters by the best rank of their lines, those without a rank last, and then by name. */
  ghost predicate RankedThenNamed(lines: seq<InputLine>, cs: seq<string>) {
    forall i, j :: 0 <= i < j < |cs| ==>
      var ri, rj := BestRank(InCluster(lines, cs[i])), BestRank(InCluster(lines, cs[j]));
      ri <= rj && (ri == rj ==> TextLe(cs[i], cs[j]))
  }

  /** Every cluster of the scope once, by best rank and then by name. */
  lemma ClusterOrderFacts(lines: seq<InputLine>)
    ensures NoDup(ClusterOrder(lines))
    ensures forall c :: c in ClusterOrder(lines) <==> exists l <- lines :: l.cluster == c
    ensures RankedThenNamed(lines, ClusterOrder(lines))
  {
    ByRankIsTotal(lines);
    SortKeeps(ClustersOf(lines), ByRank(lines));
    SortElements(ClustersOf(lines), ByRank(lines));
    NoDupAmong(ClustersOf(lines), ClusterOrder(lines));
    var order := ClusterOrder(lines);
    forall i, j | 0 <= i < j < |order|
      ensures var ri, rj := BestRank(InCluster(lines, order[i])), BestRank(InCluster(lines, order[j]));
        ri <= rj && (ri == rj ==> TextLe(order[i], order[j]))
    {
      assert ByRank(lines)(order[i], order[j]);
    }
  }

  /** The rank that decides the place of a cluster is the best of its lines. */
  lemma {:induction false} BestRankIsBest(lines: seq<InputLine>)
    ensures forall l <- lines :: l.rank.Some? ==> BestRank(lines) <= l.rank.value
    ensures BestRank(lines) == NO_RANK || exists l <- lines :: l.rank == Some(BestRank(lines))
  {
    if |lines| > 0 {
      BestRankIsBest(lines[1..]);
      HeadTail(lines);
    }
  }

  /** `placement_reason`. */
  function PlacementReason(l: InputLine, m: Method): Option<Reason> {
    if !l.zoned then Some(ZoneIncomplete)
    else if m.PvzCrossdock? && l.oversized then Some(ZoneUnsupported)
    else None
  }

  predicate LineEligible(l: InputLine, m: Method) {
    PlacementReason(l, m).None? && l.unitVolume.Some? && l.totalVolume.Some?
  }

  predicate ClusterEligible(scope: seq<InputLine>, m: Method, c: string) {
    forall l <- InCluster(scope, c) :: LineEligible(l, m)
  }

  function EligibleClusters(scope: seq<InputLine>, m: Method, cs: seq<string>): (r: seq<string>)
    ensures forall c :: c in r <==> c in cs && ClusterEligible(scope, m, c)
    ensures NoDup(cs) ==> NoDup(r)
  {
    if |cs| == 0 then []
    else
      var rest := EligibleClusters(scope, m, cs[1..]);
      HeadTail(cs);
      assert NoDup(cs) ==> NoDup(cs[1..]) && cs[0] !in cs[1..];
      if ClusterEligible(scope, m, cs[0]) then [cs[0]] + rest else rest
  }

  // ---- assignments ----

  /** What the working plan promises of an unblocked positive line. */
  predicate Packed(l: InputLine) {
    && (l.quantity.Some? && 0 < l.quantity.value && !l.blocked ==>
         l.pack.Some? && 0 < l.pack.value && l.quantity.value % l.pack.value == 0)
    && (l.unitVolume.Some? ==> 0.0 < l.unitVolume.value)
    && (l.totalVolume.Some? <==> l.unitVolume.Some? && l.quantity.Some?)
    && (l.totalVolume.Some? ==> l.totalVolume.value == l.unitVolume.value * l.quantity.value as real)
  }

  /** A line that `_assignment` may be called on. */
  predicate Assignable(l: InputLine) {
    l.quantity.Some? && l.pack.Some? && l.unitVolume.Some? && l.totalVolume.Some?
  }

  function Assign(l: InputLine): Assignment
    requires Assignable(l)
  {
    Assignment(l.sku, l.cluster, l.quantity.value, l.pack.value, l.unitVolume.value, l.totalVolume.value)
  }

  predicate AllAssignable(ls: seq<InputLine>) {
    forall l <- ls :: Assignable(l)
  }

  function AssignAll(ls: seq<InputLine>): (r: seq<Assignment>)
    requires AllAssignable(ls)
    ensures |r| == |ls| && forall i :: 0 <= i < |ls| ==> r[i] == Assign(ls[i])
  {
    seq(|ls|, i requires 0 <= i < |ls| => assert ls[i] in ls; Assign(ls[i]))
  }

  /** The lines of a group of clusters, cluster by cluster. */
  function GroupLines(scope: seq<InputLine>, clusters: seq<string>): (r: seq<InputLine>)
    ensures forall l :: l in r <==> l in scope && l.cluster in clusters
  {
    if |clusters| == 0 then []
    else
      HeadTail(clusters);
      InCluster(scope, clusters[0]) + GroupLines(scope, clusters[1..])
  }

  predicate ByPlace(a: Assignment, b: Assignment) {
    if a.cluster != b.cluster then TextLe(a.cluster, b.cluster) else TextLe(a.sku, b.sku)
  }

  function Quantity(rows: seq<Assignment>): nat {
    if |rows| == 0 then 0 else rows[0].quantity + Quantity(rows[1..])
  }

  function TotalVolume(rows: seq<Assignment>): real {
    if |rows| == 0 then 0.0 else rows[0].totalVolume + TotalVolume(rows[1..])
  }

  function Build(scope: seq<InputLine>, m: Method, seller: Option<nat>, point: Option<nat>, clusters: seq<string>): Candidate
    requires AllAssignable(GroupLines(scope, clusters))
  {
    var rows := Sort(AssignAll(GroupLines(scope, clusters)), ByPlace);
    Candidate(m, seller, point, clusters, rows, Quantity(rows), TotalVolume(rows))
  }

  // ---- the contracts (backend/shipment/contracts.py) ----

  predicate ValidAssignment(a: Assignment) {
    && 0 < a.quantity && 0 < a.pack && a.quantity % a.pack == 0
    && 0.0 < a.unitVolume && a.totalVolume == a.unitVolume * a.quantity as real
  }

  ghost predicate ValidCandidate(c: Candidate) {
    && |c.clusters| > 0 && NoDup(c.clusters) && |c.assignments| > 0
    && (forall a <- c.assignments :: ValidAssignment(a))
    && (forall k :: k in c.clusters <==> exists a <- c.assignments :: a.cluster == k)
    && 0 < c.totalQty == Quantity(c.assignments) && c.totalVolume == TotalVolume(c.assignments)
  }

  ghost predicate ValidScope(scope: seq<InputLine>) {
    forall l <- scope :: Packed(l) && l.quantity.Some? && 0 < l.quantity.value && !l.blocked
  }

  lemma GroupIsAssignable(scope: seq<InputLine>, m: Method, clusters: seq<string>)
    requires ValidScope(scope) && forall c <- clusters :: ClusterEligible(scope, m, c)
    ensures AllAssignable(GroupLines(scope, clusters))
  {
    forall l | l in GroupLines(scope, clusters) ensures Assignable(l) {
      assert l in InCluster(scope, l.cluster);
      assert LineEligible(l, m);
    }
  }

  lemma {:induction false} QuantityBounds(rows: seq<Assignment>)
    ensures forall a <- rows :: a.quantity <= Quantity(rows)
  {
    if |rows| > 0 {
      QuantityBounds(rows[1..]);
      HeadTail(rows);
    }
  }

  lemma RowsOf(ls: seq<InputLine>)
    requires AllAssignable(ls)
    ensures var rows := Sort(AssignAll(ls), ByPlace);
      && (forall a <- rows :: exists l <- ls :: Assign(l) == a)
      && (forall l <- ls :: Assign(l) in rows)
  {
    var all, rows := AssignAll(ls), Sort(AssignAll(ls), ByPlace);
    SortElements(all, ByPlace);
    forall a | a in rows ensures exists l <- ls :: Assign(l) == a {
      var i :| 0 <= i < |all| && all[i] == a;
      assert ls[i] in ls;
    }
    forall l | l in ls ensures Assign(l) in rows {
      var i :| 0 <= i < |ls| && ls[i] == l;
      assert all[i] in all;
    }
  }

  lemma RowIsValid(l: InputLine)
    requires Packed(l) && Assignable(l) && 0 < l.quantity.value && !l.blocked
    ensures ValidAssignment(Assign(l))
  {
  }

  /** Every candidate built from eligible clusters of an unblocked scope meets the assignment and
      shipment contracts, so none of their checks can fail. */
  lemma BuildIsValid(scope: seq<InputLine>, m: Method, seller: Option<nat>, point: Option<nat>, clusters: seq<string>)
    requires ValidScope(scope) && |clusters| > 0 && NoDup(clusters)
    requires forall c <- clusters :: ClusterEligible(scope, m, c) && exists l <- scope :: l.cluster == c
    ensures AllAssignable(GroupLines(scope, clusters))
    ensures ValidCandidate(Build(scope, m, seller, point, clusters))
  {
    GroupIsAssignable(scope, m, clusters);
    var ls := GroupLines(scope, clusters);
    var rows := Sort(AssignAll(ls), ByPlace);
    RowsOf(ls);
    forall a | a in rows ensures ValidAssignment(a) && a.cluster in clusters {
      var l :| l in ls && Assign(l) == a;
      RowIsValid(l);
    }
    forall k | k in clusters ensures exists a <- rows :: a.cluster == k {
      var l :| l in scope && l.cluster == k;
      assert l in ls && Assign(l) in rows;
    }
    assert clusters[0] in clusters;
    QuantityBounds(rows);
    assert rows[0] in rows;
  }

  lemma ByPlaceIsTotal()
    ensures TotalPreorder(ByPlace)
  {
    forall x: Assignment, y: Assignment ensures ByPlace(x, y) || ByPlace(y, x) {
      TextOrders(x.cluster, y.cluster, y.cluster);
      TextOrders(x.sku, y.sku, y.sku);
    }
    forall x: Assignment, y: Assignment, z: Assignment | ByPlace(x, y) && ByPlace(y, z) ensures ByPlace(x, z) {
      TextOrders(x.cluster, y.cluster, z.cluster);
      TextOrders(x.sku, y.sku, z.sku);
    }
  }

  /** The rows of a candidate stand by cluster and SKU. */
  lemma RowsByPlace(scope: seq<InputLine>, m: Method, seller: Option<nat>, point: Option<nat>, clusters: seq<string>, i: nat, j: nat)
    requires AllAssignable(GroupLines(scope, clusters)) && i < j < |Build(scope, m, seller, point, clusters).assignments|
    ensures var rows := Build(scope, m, seller, point, clusters).assignments;
      TextThen(rows[i].cluster, rows[j].cluster, TextLe(rows[i].sku, rows[j].sku))
  {
    ByPlaceIsTotal();
    SortKeeps(AssignAll(GroupLines(scope, clusters)), ByPlace);
  }
}
