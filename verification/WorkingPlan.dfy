/** User quantities over an immutable shippable plan (backend/working_plan.py): scarce stock of a
    SKU is given out in whole packs, manual quantities first, chosen Ozon rows next. */
module WorkingPlan {
  import opened Wrappers
  import opened Text
  import opened Sequences
  import opened StableSort

  datatype Key = Key(sku: string, cluster: string)

  datatype CapacityKind = Finite | Zero | UnknownCapacity | Unlimited

  datatype Line = Line(
    key: Key, analytical: Option<nat>, rank: Option<nat>, pack: Option<nat>, stock: Option<nat>,
    shippable: Option<nat>, unitVolume: Option<real>, zoned: bool, physical: bool,
    capacityKind: CapacityKind, capacity: Option<nat>)

  datatype Override = Override(quantity: nat, base: Option<nat>)

  // ---- what Ozon recommends, and what the analysis knows ----

  /** `current`: fetched at most 24 hours ago, by the clock of the caller. */
  datatype Recommendation = Recommendation(horizon: int, period: string, current: bool, items: map<Key, nat>)

  /** A decision row: whether its confidence is low, whether it carries one of the two stockout
      status codes, and the recommended quantity it was made with. */
  datatype Decision = Decision(lowConfidence: bool, suspicious: bool, recommended: Option<nat>)

  datatype Economics = Economics(key: Key, complete: bool, profit: Option<real>, margin: Option<real>, roi: Option<real>)

  datatype Thresholds = Thresholds(profit: real, margin: real, roi: real)

  datatype Context = Context(
    fromApi: bool, horizon: int, recommendation: Option<Recommendation>, decisions: map<Key, Decision>,
    economics: seq<Economics>, thresholds: Option<Thresholds>)

  /** `supply_period_for_days` (backend/ozon/adapters/local_sale.py) */
  function SupplyPeriod(days: int): Option<string> {
    match days
    case 7 => Some("ONE_WEEK")
    case 14 => Some("TWO_WEEKS")
    case 28 => Some("FOUR_WEEKS")
    case 56 => Some("EIGHT_WEEKS")
    case _ => None
  }

  function Recommended(ctx: Context): map<Key, nat> {
    if ctx.recommendation.Some? then ctx.recommendation.value.items else map[]
  }

  /** The first row of economics that is about the line. */
  function EconomicsOf(rows: seq<Economics>, key: Key): (r: Option<Economics>)
    ensures r.Some? <==> exists e <- rows :: e.key == key
    ensures r.Some? ==> r.value in rows && r.value.key == key
  {
    if |rows| == 0 then None
    else
      HeadTail(rows);
      if rows[0].key == key then Some(rows[0]) else EconomicsOf(rows[1..], key)
  }

  // ---- the plan's own contract (backend/supply/contracts.py) ----

  predicate ValidLine(l: Line) {
    && (l.rank.Some? ==> 0 < l.rank.value)
    && (l.pack.Some? ==> 0 < l.pack.value)
    && (l.analytical.None? ==> l.shippable.None?)
    && (l.analytical == Some(0) ==> l.shippable == Some(0))
    && (l.analytical.Some? && 0 < l.analytical.value && l.pack.None? ==> l.shippable.None?)
    && (l.shippable.Some? && 0 < l.shippable.value ==> l.pack.Some? && l.shippable.value % l.pack.value == 0)
    && (l.unitVolume.Some? ==> 0.0 < l.unitVolume.value)
    && (l.capacityKind.Zero? ==> l.capacity.None? || l.capacity.value == 0)
    && (l.capacityKind.UnknownCapacity? || l.capacityKind.Unlimited? ==> l.capacity.None?)
  }

  predicate DistinctKeys(lines: seq<Line>) {
    forall i, j :: 0 <= i < j < |lines| ==> lines[i].key != lines[j].key
  }

  predicate ValidPlan(lines: seq<Line>) {
    && (forall l <- lines :: ValidLine(l))
    && DistinctKeys(lines)
    && (forall a <- lines, b <- lines :: a.key.sku == b.key.sku ==> a.stock == b.stock)
  }

  /** Capacities are whole packs; the plan's contract does not say so. */
  predicate WholePackCapacities(lines: seq<Line>) {
    forall l <- lines :: l.capacity.Some? && l.pack.Some? && 0 < l.pack.value ==> l.capacity.value % l.pack.value == 0
  }

  /** Why the economics of a line forbid choosing it. */
  function EconomicsReason(e: Option<Economics>, th: Option<Thresholds>): (r: Option<string>)
    ensures r.None? <==> e.Some? && Profitable(e.value, th)
  {
    if e.None? || !e.value.complete || e.value.profit.None? then Some("PRODUCT_ECONOMICS_INCOMPLETE")
    else if e.value.profit.value <= 0.0 then Some("PRODUCT_ECONOMICS_BLOCKED")
    else if th.Some? && (
      e.value.profit.value < th.value.profit
      || e.value.margin.None? || e.value.margin.value < th.value.margin
      || e.value.roi.None? || e.value.roi.value < th.value.roi) then Some("PRODUCT_ECONOMICS_BLOCKED")
    else None
  }

  /** Complete economics with a profit that meets every threshold there is. */
  predicate Profitable(e: Economics, th: Option<Thresholds>) {
    && e.complete && e.profit.Some? && 0.0 < e.profit.value
    && (th.Some? ==>
         && th.value.profit <= e.profit.value
         && e.margin.Some? && th.value.margin <= e.margin.value
         && e.roi.Some? && th.value.roi <= e.roi.value)
  }

  /** A current recommendation for the plan's own horizon, made on the quantity that the decision
      row was shown, and a decision row that calls the model's own need into question. */
  predicate Trusted(ctx: Context, key: Key) {
    && ctx.fromApi && ctx.recommendation.Some?
    && var rec := ctx.recommendation.value;
      && rec.horizon == ctx.horizon && rec.current
      && (ctx.horizon, rec.period) in {(7, "ONE_WEEK"), (14, "TWO_WEEKS"), (28, "FOUR_WEEKS"), (56, "EIGHT_WEEKS")}
      && key in ctx.decisions && key in rec.items
      && (ctx.decisions[key].lowConfidence || ctx.decisions[key].suspicious)
      && ctx.decisions[key].recommended == Some(rec.items[key])
  }

  /** The line can be shipped at all, and takes the quantity. */
  predicate Takes(l: Line, quantity: nat) {
    && l.stock.Some? && l.pack.Some? && 0 < l.pack.value
    && l.unitVolume.Some? && 0.0 < l.unitVolume.value && l.zoned && l.physical
    && (0 < quantity ==> !l.capacityKind.Zero?)
  }

  /** Why a line's Ozon quantity may not be chosen (`ozon_choice_reason`): nothing speaks against it
      exactly when recommendation, line and economics all allow it. */
  function ChoiceReason(l: Line, ctx: Context): (r: Option<string>)
    ensures r.None? <==>
      && Trusted(ctx, l.key) && Takes(l, Recommended(ctx)[l.key])
      && var e := EconomicsOf(ctx.economics, l.key); e.Some? && Profitable(e.value, ctx.thresholds)
  {
    if !ctx.fromApi then Some("OZON_ONLY_API")
    else if ctx.recommendation.None? then Some("OZON_RECOMMENDATION_MISSING")
    else if ctx.recommendation.value.horizon != ctx.horizon || Some(ctx.recommendation.value.period) != SupplyPeriod(ctx.horizon) then
      Some("UNSUPPORTED_OZON_PERIOD")
    else if !ctx.recommendation.value.current then Some("OZON_RECOMMENDATION_STALE")
    else if l.key !in ctx.decisions then Some("OZON_DECISION_ROW_MISSING")
    else if !ctx.decisions[l.key].lowConfidence && !ctx.decisions[l.key].suspicious then Some("DEMAND_CONFIDENCE_SUFFICIENT")
    else if l.key !in Recommended(ctx) || ctx.decisions[l.key].recommended != Some(Recommended(ctx)[l.key]) then
      Some("OZON_RECOMMENDATION_MISSING")
    else if l.stock.None? then Some("SELLER_STOCK_UNCONFIRMED")
    else if l.pack.None? || l.pack.value <= 0 then Some("MISSING_PACK_MULTIPLICITY")
    else if l.unitVolume.None? || l.unitVolume.value <= 0.0 then Some("MISSING_UNIT_VOLUME")
    else if !l.zoned then Some("UNKNOWN_PLACEMENT_ZONE")
    else if !l.physical then Some("PHYSICAL_INPUT_INCOMPLETE")
    else if 0 < Recommended(ctx)[l.key] && l.capacityKind.Zero? then Some("KNOWN_CAPACITY_ZERO")
    else EconomicsReason(EconomicsOf(ctx.economics, l.key), ctx.thresholds)
  }

  /** The user's choices: manual quantities, Ozon quantities, and the rows served from Ozon. */
  datatype Choices = Choices(manual: map<Key, Override>, ozon: map<Key, nat>, selected: set<Key>)

  /** What `materialize_working_plan` knows of the selected rows after dropping stale ones. */
  predicate ValidChoices(lines: seq<Line>, c: Choices) {
    forall k <- c.selected :: k in c.ozon && exists l <- lines :: l.key == k && l.stock.Some? && l.pack.Some?
  }

  // ---- serving one SKU ----

  function RoundUp(quantity: nat, pack: nat): (r: nat)
    requires 0 < pack
    ensures quantity <= r < quantity + pack && r % pack == 0
  {
    var q := (quantity + pack - 1) / pack;
    PackFacts(quantity, pack);
    q * pack
  }

  lemma PackFacts(quantity: nat, pack: nat)
    requires 0 < pack
    ensures var r := ((quantity + pack - 1) / pack) * pack; 0 <= quantity <= r < quantity + pack && r % pack == 0
  {
    var q := (quantity + pack - 1) / pack;
    assert quantity + pack - 1 == q * pack + (quantity + pack - 1) % pack;
    MultipleOfPack(q, pack);
  }

  lemma NoMultipleBetween(d: int, pack: nat)
    requires 0 < pack
    ensures d * pack < pack ==> d * pack <= 0
    ensures 0 <= d ==> 0 <= d * pack
    ensures d < 0 ==> d * pack < 0
  {
    if 1 <= d {
      assert d * pack == pack + (d - 1) * pack;
      assert 0 <= (d - 1) * pack;
    } else {
      assert d * pack <= 0;
    }
  }

  lemma MultipleOfPack(q: nat, pack: nat)
    requires 0 < pack
    ensures 0 <= q * pack && (q * pack) % pack == 0
  {
    var x := q * pack;
    NoMultipleBetween(q, pack);
    assert x == (x / pack) * pack + x % pack;
    var d := q - x / pack;
    assert d * pack == q * pack - (x / pack) * pack == x % pack;
    NoMultipleBetween(d, pack);
  }

  function FloorTo(amount: nat, pack: nat): (r: nat)
    requires 0 < pack
    ensures r <= amount < r + pack && r % pack == 0
  {
    MultipleOfPack(amount / pack, pack);
    (amount / pack) * pack
  }

  /** The quantity a line asks for, None when it is unknown. */
  function Wish(l: Line, c: Choices): Option<nat>
    requires l.key in c.selected ==> l.key in c.ozon
    requires ValidLine(l)
  {
    if l.key in c.selected then
      Some(if l.pack.Some? then RoundUp(c.ozon[l.key], l.pack.value) else c.ozon[l.key])
    else l.shippable
  }

  /** What a line gets of the remaining stock. */
  function Grant(l: Line, wish: nat, remaining: nat): nat
    requires ValidLine(l)
  {
    Min(if l.capacity.Some? then Min(wish, l.capacity.value) else wish,
        if l.pack.Some? then FloorTo(remaining, l.pack.value) else remaining)
  }

  predicate Servable(lines: seq<Line>, c: Choices) {
    forall l <- lines :: ValidLine(l) && (l.key in c.selected ==> l.key in c.ozon)
  }

  /** One turn of the serving loop: the quantity of a line … */
  function Give(l: Line, c: Choices, remaining: nat): Option<nat>
    requires ValidLine(l) && (l.key in c.selected ==> l.key in c.ozon)
  {
    if l.key in c.manual then Some(c.manual[l.key].quantity)
    else
      var wish := Wish(l, c);
      if wish.None? then None else Some(Grant(l, wish.value, remaining))
  }

  /** … and the stock it leaves. */
  function Left(l: Line, c: Choices, remaining: nat): (r: nat)
    requires ValidLine(l) && (l.key in c.selected ==> l.key in c.ozon)
    ensures r <= remaining
  {
    if l.key in c.manual || Wish(l, c).None? then remaining
    else GrantFits(l, Wish(l, c).value, remaining); remaining - Grant(l, Wish(l, c).value, remaining)
  }

  function Serve(lines: seq<Line>, c: Choices, remaining: nat): (qs: seq<Option<nat>>)
    requires Servable(lines, c)
    ensures |qs| == |lines|
  {
    if |lines| == 0 then []
    else [Give(lines[0], c, remaining)] + Serve(lines[1..], c, Left(lines[0], c, remaining))
  }

  lemma GrantFits(l: Line, wish: nat, remaining: nat)
    requires ValidLine(l)
    ensures Grant(l, wish, remaining) <= remaining
  {
  }

  // ---- the best vector ----

  function SumQty(qs: seq<Option<nat>>): nat {
    if |qs| == 0 then 0 else Or(qs[0], 0) + SumQty(qs[1..])
  }

  /** What the lines without a manual quantity get together. */
  function Served(lines: seq<Line>, c: Choices, qs: seq<Option<nat>>): nat
    requires |qs| == |lines|
  {
    if |lines| == 0 then 0
    else (if lines[0].key in c.manual then 0 else Or(qs[0], 0)) + Served(lines[1..], c, qs[1..])
  }

  /** A line's quantity is its manual one, or whole packs within the capacity: for a chosen row less
      than one pack beyond Ozon's quantity, for any other at most what the plan ships, and unknown
      where that is. */
  predicate Fits(l: Line, c: Choices, q: Option<nat>)
    requires ValidLine(l) && (l.key in c.selected ==> l.key in c.ozon)
  {
    if l.key in c.manual then q == Some(c.manual[l.key].quantity)
    else if l.key !in c.selected && l.shippable.None? then q.None?
    else
      && q.Some?
      && (if l.key in c.selected then q.value < c.ozon[l.key] + (if l.pack.Some? then l.pack.value else 1)
          else q.value <= l.shippable.value)
      && (l.capacity.Some? ==> q.value <= l.capacity.value)
      && (l.pack.Some? ==> q.value % l.pack.value == 0)
  }

  lemma NoPackBetween(x: int, y: int, pack: nat)
    requires 0 < pack && x % pack == 0 && y % pack == 0 && y < x
    ensures y + pack <= x
  {
    var d := x / pack - y / pack;
    assert x - y == d * pack;
    NoMultipleBetween(d, pack);
    NoMultipleBetween(d - 1, pack);
    assert (d - 1) * pack == d * pack - pack;
  }

  lemma FitsWithinWish(l: Line, c: Choices, q: Option<nat>)
    requires ValidLine(l) && (l.key in c.selected ==> l.key in c.ozon) && l.key !in c.manual && Fits(l, c, q)
    ensures Wish(l, c).None? <==> q.None?
    ensures q.Some? ==> q.value <= Wish(l, c).value
  {
    if l.key in c.selected && l.pack.Some? && Wish(l, c).value < q.value {
      NoPackBetween(q.value, Wish(l, c).value, l.pack.value);
    }
  }

  ghost predicate Feasible(lines: seq<Line>, c: Choices, qs: seq<Option<nat>>, budget: nat)
    requires Servable(lines, c)
  {
    && |qs| == |lines|
    && (forall i :: 0 <= i < |lines| ==> Fits(lines[i], c, qs[i]))
    && Served(lines, c, qs) <= budget
  }

  /** At the first line where the vectors differ, the second gives more. */
  predicate LexLe(a: seq<Option<nat>>, b: seq<Option<nat>>)
    requires |a| == |b|
  {
    |a| == 0 || Or(a[0], 0) < Or(b[0], 0) || (a[0] == b[0] && LexLe(a[1..], b[1..]))
  }

  lemma WholePackBelow(x: nat, amount: nat, pack: nat)
    requires 0 < pack && x % pack == 0 && x <= amount
    ensures x <= FloorTo(amount, pack)
  {
    var f := FloorTo(amount, pack);
    assert f == (f / pack) * pack && x == (x / pack) * pack;
    var d := x / pack - f / pack;
    assert x - f == d * pack;
    NoMultipleBetween(d, pack);
  }

  lemma WishIsWholePacks(l: Line, c: Choices)
    requires ValidLine(l) && (l.key in c.selected ==> l.key in c.ozon)
    requires l.pack.Some? && Wish(l, c).Some?
    ensures Wish(l, c).value % l.pack.value == 0
  {
  }

  /** A served line gets whole packs whenever its capacity is whole packs. */
  lemma GrantIsWholePacks(l: Line, c: Choices, remaining: nat)
    requires ValidLine(l) && (l.key in c.selected ==> l.key in c.ozon)
    requires Wish(l, c).Some? && (l.capacity.Some? && l.pack.Some? ==> l.capacity.value % l.pack.value == 0)
    ensures l.pack.Some? ==> Grant(l, Wish(l, c).value, remaining) % l.pack.value == 0
  {
    if l.pack.Some? {
      WishIsWholePacks(l, c);
    }
  }

  lemma GiveFits(l: Line, c: Choices, remaining: nat)
    requires ValidLine(l) && (l.key in c.selected ==> l.key in c.ozon)
    requires l.capacity.Some? && l.pack.Some? ==> l.capacity.value % l.pack.value == 0
    ensures Fits(l, c, Give(l, c, remaining))
  {
    if l.key !in c.manual && Wish(l, c).Some? {
      GrantIsWholePacks(l, c, remaining);
      GrantFits(l, Wish(l, c).value, remaining);
    }
  }

  lemma GiveLeaves(l: Line, c: Choices, remaining: nat)
    requires ValidLine(l) && (l.key in c.selected ==> l.key in c.ozon)
    ensures (if l.key in c.manual then 0 else Or(Give(l, c, remaining), 0)) + Left(l, c, remaining) == remaining
  {
    if l.key !in c.manual && Wish(l, c).Some? {
      GrantFits(l, Wish(l, c).value, remaining);
    }
  }

  lemma FeasibleCons(lines: seq<Line>, c: Choices, q: Option<nat>, rest: seq<Option<nat>>, budget: nat, left: nat)
    requires |lines| > 0 && Servable(lines, c) && Servable(lines[1..], c) && Feasible(lines[1..], c, rest, left)
    requires ValidLine(lines[0]) && Fits(lines[0], c, q)
    requires (if lines[0].key in c.manual then 0 else Or(q, 0)) + left == budget
    ensures Feasible(lines, c, [q] + rest, budget)
  {
    var qs := [q] + rest;
    assert qs[1..] == rest;
    forall i | 0 <= i < |lines| ensures Fits(lines[i], c, qs[i]) {
      if i > 0 {
        assert qs[i] == rest[i - 1] && lines[i] == lines[1..][i - 1];
      }
    }
  }

  /** Serving is feasible. */
  lemma {:induction false} ServeIsFeasible(lines: seq<Line>, c: Choices, budget: nat)
    requires Servable(lines, c) && WholePackCapacities(lines)
    ensures Feasible(lines, c, Serve(lines, c, budget), budget)
  {
    if |lines| > 0 {
      var l := lines[0];
      assert l in lines;
      var left := Left(l, c, budget);
      ServeIsFeasible(lines[1..], c, left);
      GiveFits(l, c, budget);
      GiveLeaves(l, c, budget);
      FeasibleCons(lines, c, Give(l, c, budget), Serve(lines[1..], c, left), budget, left);
    }
  }

  lemma GrantIsMost(l: Line, c: Choices, remaining: nat, q: nat)
    requires ValidLine(l) && (l.key in c.selected ==> l.key in c.ozon) && l.key !in c.manual
    requires Fits(l, c, Some(q)) && q <= remaining
    ensures Wish(l, c).Some? && q <= Grant(l, Wish(l, c).value, remaining)
  {
    FitsWithinWish(l, c, Some(q));
    if l.pack.Some? {
      WholePackBelow(q, remaining, l.pack.value);
    }
  }

  lemma FeasibleTail(lines: seq<Line>, c: Choices, qs: seq<Option<nat>>, budget: nat)
    requires |lines| > 0 && Servable(lines, c) && Feasible(lines, c, qs, budget)
    ensures ValidLine(lines[0]) && (lines[0].key in c.selected ==> lines[0].key in c.ozon) && Servable(lines[1..], c)
    ensures Fits(lines[0], c, qs[0])
    ensures var first := if lines[0].key in c.manual then 0 else Or(qs[0], 0);
      first <= budget && Feasible(lines[1..], c, qs[1..], budget - first)
  {
    assert lines[0] in lines && Fits(lines[0], c, qs[0]);
    forall i | 0 <= i < |lines| - 1 ensures lines[1..][i] in lines && Fits(lines[1..][i], c, qs[1..][i]) {
      assert Fits(lines[i + 1], c, qs[i + 1]);
    }
  }

  /** No feasible vector gives an earlier line more: scarce stock goes to the lines in their
      serving order. */
  lemma {:induction false} ServeIsGreatest(lines: seq<Line>, c: Choices, budget: nat, qs: seq<Option<nat>>)
    requires Servable(lines, c) && WholePackCapacities(lines) && Feasible(lines, c, qs, budget)
    ensures LexLe(qs, Serve(lines, c, budget))
  {
    if |lines| > 0 {
      var l := lines[0];
      FeasibleTail(lines, c, qs, budget);
      GiveLeaves(l, c, budget);
      if l.key !in c.manual {
        FitsWithinWish(l, c, qs[0]);
        if qs[0].Some? {
          GrantIsMost(l, c, budget, qs[0].value);
        }
      }
      if qs[0] == Give(l, c, budget) {
        ServeIsGreatest(lines[1..], c, Left(l, c, budget), qs[1..]);
      }
    }
  }

  // ---- manual quantities and the stock of a SKU ----

  function ManualSum(lines: seq<Line>, c: Choices): nat {
    if |lines| == 0 then 0
    else (if lines[0].key in c.manual then c.manual[lines[0].key].quantity else 0) + ManualSum(lines[1..], c)
  }

  function Budget(lines: seq<Line>, c: Choices): nat {
    if |lines| == 0 then 0
    else
      var stock, committed := Or(lines[0].stock, 0), ManualSum(lines, c);
      if committed < stock then stock - committed else 0
  }

  lemma {:induction false} ServeWithinBudget(lines: seq<Line>, c: Choices, budget: nat)
    requires Servable(lines, c)
    ensures Served(lines, c, Serve(lines, c, budget)) <= budget
    ensures SumQty(Serve(lines, c, budget)) == ManualSum(lines, c) + Served(lines, c, Serve(lines, c, budget))
  {
    if |lines| > 0 {
      var l, rest := lines[0], lines[1..];
      assert l in lines;
      if l.key !in c.manual && Wish(l, c).Some? {
        GrantFits(l, Wish(l, c).value, budget);
        ServeWithinBudget(rest, c, budget - Grant(l, Wish(l, c).value, budget));
      } else {
        ServeWithinBudget(rest, c, budget);
      }
    }
  }

  /** The served quantities exceed the stock exactly when the manual quantities alone do. */
  lemma OnlyManualExceeds(lines: seq<Line>, c: Choices)
    requires Servable(lines, c) && |lines| > 0 && lines[0].stock.Some?
    ensures var stock := lines[0].stock.value;
      stock < SumQty(Serve(lines, c, Budget(lines, c))) <==> stock < ManualSum(lines, c)
  {
    ServeWithinBudget(lines, c, Budget(lines, c));
  }

  // ---- the quantities of a whole plan ----

  function LinesOf(lines: seq<Line>, sku: string): (r: seq<Line>)
    ensures forall l :: l in r <==> l in lines && l.key.sku == sku
    ensures DistinctKeys(lines) ==> DistinctKeys(r)
  {
    if |lines| == 0 then []
    else
      var rest := LinesOf(lines[1..], sku);
      HeadTail(lines);
      assert DistinctKeys(lines) ==> DistinctKeys(lines[1..]);
      if lines[0].key.sku == sku then [lines[0]] + rest else rest
  }

  const NO_RANK := 1_000_000_000

  function RankOf(l: Line): nat {
    if l.rank.Some? then l.rank.value else NO_RANK
  }

  /** Chosen rows first, then the model's rank, then the cluster. */
  predicate Precedes(c: Choices, a: Line, b: Line) {
    if (a.key in c.selected) != (b.key in c.selected) then a.key in c.selected
    else if RankOf(a) != RankOf(b) then RankOf(a) < RankOf(b)
    else TextLe(a.key.cluster, b.key.cluster)
  }

  function ServingOrder(c: Choices): (Line, Line) -> bool {
    (a, b) => Precedes(c, a, b)
  }

  lemma ServingOrderIsTotal(c: Choices)
    ensures TotalPreorder(ServingOrder(c))
  {
    forall x: Line, y: Line ensures Precedes(c, x, y) || Precedes(c, y, x) {
      TextLeTotal(x.key.cluster, y.key.cluster);
    }
    forall x: Line, y: Line, z: Line | Precedes(c, x, y) && Precedes(c, y, z) ensures Precedes(c, x, z) {
      PrecedesTransitive(c, x, y, z);
    }
  }

  lemma PrecedesTransitive(c: Choices, x: Line, y: Line, z: Line)
    requires Precedes(c, x, y) && Precedes(c, y, z)
    ensures Precedes(c, x, z)
  {
    if TextLe(x.key.cluster, y.key.cluster) && TextLe(y.key.cluster, z.key.cluster) {
      TextLeTransitive(x.key.cluster, y.key.cluster, z.key.cluster);
    }
  }

  /** The lines of a SKU in the order in which they are served. */
  function Queue(lines: seq<Line>, c: Choices, sku: string): seq<Line> {
    Sort(LinesOf(lines, sku), ServingOrder(c))
  }

  function SelectedSkus(c: Choices): set<string> {
    set k <- c.selected :: k.sku
  }

  function PositionOf(lines: seq<Line>, key: Key): (i: nat)
    ensures i <= |lines|
    ensures i < |lines| ==> lines[i].key == key
    ensures i == |lines| ==> forall l <- lines :: l.key != key
  {
    if |lines| == 0 then 0
    else if lines[0].key == key then 0
    else
      HeadTail(lines);
      1 + PositionOf(lines[1..], key)
  }

  lemma QueueKeeps(lines: seq<Line>, c: Choices, sku: string)
    ensures forall l :: l in Queue(lines, c, sku) <==> l in lines && l.key.sku == sku
    ensures multiset(Queue(lines, c, sku)) == multiset(LinesOf(lines, sku))
    ensures Sorted(Queue(lines, c, sku), ServingOrder(c))
  {
    ServingOrderIsTotal(c);
    SortKeeps(LinesOf(lines, sku), ServingOrder(c));
    SortElements(LinesOf(lines, sku), ServingOrder(c));
  }

  predicate ValidInput(lines: seq<Line>, c: Choices) {
    ValidPlan(lines) && ValidChoices(lines, c)
  }

  lemma QueueIsServable(lines: seq<Line>, c: Choices, sku: string)
    requires ValidInput(lines, c)
    ensures Servable(Queue(lines, c, sku), c)
  {
    QueueKeeps(lines, c, sku);
  }

  function Quantities(lines: seq<Line>, c: Choices, sku: string): (qs: seq<Option<nat>>)
    requires ValidInput(lines, c)
    ensures |qs| == |Queue(lines, c, sku)|
  {
    QueueIsServable(lines, c, sku);
    var queue := Queue(lines, c, sku);
    Serve(queue, c, Budget(queue, c))
  }

  /** The working quantity of a line of the plan. */
  function Working(lines: seq<Line>, c: Choices, l: Line): Option<nat>
    requires ValidInput(lines, c)
  {
    if l.key.sku in SelectedSkus(c) then
      var queue := Queue(lines, c, l.key.sku);
      var i := PositionOf(queue, l.key);
      if i < |queue| then Quantities(lines, c, l.key.sku)[i] else None
    else if l.key in c.manual then Some(c.manual[l.key].quantity)
    else l.shippable
  }

  function SumWorking(some: seq<Line>, lines: seq<Line>, c: Choices): nat
    requires ValidInput(lines, c)
  {
    if |some| == 0 then 0 else Or(Working(lines, c, some[0]), 0) + SumWorking(some[1..], lines, c)
  }

  function Total(lines: seq<Line>, c: Choices, sku: string): nat
    requires ValidInput(lines, c)
  {
    SumWorking(LinesOf(lines, sku), lines, c)
  }

  lemma {:induction false} SumWorkingInsert(x: Line, some: seq<Line>, lines: seq<Line>, c: Choices)
    requires ValidInput(lines, c)
    ensures SumWorking(Insert(x, some, ServingOrder(c)), lines, c) == Or(Working(lines, c, x), 0) + SumWorking(some, lines, c)
  {
    if |some| == 0 || ServingOrder(c)(x, some[0]) {
      assert ([x] + some)[1..] == some;
    } else {
      SumWorkingInsert(x, some[1..], lines, c);
      assert ([some[0]] + Insert(x, some[1..], ServingOrder(c)))[1..] == Insert(x, some[1..], ServingOrder(c));
    }
  }

  lemma {:induction false} SumWorkingSort(some: seq<Line>, lines: seq<Line>, c: Choices)
    requires ValidInput(lines, c)
    ensures SumWorking(Sort(some, ServingOrder(c)), lines, c) == SumWorking(some, lines, c)
  {
    if |some| > 0 {
      SumWorkingSort(some[1..], lines, c);
      SumWorkingInsert(some[0], Sort(some[1..], ServingOrder(c)), lines, c);
    }
  }

  lemma {:induction false} SumWorkingIsSum(some: seq<Line>, qs: seq<Option<nat>>, lines: seq<Line>, c: Choices)
    requires ValidInput(lines, c) && |some| == |qs|
    requires forall i :: 0 <= i < |some| ==> Working(lines, c, some[i]) == qs[i]
    ensures SumWorking(some, lines, c) == SumQty(qs)
  {
    if |some| > 0 {
      SumWorkingIsSum(some[1..], qs[1..], lines, c);
    }
  }

  lemma DistinctByMultiset(a: seq<Line>, b: seq<Line>)
    requires DistinctKeys(a) && multiset(a) == multiset(b)
    ensures DistinctKeys(b)
  {
    NoDupAmong(a, b);
    forall i, j | 0 <= i < j < |b| ensures b[i].key != b[j].key {
      assert b[i] in multiset(a) && b[j] in multiset(a);
    }
  }

  lemma QueuePositions(lines: seq<Line>, c: Choices, sku: string, i: nat)
    requires ValidInput(lines, c) && sku in SelectedSkus(c) && i < |Queue(lines, c, sku)|
    ensures Working(lines, c, Queue(lines, c, sku)[i]) == Quantities(lines, c, sku)[i]
  {
    QueueKeeps(lines, c, sku);
    var queue := Queue(lines, c, sku);
    DistinctByMultiset(LinesOf(lines, sku), queue);
    assert queue[i] in queue;
    var k := PositionOf(queue, queue[i].key);
    assert k == i;
  }

  /** The plan's total of a chosen SKU is what serving its queue gives out. */
  lemma TotalIsServed(lines: seq<Line>, c: Choices, sku: string)
    requires ValidInput(lines, c) && sku in SelectedSkus(c)
    ensures Total(lines, c, sku) == SumQty(Quantities(lines, c, sku))
  {
    var queue := Queue(lines, c, sku);
    forall i | 0 <= i < |queue| ensures Working(lines, c, queue[i]) == Quantities(lines, c, sku)[i] {
      QueuePositions(lines, c, sku, i);
    }
    SumWorkingIsSum(queue, Quantities(lines, c, sku), lines, c);
    SumWorkingSort(LinesOf(lines, sku), lines, c);
  }

  // ---- reasons and status of a line ----

  datatype Reason =
    | WorkingQtyUnknown | PositiveQtyWithoutPack | NotPackMultiple | KnownCapacityExceeded
    | ManualWithoutRecommendation | NeedsOzonValidation | StockUnconfirmed | RecommendationChanged
    | OzonQtyLimited | OzonSelected | StockExceeded

  datatype Status = Ready | Attention | Blocked

  datatype WorkingLine = WorkingLine(
    line: Line, working: Option<nat>, overridden: bool, changed: bool, selected: bool,
    totalVolume: Option<real>, reasons: set<Reason>, status: Status)

  /** When a reason is noted on a line. */
  predicate Noted(r: Reason, l: Line, c: Choices, working: Option<nat>, exceeded: bool)
    requires ValidLine(l) && (l.key in c.selected ==> l.key in c.ozon && l.pack.Some?)
  {
    var override := l.key in c.manual;
    var positive := working.Some? && 0 < working.value;
    match r
    case WorkingQtyUnknown => working.None?
    case PositiveQtyWithoutPack =>
      l.pack.None? && (positive || (working.None? && l.analytical.Some? && 0 < l.analytical.value))
    case NotPackMultiple => positive && l.pack.Some? && working.value % l.pack.value != 0
    case KnownCapacityExceeded =>
      positive && (l.capacityKind.Finite? || l.capacityKind.Zero?)
      && (l.capacity.None? || l.capacity.value < working.value)
    case ManualWithoutRecommendation => override && positive && l.shippable.None?
    case NeedsOzonValidation =>
      positive && ((override && (l.shippable.None? || l.capacityKind.UnknownCapacity?)) || l.stock.None?)
    case StockUnconfirmed => positive && l.stock.None?
    case RecommendationChanged => override && c.manual[l.key].base != l.shippable
    case OzonQtyLimited => l.key in c.selected && Or(working, 0) < RoundUp(c.ozon[l.key], l.pack.value)
    case OzonSelected => l.key in c.selected
    case StockExceeded => exceeded
  }

  function StatusOf(reasons: set<Reason>, chosen: bool): Status {
    if reasons * {NotPackMultiple, PositiveQtyWithoutPack, KnownCapacityExceeded, StockExceeded} != {} then Blocked
    else if chosen || reasons != {} then Attention
    else Ready
  }

  predicate Exceeds(total: nat, stock: Option<nat>) {
    stock.Some? && stock.value < total
  }

  function WorkingLineOf(l: Line, c: Choices, working: Option<nat>, exceeded: bool): WorkingLine
    requires ValidLine(l) && (l.key in c.selected ==> l.key in c.ozon && l.pack.Some?)
  {
    var reasons := set r: Reason | Noted(r, l, c, working, exceeded);
    WorkingLine(l, working, l.key in c.manual, l.key in c.manual && c.manual[l.key].base != l.shippable,
                l.key in c.selected,
                if working.None? || l.unitVolume.None? then None else Some(working.value as real * l.unitVolume.value),
                reasons, StatusOf(reasons, l.key in c.manual || l.key in c.selected))
  }

  /** A line may be shipped: nothing about its quantity is unknown or breaks a physical rule. */
  predicate Shippable(w: WorkingLine, total: nat) {
    && (w.line.stock.Some? ==> total <= w.line.stock.value)
    && (w.working.Some? && 0 < w.working.value ==>
         && w.line.pack.Some? && 0 < w.line.pack.value && w.working.value % w.line.pack.value == 0
         && (w.line.capacityKind.Finite? || w.line.capacityKind.Zero? ==>
              w.line.capacity.Some? && w.working.value <= w.line.capacity.value))
    && (w.working.None? && w.line.analytical.Some? && 0 < w.line.analytical.value ==> w.line.pack.Some?)
  }

  /** A line is BLOCKED exactly when shipping it would break a rule: no pack or broken packs, a
      known capacity or the SKU's known stock exceeded, or a need that cannot be packed. */
  lemma BlockedMeansUnshippable(l: Line, c: Choices, working: Option<nat>, total: nat)
    requires ValidLine(l) && (l.key in c.selected ==> l.key in c.ozon && l.pack.Some?)
    ensures var w := WorkingLineOf(l, c, working, Exceeds(total, l.stock));
      w.status.Blocked? <==> !Shippable(w, total)
  {
    BlockingReasons(WorkingLineOf(l, c, working, Exceeds(total, l.stock)).reasons);
  }

  /** No whole packs within the quantity reach Ozon's. */
  ghost predicate NoPacksReach(quantity: nat, ozon: nat, pack: nat)
    requires 0 < pack
  {
    forall q: nat :: q <= quantity && q % pack == 0 ==> q < ozon
  }

  /** What the reasons that do not block say of the line's quantity. */
  ghost predicate SaysWhy(w: WorkingLine, c: Choices) {
    var l, rs, manual := w.line, w.reasons, w.line.key in c.manual;
    var some := w.working.Some? && w.working.value != 0;
    && (WorkingQtyUnknown in rs <==> w.working == None)
    && (ManualWithoutRecommendation in rs <==> some && manual && l.shippable == None)
    && (NeedsOzonValidation in rs <==> some && (l.stock == None || (manual && (l.shippable == None || l.capacityKind == UnknownCapacity))))
    && (StockUnconfirmed in rs <==> some && l.stock == None)
  }

  /** What they say of the user's choices: Ozon's quantity is limited when no whole packs within the
      working quantity reach it. */
  ghost predicate SaysWhatWasChosen(w: WorkingLine, c: Choices)
    requires w.line.key in c.selected ==> w.line.key in c.ozon && w.line.pack.Some? && 0 < w.line.pack.value
  {
    var l, rs, manual := w.line, w.reasons, w.line.key in c.manual;
    && (RecommendationChanged in rs <==> manual && c.manual[l.key].base != l.shippable)
    && (OzonSelected in rs <==> l.key in c.selected)
    && (OzonQtyLimited in rs <==> l.key in c.selected && NoPacksReach(Or(w.working, 0), c.ozon[l.key], l.pack.value))
    && (w.overridden <==> manual) && (w.changed <==> RecommendationChanged in rs) && (w.selected <==> OzonSelected in rs)
  }

  lemma BelowIsShort(q: nat, up: nat, ozon: nat, pack: nat)
    requires 0 < pack && ozon <= up < ozon + pack && up % pack == 0 && q % pack == 0
    ensures q < up <==> q < ozon
  {
    if q < up {
      NoPackBetween(up, q, pack);
    }
  }

  lemma LimitedMeans(quantity: nat, ozon: nat, pack: nat)
    requires 0 < pack
    ensures quantity < RoundUp(ozon, pack) <==> NoPacksReach(quantity, ozon, pack)
  {
    var up := RoundUp(ozon, pack);
    if quantity < up {
      forall q: nat | q <= quantity && q % pack == 0 ensures q < ozon {
        BelowIsShort(q, up, ozon, pack);
      }
    }
    assert up <= quantity ==> !(up < ozon);
  }

  /** Every line of the plan says why it needs attention... */
  lemma ReasonsMean(l: Line, c: Choices, working: Option<nat>, exceeded: bool)
    requires ValidLine(l) && (l.key in c.selected ==> l.key in c.ozon && l.pack.Some?)
    ensures SaysWhy(WorkingLineOf(l, c, working, exceeded), c)
  {
  }

  /** ...and what was chosen for it. */
  lemma ChoicesAreNoted(l: Line, c: Choices, working: Option<nat>, exceeded: bool)
    requires ValidLine(l) && (l.key in c.selected ==> l.key in c.ozon && l.pack.Some?)
    ensures SaysWhatWasChosen(WorkingLineOf(l, c, working, exceeded), c)
  {
    if l.key in c.selected {
      LimitedMeans(Or(working, 0), c.ozon[l.key], l.pack.value);
    }
  }

  lemma BlockingReasons(rs: set<Reason>)
    ensures rs * {NotPackMultiple, PositiveQtyWithoutPack, KnownCapacityExceeded, StockExceeded} != {} <==>
      NotPackMultiple in rs || PositiveQtyWithoutPack in rs || KnownCapacityExceeded in rs || StockExceeded in rs
  {
    var both := rs * {NotPackMultiple, PositiveQtyWithoutPack, KnownCapacityExceeded, StockExceeded};
    assert forall r :: r in both <==> r in rs && r in {NotPackMultiple, PositiveQtyWithoutPack, KnownCapacityExceeded, StockExceeded};
  }

  // ---- the whole plan ----

  /** The rows that may really be served from Ozon; the rest are stale. */
  function Usable(lines: seq<Line>, ctx: Context, chosen: set<Key>): (u: set<Key>)
    ensures u <= chosen
  {
    set k <- chosen | UsableOn(lines, ctx, k)
  }

  predicate UsableOn(lines: seq<Line>, ctx: Context, k: Key) {
    exists l <- lines :: l.key == k && ChoiceReason(l, ctx).None?
  }

  lemma UsableIsValid(lines: seq<Line>, manual: map<Key, Override>, ctx: Context, chosen: set<Key>)
    ensures ValidChoices(lines, Choices(manual, Recommended(ctx), Usable(lines, ctx, chosen)))
  {
  }

  predicate LineReady(c: Choices, l: Line) {
    ValidLine(l) && (l.key in c.selected ==> l.key in c.ozon && l.pack.Some?)
  }

  lemma LinesAreReady(lines: seq<Line>, c: Choices)
    requires ValidInput(lines, c)
    ensures forall l <- lines :: LineReady(c, l)
  {
  }

  /** `materialize_working_plan`, line by line. */
  ghost predicate IsWorkingPlan(lines: seq<Line>, c: Choices, ws: seq<WorkingLine>)
    requires ValidInput(lines, c)
  {
    LinesAreReady(lines, c);
    |ws| == |lines| &&
    forall i :: 0 <= i < |lines| ==>
      ws[i] == WorkingLineOf(lines[i], c, Working(lines, c, lines[i]), Exceeds(Total(lines, c, lines[i].key.sku), lines[i].stock))
  }

  /** The dictionary `allocated` holds the quantities of a queue, and nothing else. */
  ghost predicate Allocated(granted: map<Key, Option<nat>>, queue: seq<Line>, qs: seq<Option<nat>>)
    requires |qs| == |queue|
  {
    && (forall i :: 0 <= i < |queue| ==> queue[i].key in granted && granted[queue[i].key] == qs[i])
    && (forall k <- granted.Keys :: exists l <- queue :: l.key == k)
  }

  /** The loop that serves the lines of one SKU in order. */
  method ServeQueue(queue: seq<Line>, c: Choices, budget: nat) returns (granted: map<Key, Option<nat>>)
    requires Servable(queue, c) && DistinctKeys(queue)
    ensures Allocated(granted, queue, Serve(queue, c, budget))
  {
    ghost var qs := Serve(queue, c, budget);
    var remaining := budget;
    granted := map[];
    for i := 0 to |queue|
      invariant qs[i..] == Serve(queue[i..], c, remaining)
      invariant Allocated(granted, queue[..i], qs[..i])
    {
      var l := queue[i];
      assert queue[i..][0] == l && queue[i..][1..] == queue[i + 1..];
      assert qs[i..][0] == qs[i] && qs[i..][1..] == qs[i + 1..];
      AllocateNext(granted, queue, qs, i);
      granted := granted[l.key := Give(l, c, remaining)];
      remaining := Left(l, c, remaining);
    }
    TakeAll(queue);
    assert qs[..|queue|] == qs;
  }

  lemma AllocateNext(granted: map<Key, Option<nat>>, queue: seq<Line>, qs: seq<Option<nat>>, i: nat)
    requires |qs| == |queue| && i < |queue| && DistinctKeys(queue) && Allocated(granted, queue[..i], qs[..i])
    ensures Allocated(granted[queue[i].key := qs[i]], queue[..i + 1], qs[..i + 1])
  {
    var next := granted[queue[i].key := qs[i]];
    TakeNext(queue, i);
    forall j | 0 <= j < i + 1 ensures queue[j].key in next && next[queue[j].key] == qs[j] {
      if j < i {
        assert queue[..i][j].key in granted && granted[queue[..i][j].key] == qs[..i][j];
      }
    }
  }

  ghost predicate Grants(granted: map<Key, Option<nat>>, lines: seq<Line>, c: Choices, skus: set<string>)
    requires ValidInput(lines, c)
  {
    && (forall l <- lines :: l.key.sku in skus ==> l.key in granted && granted[l.key] == Working(lines, c, l))
    && (forall k <- granted.Keys :: k.sku in skus)
  }

  method ServeSku(lines: seq<Line>, c: Choices, sku: string) returns (granted: map<Key, Option<nat>>)
    requires ValidInput(lines, c) && sku in SelectedSkus(c)
    ensures Grants(granted, lines, c, {sku})
  {
    var queue := Sort(LinesOf(lines, sku), ServingOrder(c));
    QueueKeeps(lines, c, sku);
    QueueIsServable(lines, c, sku);
    DistinctByMultiset(LinesOf(lines, sku), queue);
    granted := ServeQueue(queue, c, Budget(queue, c));
    QueueGrants(lines, c, sku, granted);
  }

  lemma GrantedAt(lines: seq<Line>, c: Choices, sku: string, granted: map<Key, Option<nat>>, i: nat)
    requires ValidInput(lines, c) && sku in SelectedSkus(c) && i < |Queue(lines, c, sku)|
    requires Allocated(granted, Queue(lines, c, sku), Quantities(lines, c, sku))
    ensures var l := Queue(lines, c, sku)[i]; l.key in granted && granted[l.key] == Working(lines, c, l)
  {
    QueuePositions(lines, c, sku, i);
  }

  /** What serving the queue of a SKU means for its lines. */
  lemma QueueGrants(lines: seq<Line>, c: Choices, sku: string, granted: map<Key, Option<nat>>)
    requires ValidInput(lines, c) && sku in SelectedSkus(c)
    requires Allocated(granted, Queue(lines, c, sku), Quantities(lines, c, sku))
    ensures Grants(granted, lines, c, {sku})
  {
    var queue := Queue(lines, c, sku);
    QueueKeeps(lines, c, sku);
    forall l | l in lines && l.key.sku == sku ensures l.key in granted && granted[l.key] == Working(lines, c, l) {
      var i :| 0 <= i < |queue| && queue[i] == l;
      GrantedAt(lines, c, sku, granted, i);
    }
  }

  method ServeAnother(lines: seq<Line>, c: Choices, served: map<Key, Option<nat>>, ghost done: set<string>, sku: string)
    returns (r: map<Key, Option<nat>>)
    requires ValidInput(lines, c) && Grants(served, lines, c, done) && sku in SelectedSkus(c) && sku !in done
    ensures Grants(r, lines, c, done + {sku})
  {
    var granted := ServeSku(lines, c, sku);
    GrantsJoin(served, granted, lines, c, done, sku);
    r := served + granted;
  }

  lemma GrantsNone(lines: seq<Line>, c: Choices)
    requires ValidInput(lines, c)
    ensures Grants(map[], lines, c, {})
  {
  }

  /** The chosen SKUs are served one after another, in any order. */
  method ServeChosen(lines: seq<Line>, c: Choices) returns (served: map<Key, Option<nat>>)
    requires ValidInput(lines, c)
    ensures Grants(served, lines, c, SelectedSkus(c))
  {
    served := map[];
    var skus := SelectedSkus(c);
    GrantsNone(lines, c);
    while skus != {}
      invariant skus <= SelectedSkus(c)
      invariant Grants(served, lines, c, SelectedSkus(c) - skus)
      decreases |skus|
    {
      var sku :| sku in skus;
      served := ServeAnother(lines, c, served, SelectedSkus(c) - skus, sku);
      assert SelectedSkus(c) - (skus - {sku}) == (SelectedSkus(c) - skus) + {sku};
      skus := skus - {sku};
    }
  }

  lemma GrantsJoin(a: map<Key, Option<nat>>, b: map<Key, Option<nat>>, lines: seq<Line>, c: Choices, skus: set<string>, sku: string)
    requires ValidInput(lines, c) && Grants(a, lines, c, skus) && Grants(b, lines, c, {sku}) && sku !in skus
    ensures Grants(a + b, lines, c, skus + {sku})
  {
  }

  function QuantityOf(l: Line, c: Choices, served: map<Key, Option<nat>>): Option<nat> {
    if l.key.sku in SelectedSkus(c) then (if l.key in served then served[l.key] else None)
    else if l.key in c.manual then Some(c.manual[l.key].quantity)
    else l.shippable
  }

  lemma QuantityIsWorking(lines: seq<Line>, c: Choices, served: map<Key, Option<nat>>, l: Line)
    requires ValidInput(lines, c) && Grants(served, lines, c, SelectedSkus(c)) && l in lines
    ensures QuantityOf(l, c, served) == Working(lines, c, l)
  {
  }

  method WorkingQuantities(lines: seq<Line>, c: Choices) returns (qs: seq<Option<nat>>)
    requires ValidInput(lines, c)
    ensures |qs| == |lines| && forall i :: 0 <= i < |lines| ==> qs[i] == Working(lines, c, lines[i])
  {
    var served := ServeChosen(lines, c);
    qs := seq(|lines|, i requires 0 <= i < |lines| => QuantityOf(lines[i], c, served));
    forall i | 0 <= i < |lines| ensures qs[i] == Working(lines, c, lines[i]) {
      QuantityIsWorking(lines, c, served, lines[i]);
    }
  }

  lemma {:induction false} SumWorkingSnoc(some: seq<Line>, x: Line, lines: seq<Line>, c: Choices)
    requires ValidInput(lines, c)
    ensures SumWorking(some + [x], lines, c) == SumWorking(some, lines, c) + Or(Working(lines, c, x), 0)
  {
    if |some| == 0 {
      assert (some + [x])[1..] == [];
    } else {
      SumWorkingSnoc(some[1..], x, lines, c);
      assert (some + [x])[1..] == some[1..] + [x];
    }
  }

  lemma {:induction false} LinesOfSnoc(some: seq<Line>, x: Line, sku: string)
    ensures LinesOf(some + [x], sku) == LinesOf(some, sku) + if x.key.sku == sku then [x] else []
  {
    if |some| == 0 {
      assert (some + [x])[1..] == [];
    } else {
      LinesOfSnoc(some[1..], x, sku);
      ConcatTail(some, [x]);
      Associative([some[0]], LinesOf(some[1..], sku), if x.key.sku == sku then [x] else []);
    }
  }

  lemma TotalStep(lines: seq<Line>, c: Choices, i: nat, sku: string)
    requires ValidInput(lines, c) && i < |lines|
    ensures SumWorking(LinesOf(lines[..i + 1], sku), lines, c) ==
      SumWorking(LinesOf(lines[..i], sku), lines, c) + if lines[i].key.sku == sku then Or(Working(lines, c, lines[i]), 0) else 0
  {
    TakeNext(lines, i);
    LinesOfSnoc(lines[..i], lines[i], sku);
    if lines[i].key.sku == sku {
      SumWorkingSnoc(LinesOf(lines[..i], sku), lines[i], lines, c);
    } else {
      assert LinesOf(lines[..i], sku) + [] == LinesOf(lines[..i], sku);
    }
  }

  function At(totals: map<string, nat>, sku: string): nat {
    if sku in totals then totals[sku] else 0
  }

  /** `totals` holds the sums of the working quantities over some lines. */
  ghost predicate Totals(totals: map<string, nat>, some: seq<Line>, lines: seq<Line>, c: Choices)
    requires ValidInput(lines, c)
  {
    forall sku: string :: At(totals, sku) == SumWorking(LinesOf(some, sku), lines, c)
  }

  lemma TotalsStep(lines: seq<Line>, c: Choices, i: nat, totals: map<string, nat>, q: Option<nat>)
    requires ValidInput(lines, c) && i < |lines| && q == Working(lines, c, lines[i])
    requires Totals(totals, lines[..i], lines, c)
    ensures Totals(totals[lines[i].key.sku := At(totals, lines[i].key.sku) + Or(q, 0)], lines[..i + 1], lines, c)
  {
    var next := totals[lines[i].key.sku := At(totals, lines[i].key.sku) + Or(q, 0)];
    forall sku: string ensures At(next, sku) == SumWorking(LinesOf(lines[..i + 1], sku), lines, c) {
      TotalStep(lines, c, i, sku);
      assert At(totals, sku) == SumWorking(LinesOf(lines[..i], sku), lines, c);
    }
  }

  lemma NoTotals(lines: seq<Line>, c: Choices)
    requires ValidInput(lines, c)
    ensures Totals(map[], [], lines, c)
  {
  }

  /** The totals of the SKUs, accumulated over the drafts. */
  method SkuTotals(lines: seq<Line>, c: Choices, qs: seq<Option<nat>>) returns (totals: map<string, nat>)
    requires ValidInput(lines, c)
    requires |qs| == |lines| && forall i :: 0 <= i < |lines| ==> qs[i] == Working(lines, c, lines[i])
    ensures Totals(totals, lines, lines, c)
  {
    totals := map[];
    NoTotals(lines, c);
    for i := 0 to |lines|
      invariant Totals(totals, lines[..i], lines, c)
    {
      TotalsStep(lines, c, i, totals, qs[i]);
      totals := totals[lines[i].key.sku := At(totals, lines[i].key.sku) + Or(qs[i], 0)];
    }
    TakeAll(lines);
  }

  function CountOf(ws: seq<WorkingLine>, which: WorkingLine -> bool): nat {
    if |ws| == 0 then 0 else CountOf(ws[..|ws| - 1], which) + if which(ws[|ws| - 1]) then 1 else 0
  }

  lemma {:induction false} CountIsPositive(ws: seq<WorkingLine>, which: WorkingLine -> bool)
    ensures CountOf(ws, which) > 0 <==> exists w <- ws :: which(w)
  {
    if |ws| > 0 {
      CountIsPositive(ws[..|ws| - 1], which);
      InitLast(ws);
    }
  }

  function Having(status: Status): WorkingLine -> bool {
    (w: WorkingLine) => w.status == status
  }

  function Overridden(): WorkingLine -> bool {
    (w: WorkingLine) => w.overridden
  }

  function Active(): WorkingLine -> bool {
    (w: WorkingLine) => w.overridden && w.working != w.line.shippable
  }

  function Selected(): WorkingLine -> bool {
    (w: WorkingLine) => w.selected
  }

  method Count(ws: seq<WorkingLine>, which: WorkingLine -> bool) returns (n: nat)
    ensures n == CountOf(ws, which)
  {
    n := 0;
    for i := 0 to |ws|
      invariant n == CountOf(ws[..i], which)
    {
      TakeTake(ws, i);
      n := n + if which(ws[i]) then 1 else 0;
    }
    TakeAll(ws);
  }

  lemma {:induction false} StatusesAddUp(ws: seq<WorkingLine>)
    ensures CountOf(ws, Having(Ready)) + CountOf(ws, Having(Attention)) + CountOf(ws, Having(Blocked)) == |ws|
  {
    if |ws| > 0 {
      StatusesAddUp(ws[..|ws| - 1]);
    }
  }

  function KeysOf(lines: seq<Line>): set<Key> {
    set l <- lines :: l.key
  }

  lemma LastIsNew(init: seq<Line>, last: Line)
    requires DistinctKeys(init + [last])
    ensures last.key !in KeysOf(init)
  {
    forall l | l in init ensures l.key != last.key {
      var i :| 0 <= i < |init| && init[i] == l;
      assert (init + [last])[i] == l && (init + [last])[|init|] == last;
    }
  }

  lemma KeysSnoc(init: seq<Line>, last: Line, keys: set<Key>)
    requires DistinctKeys(init + [last])
    ensures |KeysOf(init + [last]) * keys| == |KeysOf(init) * keys| + if last.key in keys then 1 else 0
  {
    LastIsNew(init, last);
    KeysWithLast(init, last);
    OneMoreShared(KeysOf(init), last.key, keys);
  }

  lemma KeysWithLast(init: seq<Line>, last: Line)
    ensures KeysOf(init + [last]) == KeysOf(init) + {last.key}
  {
  }

  lemma OneMoreShared(ks: set<Key>, k: Key, keys: set<Key>)
    requires k !in ks
    ensures |(ks + {k}) * keys| == |ks * keys| + if k in keys then 1 else 0
  {
    if k in keys {
      assert (ks + {k}) * keys == (ks * keys) + {k};
    } else {
      assert (ks + {k}) * keys == ks * keys;
    }
  }

  lemma KeysNext(lines: seq<Line>, n: nat, keys: set<Key>)
    requires DistinctKeys(lines) && 0 < n <= |lines|
    ensures |KeysOf(lines[..n]) * keys| == |KeysOf(lines[..n - 1]) * keys| + if lines[n - 1].key in keys then 1 else 0
  {
    TakeNext(lines, n - 1);
    DistinctPrefix(lines, n);
    KeysSnoc(lines[..n - 1], lines[n - 1], keys);
  }

  lemma CountNext(ws: seq<WorkingLine>, which: WorkingLine -> bool, n: nat)
    requires 0 < n <= |ws|
    ensures CountOf(ws[..n], which) == CountOf(ws[..n - 1], which) + if which(ws[n - 1]) then 1 else 0
  {
    TakeTake(ws, n - 1);
  }

  /** Flags that stand for a set of keys are counted once for every line whose key is in the set. */
  lemma {:induction false} FlagsCountKeys(ws: seq<WorkingLine>, lines: seq<Line>, keys: set<Key>, which: WorkingLine -> bool, n: nat)
    requires DistinctKeys(lines) && |ws| == |lines| && n <= |lines|
    requires forall i :: 0 <= i < |lines| ==> (which(ws[i]) <==> lines[i].key in keys)
    ensures CountOf(ws[..n], which) == |KeysOf(lines[..n]) * keys|
  {
    if n == 0 {
      assert KeysOf(lines[..0]) * keys == {};
    } else {
      FlagsCountKeys(ws, lines, keys, which, n - 1);
      KeysNext(lines, n, keys);
      CountNext(ws, which, n);
    }
  }

  lemma DistinctPrefix(lines: seq<Line>, n: nat)
    requires DistinctKeys(lines) && n <= |lines|
    ensures DistinctKeys(lines[..n])
  {
  }

  method BuildLines(lines: seq<Line>, c: Choices) returns (ws: seq<WorkingLine>, totals: map<string, nat>)
    requires ValidInput(lines, c)
    ensures IsWorkingPlan(lines, c, ws) && Totals(totals, lines, lines, c)
  {
    LinesAreReady(lines, c);
    var qs := WorkingQuantities(lines, c);
    totals := SkuTotals(lines, c, qs);
    ws := seq(|lines|, i requires 0 <= i < |lines| && |qs| == |lines| && LineReady(c, lines[i]) =>
      WorkingLineOf(lines[i], c, qs[i], Exceeds(At(totals, lines[i].key.sku), lines[i].stock)));
  }

  datatype Diagnostic = StaleSelection(key: Key) | SkuExceeded(sku: string, excess: nat) | OrphanOverrides(count: nat)

  function SkuDiagnostics(lines: seq<Line>, totals: map<string, nat>): set<Diagnostic> {
    set l <- lines | Exceeds(At(totals, l.key.sku), l.stock) :: SkuExceeded(l.key.sku, At(totals, l.key.sku) - l.stock.value)
  }

  /** What is shown about stale rows, exceeded SKUs and orphaned overrides; their order is left out. */
  function Diagnostics(lines: seq<Line>, stale: set<Key>, totals: map<string, nat>, orphans: nat): set<Diagnostic> {
    (set k <- stale :: StaleSelection(k)) + SkuDiagnostics(lines, totals) + if orphans > 0 then {OrphanOverrides(orphans)} else {}
  }

  datatype Plan = Plan(
    lines: seq<WorkingLine>, diagnostics: set<Diagnostic>, ready: nat, attention: nat, blocked: nat,
    overridden: nat, active: nat, orphans: nat, selected: nat)

  /** `has_active_overrides` */
  predicate HasActiveOverrides(lines: seq<Line>, manual: map<Key, Override>) {
    exists l <- lines :: l.key in manual && Some(manual[l.key].quantity) != l.shippable
  }

  /** The lines of the plan, and what the counts and diagnostics say of them. */
  ghost predicate IsPlan(lines: seq<Line>, c: Choices, chosen: set<Key>, p: Plan)
    requires ValidInput(lines, c)
  {
    && IsWorkingPlan(lines, c, p.lines)
    && p.ready == CountOf(p.lines, Having(Ready)) && p.attention == CountOf(p.lines, Having(Attention))
    && p.blocked == CountOf(p.lines, Having(Blocked))
    && p.overridden == CountOf(p.lines, Overridden()) && p.active == CountOf(p.lines, Active())
    && p.orphans == |c.manual.Keys - KeysOf(lines)| && p.selected == |c.selected|
    && exists totals: map<string, nat> :: Totals(totals, lines, lines, c)
         && p.diagnostics == Diagnostics(lines, chosen - c.selected, totals, p.orphans)
  }

  method Summarize(ws: seq<WorkingLine>, diagnostics: set<Diagnostic>, orphans: nat, selected: nat) returns (p: Plan)
    ensures p.lines == ws && p.diagnostics == diagnostics && p.orphans == orphans && p.selected == selected
    ensures p.ready == CountOf(ws, Having(Ready)) && p.attention == CountOf(ws, Having(Attention)) && p.blocked == CountOf(ws, Having(Blocked))
    ensures p.overridden == CountOf(ws, Overridden()) && p.active == CountOf(ws, Active())
  {
    var ready := Count(ws, Having(Ready));
    var attention := Count(ws, Having(Attention));
    var blocked := Count(ws, Having(Blocked));
    var overridden := Count(ws, Overridden());
    var active := Count(ws, Active());
    p := Plan(ws, diagnostics, ready, attention, blocked, overridden, active, orphans, selected);
  }

  /** `materialize_working_plan`. */
  method Materialize(lines: seq<Line>, manual: map<Key, Override>, ctx: Context, chosen: set<Key>) returns (p: Plan)
    requires ValidPlan(lines)
    ensures var c := Choices(manual, Recommended(ctx), Usable(lines, ctx, chosen));
      ValidInput(lines, c) && IsPlan(lines, c, chosen, p)
  {
    UsableIsValid(lines, manual, ctx, chosen);
    var c := Choices(manual, Recommended(ctx), Usable(lines, ctx, chosen));
    var ws, totals := BuildLines(lines, c);
    var orphans := |manual.Keys - KeysOf(lines)|;
    p := Summarize(ws, Diagnostics(lines, chosen - c.selected, totals, orphans), orphans, |c.selected|);
  }

  // ---- what the plan promises ----

  /** The place of every line in its queue: chosen rows first, then by the model's rank, unranked ones
      as rank 1,000,000,000, then by cluster. */
  ghost predicate InServingOrder(queue: seq<Line>, c: Choices) {
    forall i, j :: 0 <= i < j < |queue| ==> MayPrecede(queue[i], queue[j], c)
  }

  predicate MayPrecede(a: Line, b: Line, c: Choices) {
    var ra := if a.rank.Some? then a.rank.value else 1_000_000_000;
    var rb := if b.rank.Some? then b.rank.value else 1_000_000_000;
    && (b.key in c.selected ==> a.key in c.selected)
    && ((a.key in c.selected <==> b.key in c.selected) ==> ra <= rb && (ra == rb ==> TextLe(a.key.cluster, b.key.cluster)))
  }

  lemma SortedIsInServingOrder(queue: seq<Line>, c: Choices)
    requires Sorted(queue, ServingOrder(c))
    ensures InServingOrder(queue, c)
  {
    forall i, j | 0 <= i < j < |queue| ensures MayPrecede(queue[i], queue[j], c) {
      assert ServingOrder(c)(queue[i], queue[j]);
    }
  }

  /** What the lines before position i take of the stock. */
  function TakenBefore(queue: seq<Line>, c: Choices, qs: seq<Option<nat>>, i: nat): nat
    requires i <= |queue| == |qs|
  {
    Served(queue[..i], c, qs[..i])
  }

  /** A line falls short of a target only because its capacity is used up, or because less than one
      more pack is left of the stock. */
  predicate ShortForCause(l: Line, w: nat, target: nat, left: int) {
    w < target ==> l.capacity == Some(w) || left - w < (if l.pack.Some? then l.pack.value else 1)
  }

  /** A served line: towards Ozon's quantity for a chosen row, rounded up to packs, towards the plan's
      own for any other; never more, and less only for a cause. */
  ghost predicate ServedRight(l: Line, c: Choices, w: Option<nat>, left: int)
    requires l.key in c.selected ==> l.key in c.ozon
  {
    if l.key in c.selected then
      && w.Some? && w.value < c.ozon[l.key] + (if l.pack.Some? then l.pack.value else 1)
      && ShortForCause(l, w.value, c.ozon[l.key], left)
    else if l.shippable.None? then w.None?
    else w.Some? && w.value <= l.shippable.value && ShortForCause(l, w.value, l.shippable.value, left)
  }

  lemma GiveIsRight(l: Line, c: Choices, remaining: nat)
    requires ValidLine(l) && (l.key in c.selected ==> l.key in c.ozon) && l.key !in c.manual
    ensures ServedRight(l, c, Give(l, c, remaining), remaining)
  {
  }

  lemma {:induction false} ServeIsRight(lines: seq<Line>, c: Choices, budget: nat, i: nat)
    requires Servable(lines, c) && i < |lines| && lines[i].key !in c.manual
    ensures lines[i] in lines
    ensures ServedRight(lines[i], c, Serve(lines, c, budget)[i], budget - TakenBefore(lines, c, Serve(lines, c, budget), i))
  {
    var qs := Serve(lines, c, budget);
    assert lines[i] in lines && lines[0] in lines;
    if i == 0 {
      GiveIsRight(lines[0], c, budget);
    } else {
      var rest, left := lines[1..], Left(lines[0], c, budget);
      ServeIsRight(rest, c, left, i - 1);
      GiveLeaves(lines[0], c, budget);
      assert lines[..i][1..] == rest[..i - 1] && qs[..i][1..] == Serve(rest, c, left)[..i - 1];
    }
  }

  /** In the queue of a SKU, what is left for a line is the stock without the manual quantities and
      what the lines before it took. */
  lemma QueueIsServedRight(lines: seq<Line>, c: Choices, sku: string, i: nat)
    requires ValidInput(lines, c) && sku in SelectedSkus(c) && i < |Queue(lines, c, sku)|
    requires Queue(lines, c, sku)[i].key !in c.manual
    ensures var queue, qs := Queue(lines, c, sku), Quantities(lines, c, sku); var l := queue[i];
      && (l.key in c.selected ==> l.key in c.ozon) && queue[0].stock.Some?
      && Working(lines, c, l) == qs[i]
      && ServedRight(l, c, qs[i], queue[0].stock.value - ManualSum(queue, c) - TakenBefore(queue, c, qs, i))
  {
    var queue := Queue(lines, c, sku);
    QueueIsServable(lines, c, sku);
    ServeIsRight(queue, c, Budget(queue, c), i);
    QueuePositions(lines, c, sku, i);
    ChosenSkuHasStock(lines, c, sku);
  }

  /** For a SKU with a chosen row, the non-manual quantities are the greatest whole-pack vector in
      serving order, and the SKU is flagged as exceeding its stock exactly when the manual
      quantities alone exceed it. */
  lemma ChosenSkuIsServedBest(lines: seq<Line>, c: Choices, sku: string, other: seq<Option<nat>>)
    requires ValidInput(lines, c) && sku in SelectedSkus(c) && WholePackCapacities(lines)
    ensures var queue := Queue(lines, c, sku); var budget := Budget(queue, c); var qs := Quantities(lines, c, sku);
      && InServingOrder(queue, c) && multiset(queue) == multiset(LinesOf(lines, sku))
      && Servable(queue, c)
      && Feasible(queue, c, qs, budget)
      && (Feasible(queue, c, other, budget) ==> LexLe(other, qs))
      && |queue| > 0 && queue[0].stock.Some?
      && (Exceeds(Total(lines, c, sku), queue[0].stock) <==> queue[0].stock.value < ManualSum(queue, c))
  {
    var queue := Queue(lines, c, sku);
    QueueKeeps(lines, c, sku);
    SortedIsInServingOrder(queue, c);
    QueueIsServable(lines, c, sku);
    ServeIsFeasible(queue, c, Budget(queue, c));
    if Feasible(queue, c, other, Budget(queue, c)) {
      ServeIsGreatest(queue, c, Budget(queue, c), other);
    }
    ChosenSkuHasStock(lines, c, sku);
    OnlyManualExceeds(queue, c);
    TotalIsServed(lines, c, sku);
  }

  lemma ChosenSkuHasStock(lines: seq<Line>, c: Choices, sku: string)
    requires ValidInput(lines, c) && sku in SelectedSkus(c)
    ensures var queue := Queue(lines, c, sku); |queue| > 0 && queue[0].stock.Some?
  {
    QueueKeeps(lines, c, sku);
    var k :| k in c.selected && k.sku == sku;
    var l :| l in lines && l.key == k && l.stock.Some?;
    assert l in Queue(lines, c, sku);
    assert Queue(lines, c, sku)[0] in lines;
  }

  /** A capacity that is not whole packs can be granted as it is: 12 wanted in packs of 6 with
      room for 7 gives 7, and the line is then blocked for broken packs. */
  lemma CapacityMustBeWholePacks()
    ensures var l := Line(Key("1", "a"), Some(12), Some(1), Some(6), Some(100), Some(12), Some(1.0), true, true, Finite, Some(7));
      var c := Choices(map[], map[Key("1", "a") := 12], {Key("1", "a")});
      && ValidLine(l) && Wish(l, c) == Some(12) && Grant(l, 12, 100) == 7
      && WorkingLineOf(l, c, Some(7), false).status.Blocked?
  {
    var l := Line(Key("1", "a"), Some(12), Some(1), Some(6), Some(100), Some(12), Some(1.0), true, true, Finite, Some(7));
    var c := Choices(map[], map[Key("1", "a") := 12], {Key("1", "a")});
    BlockingReasons(WorkingLineOf(l, c, Some(7), false).reasons);
  }

  /** Exactly when a served line gets whole packs: its wish cut to the capacity is whole packs, or
      the remaining stock is the tighter bound. */
  lemma WholePacksIff(l: Line, c: Choices, remaining: nat)
    requires ValidLine(l) && (l.key in c.selected ==> l.key in c.ozon) && l.pack.Some? && Wish(l, c).Some?
    ensures var cut := if l.capacity.Some? then Min(Wish(l, c).value, l.capacity.value) else Wish(l, c).value;
      Grant(l, Wish(l, c).value, remaining) % l.pack.value == 0 <==>
        cut % l.pack.value == 0 || FloorTo(remaining, l.pack.value) <= cut
  {
  }

  // ---- manual quantities ----

  /** `validate_override_quantity`; None stands for its ValueError. */
  function ValidateOverride(l: Line, quantity: int): (r: Option<nat>)
    ensures r.Some? ==> r.value == quantity
  {
    if quantity < 0 || (quantity > 0 && (l.pack.None? || l.pack.value == 0 || quantity % l.pack.value != 0)) then None
    else Some(quantity)
  }

  lemma {:induction false} ServeKeepsManual(queue: seq<Line>, c: Choices, budget: nat, i: nat)
    requires Servable(queue, c) && i < |queue| && queue[i].key in c.manual
    ensures Serve(queue, c, budget)[i] == Some(c.manual[queue[i].key].quantity)
  {
    if i > 0 {
      ServeKeepsManual(queue[1..], c, Left(queue[0], c, budget), i - 1);
    }
  }

  lemma ManualIsWorking(lines: seq<Line>, c: Choices, l: Line)
    requires ValidInput(lines, c) && l in lines && l.key in c.manual
    ensures Working(lines, c, l) == Some(c.manual[l.key].quantity)
  {
    if l.key.sku in SelectedSkus(c) {
      var queue := Queue(lines, c, l.key.sku);
      QueueKeeps(lines, c, l.key.sku);
      QueueIsServable(lines, c, l.key.sku);
      var i :| 0 <= i < |queue| && queue[i] == l;
      QueuePositions(lines, c, l.key.sku, i);
      ServeKeepsManual(queue, c, Budget(queue, c), i);
    }
  }

  /** A manual quantity is kept as it is, also when the SKU is served from Ozon; one that was
      validated never blocks its line for its packs. */
  lemma ManualQuantityIsKept(lines: seq<Line>, c: Choices, l: Line, exceeded: bool)
    requires ValidInput(lines, c) && l in lines && l.key in c.manual
    requires l.key in c.selected ==> l.key in c.ozon && l.pack.Some?
    ensures Working(lines, c, l) == Some(c.manual[l.key].quantity)
    ensures ValidateOverride(l, c.manual[l.key].quantity).Some? ==>
      && !Noted(NotPackMultiple, l, c, Working(lines, c, l), exceeded)
      && !Noted(PositiveQtyWithoutPack, l, c, Working(lines, c, l), exceeded)
  {
    ManualIsWorking(lines, c, l);
  }

  // ---- what the quantities and the status say ----

  /** A SKU without a chosen row is left alone: its lines keep what the plan ships, or the manual
      quantity. */
  lemma OtherSkusAreUntouched(lines: seq<Line>, c: Choices, l: Line)
    requires ValidInput(lines, c) && l in lines && forall k <- c.selected :: k.sku != l.key.sku
    ensures Working(lines, c, l) == if l.key in c.manual then Some(c.manual[l.key].quantity) else l.shippable
  {
  }

  /** A line is READY exactly when nobody touched it and it can go as it is: its quantity is known, it
      is shippable, and the seller's stock is confirmed for what it takes. */
  lemma NoReasons(l: Line, c: Choices, working: Option<nat>, exceeded: bool)
    requires LineReady(c, l) && l.key !in c.manual && l.key !in c.selected
    ensures var rs := WorkingLineOf(l, c, working, exceeded).reasons;
      rs == {} <==>
        && !(NotPackMultiple in rs) && !(PositiveQtyWithoutPack in rs) && !(KnownCapacityExceeded in rs) && !(StockExceeded in rs)
        && working.Some? && (0 < working.value ==> l.stock.Some?)
  {
    var rs := WorkingLineOf(l, c, working, exceeded).reasons;
    assert forall r: Reason :: r in rs <==> Noted(r, l, c, working, exceeded);
    assert WorkingQtyUnknown in rs <==> working.None?;
    assert StockUnconfirmed in rs <==> working.Some? && 0 < working.value && l.stock.None?;
    if rs != {} {
      var r :| r in rs;
      assert Noted(r, l, c, working, exceeded);
    }
  }

  lemma ReadyMeansUntouched(l: Line, c: Choices, working: Option<nat>, total: nat)
    requires LineReady(c, l)
    ensures var w := WorkingLineOf(l, c, working, Exceeds(total, l.stock));
      w.status.Ready? <==>
        && l.key !in c.manual && l.key !in c.selected && Shippable(w, total)
        && working.Some? && (0 < working.value ==> l.stock.Some?)
  {
    var w := WorkingLineOf(l, c, working, Exceeds(total, l.stock));
    BlockedMeansUnshippable(l, c, working, total);
    BlockingReasons(w.reasons);
    if l.key !in c.manual && l.key !in c.selected {
      NoReasons(l, c, working, Exceeds(total, l.stock));
    }
  }

  // ---- what the counts and diagnostics say ----

  lemma LineFlags(l: Line, c: Choices, working: Option<nat>, exceeded: bool)
    requires LineReady(c, l)
    ensures var w := WorkingLineOf(l, c, working, exceeded);
      && w.line == l && w.working == working && w.overridden == (l.key in c.manual) && w.selected == (l.key in c.selected)
      && (StockExceeded in w.reasons <==> exceeded)
  {
    assert StockExceeded in WorkingLineOf(l, c, working, exceeded).reasons <==> Noted(StockExceeded, l, c, working, exceeded);
  }

  lemma FlagsAreRight(lines: seq<Line>, c: Choices, ws: seq<WorkingLine>, i: nat)
    requires ValidInput(lines, c) && IsWorkingPlan(lines, c, ws) && i < |lines|
    ensures |ws| == |lines|
    ensures ws[i].line == lines[i] && ws[i].working == Working(lines, c, lines[i])
    ensures ws[i].overridden == (lines[i].key in c.manual) && ws[i].selected == (lines[i].key in c.selected)
    ensures StockExceeded in ws[i].reasons <==> Exceeds(Total(lines, c, lines[i].key.sku), lines[i].stock)
  {
    LinesAreReady(lines, c);
    assert lines[i] in lines && LineReady(c, lines[i]);
    LineFlags(lines[i], c, Working(lines, c, lines[i]), Exceeds(Total(lines, c, lines[i].key.sku), lines[i].stock));
  }

  lemma FlagsMeanKeys(lines: seq<Line>, c: Choices, ws: seq<WorkingLine>)
    requires ValidInput(lines, c) && IsWorkingPlan(lines, c, ws)
    ensures |ws| == |lines|
    ensures forall i :: 0 <= i < |lines| ==> (Overridden()(ws[i]) <==> lines[i].key in c.manual.Keys)
    ensures forall i :: 0 <= i < |lines| ==> (Selected()(ws[i]) <==> lines[i].key in c.selected)
  {
    forall i | 0 <= i < |lines|
      ensures |ws| == |lines| && ws[i].overridden == (lines[i].key in c.manual.Keys) && ws[i].selected == (lines[i].key in c.selected) {
      FlagsAreRight(lines, c, ws, i);
    }
    assert |ws| == |lines|;
  }

  lemma FlagCounts(lines: seq<Line>, c: Choices, ws: seq<WorkingLine>)
    requires ValidInput(lines, c) && IsWorkingPlan(lines, c, ws)
    ensures CountOf(ws, Overridden()) == |KeysOf(lines) * c.manual.Keys|
    ensures CountOf(ws, Selected()) == |KeysOf(lines) * c.selected|
  {
    FlagsMeanKeys(lines, c, ws);
    FlagsCountKeys(ws, lines, c.manual.Keys, Overridden(), |lines|);
    FlagsCountKeys(ws, lines, c.selected, Selected(), |lines|);
    TakeAll(lines);
    TakeAll(ws);
  }

  lemma SplitSet<T>(a: set<T>, b: set<T>)
    ensures |b * a| + |a - b| == |a|
  {
    assert a == (b * a) + (a - b);
  }

  lemma SelectedAreLines(lines: seq<Line>, c: Choices, chosen: set<Key>)
    requires ValidInput(lines, c) && c.selected <= chosen
    ensures KeysOf(lines) * c.selected == c.selected && c.selected * chosen == c.selected
  {
  }

  /** No line, override or chosen row is lost in the counts: statuses add up to the lines, overrides
      are on a line or orphaned, chosen rows are selected or stale, and every selected row is a line. */
  lemma CountsAddUp(lines: seq<Line>, c: Choices, chosen: set<Key>, p: Plan)
    requires ValidInput(lines, c) && c.selected <= chosen && IsPlan(lines, c, chosen, p)
    ensures p.ready + p.attention + p.blocked == |lines|
    ensures p.overridden + p.orphans == |c.manual.Keys|
    ensures p.selected + |chosen - c.selected| == |chosen| && p.selected == CountOf(p.lines, Selected())
  {
    StatusesAddUp(p.lines);
    FlagCounts(lines, c, p.lines);
    SplitSet(c.manual.Keys, KeysOf(lines));
    SplitSet(chosen, c.selected);
    SelectedAreLines(lines, c, chosen);
  }

  lemma ActiveAt(lines: seq<Line>, c: Choices, ws: seq<WorkingLine>, i: nat)
    requires ValidInput(lines, c) && IsWorkingPlan(lines, c, ws) && i < |lines|
    ensures |ws| == |lines|
    ensures Active()(ws[i]) <==> lines[i].key in c.manual && Some(c.manual[lines[i].key].quantity) != lines[i].shippable
  {
    FlagsAreRight(lines, c, ws, i);
    if lines[i].key in c.manual {
      ManualIsWorking(lines, c, lines[i]);
    }
  }

  /** The count of active overrides is positive exactly when `has_active_overrides` says so of the
      system plan: serving never changes a manual quantity. */
  lemma ActiveCountIsRight(lines: seq<Line>, c: Choices, ws: seq<WorkingLine>)
    requires ValidInput(lines, c) && IsWorkingPlan(lines, c, ws)
    ensures CountOf(ws, Active()) > 0 <==> HasActiveOverrides(lines, c.manual)
  {
    assert |ws| == |lines|;
    CountIsPositive(ws, Active());
    if HasActiveOverrides(lines, c.manual) {
      var l :| l in lines && l.key in c.manual && Some(c.manual[l.key].quantity) != l.shippable;
      var i :| 0 <= i < |lines| && lines[i] == l;
      ActiveAt(lines, c, ws, i);
      assert ws[i] in ws;
    }
    if w :| w in ws && Active()(w) {
      var i :| 0 <= i < |ws| && ws[i] == w;
      ActiveAt(lines, c, ws, i);
      assert lines[i] in lines;
    }
  }

  /** The diagnostics report a SKU with the amount by which it exceeds its stock. */
  predicate Reports(ds: set<Diagnostic>, sku: string, stock: Option<nat>, total: nat) {
    stock.Some? && stock.value < total && SkuExceeded(sku, total - stock.value) in ds
  }

  lemma OnlyExceededAreReported(lines: seq<Line>, stale: set<Key>, totals: map<string, nat>, orphans: nat, l: Line)
    requires l in lines && forall k <- lines :: k.key.sku == l.key.sku ==> k.stock == l.stock
    ensures var ds := Diagnostics(lines, stale, totals, orphans);
      && (Exceeds(At(totals, l.key.sku), l.stock) ==> Reports(ds, l.key.sku, l.stock, At(totals, l.key.sku)))
      && ((exists d <- ds :: d.SkuExceeded? && d.sku == l.key.sku) ==> Exceeds(At(totals, l.key.sku), l.stock))
  {
    var ds := Diagnostics(lines, stale, totals, orphans);
    if d :| d in ds && d.SkuExceeded? && d.sku == l.key.sku {
      assert d in SkuDiagnostics(lines, totals);
    }
    if Exceeds(At(totals, l.key.sku), l.stock) {
      assert SkuExceeded(l.key.sku, At(totals, l.key.sku) - l.stock.value) in SkuDiagnostics(lines, totals);
    }
  }

  /** A SKU is reported as exceeding its stock exactly when its lines are flagged so, with the excess. */
  lemma ExcessIsReported(lines: seq<Line>, c: Choices, chosen: set<Key>, p: Plan, i: nat)
    requires ValidInput(lines, c) && IsPlan(lines, c, chosen, p) && i < |lines|
    ensures |p.lines| == |lines|
    ensures StockExceeded in p.lines[i].reasons <==> exists d <- p.diagnostics :: d.SkuExceeded? && d.sku == lines[i].key.sku
    ensures StockExceeded in p.lines[i].reasons ==> Reports(p.diagnostics, lines[i].key.sku, lines[i].stock, Total(lines, c, lines[i].key.sku))
  {
    FlagsAreRight(lines, c, p.lines, i);
    var l, sku := lines[i], lines[i].key.sku;
    var totals: map<string, nat> :| Totals(totals, lines, lines, c)
      && p.diagnostics == Diagnostics(lines, chosen - c.selected, totals, p.orphans);
    assert At(totals, sku) == Total(lines, c, sku);
    assert l in lines;
    OnlyExceededAreReported(lines, chosen - c.selected, totals, p.orphans, l);
  }
}
