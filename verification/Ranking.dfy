/** Deterministic operational ranking of validated candidates (backend/shipment/ranking.py). */
module Ranking {
  import opened Wrappers
  import opened Sequences
  import opened Text
  import opened StableSort
  import opened Sums
  import opened Candidates
  import opened Orchestration

  datatype RankedOption = RankedOption(
    id: string, outcome: Outcome, acceptedQty: nat, rejectedQty: nat, clusterCount: nat, skuCount: nat,
    volume: real, hasTimeslot: bool)

  // ---- options ----

  predicate Rankable(o: Outcome) {
    && (o.validation.state.Accepted? || o.validation.state.Partial? || o.validation.state.NoTimeslot?)
    && |o.validation.accepted| > 0
  }

  function RejectedQty(rows: seq<Rejection>): nat {
    if |rows| == 0 then 0 else rows[0].quantity + RejectedQty(rows[1..])
  }

  function OptionOf(o: Outcome): RankedOption {
    var accepted := o.validation.accepted;
    RankedOption(o.offer.id, o, Quantity(accepted), RejectedQty(o.validation.rejected),
                 |set row <- accepted :: row.cluster|, |set row <- accepted :: row.sku|,
                 TotalVolume(accepted), |o.validation.timeslots| > 0)
  }

  function Options(outcomes: seq<Outcome>): seq<RankedOption> {
    if |outcomes| == 0 then []
    else
      var init, last := Options(outcomes[..|outcomes| - 1]), outcomes[|outcomes| - 1];
      if Rankable(last) then init + [OptionOf(last)] else init
  }

  function Leftover(outcomes: seq<Outcome>): seq<Outcome> {
    if |outcomes| == 0 then []
    else
      var init, last := Leftover(outcomes[..|outcomes| - 1]), outcomes[|outcomes| - 1];
      if Rankable(last) then init else init + [last]
  }

  function OutcomesOf(options: seq<RankedOption>): (r: seq<Outcome>)
    ensures |r| == |options| && forall i :: 0 <= i < |options| ==> r[i] == options[i].outcome
  {
    seq(|options|, i requires 0 <= i < |options| => options[i].outcome)
  }

  predicate HandedOff(o: RankedOption) {
    o.outcome.offer.point.Some?
  }

  // ---- keys ----

  datatype Key = Key(nothing: int, noSlot: int, clusters: int, quantity: int, rejected: int)

  /** `_operational_key`: smaller is better. */
  function OperationalKey(o: RankedOption): Key {
    Key(if o.acceptedQty > 0 then 0 else 1, if o.hasTimeslot then 0 else 1, 0 - o.clusterCount, 0 - o.acceptedQty, o.rejectedQty)
  }

  predicate KeyLe(a: Key, b: Key) {
    if a.nothing != b.nothing then a.nothing < b.nothing
    else if a.noSlot != b.noSlot then a.noSlot < b.noSlot
    else if a.clusters != b.clusters then a.clusters < b.clusters
    else if a.quantity != b.quantity then a.quantity < b.quantity
    else a.rejected <= b.rejected
  }

  function KeyOrder(): (Key, Key) -> bool {
    (a: Key, b: Key) => KeyLe(a, b)
  }

  predicate IdLe(a: RankedOption, b: RankedOption) {
    TextLe(a.id, b.id)
  }

  function IdOrder(): (RankedOption, RankedOption) -> bool {
    (a: RankedOption, b: RankedOption) => IdLe(a, b)
  }

  /** `_handoff_preference_index`: points the user did not list come last. */
  function Preference(points: seq<nat>, point: nat): (i: nat)
    ensures i <= |points| && (i < |points| ==> points[i] == point)
    ensures i == |points| <==> point !in points
  {
    if |points| == 0 then 0
    else if points[0] == point then 0
    else
      HeadTail(points);
      1 + Preference(points[1..], point)
  }

  function PreferenceOf(points: seq<nat>, o: RankedOption): nat {
    if HandedOff(o) then Preference(points, o.outcome.offer.point.value) else |points|
  }

  predicate PreferenceLe(points: seq<nat>, a: RankedOption, b: RankedOption) {
    PreferenceOf(points, a) < PreferenceOf(points, b) || (PreferenceOf(points, a) == PreferenceOf(points, b) && IdLe(a, b))
  }

  function PreferenceOrder(points: seq<nat>): (RankedOption, RankedOption) -> bool {
    (a: RankedOption, b: RankedOption) => PreferenceLe(points, a, b)
  }

  lemma OrdersAreTotal(points: seq<nat>)
    ensures TotalPreorder(IdOrder()) && TotalPreorder(PreferenceOrder(points)) && TotalPreorder(KeyOrder())
  {
    forall a: RankedOption, b: RankedOption ensures IdLe(a, b) || IdLe(b, a) {
      TextLeTotal(a.id, b.id);
    }
    forall a: RankedOption, b: RankedOption, c: RankedOption | IdLe(a, b) && IdLe(b, c) ensures IdLe(a, c) {
      TextLeTransitive(a.id, b.id, c.id);
    }
  }

  // ---- one bucket ----

  function Handoffs(options: seq<RankedOption>): (r: seq<RankedOption>)
    ensures forall x :: x in r <==> x in options && HandedOff(x)
  {
    if |options| == 0 then []
    else
      var init, last := options[..|options| - 1], options[|options| - 1];
      InitLast(options);
      if HandedOff(last) then Handoffs(init) + [last] else Handoffs(init)
  }

  function Directs(options: seq<RankedOption>): seq<RankedOption> {
    if |options| == 0 then []
    else
      var init, last := options[..|options| - 1], options[|options| - 1];
      if HandedOff(last) then Directs(init) else Directs(init) + [last]
  }

  /** Put the given handoff options into the handoff slots. */
  function Refill(base: seq<RankedOption>, handoffs: seq<RankedOption>): (r: seq<RankedOption>)
    requires |handoffs| == |Handoffs(base)|
    ensures |r| == |base|
  {
    if |base| == 0 then []
    else
      var init, last := base[..|base| - 1], base[|base| - 1];
      if HandedOff(last) then Refill(init, handoffs[..|handoffs| - 1]) + [handoffs[|handoffs| - 1]]
      else Refill(init, handoffs) + [last]
  }

  function Preferred(base: seq<RankedOption>, points: seq<nat>): seq<RankedOption> {
    Sort(Handoffs(base), PreferenceOrder(points))
  }

  function OrderBucket(bucket: seq<RankedOption>, points: seq<nat>): (r: seq<RankedOption>)
    ensures |r| == |bucket|
  {
    var base := Sort(bucket, IdOrder());
    Refill(base, Preferred(base, points))
  }

  lemma {:induction false} SplitByHandoff(options: seq<RankedOption>)
    ensures multiset(options) == multiset(Directs(options)) + multiset(Handoffs(options))
  {
    if |options| > 0 {
      InitLast(options);
      SplitByHandoff(options[..|options| - 1]);
    }
  }

  /** Refilling keeps every direct option in its slot. */
  lemma {:induction false} RefillElsewhere(base: seq<RankedOption>, handoffs: seq<RankedOption>, i: nat)
    requires |handoffs| == |Handoffs(base)| && i < |base| && !HandedOff(base[i])
    ensures Refill(base, handoffs)[i] == base[i]
  {
    if i < |base| - 1 {
      RefillElsewhere(base[..|base| - 1], if HandedOff(base[|base| - 1]) then handoffs[..|handoffs| - 1] else handoffs, i);
    }
  }

  lemma SnocKinds(init: seq<RankedOption>, last: RankedOption)
    ensures Handoffs(init + [last]) == (if HandedOff(last) then Handoffs(init) + [last] else Handoffs(init))
    ensures Directs(init + [last]) == (if HandedOff(last) then Directs(init) else Directs(init) + [last])
  {
    SnocInit(init, last);
  }

  lemma RefillSnoc(init: seq<RankedOption>, last: RankedOption, rest: seq<RankedOption>, h: RankedOption)
    requires |rest| == |Handoffs(init)|
    ensures |Handoffs(init + [last])| == if HandedOff(last) then |rest| + 1 else |rest|
    ensures HandedOff(last) ==> Refill(init + [last], rest + [h]) == Refill(init, rest) + [h]
    ensures !HandedOff(last) ==> Refill(init + [last], rest) == Refill(init, rest) + [last]
  {
    SnocInit(init, last);
    SnocInit(rest, h);
  }

  lemma RefillHandoffStep(init: seq<RankedOption>, last: RankedOption, rest: seq<RankedOption>, h: RankedOption)
    requires |rest| == |Handoffs(init)| && HandedOff(last) && HandedOff(h)
    requires Directs(Refill(init, rest)) == Directs(init) && Handoffs(Refill(init, rest)) == rest
    ensures |rest + [h]| == |Handoffs(init + [last])|
    ensures Directs(Refill(init + [last], rest + [h])) == Directs(init + [last])
    ensures Handoffs(Refill(init + [last], rest + [h])) == rest + [h]
  {
    SnocKinds(init, last);
    RefillSnoc(init, last, rest, h);
    SnocKinds(Refill(init, rest), h);
  }

  lemma RefillDirectStep(init: seq<RankedOption>, last: RankedOption, rest: seq<RankedOption>)
    requires |rest| == |Handoffs(init)| && !HandedOff(last)
    requires Directs(Refill(init, rest)) == Directs(init) && Handoffs(Refill(init, rest)) == rest
    ensures |rest| == |Handoffs(init + [last])|
    ensures Directs(Refill(init + [last], rest)) == Directs(init + [last])
    ensures Handoffs(Refill(init + [last], rest)) == rest
  {
    SnocKinds(init, last);
    RefillSnoc(init, last, rest, last);
    SnocKinds(Refill(init, rest), last);
  }

  /** Refilling puts exactly the given handoff options, in the given order, between the direct ones. */
  lemma {:induction false} RefillDirects(base: seq<RankedOption>, handoffs: seq<RankedOption>)
    requires |handoffs| == |Handoffs(base)| && forall h <- handoffs :: HandedOff(h)
    ensures Directs(Refill(base, handoffs)) == Directs(base) && Handoffs(Refill(base, handoffs)) == handoffs
  {
    if |base| > 0 {
      var init, last := base[..|base| - 1], base[|base| - 1];
      InitLast(base);
      SnocKinds(init, last);
      if HandedOff(last) {
        var rest, h := handoffs[..|handoffs| - 1], handoffs[|handoffs| - 1];
        InitLast(handoffs);
        RefillDirects(init, rest);
        RefillHandoffStep(init, last, rest, h);
      } else {
        RefillDirects(init, handoffs);
        RefillDirectStep(init, last, handoffs);
      }
    }
  }

  lemma RefillMultiset(base: seq<RankedOption>, handoffs: seq<RankedOption>)
    requires |handoffs| == |Handoffs(base)| && forall h <- handoffs :: HandedOff(h)
    requires multiset(handoffs) == multiset(Handoffs(base))
    ensures multiset(Refill(base, handoffs)) == multiset(base)
  {
    RefillDirects(base, handoffs);
    SplitByHandoff(base);
    SplitByHandoff(Refill(base, handoffs));
  }

  /** Identifiers never decrease. */
  ghost predicate InIdOrder(options: seq<RankedOption>) {
    forall i, j :: 0 <= i < j < |options| ==> TextLe(options[i].id, options[j].id)
  }

  /** No option comes before one of a point that the user put earlier; for the same point
      identifiers never decrease. */
  ghost predicate InPreferenceOrder(options: seq<RankedOption>, points: seq<nat>) {
    forall i, j :: 0 <= i < j < |options| ==> MayComeFirst(options[i], options[j], points)
  }

  /** Wherever the user listed the second point, the first one stands there or before. */
  ghost predicate ListedNoLater(points: seq<nat>, p: nat, q: nat) {
    forall k :: 0 <= k < |points| && points[k] == q ==> exists j :: 0 <= j <= k && points[j] == p
  }

  ghost predicate MayComeFirst(a: RankedOption, b: RankedOption, points: seq<nat>) {
    a.outcome.offer.point.Some? && b.outcome.offer.point.Some? ==>
      var p, q := a.outcome.offer.point.value, b.outcome.offer.point.value;
      && ListedNoLater(points, p, q)
      && (p == q || (p !in points && q !in points) ==> TextLe(a.id, b.id))
  }

  lemma {:induction false} PreferenceIsFirst(points: seq<nat>, point: nat, k: nat)
    requires k < |points| && points[k] == point
    ensures Preference(points, point) <= k
  {
    if points[0] != point {
      PreferenceIsFirst(points[1..], point, k - 1);
    }
  }

  lemma PreferenceMeans(points: seq<nat>, a: RankedOption, b: RankedOption)
    requires PreferenceLe(points, a, b)
    ensures MayComeFirst(a, b, points)
  {
    if HandedOff(a) && HandedOff(b) {
      var p, q := a.outcome.offer.point.value, b.outcome.offer.point.value;
      forall k | 0 <= k < |points| && points[k] == q ensures exists j :: 0 <= j <= k && points[j] == p {
        PreferenceIsFirst(points, q, k);
        assert points[Preference(points, p)] == p;
      }
    }
  }

  lemma SortedById(options: seq<RankedOption>)
    requires Sorted(options, IdOrder())
    ensures InIdOrder(options)
  {
    forall i, j | 0 <= i < j < |options| ensures TextLe(options[i].id, options[j].id) {
      assert IdOrder()(options[i], options[j]);
    }
  }

  lemma SortedByPreference(options: seq<RankedOption>, points: seq<nat>)
    requires Sorted(options, PreferenceOrder(points))
    ensures InPreferenceOrder(options, points)
  {
    forall i, j | 0 <= i < j < |options| ensures MayComeFirst(options[i], options[j], points) {
      assert PreferenceOrder(points)(options[i], options[j]);
      PreferenceMeans(points, options[i], options[j]);
    }
  }

  /** A bucket is reordered without loss; direct options keep the slot they have in identifier order,
      and the handoff options run through their slots in the order of the user's preference. */
  lemma BucketKeeps(bucket: seq<RankedOption>, points: seq<nat>)
    ensures multiset(OrderBucket(bucket, points)) == multiset(bucket)
    ensures forall i :: 0 <= i < |bucket| && !HandedOff(Sort(bucket, IdOrder())[i]) ==>
      OrderBucket(bucket, points)[i] == Sort(bucket, IdOrder())[i]
    ensures InPreferenceOrder(Handoffs(OrderBucket(bucket, points)), points)
    ensures InIdOrder(Sort(bucket, IdOrder()))
  {
    var base := Sort(bucket, IdOrder());
    SortKeeps(bucket, IdOrder());
    SortKeeps(Handoffs(base), PreferenceOrder(points));
    SortElements(Handoffs(base), PreferenceOrder(points));
    OrdersAreTotal(points);
    forall i | 0 <= i < |bucket| && !HandedOff(base[i]) ensures OrderBucket(bucket, points)[i] == base[i] {
      RefillElsewhere(base, Preferred(base, points), i);
    }
    RefillDirects(base, Preferred(base, points));
    RefillMultiset(base, Preferred(base, points));
    SortedById(base);
    SortedByPreference(Handoffs(OrderBucket(bucket, points)), points);
  }

  /** `handoff_positions` */
  function Slots(base: seq<RankedOption>): (slots: seq<nat>)
    ensures |slots| == |Handoffs(base)|
    ensures forall k :: 0 <= k < |slots| ==> slots[k] < |base| && HandedOff(base[slots[k]])
    ensures forall k, l :: 0 <= k < l < |slots| ==> slots[k] < slots[l]
  {
    if |base| == 0 then []
    else
      var n := |base| - 1;
      if HandedOff(base[n]) then Slots(base[..n]) + [n] else Slots(base[..n])
  }

  lemma {:induction false} SlotOf(base: seq<RankedOption>, i: nat) returns (k: nat)
    requires i < |base| && HandedOff(base[i])
    ensures k < |Slots(base)| && Slots(base)[k] == i
  {
    if i == |base| - 1 {
      k := |Slots(base)| - 1;
    } else {
      k := SlotOf(base[..|base| - 1], i);
    }
  }

  lemma RefillLast(base: seq<RankedOption>, handoffs: seq<RankedOption>)
    requires |base| > 0 && |handoffs| == |Handoffs(base)|
    ensures var n := |base| - 1;
      if HandedOff(base[n]) then
        && |Handoffs(base[..n])| == |handoffs| - 1 && Slots(base) == Slots(base[..n]) + [n]
        && Refill(base, handoffs) == Refill(base[..n], handoffs[..|handoffs| - 1]) + [handoffs[|handoffs| - 1]]
      else
        && |Handoffs(base[..n])| == |handoffs| && Slots(base) == Slots(base[..n])
        && Refill(base, handoffs) == Refill(base[..n], handoffs) + [base[n]]
  {
  }

  /** The k-th handoff slot holds the k-th handoff option. */
  lemma {:induction false} RefillAtSlot(base: seq<RankedOption>, handoffs: seq<RankedOption>, k: nat)
    requires |handoffs| == |Handoffs(base)| && k < |handoffs|
    ensures Refill(base, handoffs)[Slots(base)[k]] == handoffs[k]
  {
    var n := |base| - 1;
    RefillLast(base, handoffs);
    if !HandedOff(base[n]) {
      RefillAtSlot(base[..n], handoffs, k);
    } else if k < |handoffs| - 1 {
      RefillAtSlot(base[..n], handoffs[..|handoffs| - 1], k);
    }
  }

  lemma AssignedIsRefilled(base: seq<RankedOption>, handoffs: seq<RankedOption>, r: seq<RankedOption>)
    requires |handoffs| == |Handoffs(base)| && |r| == |base|
    requires forall k :: 0 <= k < |handoffs| ==> r[Slots(base)[k]] == handoffs[k]
    requires forall i :: 0 <= i < |base| && !HandedOff(base[i]) ==> r[i] == base[i]
    ensures r == Refill(base, handoffs)
  {
    var slots := Slots(base);
    forall i | 0 <= i < |base| ensures r[i] == Refill(base, handoffs)[i] {
      if HandedOff(base[i]) {
        var k := SlotOf(base, i);
        RefillAtSlot(base, handoffs, k);
      } else {
        RefillElsewhere(base, handoffs, i);
      }
    }
  }

  /** `for index, option in zip(handoff_positions, handoff_options): baseline[index] = option` */
  method AssignSlots(a: array<RankedOption>, slots: seq<nat>, handoffs: seq<RankedOption>)
    requires |slots| == |handoffs|
    requires forall k :: 0 <= k < |slots| ==> slots[k] < a.Length
    requires forall k, l :: 0 <= k < l < |slots| ==> slots[k] < slots[l]
    modifies a
    ensures forall k :: 0 <= k < |slots| ==> a[slots[k]] == handoffs[k]
    ensures forall i :: 0 <= i < a.Length && i !in slots ==> a[i] == old(a[i])
  {
    for k := 0 to |slots|
      invariant forall j :: 0 <= j < k ==> a[slots[j]] == handoffs[j]
      invariant forall i :: 0 <= i < a.Length && i !in slots ==> a[i] == old(a[i])
    {
      a[slots[k]] := handoffs[k];
    }
  }

  /** `_order_bucket`: the handoff options are written into the handoff slots one by one. */
  method OrderSlots(bucket: seq<RankedOption>, points: seq<nat>) returns (ordered: seq<RankedOption>)
    ensures ordered == OrderBucket(bucket, points)
  {
    var base := Sort(bucket, IdOrder());
    var handoffs := Preferred(base, points);
    var slots := Slots(base);
    var a := new RankedOption[|base|](i requires 0 <= i < |base| => base[i]);
    AssignSlots(a, slots, handoffs);
    ordered := a[..];
    AssignedIsRefilled(base, handoffs, ordered);
  }

  // ---- the whole ranking ----

  function Bucket(options: seq<RankedOption>, key: Key): (r: seq<RankedOption>)
    ensures forall x :: x in r <==> x in options && OperationalKey(x) == key
  {
    if |options| == 0 then []
    else
      var init, last := options[..|options| - 1], options[|options| - 1];
      InitLast(options);
      if OperationalKey(last) == key then Bucket(init, key) + [last] else Bucket(init, key)
  }

  /** The keys in the order in which they appear first. */
  function KeysOf(options: seq<RankedOption>): (ks: seq<Key>)
    ensures forall k :: k in ks <==> exists o <- options :: OperationalKey(o) == k
    ensures NoDup(ks)
  {
    if |options| == 0 then []
    else
      var init, last := options[..|options| - 1], options[|options| - 1];
      InitLast(options);
      var k := OperationalKey(last);
      if k in KeysOf(init) then KeysOf(init) else KeysOf(init) + [k]
  }

  function Buckets(options: seq<RankedOption>, keys: seq<Key>, points: seq<nat>): seq<RankedOption> {
    if |keys| == 0 then []
    else Buckets(options, keys[..|keys| - 1], points) + OrderBucket(Bucket(options, keys[|keys| - 1]), points)
  }

  function Ranked(options: seq<RankedOption>, points: seq<nat>): seq<RankedOption> {
    Buckets(options, Sort(KeysOf(options), KeyOrder()), points)
  }

  /** The dictionary of buckets holds every key seen so far, with its options in order. */
  ghost predicate Filled(buckets: map<Key, seq<RankedOption>>, seen: seq<Key>, options: seq<RankedOption>) {
    && seen == KeysOf(options)
    && (forall k :: k in buckets <==> k in seen)
    && (forall k <- buckets.Keys :: buckets[k] == Bucket(options, k))
  }

  lemma NoSuchBucket(options: seq<RankedOption>, key: Key)
    ensures key !in KeysOf(options) ==> Bucket(options, key) == []
  {
    assert Bucket(options, key) != [] ==> Bucket(options, key)[0] in Bucket(options, key);
  }

  lemma FilledStep(buckets: map<Key, seq<RankedOption>>, seen: seq<Key>, options: seq<RankedOption>, o: RankedOption)
    requires Filled(buckets, seen, options)
    ensures var key := OperationalKey(o);
      Filled(buckets[key := (if key in buckets then buckets[key] else []) + [o]],
             if key in seen then seen else seen + [key], options + [o])
  {
    var key, more := OperationalKey(o), options + [o];
    assert more[..|more| - 1] == options && more[|more| - 1] == o;
    NoSuchBucket(options, key);
  }

  lemma OptionsStep(outcomes: seq<Outcome>, i: nat)
    requires i < |outcomes|
    ensures Options(outcomes[..i + 1]) == Options(outcomes[..i]) + (if Rankable(outcomes[i]) then [OptionOf(outcomes[i])] else [])
    ensures Leftover(outcomes[..i + 1]) == Leftover(outcomes[..i]) + (if Rankable(outcomes[i]) then [] else [outcomes[i]])
  {
    TakeTake(outcomes, i);
  }

  /** `buckets[_operational_key(option)].append(option)` */
  method AddOption(held: map<Key, seq<RankedOption>>, before: seq<Key>, option: RankedOption, ghost options: seq<RankedOption>)
    returns (buckets: map<Key, seq<RankedOption>>, seen: seq<Key>)
    requires Filled(held, before, options)
    ensures Filled(buckets, seen, options + [option])
  {
    var key := OperationalKey(option);
    FilledStep(held, before, options, option);
    buckets := held[key := (if key in held then held[key] else []) + [option]];
    seen := if key in before then before else before + [key];
  }

  /** The loop that fills the buckets. */
  method FillBuckets(outcomes: seq<Outcome>) returns (buckets: map<Key, seq<RankedOption>>, seen: seq<Key>, unavailable: seq<Outcome>)
    ensures Filled(buckets, seen, Options(outcomes)) && unavailable == Leftover(outcomes)
  {
    buckets, seen, unavailable := map[], [], [];
    ghost var options: seq<RankedOption> := [];
    for i := 0 to |outcomes|
      invariant options == Options(outcomes[..i]) && unavailable == Leftover(outcomes[..i])
      invariant Filled(buckets, seen, options)
    {
      OptionsStep(outcomes, i);
      if !Rankable(outcomes[i]) {
        unavailable := unavailable + [outcomes[i]];
      } else {
        var option := OptionOf(outcomes[i]);
        buckets, seen := AddOption(buckets, seen, option, options);
        options := options + [option];
      }
    }
    TakeAll(outcomes);
  }

  /** `rank_outcomes`. */
  method RankOutcomes(outcomes: seq<Outcome>, points: seq<nat>) returns (ranked: seq<RankedOption>, unavailable: seq<Outcome>)
    ensures ranked == Ranked(Options(outcomes), points)
    ensures unavailable == Leftover(outcomes)
  {
    var buckets, seen;
    buckets, seen, unavailable := FillBuckets(outcomes);
    var keys := Sort(seen, KeyOrder());
    SortElements(seen, KeyOrder());
    ranked := [];
    for j := 0 to |keys|
      invariant ranked == Buckets(Options(outcomes), keys[..j], points)
    {
      TakeTake(keys, j);
      assert keys[j] in seen;
      var ordered := OrderSlots(buckets[keys[j]], points);
      ranked := ranked + ordered;
    }
    TakeAll(keys);
  }

  // ---- what the ranking promises ----

  function Among(options: seq<RankedOption>, keys: seq<Key>): (r: seq<RankedOption>)
  {
    if |options| == 0 then []
    else
      var rest := Among(options[1..], keys);
      if OperationalKey(options[0]) in keys then [options[0]] + rest else rest
  }

  lemma {:induction false} AmongMore(options: seq<RankedOption>, keys: seq<Key>, key: Key)
    requires key !in keys
    ensures multiset(Among(options, keys + [key])) == multiset(Among(options, keys)) + multiset(Among(options, [key]))
  {
    if |options| > 0 {
      AmongMore(options[1..], keys, key);
    }
  }

  lemma {:induction false} BucketIsAmong(options: seq<RankedOption>, key: Key)
    ensures multiset(Bucket(options, key)) == multiset(Among(options, [key]))
  {
    if |options| > 0 {
      var init, last := options[..|options| - 1], options[|options| - 1];
      BucketIsAmong(init, key);
      AmongSnoc(init, last, [key]);
      InitLast(options);
    }
  }

  lemma {:induction false} AmongSnoc(options: seq<RankedOption>, last: RankedOption, keys: seq<Key>)
    ensures multiset(Among(options + [last], keys)) ==
            multiset(Among(options, keys)) + (if OperationalKey(last) in keys then multiset{last} else multiset{})
  {
    if |options| > 0 {
      assert (options + [last])[1..] == options[1..] + [last];
      AmongSnoc(options[1..], last, keys);
    }
  }

  lemma {:induction false} AmongAll(options: seq<RankedOption>, keys: seq<Key>)
    requires forall o <- options :: OperationalKey(o) in keys
    ensures Among(options, keys) == options
  {
    if |options| > 0 {
      AmongAll(options[1..], keys);
    }
  }

  lemma {:induction false} AmongNone(options: seq<RankedOption>)
    ensures Among(options, []) == []
  {
    if |options| > 0 {
      AmongNone(options[1..]);
    }
  }

  lemma {:induction false} BucketsKeep(options: seq<RankedOption>, keys: seq<Key>, points: seq<nat>)
    requires NoDup(keys)
    ensures multiset(Buckets(options, keys, points)) == multiset(Among(options, keys))
  {
    if |keys| == 0 {
      AmongNone(options);
    } else {
      var init, last := keys[..|keys| - 1], keys[|keys| - 1];
      BucketsKeep(options, init, points);
      BucketKeeps(Bucket(options, last), points);
      BucketIsAmong(options, last);
      AmongMore(options, init, last);
      InitLast(keys);
    }
  }

  lemma SortedKeys(options: seq<RankedOption>)
    ensures var keys := Sort(KeysOf(options), KeyOrder());
      && NoDup(keys) && Sorted(keys, KeyOrder())
      && (forall k :: k in keys <==> exists o <- options :: OperationalKey(o) == k)
  {
    var ks := KeysOf(options);
    SortKeeps(ks, KeyOrder());
    SortElements(ks, KeyOrder());
    NoDupAmong(ks, Sort(ks, KeyOrder()));
    OrdersAreTotal([]);
  }

  lemma OutcomesSnoc(options: seq<RankedOption>, o: Outcome)
    ensures OutcomesOf(options + [OptionOf(o)]) == OutcomesOf(options) + [o]
  {
  }

  lemma {:induction false} OptionsSplit(outcomes: seq<Outcome>)
    ensures multiset(OutcomesOf(Options(outcomes))) + multiset(Leftover(outcomes)) == multiset(outcomes)
  {
    if |outcomes| > 0 {
      var init, last := outcomes[..|outcomes| - 1], outcomes[|outcomes| - 1];
      InitLast(outcomes);
      OptionsSplit(init);
      OptionsStep(outcomes, |init|);
      assert outcomes[..|init| + 1] == outcomes;
      OutcomesSnoc(Options(init), last);
    }
  }

  lemma OutcomesWithout(b: seq<RankedOption>, i: nat)
    requires i < |b|
    ensures multiset(OutcomesOf(b)) == multiset(OutcomesOf(b[..i] + b[i + 1..])) + multiset{b[i].outcome}
  {
    RemoveAt(OutcomesOf(b), i);
    assert OutcomesOf(b)[..i] + OutcomesOf(b)[i + 1..] == OutcomesOf(b[..i] + b[i + 1..]);
  }

  lemma {:induction false} OutcomesByMultiset(a: seq<RankedOption>, b: seq<RankedOption>)
    requires multiset(a) == multiset(b)
    ensures multiset(OutcomesOf(a)) == multiset(OutcomesOf(b))
  {
    if |a| == 0 {
      NothingLeft(b);
    } else {
      var i := SharedElement(a, b);
      WithoutHead(a, b, i);
      OutcomesByMultiset(a[1..], b[..i] + b[i + 1..]);
      OutcomesWithout(b, i);
      OutcomesWithout(a, 0);
      EmptyFront(a[1..]);
      assert a[..0] == [];
    }
  }

  /** No outcome is lost, invented or shown twice. */
  lemma RankingIsLossless(outcomes: seq<Outcome>, points: seq<nat>)
    ensures multiset(OutcomesOf(Ranked(Options(outcomes), points))) + multiset(Leftover(outcomes)) == multiset(outcomes)
  {
    var options := Options(outcomes);
    RankingKeeps(options, points);
    OutcomesByMultiset(Ranked(options, points), options);
    OptionsSplit(outcomes);
  }

  lemma RankingKeeps(options: seq<RankedOption>, points: seq<nat>)
    ensures multiset(Ranked(options, points)) == multiset(options)
  {
    var keys := Sort(KeysOf(options), KeyOrder());
    SortedKeys(options);
    BucketsKeep(options, keys, points);
    AmongAll(options, keys);
  }

  ghost predicate InKeyOrder(ranked: seq<RankedOption>) {
    forall i, j :: 0 <= i < j < |ranked| ==> KeyLe(OperationalKey(ranked[i]), OperationalKey(ranked[j]))
  }

  lemma InOrderConcat(a: seq<RankedOption>, b: seq<RankedOption>, last: Key)
    requires InKeyOrder(a) && (forall o <- b :: OperationalKey(o) == last)
    requires forall o <- a :: KeyLe(OperationalKey(o), last)
    ensures InKeyOrder(a + b)
  {
    var all := a + b;
    forall i, j | 0 <= i < j < |all| ensures KeyLe(OperationalKey(all[i]), OperationalKey(all[j])) {
      if j >= |a| {
        assert all[j] in b;
        assert i < |a| ==> all[i] in a;
        assert i >= |a| ==> all[i] in b;
      }
    }
  }

  lemma {:induction false} BucketsInOrder(options: seq<RankedOption>, keys: seq<Key>, points: seq<nat>)
    requires Sorted(keys, KeyOrder())
    ensures InKeyOrder(Buckets(options, keys, points))
    ensures forall o <- Buckets(options, keys, points) :: OperationalKey(o) in keys
  {
    if |keys| > 0 {
      var init, last := keys[..|keys| - 1], keys[|keys| - 1];
      BucketsInOrder(options, init, points);
      var before, ordered := Buckets(options, init, points), OrderBucket(Bucket(options, last), points);
      BucketKeeps(Bucket(options, last), points);
      SameElements(ordered, Bucket(options, last));
      forall o | o in before ensures KeyLe(OperationalKey(o), last) {
        var m :| 0 <= m < |init| && init[m] == OperationalKey(o);
        assert KeyOrder()(keys[m], keys[|keys| - 1]);
      }
      InOrderConcat(before, ordered, last);
      InitLast(keys);
    }
  }

  /** Operational keys never decrease along the ranked list. */
  lemma RankedInKeyOrder(options: seq<RankedOption>, points: seq<nat>)
    ensures InKeyOrder(Ranked(options, points))
  {
    SortedKeys(options);
    BucketsInOrder(options, Sort(KeysOf(options), KeyOrder()), points);
  }

  // ---- what ranks first ----

  function RowUnits(): Assignment -> nat {
    (row: Assignment) => row.quantity
  }

  function RefusedUnits(): Rejection -> nat {
    (row: Rejection) => row.quantity
  }

  function Reached(v: Validation): set<string> {
    set row <- v.accepted :: row.cluster
  }

  /** Of two validations the first may rank before the second: it ships something if the second does;
      then a time slot counts, then more clusters, then more units, then fewer rejected units. */
  predicate MayRankFirst(a: Validation, b: Validation) {
    var qa, qb := SumBy(a.accepted, RowUnits()), SumBy(b.accepted, RowUnits());
    && (0 < qb ==> 0 < qa)
    && ((0 < qa <==> 0 < qb) ==>
         && (|b.timeslots| > 0 ==> |a.timeslots| > 0)
         && ((|a.timeslots| > 0 <==> |b.timeslots| > 0) ==>
              && |Reached(b)| <= |Reached(a)|
              && (|Reached(b)| == |Reached(a)| ==>
                   qb <= qa && (qa == qb ==> SumBy(a.rejected, RefusedUnits()) <= SumBy(b.rejected, RefusedUnits())))))
  }

  lemma {:induction false} QuantityIsSum(rows: seq<Assignment>)
    ensures Quantity(rows) == SumBy(rows, RowUnits())
  {
    if |rows| > 0 {
      QuantityIsSum(rows[1..]);
    }
  }

  lemma {:induction false} RejectedIsSum(rows: seq<Rejection>)
    ensures RejectedQty(rows) == SumBy(rows, RefusedUnits())
  {
    if |rows| > 0 {
      RejectedIsSum(rows[1..]);
    }
  }

  lemma KeyDecides(a: Outcome, b: Outcome)
    requires KeyLe(OperationalKey(OptionOf(a)), OperationalKey(OptionOf(b)))
    ensures MayRankFirst(a.validation, b.validation)
  {
    QuantityIsSum(a.validation.accepted);
    QuantityIsSum(b.validation.accepted);
    RejectedIsSum(a.validation.rejected);
    RejectedIsSum(b.validation.rejected);
  }

  lemma {:induction false} OptionsAreOfOutcomes(outcomes: seq<Outcome>)
    ensures forall o <- Options(outcomes) :: o == OptionOf(o.outcome) && o.outcome in outcomes && Shippable(o.outcome.validation)
    ensures forall x <- Leftover(outcomes) :: x in outcomes && !Shippable(x.validation)
  {
    if |outcomes| > 0 {
      InitLast(outcomes);
      OptionsAreOfOutcomes(outcomes[..|outcomes| - 1]);
    }
  }

  /** Ozon accepted something, if only without a time slot or in part. */
  predicate Shippable(v: Validation) {
    v.state in {Accepted, Partial, NoTimeslot} && |v.accepted| > 0
  }

  lemma RankedIsOfOutcome(outcomes: seq<Outcome>, points: seq<nat>, i: nat)
    requires i < |Ranked(Options(outcomes), points)|
    ensures var o := Ranked(Options(outcomes), points)[i]; o == OptionOf(o.outcome) && Shippable(o.outcome.validation)
  {
    var ranked := Ranked(Options(outcomes), points);
    RankingKeeps(Options(outcomes), points);
    OptionsAreOfOutcomes(outcomes);
    assert ranked[i] in multiset(ranked) && ranked[i] in multiset(Options(outcomes));
  }

  /** The ranked list holds what can be shipped, best first, and the unavailable list the rest. */
  lemma BestRankFirst(outcomes: seq<Outcome>, points: seq<nat>, i: nat, j: nat)
    requires i < j < |Ranked(Options(outcomes), points)|
    ensures var ranked := Ranked(Options(outcomes), points);
      && Shippable(ranked[i].outcome.validation) && Shippable(ranked[j].outcome.validation)
      && MayRankFirst(ranked[i].outcome.validation, ranked[j].outcome.validation)
    ensures forall x <- Leftover(outcomes) :: !Shippable(x.validation)
  {
    var ranked := Ranked(Options(outcomes), points);
    RankedInKeyOrder(Options(outcomes), points);
    RankedIsOfOutcome(outcomes, points, i);
    RankedIsOfOutcome(outcomes, points, j);
    KeyDecides(ranked[i].outcome, ranked[j].outcome);
    OptionsAreOfOutcomes(outcomes);
  }

  ghost predicate UniqueIds(options: seq<RankedOption>) {
    forall a, b :: a in options && b in options && a.id == b.id ==> a == b
  }

  lemma IdsDecide(options: seq<RankedOption>, points: seq<nat>)
    requires UniqueIds(options)
    ensures NoTies(options, IdOrder()) && NoTies(options, PreferenceOrder(points))
  {
    forall i, j | 0 <= i < |options| && 0 <= j < |options| && IdLe(options[i], options[j]) && IdLe(options[j], options[i])
      ensures options[i] == options[j] {
      TextLeTotal(options[i].id, options[j].id);
      assert options[i] in options && options[j] in options;
    }
  }

  lemma BucketIgnoresOrder(a: seq<RankedOption>, b: seq<RankedOption>, key: Key, points: seq<nat>)
    requires multiset(a) == multiset(b) && UniqueIds(a)
    ensures OrderBucket(Bucket(a, key), points) == OrderBucket(Bucket(b, key), points)
  {
    BucketIsAmong(a, key);
    BucketIsAmong(b, key);
    AmongByMultiset(a, b, [key]);
    OrdersAreTotal(points);
    IdsDecide(Bucket(a, key), points);
    SortIgnoresOrder(Bucket(a, key), Bucket(b, key), IdOrder());
  }

  lemma {:induction false} AmongByMultiset(a: seq<RankedOption>, b: seq<RankedOption>, keys: seq<Key>)
    requires multiset(a) == multiset(b)
    ensures multiset(Among(a, keys)) == multiset(Among(b, keys))
  {
    if |a| == 0 {
      assert |multiset(b)| == 0;
    } else {
      assert a[0] in multiset(b);
      var i :| 0 <= i < |b| && b[i] == a[0];
      WithoutHead(a, b, i);
      AmongByMultiset(a[1..], b[..i] + b[i + 1..], keys);
      AmongMiddle(b[..i], b[i], b[i + 1..], keys);
      assert b == b[..i] + [b[i]] + b[i + 1..];
    }
  }

  lemma {:induction false} AmongMiddle(front: seq<RankedOption>, x: RankedOption, back: seq<RankedOption>, keys: seq<Key>)
    ensures multiset(Among(front + [x] + back, keys)) ==
            multiset(Among(front + back, keys)) + (if OperationalKey(x) in keys then multiset{x} else multiset{})
  {
    if |front| == 0 {
      assert front + [x] + back == [x] + back && front + back == back && ([x] + back)[1..] == back;
    } else {
      ConcatTail(front, back);
      assert (front + [x] + back)[1..] == front[1..] + [x] + back;
      AmongMiddle(front[1..], x, back, keys);
    }
  }

  lemma {:induction false} BucketsIgnoreOrder(a: seq<RankedOption>, b: seq<RankedOption>, keys: seq<Key>, points: seq<nat>)
    requires multiset(a) == multiset(b) && UniqueIds(a)
    ensures Buckets(a, keys, points) == Buckets(b, keys, points)
  {
    if |keys| > 0 {
      BucketsIgnoreOrder(a, b, keys[..|keys| - 1], points);
      BucketIgnoresOrder(a, b, keys[|keys| - 1], points);
    }
  }

  lemma SameElements<T>(a: seq<T>, b: seq<T>)
    requires multiset(a) == multiset(b)
    ensures forall x :: x in a <==> x in b
  {
    forall x ensures x in a <==> x in b {
      assert x in a <==> x in multiset(a);
      assert x in b <==> x in multiset(b);
    }
  }

  lemma RankingIgnoresOptionOrder(a: seq<RankedOption>, b: seq<RankedOption>, points: seq<nat>)
    requires multiset(a) == multiset(b) && UniqueIds(a)
    ensures Ranked(a, points) == Ranked(b, points)
  {
    SameElements(a, b);
    SortedKeys(a);
    SortedKeys(b);
    var ka, kb := Sort(KeysOf(a), KeyOrder()), Sort(KeysOf(b), KeyOrder());
    SameKeys(ka, kb);
    BucketsIgnoreOrder(a, b, ka, points);
  }

  lemma {:induction false} SplitConcat(a: seq<Outcome>, b: seq<Outcome>)
    ensures Options(a + b) == Options(a) + Options(b) && Leftover(a + b) == Leftover(a) + Leftover(b)
  {
    if |b| == 0 {
      NoneMore(a);
      NoneMore(Options(a));
      NoneMore(Leftover(a));
    } else {
      var init, last := b[..|b| - 1], b[|b| - 1];
      SplitConcat(a, init);
      ConcatInit(a, b);
      Associative(Options(a), Options(init), [OptionOf(last)]);
      Associative(Leftover(a), Leftover(init), [last]);
    }
  }

  /** What one outcome adds to the two lists, wherever it comes. */
  lemma SplitWithout(outcomes: seq<Outcome>, i: nat)
    requires i < |outcomes|
    ensures var rest := outcomes[..i] + outcomes[i + 1..];
      && multiset(Options(outcomes)) == multiset(Options([outcomes[i]])) + multiset(Options(rest))
      && multiset(Leftover(outcomes)) == multiset(Leftover([outcomes[i]])) + multiset(Leftover(rest))
  {
    var front, x, back := outcomes[..i], [outcomes[i]], outcomes[i + 1..];
    SplitAt(outcomes, i);
    SplitConcat(front + x, back);
    SplitConcat(front, x);
    SplitConcat(front, back);
  }

  lemma SplitHead(outcomes: seq<Outcome>)
    requires |outcomes| > 0
    ensures multiset(Options(outcomes)) == multiset(Options([outcomes[0]])) + multiset(Options(outcomes[1..]))
    ensures multiset(Leftover(outcomes)) == multiset(Leftover([outcomes[0]])) + multiset(Leftover(outcomes[1..]))
  {
    SplitConcat([outcomes[0]], outcomes[1..]);
    assert [outcomes[0]] + outcomes[1..] == outcomes;
  }

  ghost predicate SameSplit(a: seq<Outcome>, b: seq<Outcome>) {
    multiset(Options(a)) == multiset(Options(b)) && multiset(Leftover(a)) == multiset(Leftover(b))
  }

  lemma SplitTails(a: seq<Outcome>, b: seq<Outcome>, i: nat)
    requires |a| > 0 && i < |b| && b[i] == a[0] && SameSplit(a[1..], b[..i] + b[i + 1..])
    ensures SameSplit(a, b)
  {
    SplitHead(a);
    SplitWithout(b, i);
  }

  lemma {:induction false} SplitByMultiset(a: seq<Outcome>, b: seq<Outcome>)
    requires multiset(a) == multiset(b)
    ensures SameSplit(a, b)
  {
    if |a| == 0 {
      NothingLeft(b);
    } else {
      var i := SharedElement(a, b);
      WithoutHead(a, b, i);
      SplitByMultiset(a[1..], b[..i] + b[i + 1..]);
      SplitTails(a, b, i);
    }
  }

  /** With distinct option identifiers the ranked list does not depend on the order of the outcomes,
      and the unavailable list holds the same outcomes. */
  lemma RankingIgnoresOrder(a: seq<Outcome>, b: seq<Outcome>, points: seq<nat>)
    requires multiset(a) == multiset(b) && UniqueIds(Options(a))
    ensures Ranked(Options(a), points) == Ranked(Options(b), points)
    ensures multiset(Leftover(a)) == multiset(Leftover(b))
  {
    SplitByMultiset(a, b);
    RankingIgnoresOptionOrder(Options(a), Options(b), points);
  }

  lemma SameKeys(a: seq<Key>, b: seq<Key>)
    requires NoDup(a) && NoDup(b) && Sorted(a, KeyOrder()) && Sorted(b, KeyOrder())
    requires forall k :: k in a <==> k in b
    ensures a == b
  {
    SameByElements(a, b);
    OrdersAreTotal([]);
    SortedIsUnique(a, b, KeyOrder());
  }
}
