/** What the background worker's cache, queue and evidence hold over time
    (backend/ozon/price_enrichment.py:70-187). */
module PriceCache {
  import opened Wrappers
  import opened Sequences
  import opened StableSort
  import opened PriceEnrichment

  // ---- the price under a key ----

  function PriceIn(cache: map<Key, Prices>, k: Key, sku: string): Option<Option<real>> {
    if k in cache && sku in cache[k] then Some(cache[k][sku]) else None
  }

  /** Some order of the source names the private key. */
  predicate Needed(orders: seq<Order>, k: Key) {
    k.digest != "" && exists o <- orders :: o.digest == Some(k.digest) && o.lifecycle == k.lifecycle
  }

  /** Of the requests for a key the last one counts. */
  predicate Counts(requests: seq<Request>, i: nat)
    requires i < |requests|
  {
    forall j :: i < j < |requests| ==> requests[j].key != requests[i].key
  }

  /** The key is needed, and some order or the request for the key names the product. */
  predicate StillWanted(orders: seq<Order>, requests: seq<Request>, k: Key, sku: string) {
    Needed(orders, k) &&
    ((exists o <- orders :: o.digest == Some(k.digest) && o.lifecycle == k.lifecycle && o.sku == sku)
     || exists i :: 0 <= i < |requests| && requests[i].key == k && Counts(requests, i) && sku in requests[i].skus)
  }

  /** The worker is the live one and has read this key. */
  predicate Reads(st: State, run: nat, k: Key) {
    run == st.generation && run in st.workers && st.workers[run].phase.Reading? && st.workers[run].phase.request.key == k
  }

  /** What a step leaves of a cached price: a start drops it with its credentials or when nothing
      asks for it any more, clearing drops it, and what the live worker reads without failure
      replaces it; nothing else touches it. */
  function PriceAfter(st: State, a: Action, k: Key, sku: string): Option<Option<real>> {
    var before := PriceIn(st.cache, k, sku);
    match a
    case Start(source, requests, reset) =>
      if !reset && st.context == Some(source.context) && StillWanted(source.orders, requests, k, sku) then before else None
    case Cancel(clear) => if clear then None else before
    case Prioritize(_, _) => before
    case Step(run, e) =>
      if e.Publish? && !e.failed && Reads(st, run, k) then (if sku in e.prices then Some(e.prices[sku]) else None)
      else if e.Break? && Reads(st, run, k) then (if sku in e.prices then Some(e.prices[sku]) else None)
      else before
  }

  // ---- what a start keeps and queues ----

  lemma KeysAreNeeded(orders: seq<Order>, k: Key)
    ensures k in KeysOf(orders) <==> Needed(orders, k)
  {
    if Needed(orders, k) {
      var o :| o in orders && o.digest == Some(k.digest) && o.lifecycle == k.lifecycle;
      assert k == Key(o.digest.value, o.lifecycle);
    }
  }

  lemma PutKeeps(rs: seq<Request>, r: Request, x: Request)
    ensures x in Put(rs, r) ==> x == r || (x in rs)
    ensures r in Put(rs, r)
    ensures DistinctKeys(rs) && x.key == r.key && x in Put(rs, r) ==> x == r
    ensures x in rs && x.key != r.key ==> x in Put(rs, r)
  {
    var i, u := PositionOf(rs, r.key), Put(rs, r);
    assert u[i] == r;
    if x in rs && x.key != r.key {
      var j :| 0 <= j < |rs| && rs[j] == x;
      assert u[j] == x;
    }
    if DistinctKeys(rs) && x.key == r.key && x in u {
      var j :| 0 <= j < |u| && u[j] == x;
      assert DistinctKeys(u);
      assert j == i;
    }
  }

  ghost predicate LastOf(requests: seq<Request>, r: Request) {
    exists i :: 0 <= i < |requests| && requests[i] == r && Counts(requests, i)
  }

  lemma LastOfSnoc(requests: seq<Request>, last: Request, r: Request)
    ensures LastOf(requests + [last], r) <==> r == last || (LastOf(requests, r) && r.key != last.key)
  {
    var all := requests + [last];
    assert all[|requests|] == last && Counts(all, |requests|);
    if LastOf(requests, r) && r.key != last.key {
      var i :| 0 <= i < |requests| && requests[i] == r && Counts(requests, i);
      assert all[i] == r && Counts(all, i);
    }
    if LastOf(all, r) && r != last {
      var i :| 0 <= i < |all| && all[i] == r && Counts(all, i);
      assert requests[i] == r && all[|requests|].key != all[i].key;
      assert forall j :: i < j < |requests| ==> all[j] == requests[j];
      assert Counts(requests, i);
    }
  }

  /** Deduplication queues, of the requests whose key is known, the last one for every key. */
  lemma {:induction false} UniqueAreLast(requests: seq<Request>, keys: set<Key>, r: Request)
    ensures r in Unique(requests, keys) <==> r.key in keys && LastOf(requests, r)
  {
    if |requests| > 0 {
      var init, last := requests[..|requests| - 1], requests[|requests| - 1];
      InitLast(requests);
      UniqueAreLast(init, keys, r);
      LastOfSnoc(init, last, r);
      if last.key in keys {
        PutKeeps(Unique(init, keys), last, r);
      }
    }
  }

  lemma AllowedIsWanted(orders: seq<Order>, requests: seq<Request>, k: Key, sku: string)
    requires Needed(orders, k)
    ensures (k, sku) in Allowed(orders, Unique(requests, KeysOf(orders))) <==> StillWanted(orders, requests, k, sku)
  {
    var keys := KeysOf(orders);
    KeysAreNeeded(orders, k);
    forall r ensures r in Unique(requests, keys) <==> r.key in keys && LastOf(requests, r) {
      UniqueAreLast(requests, keys, r);
    }
    forall o | o in orders && o.digest == Some(k.digest) && o.lifecycle == k.lifecycle && o.sku == sku
      ensures (k, sku) in Allowed(orders, Unique(requests, keys)) {
      assert (k, sku) == (Key(o.digest.value, o.lifecycle), o.sku);
    }
    forall i | 0 <= i < |requests| && requests[i].key == k && Counts(requests, i) && sku in requests[i].skus
      ensures (k, sku) in Allowed(orders, Unique(requests, keys)) {
      assert requests[i] in Unique(requests, keys);
      assert (k, sku) == (requests[i].key, sku);
    }
  }

  lemma StartFollows(st: State, source: Source, requests: seq<Request>, reset: bool, k: Key, sku: string)
    ensures PriceIn(DoStart(st, source, requests, reset).cache, k, sku) == PriceAfter(st, Start(source, requests, reset), k, sku)
  {
    KeysAreNeeded(source.orders, k);
    if Needed(source.orders, k) {
      AllowedIsWanted(source.orders, requests, k, sku);
    }
  }

  lemma PublishFollows(st: State, run: nat, e: Event, k: Key, sku: string)
    requires Inv(st) && Enabled(st, run, e) && e.Publish?
    ensures PriceIn(Next(st, Step(run, e)).cache, k, sku) == PriceAfter(st, Step(run, e), k, sku)
  {
  }

  lemma BreakFollows(st: State, run: nat, e: Event, k: Key, sku: string)
    requires Inv(st) && Enabled(st, run, e) && e.Break?
    ensures PriceIn(Next(st, Step(run, e)).cache, k, sku) == PriceAfter(st, Step(run, e), k, sku)
  {
  }

  lemma OthersFollow(st: State, run: nat, e: Event)
    requires Inv(st) && !e.Publish? && !e.Break? && !e.Pop?
    ensures Next(st, Step(run, e)).cache == st.cache
  {
  }

  lemma PopFollows(st: State, run: nat)
    requires Inv(st)
    ensures Next(st, Step(run, Pop)).cache == st.cache
  {
  }

  /** Every step leaves the cached prices as they must be. */
  lemma PriceFollows(st: State, a: Action, k: Key, sku: string)
    requires Inv(st)
    ensures PriceIn(Next(st, a).cache, k, sku) == PriceAfter(st, a, k, sku)
  {
    match a
    case Start(source, requests, reset) => StartFollows(st, source, requests, reset, k, sku);
    case Cancel(_) =>
    case Prioritize(_, _) =>
    case Step(run, e) =>
      if !Enabled(st, run, e) {
      } else if e.Publish? {
        PublishFollows(st, run, e, k, sku);
      } else if e.Break? {
        BreakFollows(st, run, e, k, sku);
      } else if e.Pop? {
        PopFollows(st, run);
      } else {
        OthersFollow(st, run, e);
      }
  }

  // ---- over whole runs ----

  /** The step does not take the price away: it is no clearing, no start that drops it, and no
      reading of its key. */
  predicate Harmless(st: State, a: Action, k: Key, sku: string) {
    match a
    case Start(source, requests, reset) => !reset && st.context == Some(source.context) && StillWanted(source.orders, requests, k, sku)
    case Cancel(clear) => !clear
    case Prioritize(_, _) => true
    case Step(run, e) => !((e.Publish? && !e.failed) || e.Break?) || !Reads(st, run, k)
  }

  ghost predicate HarmlessAt(st: State, actions: seq<Action>, j: nat, k: Key, sku: string)
    requires Inv(st) && j < |actions|
  {
    Harmless(Run(st, actions[..j]), actions[j], k, sku)
  }

  /** From some step on nothing is held against the price. */
  ghost predicate HarmlessFrom(st: State, actions: seq<Action>, from: nat, k: Key, sku: string)
    requires Inv(st)
  {
    forall j: nat :: from <= j < |actions| ==> HarmlessAt(st, actions, j, k, sku)
  }

  lemma HarmlessBefore(st: State, actions: seq<Action>, n: nat, j: nat, k: Key, sku: string)
    requires Inv(st) && j < n <= |actions|
    ensures HarmlessAt(st, actions[..n], j, k, sku) <==> HarmlessAt(st, actions, j, k, sku)
  {
    assert actions[..n][..j] == actions[..j];
  }

  lemma HarmlessInit(st: State, actions: seq<Action>, from: nat, k: Key, sku: string)
    requires Inv(st) && |actions| > 0 && HarmlessFrom(st, actions, from, k, sku)
    ensures HarmlessFrom(st, actions[..|actions| - 1], from, k, sku)
  {
    var n := |actions| - 1;
    forall j: nat | from <= j < |actions[..n]| ensures HarmlessAt(st, actions[..n], j, k, sku) {
      HarmlessBefore(st, actions, n, j, k, sku);
      assert HarmlessAt(st, actions, j, k, sku);
    }
  }

  lemma HarmlessMore(st: State, actions: seq<Action>, from: nat, k: Key, sku: string)
    requires Inv(st) && |actions| > 0 && HarmlessFrom(st, actions[..|actions| - 1], from, k, sku)
    requires from < |actions| ==> HarmlessAt(st, actions, |actions| - 1, k, sku)
    ensures HarmlessFrom(st, actions, from, k, sku)
  {
    var n := |actions| - 1;
    forall j: nat | from <= j < |actions| ensures HarmlessAt(st, actions, j, k, sku) {
      if j < n {
        HarmlessBefore(st, actions, n, j, k, sku);
        assert HarmlessAt(st, actions[..n], j, k, sku);
      }
    }
  }

  /** A cached price stays through any interleaving that holds nothing against it. */
  lemma {:induction false} PriceSurvives(st: State, actions: seq<Action>, k: Key, sku: string)
    requires Inv(st) && PriceIn(st.cache, k, sku).Some? && HarmlessFrom(st, actions, 0, k, sku)
    ensures PriceIn(Run(st, actions).cache, k, sku) == PriceIn(st.cache, k, sku)
  {
    if |actions| > 0 {
      var init := actions[..|actions| - 1];
      HarmlessInit(st, actions, 0, k, sku);
      PriceSurvives(st, init, k, sku);
      assert HarmlessAt(st, actions, |actions| - 1, k, sku);
      PriceFollows(Run(st, init), actions[|actions| - 1], k, sku);
    }
  }

  /** The step reads this price for the key, as the live worker and without failure. */
  predicate Brings(st: State, a: Action, k: Key, sku: string, price: Option<real>) {
    && a.Step? && ((a.event.Publish? && !a.event.failed) || a.event.Break?) && Reads(st, a.run, k)
    && sku in a.event.prices && a.event.prices[sku] == price
  }

  /** The price comes from this step, and nothing was held against it since. */
  ghost predicate BroughtAt(st: State, actions: seq<Action>, i: nat, k: Key, sku: string, price: Option<real>)
    requires Inv(st)
  {
    i < |actions| && Brings(Run(st, actions[..i]), actions[i], k, sku, price) && HarmlessFrom(st, actions, i + 1, k, sku)
  }

  lemma BroughtInit(st: State, actions: seq<Action>, i: nat, k: Key, sku: string, price: Option<real>)
    requires Inv(st) && |actions| > 0
    requires BroughtAt(st, actions[..|actions| - 1], i, k, sku, price)
    requires HarmlessAt(st, actions, |actions| - 1, k, sku)
    ensures BroughtAt(st, actions, i, k, sku, price)
  {
    HarmlessMore(st, actions, i + 1, k, sku);
    assert actions[..|actions| - 1][..i] == actions[..i];
  }

  lemma PriceStays(st: State, a: Action, k: Key, sku: string)
    requires Inv(st) && PriceIn(Next(st, a).cache, k, sku).Some?
    ensures var price := PriceIn(Next(st, a).cache, k, sku).value;
      Brings(st, a, k, sku, price) || (Harmless(st, a, k, sku) && PriceIn(st.cache, k, sku) == Some(price))
  {
    PriceFollows(st, a, k, sku);
  }

  /** Every cached price was there from the beginning, or a live worker read it under its key; since
      then no start or clearing dropped it, and no other reading replaced it. */
  lemma {:induction false} PriceHasASource(st: State, actions: seq<Action>, k: Key, sku: string)
    requires Inv(st) && PriceIn(Run(st, actions).cache, k, sku).Some?
    ensures var price := PriceIn(Run(st, actions).cache, k, sku).value;
      || (PriceIn(st.cache, k, sku) == Some(price) && HarmlessFrom(st, actions, 0, k, sku))
      || exists i: nat :: BroughtAt(st, actions, i, k, sku, price)
  {
    if |actions| > 0 {
      var n := |actions| - 1;
      var init, last := actions[..n], actions[n];
      var price := PriceIn(Run(st, actions).cache, k, sku).value;
      PriceStays(Run(st, init), last, k, sku);
      if Brings(Run(st, init), last, k, sku, price) {
        assert BroughtAt(st, actions, n, k, sku, price);
      } else {
        PriceHasASource(st, init, k, sku);
        assert HarmlessAt(st, actions, n, k, sku);
        if HarmlessFrom(st, init, 0, k, sku) {
          HarmlessMore(st, actions, 0, k, sku);
        }
        forall i: nat | BroughtAt(st, init, i, k, sku, price) ensures BroughtAt(st, actions, i, k, sku, price) {
          BroughtInit(st, actions, i, k, sku, price);
        }
      }
    }
  }

  // ---- what a start, a publication and a prioritization do ----

  /** A start queues exactly, for every needed key that is asked for, the last request, and shows
      the kept prices as evidence with nothing read yet. */
  lemma StartMeans(st: State, source: Source, requests: seq<Request>, reset: bool)
    ensures var r := DoStart(st, source, requests, reset);
      && (forall q :: q in r.queue <==> Needed(source.orders, q.key) && LastOf(requests, q))
      && (forall i, j :: 0 <= i < j < |r.queue| ==> r.queue[i].key != r.queue[j].key)
      && r.generation == st.generation + 1 && r.context == Some(source.context)
      && r.published == Some(Evidence(source.id, source.orders, r.cache, 0, |r.queue|, r.queue != [], 0, false))
      && r.workers == st.workers[r.generation := Worker(r.queue, 1, Looping, [])]
  {
    var keys := KeysOf(source.orders);
    forall q ensures q in Unique(requests, keys) <==> Needed(source.orders, q.key) && LastOf(requests, q) {
      UniqueAreLast(requests, keys, q);
      KeysAreNeeded(source.orders, q.key);
    }
  }

  /** What the live worker publishes: as many requests are completed as it has read, one more has
      failed if this one did, and every 25th and the last show the cache of the moment. */
  lemma PublicationMeans(st: State, prices: Prices, failed: bool, saved: bool)
    requires Inv(st) && Enabled(st, st.generation, Publish(prices, failed, saved))
    ensures st.published.Some?
    ensures var r, w, before := Next(st, Step(st.generation, Publish(prices, failed, saved))), st.workers[st.generation], st.published.value;
      && r.published.Some? && r.queue == st.queue && r.context == st.context
      && var e := r.published.value;
         && e.sourceId == before.sourceId && e.orders == before.orders && e.total == before.total == |w.requests|
         && e.completed == |w.taken|
         && e.failures == before.failures + (if failed then 1 else 0)
         && (e.pending <==> |w.taken| < |w.requests|)
         && (if |w.taken| % 25 == 0 || |w.taken| == |w.requests|
             then e.prices == r.cache && (e.persistenceError <==> before.persistenceError || !saved)
             else e.prices == before.prices && e.persistenceError == before.persistenceError)
  {
  }

  function Choose(queue: seq<Request>, skus: set<string>, wanted: bool): seq<Request> {
    if |queue| == 0 then []
    else (if ((exists sku <- skus :: sku in queue[0].skus) <==> wanted) then [queue[0]] else []) + Choose(queue[1..], skus, wanted)
  }

  lemma WantedShares(skus: set<string>, r: Request)
    ensures Wanted(skus, r) <==> exists sku <- skus :: sku in r.skus
  {
    forall sku | sku in skus && sku in r.skus ensures Wanted(skus, r) {
      assert sku in skus * r.skus;
    }
    if Wanted(skus, r) {
      var sku :| sku in skus * r.skus;
    }
  }

  lemma {:induction false} InsertUnwanted(x: Request, front: seq<Request>, back: seq<Request>, skus: set<string>)
    requires !Wanted(skus, x) && (forall r <- front :: Wanted(skus, r)) && forall r <- back :: !Wanted(skus, r)
    ensures Insert(x, front + back, WantedFirst(skus)) == front + [x] + back
  {
    if |front| == 0 {
      EmptyFront(back);
      EmptyFront([x]);
    } else {
      HeadTail(front);
      ConcatTail(front, back);
      InsertUnwanted(x, front[1..], back, skus);
      assert front + [x] + back == [front[0]] + (front[1..] + [x] + back);
    }
  }

  lemma {:induction false} SortChooses(queue: seq<Request>, skus: set<string>)
    ensures Sort(queue, WantedFirst(skus)) == Choose(queue, skus, true) + Choose(queue, skus, false)
    ensures forall r <- Choose(queue, skus, true) :: Wanted(skus, r)
    ensures forall r <- Choose(queue, skus, false) :: !Wanted(skus, r)
  {
    if |queue| > 0 {
      var x, rest := queue[0], queue[1..];
      SortChooses(rest, skus);
      WantedShares(skus, x);
      if Wanted(skus, x) {
        Associative([x], Choose(rest, skus, true), Choose(rest, skus, false));
        EmptyFront(Choose(rest, skus, false));
      } else {
        InsertUnwanted(x, Choose(rest, skus, true), Choose(rest, skus, false), skus);
        Associative(Choose(rest, skus, true), [x], Choose(rest, skus, false));
        EmptyFront(Choose(rest, skus, true));
      }
    }
  }

  /** Prioritizing puts the requests that name a chosen product first, and otherwise keeps their order. */
  lemma PrioritizationMeans(st: State, sourceId: string, skus: set<string>)
    ensures var r := DoPrioritize(st, sourceId, skus);
      r == st.(queue := if st.published.Some? && st.published.value.sourceId == sourceId
                        then Choose(st.queue, skus, true) + Choose(st.queue, skus, false) else st.queue)
  {
    SortChooses(st.queue, skus);
  }
}
