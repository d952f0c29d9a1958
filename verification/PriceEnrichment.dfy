/** The generation-guarded background worker (backend/ozon/price_enrichment.py). Every start and
    cancel opens a new generation; each start leaves a worker thread behind, and a thread of an
    older generation may still take any of its steps, at any later time. */
module PriceEnrichment {
  import opened Wrappers
  import opened Sequences
  import opened StableSort

  /** A private price key with its lifecycle. */
  datatype Key = Key(digest: string, lifecycle: string)

  datatype Order = Order(digest: Option<string>, lifecycle: string, sku: string)

  datatype Request = Request(key: Key, skus: set<string>)

  type Prices = map<string, Option<real>>

  datatype Source = Source(id: string, context: string, orders: seq<Order>)

  datatype Evidence = Evidence(
    sourceId: string, orders: seq<Order>, prices: map<Key, Prices>,
    completed: nat, total: nat, pending: bool, failures: nat, persistenceError: bool)

  /** Where a worker stands: before its next request, with a request it has read, in the handler
      of an exception, in `finally`, or gone. */
  datatype Phase = Looping | Reading(request: Request) | Failing | Finishing | Stopped

  /** A worker thread: its requests, the one-based loop index, and the requests it has popped. */
  datatype Worker = Worker(requests: seq<Request>, index: nat, phase: Phase, taken: seq<Request>)

  datatype State = State(
    generation: nat, queue: seq<Request>, cache: map<Key, Prices>, context: Option<string>,
    published: Option<Evidence>, workers: map<nat, Worker>)

  /** What a worker does next: leave the loop, pop a request under the lock, publish a result
      under the lock, break off that section after the cache was written, have its publication
      dropped, raise, handle the exception, finish. An exception after the evidence was replaced is
      a publication followed by raising. */
  datatype Event =
    | Leave | Pop | Publish(prices: Prices, failed: bool, saved: bool) | Break(prices: Prices) | Drop | Raise | Handle | Finish

  datatype Action =
    | Start(source: Source, requests: seq<Request>, reset: bool)
    | Cancel(clear: bool)
    | Prioritize(sourceId: string, skus: set<string>)
    | Step(run: nat, event: Event)

  const CHECKPOINT := 25

  // ---- start, cancel, prioritize ----

  function KeysOf(orders: seq<Order>): set<Key> {
    set o <- orders | o.digest.Some? && |o.digest.value| > 0 :: Key(o.digest.value, o.lifecycle)
  }

  function PositionOf(rs: seq<Request>, key: Key): (i: nat)
    ensures i <= |rs|
    ensures i < |rs| ==> rs[i].key == key
    ensures forall j :: 0 <= j < i ==> rs[j].key != key
  {
    if |rs| == 0 || rs[0].key == key then 0 else 1 + PositionOf(rs[1..], key)
  }

  ghost predicate DistinctKeys(rs: seq<Request>) {
    forall i, j :: 0 <= i < j < |rs| ==> rs[i].key != rs[j].key
  }

  /** Assignment to a dict: a known key keeps its place. */
  function Put(rs: seq<Request>, r: Request): (u: seq<Request>)
    ensures DistinctKeys(rs) ==> DistinctKeys(u)
    ensures forall x <- u :: x == r || x in rs
    ensures forall x <- rs + [r] :: exists y <- u :: y.key == x.key
  {
    var i := PositionOf(rs, r.key);
    var u := if i == |rs| then rs + [r] else rs[i := r];
    assert u[i] == r;
    assert forall j :: 0 <= j < |rs| ==> u[j].key == rs[j].key;
    u
  }

  /** A dict comprehension by key: the first place, the last request. */
  function Unique(requests: seq<Request>, keys: set<Key>): (u: seq<Request>)
    ensures DistinctKeys(u)
    ensures forall r <- u :: r in requests && r.key in keys
  {
    if |requests| == 0 then []
    else
      var rest, r := Unique(requests[..|requests| - 1], keys), requests[|requests| - 1];
      if r.key in keys then Put(rest, r) else rest
  }

  lemma {:induction false} UniqueKeepsKeys(requests: seq<Request>, keys: set<Key>)
    ensures forall r <- requests :: r.key in keys ==> exists x <- Unique(requests, keys) :: x.key == r.key
  {
    if |requests| > 0 {
      var init, last := requests[..|requests| - 1], requests[|requests| - 1];
      UniqueKeepsKeys(init, keys);
      InitLast(requests);
      forall r | r in requests && r.key in keys ensures exists x <- Unique(requests, keys) :: x.key == r.key {
        if last.key in keys && r in init {
          var x :| x in Unique(init, keys) && x.key == r.key;
          assert x in Unique(init, keys) + [last];
        }
      }
    }
  }

  function Allowed(orders: seq<Order>, requests: seq<Request>): (a: set<(Key, string)>) {
    (set o <- orders | o.digest.Some? :: (Key(o.digest.value, o.lifecycle), o.sku)) +
    (set r <- requests, sku <- r.skus :: (r.key, sku))
  }

  function Keep(cache: map<Key, Prices>, keys: set<Key>, allowed: set<(Key, string)>): (c: map<Key, Prices>)
    ensures c.Keys <= keys
  {
    map k <- cache.Keys | k in keys :: map sku <- cache[k].Keys | (k, sku) in allowed :: cache[k][sku]
  }

  function DoStart(st: State, source: Source, requests: seq<Request>, reset: bool): State {
    var run := st.generation + 1;
    var cache := if reset || st.context != Some(source.context) then map[] else st.cache;
    var keys := KeysOf(source.orders);
    var unique := Unique(requests, keys);
    var kept := Keep(cache, keys, Allowed(source.orders, unique));
    State(run, unique, kept, Some(source.context),
          Some(Evidence(source.id, source.orders, kept, 0, |unique|, |unique| > 0, 0, false)),
          st.workers[run := Worker(unique, 1, Looping, [])])
  }

  function DoCancel(st: State, clear: bool): State {
    var published := if st.published.Some? then Some(st.published.value.(pending := false)) else None;
    if clear then st.(generation := st.generation + 1, published := None, cache := map[], context := None)
    else st.(generation := st.generation + 1, published := published)
  }

  predicate Wanted(skus: set<string>, r: Request) {
    skus * r.skus != {}
  }

  /** The sort key of `prioritize`: requests for the chosen SKUs first. */
  function WantedFirst(skus: set<string>): (Request, Request) -> bool {
    (a, b) => Wanted(skus, a) || !Wanted(skus, b)
  }

  function DoPrioritize(st: State, sourceId: string, skus: set<string>): State {
    if st.published.Some? && st.published.value.sourceId == sourceId then
      st.(queue := Sort(st.queue, WantedFirst(skus)))
    else st
  }

  // ---- worker steps ----

  predicate Live(st: State, run: nat) {
    run == st.generation
  }

  function Move(st: State, run: nat, w: Worker): State {
    st.(workers := st.workers[run := w])
  }

  /** The locked section that pops the next request. */
  function DoPop(st: State, run: nat, w: Worker): State
    requires Live(st, run) ==> |st.queue| > 0
  {
    if !Live(st, run) then Move(st, run, w.(phase := Finishing))
    else
      Move(st.(queue := st.queue[1..]), run, w.(phase := Reading(st.queue[0]), taken := w.taken + [st.queue[0]]))
  }

  /** The evidence after loop turn `index` of `count`: prices only at checkpoints. */
  function Progress(e: Evidence, index: nat, count: nat, cache: map<Key, Prices>, failed: bool, saved: bool): Evidence {
    var checkpoint := index % CHECKPOINT == 0 || index == count;
    e.(completed := index, prices := if checkpoint then cache else e.prices,
       pending := index < count, failures := e.failures + if failed then 1 else 0,
       persistenceError := e.persistenceError || (checkpoint && !saved))
  }

  /** The locked section `update`. */
  function DoPublish(st: State, run: nat, w: Worker, prices: Prices, failed: bool, saved: bool): State
    requires w.phase.Reading? && (Live(st, run) ==> st.published.Some?)
  {
    var next := w.(phase := Looping, index := w.index + 1);
    if !Live(st, run) then Move(st, run, next)
    else
      var cache := if failed then st.cache else st.cache[w.phase.request.key := prices];
      var e := Progress(st.published.value, w.index, |w.requests|, cache, failed, saved);
      Move(st.(cache := cache, published := Some(e)), run, next)
  }

  /** The locked section `update` when it raises between writing the cache and replacing the evidence. */
  function DoBreak(st: State, run: nat, w: Worker, prices: Prices): State
    requires w.phase.Reading?
  {
    var st' := Move(st, run, w.(phase := Failing));
    if Live(st, run) then st'.(cache := st.cache[w.phase.request.key := prices]) else st'
  }

  /** The locked section of the exception handler. */
  function DoHandle(st: State, run: nat, w: Worker): State
    requires Live(st, run) ==> st.published.Some?
  {
    var st' := Move(st, run, w.(phase := Finishing));
    if !Live(st, run) then st'
    else
      var e := st.published.value;
      st'.(published := Some(e.(pending := false, failures := e.failures + 1)))
  }

  /** The locked section of `finally`. */
  function DoFinish(st: State, run: nat, w: Worker): State {
    var st' := Move(st, run, w.(phase := Stopped));
    if Live(st, run) && st.published.Some? then st'.(published := Some(st.published.value.(pending := false))) else st'
  }

  /** A worker may leave the loop when its range is exhausted or a check outside the lock says so;
      it pops only inside its range. */
  predicate Enabled(st: State, run: nat, e: Event) {
    run in st.workers &&
    var w := st.workers[run];
    match e
    case Leave => w.phase.Looping?
    case Pop => w.phase.Looping? && w.index <= |w.requests|
    case Publish(_, _, _) => w.phase.Reading?
    case Break(_) => w.phase.Reading?
    case Drop => w.phase.Reading?
    case Raise => w.phase.Looping? || w.phase.Reading?
    case Handle => w.phase.Failing?
    case Finish => w.phase.Finishing?
  }

  function Next(st: State, a: Action): State
    requires Inv(st)
  {
    match a
    case Start(source, requests, reset) => DoStart(st, source, requests, reset)
    case Cancel(clear) => DoCancel(st, clear)
    case Prioritize(sourceId, skus) => DoPrioritize(st, sourceId, skus)
    case Step(run, e) =>
      if !Enabled(st, run, e) then st
      else
        var w := st.workers[run];
        match e
        case Leave => Move(st, run, w.(phase := Finishing))
        case Pop => PopIsSafe(st, run); DoPop(st, run, w)
        case Publish(prices, failed, saved) => DoPublish(st, run, w, prices, failed, saved)
        case Break(prices) => DoBreak(st, run, w, prices)
        case Drop => Move(st, run, w.(phase := Looping, index := w.index + 1))
        case Raise => Move(st, run, w.(phase := Failing))
        case Handle => DoHandle(st, run, w)
        case Finish => DoFinish(st, run, w)
  }

  // ---- the invariant ----

  /** A worker has popped one request per loop turn, and none twice. */
  ghost predicate WorkerInv(w: Worker) {
    && DistinctKeys(w.requests) && 1 <= w.index
    && multiset(w.taken) <= multiset(w.requests)
    && (w.phase.Looping? ==> |w.taken| == w.index - 1)
    && (w.phase.Reading? ==> |w.taken| == w.index && w.taken[w.index - 1] == w.phase.request)
  }

  /** The live worker's read requests and the queue together are what was started. */
  ghost predicate LiveInv(st: State, w: Worker) {
    && multiset(w.taken) + multiset(st.queue) == multiset(w.requests)
    && st.published.Some?
    && var e := st.published.value;
      && e.total == |w.requests| && e.completed <= e.total
      && (w.phase.Looping? || w.phase.Reading? ==> e.completed < w.index)
      && (forall r <- w.requests :: r.key in KeysOf(e.orders))
      && (e.completed == e.total ==> e.prices == st.cache)
      && (e.completed == e.total ==> !e.pending)
  }

  ghost predicate Inv(st: State) {
    && (forall run <- st.workers.Keys :: run <= st.generation && WorkerInv(st.workers[run]))
    && (st.generation in st.workers ==> LiveInv(st, st.workers[st.generation]))
    && (st.published.Some? ==> st.cache.Keys <= KeysOf(st.published.value.orders))
    && (st.published.Some? && st.published.value.pending ==>
          st.generation in st.workers && !st.workers[st.generation].phase.Stopped?)
  }

  lemma PopIsSafe(st: State, run: nat)
    requires Inv(st) && Enabled(st, run, Pop)
    ensures Live(st, run) ==> |st.queue| > 0
  {
    if Live(st, run) {
      var w := st.workers[run];
      assert |multiset(w.taken)| + |multiset(st.queue)| == |multiset(w.requests)|;
    }
  }

  ghost predicate Initial(st: State) {
    st.generation == 0 && st.queue == [] && st.published.None? && st.workers == map[]
  }

  lemma StartKeeps(st: State, source: Source, requests: seq<Request>, reset: bool)
    requires Inv(st)
    ensures Inv(DoStart(st, source, requests, reset))
  {
    var st' := DoStart(st, source, requests, reset);
    forall run | run in st'.workers.Keys ensures run <= st'.generation && WorkerInv(st'.workers[run]) {
      if run != st'.generation {
        assert run in st.workers.Keys;
      }
    }
  }

  lemma CancelKeeps(st: State, clear: bool)
    requires Inv(st)
    ensures Inv(DoCancel(st, clear))
  {
  }

  lemma PrioritizeKeeps(st: State, sourceId: string, skus: set<string>)
    requires Inv(st)
    ensures Inv(DoPrioritize(st, sourceId, skus))
  {
    SortKeeps(st.queue, WantedFirst(skus));
  }

  lemma PopKeeps(st: State, run: nat)
    requires Inv(st) && Enabled(st, run, Pop)
    ensures Inv(Next(st, Step(run, Pop)))
  {
    var w, st' := st.workers[run], Next(st, Step(run, Pop));
    PopIsSafe(st, run);
    if Live(st, run) {
      var w' := st'.workers[run];
      HeadTail(st.queue);
      assert multiset(w'.taken) == multiset(w.taken) + multiset{st.queue[0]};
      assert multiset(w'.taken) + multiset(st'.queue) == multiset(w.requests);
      assert WorkerInv(w');
    }
  }

  lemma TakenFits(w: Worker)
    requires multiset(w.taken) <= multiset(w.requests)
    ensures |w.taken| <= |w.requests|
  {
    assert multiset(w.requests) == multiset(w.taken) + (multiset(w.requests) - multiset(w.taken));
    assert |multiset(w.taken)| <= |multiset(w.requests)|;
  }

  /** Changing only a worker's record, and that in a way its own invariant allows, keeps the rest. */
  lemma MoveKeeps(st: State, run: nat, w: Worker)
    requires Inv(st) && run in st.workers && WorkerInv(w)
    requires Live(st, run) ==> LiveInv(st, w) && (st.published.Some? && st.published.value.pending ==> !w.phase.Stopped?)
    ensures Inv(Move(st, run, w))
  {
  }

  lemma PublishKeeps(st: State, run: nat, prices: Prices, failed: bool, saved: bool)
    requires Inv(st) && Enabled(st, run, Publish(prices, failed, saved))
    ensures Inv(DoPublish(st, run, st.workers[run], prices, failed, saved))
  {
    var w := st.workers[run];
    var next := w.(phase := Looping, index := w.index + 1);
    if !Live(st, run) {
      MoveKeeps(st, run, next);
    } else {
      var st' := DoPublish(st, run, w, prices, failed, saved);
      ReadAmongRequests(w);
      assert st'.cache.Keys <= st.cache.Keys + {w.phase.request.key};
      PublishedLive(st, w, st', next);
    }
  }

  lemma PublishedLive(st: State, w: Worker, st': State, next: Worker)
    requires Inv(st) && st.generation in st.workers && w == st.workers[st.generation] && WorkerInv(next)
    requires st'.generation == st.generation && st'.workers == st.workers[st.generation := next] && st'.published.Some? && st.published.Some?
    requires LiveInv(st', next) && !next.phase.Stopped?
    requires st'.cache.Keys <= KeysOf(st'.published.value.orders)
    ensures Inv(st')
  {
  }

  lemma ReadAmongRequests(w: Worker)
    requires WorkerInv(w) && w.phase.Reading?
    ensures w.phase.request in w.requests && w.index <= |w.requests|
  {
    assert w.phase.request in multiset(w.taken);
    assert w.phase.request in multiset(w.requests);
    TakenFits(w);
  }

  lemma BreakKeeps(st: State, run: nat, prices: Prices)
    requires Inv(st) && Enabled(st, run, Break(prices))
    ensures Inv(DoBreak(st, run, st.workers[run], prices))
  {
    var w := st.workers[run];
    var next := w.(phase := Failing);
    if !Live(st, run) {
      MoveKeeps(st, run, next);
    } else {
      var st' := DoBreak(st, run, w, prices);
      ReadAmongRequests(w);
      assert st'.cache.Keys <= st.cache.Keys + {w.phase.request.key};
      PublishedLive(st, w, st', next);
    }
  }

  lemma LeaveKeeps(st: State, run: nat, e: Event)
    requires Inv(st) && Enabled(st, run, e) && (e.Leave? || e.Drop? || e.Raise?)
    ensures Inv(Next(st, Step(run, e)))
  {
    var w := st.workers[run];
    var next :=
      if e.Leave? then w.(phase := Finishing)
      else if e.Drop? then w.(phase := Looping, index := w.index + 1)
      else w.(phase := Failing);
    MoveKeeps(st, run, next);
  }

  lemma HandleKeeps(st: State, run: nat)
    requires Inv(st) && Enabled(st, run, Handle)
    ensures Inv(DoHandle(st, run, st.workers[run]))
  {
    var next := st.workers[run].(phase := Finishing);
    if Live(st, run) {
      PublishedLive(st, st.workers[run], DoHandle(st, run, st.workers[run]), next);
    } else {
      MoveKeeps(st, run, next);
    }
  }

  lemma FinishKeeps(st: State, run: nat)
    requires Inv(st) && Enabled(st, run, Finish)
    ensures Inv(DoFinish(st, run, st.workers[run]))
  {
    var next := st.workers[run].(phase := Stopped);
    if !Live(st, run) {
      MoveKeeps(st, run, next);
    }
  }

  /** Every step of the service and of every worker, live or superseded, keeps the invariant. */
  lemma NextKeeps(st: State, a: Action)
    requires Inv(st)
    ensures Inv(Next(st, a))
  {
    match a
    case Start(source, requests, reset) => StartKeeps(st, source, requests, reset);
    case Cancel(clear) => CancelKeeps(st, clear);
    case Prioritize(sourceId, skus) => PrioritizeKeeps(st, sourceId, skus);
    case Step(run, e) =>
      if Enabled(st, run, e) {
        if e.Pop? {
          PopKeeps(st, run);
        } else if e.Publish? {
          PublishKeeps(st, run, e.prices, e.failed, e.saved);
        } else if e.Break? {
          BreakKeeps(st, run, e.prices);
        } else if e.Handle? {
          HandleKeeps(st, run);
        } else if e.Finish? {
          FinishKeeps(st, run);
        } else {
          LeaveKeeps(st, run, e);
        }
      }
  }

  // ---- whole runs ----

  function Run(st: State, actions: seq<Action>): (r: State)
    requires Inv(st)
    ensures Inv(r)
  {
    if |actions| == 0 then st
    else
      var before := Run(st, actions[..|actions| - 1]);
      NextKeeps(before, actions[|actions| - 1]);
      Next(before, actions[|actions| - 1])
  }

  /** After any interleaving from the start: every worker, live or superseded, has read only its
      own requests and none of them twice; the live worker's reads and the queue together are
      exactly the requests started; and pending evidence always has a live worker behind it. */
  lemma NoRequestIsLostOrReadTwice(st: State, actions: seq<Action>)
    requires Initial(st)
    ensures Inv(st)
    ensures var r := Run(st, actions);
      && (forall run <- r.workers.Keys ::
           var w := r.workers[run];
           && multiset(w.taken) <= multiset(w.requests)
           && forall i, j :: 0 <= i < j < |w.taken| ==> w.taken[i].key != w.taken[j].key)
      && (r.generation in r.workers ==>
           var w := r.workers[r.generation]; multiset(w.taken) + multiset(r.queue) == multiset(w.requests))
      && (r.published.Some? && r.published.value.pending ==>
           r.generation in r.workers && !r.workers[r.generation].phase.Stopped?)
  {
    var r := Run(st, actions);
    forall run | run in r.workers.Keys
      ensures forall i, j :: 0 <= i < j < |r.workers[run].taken| ==> r.workers[run].taken[i].key != r.workers[run].taken[j].key
    {
      TakenIsDistinct(r.workers[run].taken, r.workers[run].requests);
    }
  }

  lemma TakenIsDistinct(taken: seq<Request>, requests: seq<Request>)
    requires DistinctKeys(requests) && multiset(taken) <= multiset(requests)
    ensures DistinctKeys(taken)
  {
    NoDupAmong(requests, taken);
    forall i, j | 0 <= i < j < |taken| ensures taken[i].key != taken[j].key {
      assert taken[i] in multiset(requests) && taken[j] in multiset(requests);
    }
  }

  predicate OwnSteps(run: nat, actions: seq<Action>) {
    forall a <- actions :: a.Step? && a.run == run
  }

  /** Everything but the record of one worker is the same. */
  ghost predicate SameButWorker(st: State, r: State, run: nat) {
    && r.generation == st.generation && r.queue == st.queue && r.cache == st.cache
    && r.context == st.context && r.published == st.published
    && r.workers - {run} == st.workers - {run}
  }

  lemma SupersededStep(st: State, run: nat, e: Event)
    requires Inv(st) && run != st.generation
    ensures SameButWorker(st, Next(st, Step(run, e)), run)
  {
    var r := Next(st, Step(run, e));
    if r != st {
      assert r.workers == st.workers[run := r.workers[run]];
      OneWorkerChanges(st.workers, run, r.workers[run]);
    }
  }

  lemma OneWorkerChanges(workers: map<nat, Worker>, run: nat, w: Worker)
    ensures workers[run := w] - {run} == workers - {run}
  {
  }

  /** A superseded worker is inert: whatever it still does, and however often it is resumed, the
      generation, queue, cache, context and published evidence stay as they are. */
  lemma {:induction false} SupersededIsInert(st: State, run: nat, actions: seq<Action>)
    requires Inv(st) && run != st.generation && OwnSteps(run, actions)
    ensures SameButWorker(st, Run(st, actions), run)
  {
    if |actions| > 0 {
      var init, last := actions[..|actions| - 1], actions[|actions| - 1];
      SupersededIsInert(st, run, init);
      assert last in actions;
      SupersededStep(Run(st, init), run, last.event);
    }
  }

  /** When the live worker has published its last result, the published prices are the cache. */
  lemma CompletedEvidenceIsTheCache(st: State, actions: seq<Action>)
    requires Initial(st) && Inv(st)
    ensures var r := Run(st, actions);
      r.generation in r.workers && r.published.value.completed == r.published.value.total ==>
        r.published.value.prices == r.cache && !r.published.value.pending && r.cache.Keys <= KeysOf(r.published.value.orders)
  {
    var r := Run(st, actions);
    assert Inv(r);
  }

  // ---- the service object ----

  class OrderPriceEnrichment {
    var generation: nat
    var queue: seq<Request>
    var cache: map<Key, Prices>
    var context: Option<string>
    var published: Option<Evidence>
    /** The threads ever started, with their program positions. */
    ghost var workers: map<nat, Worker>

    ghost function View(): State
      reads this
    {
      State(generation, queue, cache, context, published, workers)
    }

    ghost predicate Valid()
      reads this
    {
      Inv(View())
    }

    /** A service with whatever `_restore` read back. */
    constructor (context: Option<string>, cache: map<Key, Prices>)
      ensures Valid() && Initial(View()) && this.cache == cache && this.context == context
    {
      generation, queue, published, workers := 0, [], None, map[];
      this.cache, this.context := cache, context;
    }

    /** The locked section of `start`. */
    method Restart(source: Source, requests: seq<Request>, reset: bool)
      modifies this
      ensures View() == DoStart(old(View()), source, requests, reset)
    {
      generation := generation + 1;
      var run := generation;
      if reset || context != Some(source.context) {
        cache := map[];
      }
      context := Some(source.context);
      var keys := KeysOf(source.orders);
      var unique := Unique(requests, keys);
      cache := Keep(cache, keys, Allowed(source.orders, unique));
      queue := unique;
      published := Some(Evidence(source.id, source.orders, cache, 0, |unique|, |unique| > 0, 0, false));
      workers := workers[run := Worker(unique, 1, Looping, [])];
    }

    method StartRun(source: Source, requests: seq<Request>, reset: bool)
      requires Valid()
      modifies this
      ensures Valid() && View() == Next(old(View()), Start(source, requests, reset))
    {
      NextKeeps(View(), Start(source, requests, reset));
      Restart(source, requests, reset);
    }

    method CancelRun(clear: bool)
      requires Valid()
      modifies this
      ensures Valid() && View() == Next(old(View()), Cancel(clear))
    {
      NextKeeps(View(), Cancel(clear));
      Invalidate(clear);
    }

    /** The locked section of `cancel`. */
    method Invalidate(clear: bool)
      modifies this
      ensures View() == DoCancel(old(View()), clear)
    {
      generation := generation + 1;
      if published.Some? {
        published := Some(published.value.(pending := false));
      }
      if clear {
        published, cache, context := None, map[], None;
      }
    }

    method PrioritizeSkus(sourceId: string, skus: set<string>)
      requires Valid()
      modifies this
      ensures Valid() && View() == Next(old(View()), Prioritize(sourceId, skus))
      ensures multiset(queue) == multiset(old(queue))
    {
      NextKeeps(View(), Prioritize(sourceId, skus));
      SortKeeps(queue, WantedFirst(skus));
      if published.Some? && published.value.sourceId == sourceId {
        queue := Sort(queue, WantedFirst(skus));
      }
    }

    /** The locked pop of worker `run`: None when the worker has been superseded. */
    method PopNext(run: nat) returns (request: Option<Request>)
      requires Valid() && Enabled(View(), run, Pop)
      modifies this
      ensures Valid() && View() == Next(old(View()), Step(run, Pop))
      ensures request.Some? <==> run == generation
      ensures request.Some? ==> |old(queue)| > 0 && request.value == old(queue)[0]
    {
      NextKeeps(View(), Step(run, Pop));
      PopIsSafe(View(), run);
      request := PopFront(run);
    }

    method PopFront(run: nat) returns (request: Option<Request>)
      requires run in workers && (run == generation ==> |queue| > 0)
      modifies this
      ensures View() == DoPop(old(View()), run, old(workers[run]))
      ensures request == if run == generation then Some(old(queue)[0]) else None
    {
      ghost var w := workers[run];
      if run != generation {
        workers := workers[run := w.(phase := Finishing)];
        return None;
      }
      request := Some(queue[0]);
      queue := queue[1..];
      workers := workers[run := w.(phase := Reading(request.value), taken := w.taken + [request.value])];
    }

    /** The locked `update` of worker `run` at loop index `index` of `count`. */
    method Update(run: nat, index: nat, count: nat, request: Request, prices: Prices, failed: bool, saved: bool)
      requires Valid() && Enabled(View(), run, Publish(prices, failed, saved))
      requires workers[run].index == index && |workers[run].requests| == count && workers[run].phase == Reading(request)
      modifies this
      ensures Valid() && View() == Next(old(View()), Step(run, Publish(prices, failed, saved)))
    {
      NextKeeps(View(), Step(run, Publish(prices, failed, saved)));
      PublishResult(run, index, count, request, prices, failed, saved);
    }

    method PublishResult(run: nat, index: nat, count: nat, request: Request, prices: Prices, failed: bool, saved: bool)
      requires run in workers && (run == generation ==> published.Some?)
      requires workers[run].index == index && |workers[run].requests| == count && workers[run].phase == Reading(request)
      modifies this
      ensures View() == DoPublish(old(View()), run, old(workers[run]), prices, failed, saved)
    {
      workers := workers[run := workers[run].(phase := Looping, index := workers[run].index + 1)];
      if run != generation {
        return;
      }
      if !failed {
        cache := cache[request.key := prices];
      }
      published := Some(Progress(published.value, index, count, cache, failed, saved));
    }

    /** The locked `update` when it raises after the cache was written. */
    method BreakUpdate(run: nat, request: Request, prices: Prices)
      requires Valid() && Enabled(View(), run, Break(prices)) && workers[run].phase == Reading(request)
      modifies this
      ensures Valid() && View() == Next(old(View()), Step(run, Break(prices)))
    {
      NextKeeps(View(), Step(run, Break(prices)));
      CacheOnly(run, request, prices);
    }

    method CacheOnly(run: nat, request: Request, prices: Prices)
      requires run in workers && workers[run].phase == Reading(request)
      modifies this
      ensures View() == DoBreak(old(View()), run, old(workers[run]), prices)
    {
      workers := workers[run := workers[run].(phase := Failing)];
      if run == generation {
        cache := cache[request.key := prices];
      }
    }

    /** The locked exception handler of worker `run`. */
    method HandleFailure(run: nat)
      requires Valid() && Enabled(View(), run, Handle)
      modifies this
      ensures Valid() && View() == Next(old(View()), Step(run, Handle))
    {
      NextKeeps(View(), Step(run, Handle));
      NoteFailure(run);
    }

    method NoteFailure(run: nat)
      requires run in workers && (run == generation ==> published.Some?)
      modifies this
      ensures View() == DoHandle(old(View()), run, old(workers[run]))
    {
      workers := workers[run := workers[run].(phase := Finishing)];
      if run == generation {
        published := Some(published.value.(pending := false, failures := published.value.failures + 1));
      }
    }

    /** The locked `finally` of worker `run`. */
    method FinishRun(run: nat)
      requires Valid() && Enabled(View(), run, Finish)
      modifies this
      ensures Valid() && View() == Next(old(View()), Step(run, Finish))
    {
      NextKeeps(View(), Step(run, Finish));
      StopPending(run);
    }

    method StopPending(run: nat)
      requires run in workers
      modifies this
      ensures View() == DoFinish(old(View()), run, old(workers[run]))
    {
      workers := workers[run := workers[run].(phase := Stopped)];
      if run == generation && published.Some? {
        published := Some(published.value.(pending := false));
      }
    }
  }
}
