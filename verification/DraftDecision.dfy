/** What the locked section of `validate` decides, over the whole history of requests and results
    (backend/ozon/draft_validation.py:203-241, 258-267). */
module DraftDecision {
  import opened Wrappers
  import opened Sequences
  import opened Orchestration
  import opened DraftBudget
  import opened DraftProtocol

  /** How many create requests were ever sent less than `width` seconds ago. */
  function SentWithin(creates: seq<Create>, now: real, width: real): nat {
    if |creates| == 0 then 0
    else SentWithin(creates[..|creates| - 1], now, width) + if now - creates[|creates| - 1].at < width then 1 else 0
  }

  /** Some budget is spent: 2 in a minute, 50 in an hour, 500 in a day. */
  predicate Spent(creates: seq<Create>, now: real) {
    SentWithin(creates, now, 60.0) >= 2 || SentWithin(creates, now, 3600.0) >= 50 || SentWithin(creates, now, 86400.0) >= 500
  }

  /** How long a result is kept: a day when nobody knows what became of the request, else two minutes. */
  function Lifetime(v: Validation): real {
    if v.state == OutcomeUnknown then 86400.0 else 120.0
  }

  /** The cache holds a result for the key that is young enough. */
  ghost predicate Holds(s: State, key: Key, v: Validation) {
    exists e <- s.cache :: e.key == key && e.option == v && s.now - e.at < Lifetime(v)
  }

  /** A draft of the key may still be resumed. */
  predicate Resumable(s: State, key: Key) {
    key in s.resumable && s.now - s.resumable[key].createdAt < 86400.0
  }

  /** A live cached result is answered; a flight for the key is joined; a draft younger than a day is
      resumed; a new draft is created when the call may and no budget is spent; all else is refused. */
  ghost predicate Decided(s: State, key: Key, mayCreate: bool, v: Verdict) {
    if v.Cached? then Holds(s, key, v.option)
    else if exists x :: Holds(s, key, x) then false
    else if key in s.inflight then v == Joined(s.inflight[key])
    else if Resumable(s, key) then v == Resumed(|s.flights|)
    else if mayCreate && !Spent(s.creates, s.now) then v == Created(|s.flights|)
    else v == Limited
  }

  // ---- the budgets, over all requests ----

  lemma {:induction false} SentIsRecent(creates: seq<Create>, now: real, width: real)
    ensures SentWithin(creates, now, width) == Recent(Times(creates), now, width)
  {
    if |creates| > 0 {
      var init := creates[..|creates| - 1];
      SentIsRecent(init, now, width);
      InitLast(creates);
      TimesSnoc(init, creates[|creates| - 1]);
      SnocInit(Times(init), creates[|creates| - 1].at);
    }
  }

  /** Readings older than the window do not count. */
  lemma {:induction false} OldDoNotCount(ts: seq<real>, k: nat, now: real, width: real)
    requires k <= |ts| && forall i :: 0 <= i < k ==> now - ts[i] >= width
    ensures Recent(ts, now, width) == Recent(ts[k..], now, width)
  {
    if k < |ts| {
      var init := ts[..|ts| - 1];
      OldDoNotCount(init, k, now, width);
      assert ts[k..][..|ts[k..]| - 1] == init[k..];
    } else {
      NoneRecent(ts, now, width);
    }
  }

  lemma {:induction false} NoneRecent(ts: seq<real>, now: real, width: real)
    requires forall i :: 0 <= i < |ts| ==> now - ts[i] >= width
    ensures Recent(ts, now, width) == 0
  {
    if |ts| > 0 {
      NoneRecent(ts[..|ts| - 1], now, width);
    }
  }

  lemma KeptCountAll(creates: seq<Create>, attempts: seq<real>, now: real, width: real)
    requires Remembers(Times(creates), attempts, now) && width <= 86400.0
    ensures Recent(attempts, now, width) == SentWithin(creates, now, width)
  {
    var ts := Times(creates);
    SentIsRecent(creates, now, width);
    OldDoNotCount(ts, |ts| - |attempts|, now, width);
  }

  lemma KeptAreOfTheDay(ts: seq<real>, attempts: seq<real>, now: real)
    requires Ordered(ts) && Remembers(ts, attempts, now)
    ensures Remembers(ts, DropOld(attempts, now), now) && Recent(DropOld(attempts, now), now, DAY) == |DropOld(attempts, now)|
  {
    DropRemembers(ts, attempts, now);
    OrderedSuffix(ts, |ts| - |attempts|);
    KeptAreRecent(attempts, now);
  }

  lemma DeniedWhenSpent(creates: seq<Create>, kept: seq<real>, now: real)
    requires Remembers(Times(creates), kept, now) && Recent(kept, now, DAY) == |kept|
    ensures Denied(kept, now) <==> Spent(creates, now)
  {
    KeptCountAll(creates, kept, now, 60.0);
    KeptCountAll(creates, kept, now, 3600.0);
    KeptCountAll(creates, kept, now, 86400.0);
  }

  /** The service denies a slot exactly when some budget is spent, although it remembers one day only. */
  lemma DeniedMeansSpent(s: State)
    requires BudgetInv(s)
    ensures Denied(DropOld(s.attempts, s.now), s.now) <==> Spent(s.creates, s.now)
  {
    KeptAreOfTheDay(Times(s.creates), s.attempts, s.now);
    DeniedWhenSpent(s.creates, DropOld(s.attempts, s.now), s.now);
  }

  // ---- the decision ----

  lemma LiveIsHeld(s: State, key: Key)
    requires Rising(s.cache)
    ensures Live(s.cache, key, s.now).Some? ==> Holds(s, key, Live(s.cache, key, s.now).value)
    ensures Live(s.cache, key, s.now).None? ==> forall x :: !Holds(s, key, x)
  {
    var i := Find(s.cache, key);
    if Live(s.cache, key, s.now).Some? {
      assert s.cache[i] in s.cache;
    }
    forall x | Holds(s, key, x) ensures Live(s.cache, key, s.now).Some? {
      var e :| e in s.cache && e.key == key && e.option == x && s.now - e.at < Lifetime(x);
      var j :| 0 <= j < |s.cache| && s.cache[j] == e;
      assert i < |s.cache| && i == j;
    }
  }

  lemma PrunedIsResumable(s: State, key: Key)
    ensures key in AfterSearch(s, key).resumable <==> Resumable(s, key)
  {
  }

  /** In every reachable state the locked section decides just this. */
  lemma DecisionIsRight(s: State, key: Key, mayCreate: bool)
    requires Inv(s)
    ensures Decided(s, key, mayCreate, Decide(s, key, mayCreate))
  {
    LiveIsHeld(s, key);
    PrunedIsResumable(s, key);
    DeniedMeansSpent(s);
  }

  /** So it does after any interleaving. */
  lemma RunDecides(now: real, actions: seq<Action>, key: Key, mayCreate: bool)
    ensures var s := Run(Initial(now), actions); Decided(s, key, mayCreate, Decide(s, key, mayCreate))
  {
    InitialHolds(now);
    RunKeeps(Initial(now), actions);
    DecisionIsRight(Run(Initial(now), actions), key, mayCreate);
  }

  // ---- publication ----

  /** The draft's status was never learned, so its draft will be asked about again. */
  predicate StatusUnknown(v: Validation) {
    v.draft != None && v.reasons == ["DRAFT_INFO_TIMEOUT"]
  }

  lemma NotCachedInFlight(s: State, f: nat)
    requires CacheInv(s) && FlightInv(s) && Open(s, f)
    ensures Find(s.cache, s.flights[f].key) == |s.cache|
  {
    var i := Find(s.cache, s.flights[f].key);
    assert i < |s.cache| ==> EntryInv(s.cache[i], s.log, s.inflight);
  }

  lemma RememberedIsHeld(s: State, key: Key, v: Validation)
    requires Find(s.cache, key) == |s.cache| && |s.cache| <= 64
    ensures Holds(AfterRemember(s, key, v), key, v)
  {
    var t, e := AfterRemember(s, key, v), Entry(key, s.now, v, |s.log|);
    SnocInit(s.cache, e);
    assert t.cache[|t.cache| - 1] == e;
    assert e in t.cache;
  }

  lemma HoldsElsewhere(s: State, t: State, key: Key, v: Validation)
    requires Holds(s, key, v) && t.cache == s.cache && t.now == s.now
    ensures Holds(t, key, v)
  {
  }

  /** The result is answered from now on, or nothing is remembered. */
  ghost predicate Kept(s: State, t: State, key: Key, v: Validation) {
    if StatusUnknown(v) then t.cache == s.cache && t.log == s.log
    else Holds(t, key, v) && t.log == s.log + [Logged(key, s.now, v)]
  }

  lemma PublishKeepsResult(s: State, f: nat, v: Validation)
    requires CacheInv(s) && FlightInv(s) && Open(s, f)
    ensures Kept(s, AfterPublish(s, f, Some(v)), s.flights[f].key, v)
  {
    var t := AfterPublish(s, f, Some(v));
    NotCachedInFlight(s, f);
    if !StatusUnknown(v) {
      RememberedIsHeld(s, s.flights[f].key, v);
      HoldsElsewhere(AfterRemember(s, s.flights[f].key, v), t, s.flights[f].key, v);
    }
  }

  /** A published result ends the flight and is cached, unless its draft's status was never learned. */
  lemma PublicationMeans(s: State, f: nat, v: Validation)
    requires CacheInv(s) && FlightInv(s) && Enabled(s, Publish(f, Some(v)))
    ensures var t, key := Next(s, Publish(f, Some(v))), s.flights[f].key;
      && key !in t.inflight && t.flights[f].stage == Done(Some(v))
      && t.resumable == s.resumable && t.creates == s.creates && Kept(s, t, key, v)
  {
    PublishKeepsResult(s, f, v);
  }
}
