/** The shared state of the draft-validation service and its lock-atomic steps
    (backend/ozon/draft_validation.py:194-303), over every interleaving of `validate` calls. */
module DraftProtocol {
  import opened Wrappers
  import opened Sequences
  import opened Orchestration
  import opened DraftBudget

  const DEFAULT_TTL := 120.0
  const UNKNOWN_TTL := 86400.0
  const RESUME_TTL := 86400.0
  const CACHE_MAX := 64

  /** `_key` hashes the candidate's identifier and rows, the provenance and the dates. The identifier
      is itself a hash of the candidate, so it stands for the whole offer. */
  datatype Key = Key(offer: Offer, provenance: string, opens: int, closes: int)

  datatype Entry = Entry(key: Key, at: real, option: Validation, number: nat)

  datatype Draft = Draft(id: nat, createdAt: real, errorReasons: seq<string>, rejectedReasons: seq<string>)

  // ---- history ----

  datatype Issued = Issued(id: nat, at: real)

  /** One create request: which `validate` call sent it and when, how many results had been cached by then, the draft it
      yielded, and whether that draft was seen in a terminal status. */
  datatype Create = Create(key: Key, owner: nat, at: real, logged: nat, draft: Option<Issued>, settled: bool)

  datatype Stage = Asking | Fresh(draft: Draft) | Holding(draft: Draft) | Settled | Done(result: Option<Validation>)

  /** `_InFlightValidation`; `owner` is the `validate` call that works on it, `create` the request
      whose draft it uses. */
  datatype Flight = Flight(key: Key, owner: nat, create: nat, stage: Stage)

  datatype Logged = Logged(key: Key, at: real, option: Validation)

  datatype State = State(
    now: real,
    cache: seq<Entry>, attempts: seq<real>, inflight: map<Key, nat>, resumable: map<Key, Draft>,
    flights: seq<Flight>, creates: seq<Create>, latest: map<Key, nat>, log: seq<Logged>)

  function Initial(now: real): State {
    State(now, [], [], map[], map[], [], [], map[], [])
  }

  datatype Action =
    | Tick(now: real)
    | Lookup(key: Key)
    | Begin(key: Key, mayCreate: bool, owner: nat)
    | Issue(flight: nat, id: nat, at: real)
    | Note(flight: nat, errorReasons: seq<string>, rejectedReasons: seq<string>)
    | Settle(flight: nat)
    | Publish(flight: nat, result: Option<Validation>)

  // ---- the cache ----

  function Ttl(v: Validation): real {
    if v.state.OutcomeUnknown? then UNKNOWN_TTL else DEFAULT_TTL
  }

  function Find(cache: seq<Entry>, key: Key): (i: nat)
    ensures i <= |cache| && (i < |cache| ==> cache[i].key == key)
    ensures forall j :: 0 <= j < i ==> cache[j].key != key
  {
    if |cache| == 0 || cache[0].key == key then 0
    else
      var i := 1 + Find(cache[1..], key);
      assert forall j :: 0 < j < i ==> cache[j] == cache[1..][j - 1];
      i
  }

  predicate Stale(e: Entry, now: real) {
    now - e.at >= Ttl(e.option)
  }

  /** What `_cached_option_locked` returns... */
  function Live(cache: seq<Entry>, key: Key, now: real): Option<Validation> {
    var i := Find(cache, key);
    if i < |cache| && !Stale(cache[i], now) then Some(cache[i].option) else None
  }

  /** ...and what it leaves in the cache. */
  function DropStale(cache: seq<Entry>, key: Key, now: real): seq<Entry> {
    var i := Find(cache, key);
    if i < |cache| && Stale(cache[i], now) then cache[..i] + cache[i + 1..] else cache
  }

  /** `self._cache[key] = ...`: a key that is already there keeps its place. */
  function Put(cache: seq<Entry>, e: Entry): seq<Entry> {
    var i := Find(cache, e.key);
    if i < |cache| then cache[i := e] else cache + [e]
  }

  function Evict(cache: seq<Entry>): seq<Entry> {
    if |cache| > CACHE_MAX then cache[|cache| - CACHE_MAX..] else cache
  }

  /** A draft whose status is not known yet is polled again instead of being remembered. */
  predicate Cacheable(v: Validation) {
    !(v.draft.Some? && v.reasons == ["DRAFT_INFO_TIMEOUT"])
  }

  // ---- the steps ----

  predicate DraftExpired(d: Draft, now: real) {
    now - d.createdAt >= RESUME_TTL
  }

  function PruneDrafts(resumable: map<Key, Draft>, now: real): map<Key, Draft> {
    map k | k in resumable && !DraftExpired(resumable[k], now) :: resumable[k]
  }

  predicate Open(s: State, f: nat) {
    f < |s.flights| && !s.flights[f].stage.Done? && s.flights[f].create < |s.creates|
  }

  predicate Enabled(s: State, a: Action) {
    match a
    case Tick(now) => s.now <= now
    case Lookup(_) => true
    case Begin(_, _, _) => true
    case Issue(f, _, at) => Open(s, f) && s.flights[f].stage.Asking? && at <= s.now
    case Note(f, _, _) => Open(s, f) && s.flights[f].stage.Fresh?
    case Settle(f) => Open(s, f) && s.flights[f].stage.Holding?
    case Publish(f, result) => Open(s, f) && (result.Some? ==> Good(s.flights[f].key.offer, result.value))
  }

  datatype Verdict = Cached(option: Validation) | Joined(flight: nat) | Limited | Resumed(flight: nat) | Created(flight: nat)

  function AfterLookup(s: State, key: Key): State {
    s.(cache := DropStale(s.cache, key, s.now))
  }

  function AfterSearch(s: State, key: Key): State {
    AfterLookup(s, key).(resumable := PruneDrafts(s.resumable, s.now))
  }

  /** What the locked section decides, once the cache and the drafts have been searched. */
  function Choose(t: State, live: Option<Validation>, key: Key, mayCreate: bool): Verdict {
    if live.Some? then Cached(live.value)
    else if key in t.inflight then Joined(t.inflight[key])
    else if key in t.resumable then Resumed(|t.flights|)
    else if !mayCreate || Denied(DropOld(t.attempts, t.now), t.now) then Limited
    else Created(|t.flights|)
  }

  /** What the locked section of `validate` decides. */
  function Decide(s: State, key: Key, mayCreate: bool): Verdict {
    Choose(AfterSearch(s, key), Live(s.cache, key, s.now), key, mayCreate)
  }

  /** What the locked section does once it has decided. */
  function Act(t: State, key: Key, mayCreate: bool, owner: nat, v: Verdict): State {
    match v
    case Cached(_) => t
    case Joined(_) => t
    case Resumed(_) => Take(t, ResumedFlight(t, key, owner))
    case Limited => if mayCreate then t.(attempts := DropOld(t.attempts, t.now)) else t
    case Created(_) => Take(Reserve(t, key, owner), Flight(key, owner, |t.creates|, Asking))
  }

  function ResumedFlight(t: State, key: Key, owner: nat): Flight {
    Flight(key, owner, if key in t.latest then t.latest[key] else 0, if key in t.resumable then Holding(t.resumable[key]) else Asking)
  }

  function AfterBegin(s: State, key: Key, mayCreate: bool, owner: nat): State {
    Act(AfterSearch(s, key), key, mayCreate, owner, Decide(s, key, mayCreate))
  }

  /** `self._inflight[key] = flight` */
  function Take(s: State, f: Flight): State {
    s.(inflight := s.inflight[f.key := |s.flights|], flights := s.flights + [f])
  }

  /** A create request is on its way. */
  function Request(s: State, key: Key, owner: nat): State {
    s.(creates := s.creates + [Create(key, owner, s.now, |s.log|, None, false)], latest := s.latest[key := |s.creates|])
  }

  /** `_reserve_create_slot_locked`, when it grants the slot. */
  function Reserve(s: State, key: Key, owner: nat): State {
    Request(s.(attempts := DropOld(s.attempts, s.now) + [s.now]), key, owner)
  }

  function Advance(s: State, f: nat, stage: Stage): State
    requires f < |s.flights|
  {
    s.(flights := s.flights[f := s.flights[f].(stage := stage)])
  }

  /** The draft's clock reading is taken before the lock, so it may be a little earlier. */
  function AfterIssue(s: State, f: nat, id: nat, at: real): State
    requires Open(s, f)
  {
    var key, c, d := s.flights[f].key, s.flights[f].create, Draft(id, at, [], []);
    Advance(s, f, Fresh(d)).(resumable := s.resumable[key := d],
                             creates := s.creates[c := s.creates[c].(draft := Some(Issued(id, at)))])
  }

  function AfterNote(s: State, f: nat, errors: seq<string>, rejected: seq<string>): State
    requires Open(s, f) && s.flights[f].stage.Fresh?
  {
    var d := s.flights[f].stage.draft.(errorReasons := errors, rejectedReasons := rejected);
    Advance(s, f, Holding(d)).(resumable := s.resumable[s.flights[f].key := d])
  }

  /** `_clear_resumable_draft` */
  function AfterSettle(s: State, f: nat): State
    requires Open(s, f) && s.flights[f].stage.Holding?
  {
    var key, c, d := s.flights[f].key, s.flights[f].create, s.flights[f].stage.draft;
    Advance(s, f, Settled).(
      resumable := if key in s.resumable && s.resumable[key].id == d.id then s.resumable - {key} else s.resumable,
      creates := s.creates[c := s.creates[c].(settled := true)])
  }

  function AfterRemember(s: State, key: Key, v: Validation): State {
    s.(cache := Evict(Put(s.cache, Entry(key, s.now, v, |s.log|))), log := s.log + [Logged(key, s.now, v)])
  }

  /** `_publish_flight` */
  function AfterPublish(s: State, f: nat, result: Option<Validation>): State
    requires Open(s, f)
  {
    var key := s.flights[f].key;
    var t := if result.Some? && Cacheable(result.value) then AfterRemember(s, key, result.value) else s;
    Advance(t, f, Done(result)).(inflight := t.inflight - {key})
  }

  function Next(s: State, a: Action): State
    requires Enabled(s, a)
  {
    match a
    case Tick(now) => s.(now := now)
    case Lookup(key) => AfterLookup(s, key)
    case Begin(key, mayCreate, owner) => AfterBegin(s, key, mayCreate, owner)
    case Issue(f, id, at) => AfterIssue(s, f, id, at)
    case Note(f, errors, rejected) => AfterNote(s, f, errors, rejected)
    case Settle(f) => AfterSettle(s, f)
    case Publish(f, result) => AfterPublish(s, f, result)
  }

  // ---- invariants ----

  function Times(creates: seq<Create>): (ts: seq<real>)
    ensures |ts| == |creates| && forall i :: 0 <= i < |creates| ==> ts[i] == creates[i].at
  {
    seq(|creates|, i requires 0 <= i < |creates| => creates[i].at)
  }

  /** The budgets hold over all requests ever sent. */
  ghost predicate Budgeted(creates: seq<Create>, attempts: seq<real>, now: real) {
    TimesBudgeted(Times(creates), attempts, now)
  }

  ghost predicate TimesBudgeted(ts: seq<real>, attempts: seq<real>, now: real) {
    Ordered(ts) && NotAfter(ts, now) && WithinBudget(ts) && Remembers(ts, attempts, now)
  }

  ghost predicate BudgetInv(s: State) {
    Budgeted(s.creates, s.attempts, s.now)
  }

  ghost predicate EntryInv(e: Entry, log: seq<Logged>, inflight: map<Key, nat>) {
    && e.number < |log| && log[e.number] == Logged(e.key, e.at, e.option)
    && e.key !in inflight
  }

  ghost predicate Held(cache: seq<Entry>, n: nat) {
    exists i :: 0 <= i < |cache| && cache[i].number == n
  }

  /** A result leaves the cache only when it is stale or when 64 later results push it out. */
  ghost predicate Remembered(cache: seq<Entry>, log: seq<Logged>, now: real, n: nat)
    requires n < |log|
  {
    Held(cache, n) || |log| - 1 - n >= CACHE_MAX || now - log[n].at >= Ttl(log[n].option)
  }

  ghost predicate AllRemembered(cache: seq<Entry>, log: seq<Logged>, now: real) {
    forall n :: 0 <= n < |log| ==> Remembered(cache, log, now, n)
  }

  ghost predicate AllEntries(cache: seq<Entry>, log: seq<Logged>, inflight: map<Key, nat>) {
    forall i :: 0 <= i < |cache| ==> EntryInv(cache[i], log, inflight)
  }

  ghost predicate GoodLog(log: seq<Logged>, now: real) {
    forall n :: 0 <= n < |log| ==> log[n].at <= now && Good(log[n].key.offer, log[n].option)
  }

  ghost predicate Rising(cache: seq<Entry>) {
    && (forall i, j :: 0 <= i < j < |cache| ==> cache[i].number < cache[j].number)
    && (forall i, j :: 0 <= i < j < |cache| ==> cache[i].key != cache[j].key)
  }

  /** The cache holds the most recent results, one for a key, none for a key in flight. */
  ghost predicate CacheInv(s: State) {
    && |s.cache| <= CACHE_MAX
    && Rising(s.cache)
    && AllEntries(s.cache, s.log, s.inflight)
    && GoodLog(s.log, s.now)
    && AllRemembered(s.cache, s.log, s.now)
  }

  /** The flight that the in-flight table shows for a key. */
  ghost predicate Shown(s: State, key: Key, f: nat) {
    f < |s.flights| && s.flights[f].key == key && !s.flights[f].stage.Done?
  }

  ghost predicate FlightResult(f: Flight) {
    f.stage.Done? && f.stage.result.Some? ==> Good(f.key.offer, f.stage.result.value)
  }

  /** Every open flight is in the table under its key, and nothing else is. */
  ghost predicate FlightInv(s: State) {
    && (forall k <- s.inflight.Keys :: Shown(s, k, s.inflight[k]))
    && (forall f :: 0 <= f < |s.flights| && !s.flights[f].stage.Done? ==>
          s.flights[f].key in s.inflight && s.inflight[s.flights[f].key] == f)
    && (forall f :: 0 <= f < |s.flights| ==> FlightResult(s.flights[f]))
  }

  ghost predicate SameDraft(c: Create, d: Draft) {
    c.draft == Some(Issued(d.id, d.createdAt))
  }

  /** An open flight works on the last create request for its key. */
  ghost predicate StageInv(s: State, f: Flight) {
    !f.stage.Done? ==>
      && f.key in s.latest && f.create == s.latest[f.key] && f.create < |s.creates|
      && s.creates[f.create].settled == f.stage.Settled?
      && (f.stage.Asking? ==> s.creates[f.create].draft.None?)
      && (f.stage.Fresh? || f.stage.Holding? ==> SameDraft(s.creates[f.create], f.stage.draft))
  }

  /** A draft that may still be resumed is the one of the last request for its key. */
  ghost predicate ResumableInv(s: State, k: Key)
    requires k in s.resumable
  {
    k in s.latest && s.latest[k] < |s.creates| && SameDraft(s.creates[s.latest[k]], s.resumable[k])
    && !s.creates[s.latest[k]].settled
  }

  /** Why the next create request for the same key may be sent at `time`. */
  ghost predicate Excused(c: Create, time: real) {
    c.draft.None? || c.settled || time - c.draft.value.at >= RESUME_TTL
  }

  ghost predicate LatestInv(s: State, k: Key)
    requires k in s.latest
  {
    && s.latest[k] < |s.creates| && s.creates[s.latest[k]].key == k
    && (k in s.resumable || Excused(s.creates[s.latest[k]], s.now))
  }

  ghost predicate CreateInv(s: State, i: nat)
    requires i < |s.creates|
  {
    && s.creates[i].key in s.latest && i <= s.latest[s.creates[i].key]
    && (s.creates[i].draft.Some? ==> s.creates[i].draft.value.at <= s.now)
  }

  ghost predicate DraftInv(s: State) {
    && (forall f :: 0 <= f < |s.flights| ==> StageInv(s, s.flights[f]))
    && (forall k <- s.resumable.Keys :: ResumableInv(s, k))
    && (forall k <- s.latest.Keys :: LatestInv(s, k))
    && (forall i :: 0 <= i < |s.creates| ==> CreateInv(s, i))
  }

  /** Two requests for one key are sent only with an excuse. */
  ghost predicate NoRepeat(creates: seq<Create>) {
    forall i, j :: 0 <= i < j < |creates| && creates[i].key == creates[j].key ==> Excused(creates[i], creates[j].at)
  }

  /** A result after which no request for its key is sent for 24 hours, unless it is forgotten. */
  ghost predicate Blocks(l: Logged, n: nat, c: Create) {
    l.key == c.key && n < c.logged ==> c.at - l.at >= Ttl(l.option) || c.logged - 1 - n >= CACHE_MAX
  }

  ghost predicate BlockInv(s: State) {
    && (forall i :: 0 <= i < |s.creates| ==> s.creates[i].logged <= |s.log|)
    && (forall i, n :: 0 <= i < |s.creates| && 0 <= n < s.creates[i].logged ==> Blocks(s.log[n], n, s.creates[i]))
  }

  ghost predicate Inv(s: State) {
    BudgetInv(s) && CacheInv(s) && FlightInv(s) && DraftInv(s) && NoRepeat(s.creates) && BlockInv(s)
  }

  lemma InitialBudget(now: real)
    ensures BudgetInv(Initial(now))
  {
    assert Times([]) == [];
  }

  lemma InitialTables(now: real)
    ensures CacheInv(Initial(now)) && FlightInv(Initial(now)) && DraftInv(Initial(now))
  {
  }

  lemma InitialHolds(now: real)
    ensures Inv(Initial(now))
  {
    InitialBudget(now);
    InitialTables(now);
  }

  // ---- budgets ----

  lemma TimesSnoc(creates: seq<Create>, c: Create)
    ensures Times(creates + [c]) == Times(creates) + [c.at]
  {
  }

  lemma TimesUpdate(creates: seq<Create>, i: nat, c: Create)
    requires i < |creates| && c.at == creates[i].at
    ensures Times(creates[i := c]) == Times(creates)
  {
  }

  lemma DropKeepsBudget(creates: seq<Create>, attempts: seq<real>, now: real)
    requires Budgeted(creates, attempts, now)
    ensures Budgeted(creates, DropOld(attempts, now), now)
  {
    DropRemembers(Times(creates), attempts, now);
  }

  lemma GrantKeepsTimes(ts: seq<real>, attempts: seq<real>, now: real)
    requires TimesBudgeted(ts, attempts, now) && !Denied(DropOld(attempts, now), now)
    ensures TimesBudgeted(ts + [now], DropOld(attempts, now) + [now], now)
  {
    GrantKeepsBudget(ts, attempts, now);
    NotAfterSnoc(ts, now);
  }

  lemma ReserveKeepsBudget(creates: seq<Create>, attempts: seq<real>, now: real, c: Create)
    requires Budgeted(creates, attempts, now) && !Denied(DropOld(attempts, now), now) && c.at == now
    ensures Budgeted(creates + [c], DropOld(attempts, now) + [now], now)
  {
    GrantKeepsTimes(Times(creates), attempts, now);
    TimesSnoc(creates, c);
  }

  lemma ActKeepsBudget(t: State, key: Key, mayCreate: bool, owner: nat, v: Verdict)
    requires BudgetInv(t) && (v.Created? ==> !Denied(DropOld(t.attempts, t.now), t.now))
    ensures BudgetInv(Act(t, key, mayCreate, owner, v))
  {
    match v
    case Cached(_) =>
    case Joined(_) =>
    case Resumed(_) =>
    case Limited => DropKeepsBudget(t.creates, t.attempts, t.now);
    case Created(_) => ReserveKeepsBudget(t.creates, t.attempts, t.now, Create(key, owner, t.now, |t.log|, None, false));
  }

  lemma ChosenWithinBudget(t: State, live: Option<Validation>, key: Key, mayCreate: bool)
    requires Choose(t, live, key, mayCreate).Created?
    ensures mayCreate && !Denied(DropOld(t.attempts, t.now), t.now)
  {
  }

  lemma CreatedIsWithinBudget(s: State, key: Key, mayCreate: bool)
    ensures Decide(s, key, mayCreate).Created? ==> mayCreate && !Denied(DropOld(s.attempts, s.now), s.now)
  {
    if Decide(s, key, mayCreate).Created? {
      ChosenWithinBudget(AfterSearch(s, key), Live(s.cache, key, s.now), key, mayCreate);
    }
  }

  lemma BeginKeepsBudget(s: State, key: Key, mayCreate: bool, owner: nat)
    requires BudgetInv(s)
    ensures BudgetInv(AfterBegin(s, key, mayCreate, owner))
  {
    CreatedIsWithinBudget(s, key, mayCreate);
    ActKeepsBudget(AfterSearch(s, key), key, mayCreate, owner, Decide(s, key, mayCreate));
  }

  lemma NextKeepsBudget(s: State, a: Action)
    requires BudgetInv(s) && Enabled(s, a)
    ensures BudgetInv(Next(s, a))
  {
    match a
    case Tick(now) =>
    case Lookup(_) =>
    case Begin(key, mayCreate, owner) => BeginKeepsBudget(s, key, mayCreate, owner);
    case Issue(f, id, at) =>
      var c := s.flights[f].create;
      TimesUpdate(s.creates, c, s.creates[c].(draft := Some(Issued(id, at))));
    case Note(_, _, _) =>
    case Settle(f) =>
      var c := s.flights[f].create;
      TimesUpdate(s.creates, c, s.creates[c].(settled := true));
    case Publish(_, _) =>
  }

  // ---- the cache ----

  lemma RemoveRising(cache: seq<Entry>, i: nat)
    requires Rising(cache) && i < |cache|
    ensures Rising(cache[..i] + cache[i + 1..])
    ensures forall e <- cache[..i] + cache[i + 1..] :: e.key != cache[i].key
  {
    var r := cache[..i] + cache[i + 1..];
    forall j | 0 <= j < |r| ensures r[j] == cache[if j < i then j else j + 1] {
    }
  }

  lemma RemoveHeld(cache: seq<Entry>, i: nat, n: nat)
    requires i < |cache| && Held(cache, n) && n != cache[i].number
    ensures Held(cache[..i] + cache[i + 1..], n)
  {
    var r := cache[..i] + cache[i + 1..];
    var j :| 0 <= j < |cache| && cache[j].number == n;
    assert r[if j < i then j else j - 1].number == n;
  }

  lemma RemoveStale(cache: seq<Entry>, log: seq<Logged>, inflight: map<Key, nat>, now: real, i: nat)
    requires AllEntries(cache, log, inflight) && AllRemembered(cache, log, now)
    requires i < |cache| && Stale(cache[i], now)
    ensures AllEntries(cache[..i] + cache[i + 1..], log, inflight)
    ensures AllRemembered(cache[..i] + cache[i + 1..], log, now)
  {
    var r := cache[..i] + cache[i + 1..];
    forall n | 0 <= n < |log| ensures Remembered(r, log, now, n) {
      assert Remembered(cache, log, now, n);
      assert EntryInv(cache[i], log, inflight);
      if Held(cache, n) && n != cache[i].number {
        RemoveHeld(cache, i, n);
      }
    }
    forall j | 0 <= j < |r| ensures EntryInv(r[j], log, inflight) {
      assert r[j] == cache[if j < i then j else j + 1];
    }
  }

  lemma DropStaleKeeps(s: State, key: Key)
    requires CacheInv(s)
    ensures CacheInv(AfterLookup(s, key))
    ensures Live(s.cache, key, s.now).None? ==> forall e <- DropStale(s.cache, key, s.now) :: e.key != key
  {
    var i := Find(s.cache, key);
    if i < |s.cache| && Stale(s.cache[i], s.now) {
      RemoveRising(s.cache, i);
      RemoveStale(s.cache, s.log, s.inflight, s.now, i);
    }
  }

  lemma TakeKeepsCache(s: State, f: Flight)
    requires CacheInv(s) && forall e <- s.cache :: e.key != f.key
    ensures CacheInv(Take(s, f))
  {
  }

  lemma ActKeepsCache(t: State, key: Key, mayCreate: bool, owner: nat, v: Verdict)
    requires CacheInv(t) && (v.Created? || v.Resumed? ==> forall e <- t.cache :: e.key != key)
    ensures CacheInv(Act(t, key, mayCreate, owner, v))
  {
    match v
    case Cached(_) =>
    case Joined(_) =>
    case Resumed(_) => TakeKeepsCache(t, ResumedFlight(t, key, owner));
    case Limited =>
    case Created(_) => TakeKeepsCache(Reserve(t, key, owner), Flight(key, owner, |t.creates|, Asking));
  }

  lemma TakenIsNotLive(s: State, key: Key, mayCreate: bool)
    ensures var v := Decide(s, key, mayCreate);
      v.Created? || v.Resumed? ==> Live(s.cache, key, s.now).None? && key !in s.inflight
  {
  }

  lemma BeginKeepsCache(s: State, key: Key, mayCreate: bool, owner: nat)
    requires CacheInv(s)
    ensures CacheInv(AfterBegin(s, key, mayCreate, owner))
  {
    DropStaleKeeps(s, key);
    TakenIsNotLive(s, key, mayCreate);
    PruneKeepsCache(AfterLookup(s, key));
    ActKeepsCache(AfterSearch(s, key), key, mayCreate, owner, Decide(s, key, mayCreate));
  }

  lemma PruneKeepsCache(s: State)
    requires CacheInv(s)
    ensures CacheInv(s.(resumable := PruneDrafts(s.resumable, s.now)))
  {
  }

  lemma {:induction false} RisingGap(cache: seq<Entry>, i: nat, j: nat)
    requires Rising(cache) && i <= j < |cache|
    ensures cache[j].number - cache[i].number >= j - i
  {
    if i < j {
      RisingGap(cache, i, j - 1);
    }
  }

  lemma SuffixRemembers(cache: seq<Entry>, log: seq<Logged>, now: real, gone: nat, n: nat)
    requires Rising(cache) && n < |log| && Remembered(cache, log, now, n) && gone <= |cache|
    requires gone > 0 ==> |cache| - gone == CACHE_MAX && cache[|cache| - 1].number < |log|
    ensures Remembered(cache[gone..], log, now, n)
  {
    if Held(cache, n) {
      var j :| 0 <= j < |cache| && cache[j].number == n;
      if j < gone {
        RisingGap(cache, j, |cache| - 1);
      } else {
        assert cache[gone..][j - gone].number == n;
      }
    }
  }

  lemma SuffixKeeps(cache: seq<Entry>, log: seq<Logged>, inflight: map<Key, nat>, now: real, gone: nat)
    requires Rising(cache) && AllEntries(cache, log, inflight) && AllRemembered(cache, log, now) && gone <= |cache|
    requires gone > 0 ==> |cache| - gone == CACHE_MAX
    ensures Rising(cache[gone..]) && AllEntries(cache[gone..], log, inflight) && AllRemembered(cache[gone..], log, now)
  {
    assert |cache| > 0 ==> EntryInv(cache[|cache| - 1], log, inflight);
    forall n | 0 <= n < |log| ensures Remembered(cache[gone..], log, now, n) {
      assert Remembered(cache, log, now, n);
      SuffixRemembers(cache, log, now, gone, n);
    }
    forall j | 0 <= j < |cache| - gone ensures EntryInv(cache[gone..][j], log, inflight) {
      assert cache[gone..][j] == cache[gone + j];
    }
  }

  lemma EvictKeeps(cache: seq<Entry>, log: seq<Logged>, inflight: map<Key, nat>, now: real)
    requires Rising(cache) && AllEntries(cache, log, inflight) && AllRemembered(cache, log, now)
    ensures Rising(Evict(cache)) && AllEntries(Evict(cache), log, inflight) && AllRemembered(Evict(cache), log, now)
  {
    var gone := if |cache| > CACHE_MAX then |cache| - CACHE_MAX else 0;
    SuffixKeeps(cache, log, inflight, now, gone);
    DropNone(cache);
    assert Evict(cache) == cache[gone..];
  }

  lemma AppendKeeps(cache: seq<Entry>, log: seq<Logged>, inflight: map<Key, nat>, now: real, key: Key, v: Validation)
    requires Rising(cache) && AllEntries(cache, log, map[]) && AllRemembered(cache, log, now)
    requires forall e <- cache :: e.key !in inflight && e.key != key
    requires key !in inflight
    ensures var next := cache + [Entry(key, now, v, |log|)];
      && Rising(next) && AllEntries(next, log + [Logged(key, now, v)], inflight)
      && AllRemembered(next, log + [Logged(key, now, v)], now)
  {
    var next, more := cache + [Entry(key, now, v, |log|)], log + [Logged(key, now, v)];
    forall i | 0 <= i < |cache| ensures EntryInv(next[i], more, inflight) {
      assert EntryInv(cache[i], log, map[]) && cache[i] in cache;
    }
    forall n | 0 <= n < |more| ensures Remembered(next, more, now, n) {
      if n == |log| {
        assert next[|cache|].number == n;
      } else {
        assert Remembered(cache, log, now, n);
        if Held(cache, n) {
          var j :| 0 <= j < |cache| && cache[j].number == n;
          assert next[j].number == n;
        }
      }
    }
  }

  lemma EntriesWithoutFlights(cache: seq<Entry>, log: seq<Logged>, inflight: map<Key, nat>)
    requires AllEntries(cache, log, inflight)
    ensures AllEntries(cache, log, map[]) && forall e <- cache :: e.key !in inflight
  {
    forall i | 0 <= i < |cache| ensures EntryInv(cache[i], log, map[]) && cache[i].key !in inflight {
      assert EntryInv(cache[i], log, inflight);
    }
  }

  lemma PutNew(cache: seq<Entry>, e: Entry)
    requires forall x <- cache :: x.key != e.key
    ensures Put(cache, e) == cache + [e]
  {
  }

  lemma LogGrowsGood(log: seq<Logged>, now: real, l: Logged)
    requires GoodLog(log, now) && l.at <= now && Good(l.key.offer, l.option)
    ensures GoodLog(log + [l], now)
  {
  }

  lemma RememberKeepsCache(s: State, key: Key, v: Validation)
    requires CacheInv(s) && key !in s.inflight && Good(key.offer, v)
    requires forall e <- s.cache :: e.key != key
    ensures CacheInv(AfterRemember(s, key, v))
  {
    var e, l := Entry(key, s.now, v, |s.log|), Logged(key, s.now, v);
    PutNew(s.cache, e);
    EntriesWithoutFlights(s.cache, s.log, s.inflight);
    AppendKeeps(s.cache, s.log, s.inflight, s.now, key, v);
    EvictKeeps(s.cache + [e], s.log + [l], s.inflight, s.now);
    LogGrowsGood(s.log, s.now, l);
  }

  lemma LandKeepsCache(s: State, key: Key)
    requires CacheInv(s)
    ensures CacheInv(s.(inflight := s.inflight - {key}))
    ensures key in s.inflight ==> forall e <- s.cache :: e.key != key
  {
    var t := s.(inflight := s.inflight - {key});
    forall i | 0 <= i < |s.cache| ensures EntryInv(s.cache[i], s.log, t.inflight) && (key in s.inflight ==> s.cache[i].key != key) {
      assert EntryInv(s.cache[i], s.log, s.inflight);
    }
  }

  lemma PublishKeepsCache(s: State, f: nat, result: Option<Validation>)
    requires CacheInv(s) && FlightInv(s) && Open(s, f)
    requires result.Some? ==> Good(s.flights[f].key.offer, result.value)
    ensures CacheInv(AfterPublish(s, f, result))
  {
    var key := s.flights[f].key;
    LandKeepsCache(s, key);
    if result.Some? && Cacheable(result.value) {
      RememberKeepsCache(s.(inflight := s.inflight - {key}), key, result.value);
    }
  }

  lemma TickKeepsCache(s: State, now: real)
    requires CacheInv(s) && s.now <= now
    ensures CacheInv(s.(now := now))
  {
    forall n | 0 <= n < |s.log| ensures Remembered(s.cache, s.log, now, n) {
      assert Remembered(s.cache, s.log, s.now, n);
    }
  }

  lemma NextKeepsCache(s: State, a: Action)
    requires CacheInv(s) && FlightInv(s) && Enabled(s, a)
    ensures CacheInv(Next(s, a))
  {
    match a
    case Tick(now) => TickKeepsCache(s, now);
    case Lookup(key) => DropStaleKeeps(s, key);
    case Begin(key, mayCreate, owner) => BeginKeepsCache(s, key, mayCreate, owner);
    case Issue(_, _, _) =>
    case Note(_, _, _) =>
    case Settle(_) =>
    case Publish(f, result) => PublishKeepsCache(s, f, result);
  }

  // ---- flights ----

  lemma TakeKeepsFlights(s: State, f: Flight)
    requires FlightInv(s) && f.key !in s.inflight && !f.stage.Done?
    ensures FlightInv(Take(s, f))
  {
    var t := Take(s, f);
    forall k | k in t.inflight ensures Shown(t, k, t.inflight[k]) {
      assert k != f.key ==> Shown(s, k, s.inflight[k]);
    }
    forall i | 0 <= i < |t.flights| ensures FlightResult(t.flights[i]) {
      assert i < |s.flights| ==> FlightResult(s.flights[i]);
    }
  }

  lemma BeginKeepsFlights(s: State, key: Key, mayCreate: bool, owner: nat)
    requires FlightInv(s)
    ensures FlightInv(AfterBegin(s, key, mayCreate, owner))
  {
    FramesFlights(s, AfterSearch(s, key));
    TakenIsNotLive(s, key, mayCreate);
    ActKeepsFlights(AfterSearch(s, key), key, mayCreate, owner, Decide(s, key, mayCreate));
  }

  lemma ActKeepsFlights(t: State, key: Key, mayCreate: bool, owner: nat, v: Verdict)
    requires FlightInv(t) && (v.Created? || v.Resumed? ==> key !in t.inflight)
    ensures FlightInv(Act(t, key, mayCreate, owner, v))
  {
    match v
    case Cached(_) =>
    case Joined(_) =>
    case Resumed(_) => TakeKeepsFlights(t, ResumedFlight(t, key, owner));
    case Limited => FramesFlights(t, Act(t, key, mayCreate, owner, v));
    case Created(_) =>
      FramesFlights(t, Reserve(t, key, owner));
      TakeKeepsFlights(Reserve(t, key, owner), Flight(key, owner, |t.creates|, Asking));
  }

  lemma FramesFlights(s: State, t: State)
    requires FlightInv(s) && t.flights == s.flights && t.inflight == s.inflight
    ensures FlightInv(t)
  {
    forall k | k in t.inflight ensures Shown(t, k, t.inflight[k]) {
      assert Shown(s, k, s.inflight[k]);
    }
  }

  lemma AdvanceKeepsFlights(s: State, f: nat, stage: Stage)
    requires FlightInv(s) && Open(s, f) && !stage.Done?
    ensures FlightInv(Advance(s, f, stage))
  {
    var t := Advance(s, f, stage);
    forall k | k in t.inflight ensures Shown(t, k, t.inflight[k]) {
      assert Shown(s, k, s.inflight[k]);
    }
    forall i | 0 <= i < |t.flights| ensures FlightResult(t.flights[i]) {
      assert FlightResult(s.flights[i]);
    }
  }

  lemma PublishKeepsFlights(s: State, f: nat, result: Option<Validation>)
    requires FlightInv(s) && Open(s, f)
    requires result.Some? ==> Good(s.flights[f].key.offer, result.value)
    ensures FlightInv(AfterPublish(s, f, result))
  {
    var t, key := AfterPublish(s, f, result), s.flights[f].key;
    assert t.flights == s.flights[f := s.flights[f].(stage := Done(result))] && t.inflight == s.inflight - {key};
    forall k | k in t.inflight ensures Shown(t, k, t.inflight[k]) {
      assert Shown(s, k, s.inflight[k]) && k != key;
    }
    forall i | 0 <= i < |t.flights| ensures FlightResult(t.flights[i]) {
      assert FlightResult(s.flights[i]);
    }
  }

  lemma NextKeepsFlights(s: State, a: Action)
    requires FlightInv(s) && Enabled(s, a)
    ensures FlightInv(Next(s, a))
  {
    match a
    case Tick(_) => FramesFlights(s, Next(s, a));
    case Lookup(_) => FramesFlights(s, Next(s, a));
    case Begin(key, mayCreate, owner) => BeginKeepsFlights(s, key, mayCreate, owner);
    case Issue(f, id, at) =>
      AdvanceKeepsFlights(s, f, Fresh(Draft(id, at, [], [])));
      FramesFlights(Advance(s, f, Fresh(Draft(id, at, [], []))), Next(s, a));
    case Note(f, errors, rejected) =>
      var d := s.flights[f].stage.draft.(errorReasons := errors, rejectedReasons := rejected);
      AdvanceKeepsFlights(s, f, Holding(d));
      FramesFlights(Advance(s, f, Holding(d)), Next(s, a));
    case Settle(f) =>
      AdvanceKeepsFlights(s, f, Settled);
      FramesFlights(Advance(s, f, Settled), Next(s, a));
    case Publish(f, result) => PublishKeepsFlights(s, f, result);
  }

  // ---- drafts ----

  lemma ExcusedLater(c: Create, time: real, later: real)
    requires Excused(c, time) && time <= later
    ensures Excused(c, later)
  {
  }

  lemma TickKeepsDrafts(s: State, now: real)
    requires DraftInv(s) && s.now <= now
    ensures DraftInv(s.(now := now))
  {
    var t := s.(now := now);
    forall f | 0 <= f < |t.flights| ensures StageInv(t, t.flights[f]) {
      assert StageInv(s, s.flights[f]);
    }
    forall k | k in t.resumable ensures ResumableInv(t, k) {
      assert ResumableInv(s, k);
    }
    forall k | k in t.latest ensures LatestInv(t, k) {
      assert LatestInv(s, k);
    }
    forall i | 0 <= i < |t.creates| ensures CreateInv(t, i) {
      assert CreateInv(s, i);
    }
  }

  /** Steps that leave requests and flights alone and only forget expired drafts. */
  lemma PruneKeepsDrafts(s: State, t: State)
    requires DraftInv(s)
    requires t.now == s.now && t.flights == s.flights && t.creates == s.creates && t.latest == s.latest
    requires t.resumable == PruneDrafts(s.resumable, s.now) || t.resumable == s.resumable
    ensures DraftInv(t)
  {
    forall f | 0 <= f < |t.flights| ensures StageInv(t, t.flights[f]) {
      assert StageInv(s, s.flights[f]);
    }
    forall k | k in t.resumable ensures ResumableInv(t, k) {
      assert ResumableInv(s, k);
    }
    forall k | k in t.latest ensures LatestInv(t, k) {
      assert LatestInv(s, k);
      assert k in s.resumable ==> ResumableInv(s, k);
    }
    forall i | 0 <= i < |t.creates| ensures CreateInv(t, i) {
      assert CreateInv(s, i);
    }
  }

  lemma TakeKeepsDrafts(s: State, f: Flight)
    requires DraftInv(s) && StageInv(s, f)
    ensures DraftInv(Take(s, f))
  {
    var t := Take(s, f);
    forall i | 0 <= i < |t.flights| ensures StageInv(t, t.flights[i]) {
      assert i < |s.flights| ==> StageInv(s, s.flights[i]);
    }
    forall k | k in t.resumable ensures ResumableInv(t, k) {
      assert ResumableInv(s, k);
    }
    forall k | k in t.latest ensures LatestInv(t, k) {
      assert LatestInv(s, k);
    }
    forall i | 0 <= i < |t.creates| ensures CreateInv(t, i) {
      assert CreateInv(s, i);
    }
  }

  lemma ReserveKeepsStages(s: State, key: Key, owner: nat)
    requires DraftInv(s) && FlightInv(s) && key !in s.inflight
    ensures forall i :: 0 <= i < |s.flights| ==> StageInv(Reserve(s, key, owner), s.flights[i])
    ensures StageInv(Reserve(s, key, owner), Flight(key, owner, |s.creates|, Asking))
  {
    forall i | 0 <= i < |s.flights| ensures StageInv(Reserve(s, key, owner), s.flights[i]) {
      assert StageInv(s, s.flights[i]);
      assert !s.flights[i].stage.Done? ==> s.flights[i].key != key;
    }
  }

  lemma ReserveKeepsLatest(s: State, key: Key, owner: nat, k: Key)
    requires DraftInv(s) && key !in s.resumable
    ensures k in s.resumable ==> ResumableInv(Reserve(s, key, owner), k)
    ensures k in s.latest || k == key ==> LatestInv(Reserve(s, key, owner), k)
  {
    assert k in s.resumable ==> ResumableInv(s, k);
    assert k in s.latest ==> LatestInv(s, k);
  }

  lemma ReserveKeepsCreate(s: State, key: Key, owner: nat, i: nat)
    requires DraftInv(s) && i <= |s.creates|
    ensures CreateInv(Reserve(s, key, owner), i)
  {
    assert i < |s.creates| ==> CreateInv(s, i);
  }

  lemma ReserveKeepsDrafts(s: State, key: Key, owner: nat)
    requires DraftInv(s) && FlightInv(s) && key !in s.inflight && key !in s.resumable
    ensures DraftInv(Reserve(s, key, owner)) && StageInv(Reserve(s, key, owner), Flight(key, owner, |s.creates|, Asking))
  {
    ReserveKeepsStages(s, key, owner);
    forall k ensures (k in s.resumable ==> ResumableInv(Reserve(s, key, owner), k)) && (k in s.latest || k == key ==> LatestInv(Reserve(s, key, owner), k)) {
      ReserveKeepsLatest(s, key, owner, k);
    }
    forall i: nat | i <= |s.creates| ensures CreateInv(Reserve(s, key, owner), i) {
      ReserveKeepsCreate(s, key, owner, i);
    }
  }

  lemma ResumedFits(t: State, key: Key, owner: nat)
    requires DraftInv(t) && key in t.resumable
    ensures StageInv(t, ResumedFlight(t, key, owner))
  {
    assert ResumableInv(t, key);
  }

  /** What a verdict presupposes about the state it was made in. */
  ghost predicate Fitting(t: State, key: Key, v: Verdict) {
    && (v.Created? || v.Resumed? ==> key !in t.inflight && forall e <- t.cache :: e.key != key)
    && (v.Created? ==> key !in t.resumable && !Denied(DropOld(t.attempts, t.now), t.now))
    && (v.Resumed? ==> key in t.resumable)
  }

  lemma DecideFits(s: State, key: Key, mayCreate: bool)
    requires CacheInv(s)
    ensures Fitting(AfterSearch(s, key), key, Decide(s, key, mayCreate))
  {
    DropStaleKeeps(s, key);
  }

  lemma ActKeepsDrafts(t: State, key: Key, mayCreate: bool, owner: nat, v: Verdict)
    requires DraftInv(t) && FlightInv(t) && Fitting(t, key, v)
    ensures DraftInv(Act(t, key, mayCreate, owner, v))
  {
    match v
    case Cached(_) =>
    case Joined(_) =>
    case Resumed(_) =>
      ResumedFits(t, key, owner);
      TakeKeepsDrafts(t, ResumedFlight(t, key, owner));
    case Limited => PruneKeepsDrafts(t, Act(t, key, mayCreate, owner, v));
    case Created(_) =>
      ReserveKeepsDrafts(t, key, owner);
      TakeKeepsDrafts(Reserve(t, key, owner), Flight(key, owner, |t.creates|, Asking));
  }

  lemma BeginKeepsDrafts(s: State, key: Key, mayCreate: bool, owner: nat)
    requires DraftInv(s) && FlightInv(s) && CacheInv(s)
    ensures DraftInv(AfterBegin(s, key, mayCreate, owner))
  {
    PruneKeepsDrafts(s, AfterSearch(s, key));
    FramesFlights(s, AfterSearch(s, key));
    DecideFits(s, key, mayCreate);
    ActKeepsDrafts(AfterSearch(s, key), key, mayCreate, owner, Decide(s, key, mayCreate));
  }

  /** Open flights of different numbers work for different keys on different requests. */
  lemma FlightsDiffer(s: State, f: nat, g: nat)
    requires DraftInv(s) && FlightInv(s) && Open(s, f) && Open(s, g) && f != g
    ensures s.flights[f].key != s.flights[g].key && s.flights[f].create != s.flights[g].create
  {
    assert StageInv(s, s.flights[f]) && StageInv(s, s.flights[g]);
    assert LatestInv(s, s.flights[f].key) && LatestInv(s, s.flights[g].key);
  }

  /** A step of flight `f` that changes its own request, its own stage and its own resumable draft. */
  ghost predicate OwnStep(s: State, t: State, f: nat)
    requires Open(s, f)
  {
    var key, c := s.flights[f].key, s.flights[f].create;
    && t.now == s.now && t.latest == s.latest
    && |t.flights| == |s.flights| && t.flights == s.flights[f := t.flights[f]]
    && |t.creates| == |s.creates| && t.creates == s.creates[c := t.creates[c]]
    && t.creates[c].key == s.creates[c].key && t.creates[c].at == s.creates[c].at && t.creates[c].logged == s.creates[c].logged
    && (forall k :: k != key ==> (k in t.resumable <==> k in s.resumable))
    && (forall k :: k != key && k in s.resumable ==> t.resumable[k] == s.resumable[k])
  }

  lemma OwnStepKeepsDrafts(s: State, t: State, f: nat)
    requires DraftInv(s) && FlightInv(s) && Open(s, f) && OwnStep(s, t, f)
    requires StageInv(t, t.flights[f])
    requires var key, c := s.flights[f].key, s.flights[f].create;
      && (key in t.resumable ==> ResumableInv(t, key))
      && (key in t.latest ==> LatestInv(t, key))
      && (t.creates[c].draft.Some? ==> t.creates[c].draft.value.at <= t.now)
    ensures DraftInv(t)
  {
    var key, c := s.flights[f].key, s.flights[f].create;
    assert StageInv(s, s.flights[f]) && LatestInv(s, key);
    forall g | 0 <= g < |t.flights| ensures StageInv(t, t.flights[g]) {
      assert StageInv(s, s.flights[g]);
      if g != f && !t.flights[g].stage.Done? {
        FlightsDiffer(s, f, g);
      }
    }
    forall k | k in t.latest ensures LatestInv(t, k) {
      if k != key {
        assert LatestInv(s, k);
      }
    }
    forall k | k in t.resumable ensures ResumableInv(t, k) {
      if k != key {
        assert ResumableInv(s, k) && LatestInv(s, k);
      }
    }
    forall i | 0 <= i < |t.creates| ensures CreateInv(t, i) {
      assert CreateInv(s, i);
    }
  }

  lemma IssueKeepsDrafts(s: State, f: nat, id: nat, at: real)
    requires DraftInv(s) && FlightInv(s) && Open(s, f) && s.flights[f].stage.Asking? && at <= s.now
    ensures DraftInv(AfterIssue(s, f, id, at)) && OwnStep(s, AfterIssue(s, f, id, at), f)
  {
    assert StageInv(s, s.flights[f]) && LatestInv(s, s.flights[f].key);
    OwnStepKeepsDrafts(s, AfterIssue(s, f, id, at), f);
  }

  lemma NoteKeepsDrafts(s: State, f: nat, errors: seq<string>, rejected: seq<string>)
    requires DraftInv(s) && FlightInv(s) && Open(s, f) && s.flights[f].stage.Fresh?
    ensures DraftInv(AfterNote(s, f, errors, rejected)) && OwnStep(s, AfterNote(s, f, errors, rejected), f)
  {
    assert StageInv(s, s.flights[f]) && LatestInv(s, s.flights[f].key) && CreateInv(s, s.flights[f].create);
    OwnStepKeepsDrafts(s, AfterNote(s, f, errors, rejected), f);
  }

  lemma SettleKeepsDrafts(s: State, f: nat)
    requires DraftInv(s) && FlightInv(s) && Open(s, f) && s.flights[f].stage.Holding?
    ensures DraftInv(AfterSettle(s, f)) && OwnStep(s, AfterSettle(s, f), f)
  {
    var key := s.flights[f].key;
    assert StageInv(s, s.flights[f]) && LatestInv(s, key) && CreateInv(s, s.flights[f].create);
    assert key in s.resumable ==> ResumableInv(s, key);
    OwnStepKeepsDrafts(s, AfterSettle(s, f), f);
  }

  lemma PublishIsOwnStep(s: State, f: nat, result: Option<Validation>)
    requires Open(s, f) && s.flights[f].create < |s.creates|
    ensures OwnStep(s, AfterPublish(s, f, result), f)
    ensures AfterPublish(s, f, result).resumable == s.resumable && AfterPublish(s, f, result).creates == s.creates
    ensures AfterPublish(s, f, result).latest == s.latest && AfterPublish(s, f, result).now == s.now
    ensures AfterPublish(s, f, result).flights[f].stage.Done?
  {
  }

  lemma PublishKeepsDrafts(s: State, f: nat, result: Option<Validation>)
    requires DraftInv(s) && FlightInv(s) && Open(s, f)
    ensures DraftInv(AfterPublish(s, f, result)) && OwnStep(s, AfterPublish(s, f, result), f)
  {
    assert StageInv(s, s.flights[f]) && LatestInv(s, s.flights[f].key);
    PublishIsOwnStep(s, f, result);
    assert s.flights[f].key in s.resumable ==> ResumableInv(s, s.flights[f].key);
    assert CreateInv(s, s.flights[f].create);
    OwnStepKeepsDrafts(s, AfterPublish(s, f, result), f);
  }

  lemma NextKeepsDrafts(s: State, a: Action)
    requires DraftInv(s) && FlightInv(s) && CacheInv(s) && Enabled(s, a)
    ensures DraftInv(Next(s, a))
  {
    match a
    case Tick(now) => TickKeepsDrafts(s, now);
    case Lookup(_) => PruneKeepsDrafts(s, Next(s, a));
    case Begin(key, mayCreate, owner) => BeginKeepsDrafts(s, key, mayCreate, owner);
    case Issue(f, id, at) => IssueKeepsDrafts(s, f, id, at);
    case Note(f, errors, rejected) => NoteKeepsDrafts(s, f, errors, rejected);
    case Settle(f) => SettleKeepsDrafts(s, f);
    case Publish(f, result) => PublishKeepsDrafts(s, f, result);
  }

  // ---- history ----

  /** Every earlier request for a key that is not resumable is excused by now. */
  lemma EarlierAreExcused(s: State, key: Key, i: nat)
    requires DraftInv(s) && BudgetInv(s) && NoRepeat(s.creates) && key !in s.resumable
    requires i < |s.creates| && s.creates[i].key == key
    ensures Excused(s.creates[i], s.now)
  {
    assert CreateInv(s, i) && LatestInv(s, key);
    var l := s.latest[key];
    if i < l {
      assert Times(s.creates)[l] <= s.now;
      ExcusedLater(s.creates[i], s.creates[l].at, s.now);
    }
  }

  lemma NoRepeatSnoc(creates: seq<Create>, c: Create)
    requires NoRepeat(creates) && forall i :: 0 <= i < |creates| && creates[i].key == c.key ==> Excused(creates[i], c.at)
    ensures NoRepeat(creates + [c])
  {
  }

  lemma ReserveKeepsHistory(s: State, key: Key, owner: nat)
    requires DraftInv(s) && BudgetInv(s) && NoRepeat(s.creates) && key !in s.resumable
    ensures NoRepeat(Reserve(s, key, owner).creates)
  {
    var c := Create(key, owner, s.now, |s.log|, None, false);
    forall i | 0 <= i < |s.creates| && s.creates[i].key == key ensures Excused(s.creates[i], s.now) {
      EarlierAreExcused(s, key, i);
    }
    NoRepeatSnoc(s.creates, c);
  }

  lemma HeldKey(s: State, n: nat) returns (e: Entry)
    requires CacheInv(s) && n < |s.log| && Held(s.cache, n)
    ensures e in s.cache && e.key == s.log[n].key
  {
    var j :| 0 <= j < |s.cache| && s.cache[j].number == n;
    e := s.cache[j];
    assert EntryInv(e, s.log, s.inflight);
  }

  lemma ReserveIsBlocked(s: State, key: Key, owner: nat, n: nat)
    requires CacheInv(s) && n < |s.log| && forall e <- s.cache :: e.key != key
    ensures Blocks(s.log[n], n, Create(key, owner, s.now, |s.log|, None, false))
  {
    assert Remembered(s.cache, s.log, s.now, n);
    if Held(s.cache, n) {
      var e := HeldKey(s, n);
    }
  }

  lemma BlocksGrow(creates: seq<Create>, log: seq<Logged>, c: Create)
    requires forall i :: 0 <= i < |creates| ==> creates[i].logged <= |log|
    requires forall i, n :: 0 <= i < |creates| && 0 <= n < creates[i].logged ==> Blocks(log[n], n, creates[i])
    requires c.logged == |log| && forall n :: 0 <= n < |log| ==> Blocks(log[n], n, c)
    ensures forall i :: 0 <= i < |creates + [c]| ==> (creates + [c])[i].logged <= |log|
    ensures forall i, n :: 0 <= i < |creates + [c]| && 0 <= n < (creates + [c])[i].logged ==> Blocks(log[n], n, (creates + [c])[i])
  {
  }

  lemma ReserveKeepsBlocks(s: State, key: Key, owner: nat)
    requires CacheInv(s) && BlockInv(s) && forall e <- s.cache :: e.key != key
    ensures BlockInv(Reserve(s, key, owner))
  {
    var c := Create(key, owner, s.now, |s.log|, None, false);
    forall n: nat | n < |s.log| ensures Blocks(s.log[n], n, c) {
      ReserveIsBlocked(s, key, owner, n);
    }
    BlocksGrow(s.creates, s.log, c);
  }

  ghost predicate HistoryInv(s: State) {
    NoRepeat(s.creates) && BlockInv(s)
  }

  lemma FramesHistory(s: State, t: State)
    requires HistoryInv(s) && t.creates == s.creates && t.log == s.log
    ensures HistoryInv(t)
  {
  }

  lemma CreatedKeepsHistory(t: State, key: Key, owner: nat)
    requires BudgetInv(t) && CacheInv(t) && DraftInv(t) && HistoryInv(t)
    requires key !in t.resumable && forall e <- t.cache :: e.key != key
    ensures HistoryInv(Reserve(t, key, owner))
  {
    ReserveKeepsHistory(t, key, owner);
    ReserveKeepsBlocks(t, key, owner);
  }

  lemma ActHistory(t: State, key: Key, mayCreate: bool, owner: nat, v: Verdict)
    ensures Act(t, key, mayCreate, owner, v).log == t.log
    ensures Act(t, key, mayCreate, owner, v).creates == if v.Created? then Reserve(t, key, owner).creates else t.creates
  {
  }

  lemma ActKeepsHistory(t: State, key: Key, mayCreate: bool, owner: nat, v: Verdict)
    requires BudgetInv(t) && CacheInv(t) && DraftInv(t) && HistoryInv(t) && Fitting(t, key, v)
    ensures HistoryInv(Act(t, key, mayCreate, owner, v))
  {
    ActHistory(t, key, mayCreate, owner, v);
    if v.Created? {
      CreatedKeepsHistory(t, key, owner);
      FramesHistory(Reserve(t, key, owner), Act(t, key, mayCreate, owner, v));
    } else {
      FramesHistory(t, Act(t, key, mayCreate, owner, v));
    }
  }

  lemma BeginKeepsHistory(s: State, key: Key, mayCreate: bool, owner: nat)
    requires Inv(s)
    ensures HistoryInv(AfterBegin(s, key, mayCreate, owner))
  {
    var t := AfterSearch(s, key);
    PruneKeepsDrafts(s, t);
    DropStaleKeeps(s, key);
    PruneKeepsCache(AfterLookup(s, key));
    DecideFits(s, key, mayCreate);
    FramesHistory(s, t);
    ActKeepsHistory(t, key, mayCreate, owner, Decide(s, key, mayCreate));
  }

  lemma OwnStepKeepsNoRepeat(s: State, t: State, f: nat)
    requires DraftInv(s) && NoRepeat(s.creates) && Open(s, f) && OwnStep(s, t, f)
    ensures NoRepeat(t.creates)
  {
    var c := s.flights[f].create;
    assert StageInv(s, s.flights[f]);
    forall i, j | 0 <= i < j < |t.creates| && t.creates[i].key == t.creates[j].key ensures Excused(t.creates[i], t.creates[j].at) {
      assert CreateInv(s, j) && LatestInv(s, s.flights[f].key);
    }
  }

  lemma OwnStepKeepsHistory(s: State, t: State, f: nat)
    requires Inv(s) && Open(s, f) && OwnStep(s, t, f) && s.log <= t.log
    ensures HistoryInv(t)
  {
    assert StageInv(s, s.flights[f]);
    OwnStepKeepsNoRepeat(s, t, f);
    forall i, n | 0 <= i < |t.creates| && 0 <= n < t.creates[i].logged ensures Blocks(t.log[n], n, t.creates[i]) {
      assert Blocks(s.log[n], n, s.creates[i]);
    }
  }

  lemma NextKeepsHistory(s: State, a: Action)
    requires Inv(s) && Enabled(s, a)
    ensures HistoryInv(Next(s, a))
  {
    match a
    case Tick(_) => FramesHistory(s, Next(s, a));
    case Lookup(_) => FramesHistory(s, Next(s, a));
    case Begin(key, mayCreate, owner) => BeginKeepsHistory(s, key, mayCreate, owner);
    case Issue(f, id, at) =>
      IssueKeepsDrafts(s, f, id, at);
      OwnStepKeepsHistory(s, Next(s, a), f);
    case Note(f, errors, rejected) =>
      NoteKeepsDrafts(s, f, errors, rejected);
      OwnStepKeepsHistory(s, Next(s, a), f);
    case Settle(f) =>
      SettleKeepsDrafts(s, f);
      OwnStepKeepsHistory(s, Next(s, a), f);
    case Publish(f, result) =>
      PublishKeepsDrafts(s, f, result);
      OwnStepKeepsHistory(s, Next(s, a), f);
  }

  /** Every lock-atomic step keeps the invariants. */
  lemma NextKeeps(s: State, a: Action)
    requires Inv(s) && Enabled(s, a)
    ensures Inv(Next(s, a))
  {
    NextKeepsBudget(s, a);
    NextKeepsCache(s, a);
    NextKeepsFlights(s, a);
    NextKeepsDrafts(s, a);
    NextKeepsHistory(s, a);
  }

  // ---- runs ----

  /** Any interleaving of steps; a step that is not enabled does not happen. */
  function Run(s: State, actions: seq<Action>): State {
    if |actions| == 0 then s
    else
      var before := Run(s, actions[..|actions| - 1]);
      if Enabled(before, actions[|actions| - 1]) then Next(before, actions[|actions| - 1]) else before
  }

  lemma {:induction false} RunKeeps(s: State, actions: seq<Action>)
    requires Inv(s)
    ensures Inv(Run(s, actions))
  {
    if |actions| > 0 {
      RunKeeps(s, actions[..|actions| - 1]);
      var before := Run(s, actions[..|actions| - 1]);
      if Enabled(before, actions[|actions| - 1]) {
        NextKeeps(before, actions[|actions| - 1]);
      }
    }
  }

  lemma OpenFlight(s: State, f: nat)
    requires Inv(s) && f < |s.flights| && !s.flights[f].stage.Done?
    ensures Open(s, f)
  {
    assert StageInv(s, s.flights[f]);
  }

  /** Two create requests for one validation key are sent only if the first yielded no draft, its
      draft was seen in a terminal status, or 24 hours have passed since the draft was issued. */
  lemma NoNeedlessRequest(now: real, actions: seq<Action>, i: nat, j: nat)
    requires var cs := Run(Initial(now), actions).creates; i < j < |cs| && cs[i].key == cs[j].key
    ensures var cs := Run(Initial(now), actions).creates;
      cs[i].draft.None? || cs[i].settled || cs[j].at - cs[i].draft.value.at >= 86400.0
  {
    InitialHolds(now);
    RunKeeps(Initial(now), actions);
    var cs := Run(Initial(now), actions).creates;
    assert NoRepeat(cs);
    assert Excused(cs[i], cs[j].at);
  }

  /** At any moment a key is worked on by at most one flight, and no key in flight is cached. */
  lemma OneFlightForAKey(now: real, actions: seq<Action>, f: nat, g: nat)
    requires var s := Run(Initial(now), actions); f < |s.flights| && g < |s.flights|
    requires var s := Run(Initial(now), actions); !s.flights[f].stage.Done? && !s.flights[g].stage.Done? && s.flights[f].key == s.flights[g].key
    ensures f == g
    ensures var s := Run(Initial(now), actions);
      s.flights[f].key in s.inflight && s.inflight[s.flights[f].key] == f && forall e <- s.cache :: e.key != s.flights[f].key
  {
    InitialHolds(now);
    RunKeeps(Initial(now), actions);
    var s := Run(Initial(now), actions);
    forall e | e in s.cache ensures e.key !in s.inflight {
      assert exists i :: 0 <= i < |s.cache| && s.cache[i] == e;
      var i :| 0 <= i < |s.cache| && s.cache[i] == e;
      assert EntryInv(s.cache[i], s.log, s.inflight);
    }
  }

  /** The flight that a step belongs to. */
  predicate Touches(a: Action, f: nat) {
    match a
    case Tick(_) => false
    case Lookup(_) => false
    case Begin(_, _, _) => false
    case Issue(g, _, _) => g == f
    case Note(g, _, _) => g == f
    case Settle(g) => g == f
    case Publish(g, _) => g == f
  }

  lemma ActKeepsFlight(t: State, key: Key, mayCreate: bool, owner: nat, v: Verdict)
    ensures t.flights <= Act(t, key, mayCreate, owner, v).flights
  {
  }

  /** A step changes no flight but its own. */
  lemma OthersKeepFlight(s: State, a: Action, f: nat)
    requires Enabled(s, a) && f < |s.flights| && !Touches(a, f)
    ensures f < |Next(s, a).flights| && Next(s, a).flights[f] == s.flights[f]
  {
    if a.Begin? {
      ActKeepsFlight(AfterSearch(s, a.key), a.key, a.mayCreate, a.owner, Decide(s, a.key, a.mayCreate));
    }
  }

  /** A flight is published once: its result never changes afterwards. */
  lemma {:induction false} PublishedOnce(s: State, actions: seq<Action>, f: nat)
    requires f < |s.flights| && s.flights[f].stage.Done?
    ensures f < |Run(s, actions).flights| && Run(s, actions).flights[f] == s.flights[f]
  {
    if |actions| > 0 {
      var before := Run(s, actions[..|actions| - 1]);
      PublishedOnce(s, actions[..|actions| - 1], f);
      if Enabled(before, actions[|actions| - 1]) {
        OthersKeepFlight(before, actions[|actions| - 1], f);
      }
    }
  }

  /** After an outcome-unknown result no create request for its key is sent for 24 hours, unless at
      least 64 later results were cached before. */
  lemma UnknownBlocksRequests(now: real, actions: seq<Action>, n: nat, i: nat)
    requires var s := Run(Initial(now), actions);
      && n < |s.log| && s.log[n].option.state.OutcomeUnknown?
      && i < |s.creates| && s.creates[i].key == s.log[n].key && n < s.creates[i].logged
    ensures var s := Run(Initial(now), actions);
      s.creates[i].at - s.log[n].at >= 86400.0 || s.creates[i].logged - 1 - n >= 64
  {
    InitialHolds(now);
    RunKeeps(Initial(now), actions);
    var s := Run(Initial(now), actions);
    assert Blocks(s.log[n], n, s.creates[i]);
  }

  /** After any cached result no create request for its key is sent for two minutes, with the same
      exception. */
  lemma ResultsBlockRequests(now: real, actions: seq<Action>, n: nat, i: nat)
    requires var s := Run(Initial(now), actions);
      n < |s.log| && i < |s.creates| && s.creates[i].key == s.log[n].key && n < s.creates[i].logged
    ensures var s := Run(Initial(now), actions);
      s.creates[i].at - s.log[n].at >= 120.0 || s.creates[i].logged - 1 - n >= 64
  {
    InitialHolds(now);
    RunKeeps(Initial(now), actions);
    var s := Run(Initial(now), actions);
    assert BlockInv(s);
    BlocksForMinutes(s.log[n], n, s.creates[i]);
  }

  lemma BlocksForMinutes(l: Logged, n: nat, c: Create)
    requires Blocks(l, n, c) && l.key == c.key && n < c.logged
    ensures c.at - l.at >= 120.0 || c.logged - 1 - n >= 64
  {
  }

  /** Over any run at most 2 requests are sent in any minute, 50 in any hour and 500 in any day. */
  lemma RequestsStayWithinBudget(now: real, actions: seq<Action>, lo: real)
    ensures var ts := Times(Run(Initial(now), actions).creates);
      InWindow(ts, lo, lo + 60.0) <= 2 && InWindow(ts, lo, lo + 3600.0) <= 50 && InWindow(ts, lo, lo + 86400.0) <= 500
  {
    InitialHolds(now);
    RunKeeps(Initial(now), actions);
    BudgetsHold(Times(Run(Initial(now), actions).creates), lo);
  }

  // ---- what a step of one call leaves to the others ----

  /** How many create requests one call has sent. */
  function Sent(creates: seq<Create>, me: nat): nat {
    if |creates| == 0 then 0
    else Sent(creates[..|creates| - 1], me) + if creates[|creates| - 1].owner == me then 1 else 0
  }

  lemma SentSnoc(creates: seq<Create>, c: Create, me: nat)
    ensures Sent(creates + [c], me) == Sent(creates, me) + if c.owner == me then 1 else 0
  {
    SnocInit(creates, c);
  }

  lemma {:induction false} SentUpdate(creates: seq<Create>, i: nat, c: Create, me: nat)
    requires i < |creates| && c.owner == creates[i].owner
    ensures Sent(creates[i := c], me) == Sent(creates, me)
  {
    var n := |creates| - 1;
    if i < n {
      SentUpdate(creates[..n], i, c, me);
      assert creates[i := c][..n] == creates[..n][i := c];
    } else {
      assert creates[i := c][..n] == creates[..n];
    }
  }

  /** A step of the `validate` call `me`. */
  predicate StepOf(s: State, a: Action, me: nat) {
    match a
    case Tick(_) => false
    case Lookup(_) => false
    case Begin(_, _, owner) => owner == me
    case Issue(f, _, _) => f < |s.flights| && s.flights[f].owner == me
    case Note(f, _, _) => f < |s.flights| && s.flights[f].owner == me
    case Settle(f) => f < |s.flights| && s.flights[f].owner == me
    case Publish(f, _) => f < |s.flights| && s.flights[f].owner == me
  }

  /** The clock advances, flights keep their keys and owners, and the flights of `me`, other than
      `but`, are exactly as they were, without new ones. */
  ghost predicate Frame(s: State, t: State, me: nat, but: Option<nat>) {
    && s.now <= t.now && |s.flights| <= |t.flights|
    && (forall g :: 0 <= g < |s.flights| ==> t.flights[g].key == s.flights[g].key && t.flights[g].owner == s.flights[g].owner)
    && (forall g :: 0 <= g < |s.flights| && s.flights[g].owner == me && but != Some(g) ==> t.flights[g] == s.flights[g])
    && (forall g :: |s.flights| <= g < |t.flights| ==> t.flights[g].owner != me)
    && Sent(t.creates, me) == Sent(s.creates, me)
  }

  lemma FrameTransitive(s: State, t: State, u: State, me: nat, but: Option<nat>)
    requires Frame(s, t, me, but) && Frame(t, u, me, but)
    ensures Frame(s, u, me, but)
  {
  }

  lemma FrameWeaker(s: State, t: State, me: nat, f: nat)
    requires Frame(s, t, me, None)
    ensures Frame(s, t, me, Some(f)) && (f < |s.flights| && s.flights[f].owner == me ==> t.flights[f] == s.flights[f])
  {
  }

  lemma TakeFrame(t: State, f: Flight, me: nat)
    requires f.owner != me
    ensures Frame(t, Take(t, f), me, None)
  {
  }

  lemma ReserveFrame(t: State, key: Key, owner: nat, me: nat)
    requires owner != me
    ensures Frame(t, Reserve(t, key, owner), me, None)
  {
    SentSnoc(t.creates, Create(key, owner, t.now, |t.log|, None, false), me);
  }

  lemma ActFrame(t: State, key: Key, mayCreate: bool, owner: nat, v: Verdict, me: nat)
    requires owner != me
    ensures Frame(t, Act(t, key, mayCreate, owner, v), me, None)
  {
    if v.Created? {
      var f := Flight(key, owner, |t.creates|, Asking);
      ReserveFrame(t, key, owner, me);
      TakeFrame(Reserve(t, key, owner), f, me);
      FrameTransitive(t, Reserve(t, key, owner), Take(Reserve(t, key, owner), f), me, None);
    } else if v.Resumed? {
      TakeFrame(t, ResumedFlight(t, key, owner), me);
    }
  }

  /** A step on one flight changes no other flight. */
  lemma OwnStepFrame(s: State, a: Action, f: nat, me: nat)
    requires Enabled(s, a) && Touches(a, f)
    ensures Frame(s, Next(s, a), me, Some(f))
  {
    match a
    case Issue(_, id, at) =>
      var c := s.flights[f].create;
      SentUpdate(s.creates, c, s.creates[c].(draft := Some(Issued(id, at))), me);
    case Note(_, _, _) =>
    case Settle(_) =>
      var c := s.flights[f].create;
      SentUpdate(s.creates, c, s.creates[c].(settled := true), me);
    case Publish(_, _) =>
  }

  lemma NotMine(s: State, t: State, me: nat, f: nat)
    requires Frame(s, t, me, Some(f)) && (f < |s.flights| ==> s.flights[f].owner != me)
    ensures Frame(s, t, me, None)
  {
  }

  lemma FlightStepIsOthers(s: State, a: Action, f: nat, me: nat)
    requires Enabled(s, a) && !StepOf(s, a, me) && Touches(a, f)
    ensures f < |s.flights| && s.flights[f].owner != me
  {
  }

  /** The steps of the other threads leave the flights of a call alone. */
  lemma OthersKeepMine(s: State, a: Action, me: nat)
    requires Enabled(s, a) && !StepOf(s, a, me)
    ensures Frame(s, Next(s, a), me, None)
  {
    if a.Begin? {
      ActFrame(AfterSearch(s, a.key), a.key, a.mayCreate, a.owner, Decide(s, a.key, a.mayCreate), me);
    } else if !a.Tick? && !a.Lookup? {
      FlightStepIsOthers(s, a, a.flight, me);
      OwnStepFrame(s, a, a.flight, me);
      NotMine(s, Next(s, a), me, a.flight);
    }
  }

  /** What a verdict means for the call that asked for it. */
  ghost predicate Effect(t: State, u: State, key: Key, mayCreate: bool, me: nat, v: Verdict) {
    && (v.Resumed? || v.Created? ==> v.flight == |t.flights| && |u.flights| == |t.flights| + 1 && t.flights <= u.flights)
    && (!v.Resumed? && !v.Created? ==> u.flights == t.flights)
    && (v.Resumed? ==> key in t.resumable && u.flights[v.flight].key == key && u.flights[v.flight].owner == me
                       && u.flights[v.flight].stage == Holding(t.resumable[key]))
    && (v.Created? ==> mayCreate && u.flights[v.flight].key == key && u.flights[v.flight].owner == me && u.flights[v.flight].stage.Asking?)
    && Sent(u.creates, me) == Sent(t.creates, me) + if v.Created? then 1 else 0
  }

  lemma ChoiceTakesEffect(t: State, live: Option<Validation>, key: Key, mayCreate: bool, me: nat)
    ensures var v := Choose(t, live, key, mayCreate); Effect(t, Act(t, key, mayCreate, me, v), key, mayCreate, me, v)
  {
    SentSnoc(t.creates, Create(key, me, t.now, |t.log|, None, false), me);
  }

  lemma CachedIsGood(s: State, key: Key)
    requires CacheInv(s) && Live(s.cache, key, s.now).Some?
    ensures Good(key.offer, Live(s.cache, key, s.now).value)
  {
    assert EntryInv(s.cache[Find(s.cache, key)], s.log, s.inflight);
  }

  lemma JoinedIsShown(s: State, key: Key, mayCreate: bool, me: nat)
    requires FlightInv(s) && Decide(s, key, mayCreate).Joined?
    ensures Shown(AfterBegin(s, key, mayCreate, me), key, Decide(s, key, mayCreate).flight)
  {
  }

  /** What the locked section of `validate` guarantees to the call. */
  ghost predicate Entered(s: State, u: State, key: Key, mayCreate: bool, me: nat, v: Verdict) {
    && Effect(AfterSearch(s, key), u, key, mayCreate, me, v)
    && (v.Cached? ==> Good(key.offer, v.option))
    && (v.Joined? ==> Shown(u, key, v.flight))
  }

  lemma BeginEnters(s: State, key: Key, mayCreate: bool, me: nat)
    requires CacheInv(s) && FlightInv(s)
    ensures Entered(s, AfterBegin(s, key, mayCreate, me), key, mayCreate, me, Decide(s, key, mayCreate))
  {
    ChoiceTakesEffect(AfterSearch(s, key), Live(s.cache, key, s.now), key, mayCreate, me);
    if Live(s.cache, key, s.now).Some? {
      CachedIsGood(s, key);
    }
    if Decide(s, key, mayCreate).Joined? {
      JoinedIsShown(s, key, mayCreate, me);
    }
  }

  lemma ResultIsGood(s: State, f: nat)
    requires FlightInv(s) && f < |s.flights| && s.flights[f].stage.Done? && s.flights[f].stage.result.Some?
    ensures Good(s.flights[f].key.offer, s.flights[f].stage.result.value)
  {
    assert FlightResult(s.flights[f]);
  }
}
