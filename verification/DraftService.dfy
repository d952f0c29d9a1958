/** The draft-validation service object and a whole `validate` call
    (backend/ozon/draft_validation.py:194-334), with the other threads running in between. */
module DraftService {
  import opened Wrappers
  import opened Sequences
  import opened Candidates
  import opened Orchestration
  import opened DraftBudget
  import P = DraftProtocol
  import E = DraftEvidence

  const MAX_NEW_DRAFTS := 6
  const MAX_POLLS := 5

  /** Everything a `validate` call meets, by the number of the step at which it meets it: the steps
      other threads take just before, the caller's wish to cancel, and the answers of Ozon. */
  datatype World = World(
    others: nat -> seq<P.Action>, cancelled: nat -> bool,
    create: nat -> E.CreateReply, info: nat -> E.InfoReply, slots: nat -> E.SlotReply,
    prepared: nat -> Result<seq<E.ClusterIdentity>, string>, inRange: nat -> bool, patience: nat)

  ghost predicate StatusHeard(w: World, heard: E.Heard) {
    && (heard.status.Some? ==> exists t :: heard.status.value == w.info(t))
    && (heard.cancelled ==> exists t :: w.cancelled(t))
  }

  ghost predicate SlotsHeard(w: World, heard: E.Heard) {
    && (heard.slots.Some? ==> exists t :: heard.slots.value == w.slots(t))
    && (heard.cancelled ==> exists t :: w.cancelled(t))
  }

  /** What asking for the status came to. */
  ghost predicate Polled(o: Offer, ids: seq<E.ClusterIdentity>, heard: E.Heard, v: E.Verdict<E.DraftInfo>) {
    match v
    case Finished(option) => Good(o, option) && E.Told(o, ids, heard, option)
    case Raises => E.Breaks(heard)
    case GoOn(info) => E.HonestInfo(o, info) && heard.status.Some? && E.ReadFrom(o, ids, heard.status.value, info)
  }

  /** What was heard is what the world answered, and a cancellation is the caller's. */
  ghost predicate Hears(w: World, heard: E.Heard) {
    && (heard.create.Some? ==> exists t :: heard.create.value == w.create(t))
    && StatusHeard(w, heard) && SlotsHeard(w, heard)
  }

  lemma RunSnoc(s: P.State, actions: seq<P.Action>, a: P.Action)
    requires P.Enabled(P.Run(s, actions), a)
    ensures P.Run(s, actions + [a]) == P.Next(P.Run(s, actions), a)
  {
    SnocInit(actions, a);
  }

  /** How the wait for another flight ends. */
  datatype Waited = Came(v: Validation) | Failed | StillWaiting

  /** How one turn of `validate` ends. */
  datatype Answer = Evidence(v: Validation) | Stopped | Thrown | Waiting

  datatype Interruption = Raised | NotFinished

  class DraftValidationService {
    var now: real
    var cache: seq<P.Entry>
    var attempts: seq<real>
    var inflight: map<P.Key, nat>
    var resumable: map<P.Key, P.Draft>
    var flights: seq<P.Flight>
    // What has been sent and cached so far; only read by the contracts.
    var creates: seq<P.Create>
    var latest: map<P.Key, nat>
    var log: seq<P.Logged>
    // Steps of the world so far.
    var step: nat
    // The clock at the start and the steps taken since, by all threads.
    ghost const started: real
    ghost var history: seq<P.Action>

    function Abs(): P.State
      reads this
    {
      P.State(now, cache, attempts, inflight, resumable, flights, creates, latest, log)
    }

    constructor (clock: real)
      ensures Abs() == P.Initial(clock) && step == 0 && history == [] && Valid()
    {
      started, history := clock, [];
      now, cache, attempts, inflight, resumable := clock, [], [], map[], map[];
      flights, creates, latest, log, step := [], [], map[], [], 0;
    }

    /** The state is the outcome of the recorded interleaving, so all that is proved of runs holds of it. */
    ghost predicate Valid()
      reads this
    {
      Abs() == P.Run(P.Initial(started), history)
    }

    lemma Invariants()
      requires Valid()
      ensures P.Inv(Abs())
    {
      P.InitialHolds(started);
      P.RunKeeps(P.Initial(started), history);
    }

    ghost method Record(a: P.Action)
      requires P.Enabled(P.Run(P.Initial(started), history), a)
      requires Abs() == P.Next(P.Run(P.Initial(started), history), a)
      modifies `history
      ensures Valid() && history == old(history) + [a]
    {
      RunSnoc(P.Initial(started), history, a);
      history := history + [a];
    }

    // ---- the locked sections ----

    /** `_cached_option_locked` */
    method CachedOption(key: P.Key) returns (option: Option<Validation>)
      modifies `cache
      ensures option == P.Live(old(cache), key, now) && Abs() == P.AfterLookup(old(Abs()), key)
    {
      var i := P.Find(cache, key);
      if i < |cache| {
        if now - cache[i].at < P.Ttl(cache[i].option) {
          return Some(cache[i].option);
        }
        cache := cache[..i] + cache[i + 1..];
      }
      return None;
    }

    /** `_prune_resumable_drafts_locked` and `_resumable_draft_locked` */
    method ResumableDraft(key: P.Key) returns (draft: Option<P.Draft>)
      modifies `resumable
      ensures resumable == P.PruneDrafts(old(resumable), now)
      ensures draft == if key in resumable then Some(resumable[key]) else None
    {
      var expired := set k | k in resumable && now - resumable[k].createdAt >= P.RESUME_TTL;
      resumable := resumable - expired;
      return if key in resumable then Some(resumable[key]) else None;
    }

    /** `self._inflight[key] = flight` */
    method TakeFlight(flight: P.Flight)
      modifies `flights, `inflight
      ensures Abs() == P.Take(old(Abs()), flight)
    {
      inflight := inflight[flight.key := |flights|];
      flights := flights + [flight];
    }

    /** Note the new create request. */
    method NewRequest(key: P.Key, owner: nat)
      modifies `creates, `latest
      ensures Abs() == P.Request(old(Abs()), key, owner)
    {
      latest := latest[key := |creates|];
      creates := creates + [P.Create(key, owner, now, |log|, None, false)];
    }

    method Resolve(key: P.Key, mayCreate: bool, owner: nat, cached: Option<Validation>, draft: Option<P.Draft>) returns (v: P.Verdict)
      requires draft == if key in resumable then Some(resumable[key]) else None
      modifies `attempts, `creates, `latest, `flights, `inflight
      ensures v == P.Choose(old(Abs()), cached, key, mayCreate)
      ensures Abs() == P.Act(old(Abs()), key, mayCreate, owner, v)
    {
      if cached.Some? {
        return P.Cached(cached.value);
      }
      if key in inflight {
        return P.Joined(inflight[key]);
      }
      if draft.Some? {
        v := P.Resumed(|flights|);
        TakeFlight(P.ResumedFlight(Abs(), key, owner));
        return;
      }
      v := OpenNew(key, mayCreate, owner);
    }

    /** The slot is granted: note the request and take the flight. */
    method OpenGranted(key: P.Key, owner: nat)
      modifies `creates, `latest, `flights, `inflight
      ensures Abs() == P.Take(P.Request(old(Abs()), key, owner), P.Flight(key, owner, |old(creates)|, P.Asking))
    {
      NewRequest(key, owner);
      TakeFlight(P.Flight(key, owner, |creates| - 1, P.Asking));
    }

    method SpendSlot() returns (granted: bool)
      modifies `attempts
      ensures granted == !Denied(DropOld(old(attempts), now), now)
      ensures Abs() == old(Abs()).(attempts := DropOld(old(attempts), now) + if granted then [now] else [])
    {
      var kept;
      granted, kept := ReserveSlot(attempts, now);
      attempts := kept;
    }

    /** Neither cached nor in flight nor resumable: a new request, if the budgets allow it. */
    method OpenNew(key: P.Key, mayCreate: bool, owner: nat) returns (v: P.Verdict)
      modifies `attempts, `creates, `latest, `flights, `inflight
      ensures v == if !mayCreate || Denied(DropOld(old(attempts), now), now) then P.Limited else P.Created(|old(flights)|)
      ensures Abs() == P.Act(old(Abs()), key, mayCreate, owner, v)
    {
      if !mayCreate {
        return P.Limited;
      }
      var granted := SpendSlot();
      if !granted {
        return P.Limited;
      }
      v := P.Created(|flights|);
      OpenGranted(key, owner);
    }

    /** The locked section of `validate` that looks, decides and takes the flight. */
    method Begin(key: P.Key, mayCreate: bool, owner: nat) returns (v: P.Verdict)
      modifies this
      ensures v == P.Decide(old(Abs()), key, mayCreate)
      ensures Abs() == P.AfterBegin(old(Abs()), key, mayCreate, owner) && step == old(step) && history == old(history)
    {
      var cached := CachedOption(key);
      var draft := ResumableDraft(key);
      assert Abs() == P.AfterSearch(old(Abs()), key);
      v := Resolve(key, mayCreate, owner, cached, draft);
    }

    /** `_remember_resumable_draft`, right after the create request was answered. */
    method RememberDraft(f: nat, id: nat, at: real)
      requires P.Enabled(Abs(), P.Issue(f, id, at))
      modifies `resumable, `flights, `creates
      ensures Abs() == P.AfterIssue(old(Abs()), f, id, at)
    {
      var draft := P.Draft(id, at, [], []);
      resumable := resumable[flights[f].key := draft];
      creates := creates[flights[f].create := creates[flights[f].create].(draft := Some(P.Issued(id, at)))];
      flights := flights[f := flights[f].(stage := P.Fresh(draft))];
    }

    /** `_remember_resumable_draft`, once the preliminary errors are known. */
    method RememberReasons(f: nat, errors: seq<string>, rejected: seq<string>)
      requires P.Enabled(Abs(), P.Note(f, errors, rejected))
      modifies `resumable, `flights
      ensures Abs() == P.AfterNote(old(Abs()), f, errors, rejected)
    {
      var draft := flights[f].stage.draft.(errorReasons := errors, rejectedReasons := rejected);
      resumable := resumable[flights[f].key := draft];
      flights := flights[f := flights[f].(stage := P.Holding(draft))];
    }

    /** `_clear_resumable_draft` */
    method ClearDraft(f: nat)
      requires P.Enabled(Abs(), P.Settle(f))
      modifies `resumable, `flights, `creates
      ensures Abs() == P.AfterSettle(old(Abs()), f)
    {
      var key := flights[f].key;
      if key in resumable && resumable[key].id == flights[f].stage.draft.id {
        resumable := resumable - {key};
      }
      creates := creates[flights[f].create := creates[flights[f].create].(settled := true)];
      flights := flights[f := flights[f].(stage := P.Settled)];
    }

    /** `while len(self._cache) > self.cache_size: ...` */
    method EvictOldest()
      modifies `cache
      ensures cache == P.Evict(old(cache))
    {
      while |cache| > P.CACHE_MAX
        invariant P.Evict(cache) == P.Evict(old(cache))
      {
        cache := cache[1..];
      }
    }

    method CacheResult(key: P.Key, v: Validation)
      modifies `cache, `log
      ensures Abs() == P.AfterRemember(old(Abs()), key, v)
    {
      cache := P.Put(cache, P.Entry(key, now, v, |log|));
      log := log + [P.Logged(key, now, v)];
      EvictOldest();
    }

    /** `_publish_flight` */
    method PublishFlight(f: nat, result: Option<Validation>)
      requires P.Enabled(Abs(), P.Publish(f, result))
      modifies `cache, `log, `inflight, `flights
      ensures Abs() == P.AfterPublish(old(Abs()), f, result)
    {
      var key := flights[f].key;
      if result.Some? && P.Cacheable(result.value) {
        CacheResult(key, result.value);
      }
      flights := flights[f := flights[f].(stage := P.Done(result))];
      inflight := inflight - {key};
    }

    // ---- the other threads ----

    method Perform(a: P.Action)
      requires P.Enabled(Abs(), a)
      modifies this
      ensures Abs() == P.Next(old(Abs()), a) && step == old(step) && history == old(history)
    {
      match a
      case Tick(t) => now := t;
      case Lookup(key) => var _ := CachedOption(key);
      case Begin(key, mayCreate, owner) => var _ := Begin(key, mayCreate, owner);
      case Issue(f, id, at) => RememberDraft(f, id, at);
      case Note(f, errors, rejected) => RememberReasons(f, errors, rejected);
      case Settle(f) => ClearDraft(f);
      case Publish(f, result) => PublishFlight(f, result);
    }
 

    // ---- one `validate` call, number `me`, among the others ----

    /** What the other threads do before the next step of this call; they never touch its flights. */
    method Interfere(w: World, me: nat)
      requires Valid()
      modifies this
      ensures Valid() && P.Frame(old(Abs()), Abs(), me, None) && step == old(step) + 1
    {
      ghost var before := Abs();
      var actions := w.others(step);
      step := step + 1;
      for i := 0 to |actions|
        invariant Valid() && P.Frame(before, Abs(), me, None) && step == old(step) + 1
      {
        ghost var middle := Abs();
        if P.Enabled(Abs(), actions[i]) && !P.StepOf(Abs(), actions[i], me) {
          P.OthersKeepMine(Abs(), actions[i], me);
          Do(actions[i]);
          P.FrameTransitive(before, middle, Abs(), me, None);
        }
      }
    }

    method Do(a: P.Action)
      requires Valid() && P.Enabled(Abs(), a)
      modifies this
      ensures Valid() && Abs() == P.Next(old(Abs()), a) && step == old(step)
    {
      Perform(a);
      Record(a);
    }

    /** An open flight of this call, for this key. */
    predicate Flying(f: nat, key: P.Key, me: nat)
      reads this
    {
      f < |flights| && flights[f].key == key && flights[f].owner == me && !flights[f].stage.Done?
    }

    /** A step on the flight, then whatever the others do. */
    method StepOn(a: P.Action, f: nat, key: P.Key, me: nat)
      requires Valid() && Flying(f, key, me) && P.Touches(a, f)
      requires P.Open(Abs(), f) ==> P.Enabled(Abs(), a)
      modifies this
      ensures Valid() && P.Frame(old(Abs()), Abs(), me, Some(f))
      ensures P.Enabled(old(Abs()), a) && Abs() == P.Next(old(Abs()), a)
    {
      Invariants();
      P.OpenFlight(Abs(), f);
      P.OwnStepFrame(Abs(), a, f, me);
      Do(a);
    }

    method Pass(w: World, f: nat, key: P.Key, me: nat)
      requires Valid() && Flying(f, key, me)
      modifies this
      ensures Valid() && P.Frame(old(Abs()), Abs(), me, Some(f)) && Flying(f, key, me) && flights[f] == old(flights[f])
      ensures old(now) <= now
    {
      Interfere(w, me);
      P.FrameWeaker(old(Abs()), Abs(), me, f);
    }

    // ---- one validation ----

    /** The draft is remembered before its errors are read, so that it can be resumed even if they
        cannot be. */
    method ReceiveDraft(key: P.Key, f: nat, me: nat, id: nat, w: World)
      requires Valid() && Flying(f, key, me) && flights[f].stage.Asking?
      modifies this
      ensures Valid() && P.Frame(old(Abs()), Abs(), me, Some(f)) && Flying(f, key, me)
      ensures flights[f].stage.Fresh? && flights[f].stage.draft.id == id
    {
      var at := now;
      Pass(w, f, key, me);
      ghost var middle := Abs();
      StepOn(P.Issue(f, id, at), f, key, me);
      P.FrameTransitive(old(Abs()), middle, Abs(), me, Some(f));
      ghost var later := Abs();
      Pass(w, f, key, me);
      P.FrameTransitive(old(Abs()), later, Abs(), me, Some(f));
    }

    method KeepReasons(key: P.Key, f: nat, me: nat, evidence: E.Evidence) returns (draft: P.Draft)
      requires Valid() && Flying(f, key, me) && flights[f].stage.Fresh?
      modifies this
      ensures Valid() && P.Frame(old(Abs()), Abs(), me, Some(f)) && Flying(f, key, me) && flights[f].stage == P.Holding(draft)
      ensures draft.id == old(flights[f].stage.draft.id)
      ensures draft.errorReasons == evidence.errorReasons && draft.rejectedReasons == evidence.rejectedReasons
    {
      StepOn(P.Note(f, evidence.errorReasons, evidence.rejectedReasons), f, key, me);
      draft := flights[f].stage.draft;
    }

    /** The answer to the create request, and the draft it brings. */
    method SendRequest(key: P.Key, f: nat, me: nat, w: World) returns (reply: E.CreateReply)
      requires Valid() && Flying(f, key, me) && flights[f].stage.Asking?
      modifies this
      ensures Valid() && P.Frame(old(Abs()), Abs(), me, Some(f)) && Flying(f, key, me)
      ensures reply.Answered? && reply.draft.HasDraft? ==> flights[f].stage.Fresh? && flights[f].stage.draft.id == reply.draft.id
      ensures exists t :: reply == w.create(t)
    {
      Pass(w, f, key, me);
      reply := w.create(step);
      if reply.Answered? && reply.draft.HasDraft? {
        ghost var middle := Abs();
        ReceiveDraft(key, f, me, reply.draft.id, w);
        P.FrameTransitive(old(Abs()), middle, Abs(), me, Some(f));
      }
    }

    /** The create request and its verdict. */
    method AskForDraft(o: Offer, ids: seq<E.ClusterIdentity>, key: P.Key, f: nat, me: nat, w: World)
      returns (v: E.Verdict<P.Draft>, ghost heard: E.Heard)
      requires Valid() && Flying(f, key, me) && flights[f].stage.Asking? && key.offer == o
      modifies this
      ensures Valid() && P.Frame(old(Abs()), Abs(), me, Some(f)) && Flying(f, key, me)
      ensures v.Finished? ==> Good(o, v.v)
      ensures v.Finished? ==> E.Told(o, ids, heard, v.v)
      ensures v.Raises? ==> E.Breaks(heard)
      ensures v.GoOn? ==> flights[f].stage == P.Holding(v.next) && E.Drafted(heard.create, v.next.id)
      ensures v.GoOn? ==> E.CreateGives(heard.create, v.next.errorReasons + v.next.rejectedReasons)
      ensures Hears(w, heard) && heard.create.Some?
    {
      var reply := SendRequest(key, f, me, w);
      heard := E.Heard(Some(reply), None, None, false, E.ReplyReasons(o, ids, reply));
      var verdict := E.JudgeCreate(o, ids, reply);
      E.CreateIsGood(o, ids, reply);
      E.GoOnHasDraft(o, ids, reply);
      if verdict.Raises? {
        return E.Raises, heard;
      }
      if verdict.Finished? {
        E.CreateTells(o, ids, reply);
        return E.Finished(verdict.v), heard;
      }
      ghost var middle := Abs();
      E.GoOnGives(o, ids, reply);
      var draft := KeepReasons(key, f, me, verdict.next);
      P.FrameTransitive(old(Abs()), middle, Abs(), me, Some(f));
      return E.GoOn(draft), heard;
    }

    /** One status request: None when the draft is still in progress. */
    method PollOnce(o: Offer, ids: seq<E.ClusterIdentity>, key: P.Key, f: nat, me: nat, draft: nat, w: World, ghost create: Option<E.CreateReply>)
      returns (v: Option<E.Verdict<E.DraftInfo>>, ghost heard: E.Heard)
      requires Valid() && Flying(f, key, me) && key.offer == o && E.Drafted(create, draft)
      modifies this
      ensures Valid() && P.Frame(old(Abs()), Abs(), me, Some(f)) && Flying(f, key, me) && flights[f] == old(flights[f])
      ensures v.Some? ==> Polled(o, ids, heard, v.value)
      ensures v.None? ==> heard == E.Heard(create, Some(E.InProgress), None, false, [])
      ensures heard.create == create && heard.slots.None? && StatusHeard(w, heard)
    {
      Pass(w, f, key, me);
      var reply := w.info(step);
      heard := E.Heard(create, Some(reply), None, false, []);
      var verdict := E.JudgeInfo(o, ids, draft, reply);
      E.InfoIsHonest(o, ids, draft, reply);
      match verdict {
        case Raises => return Some(E.Raises), heard;
        case Finished(option) =>
          E.InfoTells(o, ids, draft, create, reply, []);
          return Some(E.Finished(option)), heard;
        case GoOn(info) => return if info.Some? then Some(E.GoOn(info.value)) else None, heard;
      }
    }

    /** The status requests: at most five, until the draft is in a terminal status. */
    method PollStatus(o: Offer, ids: seq<E.ClusterIdentity>, key: P.Key, f: nat, me: nat, draft: nat, w: World, ghost create: Option<E.CreateReply>)
      returns (v: E.Verdict<E.DraftInfo>, ghost heard: E.Heard)
      requires Valid() && Flying(f, key, me) && key.offer == o && E.Drafted(create, draft)
      modifies this
      ensures Valid() && P.Frame(old(Abs()), Abs(), me, Some(f)) && Flying(f, key, me) && flights[f] == old(flights[f])
      ensures Polled(o, ids, heard, v)
      ensures heard.create == create && heard.slots.None? && StatusHeard(w, heard)
    {
      heard := E.Heard(create, None, None, false, []);
      for attempt := 0 to MAX_POLLS
        invariant Valid() && P.Frame(old(Abs()), Abs(), me, Some(f)) && Flying(f, key, me) && flights[f] == old(flights[f])
        invariant heard == E.Heard(create, None, None, false, []) || heard == E.Heard(create, Some(E.InProgress), None, false, [])
        invariant StatusHeard(w, heard)
      {
        if w.cancelled(step) {
          heard := heard.(cancelled := true);
          E.PlainTells(o, ids, draft, create, heard.status, true, "VALIDATION_CANCELLED");
          return E.Finished(E.Plain(o, Unavailable, "VALIDATION_CANCELLED", Some(draft))), heard;
        }
        ghost var middle := Abs();
        var polled;
        polled, heard := PollOnce(o, ids, key, f, me, draft, w, create);
        P.FrameTransitive(old(Abs()), middle, Abs(), me, Some(f));
        if polled.Some? {
          return polled.value, heard;
        }
        if w.cancelled(step) {
          heard := heard.(cancelled := true);
          E.PlainTells(o, ids, draft, create, heard.status, true, "VALIDATION_CANCELLED");
          return E.Finished(E.Plain(o, Unavailable, "VALIDATION_CANCELLED", Some(draft))), heard;
        }
      }
      E.PlainTells(o, ids, draft, create, heard.status, false, "DRAFT_INFO_TIMEOUT");
      return E.Finished(E.Plain(o, Unavailable, "DRAFT_INFO_TIMEOUT", Some(draft))), heard;
    }

    /** The time-slot request and its verdict. */
    method HearSlots(o: Offer, ids: seq<E.ClusterIdentity>, key: P.Key, f: nat, me: nat, draft: nat, info: E.DraftInfo, causes: seq<string>, w: World,
                     ghost create: Option<E.CreateReply>, ghost status: E.InfoReply, ghost reasons: seq<string>)
      returns (r: Option<Validation>, ghost heard: E.Heard)
      requires Valid() && Flying(f, key, me) && E.HonestInfo(o, info)
      requires E.Drafted(create, draft) && E.ReadFrom(o, ids, status, info) && E.Succeeds(o, ids, status) && E.EveryClusterServable(ids, status)
      requires causes == E.Normalized(reasons) && E.CreateGives(create, reasons) && E.StatusGives(status, reasons)
      modifies this
      ensures Valid() && P.Frame(old(Abs()), Abs(), me, Some(f)) && Flying(f, key, me)
      ensures r.Some? ==> Good(o, r.value) && E.Told(o, ids, heard, r.value)
      ensures r.None? ==> E.Breaks(heard)
      ensures heard.create == create && heard.status == Some(status) && SlotsHeard(w, heard)
    {
      Pass(w, f, key, me);
      var slots := w.slots(step);
      heard := E.Heard(create, Some(status), Some(slots), false, reasons);
      var verdict := E.JudgeSlots(o, draft, info, causes, slots);
      E.SlotsAreGood(o, draft, info, causes, slots);
      E.SlotsTell(o, ids, draft, create, status, info, causes, slots, reasons);
      if verdict.Raises? {
        E.SlotsRaise(o, draft, info, causes, slots);
        return None, heard;
      }
      return Some(verdict.v), heard;
    }

    /** The rest of a validation, once its draft is in a terminal status and has been cleared. */
    method AskForSlots(o: Offer, ids: seq<E.ClusterIdentity>, key: P.Key, f: nat, me: nat, draft: P.Draft, info: E.DraftInfo, w: World,
                       ghost create: Option<E.CreateReply>, ghost status: E.InfoReply)
      returns (r: Option<Validation>, ghost heard: E.Heard)
      requires Valid() && Flying(f, key, me) && E.HonestInfo(o, info)
      requires E.Drafted(create, draft.id) && E.ReadFrom(o, ids, status, info)
      requires E.CreateGives(create, draft.errorReasons + draft.rejectedReasons)
      modifies this
      ensures Valid() && P.Frame(old(Abs()), Abs(), me, Some(f)) && Flying(f, key, me)
      ensures r.Some? ==> Good(o, r.value) && E.Told(o, ids, heard, r.value)
      ensures r.None? ==> E.Breaks(heard)
      ensures heard.create == create && heard.status == Some(status) && SlotsHeard(w, heard)
    {
      ghost var reasons := draft.errorReasons + info.errorReasons + draft.rejectedReasons + info.rejectedReasons;
      heard := E.Heard(create, Some(status), None, false, reasons);
      var causes := E.NormalizeReasons(draft.errorReasons + info.errorReasons + draft.rejectedReasons + info.rejectedReasons);
      var judged := E.JudgeStatus(o, ids, draft.id, info, causes);
      E.StatusIsGood(o, ids, draft.id, info, causes);
      E.ReadGives(o, ids, status, info, reasons);
      E.StatusTells(o, ids, draft.id, create, status, info, causes, reasons);
      if judged.Raises? {
        return None, heard;
      }
      if judged.Finished? {
        return Some(judged.v), heard;
      }
      if w.cancelled(step) {
        heard := heard.(cancelled := true);
        E.CancelledTells(o, ids, draft.id, create, status, info, reasons);
        return E.Build(o, Unavailable, ["VALIDATION_CANCELLED"], Some(draft.id), info.accepted, info.rejected, []), heard;
      }
      r, heard := HearSlots(o, ids, key, f, me, draft.id, info, causes, w, create, status, reasons);
    }

    /** `_validate_one`, once it has a draft. */
    method FollowDraft(o: Offer, ids: seq<E.ClusterIdentity>, key: P.Key, f: nat, me: nat, draft: P.Draft, w: World, ghost create: Option<E.CreateReply>)
      returns (r: Option<Validation>, ghost heard: E.Heard)
      requires Valid() && Flying(f, key, me) && key.offer == o && flights[f].stage == P.Holding(draft) && E.Drafted(create, draft.id)
      requires E.CreateGives(create, draft.errorReasons + draft.rejectedReasons)
      modifies this
      ensures Valid() && P.Frame(old(Abs()), Abs(), me, Some(f)) && Flying(f, key, me)
      ensures r.Some? ==> Good(o, r.value) && E.Told(o, ids, heard, r.value)
      ensures r.None? ==> E.Breaks(heard)
      ensures heard.create == create && StatusHeard(w, heard) && SlotsHeard(w, heard)
    {
      if w.cancelled(step) {
        E.PlainTells(o, ids, draft.id, create, None, true, "VALIDATION_CANCELLED");
        return Some(E.Plain(o, Unavailable, "VALIDATION_CANCELLED", Some(draft.id))), E.Heard(create, None, None, true, []);
      }
      var polled;
      polled, heard := PollStatus(o, ids, key, f, me, draft.id, w, create);
      if polled.Raises? {
        return None, heard;
      }
      if polled.Finished? {
        return Some(polled.v), heard;
      }
      ghost var middle := Abs();
      StepOn(P.Settle(f), f, key, me);
      P.FrameTransitive(old(Abs()), middle, Abs(), me, Some(f));
      ghost var later := Abs();
      ghost var status := heard.status.value;
      r, heard := AskForSlots(o, ids, key, f, me, draft, polled.next, w, create, status);
      P.FrameTransitive(old(Abs()), later, Abs(), me, Some(f));
    }

    /** `_validate_one`; None stands for an exception. Whatever happens, the evidence is what the
        answers heard say. */
    method ValidateOne(o: Offer, ids: seq<E.ClusterIdentity>, key: P.Key, f: nat, me: nat, resumed: Option<P.Draft>, w: World)
      returns (r: Option<Validation>, ghost heard: E.Heard)
      requires Valid() && Flying(f, key, me) && key.offer == o
      requires flights[f].stage == if resumed.Some? then P.Holding(resumed.value) else P.Asking
      modifies this
      ensures Valid() && P.Frame(old(Abs()), Abs(), me, Some(f)) && Flying(f, key, me)
      ensures r.Some? ==> Good(o, r.value) && E.Told(o, ids, heard, r.value)
      ensures r.None? ==> E.Breaks(heard)
      ensures Hears(w, heard) && (heard.create.Some? <==> resumed.None?)
    {
      if resumed.Some? {
        r, heard := FollowDraft(o, ids, key, f, me, resumed.value, w, None);
        return;
      }
      var asked;
      asked, heard := AskForDraft(o, ids, key, f, me, w);
      if asked.Raises? {
        return None, heard;
      }
      if asked.Finished? {
        return Some(asked.v), heard;
      }
      ghost var middle := Abs();
      ghost var create := heard.create;
      r, heard := FollowDraft(o, ids, key, f, me, asked.next, w, create);
      P.FrameTransitive(old(Abs()), middle, Abs(), me, Some(f));
    }

    // ---- waiting, flying, validating ----

    /** Some other call has an open flight. */
    ghost predicate OtherFlies(me: nat)
      reads this
    {
      exists g: nat :: g < |flights| && flights[g].owner != me && !flights[g].stage.Done?
    }

    /** The call has no open flight. */
    ghost predicate Landed(me: nat)
      reads this
    {
      forall g :: 0 <= g < |flights| && flights[g].owner == me ==> flights[g].stage.Done?
    }

    /** Why a wait for a flight is over, or that there was no reason yet since step `since`. */
    ghost predicate WaitEnds(f: nat, key: P.Key, w: World, since: nat, r: Waited)
      reads this
    {
      f < |flights| &&
      match r
      case Came(v) =>
        || flights[f].stage == P.Done(Some(v))
        || (!flights[f].stage.Done? && w.cancelled(step) && v == E.Plain(key.offer, Unavailable, "VALIDATION_CANCELLED", None))
      case Failed => flights[f].stage == P.Done(None)
      case StillWaiting => !(flights[f].stage.Done?) && step == since + w.patience && forall t :: since < t <= step ==> !w.cancelled(t)
    }

    /** `_wait_for_flight`, for as many rounds as the caller has patience: the wait yields the result
        of the flight, or the refusal of a cancelled call, and goes on exactly as long as the flight
        is open and the call is not cancelled. */
    method WaitForFlight(f: nat, key: P.Key, me: nat, w: World) returns (r: Waited)
      requires Valid() && Landed(me) && P.Shown(Abs(), key, f)
      modifies this
      ensures Valid() && Landed(me) && P.Frame(old(Abs()), Abs(), me, None)
      ensures WaitEnds(f, key, w, old(step), r)
      ensures r.Came? ==> Good(key.offer, r.v)
    {
      ghost var since := step;
      r := StillWaiting;
      for n := 0 to w.patience
        invariant Valid() && P.Frame(old(Abs()), Abs(), me, None)
        invariant r.StillWaiting? && f < |flights| && flights[f].key == key && !flights[f].stage.Done? && step == since + n
        invariant forall t :: since < t <= step ==> !w.cancelled(t)
      {
        ghost var middle := Abs();
        r := WaitRound(f, key, me, w);
        P.FrameTransitive(old(Abs()), middle, Abs(), me, None);
        if !r.StillWaiting? {
          return;
        }
      }
    }

    /** One round: what the other threads do, then a look at the flight and at the caller's wish. */
    method WaitRound(f: nat, key: P.Key, me: nat, w: World) returns (r: Waited)
      requires Valid() && Landed(me) && f < |flights| && flights[f].key == key
      modifies this
      ensures Valid() && Landed(me) && P.Frame(old(Abs()), Abs(), me, None) && step == old(step) + 1
      ensures f < |flights| && flights[f].key == key
      ensures match r
        case Came(v) => Good(key.offer, v) && (flights[f].stage == P.Done(Some(v))
          || (!flights[f].stage.Done? && w.cancelled(step) && v == E.Plain(key.offer, Unavailable, "VALIDATION_CANCELLED", None)))
        case Failed => flights[f].stage == P.Done(None)
        case StillWaiting => !(flights[f].stage.Done?) && !w.cancelled(step)
    {
      Interfere(w, me);
      if flights[f].stage.Done? {
        match flights[f].stage.result {
          case Some(v) =>
            Invariants();
            P.ResultIsGood(Abs(), f);
            return Came(v);
          case None => return Failed;
        }
      }
      if w.cancelled(step) {
        E.PlainIsGood(key.offer, Unavailable, "VALIDATION_CANCELLED", None);
        return Came(E.Plain(key.offer, Unavailable, "VALIDATION_CANCELLED", None));
      }
      return StillWaiting;
    }

    /** The owner's part: validate, then publish whatever came of it. */
    method Fly(ids: seq<E.ClusterIdentity>, key: P.Key, f: nat, me: nat, resumed: Option<P.Draft>, w: World) returns (r: Option<Validation>)
      requires Valid() && Flying(f, key, me)
      requires flights[f].stage == if resumed.Some? then P.Holding(resumed.value) else P.Asking
      requires forall g :: 0 <= g < |flights| && flights[g].owner == me && g != f ==> flights[g].stage.Done?
      modifies this
      ensures Valid() && Landed(me) && P.Frame(old(Abs()), Abs(), me, Some(f))
      ensures f < |flights| && flights[f].stage == P.Done(r)
      ensures r.Some? ==> Good(key.offer, r.value)
    {
      ghost var heard;
      r, heard := ValidateOne(key.offer, ids, key, f, me, resumed, w);
      ghost var middle := Abs();
      Pass(w, f, key, me);
      P.FrameTransitive(old(Abs()), middle, Abs(), me, Some(f));
      ghost var later := Abs();
      StepOn(P.Publish(f, r), f, key, me);
      P.FrameTransitive(old(Abs()), later, Abs(), me, Some(f));
    }

    /** The locked section of `validate`, recorded. */
    method Enter(key: P.Key, mayCreate: bool, me: nat) returns (v: P.Verdict)
      requires Valid()
      modifies this
      ensures Valid() && P.Entered(old(Abs()), Abs(), key, mayCreate, me, v)
    {
      Invariants();
      P.BeginEnters(Abs(), key, mayCreate, me);
      v := Begin(key, mayCreate, me);
      Record(P.Begin(key, mayCreate, me));
    }

    /** The first look of `validate` at a candidate. */
    method Look(key: P.Key, me: nat) returns (option: Option<Validation>, joined: Option<nat>)
      requires Valid()
      modifies this
      ensures Valid() && P.Frame(old(Abs()), Abs(), me, None) && flights == old(flights)
      ensures option.Some? ==> Good(key.offer, option.value)
      ensures joined.Some? ==> P.Shown(Abs(), key, joined.value)
    {
      Invariants();
      if P.Live(cache, key, now).Some? {
        P.CachedIsGood(Abs(), key);
      }
      option := CachedOption(key);
      Record(P.Lookup(key));
      joined := if key in inflight then Some(inflight[key]) else None;
    }

    // ---- the loop over the candidates ----

    /** `validate`, for one candidate that is neither cached nor in flight at the first look. */
    method ValidateNew(ids: seq<E.ClusterIdentity>, key: P.Key, me: nat, created: nat, w: World) returns (a: Answer, sent: nat)
      requires Valid() && Landed(me) && P.Sent(creates, me) == created <= MAX_NEW_DRAFTS
      modifies this
      ensures Valid() && Landed(me) && P.Sent(creates, me) == sent <= MAX_NEW_DRAFTS
      ensures a.Evidence? ==> Good(key.offer, a.v)
      ensures a.Waiting? ==> OtherFlies(me)
      ensures !a.Stopped?
    {
      sent := created;
      var v := Enter(key, created < MAX_NEW_DRAFTS, me);
      match v
      case Cached(option) => a := Evidence(option);
      case Joined(f) => a := Await(f, key, me, w);
      case Limited =>
        E.PlainIsGood(key.offer, RateLimited, "DRAFT_RATE_BUDGET_EXHAUSTED", None);
        a := Evidence(E.Plain(key.offer, RateLimited, "DRAFT_RATE_BUDGET_EXHAUSTED", None));
      case Resumed(f) => a := Own(ids, key, f, me, Some(flights[f].stage.draft), w);
      case Created(f) =>
        sent := created + 1;
        a := Own(ids, key, f, me, None, w);
    }

    method Own(ids: seq<E.ClusterIdentity>, key: P.Key, f: nat, me: nat, resumed: Option<P.Draft>, w: World) returns (a: Answer)
      requires Valid() && Flying(f, key, me)
      requires flights[f].stage == if resumed.Some? then P.Holding(resumed.value) else P.Asking
      requires forall g :: 0 <= g < |flights| && flights[g].owner == me && g != f ==> flights[g].stage.Done?
      modifies this
      ensures Valid() && Landed(me) && P.Sent(creates, me) == old(P.Sent(creates, me))
      ensures a.Evidence? ==> Good(key.offer, a.v)
      ensures a.Waiting? ==> OtherFlies(me)
      ensures !a.Stopped?
    {
      var r := Fly(ids, key, f, me, resumed, w);
      a := if r.Some? then Evidence(r.value) else Thrown;
    }

    method Await(f: nat, key: P.Key, me: nat, w: World) returns (a: Answer)
      requires Valid() && Landed(me) && P.Shown(Abs(), key, f)
      modifies this
      ensures Valid() && Landed(me) && P.Sent(creates, me) == old(P.Sent(creates, me))
      ensures a.Evidence? ==> Good(key.offer, a.v)
      ensures a.Waiting? ==> OtherFlies(me)
      ensures !a.Stopped?
    {
      var r := WaitForFlight(f, key, me, w);
      match r
      case Came(v) => a := Evidence(v);
      case Failed => a := Thrown;
      case StillWaiting => a := Waiting;
    }

    /** One turn of the loop of `validate`. */
    method ValidateNext(i: nat, key: P.Key, me: nat, created: nat, w: World) returns (a: Answer, sent: nat)
      requires Valid() && Landed(me) && P.Sent(creates, me) == created <= MAX_NEW_DRAFTS
      modifies this
      ensures Valid() && Landed(me) && P.Sent(creates, me) == sent <= MAX_NEW_DRAFTS
      ensures a.Evidence? ==> Good(key.offer, a.v)
      ensures a.Waiting? ==> OtherFlies(me)
      ensures a.Stopped? ==> exists t :: w.cancelled(t)
    {
      sent := created;
      Interfere(w, me);
      var option, joined := Look(key, me);
      if w.cancelled(step) && joined.None? {
        return Stopped, sent;
      }
      if option.Some? {
        return Evidence(option.value), sent;
      }
      if joined.Some? {
        a := Await(joined.value, key, me, w);
        return;
      }
      if !w.inRange(step) {
        E.PlainIsGood(key.offer, Unavailable, "TIMESLOT_DATE_RANGE_UNSUPPORTED", None);
        return Evidence(E.Plain(key.offer, Unavailable, "TIMESLOT_DATE_RANGE_UNSUPPORTED", None)), sent;
      }
      var prepared := w.prepared(i);
      if prepared.Err? {
        E.BuildIsGood(key.offer, Unavailable, [prepared.error], None, [], [], []);
        var refusal := E.Build(key.offer, Unavailable, [prepared.error], None, [], [], []);
        return if refusal.Some? then Evidence(refusal.value) else Thrown, sent;
      }
      Interfere(w, me);
      a, sent := ValidateNew(prepared.value, key, me, created, w);
    }

    /** `validate`: whatever the other threads, Ozon and the user do meanwhile, the call leaves no
        flight open, sends at most six create requests, and what it returns is honest evidence for the
        candidates in their order, for all of them unless it was cancelled. */
    method Validate(offers: seq<Offer>, provenance: string, opens: int, closes: int, me: nat, w: World) returns (r: Result<seq<Validation>, Interruption>)
      requires Valid() && Landed(me) && P.Sent(creates, me) == 0
      modifies this
      ensures Valid() && Landed(me) && P.Sent(creates, me) <= 6
      ensures r.Ok? ==> |r.value| <= |offers| && forall i :: 0 <= i < |r.value| ==> Good(offers[i], r.value[i])
      ensures r.Ok? && |r.value| < |offers| ==> exists t :: w.cancelled(t)
      ensures r.Err? && r.error.NotFinished? ==> OtherFlies(me)
    {
      var output: seq<Validation> := [];
      var created := 0;
      for i := 0 to |offers|
        invariant Valid() && Landed(me) && P.Sent(creates, me) == created <= MAX_NEW_DRAFTS
        invariant |output| == i && forall k :: 0 <= k < i ==> Good(offers[k], output[k])
      {
        var a;
        a, created := ValidateNext(i, P.Key(offers[i], provenance, opens, closes), me, created, w);
        match a {
          case Stopped => return Ok(output);
          case Thrown => return Err(Raised);
          case Waiting => return Err(NotFinished);
          case Evidence(v) => output := output + [v];
        }
      }
      return Ok(output);
    }
  }

  // ---- the evidence passes the independent check ----

  lemma EvidenceIsAcceptable(offers: seq<Offer>, vs: seq<Validation>)
    requires |vs| == |offers| && forall i :: 0 <= i < |vs| ==> Good(offers[i], vs[i])
    requires forall i, j :: 0 <= i < j < |offers| ==> offers[i].id != offers[j].id
    ensures Acceptable(offers, vs)
  {
    forall i | 0 <= i < |vs| ensures Attributed(offers, vs[i]) {
      NamedAt(offers, i);
    }
    forall o | o in offers ensures exists v <- vs :: v.id == o.id {
      var i :| 0 <= i < |offers| && offers[i] == o;
      assert vs[i] in vs;
    }
  }

  lemma NamedAt(offers: seq<Offer>, i: nat)
    requires i < |offers| && forall k, j :: 0 <= k < j < |offers| ==> offers[k].id != offers[j].id
    ensures Named(offers, offers[i].id) == Some(offers[i])
  {
    var found := Named(offers, offers[i].id);
    assert offers[i] in offers;
    var j :| 0 <= j < |offers| && offers[j] == found.value;
  }

  lemma NothingUnresolved(o: Offer, v: Validation, unresolved: seq<Assignment>)
    requires Good(o, v) && Partitions(o.rows, v.accepted, v.rejected, unresolved)
    requires v.state.Accepted? || v.state.Partial? || v.state.NoTimeslot?
    ensures unresolved == []
  {
    assert multiset(Identities(unresolved)) == multiset{};
    assert |Identities(unresolved)| == |multiset(Identities(unresolved))|;
  }

  /** `validate` and `assemble_outcomes` together: with distinct identifiers every uncancelled call that
      returns is accepted, each candidate's rows are partitioned into accepted, rejected and
      unresolved ones, and a shippable outcome leaves none unresolved. */
  method ValidateAndAssemble(service: DraftValidationService, offers: seq<Offer>, provenance: string, opens: int, closes: int, me: nat, w: World)
    returns (r: Result<seq<Outcome>, Interruption>)
    requires service.Valid() && service.Landed(me) && P.Sent(service.creates, me) == 0
    requires forall i, j :: 0 <= i < j < |offers| ==> offers[i].id != offers[j].id
    requires forall t :: !w.cancelled(t)
    modifies service
    ensures service.Valid() && service.Landed(me) && P.Sent(service.creates, me) <= 6
    ensures r.Err? && r.error.NotFinished? ==> service.OtherFlies(me)
    ensures r.Ok? ==> |r.value| == |offers| && forall i :: 0 <= i < |offers| ==>
      && r.value[i].offer == offers[i]
      && Partitions(offers[i].rows, r.value[i].validation.accepted, r.value[i].validation.rejected, r.value[i].unresolved)
      && (r.value[i].validation.state.Accepted? || r.value[i].validation.state.Partial? || r.value[i].validation.state.NoTimeslot? ==>
            |r.value[i].validation.accepted| > 0 && r.value[i].unresolved == [])
  {
    var answer := service.Validate(offers, provenance, opens, closes, me, w);
    if answer.Err? {
      return Err(answer.error);
    }
    var vs := answer.value;
    EvidenceIsAcceptable(offers, vs);
    var assembled := Assemble(offers, vs);
    forall i | 0 <= i < |offers|
      ensures assembled.value[i].offer == offers[i] && Partitions(offers[i].rows, vs[i].accepted, vs[i].rejected, assembled.value[i].unresolved)
      ensures vs[i].state.Accepted? || vs[i].state.Partial? || vs[i].state.NoTimeslot? ==> assembled.value[i].unresolved == [] {
      NamedAt(offers, i);
      assert IsOutcome(offers, vs[i], assembled.value[i]);
      if vs[i].state.Accepted? || vs[i].state.Partial? || vs[i].state.NoTimeslot? {
        NothingUnresolved(offers[i], vs[i], assembled.value[i].unresolved);
      }
    }
    return Ok(assembled.value);
  }
}
