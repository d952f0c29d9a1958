/** Matching supplied facts to raw diagnostics and grouping them (backend/decision/data_quality.py). */
module DataQuality {
  import opened Wrappers
  import opened Sequences

  datatype Code = MissingTariff | PriceRequired | AmbiguousMatch | IncompleteCoverage | OtherCode(name: string)

  datatype Fact = Fact(code: Code, sku: Option<string>, origin: Option<string>, destination: Option<string>)

  /** A fact together with the raw occurrences it stands for: none or one. */
  datatype Item = Item(fact: Fact, raw: seq<nat>)

  datatype Identity = Identity(sku: Option<string>, cluster: Option<string>)

  datatype Group = Group(code: Code, rawCount: nat)

  predicate IsRoot(c: Code) {
    c.MissingTariff? || c.PriceRequired? || c.AmbiguousMatch?
  }

  /** `_calculation_identity`; an empty origin gives way to the destination. */
  function IdentityOf(f: Fact): Identity {
    Identity(f.sku, if f.origin.Some? && |f.origin.value| > 0 then f.origin else f.destination)
  }

  // ---- what the matching means ----

  predicate Fits(raw: Fact, code: Code, id: Option<Identity>) {
    raw.code == code && (id.Some? ==> IdentityOf(raw) == id.value)
  }

  /** The raw facts of a code, or of a code and an identity, in order. */
  function Positions(raw: seq<Fact>, code: Code, id: Option<Identity>): (ps: seq<nat>)
    ensures forall p: nat :: p in ps <==> p < |raw| && Fits(raw[p], code, id)
    ensures forall i, j :: 0 <= i < j < |ps| ==> ps[i] < ps[j]
  {
    if |raw| == 0 then []
    else
      var n := |raw| - 1;
      var rest := Positions(raw[..n], code, id);
      assert forall i :: 0 <= i < |rest| ==> rest[i] in rest;
      if Fits(raw[n], code, id) then rest + [n] else rest
  }

  /** The first position that is still unused. */
  function FirstUnused(ps: seq<nat>, unused: set<nat>): (r: Option<nat>)
    ensures r.Some? ==> r.value in ps && r.value in unused
    ensures r.None? <==> forall p <- ps :: p !in unused
  {
    if |ps| == 0 then None
    else if ps[0] in unused then Some(ps[0])
    else assert ps == [ps[0]] + ps[1..]; FirstUnused(ps[1..], unused)
  }

  /** The raw fact that a supplied fact claims: the first unused one of its code and identity,
      or else the first unused one of its code. */
  function Claim(raw: seq<Fact>, unused: set<nat>, f: Fact): (r: Option<nat>)
    ensures r.Some? ==> r.value in unused && r.value < |raw| && raw[r.value].code == f.code
  {
    var exact := FirstUnused(Positions(raw, f.code, Some(IdentityOf(f))), unused);
    if exact.Some? then exact else FirstUnused(Positions(raw, f.code, None), unused)
  }

  function Less(unused: set<nat>, claim: Option<nat>): set<nat> {
    if claim.Some? then unused - {claim.value} else unused
  }

  function ItemOf(f: Fact, claim: Option<nat>): Item {
    Item(f, if claim.Some? then [claim.value] else [])
  }

  function Range(n: nat): (r: set<nat>)
    ensures forall i: nat :: i in r <==> i < n
    ensures |r| == n
  {
    if n == 0 then {} else Range(n - 1) + {n - 1}
  }

  /** The supplied facts with their claims, and what they leave unused. */
  function Matched(raw: seq<Fact>, supplied: seq<Fact>): (r: (seq<Item>, set<nat>))
  {
    if |supplied| == 0 then ([], Range(|raw|))
    else
      var (items, unused) := Matched(raw, supplied[..|supplied| - 1]);
      var f := supplied[|supplied| - 1];
      var claim := Claim(raw, unused, f);
      (items + [ItemOf(f, claim)], Less(unused, claim))
  }

  /** The raw facts that nobody claimed, in order. */
  function Leftovers(raw: seq<Fact>, unused: set<nat>): seq<Item> {
    if |raw| == 0 then []
    else
      var n := |raw| - 1;
      Leftovers(raw[..n], unused) + if n in unused then [Item(raw[n], [n])] else []
  }

  function Facts(raw: seq<Fact>, supplied: seq<Fact>): seq<Item> {
    var (items, unused) := Matched(raw, supplied);
    items + Leftovers(raw, unused)
  }

  function Claims(items: seq<Item>): (m: multiset<nat>) {
    if |items| == 0 then multiset{} else Claims(items[..|items| - 1]) + multiset(items[|items| - 1].raw)
  }

  lemma ClaimsSnoc(a: seq<Item>, x: Item)
    ensures Claims(a + [x]) == Claims(a) + multiset(x.raw)
  {
    SnocInit(a, x);
  }

  lemma {:induction false} ClaimsConcat(a: seq<Item>, b: seq<Item>)
    ensures Claims(a + b) == Claims(a) + Claims(b)
  {
    if |b| == 0 {
      assert a + b == a;
    } else {
      var init, last := b[..|b| - 1], b[|b| - 1];
      ClaimsConcat(a, init);
      ClaimsSnoc(a + init, last);
      ClaimsSnoc(init, last);
      Associative(a, init, [last]);
      InitLast(b);
    }
  }

  lemma {:induction false} MatchedClaims(raw: seq<Fact>, supplied: seq<Fact>)
    ensures var (items, unused) := Matched(raw, supplied);
      && (forall i <- unused :: i < |raw|)
      && Claims(items) + multiset(unused) == multiset(Range(|raw|))
  {
    if |supplied| > 0 {
      MatchedClaims(raw, supplied[..|supplied| - 1]);
      var (items, unused) := Matched(raw, supplied[..|supplied| - 1]);
      var f := supplied[|supplied| - 1];
      var claim := Claim(raw, unused, f);
      var now := items + [ItemOf(f, claim)];
      assert now[..|now| - 1] == items;
      if claim.Some? {
        assert multiset(unused) == multiset(Less(unused, claim)) + multiset{claim.value};
        assert multiset([claim.value]) == multiset{claim.value};
      }
    }
  }

  function Below(unused: set<nat>, n: nat): (r: set<nat>) {
    set i <- unused | i < n
  }

  lemma BelowNext(unused: set<nat>, n: nat)
    ensures multiset(Below(unused, n + 1)) == multiset(Below(unused, n)) + if n in unused then multiset([n]) else multiset{}
  {
    if n in unused {
      assert Below(unused, n + 1) == Below(unused, n) + {n};
    } else {
      assert Below(unused, n + 1) == Below(unused, n);
    }
  }

  lemma {:induction false} LeftoverClaims(raw: seq<Fact>, unused: set<nat>)
    ensures Claims(Leftovers(raw, unused)) == multiset(Below(unused, |raw|))
  {
    if |raw| > 0 {
      var n := |raw| - 1;
      LeftoverClaims(raw[..n], unused);
      BelowNext(unused, n);
      if n in unused {
        ClaimsSnoc(Leftovers(raw[..n], unused), Item(raw[n], [n]));
      } else {
        assert Leftovers(raw, unused) == Leftovers(raw[..n], unused);
      }
    }
  }

  /** Every raw diagnostic is claimed exactly once, by a supplied fact of its code or by itself. */
  lemma EveryRawClaimedOnce(raw: seq<Fact>, supplied: seq<Fact>)
    ensures Claims(Facts(raw, supplied)) == multiset(Range(|raw|))
  {
    var (items, unused) := Matched(raw, supplied);
    MatchedClaims(raw, supplied);
    LeftoverClaims(raw, unused);
    ClaimsConcat(items, Leftovers(raw, unused));
    assert Below(unused, |raw|) == unused;
  }

  // ---- the lazily cleaned queues ----

  /** A queue of positions from which used ones are dropped only when they reach the front. */
  ghost predicate Lazy(queue: seq<nat>, all: seq<nat>, unused: set<nat>) {
    |queue| <= |all| && queue == all[|all| - |queue|..] && forall i :: 0 <= i < |all| - |queue| ==> all[i] !in unused
  }

  lemma {:induction false} FirstUnusedSkips(all: seq<nat>, d: nat, unused: set<nat>)
    requires d <= |all| && forall i :: 0 <= i < d ==> all[i] !in unused
    ensures FirstUnused(all, unused) == FirstUnused(all[d..], unused)
  {
    if d > 0 {
      FirstUnusedSkips(all[1..], d - 1, unused);
      assert all[1..][d - 1..] == all[d..];
    } else {
      assert all[0..] == all;
    }
  }

  /** `take`: drop used positions from the front, then pop. It finds what a search of the full
      list would. */
  method Take(queue: seq<nat>, unused: set<nat>, ghost all: seq<nat>) returns (r: Option<nat>, rest: seq<nat>)
    requires Lazy(queue, all, unused)
    ensures r == FirstUnused(all, unused)
    ensures Lazy(rest, all, Less(unused, r))
  {
    rest := queue;
    while |rest| > 0 && rest[0] !in unused
      invariant Lazy(rest, all, unused)
      decreases |rest|
    {
      rest := rest[1..];
    }
    FirstUnusedSkips(all, |all| - |rest|, unused);
    if |rest| > 0 {
      r, rest := Some(rest[0]), rest[1..];
    } else {
      r := None;
    }
  }

  type IdentityQueues = map<(Code, Identity), seq<nat>>
  type CodeQueues = map<Code, seq<nat>>

  function AtKey<K, V>(m: map<K, seq<V>>, k: K): seq<V> {
    if k in m then m[k] else []
  }

  ghost predicate Queued(byIdentity: IdentityQueues, byCode: CodeQueues, raw: seq<Fact>) {
    && (forall c: Code, id: Identity :: AtKey(byIdentity, (c, id)) == Positions(raw, c, Some(id)))
    && (forall c: Code :: AtKey(byCode, c) == Positions(raw, c, None))
  }

  ghost predicate LazilyQueued(byIdentity: IdentityQueues, byCode: CodeQueues, raw: seq<Fact>, unused: set<nat>) {
    && (forall c: Code, id: Identity :: Lazy(AtKey(byIdentity, (c, id)), Positions(raw, c, Some(id)), unused))
    && (forall c: Code :: Lazy(AtKey(byCode, c), Positions(raw, c, None), unused))
  }

  method FillQueues(raw: seq<Fact>) returns (byIdentity: IdentityQueues, byCode: CodeQueues)
    ensures Queued(byIdentity, byCode, raw)
  {
    byIdentity, byCode := map[], map[];
    for i := 0 to |raw|
      invariant Queued(byIdentity, byCode, raw[..i])
    {
      TakeTake(raw, i);
      var key := (raw[i].code, IdentityOf(raw[i]));
      byIdentity := byIdentity[key := AtKey(byIdentity, key) + [i]];
      byCode := byCode[raw[i].code := AtKey(byCode, raw[i].code) + [i]];
    }
    TakeAll(raw);
  }

  lemma StillQueued(byIdentity: IdentityQueues, byCode: CodeQueues, raw: seq<Fact>, unused: set<nat>, fewer: set<nat>,
                    byIdentity': IdentityQueues, byCode': CodeQueues, f: Fact)
    requires LazilyQueued(byIdentity, byCode, raw, unused) && fewer <= unused
    requires forall k :: k != (f.code, IdentityOf(f)) ==> AtKey(byIdentity', k) == AtKey(byIdentity, k)
    requires forall c :: c != f.code ==> AtKey(byCode', c) == AtKey(byCode, c)
    requires Lazy(AtKey(byIdentity', (f.code, IdentityOf(f))), Positions(raw, f.code, Some(IdentityOf(f))), fewer)
    requires Lazy(AtKey(byCode', f.code), Positions(raw, f.code, None), fewer)
    ensures LazilyQueued(byIdentity', byCode', raw, fewer)
  {
    forall c: Code, id: Identity ensures Lazy(AtKey(byIdentity', (c, id)), Positions(raw, c, Some(id)), fewer) {
      if (c, id) != (f.code, IdentityOf(f)) {
        assert AtKey(byIdentity', (c, id)) == AtKey(byIdentity, (c, id));
        assert Lazy(AtKey(byIdentity, (c, id)), Positions(raw, c, Some(id)), unused);
      }
    }
    forall c: Code ensures Lazy(AtKey(byCode', c), Positions(raw, c, None), fewer) {
      if c != f.code {
        assert AtKey(byCode', c) == AtKey(byCode, c);
        assert Lazy(AtKey(byCode, c), Positions(raw, c, None), unused);
      }
    }
  }

  /** One turn of the claiming loop. */
  method ClaimOne(raw: seq<Fact>, unused: set<nat>, f: Fact, byIdentity: IdentityQueues, byCode: CodeQueues)
    returns (claim: Option<nat>, byIdentity': IdentityQueues, byCode': CodeQueues)
    requires LazilyQueued(byIdentity, byCode, raw, unused)
    ensures claim == Claim(raw, unused, f)
    ensures LazilyQueued(byIdentity', byCode', raw, Less(unused, claim))
  {
    var key := (f.code, IdentityOf(f));
    var rest: seq<nat>;
    byCode' := byCode;
    claim, rest := Take(AtKey(byIdentity, key), unused, Positions(raw, f.code, Some(IdentityOf(f))));
    byIdentity' := byIdentity[key := rest];
    if claim.None? {
      claim, rest := Take(AtKey(byCode, f.code), unused, Positions(raw, f.code, None));
      byCode' := byCode[f.code := rest];
    }
    StillQueued(byIdentity, byCode, raw, unused, Less(unused, claim), byIdentity', byCode', f);
  }

  lemma MatchedNext(raw: seq<Fact>, supplied: seq<Fact>, i: nat, items: seq<Item>, unused: set<nat>)
    requires i < |supplied| && (items, unused) == Matched(raw, supplied[..i])
    ensures var claim := Claim(raw, unused, supplied[i]);
      (items + [ItemOf(supplied[i], claim)], Less(unused, claim)) == Matched(raw, supplied[..i + 1])
  {
    TakeTake(supplied, i);
  }

  /** The claiming loop. Two families of lazily cleaned queues find for every supplied fact the
      raw fact that a search of all unused raw facts would find. */
  method MatchFacts(raw: seq<Fact>, supplied: seq<Fact>) returns (facts: seq<Item>)
    ensures facts == Facts(raw, supplied)
  {
    var byIdentity, byCode := FillQueues(raw);
    var unused := Range(|raw|);
    facts := [];
    for i := 0 to |supplied|
      invariant (facts, unused) == Matched(raw, supplied[..i])
      invariant LazilyQueued(byIdentity, byCode, raw, unused)
    {
      MatchedNext(raw, supplied, i, facts, unused);
      var claim: Option<nat>;
      claim, byIdentity, byCode := ClaimOne(raw, unused, supplied[i], byIdentity, byCode);
      facts := facts + [ItemOf(supplied[i], claim)];
      unused := Less(unused, claim);
    }
    TakeAll(supplied);
    facts := facts + Leftovers(raw, unused);
  }

  // ---- grouping ----

  function Total(items: seq<Item>): nat {
    if |items| == 0 then 0 else Total(items[..|items| - 1]) + |items[|items| - 1].raw|
  }

  lemma {:induction false} TotalIsClaims(items: seq<Item>)
    ensures Total(items) == |Claims(items)|
  {
    if |items| > 0 {
      TotalIsClaims(items[..|items| - 1]);
    }
  }

  lemma TotalSnoc(items: seq<Item>, item: Item)
    ensures Total(items + [item]) == Total(items) + |item.raw|
  {
    SnocInit(items, item);
  }

  /** The code of the last root fact of every identity. */
  function Roots(items: seq<Item>): (m: map<Identity, Code>)
    ensures forall id <- m.Keys :: exists item <- items :: IsRoot(m[id]) && item.fact.code == m[id] && IdentityOf(item.fact) == id
    ensures forall item <- items :: IsRoot(item.fact.code) ==> IdentityOf(item.fact) in m
  {
    if |items| == 0 then map[]
    else
      var init, last := items[..|items| - 1], items[|items| - 1];
      InitLast(items);
      var m := Roots(init);
      assert forall id <- m.Keys :: exists item <- items :: IsRoot(m[id]) && item.fact.code == m[id] && IdentityOf(item.fact) == id;
      if IsRoot(last.fact.code) then m[IdentityOf(last.fact) := last.fact.code] else m
  }

  predicate Attaches(roots: map<Identity, Code>, item: Item) {
    item.fact.code.IncompleteCoverage? && IdentityOf(item.fact) in roots
  }

  /** Where an item is counted: an attached consequence with its root, anything else by its code. */
  function Home(roots: map<Identity, Code>, item: Item): Code {
    if Attaches(roots, item) then roots[IdentityOf(item.fact)] else item.fact.code
  }

  function Visible(items: seq<Item>, roots: map<Identity, Code>): (r: seq<Item>)
    ensures forall x :: x in r <==> x in items && !Attaches(roots, x)
  {
    if |items| == 0 then []
    else
      var rest := Visible(items[..|items| - 1], roots);
      InitLast(items);
      if Attaches(roots, items[|items| - 1]) then rest else rest + [items[|items| - 1]]
  }

  function AttachedTo(items: seq<Item>, roots: map<Identity, Code>, c: Code): seq<Item> {
    if |items| == 0 then []
    else
      var rest := AttachedTo(items[..|items| - 1], roots, c);
      var last := items[|items| - 1];
      if Attaches(roots, last) && Home(roots, last) == c then rest + [last] else rest
  }

  function OfCode(items: seq<Item>, c: Code): seq<Item> {
    if |items| == 0 then []
    else
      var rest := OfCode(items[..|items| - 1], c);
      if items[|items| - 1].fact.code == c then rest + [items[|items| - 1]] else rest
  }

  function CodesOf(items: seq<Item>): (cs: seq<Code>)
    ensures forall c :: c in cs <==> exists item <- items :: item.fact.code == c
    ensures forall i, j :: 0 <= i < j < |cs| ==> cs[i] != cs[j]
  {
    if |items| == 0 then []
    else
      var rest := CodesOf(items[..|items| - 1]);
      InitLast(items);
      var c := items[|items| - 1].fact.code;
      if c in rest then rest else rest + [c]
  }

  /** Raw occurrences of the items whose home is a code. */
  function HomeTotal(items: seq<Item>, roots: map<Identity, Code>, c: Code): nat {
    if |items| == 0 then 0
    else
      var last := items[|items| - 1];
      HomeTotal(items[..|items| - 1], roots, c) + if Home(roots, last) == c then |last.raw| else 0
  }

  function HomeSum(items: seq<Item>, roots: map<Identity, Code>, cs: seq<Code>): nat {
    if |cs| == 0 then 0 else HomeSum(items, roots, cs[..|cs| - 1]) + HomeTotal(items, roots, cs[|cs| - 1])
  }

  lemma OfCodeSnoc(items: seq<Item>, x: Item, c: Code)
    ensures OfCode(items + [x], c) == if x.fact.code == c then OfCode(items, c) + [x] else OfCode(items, c)
  {
    SnocInit(items, x);
  }

  lemma HomeStep(init: seq<Item>, last: Item, roots: map<Identity, Code>, c: Code)
    ensures HomeTotal(init + [last], roots, c) == HomeTotal(init, roots, c) + if Home(roots, last) == c then |last.raw| else 0
    ensures AttachedTo(init + [last], roots, c) ==
      AttachedTo(init, roots, c) + if Attaches(roots, last) && Home(roots, last) == c then [last] else []
    ensures Visible(init + [last], roots) == Visible(init, roots) + if Attaches(roots, last) then [] else [last]
  {
    SnocInit(init, last);
  }

  lemma {:induction false} HomeTotalSplit(items: seq<Item>, roots: map<Identity, Code>, c: Code)
    ensures Total(OfCode(Visible(items, roots), c)) + Total(AttachedTo(items, roots, c)) == HomeTotal(items, roots, c)
  {
    if |items| > 0 {
      var init, last := items[..|items| - 1], items[|items| - 1];
      InitLast(items);
      HomeTotalSplit(init, roots, c);
      HomeStep(init, last, roots, c);
      OfCodeSnoc(Visible(init, roots), last, c);
      TotalSnoc(AttachedTo(init, roots, c), last);
      TotalSnoc(OfCode(Visible(init, roots), c), last);
    }
  }

  lemma {:induction false} HomeSumSnoc(items: seq<Item>, roots: map<Identity, Code>, cs: seq<Code>)
    requires |items| > 0
    requires forall i, j :: 0 <= i < j < |cs| ==> cs[i] != cs[j]
    ensures var last := items[|items| - 1];
      HomeSum(items, roots, cs) == HomeSum(items[..|items| - 1], roots, cs) + if Home(roots, last) in cs then |last.raw| else 0
  {
    if |cs| > 0 {
      HomeSumSnoc(items, roots, cs[..|cs| - 1]);
      InitLast(cs);
    }
  }

  lemma {:induction false} HomeSumNone(roots: map<Identity, Code>, cs: seq<Code>)
    ensures HomeSum([], roots, cs) == 0
  {
    if |cs| > 0 {
      HomeSumNone(roots, cs[..|cs| - 1]);
    }
  }

  /** Distinct codes that house every item count every occurrence once. */
  lemma {:induction false} HomesCountAll(items: seq<Item>, roots: map<Identity, Code>, cs: seq<Code>)
    requires forall i, j :: 0 <= i < j < |cs| ==> cs[i] != cs[j]
    requires forall item <- items :: Home(roots, item) in cs
    ensures HomeSum(items, roots, cs) == Total(items)
  {
    if |items| == 0 {
      HomeSumNone(roots, cs);
    } else {
      HomesCountAll(items[..|items| - 1], roots, cs);
      HomeSumSnoc(items, roots, cs);
    }
  }

  /** Every attached consequence lands in a group that exists: its root is visible. */
  lemma HomesExist(items: seq<Item>)
    ensures forall item <- items :: Home(Roots(items), item) in CodesOf(Visible(items, Roots(items)))
  {
    var roots := Roots(items);
    forall item | item in items ensures Home(roots, item) in CodesOf(Visible(items, roots)) {
      if Attaches(roots, item) {
        var id := IdentityOf(item.fact);
        var root :| root in items && IsRoot(roots[id]) && root.fact.code == roots[id] && IdentityOf(root.fact) == id;
        assert root in Visible(items, roots);
      } else {
        assert item in Visible(items, roots);
      }
    }
  }

  /** The last root of every identity (the `roots` comprehension). */
  method CollectRoots(items: seq<Item>) returns (roots: map<Identity, Code>)
    ensures roots == Roots(items)
  {
    roots := map[];
    for i := 0 to |items|
      invariant roots == Roots(items[..i])
    {
      TakeTake(items, i);
      if IsRoot(items[i].fact.code) {
        roots := roots[IdentityOf(items[i].fact) := items[i].fact.code];
      }
    }
    TakeAll(items);
  }

  method Separate(items: seq<Item>, roots: map<Identity, Code>) returns (attached: map<Code, seq<Item>>, visible: seq<Item>)
    ensures visible == Visible(items, roots)
    ensures forall c: Code :: AtKey(attached, c) == AttachedTo(items, roots, c)
  {
    attached, visible := map[], [];
    for i := 0 to |items|
      invariant visible == Visible(items[..i], roots)
      invariant forall c: Code :: AtKey(attached, c) == AttachedTo(items[..i], roots, c)
    {
      TakeTake(items, i);
      var item := items[i];
      if item.fact.code.IncompleteCoverage? && IdentityOf(item.fact) in roots {
        var root := roots[IdentityOf(item.fact)];
        attached := attached[root := AtKey(attached, root) + [item]];
      } else {
        visible := visible + [item];
      }
    }
    TakeAll(items);
  }

  method GroupByCode(items: seq<Item>) returns (grouped: map<Code, seq<Item>>, order: seq<Code>)
    ensures order == CodesOf(items)
    ensures forall c: Code :: AtKey(grouped, c) == OfCode(items, c)
  {
    grouped, order := map[], [];
    for i := 0 to |items|
      invariant order == CodesOf(items[..i])
      invariant forall c: Code :: AtKey(grouped, c) == OfCode(items[..i], c)
    {
      TakeTake(items, i);
      var c := items[i].fact.code;
      order := if c in order then order else order + [c];
      grouped := grouped[c := AtKey(grouped, c) + [items[i]]];
    }
    TakeAll(items);
  }

  function RawSum(groups: seq<Group>): nat {
    if |groups| == 0 then 0 else RawSum(groups[..|groups| - 1]) + groups[|groups| - 1].rawCount
  }

  ghost predicate CountsHomes(groups: seq<Group>, items: seq<Item>, roots: map<Identity, Code>, order: seq<Code>) {
    |groups| == |order| &&
    forall k :: 0 <= k < |order| ==>
      groups[k].code == order[k] && groups[k].rawCount == HomeTotal(items, roots, order[k])
  }

  lemma {:induction false} RawSumIsHomeSum(groups: seq<Group>, items: seq<Item>, roots: map<Identity, Code>, order: seq<Code>)
    requires CountsHomes(groups, items, roots, order)
    ensures RawSum(groups) == HomeSum(items, roots, order)
  {
    if |groups| > 0 {
      RawSumIsHomeSum(groups[..|groups| - 1], items, roots, order[..|order| - 1]);
    }
  }

  method CountGroups(order: seq<Code>, grouped: map<Code, seq<Item>>, attached: map<Code, seq<Item>>) returns (groups: seq<Group>)
    ensures |groups| == |order|
    ensures forall k :: 0 <= k < |order| ==>
      groups[k] == Group(order[k], Total(AtKey(grouped, order[k])) + Total(AtKey(attached, order[k])))
  {
    groups := [];
    for i := 0 to |order|
      invariant |groups| == i
      invariant forall k :: 0 <= k < i ==>
        groups[k] == Group(order[k], Total(AtKey(grouped, order[k])) + Total(AtKey(attached, order[k])))
    {
      groups := groups + [Group(order[i], Total(AtKey(grouped, order[i])) + Total(AtKey(attached, order[i])))];
    }
  }

  /** `build_data_quality_presentation`, before the groups are put in display order: one group per
      visible code, and the raw counts of the groups add up to the number of diagnostics. */
  method BuildPresentation(raw: seq<Fact>, supplied: seq<Fact>) returns (groups: seq<Group>)
    ensures RawSum(groups) == |raw|
    ensures var facts := Facts(raw, supplied); var roots := Roots(facts);
      && CountsHomes(groups, facts, roots, CodesOf(Visible(facts, roots)))
      && (forall x <- facts :: Home(roots, x) in CodesOf(Visible(facts, roots)))
  {
    var facts := MatchFacts(raw, supplied);
    var roots := CollectRoots(facts);
    var attached, visible := Separate(facts, roots);
    var grouped, order := GroupByCode(visible);
    groups := CountGroups(order, grouped, attached);
    forall k | 0 <= k < |order| ensures groups[k].rawCount == HomeTotal(facts, roots, order[k]) {
      HomeTotalSplit(facts, roots, order[k]);
    }
    HomesExist(facts);
    HomesCountAll(facts, roots, CodesOf(Visible(facts, roots)));
    RawSumIsHomeSum(groups, facts, roots, CodesOf(Visible(facts, roots)));
    TotalIsClaims(facts);
    EveryRawClaimedOnce(raw, supplied);
  }
}
