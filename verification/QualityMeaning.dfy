/** What the claims and groups of the data quality presentation mean
    (backend/decision/data_quality.py:54-96). */
module QualityMeaning {
  import opened Wrappers
  import opened Sequences
  import opened DataQuality

  /** The cluster that identifies a calculation: the origin, or the destination where there is none. */
  function ClusterOf(f: Fact): Option<string> {
    match f.origin
    case None => f.destination
    case Some(origin) => if origin == "" then f.destination else f.origin
  }

  /** Two facts are about the same calculation. */
  predicate Alike(a: Fact, b: Fact) {
    a.sku == b.sku && ClusterOf(a) == ClusterOf(b)
  }

  lemma AlikeIsIdentity(a: Fact, b: Fact)
    ensures Alike(a, b) <==> IdentityOf(a) == IdentityOf(b)
  {
  }

  // ---- claims ----


  /** A free raw fact of the code. */
  predicate OfSameCode(raw: seq<Fact>, f: Fact, p: nat) {
    p < |raw| && raw[p].code == f.code
  }

  /** One of the code that is about the same calculation. */
  predicate OfSameCall(raw: seq<Fact>, f: Fact, p: nat) {
    p < |raw| && raw[p].code == f.code && Alike(raw[p], f)
  }

  /** The claim is the first free raw fact of the same code and calculation; where there is none,
      the first free one of the same code; and nothing where there is none either. */
  ghost predicate Claimed(raw: seq<Fact>, free: set<nat>, f: Fact, claim: seq<nat>) {
    if exists p <- free :: OfSameCall(raw, f, p) then
      |claim| == 1 && claim[0] in free && OfSameCall(raw, f, claim[0]) && forall q <- free :: OfSameCall(raw, f, q) ==> claim[0] <= q
    else if exists p <- free :: OfSameCode(raw, f, p) then
      |claim| == 1 && claim[0] in free && OfSameCode(raw, f, claim[0]) && forall q <- free :: OfSameCode(raw, f, q) ==> claim[0] <= q
    else claim == []
  }

  /** Some item stands for the position. */
  ghost predicate Stands(items: seq<Item>, p: nat) {
    exists x <- items :: p in x.raw
  }

  /** The positions that none of the items stands for. */
  ghost function Free(raw: seq<Fact>, items: seq<Item>): set<nat> {
    set p: nat | p < |raw| && !Stands(items, p)
  }

  /** The item is the supplied fact with what it claims of the positions that are free at its turn. */
  ghost predicate ClaimsInTurn(raw: seq<Fact>, supplied: seq<Fact>, items: seq<Item>, i: nat)
    requires i < |supplied| && i < |items|
  {
    items[i].fact == supplied[i] && Claimed(raw, Free(raw, items[..i]), supplied[i], items[i].raw)
  }

  lemma {:induction false} FirstUnusedIsLeast(ps: seq<nat>, unused: set<nat>)
    requires forall i, j :: 0 <= i < j < |ps| ==> ps[i] < ps[j]
    ensures FirstUnused(ps, unused).Some? ==> forall p <- ps :: p in unused ==> FirstUnused(ps, unused).value <= p
  {
    if |ps| > 0 {
      HeadTail(ps);
      assert forall p <- ps[1..] :: ps[0] < p;
      FirstUnusedIsLeast(ps[1..], unused);
    }
  }

  lemma ClaimMeans(raw: seq<Fact>, unused: set<nat>, f: Fact)
    requires forall p <- unused :: p < |raw|
    ensures Claimed(raw, unused, f, ItemOf(f, Claim(raw, unused, f)).raw)
  {
    var exact, any := Positions(raw, f.code, Some(IdentityOf(f))), Positions(raw, f.code, None);
    FirstUnusedIsLeast(exact, unused);
    FirstUnusedIsLeast(any, unused);
    forall p | p in unused ensures p in exact <==> OfSameCall(raw, f, p) {
      AlikeIsIdentity(raw[p], f);
    }
    assert forall p <- unused :: p in any <==> OfSameCode(raw, f, p);
  }

  lemma FreeSnoc(raw: seq<Fact>, items: seq<Item>, f: Fact, claim: Option<nat>)
    ensures Free(raw, items + [ItemOf(f, claim)]) == Less(Free(raw, items), claim)
  {
    var item := ItemOf(f, claim);
    forall p: nat ensures Stands(items + [item], p) <==> Stands(items, p) || p in item.raw {
      assert item in items + [item];
    }
  }

  /** Taking more items changes nothing for those before. */
  lemma TurnStays(raw: seq<Fact>, supplied: seq<Fact>, more: seq<Fact>, items: seq<Item>, rest: seq<Item>, i: nat)
    requires i < |supplied| <= |more| && i < |items| && more[i] == supplied[i] && ClaimsInTurn(raw, supplied, items, i)
    ensures ClaimsInTurn(raw, more, items + rest, i)
  {
    assert (items + rest)[..i] == items[..i];
  }

  ghost predicate AllInTurn(raw: seq<Fact>, supplied: seq<Fact>, items: seq<Item>) {
    |items| == |supplied| && forall i: nat :: i < |items| ==> ClaimsInTurn(raw, supplied, items, i)
  }

  lemma OneMoreTurn(raw: seq<Fact>, supplied: seq<Fact>, items: seq<Item>, f: Fact)
    requires AllInTurn(raw, supplied, items)
    ensures var claim := Claim(raw, Free(raw, items), f);
      && AllInTurn(raw, supplied + [f], items + [ItemOf(f, claim)])
      && Free(raw, items + [ItemOf(f, claim)]) == Less(Free(raw, items), claim)
  {
    var claim := Claim(raw, Free(raw, items), f);
    var item := ItemOf(f, claim);
    ClaimMeans(raw, Free(raw, items), f);
    FreeSnoc(raw, items, f, claim);
    SnocInit(items, item);
    forall i: nat | i < |items + [item]| ensures ClaimsInTurn(raw, supplied + [f], items + [item], i) {
      if i < |items| {
        TurnStays(raw, supplied, supplied + [f], items, [item], i);
      }
    }
  }

  lemma NothingStandsYet(raw: seq<Fact>)
    ensures Free(raw, []) == Range(|raw|)
  {
  }

  /** Every supplied fact becomes an item that claims what is free at its turn. */
  lemma {:induction false} MatchedMeans(raw: seq<Fact>, supplied: seq<Fact>)
    ensures AllInTurn(raw, supplied, Matched(raw, supplied).0)
    ensures Matched(raw, supplied).1 == Free(raw, Matched(raw, supplied).0)
  {
    if |supplied| == 0 {
      NothingStandsYet(raw);
    } else {
      var init, f := supplied[..|supplied| - 1], supplied[|supplied| - 1];
      MatchedMeans(raw, init);
      OneMoreTurn(raw, init, Matched(raw, init).0, f);
      InitLast(supplied);
    }
  }

  lemma {:induction false} LeftoversMean(raw: seq<Fact>, unused: set<nat>)
    ensures forall x <- Leftovers(raw, unused) :: |x.raw| == 1 && x.raw[0] in unused && x.raw[0] < |raw| && x.fact == raw[x.raw[0]]
    ensures forall p <- unused :: p < |raw| ==> Item(raw[p], [p]) in Leftovers(raw, unused)
    ensures forall i, j :: 0 <= i < j < |Leftovers(raw, unused)| ==> Leftovers(raw, unused)[i].raw[0] < Leftovers(raw, unused)[j].raw[0]
  {
    if |raw| > 0 {
      var init := raw[..|raw| - 1];
      LeftoversMean(init, unused);
      var before := Leftovers(init, unused);
      forall i | 0 <= i < |before| ensures |before[i].raw| == 1 && before[i].raw[0] < |raw| - 1 {
        assert before[i] in before;
      }
    }
  }

  /** A raw fact that stands for itself. */
  ghost predicate StandsAlone(raw: seq<Fact>, x: Item, free: set<nat>) {
    |x.raw| == 1 && x.raw[0] in free && x.raw[0] < |raw| && x.fact == raw[x.raw[0]]
  }

  /** The items: every supplied fact in order with its claim, then the raw facts that are still free,
      each standing for itself, in order. */
  lemma FactsMean(raw: seq<Fact>, supplied: seq<Fact>) returns (rest: seq<Item>)
    ensures var items, n := Facts(raw, supplied), |supplied|;
      && |items| == n + |rest| && items[n..] == rest
      && (forall i: nat :: i < n ==> ClaimsInTurn(raw, supplied, items, i))
      && (forall x <- rest :: StandsAlone(raw, x, Free(raw, items[..n])))
      && (forall p <- Free(raw, items[..n]) :: Item(raw[p], [p]) in rest)
    ensures forall i, j :: 0 <= i < j < |rest| ==> |rest[i].raw| == 1 && |rest[j].raw| == 1 && rest[i].raw[0] < rest[j].raw[0]
  {
    var (matched, unused) := Matched(raw, supplied);
    MatchedMeans(raw, supplied);
    LeftoversMean(raw, unused);
    rest := Leftovers(raw, unused);
    var items := matched + rest;
    assert items[..|supplied|] == matched && items[|supplied|..] == rest;
    forall i: nat | i < |supplied| ensures ClaimsInTurn(raw, supplied, items, i) {
      TurnStays(raw, supplied, supplied, matched, rest, i);
    }
    forall i | 0 <= i < |rest| ensures |rest[i].raw| == 1 {
      assert rest[i] in rest;
    }
  }

  // ---- homes ----

  /** The item names why a calculation has no tariff. */
  predicate Causes(x: Item, f: Fact) {
    (x.fact.code == MissingTariff || x.fact.code == PriceRequired || x.fact.code == AmbiguousMatch) && Alike(x.fact, f)
  }

  /** The last item that does so. */
  ghost predicate LastCause(items: seq<Item>, i: nat, f: Fact) {
    i < |items| && Causes(items[i], f) && forall j :: i < j < |items| ==> !Causes(items[j], f)
  }

  /** An incomplete calculation is counted with its last cause, where there is one; anything else
      under its own code. */
  ghost predicate CountedUnder(items: seq<Item>, x: Item, c: Code) {
    if x.fact.code == IncompleteCoverage && exists y <- items :: Causes(y, x.fact)
    then exists i: nat :: LastCause(items, i, x.fact) && items[i].fact.code == c
    else c == x.fact.code
  }

  lemma LastCauseSnoc(items: seq<Item>, last: Item, i: nat, f: Fact)
    requires LastCause(items, i, f) && !Causes(last, f)
    ensures LastCause(items + [last], i, f)
  {
  }

  lemma {:induction false} RootsAreCauses(items: seq<Item>, f: Fact)
    ensures IdentityOf(f) in Roots(items) <==> exists y <- items :: Causes(y, f)
  {
    if |items| > 0 {
      var init, last := items[..|items| - 1], items[|items| - 1];
      InitLast(items);
      RootsAreCauses(init, f);
      AlikeIsIdentity(last.fact, f);
    }
  }

  lemma RootsStep(items: seq<Item>, f: Fact)
    requires |items| > 0 && IdentityOf(f) in Roots(items)
    ensures var last := items[|items| - 1];
      if Causes(last, f) then Roots(items)[IdentityOf(f)] == last.fact.code
      else IdentityOf(f) in Roots(items[..|items| - 1]) && Roots(items)[IdentityOf(f)] == Roots(items[..|items| - 1])[IdentityOf(f)]
  {
    AlikeIsIdentity(items[|items| - 1].fact, f);
  }

  lemma {:induction false} RootIsLastCause(items: seq<Item>, f: Fact) returns (i: nat)
    requires IdentityOf(f) in Roots(items)
    ensures LastCause(items, i, f) && items[i].fact.code == Roots(items)[IdentityOf(f)]
  {
    RootsStep(items, f);
    i := |items| - 1;
    if !Causes(items[i], f) {
      var init, last := items[..i], items[i];
      InitLast(items);
      i := RootIsLastCause(init, f);
      LastCauseSnoc(init, last, i, f);
    }
  }

  /** Every item is counted where it belongs. */
  lemma HomeMeans(items: seq<Item>, x: Item)
    ensures CountedUnder(items, x, Home(Roots(items), x))
  {
    RootsAreCauses(items, x.fact);
    if Attaches(Roots(items), x) {
      var i := RootIsLastCause(items, x.fact);
    }
  }
}
