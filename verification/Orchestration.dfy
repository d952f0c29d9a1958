/** Validation evidence and its independent check (backend/ozon/draft_contracts.py,
    backend/shipment/orchestration.py). */
module Orchestration {
  import opened Wrappers
  import opened Sequences
  import opened StableSort
  import opened Candidates

  datatype ValidationState = Accepted | Partial | Rejected | NoTimeslot | RateLimited | Unavailable | OutcomeUnknown

  /** A candidate as it is offered to Ozon, under its identifier. */
  datatype Offer = Offer(id: string, kind: Method, seller: Option<nat>, point: Option<nat>,
                         clusters: seq<string>, rows: seq<Assignment>)

  datatype Rejection = Rejection(sku: string, cluster: string, quantity: nat, code: string)

  datatype Slot = Slot(opens: int, closes: int)

  datatype Validation = Validation(
    id: string, draft: Option<nat>, state: ValidationState, kind: Method, seller: Option<nat>, point: Option<nat>,
    accepted: seq<Assignment>, rejected: seq<Rejection>, timeslots: seq<Slot>, reasons: seq<string>)

  datatype Outcome = Outcome(offer: Offer, validation: Validation, unresolved: seq<Assignment>)

  datatype Mismatch = IdentityMismatch

  // ---- rows and their identities ----

  datatype Identity = Identity(sku: string, cluster: string, quantity: nat)

  function RowIdentity(row: Assignment): Identity {
    Identity(row.sku, row.cluster, row.quantity)
  }

  function ClaimIdentity(r: Rejection): Identity {
    Identity(r.sku, r.cluster, r.quantity)
  }

  function Identities(rows: seq<Assignment>): (ids: seq<Identity>)
    ensures |ids| == |rows| && forall i :: 0 <= i < |rows| ==> ids[i] == RowIdentity(rows[i])
  {
    seq(|rows|, i requires 0 <= i < |rows| => RowIdentity(rows[i]))
  }

  function Claims(rs: seq<Rejection>): (ids: seq<Identity>)
    ensures |ids| == |rs| && forall i :: 0 <= i < |rs| ==> ids[i] == ClaimIdentity(rs[i])
  {
    seq(|rs|, i requires 0 <= i < |rs| => ClaimIdentity(rs[i]))
  }

  lemma RemoveIdentity(rows: seq<Assignment>, i: nat)
    requires i < |rows|
    ensures multiset(Identities(rows)) == multiset(Identities(rows[..i] + rows[i + 1..])) + multiset{RowIdentity(rows[i])}
  {
    RemoveAt(Identities(rows), i);
    assert Identities(rows)[..i] + Identities(rows)[i + 1..] == Identities(rows[..i] + rows[i + 1..]);
  }

  /** Accepted and rejected rows are, copy by copy, different rows of the candidate. */
  predicate Explains(rows: seq<Assignment>, accepted: seq<Assignment>, rejected: seq<Rejection>) {
    && multiset(accepted) <= multiset(rows)
    && multiset(Identities(accepted)) + multiset(Claims(rejected)) <= multiset(Identities(rows))
  }

  /** Every row of the candidate is accepted, rejected or unresolved, copy by copy. */
  ghost predicate Partitions(rows: seq<Assignment>, accepted: seq<Assignment>, rejected: seq<Rejection>, unresolved: seq<Assignment>) {
    && multiset(accepted) + multiset(unresolved) <= multiset(rows)
    && multiset(Identities(accepted)) + multiset(Claims(rejected)) + multiset(Identities(unresolved)) == multiset(Identities(rows))
  }

  // ---- removing rows one by one ----

  /** What is left of the rows after the identities `gone` were taken out. */
  ghost predicate Leaves(rows: seq<Assignment>, gone: seq<Identity>, left: seq<Assignment>) {
    && multiset(left) <= multiset(rows)
    && multiset(Identities(left)) + multiset(gone) == multiset(Identities(rows))
  }

  lemma LeavesStep(rows: seq<Assignment>, gone: seq<Identity>, left: seq<Assignment>, i: nat)
    requires Leaves(rows, gone, left) && i < |left|
    ensures Leaves(rows, gone + [RowIdentity(left[i])], left[..i] + left[i + 1..])
  {
    RemoveAt(left, i);
    RemoveIdentity(left, i);
  }

  lemma LeavesStuck(rows: seq<Assignment>, gone: seq<Identity>, left: seq<Assignment>, next: Identity, later: seq<Identity>)
    requires Leaves(rows, gone, left) && next !in Identities(left)
    ensures !(multiset(gone + [next] + later) <= multiset(Identities(rows)))
  {
    var all := gone + [next] + later;
    assert multiset(all) == multiset(gone) + multiset{next} + multiset(later);
    assert multiset(Identities(left))[next] == 0;
    assert multiset(all)[next] > multiset(Identities(rows))[next];
  }

  lemma ClaimsSnoc(rs: seq<Rejection>, k: nat)
    requires k < |rs|
    ensures Claims(rs[..k + 1]) == Claims(rs[..k]) + [ClaimIdentity(rs[k])]
    ensures Claims(rs) == Claims(rs[..k]) + [ClaimIdentity(rs[k])] + Claims(rs[k + 1..])
  {
  }

  lemma IdentitiesSnoc(rows: seq<Assignment>, k: nat)
    requires k < |rows|
    ensures Identities(rows[..k + 1]) == Identities(rows[..k]) + [RowIdentity(rows[k])]
  {
  }

  lemma TakeSnoc(rows: seq<Assignment>, accepted: seq<Assignment>, k: nat, left: seq<Assignment>, i: nat)
    requires k < |accepted| && i < |left| && left[i] == accepted[k]
    requires multiset(left) + multiset(accepted[..k]) == multiset(rows)
    ensures multiset(left[..i] + left[i + 1..]) + multiset(accepted[..k + 1]) == multiset(rows)
  {
    RemoveAt(left, i);
    TakeNext(accepted, k);
  }

  lemma TakeStuck(rows: seq<Assignment>, accepted: seq<Assignment>, k: nat, left: seq<Assignment>)
    requires k < |accepted| && accepted[k] !in left
    requires multiset(left) + multiset(accepted[..k]) == multiset(rows)
    ensures !(multiset(accepted) <= multiset(rows))
  {
    var row := accepted[k];
    assert accepted == accepted[..k] + [row] + accepted[k + 1..];
    assert multiset(accepted) == multiset(accepted[..k]) + multiset{row} + multiset(accepted[k + 1..]);
    assert multiset(left)[row] == 0;
    assert multiset(accepted)[row] > multiset(rows)[row];
  }

  /** `next(item for item in remaining if ...)` and `remaining.remove(item)`. */
  method FirstIdentity(left: seq<Assignment>, id: Identity) returns (i: nat)
    ensures i <= |left| && (i < |left| ==> RowIdentity(left[i]) == id)
    ensures i == |left| <==> id !in Identities(left)
    ensures forall j :: 0 <= j < i ==> RowIdentity(left[j]) != id
  {
    i := 0;
    while i < |left| && RowIdentity(left[i]) != id
      invariant i <= |left| && forall j :: 0 <= j < i ==> RowIdentity(left[j]) != id
    {
      i := i + 1;
    }
    if i < |left| {
      assert Identities(left)[i] == id;
    }
  }

  method FirstRow(left: seq<Assignment>, row: Assignment) returns (i: nat)
    ensures i <= |left| && (i < |left| ==> left[i] == row)
    ensures i == |left| <==> row !in left
  {
    i := 0;
    while i < |left| && left[i] != row
      invariant i <= |left| && row !in left[..i]
    {
      i := i + 1;
    }
  }

  /** The accepted rows are removed from the candidate's rows. */
  method TakeAccepted(rows: seq<Assignment>, accepted: seq<Assignment>) returns (remaining: Option<seq<Assignment>>)
    ensures remaining.Some? <==> multiset(accepted) <= multiset(rows)
    ensures remaining.Some? ==> Leaves(rows, Identities(accepted), remaining.value)
    ensures remaining.Some? ==> multiset(remaining.value) + multiset(accepted) == multiset(rows)
  {
    var left := rows;
    for k := 0 to |accepted|
      invariant multiset(left) + multiset(accepted[..k]) == multiset(rows)
      invariant Leaves(rows, Identities(accepted[..k]), left)
    {
      var i := FirstRow(left, accepted[k]);
      if i == |left| {
        TakeStuck(rows, accepted, k, left);
        return None;
      }
      TakeSnoc(rows, accepted, k, left, i);
      LeavesStep(rows, Identities(accepted[..k]), left, i);
      IdentitiesSnoc(accepted, k);
      left := left[..i] + left[i + 1..];
    }
    TakeAll(accepted);
    return Some(left);
  }

  /** The first `k` rejected rows have been matched. */
  ghost predicate Matched(rows: seq<Assignment>, accepted: seq<Assignment>, rejected: seq<Rejection>, k: nat, left: seq<Assignment>)
    requires k <= |rejected|
  {
    && multiset(left) + multiset(accepted) <= multiset(rows)
    && Leaves(rows, Identities(accepted) + Claims(rejected[..k]), left)
  }

  lemma MatchedNone(rows: seq<Assignment>, accepted: seq<Assignment>, rejected: seq<Rejection>, left: seq<Assignment>)
    requires multiset(left) + multiset(accepted) == multiset(rows) && Leaves(rows, Identities(accepted), left)
    ensures Matched(rows, accepted, rejected, 0, left)
  {
    assert Identities(accepted) + Claims(rejected[..0]) == Identities(accepted);
  }

  lemma MatchedStep(rows: seq<Assignment>, accepted: seq<Assignment>, rejected: seq<Rejection>, k: nat, left: seq<Assignment>, i: nat)
    requires k < |rejected| && i < |left| && Matched(rows, accepted, rejected, k, left)
    requires RowIdentity(left[i]) == ClaimIdentity(rejected[k])
    ensures Matched(rows, accepted, rejected, k + 1, left[..i] + left[i + 1..])
  {
    LeavesStep(rows, Identities(accepted) + Claims(rejected[..k]), left, i);
    ClaimsSnoc(rejected, k);
    assert Identities(accepted) + Claims(rejected[..k + 1]) == Identities(accepted) + Claims(rejected[..k]) + [ClaimIdentity(rejected[k])];
    RemoveAt(left, i);
  }

  lemma SplitClaims(accepted: seq<Assignment>, rejected: seq<Rejection>, k: nat)
    requires k < |rejected|
    ensures Identities(accepted) + Claims(rejected) ==
            Identities(accepted) + Claims(rejected[..k]) + [ClaimIdentity(rejected[k])] + Claims(rejected[k + 1..])
  {
    ClaimsSnoc(rejected, k);
    var before, one, after := Claims(rejected[..k]), [ClaimIdentity(rejected[k])], Claims(rejected[k + 1..]);
    Associative(Identities(accepted), before + one, after);
    Associative(Identities(accepted), before, one);
  }

  lemma NotExplained(rows: seq<Assignment>, accepted: seq<Assignment>, rejected: seq<Rejection>)
    requires !(multiset(Identities(accepted) + Claims(rejected)) <= multiset(Identities(rows)))
    ensures !Explains(rows, accepted, rejected)
  {
  }

  lemma MatchedStuck(rows: seq<Assignment>, accepted: seq<Assignment>, rejected: seq<Rejection>, k: nat, left: seq<Assignment>)
    requires k < |rejected| && Leaves(rows, Identities(accepted) + Claims(rejected[..k]), left)
    requires ClaimIdentity(rejected[k]) !in Identities(left)
    ensures !Explains(rows, accepted, rejected)
  {
    var gone, next, later := Identities(accepted) + Claims(rejected[..k]), ClaimIdentity(rejected[k]), Claims(rejected[k + 1..]);
    LeavesStuck(rows, gone, left, next, later);
    SplitClaims(accepted, rejected, k);
    NotExplained(rows, accepted, rejected);
  }

  lemma MatchedAll(rows: seq<Assignment>, accepted: seq<Assignment>, rejected: seq<Rejection>, left: seq<Assignment>)
    requires Matched(rows, accepted, rejected, |rejected|, left)
    ensures Explains(rows, accepted, rejected) && Partitions(rows, accepted, rejected, left)
  {
    TakeAll(rejected);
    assert multiset(Identities(accepted) + Claims(rejected)) == multiset(Identities(accepted)) + multiset(Claims(rejected));
  }

  /** The rows of one candidate that its validation leaves unresolved, if the validation is about
      this candidate's rows at all. */
  method ResolveRows(rows: seq<Assignment>, accepted: seq<Assignment>, rejected: seq<Rejection>) returns (unresolved: Option<seq<Assignment>>)
    ensures unresolved.Some? <==> Explains(rows, accepted, rejected)
    ensures unresolved.Some? ==> Partitions(rows, accepted, rejected, unresolved.value)
  {
    var remaining := TakeAccepted(rows, accepted);
    if remaining.None? {
      return None;
    }
    var left := remaining.value;
    MatchedNone(rows, accepted, rejected, left);
    for k := 0 to |rejected|
      invariant Matched(rows, accepted, rejected, k, left)
    {
      var i := FirstIdentity(left, ClaimIdentity(rejected[k]));
      if i == |left| {
        MatchedStuck(rows, accepted, rejected, k, left);
        return None;
      }
      MatchedStep(rows, accepted, rejected, k, left, i);
      left := left[..i] + left[i + 1..];
    }
    MatchedAll(rows, accepted, rejected, left);
    return Some(left);
  }

  // ---- assembling the outcomes ----

  /** `by_id`: the last candidate under an identifier. */
  function Named(offers: seq<Offer>, id: string): (o: Option<Offer>)
    ensures o.Some? ==> o.value in offers && o.value.id == id
    ensures o.None? <==> forall x <- offers :: x.id != id
  {
    if |offers| == 0 then None
    else
      var last := offers[|offers| - 1];
      InitLast(offers);
      if last.id == id then Some(last) else Named(offers[..|offers| - 1], id)
  }

  predicate SameTerms(v: Validation, o: Offer) {
    v.kind == o.kind && v.seller == o.seller && v.point == o.point
  }

  /** A validation speaks about this candidate, and only about its rows. */
  predicate Speaks(v: Validation, o: Offer) {
    v.id == o.id && SameTerms(v, o) && Explains(o.rows, v.accepted, v.rejected)
  }

  /** Every row is accepted or rejected; nothing is left unresolved. */
  predicate Complete(o: Offer, v: Validation) {
    multiset(Identities(v.accepted)) + multiset(Claims(v.rejected)) == multiset(Identities(o.rows))
  }

  /** What a state says about rows and time slots: an accepted candidate has a slot and nothing
      rejected, one without a slot has nothing rejected either, a partial one has; nothing else has
      slots, and a refusal accepts nothing. */
  predicate StateFits(v: Validation) {
    match v.state
    case Accepted => |v.timeslots| > 0 && v.rejected == []
    case NoTimeslot => v.timeslots == [] && v.rejected == []
    case Partial => |v.rejected| > 0
    case Rejected => v.timeslots == [] && v.accepted == []
    case _ => v.timeslots == []
  }

  /** Evidence that may be used: it speaks about the candidate, its state fits what it holds, and when
      it offers something to ship it accepts at least one row and leaves none unresolved. */
  predicate Good(o: Offer, v: Validation) {
    && Speaks(v, o) && StateFits(v)
    && (v.state.Accepted? || v.state.Partial? || v.state.NoTimeslot? ==> |v.accepted| > 0 && Complete(o, v))
  }

  ghost predicate Attributed(offers: seq<Offer>, v: Validation) {
    Named(offers, v.id).Some? && Speaks(v, Named(offers, v.id).value)
  }

  function IdsOf(vs: seq<Validation>): (ids: seq<string>)
    ensures |ids| == |vs| && forall i :: 0 <= i < |vs| ==> ids[i] == vs[i].id
  {
    seq(|vs|, i requires 0 <= i < |vs| => vs[i].id)
  }

  ghost predicate DistinctIds(vs: seq<Validation>) {
    NoDup(IdsOf(vs))
  }

  /** What `assemble_outcomes` accepts: exactly one honest validation for every identifier. */
  ghost predicate Acceptable(offers: seq<Offer>, vs: seq<Validation>) {
    && (forall v <- vs :: Attributed(offers, v))
    && DistinctIds(vs)
    && (forall o <- offers :: exists v <- vs :: v.id == o.id)
  }

  ghost predicate IsOutcome(offers: seq<Offer>, v: Validation, x: Outcome) {
    && Some(x.offer) == Named(offers, v.id) && x.validation == v
    && Partitions(x.offer.rows, v.accepted, v.rejected, x.unresolved)
  }

  method ResolveOne(offers: seq<Offer>, v: Validation) returns (r: Option<Outcome>)
    ensures r.Some? <==> Attributed(offers, v)
    ensures r.Some? ==> IsOutcome(offers, v, r.value)
  {
    var found := Named(offers, v.id);
    if found.None? || v.kind != found.value.kind || v.seller != found.value.seller || v.point != found.value.point {
      return None;
    }
    var unresolved := ResolveRows(found.value.rows, v.accepted, v.rejected);
    if unresolved.None? {
      return None;
    }
    return Some(Outcome(found.value, v, unresolved.value));
  }

  /** The validations read so far were all honest, about different candidates, and resolved. */
  ghost predicate Resolved(offers: seq<Offer>, vs: seq<Validation>, seen: set<string>, output: seq<Outcome>) {
    && (forall v <- vs :: Attributed(offers, v)) && DistinctIds(vs)
    && (forall id :: id in seen <==> exists v <- vs :: v.id == id)
    && AllOutcomes(offers, vs, output)
  }

  lemma SeenNext(vs: seq<Validation>, seen: set<string>, v: Validation)
    requires DistinctIds(vs) && v.id !in seen && forall id :: id in seen <==> exists w <- vs :: w.id == id
    ensures DistinctIds(vs + [v])
    ensures forall id :: id in seen + {v.id} <==> exists w <- vs + [v] :: w.id == id
  {
    assert forall k :: 0 <= k < |vs| ==> vs[k] in vs;
    assert v in vs + [v] && forall w <- vs :: w in vs + [v];
  }

  ghost predicate AllOutcomes(offers: seq<Offer>, vs: seq<Validation>, output: seq<Outcome>) {
    |output| == |vs| && forall k :: 0 <= k < |vs| ==> IsOutcome(offers, vs[k], output[k])
  }

  lemma OutcomesNext(offers: seq<Offer>, vs: seq<Validation>, output: seq<Outcome>, v: Validation, x: Outcome)
    requires AllOutcomes(offers, vs, output) && IsOutcome(offers, v, x)
    ensures AllOutcomes(offers, vs + [v], output + [x])
  {
  }

  lemma ResolvedStep(offers: seq<Offer>, vs: seq<Validation>, seen: set<string>, output: seq<Outcome>, v: Validation, x: Outcome)
    requires Resolved(offers, vs, seen, output) && v.id !in seen && Attributed(offers, v) && IsOutcome(offers, v, x)
    ensures Resolved(offers, vs + [v], seen + {v.id}, output + [x])
  {
    SeenNext(vs, seen, v);
    OutcomesNext(offers, vs, output, v, x);
  }

  lemma SeenTwice(vs: seq<Validation>, i: nat)
    requires i < |vs| && exists v <- vs[..i] :: v.id == vs[i].id
    ensures !DistinctIds(vs)
  {
    var v :| v in vs[..i] && v.id == vs[i].id;
    var k :| 0 <= k < i && vs[k] == v;
  }

  lemma SeenCovers(offers: seq<Offer>, vs: seq<Validation>, seen: set<string>)
    requires forall id :: id in seen <==> exists v <- vs :: v.id == id
    requires forall v <- vs :: Named(offers, v.id).Some?
    ensures (seen == set o <- offers :: o.id) <==> forall o <- offers :: exists v <- vs :: v.id == o.id
  {
    var ids := set o <- offers :: o.id;
    assert forall id <- seen :: id in ids by {
      forall id | id in seen ensures id in ids {
        var v :| v in vs && v.id == id;
        assert Named(offers, v.id).value in offers;
      }
    }
    assert forall o <- offers :: o.id in ids;
    assert seen == ids <==> forall o <- offers :: o.id in seen;
  }

  /** A validation that ends the reading: it is about no candidate, dishonest, or about a candidate
      that was already seen. */
  ghost predicate Refused(offers: seq<Offer>, vs: seq<Validation>, i: nat) {
    i < |vs| && (!Attributed(offers, vs[i]) || exists v <- vs[..i] :: v.id == vs[i].id)
  }

  lemma RefusedIsUnacceptable(offers: seq<Offer>, vs: seq<Validation>, i: nat)
    requires Refused(offers, vs, i)
    ensures !Acceptable(offers, vs)
  {
    if Attributed(offers, vs[i]) {
      SeenTwice(vs, i);
    } else {
      assert vs[i] in vs;
    }
  }

  /** One turn of the loop: None when the validation is about no candidate, one already seen, or
      not about this candidate's rows. */
  method ReadNext(offers: seq<Offer>, vs: seq<Validation>, i: nat, seen: set<string>) returns (x: Option<Outcome>)
    requires i < |vs| && forall id :: id in seen <==> exists v <- vs[..i] :: v.id == id
    ensures x.None? ==> Refused(offers, vs, i)
    ensures x.Some? ==> vs[i].id !in seen && Attributed(offers, vs[i]) && IsOutcome(offers, vs[i], x.value)
  {
    if vs[i].id in seen {
      return None;
    }
    x := ResolveOne(offers, vs[i]);
  }

  /** One turn of the loop. */
  method ReadOne(offers: seq<Offer>, vs: seq<Validation>, i: nat, ghost done: seq<Validation>, known: set<string>, before: seq<Outcome>)
    returns (ok: bool, seen: set<string>, output: seq<Outcome>)
    requires i < |vs| && done == vs[..i] && Resolved(offers, done, known, before)
    ensures !ok ==> Refused(offers, vs, i)
    ensures ok ==> Resolved(offers, done + [vs[i]], seen, output)
  {
    var one := ReadNext(offers, vs, i, known);
    if one.None? {
      return false, known, before;
    }
    ResolvedStep(offers, done, known, before, vs[i], one.value);
    return true, known + {vs[i].id}, before + [one.value];
  }

  lemma NothingRead(offers: seq<Offer>)
    ensures Resolved(offers, [], {}, [])
  {
  }

  /** The loop over the validations. */
  method ReadAll(offers: seq<Offer>, vs: seq<Validation>) returns (output: Option<seq<Outcome>>, seen: set<string>, ghost at: nat)
    ensures output.None? ==> Refused(offers, vs, at)
    ensures output.Some? ==> Resolved(offers, vs, seen, output.value)
  {
    seen, at := {}, 0;
    var read: seq<Outcome> := [];
    ghost var done: seq<Validation> := [];
    NothingRead(offers);
    for i := 0 to |vs|
      invariant done == vs[..i]
      invariant Resolved(offers, done, seen, read)
    {
      var ok;
      ok, seen, read := ReadOne(offers, vs, i, done, seen, read);
      if !ok {
        return None, seen, i;
      }
      TakeNext(vs, i);
      done := done + [vs[i]];
    }
    TakeAll(vs);
    return Some(read), seen, at;
  }

  lemma ResolvedIsAcceptable(offers: seq<Offer>, vs: seq<Validation>, seen: set<string>, output: seq<Outcome>)
    requires Resolved(offers, vs, seen, output)
    ensures Acceptable(offers, vs) <==> seen == set o <- offers :: o.id
  {
    SeenCovers(offers, vs, seen);
  }

  /** `assemble_outcomes`: it accepts exactly the acceptable validations, one outcome each, and the
      rows of every outcome are partitioned. */
  method Assemble(offers: seq<Offer>, vs: seq<Validation>) returns (r: Result<seq<Outcome>, Mismatch>)
    ensures r.Ok? <==> Acceptable(offers, vs)
    ensures r.Ok? ==> |r.value| == |vs| && forall i :: 0 <= i < |vs| ==> IsOutcome(offers, vs[i], r.value[i])
  {
    ghost var at;
    var output, seen;
    output, seen, at := ReadAll(offers, vs);
    if output.None? {
      RefusedIsUnacceptable(offers, vs, at);
      return Err(IdentityMismatch);
    }
    ResolvedIsAcceptable(offers, vs, seen, output.value);
    return if seen == set o <- offers :: o.id then Ok(output.value) else Err(IdentityMismatch);
  }
}
