/** Totals per key: the `totals.setdefault(key, [0, 0])` loops of the analytics modules
    (backend/analytics/routes.py, clean_routes.py, stockout_episodes.py). */
module KeyedTotals {
  import opened Sequences
  import opened StableSort
  import opened Sums

  /** The keys of the elements, in the order in which they appear first. */
  function Distinct<T, K(==,!new)>(xs: seq<T>, key: T -> K): (ks: seq<K>)
    ensures NoDup(ks)
    ensures forall k :: k in ks <==> exists x <- xs :: key(x) == k
  {
    if |xs| == 0 then []
    else
      var init, last := Distinct(xs[..|xs| - 1], key), xs[|xs| - 1];
      InitLast(xs);
      if key(last) in init then init else init + [key(last)]
  }

  function At<T, K(==,!new)>(key: T -> K, k: K, f: T -> nat): T -> nat {
    (x: T) => if key(x) == k then f(x) else 0
  }

  /** The sum of `f` over the elements under a key. */
  function PerKey<T, K(==,!new)>(xs: seq<T>, key: T -> K, f: T -> nat): K -> nat {
    (k: K) => SumBy(xs, At(key, k, f))
  }

  lemma {:induction false} SumPlus<T>(xs: seq<T>, f: T -> nat, g: T -> nat, h: T -> nat)
    requires forall x <- xs :: h(x) == f(x) + g(x)
    ensures SumBy(xs, h) == SumBy(xs, f) + SumBy(xs, g)
  {
    if |xs| > 0 {
      HeadTail(xs);
      SumPlus(xs[1..], f, g, h);
    }
  }

  lemma {:induction false} SumOfOne<K(!new)>(keys: seq<K>, k: K, n: nat)
    requires NoDup(keys)
    ensures SumBy(keys, (x: K) => if x == k then n else 0) == if k in keys then n else 0
  {
    if |keys| > 0 {
      HeadTail(keys);
      SumOfOne(keys[1..], k, n);
      assert keys[0] !in keys[1..];
    }
  }

  lemma PerKeyHead<T, K(!new)>(xs: seq<T>, key: T -> K, f: T -> nat, k: K)
    requires |xs| > 0
    ensures PerKey(xs, key, f)(k) == (if key(xs[0]) == k then f(xs[0]) else 0) + PerKey(xs[1..], key, f)(k)
  {
  }

  /** Adding up the totals of all keys counts every element exactly once. */
  lemma {:induction false} SumPerKey<T, K(!new)>(xs: seq<T>, keys: seq<K>, key: T -> K, f: T -> nat)
    requires NoDup(keys) && forall x <- xs :: key(x) in keys || f(x) == 0
    ensures SumBy(keys, PerKey(xs, key, f)) == SumBy(xs, f)
  {
    if |xs| == 0 {
      SumZero(keys, PerKey(xs, key, f));
    } else {
      HeadTail(xs);
      SumPerKey(xs[1..], keys, key, f);
      var k, n := key(xs[0]), f(xs[0]);
      SumOfOne(keys, k, n);
      forall x | x in keys ensures PerKey(xs, key, f)(x) == (if x == k then n else 0) + PerKey(xs[1..], key, f)(x) {
        PerKeyHead(xs, key, f, x);
      }
      SumPlus(keys, (x: K) => if x == k then n else 0, PerKey(xs[1..], key, f), PerKey(xs, key, f));
    }
  }

  lemma {:induction false} SumSnoc<T>(xs: seq<T>, x: T, f: T -> nat)
    ensures SumBy(xs + [x], f) == SumBy(xs, f) + f(x)
  {
    SumConcat(xs, [x], f);
  }

  datatype Total = Total(quantity: nat, count: nat)

  /** The dictionary after the given elements. */
  ghost predicate Totalled<T, K(!new)>(xs: seq<T>, key: T -> K, q: T -> nat, n: T -> nat, order: seq<K>, totals: map<K, Total>) {
    && order == Distinct(xs, key)
    && (forall k :: k in totals <==> k in order)
    && (forall k <- totals.Keys :: totals[k] == Total(PerKey(xs, key, q)(k), PerKey(xs, key, n)(k)))
  }

  lemma PerKeySnoc<T, K(!new)>(xs: seq<T>, x: T, key: T -> K, f: T -> nat, k: K)
    ensures PerKey(xs + [x], key, f)(k) == PerKey(xs, key, f)(k) + if key(x) == k then f(x) else 0
  {
    SumSnoc(xs, x, At(key, k, f));
  }

  /** The totals of a key, zero when it is new. */
  function Before<K>(totals: map<K, Total>, k: K): Total {
    if k in totals then totals[k] else Total(0, 0)
  }

  /** `aggregate[0] += quantity; aggregate[1] += count` */
  function Bump<K>(totals: map<K, Total>, k: K, quantity: nat, count: nat): map<K, Total> {
    totals[k := Total(Before(totals, k).quantity + quantity, Before(totals, k).count + count)]
  }

  lemma BeforeIsTotal<T, K(!new)>(xs: seq<T>, key: T -> K, q: T -> nat, n: T -> nat, order: seq<K>, totals: map<K, Total>, k: K)
    requires Totalled(xs, key, q, n, order, totals)
    ensures Before(totals, k) == Total(PerKey(xs, key, q)(k), PerKey(xs, key, n)(k))
  {
    if k !in totals {
      NothingUnder(xs, key, q, k);
      NothingUnder(xs, key, n, k);
    }
  }

  lemma BumpTotals<T, K(!new)>(xs: seq<T>, x: T, key: T -> K, q: T -> nat, n: T -> nat, order: seq<K>, totals: map<K, Total>, k: K)
    requires Totalled(xs, key, q, n, order, totals)
    ensures Before(Bump(totals, key(x), q(x), n(x)), k) == Total(PerKey(xs + [x], key, q)(k), PerKey(xs + [x], key, n)(k))
  {
    BeforeIsTotal(xs, key, q, n, order, totals, k);
    PerKeySnoc(xs, x, key, q, k);
    PerKeySnoc(xs, x, key, n, k);
  }

  lemma DistinctSnoc<T, K(!new)>(xs: seq<T>, x: T, key: T -> K)
    ensures Distinct(xs + [x], key) == if key(x) in Distinct(xs, key) then Distinct(xs, key) else Distinct(xs, key) + [key(x)]
  {
    SnocInit(xs, x);
  }

  lemma TotalledStep<T, K(!new)>(xs: seq<T>, x: T, key: T -> K, q: T -> nat, n: T -> nat, order: seq<K>, totals: map<K, Total>)
    requires Totalled(xs, key, q, n, order, totals)
    ensures Totalled(xs + [x], key, q, n, if key(x) in totals then order else order + [key(x)], Bump(totals, key(x), q(x), n(x)))
  {
    DistinctSnoc(xs, x, key);
    var next := Bump(totals, key(x), q(x), n(x));
    forall k | k in next ensures next[k] == Total(PerKey(xs + [x], key, q)(k), PerKey(xs + [x], key, n)(k)) {
      BumpTotals(xs, x, key, q, n, order, totals, k);
      assert next[k] == Before(next, k);
    }
  }

  /** One turn of the loop over the elements. */
  method AddElement<T, K(==,!new)>(ghost done: seq<T>, x: T, key: T -> K, q: T -> nat, n: T -> nat, before: seq<K>, held: map<K, Total>)
    returns (order: seq<K>, totals: map<K, Total>)
    requires Totalled(done, key, q, n, before, held)
    ensures Totalled(done + [x], key, q, n, order, totals)
  {
    TotalledStep(done, x, key, q, n, before, held);
    order := if key(x) in held then before else before + [key(x)];
    totals := Bump(held, key(x), q(x), n(x));
  }

  /** The loop over the elements. */
  method Accumulate<T, K(==,!new)>(xs: seq<T>, key: T -> K, q: T -> nat, n: T -> nat) returns (order: seq<K>, totals: map<K, Total>)
    ensures order == Distinct(xs, key)
    ensures forall k :: k in totals <==> k in order
    ensures forall k <- totals.Keys :: totals[k] == Total(PerKey(xs, key, q)(k), PerKey(xs, key, n)(k))
  {
    order, totals := [], map[];
    ghost var done: seq<T> := [];
    for i := 0 to |xs|
      invariant done == xs[..i]
      invariant Totalled(done, key, q, n, order, totals)
    {
      order, totals := AddElement(done, xs[i], key, q, n, order, totals);
      done := done + [xs[i]];
    }
    assert done == xs;
  }

  lemma NothingUnder<T, K(!new)>(xs: seq<T>, key: T -> K, f: T -> nat, k: K)
    requires k !in Distinct(xs, key)
    ensures PerKey(xs, key, f)(k) == 0
  {
    forall x | x in xs ensures At(key, k, f)(x) == 0 {
      assert key(x) in Distinct(xs, key);
    }
    SumZero(xs, At(key, k, f));
  }

  /** The order of the elements does not matter to a sum. */
  lemma SumSorted<T(!new)>(xs: seq<T>, le: (T, T) -> bool, f: T -> nat)
    ensures SumBy(Sort(xs, le), f) == SumBy(xs, f)
  {
    SortKeeps(xs, le);
    SumAmong(Sort(xs, le), xs, f);
  }

  /** Elements computed one from each key carry the keys' sum. */
  lemma {:induction false} SumMapped<K, T>(keys: seq<K>, f: K -> nat, xs: seq<T>, g: T -> nat)
    requires |xs| == |keys| && forall i :: 0 <= i < |keys| ==> g(xs[i]) == f(keys[i])
    ensures SumBy(xs, g) == SumBy(keys, f)
  {
    if |keys| > 0 {
      SumMapped(keys[1..], f, xs[1..], g);
    }
  }

  // ---- shares ----

  function Ratio(part: nat, whole: nat): real
    requires whole > 0
  {
    part as real / whole as real
  }

  function ShareSum<T>(xs: seq<T>, f: T -> nat, whole: nat): real
    requires whole > 0
  {
    if |xs| == 0 then 0.0 else Ratio(f(xs[0]), whole) + ShareSum(xs[1..], f, whole)
  }

  lemma RatioAdds(a: nat, b: nat, whole: nat)
    requires whole > 0
    ensures Ratio(a, whole) + Ratio(b, whole) == Ratio(a + b, whole)
  {
  }

  lemma {:induction false} SharesAddUp<T>(xs: seq<T>, f: T -> nat, whole: nat)
    requires whole > 0
    ensures ShareSum(xs, f, whole) == Ratio(SumBy(xs, f), whole)
  {
    if |xs| > 0 {
      SharesAddUp(xs[1..], f, whole);
      RatioAdds(f(xs[0]), SumBy(xs[1..], f), whole);
    }
  }

  /** Exact shares of a whole sum to one. */
  lemma SharesSumToOne<T>(xs: seq<T>, f: T -> nat, whole: nat)
    requires whole > 0 && SumBy(xs, f) == whole
    ensures ShareSum(xs, f, whole) == 1.0
  {
    SharesAddUp(xs, f, whole);
    WholeIsOne(whole);
  }

  lemma WholeIsOne(whole: nat)
    requires whole > 0
    ensures Ratio(whole, whole) == 1.0
  {
  }
}
