/** Sums of a number per element. */
module Sums {
  import opened Sequences

  function SumBy<T>(xs: seq<T>, f: T -> nat): nat {
    if |xs| == 0 then 0 else f(xs[0]) + SumBy(xs[1..], f)
  }

  lemma {:induction false} SumConcat<T>(a: seq<T>, b: seq<T>, f: T -> nat)
    ensures SumBy(a + b, f) == SumBy(a, f) + SumBy(b, f)
  {
    if |a| == 0 {
      assert a + b == b;
    } else {
      SumConcat(a[1..], b, f);
      ConcatTail(a, b);
    }
  }

  lemma SumMiddle<T>(a: seq<T>, x: T, c: seq<T>, f: T -> nat)
    ensures SumBy(a + [x] + c, f) == f(x) + SumBy(a + c, f)
  {
    SumConcat(a + [x], c, f);
    SumConcat(a, [x], f);
    SumConcat(a, c, f);
  }

  lemma SumWithout<T>(b: seq<T>, i: nat, f: T -> nat)
    requires i < |b|
    ensures SumBy(b, f) == f(b[i]) + SumBy(b[..i] + b[i + 1..], f)
  {
    SplitAt(b, i);
    SumMiddle(b[..i], b[i], b[i + 1..], f);
  }

  /** Fewer elements cannot sum to more, and the order does not matter. */
  lemma {:induction false} SumAmong<T>(a: seq<T>, b: seq<T>, f: T -> nat)
    requires multiset(a) <= multiset(b)
    ensures SumBy(a, f) <= SumBy(b, f)
    ensures multiset(a) == multiset(b) ==> SumBy(a, f) == SumBy(b, f)
  {
    if |a| > 0 {
      var i := SharedElement(a, b);
      SumWithout(b, i, f);
      WithoutHead(a, b, i);
      SumAmong(a[1..], b[..i] + b[i + 1..], f);
    } else if multiset(a) == multiset(b) {
      NothingLeft(b);
    }
  }

  lemma {:induction false} SumAgrees<T>(xs: seq<T>, f: T -> nat, g: T -> nat)
    requires forall x <- xs :: f(x) == g(x)
    ensures SumBy(xs, f) == SumBy(xs, g)
  {
    if |xs| > 0 {
      HeadTail(xs);
      SumAgrees(xs[1..], f, g);
    }
  }

  lemma {:induction false} SumZero<T>(xs: seq<T>, f: T -> nat)
    requires forall x <- xs :: f(x) == 0
    ensures SumBy(xs, f) == 0
  {
    if |xs| > 0 {
      HeadTail(xs);
      SumZero(xs[1..], f);
    }
  }
}
