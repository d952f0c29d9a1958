/** Python's stable `sorted`, as an insertion sort over a total preorder. */
module StableSort {
  import opened Sequences

  ghost predicate TotalPreorder<T(!new)>(le: (T, T) -> bool) {
    && (forall x, y :: le(x, y) || le(y, x))
    && (forall x, y, z :: le(x, y) && le(y, z) ==> le(x, z))
  }

  ghost predicate Sorted<T>(xs: seq<T>, le: (T, T) -> bool) {
    forall i, j :: 0 <= i < j < |xs| ==> le(xs[i], xs[j])
  }

  /** Put an element before the first one it does not exceed, so equal elements keep their order. */
  function Insert<T>(x: T, xs: seq<T>, le: (T, T) -> bool): (r: seq<T>)
    ensures |r| == |xs| + 1
  {
    if |xs| == 0 || le(x, xs[0]) then [x] + xs else [xs[0]] + Insert(x, xs[1..], le)
  }

  function Sort<T>(xs: seq<T>, le: (T, T) -> bool): (r: seq<T>)
    ensures |r| == |xs|
  {
    if |xs| == 0 then [] else Insert(xs[0], Sort(xs[1..], le), le)
  }

  lemma {:induction false} InsertKeeps<T(!new)>(x: T, xs: seq<T>, le: (T, T) -> bool)
    ensures multiset(Insert(x, xs, le)) == multiset(xs) + multiset{x}
    ensures TotalPreorder(le) && Sorted(xs, le) ==> Sorted(Insert(x, xs, le), le)
  {
    if |xs| == 0 || le(x, xs[0]) {
    } else {
      HeadTail(xs);
      InsertKeeps(x, xs[1..], le);
      var r := Insert(x, xs[1..], le);
      forall y | y in r ensures TotalPreorder(le) && Sorted(xs, le) ==> le(xs[0], y) {
        assert y in multiset(r);
        if y != x {
          assert y in multiset(xs[1..]);
        }
      }
    }
  }

  /** Sorting is a sorted permutation. */
  lemma {:induction false} SortKeeps<T(!new)>(xs: seq<T>, le: (T, T) -> bool)
    ensures multiset(Sort(xs, le)) == multiset(xs)
    ensures TotalPreorder(le) ==> Sorted(Sort(xs, le), le)
  {
    if |xs| > 0 {
      HeadTail(xs);
      SortKeeps(xs[1..], le);
      InsertKeeps(xs[0], Sort(xs[1..], le), le);
    }
  }

  lemma SortElements<T(!new)>(xs: seq<T>, le: (T, T) -> bool)
    ensures forall x :: x in Sort(xs, le) <==> x in xs
  {
    SortKeeps(xs, le);
    forall x ensures x in Sort(xs, le) <==> x in xs {
      assert x in Sort(xs, le) <==> x in multiset(Sort(xs, le));
      assert x in xs <==> x in multiset(xs);
    }
  }

  /** Elements that tie stand in a finer order. */
  ghost predicate TiesKeep<T>(xs: seq<T>, le: (T, T) -> bool, finer: (T, T) -> bool) {
    forall i, j :: 0 <= i < j < |xs| && le(xs[i], xs[j]) && le(xs[j], xs[i]) ==> finer(xs[i], xs[j])
  }

  lemma {:induction false} InsertIsStable<T(!new)>(x: T, xs: seq<T>, le: (T, T) -> bool, finer: (T, T) -> bool)
    requires TiesKeep(xs, le, finer) && forall y <- xs :: le(x, y) && le(y, x) ==> finer(x, y)
    ensures TiesKeep(Insert(x, xs, le), le, finer)
  {
    if |xs| > 0 && !le(x, xs[0]) {
      HeadTail(xs);
      InsertIsStable(x, xs[1..], le, finer);
      InsertKeeps(x, xs[1..], le);
      var rest := Insert(x, xs[1..], le);
      forall y | y in rest ensures le(xs[0], y) && le(y, xs[0]) ==> finer(xs[0], y) {
        assert y in multiset(rest);
        if y != x {
          assert y in multiset(xs[1..]);
        }
      }
    }
  }

  /** Sorting is stable: ties keep the order they come in. */
  lemma {:induction false} SortIsStable<T(!new)>(xs: seq<T>, le: (T, T) -> bool, finer: (T, T) -> bool)
    requires TiesKeep(xs, le, finer)
    ensures TiesKeep(Sort(xs, le), le, finer)
  {
    if |xs| > 0 {
      HeadTail(xs);
      SortIsStable(xs[1..], le, finer);
      SortElements(xs[1..], le);
      InsertIsStable(xs[0], Sort(xs[1..], le), le, finer);
    }
  }

  ghost predicate NoTies<T>(xs: seq<T>, le: (T, T) -> bool) {
    forall i, j :: 0 <= i < |xs| && 0 <= j < |xs| && le(xs[i], xs[j]) && le(xs[j], xs[i]) ==> xs[i] == xs[j]
  }

  lemma SameHead<T(!new)>(xs: seq<T>, ys: seq<T>, le: (T, T) -> bool)
    requires TotalPreorder(le) && Sorted(xs, le) && Sorted(ys, le) && NoTies(xs, le)
    requires multiset(xs) == multiset(ys) && |xs| > 0 && |ys| > 0
    ensures xs[0] == ys[0]
  {
    assert xs[0] in multiset(ys) && ys[0] in multiset(xs);
    var i :| 0 <= i < |ys| && ys[i] == xs[0];
    var j :| 0 <= j < |xs| && xs[j] == ys[0];
    assert le(xs[0], xs[0]);
    assert le(xs[0], xs[j]) && le(ys[0], ys[i]);
  }

  lemma TailKeeps<T(!new)>(xs: seq<T>, le: (T, T) -> bool)
    requires |xs| > 0
    ensures multiset(xs) == multiset{xs[0]} + multiset(xs[1..])
    ensures multiset(xs[1..]) == multiset(xs) - multiset{xs[0]}
    ensures Sorted(xs, le) ==> Sorted(xs[1..], le)
    ensures NoTies(xs, le) ==> NoTies(xs[1..], le)
  {
    HeadTail(xs);
    forall i | 0 <= i < |xs| - 1 ensures xs[1..][i] == xs[i + 1] {
    }
  }

  lemma HeadAndTail<T>(xs: seq<T>)
    requires |xs| > 0
    ensures xs == [xs[0]] + xs[1..]
  {
  }

  lemma SameLength<T>(xs: seq<T>, ys: seq<T>)
    requires multiset(xs) == multiset(ys)
    ensures |xs| == |ys|
  {
    assert |xs| == |multiset(xs)| == |multiset(ys)| == |ys|;
  }

  /** Elements that never tie have only one sorted order. */
  lemma {:induction false} SortedIsUnique<T(!new)>(xs: seq<T>, ys: seq<T>, le: (T, T) -> bool)
    requires TotalPreorder(le) && Sorted(xs, le) && Sorted(ys, le) && NoTies(xs, le)
    requires multiset(xs) == multiset(ys)
    ensures xs == ys
  {
    SameLength(xs, ys);
    if |xs| > 0 {
      SameHead(xs, ys, le);
      TailKeeps(xs, le);
      TailKeeps(ys, le);
      SortedIsUnique(xs[1..], ys[1..], le);
      HeadAndTail(xs);
      HeadAndTail(ys);
    }
  }

  lemma NoTiesAmong<T(!new)>(xs: seq<T>, ys: seq<T>, le: (T, T) -> bool)
    requires NoTies(xs, le) && forall y <- ys :: y in xs
    ensures NoTies(ys, le)
  {
    forall i, j | 0 <= i < |ys| && 0 <= j < |ys| && le(ys[i], ys[j]) && le(ys[j], ys[i]) ensures ys[i] == ys[j] {
      assert ys[i] in xs && ys[j] in xs;
    }
  }

  /** The result does not depend on the order of the input when no two elements tie. */
  lemma SortIgnoresOrder<T(!new)>(xs: seq<T>, ys: seq<T>, le: (T, T) -> bool)
    requires TotalPreorder(le) && multiset(xs) == multiset(ys) && NoTies(xs, le)
    ensures Sort(xs, le) == Sort(ys, le)
  {
    SortKeeps(xs, le);
    SortKeeps(ys, le);
    SortElements(xs, le);
    NoTiesAmong(xs, Sort(xs, le), le);
    SortedIsUnique(Sort(xs, le), Sort(ys, le), le);
  }

  // ---- sequences without duplicates ----

  ghost predicate NoDup<T>(xs: seq<T>) {
    forall i, j :: 0 <= i < j < |xs| ==> xs[i] != xs[j]
  }

  lemma {:induction false} NoDupCount<T>(xs: seq<T>, x: T)
    requires NoDup(xs)
    ensures multiset(xs)[x] <= 1
  {
    if |xs| > 0 {
      HeadTail(xs);
      NoDupCount(xs[1..], x);
      assert xs[0] !in xs[1..];
    }
  }

  /** Two duplicate-free collections of the same elements. */
  lemma SameByElements<T(!new)>(a: seq<T>, b: seq<T>)
    requires NoDup(a) && NoDup(b) && forall x :: x in a <==> x in b
    ensures multiset(a) == multiset(b)
  {
    forall x ensures multiset(a)[x] == multiset(b)[x] {
      NoDupCount(a, x);
      NoDupCount(b, x);
      assert x in a <==> x in multiset(a);
      assert x in b <==> x in multiset(b);
    }
  }

  lemma TwiceCounts<T>(xs: seq<T>, i: nat, j: nat)
    requires i < j < |xs| && xs[i] == xs[j]
    ensures multiset(xs)[xs[i]] >= 2
  {
    assert xs == xs[..j] + xs[j..];
    assert multiset(xs) == multiset(xs[..j]) + multiset(xs[j..]);
    assert xs[..j][i] == xs[i] && xs[i] in xs[..j];
    assert xs[j..][0] == xs[i] && xs[i] in xs[j..];
    assert multiset(xs[..j])[xs[i]] >= 1 && multiset(xs[j..])[xs[i]] >= 1;
  }

  /** Taking some elements of a duplicate-free collection creates no duplicate. */
  lemma NoDupAmong<T>(xs: seq<T>, ys: seq<T>)
    requires NoDup(xs) && multiset(ys) <= multiset(xs)
    ensures NoDup(ys)
  {
    forall i, j | 0 <= i < j < |ys| ensures ys[i] != ys[j] {
      if ys[i] == ys[j] {
        TwiceCounts(ys, i, j);
        NoDupCount(xs, ys[i]);
      }
    }
  }
}
