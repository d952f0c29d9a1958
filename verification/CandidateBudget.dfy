/** Spending the candidate budget: the early cut-off per method, and one slot for every method
    before the rest (backend/shipment/candidates.py, `build_candidate_result`). */
module CandidateBudget {
  import opened Sequences
  function Take<T>(xs: seq<T>, n: nat): seq<T> {
    if n < |xs| then xs[..n] else xs
  }

  /** The methods with at least one candidate. */
  function Viable<T(!new)>(lists: seq<seq<T>>): (r: seq<seq<T>>)
    ensures forall l <- r :: |l| > 0
    ensures forall l :: l in r <==> l in lists && |l| > 0
  {
    if |lists| == 0 then []
    else
      HeadTail(lists);
      (if |lists[0]| > 0 then [lists[0]] else []) + Viable(lists[1..])
  }

  predicate AllViable<T>(lists: seq<seq<T>>) {
    forall i :: 0 <= i < |lists| ==> |lists[i]| > 0
  }

  function Heads<T>(lists: seq<seq<T>>): (r: seq<T>)
    requires AllViable(lists)
    ensures |r| == |lists|
    ensures forall i :: 0 <= i < |lists| ==> r[i] == lists[i][0]
  {
    if |lists| == 0 then [] else [lists[0][0]] + Heads(lists[1..])
  }

  /** Everything behind the heads, in order, while there is room. */
  function Tails<T>(lists: seq<seq<T>>, room: nat): (r: seq<T>)
    requires AllViable(lists)
    ensures |r| <= room
  {
    if |lists| == 0 then []
    else
      var some := Take(lists[0][1..], room);
      some + Tails(lists[1..], room - |some|)
  }

  /** One slot for each of the first methods, then the earlier methods' other candidates. */
  function Select<T>(lists: seq<seq<T>>, max: nat): (r: seq<T>)
    requires AllViable(lists)
    ensures |r| <= max
    ensures forall i :: 0 <= i < |lists| && i < max ==> i < |r| && r[i] == lists[i][0]
  {
    var heads := Heads(Take(lists, max));
    heads + Tails(lists, max - |heads|)
  }

  lemma TailsStep<T>(lists: seq<seq<T>>, i: nat, r: seq<T>, room: nat)
    requires AllViable(lists) && i < |lists|
    ensures var some := Take(lists[i][1..], room);
      r + Tails(lists[i..], room) == (r + some) + Tails(lists[i + 1..], room - |some|)
  {
    DropNext(lists, i);
    var some := Take(lists[i][1..], room);
    Associative(r, some, Tails(lists[i + 1..], room - |some|));
  }

  /** The selection loops at the end of `build_candidate_result`. */
  method SelectCandidates<T>(lists: seq<seq<T>>, max: nat) returns (r: seq<T>)
    requires AllViable(lists)
    ensures r == Select(lists, max)
  {
    r := Heads(Take(lists, max));
    ghost var all := Select(lists, max);
    DropNone(lists);
    for i := 0 to |lists|
      invariant |r| <= max
      invariant r + Tails(lists[i..], max - |r|) == all
    {
      if |r| >= max {
        assert |Tails(lists[i..], max - |r|)| == 0;
        NoneMore(r);
        return;
      }
      TailsStep(lists, i, r, max - |r|);
      r := r + Take(lists[i][1..], max - |r|);
    }
    NoneMore(r);
  }

  function CutEach<T>(lists: seq<seq<T>>, max: nat): (r: seq<seq<T>>)
    ensures |r| == |lists| && forall i :: 0 <= i < |lists| ==> r[i] == Take(lists[i], max)
  {
    seq(|lists|, i requires 0 <= i < |lists| => Take(lists[i], max))
  }

  lemma {:induction false} TailsIgnoreCut<T>(lists: seq<seq<T>>, room: nat, max: nat)
    requires AllViable(lists) && room < max
    ensures AllViable(CutEach(lists, max))
    ensures Tails(CutEach(lists, max), room) == Tails(lists, room)
  {
    if |lists| > 0 {
      var cut := CutEach(lists, max);
      assert cut[1..] == CutEach(lists[1..], max);
      assert Take(cut[0][1..], room) == Take(lists[0][1..], room);
      TailsIgnoreCut(lists[1..], room - |Take(lists[0][1..], room)|, max);
    }
  }

  lemma HeadsIgnoreCut<T>(lists: seq<seq<T>>, max: nat)
    requires AllViable(lists) && max > 0
    ensures AllViable(CutEach(lists, max)) && Heads(Take(CutEach(lists, max), max)) == Heads(Take(lists, max))
  {
    assert Take(CutEach(lists, max), max) == CutEach(Take(lists, max), max);
  }

  /** Cutting every method's list at the budget changes nothing in the selection. */
  lemma CutChangesNothing<T>(lists: seq<seq<T>>, max: nat)
    requires AllViable(lists) && max > 0
    ensures AllViable(CutEach(lists, max)) && Select(CutEach(lists, max), max) == Select(lists, max)
  {
    HeadsIgnoreCut(lists, max);
    if |lists| > 0 {
      TailsIgnoreCut(lists, max - |Heads(Take(lists, max))|, max);
    }
  }

  function Concat<T>(lists: seq<seq<T>>): seq<T> {
    if |lists| == 0 then [] else lists[0] + Concat(lists[1..])
  }

  lemma HeadAndSome<T>(l: seq<T>, room: nat)
    requires |l| > 0
    ensures multiset{l[0]} + multiset(Take(l[1..], room)) <= multiset(l)
  {
    var some := Take(l[1..], room);
    assert l == [l[0]] + (some + l[1..][|some|..]);
  }

  lemma {:induction false} HeadsAndTailsAreSome<T>(lists: seq<seq<T>>, room: nat)
    requires AllViable(lists)
    ensures multiset(Heads(lists)) + multiset(Tails(lists, room)) <= multiset(Concat(lists))
  {
    if |lists| > 0 {
      var l, rest := lists[0], lists[1..];
      var some := Take(l[1..], room);
      HeadAndSome(l, room);
      HeadsAndTailsAreSome(rest, room - |some|);
      assert multiset(Heads(lists)) == multiset{l[0]} + multiset(Heads(rest));
      assert multiset(Tails(lists, room)) == multiset(some) + multiset(Tails(rest, room - |some|));
      assert multiset(Concat(lists)) == multiset(l) + multiset(Concat(rest));
    }
  }

  lemma {:induction false} ConcatSplit<T>(a: seq<seq<T>>, b: seq<seq<T>>)
    ensures Concat(a + b) == Concat(a) + Concat(b)
  {
    if |a| == 0 {
      assert a + b == b;
    } else {
      ConcatSplit(a[1..], b);
      ConcatTail(a, b);
      Associative(a[0], Concat(a[1..]), Concat(b));
    }
  }

  lemma {:induction false} NoRoomNoTails<T>(lists: seq<seq<T>>)
    requires AllViable(lists)
    ensures Tails(lists, 0) == []
  {
    if |lists| > 0 {
      NoRoomNoTails(lists[1..]);
    }
  }

  lemma FirstHeadsAreSome<T>(lists: seq<seq<T>>, max: nat)
    requires AllViable(lists) && max < |lists|
    ensures multiset(Heads(lists[..max])) <= multiset(Concat(lists))
  {
    HeadsAndTailsAreSome(lists[..max], 0);
    NoRoomNoTails(lists[..max]);
    assert lists == lists[..max] + lists[max..];
    ConcatSplit(lists[..max], lists[max..]);
    assert multiset(Concat(lists)) == multiset(Concat(lists[..max])) + multiset(Concat(lists[max..]));
  }

  lemma BothAmong<T>(a: seq<T>, b: seq<T>, all: multiset<T>)
    requires multiset(a) + multiset(b) <= all
    ensures multiset(a + b) <= all
  {
    assert multiset(a + b) == multiset(a) + multiset(b);
  }

  lemma AllHeadsAreSome<T>(lists: seq<seq<T>>, max: nat)
    requires AllViable(lists) && |lists| <= max
    ensures multiset(Heads(lists) + Tails(lists, max - |lists|)) <= multiset(Concat(lists))
  {
    HeadsAndTailsAreSome(lists, max - |lists|);
    BothAmong(Heads(lists), Tails(lists, max - |lists|), multiset(Concat(lists)));
  }

  lemma SelectionParts<T>(lists: seq<seq<T>>, max: nat)
    requires AllViable(lists)
    ensures max < |lists| ==> Select(lists, max) == Heads(lists[..max])
    ensures |lists| <= max ==> Select(lists, max) == Heads(lists) + Tails(lists, max - |lists|)
  {
    NoRoomNoTails(lists);
  }

  /** The selection repeats nothing and invents nothing. */
  lemma SelectionIsSome<T>(lists: seq<seq<T>>, max: nat)
    requires AllViable(lists)
    ensures multiset(Select(lists, max)) <= multiset(Concat(lists))
  {
    SelectionParts(lists, max);
    if max < |lists| {
      FirstHeadsAreSome(lists, max);
    } else {
      AllHeadsAreSome(lists, max);
    }
  }
}
