/** Whole kopeks and exact rouble amounts. */
module Money {
  function Kopeks(n: int): (v: real)
    ensures 100.0 * v == n as real
  {
    n as real / 100.0
  }

  /** Rounding up to whole kopeks (`_cents`, ROUND_CEILING). */
  function Cents(v: real): (n: int)
    ensures Kopeks(n - 1) < v <= Kopeks(n)
  {
    var x := v * 100.0;
    if x.Floor as real == x then x.Floor else x.Floor + 1
  }

  /** A start value doubled k times. */
  function Doubled(start: int, k: nat): int {
    if k == 0 then start else Doubled(start, k - 1) * 2
  }

  lemma DoubledGrows(start: int, j: nat, k: nat)
    requires 0 <= start && j <= k
    ensures start <= Doubled(start, j) <= Doubled(start, k)
  {
    if j < k {
      DoubledGrows(start, j, k - 1);
    } else if j > 0 {
      DoubledGrows(start, j - 1, j - 1);
    }
  }

  function PowerOfTwo(k: nat): int {
    if k == 0 then 1 else 2 * PowerOfTwo(k - 1)
  }

  lemma {:induction false} DoubledIsTimes(start: int, k: nat)
    ensures Doubled(start, k) == PowerOfTwo(k) * start
  {
    if k > 0 {
      DoubledIsTimes(start, k - 1);
    }
  }

  lemma {:induction false} PowerAdds(a: nat, b: nat)
    ensures PowerOfTwo(a + b) == PowerOfTwo(a) * PowerOfTwo(b)
  {
    if a > 0 {
      PowerAdds(a - 1, b);
    }
  }

  lemma ThirtyNineDoublings()
    ensures PowerOfTwo(39) == 0x80_0000_0000
  {
    assert PowerOfTwo(2) == 4 && PowerOfTwo(3) == 8 && PowerOfTwo(4) == 16;
    PowerAdds(4, 4);
    PowerAdds(8, 8);
    PowerAdds(16, 16);
    PowerAdds(3, 4);
    PowerAdds(32, 7);
  }

  function MaxInt(a: int, b: int): int {
    if a < b then b else a
  }

  /** Whole-kopek prices reach a real bound exactly when they reach its rounding up; this is why
      rounded tier bounds lose no price. */
  lemma KopeksReach(n: int, v: real)
    ensures v <= Kopeks(n) <==> Cents(v) <= n
  {
    if Cents(v) <= n {
      assert Kopeks(Cents(v)) <= Kopeks(n);
    } else {
      assert Kopeks(n) <= Kopeks(Cents(v) - 1);
    }
  }
}
