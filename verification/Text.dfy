/** Python strings. */
module Text {
  import opened Sequences

  /** Only ASCII white space counts as blank. */
  predicate Blank(s: string) {
    forall c <- s :: c == ' ' || c == '\t' || c == '\n' || c == '\r'
  }

  /** Order of Python strings, code point by code point. */
  predicate TextLe(a: string, b: string) {
    |a| == 0 || (|b| > 0 && (a[0] < b[0] || (a[0] == b[0] && TextLe(a[1..], b[1..]))))
  }

  lemma {:induction false} TextLeTotal(a: string, b: string)
    ensures TextLe(a, b) || TextLe(b, a)
    ensures TextLe(a, b) && TextLe(b, a) ==> a == b
  {
    if |a| > 0 && |b| > 0 && a[0] == b[0] {
      TextLeTotal(a[1..], b[1..]);
      HeadTail(a);
      HeadTail(b);
    }
  }

  /** Strings agree up to some place, where the first one ends or has the smaller character. */
  ghost predicate FirstDifference(a: string, b: string, n: nat) {
    n <= |a| && n <= |b| && a[..n] == b[..n] && (n == |a| || (n < |b| && a[n] < b[n]))
  }

  lemma {:induction false} TextLeMeans(a: string, b: string)
    ensures TextLe(a, b) <==> exists n: nat :: FirstDifference(a, b, n)
  {
    if |a| == 0 || |b| == 0 || a[0] != b[0] {
      if TextLe(a, b) {
        assert FirstDifference(a, b, 0);
      }
      if n: nat :| FirstDifference(a, b, n) && n > 0 {
        assert a[..n][0] == b[..n][0];
      }
    } else {
      TextLeMeans(a[1..], b[1..]);
      if TextLe(a, b) {
        var n: nat :| FirstDifference(a[1..], b[1..], n);
        assert a[..n + 1] == [a[0]] + a[1..][..n] && b[..n + 1] == [b[0]] + b[1..][..n];
        assert FirstDifference(a, b, n + 1);
      }
      if n: nat :| FirstDifference(a, b, n) {
        assert n > 0;
        assert a[1..][..n - 1] == a[..n][1..] && b[1..][..n - 1] == b[..n][1..];
        assert FirstDifference(a[1..], b[1..], n - 1);
      }
    }
  }

  lemma {:induction false} TextLeTransitive(a: string, b: string, c: string)
    requires TextLe(a, b) && TextLe(b, c)
    ensures TextLe(a, c)
  {
    if |a| > 0 && a[0] == b[0] == c[0] {
      TextLeTransitive(a[1..], b[1..], c[1..]);
    }
  }

  /** What sorting by several texts needs of each of them. */
  lemma TextOrders(a: string, b: string, c: string)
    ensures TextLe(a, b) || TextLe(b, a)
    ensures TextLe(a, b) && TextLe(b, a) ==> a == b
    ensures TextLe(b, c) && TextLe(c, b) ==> b == c
    ensures TextLe(a, c) && TextLe(c, a) ==> a == c
    ensures TextLe(a, b) && TextLe(b, c) ==> TextLe(a, c)
  {
    TextLeTotal(a, b);
    TextLeTotal(b, c);
    TextLeTotal(a, c);
    if TextLe(a, b) && TextLe(b, c) {
      TextLeTransitive(a, b, c);
    }
  }

  /** By this text, and by the rest where it is the same. */
  predicate TextThen(a: string, b: string, rest: bool) {
    if a == b then rest else TextLe(a, b)
  }
}
