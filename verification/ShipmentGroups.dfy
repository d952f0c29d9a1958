/** Greedy grouping of clusters into shipments (backend/shipment/candidates.py, `_groups`). */
module ShipmentGroups {
  import opened Wrappers
  import opened Sequences

  datatype Cluster = Cluster(id: string, volume: real)

  /** A cluster list cut into consecutive pieces: shipments, and clusters too big for any. */
  datatype Piece = Shipment(clusters: seq<Cluster>) | TooBig(cluster: Cluster)

  function Volume(cs: seq<Cluster>): real {
    if |cs| == 0 then 0.0 else Volume(cs[..|cs| - 1]) + cs[|cs| - 1].volume
  }

  predicate Over(volume: real, limit: Option<real>) {
    limit.Some? && volume > limit.value
  }

  predicate NonnegativeVolumes(cs: seq<Cluster>) {
    forall c <- cs :: 0.0 <= c.volume
  }

  function Close(current: seq<Cluster>): seq<Piece> {
    if |current| > 0 then [Shipment(current)] else []
  }

  /** The pieces greedy grouping makes of the remaining clusters, with a shipment open. */
  function Greedy(cs: seq<Cluster>, size: nat, limit: Option<real>, current: seq<Cluster>): seq<Piece> {
    if |cs| == 0 then Close(current)
    else
      var c := cs[0];
      if Over(c.volume, limit) then Close(current) + [TooBig(c)] + Greedy(cs[1..], size, limit, [])
      else if |current| > 0 && (|current| >= size || Over(Volume(current) + c.volume, limit)) then
        Close(current) + Greedy(cs[1..], size, limit, [c])
      else Greedy(cs[1..], size, limit, current + [c])
  }

  function Flatten(ps: seq<Piece>): seq<Cluster> {
    if |ps| == 0 then []
    else (if ps[0].Shipment? then ps[0].clusters else [ps[0].cluster]) + Flatten(ps[1..])
  }

  function Shipments(ps: seq<Piece>): seq<seq<Cluster>> {
    if |ps| == 0 then []
    else (if ps[0].Shipment? then [ps[0].clusters] else []) + Shipments(ps[1..])
  }

  function Blocked(ps: seq<Piece>): seq<Cluster> {
    if |ps| == 0 then []
    else (if ps[0].Shipment? then [] else [ps[0].cluster]) + Blocked(ps[1..])
  }

  predicate ValidPiece(p: Piece, size: nat, limit: Option<real>) {
    match p
    case Shipment(cs) => 0 < |cs| <= size && !Over(Volume(cs), limit)
    case TooBig(c) => Over(c.volume, limit)
  }

  /** A way to ship a cluster list: consecutive pieces within the limits that lose nothing. */
  ghost predicate Cover(ps: seq<Piece>, cs: seq<Cluster>, size: nat, limit: Option<real>) {
    Flatten(ps) == cs && forall p <- ps :: ValidPiece(p, size, limit)
  }

  // ---- pieces and volumes ----

  lemma {:induction false} FlattenConcat(a: seq<Piece>, b: seq<Piece>)
    ensures Flatten(a + b) == Flatten(a) + Flatten(b)
  {
    if |a| == 0 {
      assert a + b == b;
    } else {
      FlattenConcat(a[1..], b);
      ConcatTail(a, b);
    }
  }

  lemma {:induction false} ShipmentsConcat(a: seq<Piece>, b: seq<Piece>)
    ensures Shipments(a + b) == Shipments(a) + Shipments(b)
  {
    if |a| == 0 {
      assert a + b == b;
    } else {
      ShipmentsConcat(a[1..], b);
      ConcatTail(a, b);
    }
  }

  lemma {:induction false} BlockedConcat(a: seq<Piece>, b: seq<Piece>)
    ensures Blocked(a + b) == Blocked(a) + Blocked(b)
  {
    if |a| == 0 {
      assert a + b == b;
    } else {
      BlockedConcat(a[1..], b);
      ConcatTail(a, b);
    }
  }

  lemma OnePiece(p: Piece)
    ensures Flatten([p]) == if p.Shipment? then p.clusters else [p.cluster]
    ensures Shipments([p]) == if p.Shipment? then [p.clusters] else []
    ensures Blocked([p]) == if p.Shipment? then [] else [p.cluster]
  {
    assert [p][1..] == [];
    assert Flatten([]) == [] && Shipments([]) == [] && Blocked([]) == [];
  }

  lemma CloseFacts(current: seq<Cluster>)
    ensures Flatten(Close(current)) == current
    ensures Shipments(Close(current)) == if |current| > 0 then [current] else []
    ensures Blocked(Close(current)) == []
  {
    if |current| > 0 {
      OnePiece(Shipment(current));
    }
  }

  lemma VolumeSnoc(cs: seq<Cluster>, c: Cluster)
    ensures Volume(cs + [c]) == Volume(cs) + c.volume
  {
    SnocInit(cs, c);
  }

  lemma {:induction false} VolumeBounds(cs: seq<Cluster>)
    requires NonnegativeVolumes(cs)
    ensures 0.0 <= Volume(cs)
    ensures forall c <- cs :: c.volume <= Volume(cs)
  {
    if |cs| > 0 {
      InitLast(cs);
      VolumeBounds(cs[..|cs| - 1]);
    }
  }

  lemma {:induction false} VolumeConcat(a: seq<Cluster>, b: seq<Cluster>)
    ensures Volume(a + b) == Volume(a) + Volume(b)
  {
    if |b| == 0 {
      assert a + b == a;
    } else {
      VolumeConcat(a, b[..|b| - 1]);
      ConcatInit(a, b);
    }
  }

  // ---- greedy grouping is a cover ----

  predicate Open(current: seq<Cluster>, size: nat, limit: Option<real>) {
    |current| > 0 ==> ValidPiece(Shipment(current), size, limit)
  }

  lemma CoverConcat(a: seq<Piece>, x: seq<Cluster>, b: seq<Piece>, y: seq<Cluster>, size: nat, limit: Option<real>)
    requires Cover(a, x, size, limit) && Cover(b, y, size, limit)
    ensures Cover(a + b, x + y, size, limit)
  {
    FlattenConcat(a, b);
  }

  lemma CoverClose(current: seq<Cluster>, size: nat, limit: Option<real>)
    requires Open(current, size, limit)
    ensures Cover(Close(current), current, size, limit)
  {
    CloseFacts(current);
  }

  lemma CoverTooBig(c: Cluster, size: nat, limit: Option<real>)
    requires Over(c.volume, limit)
    ensures Cover([TooBig(c)], [c], size, limit)
  {
    OnePiece(TooBig(c));
  }

  lemma OpenWith(current: seq<Cluster>, c: Cluster, size: nat, limit: Option<real>)
    requires 1 <= size && Open(current, size, limit) && !Over(c.volume, limit)
    ensures Open([c], size, limit)
    ensures |current| < size && !Over(Volume(current) + c.volume, limit) ==> Open(current + [c], size, limit)
    ensures |current| == 0 ==> Open(current + [c], size, limit)
  {
    VolumeSnoc([], c);
    assert [] + [c] == [c];
    VolumeSnoc(current, c);
  }

  lemma CoverBlocked(current: seq<Cluster>, c: Cluster, rest: seq<Cluster>, later: seq<Piece>, size: nat, limit: Option<real>)
    requires Open(current, size, limit) && Over(c.volume, limit) && Cover(later, rest, size, limit)
    ensures Cover(Close(current) + [TooBig(c)] + later, current + [c] + rest, size, limit)
  {
    CoverClose(current, size, limit);
    CoverTooBig(c, size, limit);
    CoverConcat(Close(current), current, [TooBig(c)], [c], size, limit);
    CoverConcat(Close(current) + [TooBig(c)], current + [c], later, rest, size, limit);
  }

  lemma CoverClosed(current: seq<Cluster>, next: seq<Cluster>, later: seq<Piece>, size: nat, limit: Option<real>)
    requires Open(current, size, limit) && Cover(later, next, size, limit)
    ensures Cover(Close(current) + later, current + next, size, limit)
  {
    CoverClose(current, size, limit);
    CoverConcat(Close(current), current, later, next, size, limit);
  }

  lemma {:induction false} GreedyCovers(cs: seq<Cluster>, size: nat, limit: Option<real>, current: seq<Cluster>)
    requires 1 <= size && Open(current, size, limit)
    ensures Cover(Greedy(cs, size, limit, current), current + cs, size, limit)
  {
    if |cs| == 0 {
      CoverClose(current, size, limit);
      NoneMore(current);
    } else {
      var c, rest := cs[0], cs[1..];
      HeadTail(cs);
      Associative(current, [c], rest);
      if Over(c.volume, limit) {
        GreedyCovers(rest, size, limit, []);
        EmptyFront(rest);
        CoverBlocked(current, c, rest, Greedy(rest, size, limit, []), size, limit);
      } else {
        OpenWith(current, c, size, limit);
        if |current| > 0 && (|current| >= size || Over(Volume(current) + c.volume, limit)) {
          GreedyCovers(rest, size, limit, [c]);
          CoverClosed(current, [c] + rest, Greedy(rest, size, limit, [c]), size, limit);
        } else {
          GreedyCovers(rest, size, limit, current + [c]);
        }
      }
    }
  }

  lemma StepOfGreedy(cs: seq<Cluster>, i: nat, size: nat, limit: Option<real>, current: seq<Cluster>)
    requires i < |cs|
    ensures var c, rest := cs[i], cs[i + 1..]; var ps := Greedy(cs[i..], size, limit, current);
      var open := if |current| > 0 then [current] else [];
      if Over(c.volume, limit) then
        && Shipments(ps) == open + Shipments(Greedy(rest, size, limit, []))
        && Blocked(ps) == [c] + Blocked(Greedy(rest, size, limit, []))
      else if |current| > 0 && (|current| >= size || Over(Volume(current) + c.volume, limit)) then
        && Shipments(ps) == open + Shipments(Greedy(rest, size, limit, [c]))
        && Blocked(ps) == Blocked(Greedy(rest, size, limit, [c]))
      else ps == Greedy(rest, size, limit, current + [c])
  {
    var c, rest := cs[i], cs[i + 1..];
    assert cs[i..][0] == c && cs[i..][1..] == rest;
    CloseFacts(current);
    if Over(c.volume, limit) {
      ShipmentsConcat(Close(current) + [TooBig(c)], Greedy(rest, size, limit, []));
      BlockedConcat(Close(current) + [TooBig(c)], Greedy(rest, size, limit, []));
      ShipmentsConcat(Close(current), [TooBig(c)]);
      BlockedConcat(Close(current), [TooBig(c)]);
      OnePiece(TooBig(c));
    } else {
      ShipmentsConcat(Close(current), Greedy(rest, size, limit, [c]));
      BlockedConcat(Close(current), Greedy(rest, size, limit, [c]));
    }
  }

  // ---- no cover uses fewer shipments ----

  function Count(ps: seq<Piece>): nat {
    |Shipments(ps)|
  }

  /** How many shipments greedy grouping makes, counted directly. */
  function GreedyCount(cs: seq<Cluster>, size: nat, limit: Option<real>, current: seq<Cluster>): nat {
    var open := if |current| > 0 then 1 else 0;
    if |cs| == 0 then open
    else
      var c := cs[0];
      if Over(c.volume, limit) then open + GreedyCount(cs[1..], size, limit, [])
      else if |current| > 0 && (|current| >= size || Over(Volume(current) + c.volume, limit)) then
        1 + GreedyCount(cs[1..], size, limit, [c])
      else GreedyCount(cs[1..], size, limit, current + [c])
  }

  lemma {:induction false} GreedyCountCounts(cs: seq<Cluster>, i: nat, size: nat, limit: Option<real>, current: seq<Cluster>)
    requires i <= |cs|
    ensures GreedyCount(cs[i..], size, limit, current) == Count(Greedy(cs[i..], size, limit, current))
    decreases |cs| - i
  {
    if i == |cs| {
      CloseFacts(current);
    } else {
      var c := cs[i];
      assert cs[i..][0] == c && cs[i..][1..] == cs[i + 1..];
      StepOfGreedy(cs, i, size, limit, current);
      GreedyCountCounts(cs, i + 1, size, limit, []);
      GreedyCountCounts(cs, i + 1, size, limit, [c]);
      GreedyCountCounts(cs, i + 1, size, limit, current + [c]);
    }
  }

  /** The next cluster of an open shipment: it is not too big, and it keeps a fuller shipment fuller. */
  lemma NextOfOpen(pre: seq<Cluster>, r: seq<Cluster>, current: seq<Cluster>, limit: Option<real>)
    requires |r| > 0 && NonnegativeVolumes(pre + r) && NonnegativeVolumes(current) && !Over(Volume(pre + r), limit)
    ensures var c, r' := r[0], r[1..];
      && (pre + [c]) + r' == pre + r
      && NonnegativeVolumes((pre + [c]) + r') && NonnegativeVolumes(current + [c]) && NonnegativeVolumes([c])
      && !Over(c.volume, limit)
      && Volume(pre + [c]) == Volume(pre) + c.volume && Volume(current + [c]) == Volume(current) + c.volume
      && Volume([c]) == c.volume <= Volume(pre + [c])
      && !Over(Volume(pre + [c]), limit)
  {
    var c, r' := r[0], r[1..];
    assert pre + r == (pre + [c]) + r';
    assert (pre + r)[|pre|] == c;
    VolumeBounds(pre + r);
    VolumeConcat(pre + [c], r');
    assert forall x <- r' :: x in (pre + [c]) + r';
    VolumeBounds(r');
    assert forall x <- pre :: x in pre + r;
    VolumeBounds(pre);
    VolumeSnoc(pre, c);
    VolumeSnoc(current, c);
    VolumeSnoc([], c);
    assert [] + [c] == [c];
  }

  /** A cover with a shipment open that holds `pre` and still takes `r`, and greedy, which holds
      `current` and is either level with the cover and no fuller, or one closed shipment behind. */
  ghost predicate Racing(ps: seq<Piece>, pre: seq<Cluster>, r: seq<Cluster>, current: seq<Cluster>, behind: bool,
                         size: nat, limit: Option<real>) {
    && 1 <= size && NonnegativeVolumes(pre + r) && NonnegativeVolumes(Flatten(ps)) && NonnegativeVolumes(current)
    && |pre| + |r| <= size && !Over(Volume(pre + r), limit)
    && (forall p <- ps :: ValidPiece(p, size, limit))
    && (!behind ==> |current| <= |pre| && Volume(current) <= Volume(pre))
  }

  lemma {:induction false} GreedyKeepsUp(ps: seq<Piece>, pre: seq<Cluster>, r: seq<Cluster>, current: seq<Cluster>, behind: bool,
                                         size: nat, limit: Option<real>)
    requires Racing(ps, pre, r, current, behind, size, limit)
    ensures GreedyCount(r + Flatten(ps), size, limit, current) <= Count(ps) + if behind then 2 else 1
    decreases |ps|, |r|, 1
  {
    if |r| > 0 {
      var c, r' := r[0], r[1..];
      var cs := r + Flatten(ps);
      assert cs[0] == c && cs[1..] == r' + Flatten(ps);
      NextOfOpen(pre, r, current, limit);
      if |current| > 0 && (|current| >= size || Over(Volume(current) + c.volume, limit)) {
        GreedyKeepsUp(ps, pre + [c], r', [c], false, size, limit);
      } else {
        GreedyKeepsUp(ps, pre + [c], r', current + [c], behind, size, limit);
      }
    } else {
      assert r + Flatten(ps) == Flatten(ps);
      GreedyAtPiece(ps, pre, current, behind, size, limit);
    }
  }

  /** The cover's open shipment is full and its next piece begins. */
  lemma {:induction false} GreedyAtPiece(ps: seq<Piece>, pre: seq<Cluster>, current: seq<Cluster>, behind: bool,
                                         size: nat, limit: Option<real>)
    requires Racing(ps, pre, [], current, behind, size, limit)
    ensures GreedyCount(Flatten(ps), size, limit, current) <= Count(ps) + if behind then 2 else 1
    decreases |ps|, 0, 0
  {
    if |ps| > 0 {
      var p, ps' := ps[0], ps[1..];
      assert p in ps && forall x <- ps' :: x in ps;
      if p.Shipment? {
        assert Flatten(ps) == p.clusters + Flatten(ps');
        assert [] + p.clusters == p.clusters;
        GreedyKeepsUp(ps', [], p.clusters, current, true, size, limit);
      } else {
        assert Flatten(ps)[0] == p.cluster && Flatten(ps)[1..] == Flatten(ps');
        GreedyIsMinimalFresh(ps', size, limit);
      }
    }
  }

  lemma {:induction false} GreedyIsMinimalFresh(ps: seq<Piece>, size: nat, limit: Option<real>)
    requires 1 <= size && NonnegativeVolumes(Flatten(ps))
    requires forall p <- ps :: ValidPiece(p, size, limit)
    ensures GreedyCount(Flatten(ps), size, limit, []) <= Count(ps)
    decreases |ps|, 0, 0
  {
    if |ps| > 0 {
      var p, ps' := ps[0], ps[1..];
      assert p in ps;
      assert forall x <- ps' :: x in ps;
      assert Count(ps) == (if p.Shipment? then 1 else 0) + Count(ps');
      if p.Shipment? {
        assert [] + p.clusters == p.clusters;
        GreedyKeepsUp(ps', [], p.clusters, [], false, size, limit);
      } else {
        assert Flatten(ps)[1..] == Flatten(ps');
        GreedyIsMinimalFresh(ps', size, limit);
      }
    }
  }

  /** Greedy grouping loses nothing, keeps the order, respects both limits, sets aside exactly the
      clusters over the limit alone, and no other cover has fewer shipments. */
  lemma GreedyIsBest(cs: seq<Cluster>, size: nat, limit: Option<real>, other: seq<Piece>)
    requires 1 <= size && NonnegativeVolumes(cs)
    ensures var ps := Greedy(cs, size, limit, []);
      && Cover(ps, cs, size, limit)
      && (Cover(other, cs, size, limit) ==> Count(ps) <= Count(other))
  {
    GreedyCovers(cs, size, limit, []);
    assert [] + cs == cs;
    if Cover(other, cs, size, limit) {
      assert cs[0..] == cs;
      GreedyCountCounts(cs, 0, size, limit, []);
      GreedyIsMinimalFresh(other, size, limit);
    }
  }

  /** Blocked means over the limit alone: exactly those clusters, in order. */
  lemma {:induction false} BlockedMeansOver(ps: seq<Piece>, cs: seq<Cluster>, size: nat, limit: Option<real>)
    requires Cover(ps, cs, size, limit) && NonnegativeVolumes(cs)
    ensures Blocked(ps) == OverOnly(cs, limit)
  {
    if |ps| > 0 {
      var p := ps[0];
      assert p in ps;
      assert forall x <- ps[1..] :: x in ps;
      BlockedMeansOver(ps[1..], Flatten(ps[1..]), size, limit);
      if p.Shipment? {
        VolumeBounds(p.clusters);
        OverOnlyConcat(p.clusters, Flatten(ps[1..]), limit);
        NoneOver(p.clusters, limit);
      } else {
        OverOnlyConcat([p.cluster], Flatten(ps[1..]), limit);
      }
    }
  }

  function OverOnly(cs: seq<Cluster>, limit: Option<real>): seq<Cluster> {
    if |cs| == 0 then []
    else (if Over(cs[0].volume, limit) then [cs[0]] else []) + OverOnly(cs[1..], limit)
  }

  lemma {:induction false} OverOnlyConcat(a: seq<Cluster>, b: seq<Cluster>, limit: Option<real>)
    ensures OverOnly(a + b, limit) == OverOnly(a, limit) + OverOnly(b, limit)
  {
    if |a| == 0 {
      assert a + b == b;
    } else {
      OverOnlyConcat(a[1..], b, limit);
      ConcatTail(a, b);
      Associative(if Over(a[0].volume, limit) then [a[0]] else [], OverOnly(a[1..], limit), OverOnly(b, limit));
    }
  }

  lemma {:induction false} NoneOver(cs: seq<Cluster>, limit: Option<real>)
    requires forall c <- cs :: !Over(c.volume, limit)
    ensures OverOnly(cs, limit) == []
  {
    if |cs| > 0 {
      assert cs[0] in cs;
      NoneOver(cs[1..], limit);
    }
  }

  /** What the loop still has to do, from cluster i on, leads to the same groups. */
  ghost predicate Continues(cs: seq<Cluster>, i: nat, size: nat, limit: Option<real>,
                            result: seq<seq<Cluster>>, blocked: seq<Cluster>, current: seq<Cluster>)
    requires i <= |cs|
  {
    var all, rest := Greedy(cs, size, limit, []), Greedy(cs[i..], size, limit, current);
    result + Shipments(rest) == Shipments(all) && blocked + Blocked(rest) == Blocked(all)
  }

  lemma ContinuesStep(cs: seq<Cluster>, i: nat, size: nat, limit: Option<real>,
                      result: seq<seq<Cluster>>, blocked: seq<Cluster>, current: seq<Cluster>)
    requires i < |cs| && Continues(cs, i, size, limit, result, blocked, current)
    ensures var c := cs[i]; var closed := if |current| > 0 then result + [current] else result;
      if Over(c.volume, limit) then Continues(cs, i + 1, size, limit, closed, blocked + [c], [])
      else if |current| > 0 && (|current| >= size || Over(Volume(current) + c.volume, limit)) then
        Continues(cs, i + 1, size, limit, closed, blocked, [c])
      else Continues(cs, i + 1, size, limit, result, blocked, current + [c])
  {
    var c := cs[i];
    StepOfGreedy(cs, i, size, limit, current);
    if Over(c.volume, limit) {
      ClosedContinues(cs, i, size, limit, result, blocked, current, [c], []);
    } else if |current| > 0 && (|current| >= size || Over(Volume(current) + c.volume, limit)) {
      ClosedContinues(cs, i, size, limit, result, blocked, current, [], [c]);
    }
  }

  /** The open group is closed, `more` is blocked, and grouping goes on with `next`. */
  lemma ClosedContinues(cs: seq<Cluster>, i: nat, size: nat, limit: Option<real>, result: seq<seq<Cluster>>,
                        blocked: seq<Cluster>, current: seq<Cluster>, more: seq<Cluster>, next: seq<Cluster>)
    requires i < |cs| && Continues(cs, i, size, limit, result, blocked, current)
    requires var ps, after := Greedy(cs[i..], size, limit, current), Greedy(cs[i + 1..], size, limit, next);
      && Shipments(ps) == (if |current| > 0 then [current] else []) + Shipments(after)
      && Blocked(ps) == more + Blocked(after)
    ensures Continues(cs, i + 1, size, limit, if |current| > 0 then result + [current] else result, blocked + more, next)
    ensures |more| == 0 ==> blocked + more == blocked
  {
    var after := Greedy(cs[i + 1..], size, limit, next);
    Regroup(result, if |current| > 0 then [current] else [], Shipments(after));
    Regroup(blocked, more, Blocked(after));
  }

  lemma Regroup<T>(a: seq<T>, b: seq<T>, c: seq<T>)
    ensures a + b + c == a + (b + c)
    ensures |b| == 0 ==> a + b == a
  {
  }

  /** `_groups`: the loop with its running group and volume. */
  method Groups(cs: seq<Cluster>, size: nat, limit: Option<real>) returns (result: seq<seq<Cluster>>, blocked: seq<Cluster>)
    ensures result == Shipments(Greedy(cs, size, limit, []))
    ensures blocked == Blocked(Greedy(cs, size, limit, []))
  {
    result, blocked := [], [];
    var current: seq<Cluster> := [];
    var currentVolume := 0.0;
    assert cs[0..] == cs;
    for i := 0 to |cs|
      invariant currentVolume == Volume(current)
      invariant Continues(cs, i, size, limit, result, blocked, current)
    {
      var c := cs[i];
      ContinuesStep(cs, i, size, limit, result, blocked, current);
      if Over(c.volume, limit) {
        if |current| > 0 {
          result := result + [current];
        }
        current, currentVolume := [], 0.0;
        blocked := blocked + [c];
      } else {
        if |current| > 0 && (|current| >= size || Over(currentVolume + c.volume, limit)) {
          result := result + [current];
          current, currentVolume := [], 0.0;
        }
        VolumeSnoc(current, c);
        assert |current| == 0 ==> current + [c] == [c];
        current := current + [c];
        currentVolume := currentVolume + c.volume;
      }
    }
    CloseFacts(current);
    if |current| > 0 {
      result := result + [current];
    }
  }
}
