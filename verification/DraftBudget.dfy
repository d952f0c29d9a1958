/** The three sliding budgets of draft creation (backend/ozon/draft_validation.py:209-213). */
module DraftBudget {
  import opened Sequences

  const MINUTE := 60.0
  const HOUR := 3600.0
  const DAY := 86400.0
  const PER_MINUTE := 2
  const PER_HOUR := 50
  const PER_DAY := 500

  // ---- sequences of clock readings ----

  ghost predicate Ordered(ts: seq<real>) {
    forall i, j :: 0 <= i < j < |ts| ==> ts[i] <= ts[j]
  }

  ghost predicate NotAfter(ts: seq<real>, now: real) {
    forall i :: 0 <= i < |ts| ==> ts[i] <= now
  }

  /** How many readings are less than `width` old. */
  function Recent(ts: seq<real>, now: real, width: real): (n: nat)
    ensures n <= |ts|
  {
    if |ts| == 0 then 0
    else Recent(ts[..|ts| - 1], now, width) + if now - ts[|ts| - 1] < width then 1 else 0
  }

  function DropOld(ts: seq<real>, now: real): (r: seq<real>)
    ensures |r| <= |ts| && r == ts[|ts| - |r|..]
    ensures forall i :: 0 <= i < |ts| - |r| ==> now - ts[i] >= DAY
    ensures |r| > 0 ==> now - r[0] < DAY
  {
    if |ts| == 0 || now - ts[0] < DAY then ts
    else
      var r := DropOld(ts[1..], now);
      assert forall i :: 0 < i < |ts| - |r| ==> ts[i] == ts[1..][i - 1];
      r
  }

  predicate Denied(attempts: seq<real>, now: real) {
    || Recent(attempts, now, MINUTE) >= PER_MINUTE
    || Recent(attempts, now, HOUR) >= PER_HOUR
    || |attempts| >= PER_DAY
  }

  // ---- the promise: any `count + 1` readings span at least `width` ----

  ghost predicate Spaced(ts: seq<real>, count: nat, width: real) {
    forall i, j :: 0 <= i && i + count <= j < |ts| ==> ts[j] - ts[i] >= width
  }

  ghost predicate WithinBudget(ts: seq<real>) {
    && Spaced(ts, PER_MINUTE, MINUTE)
    && Spaced(ts, PER_HOUR, HOUR)
    && Spaced(ts, PER_DAY, DAY)
  }

  lemma {:induction false} RecentTail(ts: seq<real>, now: real, width: real, k: nat)
    requires Ordered(ts) && k <= |ts| && (k > 0 ==> now - ts[|ts| - k] < width)
    ensures Recent(ts, now, width) >= k
  {
    if k > 0 {
      var init := ts[..|ts| - 1];
      if k > 1 {
        assert init[|init| - (k - 1)] == ts[|ts| - k];
        assert ts[|ts| - k] <= ts[|ts| - 1];
      }
      RecentTail(init, now, width, k - 1);
    }
  }

  /** All reservations ever made, of which the service remembers only the last ones. */
  ghost predicate Remembers(ts: seq<real>, attempts: seq<real>, now: real) {
    && |attempts| <= |ts| && attempts == ts[|ts| - |attempts|..]
    && (forall i :: 0 <= i < |ts| - |attempts| ==> now - ts[i] >= DAY)
  }

  lemma SpacedSnoc(ts: seq<real>, attempts: seq<real>, now: real, count: nat, width: real)
    requires Ordered(ts) && Remembers(ts, attempts, now) && Spaced(ts, count, width) && 0 < count && width <= DAY
    requires Recent(attempts, now, width) < count
    ensures Spaced(ts + [now], count, width)
  {
    var next := ts + [now];
    if count <= |ts| {
      var i := |ts| - count;
      if now - ts[i] < width {
        assert count <= |attempts|;
        assert attempts[|attempts| - count] == ts[i];
        RecentTail(attempts, now, width, count);
        assert false;
      }
    }
    forall i, j | 0 <= i && i + count <= j < |next| ensures next[j] - next[i] >= width {
      if j == |ts| {
        assert ts[i] <= ts[|ts| - count];
      }
    }
  }

  lemma {:induction false} AllRecent(ts: seq<real>, now: real, width: real)
    requires forall i :: 0 <= i < |ts| ==> now - ts[i] < width
    ensures Recent(ts, now, width) == |ts|
  {
    if |ts| > 0 {
      AllRecent(ts[..|ts| - 1], now, width);
    }
  }

  lemma OrderedSuffix(ts: seq<real>, k: nat)
    requires Ordered(ts) && k <= |ts|
    ensures Ordered(ts[k..])
  {
  }

  lemma KeptAreRecent(attempts: seq<real>, now: real)
    requires Ordered(attempts)
    ensures Recent(DropOld(attempts, now), now, DAY) == |DropOld(attempts, now)|
  {
    var kept := DropOld(attempts, now);
    OrderedSuffix(attempts, |attempts| - |kept|);
    forall i | 0 <= i < |kept| ensures now - kept[i] < DAY {
      assert kept[0] <= kept[i];
    }
    AllRecent(kept, now, DAY);
  }

  lemma NotAfterSnoc(ts: seq<real>, now: real)
    requires NotAfter(ts, now)
    ensures NotAfter(ts + [now], now)
  {
  }

  lemma RemembersSnoc(ts: seq<real>, attempts: seq<real>, now: real)
    requires Ordered(ts) && NotAfter(ts, now) && Remembers(ts, attempts, now)
    ensures Ordered(ts + [now]) && Remembers(ts + [now], attempts + [now], now)
  {
  }

  lemma GrantKeepsSpacing(ts: seq<real>, kept: seq<real>, now: real)
    requires Ordered(ts) && Remembers(ts, kept, now) && WithinBudget(ts)
    requires Recent(kept, now, MINUTE) < PER_MINUTE && Recent(kept, now, HOUR) < PER_HOUR && Recent(kept, now, DAY) < PER_DAY
    ensures WithinBudget(ts + [now])
  {
    SpacedSnoc(ts, kept, now, PER_MINUTE, MINUTE);
    SpacedSnoc(ts, kept, now, PER_HOUR, HOUR);
    SpacedSnoc(ts, kept, now, PER_DAY, DAY);
  }

  lemma KeptGrantsBudget(ts: seq<real>, kept: seq<real>, now: real)
    requires Ordered(ts) && NotAfter(ts, now) && Remembers(ts, kept, now) && WithinBudget(ts)
    requires !Denied(kept, now) && Recent(kept, now, DAY) == |kept|
    ensures Remembers(ts + [now], kept + [now], now)
    ensures Ordered(ts + [now]) && WithinBudget(ts + [now])
  {
    GrantKeepsSpacing(ts, kept, now);
    RemembersSnoc(ts, kept, now);
  }

  /** A granted reservation keeps all three budgets over the whole history, although the service has
      forgotten the readings older than a day. */
  lemma GrantKeepsBudget(ts: seq<real>, attempts: seq<real>, now: real)
    requires Ordered(ts) && NotAfter(ts, now) && Remembers(ts, attempts, now) && WithinBudget(ts)
    requires !Denied(DropOld(attempts, now), now)
    ensures Remembers(ts + [now], DropOld(attempts, now) + [now], now)
    ensures Ordered(ts + [now]) && WithinBudget(ts + [now])
  {
    var kept := DropOld(attempts, now);
    assert Remembers(ts, kept, now) by {
      DropRemembers(ts, attempts, now);
    }
    assert Recent(kept, now, DAY) == |kept| by {
      OrderedSuffix(ts, |ts| - |attempts|);
      KeptAreRecent(attempts, now);
    }
    KeptGrantsBudget(ts, kept, now);
  }

  lemma DropRemembers(ts: seq<real>, attempts: seq<real>, now: real)
    requires Remembers(ts, attempts, now)
    ensures Remembers(ts, DropOld(attempts, now), now)
  {
    var kept := DropOld(attempts, now);
    assert kept == ts[|ts| - |kept|..];
    forall i | 0 <= i < |ts| - |kept| ensures now - ts[i] >= DAY {
      if i >= |ts| - |attempts| {
        assert ts[i] == attempts[i - (|ts| - |attempts|)];
      }
    }
  }

  /** `while self._create_attempts and ...: popleft()` */
  method Prune(attempts: seq<real>, now: real) returns (kept: seq<real>)
    ensures kept == DropOld(attempts, now)
  {
    kept := attempts;
    while |kept| > 0 && now - kept[0] >= DAY
      invariant DropOld(kept, now) == DropOld(attempts, now)
      decreases |kept|
    {
      kept := kept[1..];
    }
  }

  /** `sum(now-x<width for x in self._create_attempts)` */
  method CountRecent(attempts: seq<real>, now: real, width: real) returns (n: nat)
    ensures n == Recent(attempts, now, width)
  {
    n := 0;
    for i := 0 to |attempts|
      invariant n == Recent(attempts[..i], now, width)
    {
      TakeTake(attempts, i);
      if now - attempts[i] < width {
        n := n + 1;
      }
    }
    TakeAll(attempts);
  }

  /** `_reserve_create_slot_locked` */
  method ReserveSlot(attempts: seq<real>, now: real) returns (granted: bool, kept: seq<real>)
    ensures granted == !Denied(DropOld(attempts, now), now)
    ensures kept == DropOld(attempts, now) + if granted then [now] else []
  {
    kept := Prune(attempts, now);
    var minute := CountRecent(kept, now, MINUTE);
    var hour := CountRecent(kept, now, HOUR);
    granted := minute < PER_MINUTE && hour < PER_HOUR && |kept| < PER_DAY;
    if granted {
      kept := kept + [now];
    }
  }

  // ---- what the budgets mean ----

  /** How many readings fall into the half-open window from `lo` to `hi`. */
  function InWindow(ts: seq<real>, lo: real, hi: real): (n: nat)
    ensures n <= |ts|
  {
    if |ts| == 0 then 0
    else InWindow(ts[..|ts| - 1], lo, hi) + if lo <= ts[|ts| - 1] < hi then 1 else 0
  }

  lemma {:induction false} WindowAfter(ts: seq<real>, lo: real, hi: real, k: nat)
    requires k <= |ts| && forall i :: 0 <= i < |ts| - k ==> ts[i] < lo
    ensures InWindow(ts, lo, hi) <= k
  {
    if |ts| > 0 {
      WindowAfter(ts[..|ts| - 1], lo, hi, if k == 0 then 0 else k - 1);
    }
  }

  /** However the window is placed, it holds at most `count` readings. */
  lemma {:induction false} WindowHolds(ts: seq<real>, count: nat, width: real, lo: real)
    requires Ordered(ts) && Spaced(ts, count, width)
    ensures InWindow(ts, lo, lo + width) <= count
  {
    if |ts| > 0 {
      var n := |ts| - 1;
      if lo <= ts[n] < lo + width {
        if count <= n {
          assert ts[n] - ts[n - count] >= width;
          assert forall i :: 0 <= i < |ts| - count - 1 ==> ts[i] <= ts[n - count];
          assert forall i :: 0 <= i < |ts| - count ==> ts[i] < lo;
          WindowAfter(ts, lo, lo + width, count);
        }
      } else {
        WindowHolds(ts[..n], count, width, lo);
      }
    }
  }

  /** At most 2 creations in any minute, 50 in any hour and 500 in any day. */
  lemma BudgetsHold(ts: seq<real>, lo: real)
    requires Ordered(ts) && WithinBudget(ts)
    ensures InWindow(ts, lo, lo + MINUTE) <= PER_MINUTE
    ensures InWindow(ts, lo, lo + HOUR) <= PER_HOUR
    ensures InWindow(ts, lo, lo + DAY) <= PER_DAY
  {
    WindowHolds(ts, PER_MINUTE, MINUTE, lo);
    WindowHolds(ts, PER_HOUR, HOUR, lo);
    WindowHolds(ts, PER_DAY, DAY, lo);
  }
}
