/** Which tenants one scheduled window probes: a rotation that starves nobody. */
module TenantRotation {

  const WINDOW_SECONDS: nat := 300

  function Window(now: int): nat {
    if now < 0 then 0 else now / WINDOW_SECONDS
  }

  function Take(limit: nat, n: nat): nat { if limit < n then limit else n }

  /** `cycle`, `skip` by the window, `take` at most every tenant once. */
  function InWindow(tenants: seq<string>, window: nat, limit: nat): seq<string> {
    if tenants == [] then [] else
    var n := |tenants|;
    seq(Take(limit, n), i requires 0 <= i < Take(limit, n) => tenants[(window % n + i) % n])
  }

  function ScheduledTenants(tenants: seq<string>, now: int, limit: nat): seq<string> {
    InWindow(tenants, Window(now), limit)
  }

  ghost predicate Distinct(tenants: seq<string>) {
    forall i, j :: 0 <= i < j < |tenants| ==> tenants[i] != tenants[j]
  }

  lemma SmallMultipleIsZero(n: int, d: int)
    requires n > 0 && -n < n * d < n
    ensures d == 0
  {
  }

  lemma RemainderIsUnique(n: int, x: int, q: int, r: int)
    requires n > 0 && x == n * q + r && 0 <= r < n
    ensures x % n == r
  {
    var d := q - x / n;
    assert n * d == n * q - n * (x / n);
    SmallMultipleIsZero(n, d);
  }

  lemma ModIsUnique(n: int, x: int, y: int)
    requires n > 0 && x % n == y % n && -n < x - y < n
    ensures x == y
  {
    var d := x / n - y / n;
    assert n * d == n * (x / n) - n * (y / n);
    SmallMultipleIsZero(n, d);
  }

  lemma ModAbsorbs(n: int, x: int, i: int)
    requires n > 0
    ensures (x % n + i) % n == (x + i) % n
  {
    var q := x / n;
    assert x == n * q + x % n;
    var a := x % n + i;
    var b := x + i;
    assert b == a + n * q;
    var r := a / n;
    assert a == n * r + a % n;
    assert b == n * (r + q) + a % n;
    RemainderIsUnique(n, b, r + q, a % n);
  }

  /** No window probes a tenant twice, and it probes as many as the limit allows. */
  lemma WindowIsDistinct(tenants: seq<string>, window: nat, limit: nat)
    requires Distinct(tenants)
    ensures Distinct(InWindow(tenants, window, limit))
    ensures |InWindow(tenants, window, limit)| == Take(limit, |tenants|)
  {
    var n := |tenants|;
    var w := InWindow(tenants, window, limit);
    forall i, j | 0 <= i < j < |w|
      ensures w[i] != w[j]
    {
      var a := (window % n + i) % n;
      var b := (window % n + j) % n;
      if a == b {
        ModIsUnique(n, window % n + i, window % n + j);
      }
    }
  }

  /** The window, counted from `first`, that puts the tenant at `j` in place `i`. */
  function WindowOf(n: nat, first: nat, j: nat, i: nat): int
    requires n > 0
  {
    (j - first - i) % n
  }

  lemma WindowOfMeans(n: nat, first: nat, j: nat, i: nat, k: nat)
    requires n > 0 && j < n && i < n && k < n
    ensures WindowOf(n, first, j, i) == k <==> (first + k + i) % n == j
  {
    var x := j - first - i;
    if x % n == k {
      var q := x / n;
      assert x == n * q + k;
      assert n * (-q) == -(n * q);
      assert first + k + i == n * (-q) + j;
      RemainderIsUnique(n, first + k + i, -q, j);
    }
    if (first + k + i) % n == j {
      var q := (first + k + i) / n;
      assert first + k + i == n * q + j;
      assert n * (-q) == -(n * q);
      assert x == n * (-q) + k;
      RemainderIsUnique(n, x, -q, k);
    }
  }

  /** The windows that put the tenant at `j` in one of the first `m` places. */
  function Windows(n: nat, first: nat, j: nat, m: nat): set<int>
    requires n > 0
  {
    if m == 0 then {} else Windows(n, first, j, m - 1) + {WindowOf(n, first, j, m - 1)}
  }

  lemma {:induction false} WindowsCount(n: nat, first: nat, j: nat, m: nat)
    requires n > 0 && m <= n
    ensures |Windows(n, first, j, m)| == m
    ensures forall k :: k in Windows(n, first, j, m) <==> PlacedIn(n, first, j, m, k)
  {
    if m > 0 {
      WindowsCount(n, first, j, m - 1);
      var last := WindowOf(n, first, j, m - 1);
      forall i: nat | i < m - 1
        ensures WindowOf(n, first, j, i) != last
      {
        if WindowOf(n, first, j, i) == last {
          ModIsUnique(n, j - first - i, j - first - (m - 1));
        }
      }
      forall k
        ensures k in Windows(n, first, j, m) <==> PlacedIn(n, first, j, m, k)
      {
        if i: nat :| i < m && k == WindowOf(n, first, j, i) {
          assert i < m - 1 || k == last;
        }
      }
    }
  }

  predicate Probes(tenants: seq<string>, first: nat, m: nat, tenant: string, k: int) {
    0 <= k && tenant in InWindow(tenants, first + k, m)
  }

  /** The windows among `n` consecutive ones that probe a tenant among their first `m`. */
  ghost function ProbingWindows(tenants: seq<string>, first: nat, m: nat, tenant: string): set<int> {
    set k: int | 0 <= k < |tenants| && Probes(tenants, first, m, tenant, k)
  }

  /** The tenant in place `i` of a window is the one `i` further on in the cycle. */
  lemma Element(tenants: seq<string>, window: nat, m: nat, i: nat, place: nat)
    requires i < m <= |tenants|
    requires place == (window + i) % |tenants|
    ensures i < |InWindow(tenants, window, m)| && place < |tenants|
    ensures InWindow(tenants, window, m)[i] == tenants[place]
  {
    ModAbsorbs(|tenants|, window, i);
  }

  lemma PlaceAt(tenants: seq<string>, first: nat, m: nat, j: nat, k: nat, i: nat)
    requires Distinct(tenants) && i < m <= |tenants| && j < |tenants| && k < |tenants|
    ensures i < |InWindow(tenants, first + k, m)|
    ensures InWindow(tenants, first + k, m)[i] == tenants[j] <==> WindowOf(|tenants|, first, j, i) == k
  {
    hide WindowOf, InWindow;
    WindowOfMeans(|tenants|, first, j, i, k);
    var place := (first + k + i) % |tenants|;
    Element(tenants, first + k, m, i, place);
  }

  ghost predicate PlacedIn(n: nat, first: nat, j: nat, m: nat, k: int)
    requires n > 0
  {
    exists i: nat :: i < m && k == WindowOf(n, first, j, i)
  }

  lemma PlaceInWindow(tenants: seq<string>, first: nat, m: nat, j: nat, k: nat)
    requires Distinct(tenants) && m <= |tenants| && j < |tenants| && k < |tenants|
    ensures tenants[j] in InWindow(tenants, first + k, m) <==> PlacedIn(|tenants|, first, j, m, k)
  {
    hide WindowOf;
    var n := |tenants|;
    var w := InWindow(tenants, first + k, m);
    if tenants[j] in w {
      var i :| 0 <= i < |w| && w[i] == tenants[j];
      PlaceAt(tenants, first, m, j, k, i);
    }
    if i: nat :| i < m && k == WindowOf(n, first, j, i) {
      PlaceAt(tenants, first, m, j, k, i);
      assert w[i] in w;
    }
  }

  /** In any `n` consecutive windows each of `n` distinct tenants is probed exactly `min(limit, n)` times. */
  lemma WindowsAreExact(tenants: seq<string>, first: nat, limit: nat, j: nat)
    requires Distinct(tenants) && j < |tenants|
    ensures |ProbingWindows(tenants, first, limit, tenants[j])| == Take(limit, |tenants|)
  {
    var n := |tenants|;
    var m := Take(limit, n);
    WindowsCount(n, first, j, m);
    forall k
      ensures k in ProbingWindows(tenants, first, limit, tenants[j]) <==> k in Windows(n, first, j, m)
    {
      if 0 <= k < n {
        assert InWindow(tenants, first + k, limit) == InWindow(tenants, first + k, m);
        PlaceInWindow(tenants, first, m, j, k);
      }
    }
    assert ProbingWindows(tenants, first, limit, tenants[j]) == Windows(n, first, j, m);
  }

  // ------------------------------------------------------ clock readings

  /** One reading of the clock in each of consecutive 300 second slots, at any second of the slot. */
  predicate OnePerSlot(readings: seq<int>, first: nat) {
    forall k | 0 <= k < |readings| :: 300 * (first + k) <= readings[k] < 300 * (first + k) + 300
  }

  lemma WindowOfReading(now: int, slot: nat)
    requires 300 * slot <= now < 300 * slot + 300
    ensures Window(now) == slot
  {
  }

  /** In the slot of number `slot` the pass goes through the cycle of tenants from that number on. */
  lemma SlotSchedule(tenants: seq<string>, now: int, slot: nat, limit: nat)
    requires tenants != [] && 300 * slot <= now < 300 * slot + 300
    ensures var scheduled := ScheduledTenants(tenants, now, limit);
            && |scheduled| == (if limit < |tenants| then limit else |tenants|)
            && forall i :: 0 <= i < |scheduled| ==> scheduled[i] == tenants[(slot + i) % |tenants|]
  {
    WindowOfReading(now, slot);
    forall i | 0 <= i < |ScheduledTenants(tenants, now, limit)|
      ensures ScheduledTenants(tenants, now, limit)[i] == tenants[(slot + i) % |tenants|]
    {
      ModAbsorbs(|tenants|, slot, i);
    }
  }

  /** Readings before the epoch count as its start, where the first tenant comes first. */
  lemma EpochSchedule(tenants: seq<string>, now: int, limit: nat)
    requires tenants != [] && limit > 0 && now <= 0
    ensures ScheduledTenants(tenants, now, limit) == ScheduledTenants(tenants, 0, limit)
    ensures ScheduledTenants(tenants, now, limit)[0] == tenants[0]
  {
    SlotSchedule(tenants, 0, 0, limit);
    assert Window(now) == Window(0);
  }

  /** All passes of one slot schedule the same tenants, and none twice. */
  lemma SlotIsOneSchedule(tenants: seq<string>, now: int, later: int, slot: nat, limit: nat)
    requires Distinct(tenants)
    requires 300 * slot <= now < 300 * slot + 300 && 300 * slot <= later < 300 * slot + 300
    ensures ScheduledTenants(tenants, now, limit) == ScheduledTenants(tenants, later, limit)
    ensures Distinct(ScheduledTenants(tenants, now, limit))
  {
    WindowOfReading(now, slot);
    WindowOfReading(later, slot);
    WindowIsDistinct(tenants, slot, limit);
  }

  /** The passes whose schedule holds this tenant. */
  function PassesFor(tenants: seq<string>, readings: seq<int>, limit: nat, tenant: string): set<int> {
    set k: int | 0 <= k < |readings| && tenant in ScheduledTenants(tenants, readings[k], limit)
  }

  /** The passes whose schedule this tenant heads. */
  function PassesLedBy(tenants: seq<string>, readings: seq<int>, limit: nat, tenant: string): set<int> {
    set k: int | 0 <= k < |readings| && [tenant] <= ScheduledTenants(tenants, readings[k], limit)
  }

  /**
   * Of `n` passes, one in each of `n` consecutive slots of 300 seconds, exactly `min(limit, n)`
   * schedule any one of `n` distinct tenants.
   */
  lemma RotationIsExact(tenants: seq<string>, readings: seq<int>, first: nat, limit: nat, j: nat)
    requires Distinct(tenants) && j < |tenants| == |readings| && OnePerSlot(readings, first)
    ensures |PassesFor(tenants, readings, limit, tenants[j])| == if limit < |tenants| then limit else |tenants|
  {
    hide InWindow;
    WindowsAreExact(tenants, first, limit, j);
    forall k | 0 <= k < |readings|
      ensures ScheduledTenants(tenants, readings[k], limit) == InWindow(tenants, first + k, limit)
    {
      WindowOfReading(readings[k], first + k);
    }
    assert PassesFor(tenants, readings, limit, tenants[j]) == ProbingWindows(tenants, first, limit, tenants[j]);
  }

  /** Among the same passes each tenant comes first exactly once. */
  lemma EachLeadsOnce(tenants: seq<string>, readings: seq<int>, first: nat, limit: nat, j: nat)
    requires Distinct(tenants) && j < |tenants| == |readings| && OnePerSlot(readings, first) && limit > 0
    ensures |PassesLedBy(tenants, readings, limit, tenants[j])| == 1
  {
    hide InWindow, Window;
    RotationIsExact(tenants, readings, first, 1, j);
    forall k | 0 <= k < |readings|
      ensures [tenants[j]] <= ScheduledTenants(tenants, readings[k], limit) <==>
              tenants[j] in ScheduledTenants(tenants, readings[k], 1)
    {
      SlotSchedule(tenants, readings[k], first + k, limit);
      SlotSchedule(tenants, readings[k], first + k, 1);
      var one := ScheduledTenants(tenants, readings[k], 1);
      var all := ScheduledTenants(tenants, readings[k], limit);
      assert |one| == 1 && |all| > 0;
      assert one[0] == tenants[(first + k + 0) % |tenants|] == all[0];
    }
    assert PassesLedBy(tenants, readings, limit, tenants[j]) == PassesFor(tenants, readings, 1, tenants[j]);
  }
}
