/**
 * Bounded bypass: claims serve the earliest due watch and every completion moves a watch strictly
 * behind the ones that are waiting, so a waiting watch is overtaken at most once by each watch ahead of it.
 */
module Fairness {
  import opened Wrappers
  import opened StoreModel
  import opened Protocol
  import S = SqliteCompletion
  import D = D1Completion

  /** The watch a claim of this tenant takes. */
  ghost function Taken(t: Tables, op: Op, tenant: string): Option<WatchKey> {
    if op.OpClaim? && op.claim.tenant == tenant then ClaimWatch(t, op.claim).1 else None
  }

  /** A claim that retakes a lease its owner let expire. */
  ghost predicate Retakes(t: Tables, op: Op, tenant: string) {
    var k := Taken(t, op, tenant);
    k.Some? && t.watches[k.value].lease.Some?
  }

  predicate Creates(t: Tables, op: Op, tenant: string) {
    op.OpCreate? && op.create.watch.tenant == tenant && op.create.watch !in t.watches
  }

  /** Unleased watches of the tenant that the due order puts before `w`. */
  function Ahead(t: Tables, w: WatchKey): set<WatchKey>
    requires w in t.watches
  {
    set x | x in t.watches && x.tenant == w.tenant && x != w && t.watches[x].enabled && t.watches[x].lease.None?
            && DueBefore(x, t.watches[x], w, t.watches[w])
  }

  /** No operation of the run takes or deletes the watch. */
  ghost predicate PassesOver(t: Tables, ops: seq<Op>, w: WatchKey)
    decreases |ops|
  {
    ops == [] || (ops[0] != OpDelete(w) && Taken(t, ops[0], w.tenant) != Some(w) && PassesOver(Apply(t, ops[0]), ops[1..], w))
  }

  ghost function Claims(t: Tables, ops: seq<Op>, tenant: string): nat
    decreases |ops|
  {
    if ops == [] then 0
    else (if Taken(t, ops[0], tenant).Some? then 1 else 0) + Claims(Apply(t, ops[0]), ops[1..], tenant)
  }

  /** Claims of expired leases, and watches created meanwhile. */
  ghost function Disturbances(t: Tables, ops: seq<Op>, tenant: string): nat
    decreases |ops|
  {
    if ops == [] then 0
    else (if Retakes(t, ops[0], tenant) || Creates(t, ops[0], tenant) then 1 else 0)
         + Disturbances(Apply(t, ops[0]), ops[1..], tenant)
  }

  /** A claim whose reading is older than the expiry of the waiting watch's own last lease, so that it cannot see it as free. */
  predicate Overlooks(t: Tables, op: Op, w: WatchKey) {
    op.OpClaim? && w in t.watches && !LeaseFree(t.watches[w].lease, op.claim.now)
  }

  ghost function Overlooking(t: Tables, ops: seq<Op>, w: WatchKey): nat
    decreases |ops|
  {
    if ops == [] then 0
    else (if Overlooks(t, ops[0], w) then 1 else 0) + Overlooking(Apply(t, ops[0]), ops[1..], w)
  }

  /** A waiting watch keeps its row until it is claimed or deleted. */
  lemma WaitingRowStays(t: Tables, clock: int, op: Op, w: WatchKey)
    requires clock <= Reading(clock, op)
    requires w in t.watches && Claimable(t.watches[w], clock)
    requires op != OpDelete(w) && Taken(t, op, w.tenant) != Some(w)
    ensures w in Apply(t, op).watches && Apply(t, op).watches[w] == t.watches[w]
    ensures Claimable(t.watches[w], Reading(clock, op))
  {
    hide S.Complete, D.Complete, ClaimDelivery, SettleDelivery, ValidWatchKey, ValidStart, ValidClaim, ValidCreate;
    if op.OpClaimDelivery? || op.OpSettle? {
      DeliveryOpsFrame(t, op);
    } else if Completes(op) {
      CompletionPasses(t, clock, op, w);
    }
  }

  /** A completion works under a live lease, so it passes over a claimable watch. */
  lemma CompletionPasses(t: Tables, clock: int, op: Op, w: WatchKey)
    requires Completes(op) && clock <= Reading(clock, op)
    requires w in t.watches && Claimable(t.watches[w], clock)
    ensures w in Apply(t, op).watches && Apply(t, op).watches[w] == t.watches[w]
  {
    hide Apply, Commits, Queue, NamesNew;
    if Commits(t, op) {
      CommitEffect(t, op);
    } else {
      NoCommitEffect(t, op);
    }
  }

  lemma ClaimShrinksAhead(t: Tables, clock: int, req: ClaimDueWatch, w: WatchKey)
    requires w in t.watches && Claimable(t.watches[w], clock)
    requires Taken(t, OpClaim(req), w.tenant) != Some(w)
    ensures w in Apply(t, OpClaim(req)).watches
    ensures Ahead(Apply(t, OpClaim(req)), w) <= Ahead(t, w)
    ensures var k := Taken(t, OpClaim(req), w.tenant);
            k.Some? && t.watches[k.value].lease.None? && !Overlooks(t, OpClaim(req), w) ==>
              k.value in Ahead(t, w) && k.value !in Ahead(Apply(t, OpClaim(req)), w)
  {
    WaitingRowStays(t, clock, OpClaim(req), w);
    var k := Taken(t, OpClaim(req), w.tenant);
    if k.Some? && !Overlooks(t, OpClaim(req), w) {
      if t.watches[w].nextDue <= req.now {
        assert w in ClaimableKeys(t.watches, w.tenant, req.now);
      }
      assert DueBefore(k.value, t.watches[k.value], w, t.watches[w]);
    }
  }

  /** A completed watch is due strictly after every watch that is due now. */
  lemma CompletionShrinksAhead(t: Tables, clock: int, op: Op, w: WatchKey)
    requires Completes(op) && SchedulingSound(t, clock) && clock <= Reading(clock, op)
    requires w in t.watches && Claimable(t.watches[w], clock)
    ensures w in Apply(t, op).watches
    ensures Ahead(Apply(t, op), w) <= Ahead(t, w)
  {
    hide Apply, Commits, Queue, NamesNew;
    CompletionPasses(t, clock, op, w);
    if Commits(t, op) {
      var u := Apply(t, op);
      var req := op.complete;
      CommitEffect(t, op);
      assert WatchSound(t.watches[req.watch], clock);
      assert u.watches[req.watch].nextDue > t.watches[w].nextDue;
    } else {
      CommitsOrNothing(t, clock, op);
    }
  }

  lemma CardinalityOfSubset<K>(a: set<K>, b: set<K>)
    requires a <= b
    ensures |a| <= |b|
  {
    if a != {} {
      var x :| x in a;
      CardinalityOfSubset(a - {x}, b - {x});
    }
  }

  lemma CreationAhead(t: Tables, req: CreateWatch, w: WatchKey)
    requires w in t.watches
    ensures var u := Apply(t, OpCreate(req));
            && w in u.watches && u.watches[w] == t.watches[w]
            && |Ahead(u, w)| <= |Ahead(t, w)| + (if Creates(t, OpCreate(req), w.tenant) then 1 else 0)
  {
    hide ValidInterval, DueBefore;
    var u := Apply(t, OpCreate(req));
    var before := Ahead(t, w);
    var after := Ahead(u, w);
    if u != t {
      assert u.watches == t.watches[req.watch := IntoWatch(req)];
      assert forall x | x in after - {req.watch} :: x in before;
      CardinalityOfSubset(after - {req.watch}, before);
      if req.watch.tenant != w.tenant {
        assert req.watch !in after;
        assert after - {req.watch} == after;
      }
    }
  }

  lemma AheadStep(t: Tables, clock: int, op: Op, w: WatchKey)
    requires SchedulingSound(t, clock) && clock <= Reading(clock, op)
    requires w in t.watches && Claimable(t.watches[w], clock)
    requires op != OpDelete(w) && Taken(t, op, w.tenant) != Some(w)
    ensures w in Apply(t, op).watches
    ensures (if Taken(t, op, w.tenant).Some? then 1 else 0) + |Ahead(Apply(t, op), w)|
            <= |Ahead(t, w)| + (if Retakes(t, op, w.tenant) || Creates(t, op, w.tenant) then 1 else 0)
               + (if Overlooks(t, op, w) then 1 else 0)
  {
    hide SchedulingSound, ClaimWatch, InsertWatch, S.Complete, D.Complete, ClaimDelivery, SettleDelivery, ValidWatchKey;
    WaitingRowStays(t, clock, op, w);
    var before := Ahead(t, w);
    var after := Ahead(Apply(t, op), w);
    match op {
      case OpClaim(req) =>
        ClaimShrinksAhead(t, clock, req, w);
        var k := Taken(t, op, w.tenant);
        if k.Some? && !Retakes(t, op, w.tenant) && !Overlooks(t, op, w) {
          CardinalityOfSubset(after, before - {k.value});
        } else {
          CardinalityOfSubset(after, before);
        }
      case OpComplete(_) =>
        CompletionShrinksAhead(t, clock, op, w);
        CardinalityOfSubset(after, before);
      case OpBatch(_, _) =>
        CompletionShrinksAhead(t, clock, op, w);
        CardinalityOfSubset(after, before);
      case OpCreate(req) =>
        CreationAhead(t, req, w);
      case OpDelete(wk) =>
        CardinalityOfSubset(after, before);
      case OpStart(_) =>
        assert after == before;
      case _ =>
        DeliveryOpsFrame(t, op);
        assert after == before;
    }
  }

  /**
   * While a due watch waits, the tenant's claims number at most the watches ahead of it at the
   * start, plus one for every expired lease retaken, every watch created meanwhile, and every claim
   * that still takes the watch's own expired lease for live.
   */
  lemma {:induction false} BypassIsBounded(t: Tables, clock: int, ops: seq<Op>, w: WatchKey)
    requires Sound(t, clock) && Timed(clock, ops)
    requires w in t.watches && Claimable(t.watches[w], clock)
    requires PassesOver(t, ops, w)
    ensures Claims(t, ops, w.tenant) <= |Ahead(t, w)| + Disturbances(t, ops, w.tenant) + Overlooking(t, ops, w)
    decreases |ops|
  {
    if ops != [] {
      var op := ops[0];
      WaitingRowStays(t, clock, op, w);
      AheadStep(t, clock, op, w);
      SoundStep(t, clock, op);
      BypassIsBounded(Apply(t, op), Reading(clock, op), ops[1..], w);
    }
  }

  /** Every claim carries a reading of the clock as it is. */
  predicate Prompt(clock: int, ops: seq<Op>)
    decreases |ops|
  {
    ops == [] || ((ops[0].OpClaim? ==> clock <= ops[0].claim.now) && Prompt(Reading(clock, ops[0]), ops[1..]))
  }

  /** A watch that is not leased is never overlooked, and no watch is by claims that read the clock as they run. */
  lemma {:induction false} NeverOverlooked(t: Tables, clock: int, ops: seq<Op>, w: WatchKey)
    requires Timed(clock, ops) && PassesOver(t, ops, w)
    requires w in t.watches && Claimable(t.watches[w], clock)
    requires t.watches[w].lease.None? || Prompt(clock, ops)
    ensures Overlooking(t, ops, w) == 0
    decreases |ops|
  {
    hide Apply;
    if ops != [] {
      WaitingRowStays(t, clock, ops[0], w);
      NeverOverlooked(Apply(t, ops[0]), Reading(clock, ops[0]), ops[1..], w);
    }
  }

  /** While a watch is claimable, no valid claim of its tenant comes back empty-handed. */
  lemma WaitingWatchFeedsClaims(t: Tables, req: ClaimDueWatch, w: WatchKey)
    requires w in t.watches && Claimable(t.watches[w], req.now)
    requires req.tenant == w.tenant && ValidClaim(req)
    ensures Taken(t, OpClaim(req), w.tenant).Some?
    ensures var k := Taken(t, OpClaim(req), w.tenant).value;
            k == w || DueBefore(k, t.watches[k], w, t.watches[w])
  {
    assert w in ClaimableKeys(t.watches, w.tenant, req.now);
  }
}
