/**
 * What the store's operations leave, column by column, as relations between the tables before and
 * after. They name no function that computes a row, so each one is a second description of its operation.
 */
module Effects {
  import opened Wrappers
  import opened Records
  import opened StoreModel
  import Ordering

  // ------------------------------------------------------------ validation

  /** ASCII letters and digits, and four punctuation marks. */
  predicate InAlphabet(c: char) {
    65 <= c as int <= 90 || 97 <= c as int <= 122 || 48 <= c as int <= 57 || c in "-_.:"
  }

  /** Tokens are written in one alphabet; tenants take up to 128 characters, other ids up to 160. */
  lemma TokensUseTheAlphabet(s: string)
    ensures ValidTenant(s) <==> 1 <= |s| <= 128 && forall c | c in s :: InAlphabet(c)
    ensures ValidId(s) <==> 1 <= |s| <= 160 && forall c | c in s :: InAlphabet(c)
  {
    assert forall c: char :: TokenChar(c) <==> InAlphabet(c);
    hide TokenChar, InAlphabet;
    assert TokenChars(s) <==> forall c | c in s :: TokenChar(c);
  }

  ghost predicate Token(s: string, limit: nat) { 1 <= |s| <= limit && forall c | c in s :: InAlphabet(c) }

  /** What each request is checked for before any statement runs. */
  lemma RequestsAreChecked(
    create: CreateWatch, claim: ClaimDueWatch, start: StartWatchRun, complete: CompleteWatchRun,
    claimDelivery: ClaimPendingDelivery, settle: CompleteDelivery)
    ensures ValidCreate(create) <==> (
              && Token(create.watch.tenant, 128) && Token(create.watch.watch, 160)
              && 1 <= create.interval <= 31_536_000 && create.documents)
    ensures ValidClaim(claim) <==> Token(claim.tenant, 128) && Token(claim.owner, 160) && 1 <= claim.leaseSeconds <= 31_536_000
    ensures ValidStart(start) <==> (
              && Token(start.watch.tenant, 128) && Token(start.watch.watch, 160) && Token(start.run, 160)
              && Token(start.idempotency, 160) && Token(start.owner, 160))
    ensures ValidCompletion(complete) <==> (
              && Token(complete.watch.tenant, 128) && Token(complete.watch.watch, 160)
              && Token(complete.run, 160) && Token(complete.owner, 160) && complete.documents
              && (complete.delivery.Some? ==> Token(complete.delivery.value.delivery, 160)))
    ensures ValidDeliveryClaim(claimDelivery) <==> (
              && Token(claimDelivery.tenant, 128) && Token(claimDelivery.owner, 160)
              && 1 <= claimDelivery.leaseSeconds <= 31_536_000)
    ensures ValidSettlement(settle) <==> (
              && Token(settle.delivery.tenant, 128) && Token(settle.delivery.delivery, 160) && Token(settle.owner, 160))
  {
    hide ValidTenant, ValidId, Token;
    forall s
      ensures ValidTenant(s) <==> Token(s, 128)
      ensures ValidId(s) <==> Token(s, 160)
    {
      TokenMeans(s);
    }
  }

  lemma TokenMeans(s: string)
    ensures ValidTenant(s) <==> Token(s, 128)
    ensures ValidId(s) <==> Token(s, 160)
  {
    TokensUseTheAlphabet(s);
  }

  /** One row added or replaced. */
  ghost predicate Puts<K(!new), V>(before: map<K, V>, after: map<K, V>, k: K) {
    after.Keys == before.Keys + {k} && forall x :: x in before && x != k ==> after[x] == before[x]
  }

  lemma PutMeans<K(!new), V>(before: map<K, V>, after: map<K, V>, k: K, v: V)
    ensures Puts(before, after, k) ==> k in after
    ensures Puts(before, after, k) && after[k] == v <==> after == before[k := v]
  {
    if Puts(before, after, k) && after[k] == v {
      assert after.Keys == before[k := v].Keys;
    }
  }

  // --------------------------------------------------------------- watches

  /** A created watch carries what was asked for, is free, and is due at its first due time or else at its creation. */
  ghost predicate CreatesWatch(t: Tables, req: CreateWatch, u: Tables) {
    && req.watch !in t.watches && Puts(t.watches, u.watches, req.watch)
    && u.runs == t.runs && u.records == t.records && u.observations == t.observations && u.deliveries == t.deliveries
    && (var row := u.watches[req.watch];
        && row.query == req.query && row.sources == req.sources && row.interval == req.interval
        && row.cursor == req.cursor && row.enabled == req.enabled && row.created == req.created && row.lease.None?
        && (req.firstDue.Some? ==> row.nextDue == req.firstDue.value)
        && (req.firstDue.None? ==> row.nextDue == req.created))
  }

  lemma CreationIsExact(t: Tables, req: CreateWatch, u: Tables)
    ensures InsertWatch(t, req) == Ok(u) <==>
            ValidWatchKey(req.watch) && 1 <= req.interval <= 31_536_000 && req.documents && CreatesWatch(t, req, u)
  {
    hide ValidWatchKey, Puts;
    PutMeans(t.watches, u.watches, req.watch, IntoWatch(req));
  }

  /** A deleted watch takes its runs, observations and deliveries along, and no record. */
  ghost predicate DeletesWatch(t: Tables, wk: WatchKey, u: Tables) {
    && u.records == t.records
    && (forall k :: k in u.watches <==> k in t.watches && k != wk)
    && (forall k | k in u.watches :: u.watches[k] == t.watches[k])
    && (forall k :: k in u.runs <==> k in t.runs && k.watch != wk)
    && (forall k | k in u.runs :: u.runs[k] == t.runs[k])
    && (forall k :: k in u.observations <==> k in t.observations && k.watch != wk)
    && (forall k | k in u.observations :: u.observations[k] == t.observations[k])
    && (forall k :: k in u.deliveries <==> k in t.deliveries && !(k.tenant == wk.tenant && t.deliveries[k].watch == wk.watch))
    && (forall k | k in u.deliveries :: u.deliveries[k] == t.deliveries[k])
  }

  lemma DeletionIsExact(t: Tables, wk: WatchKey, u: Tables)
    requires ValidWatchKey(wk) && wk in t.watches
    ensures u == DeleteWatch(t, wk) <==> DeletesWatch(t, wk, u)
  {
    hide ValidWatchKey, DeletesWatch;
    DeletionHolds(t, wk);
    if DeletesWatch(t, wk, u) {
      DeletionIsUnique(t, wk, u, DeleteWatch(t, wk));
    }
  }

  lemma DeletionHolds(t: Tables, wk: WatchKey)
    requires ValidWatchKey(wk) && wk in t.watches
    ensures DeletesWatch(t, wk, DeleteWatch(t, wk))
  {
    hide ValidWatchKey;
  }

  lemma DeletionIsUnique(t: Tables, wk: WatchKey, u: Tables, v: Tables)
    requires DeletesWatch(t, wk, u) && DeletesWatch(t, wk, v)
    ensures u == v
  {
    assert u.watches == v.watches;
    assert u.runs == v.runs;
    assert u.observations == v.observations;
    assert u.deliveries == v.deliveries;
  }

  // ---------------------------------------------------------------- claims

  ghost predicate ExpiredBy(lease: Option<Lease>, now: int) { lease.Some? ==> lease.value.expires <= now }

  /** Ascending by a time, then by creation, then by id. */
  ghost predicate Earlier(a: (int, int, string), b: (int, int, string)) {
    || a.0 < b.0
    || (a.0 == b.0 && a.1 < b.1)
    || (a.0 == b.0 && a.1 == b.1 && exists k: nat :: Ordering.DifferAt(a.2, b.2, k))
  }

  ghost predicate DueNow(t: Tables, req: ClaimDueWatch, k: WatchKey) {
    && k in t.watches && k.tenant == req.tenant
    && t.watches[k].enabled && t.watches[k].nextDue <= req.now && ExpiredBy(t.watches[k].lease, req.now)
  }

  ghost function DueRank(t: Tables, k: WatchKey): (int, int, string)
    requires k in t.watches
  {
    (t.watches[k].nextDue, t.watches[k].created, k.watch)
  }

  /** A claim leases the earliest enabled, due and unleased watch of its tenant; without one it does nothing. */
  ghost predicate ClaimsWatch(t: Tables, req: ClaimDueWatch, u: Tables, taken: Option<WatchKey>) {
    match taken
    case None => u == t && forall k :: !DueNow(t, req, k)
    case Some(k) =>
      && DueNow(t, req, k)
      && (forall x :: DueNow(t, req, x) && x != k ==> Earlier(DueRank(t, k), DueRank(t, x)))
      && u == t.(watches := t.watches[k := t.watches[k].(lease := Some(Lease(req.owner, req.now + req.leaseSeconds)))])
  }

  lemma RankMeans(t: Tables, a: WatchKey, b: WatchKey)
    requires a in t.watches && b in t.watches
    ensures DueBefore(a, t.watches[a], b, t.watches[b]) <==> Earlier(DueRank(t, a), DueRank(t, b))
  {
    Ordering.LessMeans(a.watch, b.watch);
  }

  lemma FirstDueMeans(t: Tables, req: ClaimDueWatch, k: WatchKey)
    ensures FirstDue(t.watches, req.tenant, req.now, k) <==>
            DueNow(t, req, k) && forall x :: DueNow(t, req, x) && x != k ==> Earlier(DueRank(t, k), DueRank(t, x))
  {
    hide Earlier, DueBefore, DueRank;
    var keys := ClaimableKeys(t.watches, req.tenant, req.now);
    assert forall x :: x in keys <==> DueNow(t, req, x);
    if k in keys {
      forall x | x in keys
        ensures DueBefore(k, t.watches[k], x, t.watches[x]) <==> Earlier(DueRank(t, k), DueRank(t, x))
      {
        RankMeans(t, k, x);
      }
    }
  }

  /** The claim of both stores has this effect, and no other answer has. */
  lemma ClaimIsExact(t: Tables, req: ClaimDueWatch, u: Tables, taken: Option<WatchKey>)
    requires ValidTenant(req.tenant) && ValidId(req.owner) && 1 <= req.leaseSeconds <= 31_536_000
    ensures ClaimsWatch(t, req, u, taken) <==> (u, taken) == ClaimWatch(t, req)
  {
    hide FirstDue, DueNow, Earlier, DueRank, ValidTenant, ValidId, ClaimableKeys;
    var due := DueWatch(t.watches, req.tenant, req.now);
    if due.Some? {
      FirstDueMeans(t, req, due.value);
      if taken.Some? {
        FirstDueMeans(t, req, taken.value);
        if ClaimsWatch(t, req, u, taken) {
          FirstDueUnique(t.watches, req.tenant, req.now, due.value, taken.value);
        }
      }
    } else {
      NothingDue(t, req);
    }
  }

  lemma NothingDue(t: Tables, req: ClaimDueWatch)
    requires ClaimableKeys(t.watches, req.tenant, req.now) == {}
    ensures forall k :: !DueNow(t, req, k)
  {
    forall k | k in t.watches && k.tenant == req.tenant
      ensures !DueNow(t, req, k)
    {
      assert k !in ClaimableKeys(t.watches, req.tenant, req.now);
    }
  }

  // ------------------------------------------------------------------ runs

  /** The owner's lease on the watch is live. */
  ghost predicate LeaseLives(t: Tables, wk: WatchKey, owner: string, now: int) {
    && wk in t.watches && t.watches[wk].lease.Some?
    && t.watches[wk].lease.value.owner == owner && now < t.watches[wk].lease.value.expires
  }

  /** A start adds one open run under a live lease and an unused key, and nothing otherwise. */
  ghost predicate StartsRun(t: Tables, req: StartWatchRun, u: Tables) {
    var rk := RunKey(req.watch, req.run);
    if LeaseLives(t, req.watch, req.owner, req.startedAt)
       && forall k | k in t.runs && k.watch == req.watch :: t.runs[k].idempotency != req.idempotency
    then
      && rk !in t.runs && Puts(t.runs, u.runs, rk)
      && u.watches == t.watches && u.records == t.records && u.observations == t.observations && u.deliveries == t.deliveries
      && (var row := u.runs[rk];
          && row.status == RunRunning && row.owner == req.owner && row.idempotency == req.idempotency
          && row.started == req.startedAt && row.finished.None? && row.error.None?)
    else u == t
  }

  lemma KeyIsUnused(t: Tables, wk: WatchKey, key: string)
    ensures RunsByIdempotency(t, wk, key) == {} <==> forall k | k in t.runs && k.watch == wk :: t.runs[k].idempotency != key
  {
    var held := RunsByIdempotency(t, wk, key);
    if held != {} {
      var k :| k in held;
    }
    forall k | k in t.runs && k.watch == wk && held == {}
      ensures t.runs[k].idempotency != key
    {
      assert k !in held;
    }
  }

  lemma StartIsExact(t: Tables, req: StartWatchRun, u: Tables)
    requires ValidStart(req)
    ensures StartRun(t, req) == Ok(u) <==> StartsRun(t, req, u)
  {
    hide ValidStart, Puts, RunsByIdempotency;
    KeyIsUnused(t, req.watch, req.idempotency);
    PutMeans(t.runs, u.runs, RunKey(req.watch, req.run), NewRun(req));
  }

  // ----------------------------------------------------------- completions

  /** Its owner's lease is live and its run is the owner's and still open. */
  ghost predicate MayComplete(t: Tables, req: CompleteWatchRun) {
    var rk := RunKey(req.watch, req.run);
    && LeaseLives(t, req.watch, req.owner, req.finishedAt)
    && rk in t.runs && t.runs[rk].owner == req.owner && t.runs[rk].status == RunRunning
  }

  /** The run failed exactly when the completion reports an error; the watch is free and due again an interval later. */
  ghost predicate Closes(t: Tables, u: Tables, req: CompleteWatchRun) {
    var rk := RunKey(req.watch, req.run);
    && rk in t.runs && Puts(t.runs, u.runs, rk)
    && (var was, run := t.runs[rk], u.runs[rk];
        && (run.status == RunFailed <==> req.error.Some?) && (run.status == RunSucceeded <==> req.error.None?)
        && run.error == req.error && run.finished == Some(req.finishedAt)
        && run.owner == was.owner && run.idempotency == was.idempotency && run.started == was.started)
    && req.watch in t.watches && Puts(t.watches, u.watches, req.watch)
    && (var was, row := t.watches[req.watch], u.watches[req.watch];
        && row.nextDue == req.finishedAt + was.interval && row.cursor == req.nextCursor && row.lease.None?
        && row.query == was.query && row.sources == was.sources && row.interval == was.interval
        && row.enabled == was.enabled && row.created == was.created)
  }

  /** No other record of the list has its source and id but different content. */
  ghost predicate Unambiguous(rs: seq<Record>, r: Record) {
    forall q | q in rs && q.source == r.source && q.id == r.id :: q == r
  }

  ghost predicate Incoming(req: CompleteWatchRun, i: Identity) {
    exists r | r in req.records :: r.source == i.source && r.id == i.id
  }

  /** A stored record keeps its first sighting, was last seen now, and holds what came in. */
  ghost predicate Upserted(t: Tables, u: Tables, req: CompleteWatchRun, k: RecordKey)
    requires k in u.records
  {
    var row := u.records[k];
    && row.last == req.finishedAt
    && row.first == (if k in t.records then t.records[k].first else req.finishedAt)
    && (forall r | r in req.records && r.source == k.identity.source && r.id == k.identity.id ::
          Unambiguous(req.records, r) ==> row.record == r)
  }

  ghost predicate StoresRecords(t: Tables, u: Tables, req: CompleteWatchRun) {
    && (forall k :: k in u.records <==> k in t.records || (k.tenant == req.watch.tenant && Incoming(req, k.identity)))
    && (forall k | k in u.records ::
          if k.tenant == req.watch.tenant && Incoming(req, k.identity) then Upserted(t, u, req, k)
          else u.records[k] == t.records[k])
  }

  ghost predicate Observes(t: Tables, u: Tables, req: CompleteWatchRun) {
    && (forall k :: k in u.observations <==> k in t.observations || (k.watch == req.watch && Incoming(req, k.identity)))
    && (forall k | k in u.observations ::
          if k.watch == req.watch && Incoming(req, k.identity) then
            && u.observations[k].last == req.finishedAt
            && u.observations[k].first == (if k in t.observations then t.observations[k].first else req.finishedAt)
          else u.observations[k] == t.observations[k])
  }

  /** An incoming identity that the watch had not seen. */
  ghost predicate Unseen(t: Tables, req: CompleteWatchRun, i: Identity) {
    Incoming(req, i) && ObservationKey(req.watch, i) !in t.observations
  }

  /** A queued delivery goes to the target that was asked for, is untried, and may be sent from the run's end on. */
  ghost predicate QueuedRow(row: DeliveryRow, req: CompleteWatchRun, d: RunDelivery) {
    && row.watch == req.watch.watch && row.run == req.run && row.target == d.target
    && row.status == Pending && row.attempts == 0 && row.lease.None? && row.deliveredAt.None? && row.error.None?
    && row.created == req.finishedAt && row.nextAttempt == req.finishedAt
    && row.payload.watch == req.watch && row.payload.run == req.run && row.payload.observedAt == req.finishedAt
  }

  /** The records of the unseen identities, one for each. */
  ghost predicate HoldsUnseen(t: Tables, req: CompleteWatchRun, records: set<Record>) {
    && (forall r | r in records :: Unseen(t, req, Identity(r.source, r.id)))
    && (forall r | r in req.records && Unseen(t, req, Identity(r.source, r.id)) ::
          exists q | q in records :: q.source == r.source && q.id == r.id)
    && (forall r | r in req.records && Unseen(t, req, Identity(r.source, r.id)) && Unambiguous(req.records, r) :: r in records)
    && (forall q, r | q in records && r in records && q.source == r.source && q.id == r.id :: q == r)
  }

  /** What a commit queues: one delivery of what was unseen, if one was asked for under an unused id. */
  ghost predicate QueuesUnseen(t: Tables, u: Tables, req: CompleteWatchRun) {
    if req.delivery.Some? && (exists i :: Unseen(t, req, i))
       && DeliveryKey(req.watch.tenant, req.delivery.value.delivery) !in t.deliveries
    then
      var key := DeliveryKey(req.watch.tenant, req.delivery.value.delivery);
      && Puts(t.deliveries, u.deliveries, key)
      && QueuedRow(u.deliveries[key], req, req.delivery.value)
      && HoldsUnseen(t, req, u.deliveries[key].payload.records)
    else u.deliveries == t.deliveries
  }

  /** The outcome counts the records handed in and the identities the two tables did not hold. */
  ghost predicate Reports(t: Tables, req: CompleteWatchRun, o: RunOutcome) {
    && o.run == req.run && o.recordsSeen == |req.records|
    && (o.status == RunFailed <==> req.error.Some?) && (o.status == RunSucceeded <==> req.error.None?)
    && o.recordsInserted == |set r | r in req.records && RecordKey(req.watch.tenant, Identity(r.source, r.id)) !in t.records ::
                               Identity(r.source, r.id)|
    && o.observationsInserted == |set r | r in req.records && ObservationKey(req.watch, Identity(r.source, r.id)) !in t.observations ::
                                    Identity(r.source, r.id)|
  }

  /** The whole effect of a commit. */
  ghost predicate Completed(t: Tables, u: Tables, req: CompleteWatchRun, o: RunOutcome) {
    && Closes(t, u, req) && StoresRecords(t, u, req) && Observes(t, u, req) && QueuesUnseen(t, u, req)
    && Reports(t, req, o)
  }

  // ------------------------------------------------------------ deliveries

  /** Waiting for its time, or abandoned by a worker whose lease ran out. */
  ghost predicate SendableNow(t: Tables, req: ClaimPendingDelivery, k: DeliveryKey) {
    && k in t.deliveries && k.tenant == req.tenant
    && (var row := t.deliveries[k];
        || (row.status == Pending && row.nextAttempt <= req.now)
        || (row.status == Delivering && row.lease.Some? && row.lease.value.expires <= req.now))
  }

  ghost function AttemptRank(t: Tables, k: DeliveryKey): (int, int, string)
    requires k in t.deliveries
  {
    (t.deliveries[k].nextAttempt, t.deliveries[k].created, k.delivery)
  }

  /** A claim leases the earliest sendable delivery of its tenant and counts one more attempt. */
  ghost predicate ClaimsDelivery(t: Tables, req: ClaimPendingDelivery, u: Tables, taken: Option<DeliveryKey>) {
    match taken
    case None => u == t && forall k :: !SendableNow(t, req, k)
    case Some(k) =>
      && SendableNow(t, req, k)
      && (forall x :: SendableNow(t, req, x) && x != k ==> Earlier(AttemptRank(t, k), AttemptRank(t, x)))
      && Puts(t.deliveries, u.deliveries, k)
      && u.watches == t.watches && u.runs == t.runs && u.records == t.records && u.observations == t.observations
      && Attempted(t.deliveries[k], u.deliveries[k], req)
  }

  ghost predicate Attempted(was: DeliveryRow, row: DeliveryRow, req: ClaimPendingDelivery) {
    && row.status == Delivering && row.attempts == was.attempts + 1 && row.error.None?
    && row.lease == Some(Lease(req.owner, req.now + req.leaseSeconds)) && SameMessage(was, row)
    && row.nextAttempt == was.nextAttempt && row.deliveredAt == was.deliveredAt
  }

  ghost predicate SameMessage(a: DeliveryRow, b: DeliveryRow) {
    a.watch == b.watch && a.run == b.run && a.target == b.target && a.payload == b.payload && a.created == b.created
  }

  lemma AttemptRankMeans(t: Tables, a: DeliveryKey, b: DeliveryKey)
    requires a in t.deliveries && b in t.deliveries
    ensures AttemptBefore(a, t.deliveries[a], b, t.deliveries[b]) <==> Earlier(AttemptRank(t, a), AttemptRank(t, b))
  {
    Ordering.LessMeans(a.delivery, b.delivery);
  }

  lemma FirstSendableMeans(t: Tables, req: ClaimPendingDelivery, k: DeliveryKey)
    ensures FirstSendable(t.deliveries, req.tenant, req.now, k) <==>
            SendableNow(t, req, k) && forall x :: SendableNow(t, req, x) && x != k ==> Earlier(AttemptRank(t, k), AttemptRank(t, x))
  {
    hide Earlier, AttemptBefore, AttemptRank;
    var keys := SendableKeys(t.deliveries, req.tenant, req.now);
    assert forall x :: x in keys <==> SendableNow(t, req, x);
    if k in keys {
      forall x | x in keys
        ensures AttemptBefore(k, t.deliveries[k], x, t.deliveries[x]) <==> Earlier(AttemptRank(t, k), AttemptRank(t, x))
      {
        AttemptRankMeans(t, k, x);
      }
    }
  }

  lemma NothingSendable(t: Tables, req: ClaimPendingDelivery)
    requires SendableKeys(t.deliveries, req.tenant, req.now) == {}
    ensures forall k :: !SendableNow(t, req, k)
  {
    forall k | k in t.deliveries && k.tenant == req.tenant
      ensures !SendableNow(t, req, k)
    {
      assert k !in SendableKeys(t.deliveries, req.tenant, req.now);
    }
  }

  lemma LeasedRowMeans(t: Tables, req: ClaimPendingDelivery, k: DeliveryKey, u: Tables)
    requires k in t.deliveries
    ensures u == LeaseDelivery(t, k, req) <==>
            && Puts(t.deliveries, u.deliveries, k)
            && u.watches == t.watches && u.runs == t.runs && u.records == t.records && u.observations == t.observations
            && Attempted(t.deliveries[k], u.deliveries[k], req)
  {
    hide Puts;
    PutMeans(t.deliveries, u.deliveries, k, LeaseDelivery(t, k, req).deliveries[k]);
    if k in u.deliveries && Attempted(t.deliveries[k], u.deliveries[k], req) {
      assert u.deliveries[k] == LeaseDelivery(t, k, req).deliveries[k];
    }
  }

  /** The delivery claim of both stores has this effect, and no other answer has. */
  lemma DeliveryClaimIsExact(t: Tables, req: ClaimPendingDelivery, u: Tables, taken: Option<DeliveryKey>)
    requires ValidTenant(req.tenant) && ValidId(req.owner) && 1 <= req.leaseSeconds <= 31_536_000
    ensures ClaimsDelivery(t, req, u, taken) <==> (u, taken) == ClaimDelivery(t, req)
  {
    hide FirstSendable, SendableNow, Earlier, AttemptRank, ValidTenant, ValidId, SendableKeys, LeaseDelivery, Puts, Attempted;
    var next := NextDelivery(t.deliveries, req.tenant, req.now);
    if next.Some? {
      FirstSendableMeans(t, req, next.value);
      if taken.Some? {
        FirstSendableMeans(t, req, taken.value);
        if ClaimsDelivery(t, req, u, taken) {
          FirstSendableUnique(t.deliveries, req.tenant, req.now, next.value, taken.value);
        }
        if taken.value in t.deliveries {
          LeasedRowMeans(t, req, taken.value, u);
        }
      }
    } else {
      NothingSendable(t, req);
    }
  }

  /** A success ends the delivery; a failure ends it at the third attempt and else sends it back to wait 300 seconds. */
  ghost predicate Settled(was: DeliveryRow, row: DeliveryRow, req: CompleteDelivery) {
    && SameMessage(was, row) && row.attempts == was.attempts && row.lease.None? && row.error == req.error
    && (row.status == Succeeded <==> req.success) && (row.status == Failed <==> !req.success && was.attempts >= 3)
    && (row.status == Pending <==> !req.success && was.attempts < 3)
    && (if req.success then row.deliveredAt == Some(req.finishedAt) && row.nextAttempt == req.finishedAt
        else row.deliveredAt.None? && row.nextAttempt == req.finishedAt + 300)
  }

  /** A settlement takes effect under the owner's live lease. */
  ghost predicate SettlesDelivery(t: Tables, req: CompleteDelivery, u: Tables) {
    var k := req.delivery;
    && k in t.deliveries && t.deliveries[k].status == Delivering && t.deliveries[k].lease.Some?
    && t.deliveries[k].lease.value.owner == req.owner && req.finishedAt < t.deliveries[k].lease.value.expires
    && Puts(t.deliveries, u.deliveries, k)
    && u.watches == t.watches && u.runs == t.runs && u.records == t.records && u.observations == t.observations
    && Settled(t.deliveries[k], u.deliveries[k], req)
  }

  lemma SettledMeans(was: DeliveryRow, row: DeliveryRow, req: CompleteDelivery)
    ensures Settled(was, row, req) <==> row == SettledDelivery(was, req)
  {
  }

  lemma SettlementIsExact(t: Tables, req: CompleteDelivery, u: Tables)
    requires ValidSettlement(req)
    ensures SettleDelivery(t, req) == Ok(u) <==> SettlesDelivery(t, req, u)
  {
    hide ValidSettlement, Puts, Settled, SettledDelivery;
    var k := req.delivery;
    if k in t.deliveries {
      PutMeans(t.deliveries, u.deliveries, k, SettledDelivery(t.deliveries[k], req));
      if k in u.deliveries {
        SettledMeans(t.deliveries[k], u.deliveries[k], req);
      }
    }
  }
}
