/**
 * The persistence contract: tables keyed as the migrations declare them, requests, and the
 * effect of the statements on which the SQLite and D1 stores agree.
 */
module StoreModel {
  import opened Wrappers
  import opened Records
  import Ordering

  const MAX_DELIVERY_ATTEMPTS: nat := 3
  const DELIVERY_RETRY_SECONDS: int := 300
  const MAX_INTERVAL_SECONDS: int := 31_536_000

  datatype WatchKey = WatchKey(tenant: string, watch: string)
  datatype RunKey = RunKey(watch: WatchKey, run: string)
  datatype RecordKey = RecordKey(tenant: string, identity: Identity)
  datatype ObservationKey = ObservationKey(watch: WatchKey, identity: Identity)
  datatype DeliveryKey = DeliveryKey(tenant: string, delivery: string)

  /** The `lease_owner` and `lease_expires_epoch_seconds` columns, which every statement sets together. */
  datatype Lease = Lease(owner: string, expires: int)

  datatype WatchRow = WatchRow(
    query: string, sources: seq<string>, interval: int, cursor: string, enabled: bool,
    created: int, nextDue: int, lease: Option<Lease>)

  datatype RunStatus = RunRunning | RunSucceeded | RunFailed

  datatype RunRow = RunRow(
    idempotency: string, owner: string, status: RunStatus, started: int,
    finished: Option<int>, error: Option<string>)

  datatype RecordRow = RecordRow(record: Record, first: int, last: int)

  datatype ObservationRow = ObservationRow(first: int, last: int)

  datatype DeliveryStatus = Pending | Delivering | Succeeded | Failed

  /** The queued message; its records are compared as a set. */
  datatype Payload = Payload(watch: WatchKey, run: string, observedAt: int, records: set<Record>)

  datatype DeliveryRow = DeliveryRow(
    watch: string, run: string, status: DeliveryStatus, target: string, payload: Payload,
    created: int, nextAttempt: int, attempts: nat, lease: Option<Lease>,
    deliveredAt: Option<int>, error: Option<string>)

  datatype Tables = Tables(
    watches: map<WatchKey, WatchRow>,
    runs: map<RunKey, RunRow>,
    records: map<RecordKey, RecordRow>,
    observations: map<ObservationKey, ObservationRow>,
    deliveries: map<DeliveryKey, DeliveryRow>)

  datatype ConflictReason =
    | NotClaimed
    | LeaseNotHeld
    | RunNotRunning
    | DeliveryNotLeased

  datatype StoreError =
    | Validation
    | Conflict(reason: ConflictReason)
    | Backend

  /** `documents` is the outcome of checking the query, and that the cursor is a JSON object. */
  datatype CreateWatch = CreateWatch(
    watch: WatchKey, query: string, sources: seq<string>, interval: int, cursor: string,
    enabled: bool, created: int, firstDue: Option<int>, documents: bool)

  datatype ClaimDueWatch = ClaimDueWatch(tenant: string, now: int, owner: string, leaseSeconds: int)

  datatype ClaimedWatch = ClaimedWatch(watch: WatchKey, row: WatchRow, owner: string, expires: int)

  datatype StartWatchRun = StartWatchRun(
    watch: WatchKey, run: string, idempotency: string, owner: string, startedAt: int)

  datatype RunDelivery = RunDelivery(delivery: string, target: string)

  /** `documents` is the outcome of checking each record, and that cursor and delivery target are JSON objects. */
  datatype CompleteWatchRun = CompleteWatchRun(
    watch: WatchKey, run: string, owner: string, finishedAt: int, records: seq<Record>,
    nextCursor: string, error: Option<string>, delivery: Option<RunDelivery>, documents: bool)

  datatype RunOutcome = RunOutcome(
    run: string, status: RunStatus, recordsSeen: nat, recordsInserted: nat, observationsInserted: nat)

  datatype ClaimPendingDelivery = ClaimPendingDelivery(
    tenant: string, now: int, owner: string, leaseSeconds: int)

  datatype CompleteDelivery = CompleteDelivery(
    delivery: DeliveryKey, owner: string, finishedAt: int, success: bool, error: Option<string>)

  // ------------------------------------------------------------- validation

  const MAX_TENANT_LENGTH: nat := 128
  const MAX_ID_LENGTH: nat := 160

  predicate TokenChar(c: char) {
    || '0' <= c <= '9' || 'A' <= c <= 'Z' || 'a' <= c <= 'z'
    || c == '-' || c == '_' || c == '.' || c == ':'
  }

  predicate TokenChars(s: string) { forall i | 0 <= i < |s| :: TokenChar(s[i]) }

  predicate ValidTenant(s: string) { 0 < |s| <= MAX_TENANT_LENGTH && TokenChars(s) }

  predicate ValidId(s: string) { 0 < |s| <= MAX_ID_LENGTH && TokenChars(s) }

  predicate ValidWatchKey(wk: WatchKey) { ValidTenant(wk.tenant) && ValidId(wk.watch) }

  predicate ValidInterval(seconds: int) { 1 <= seconds <= MAX_INTERVAL_SECONDS }

  predicate ValidCreate(req: CreateWatch) {
    ValidWatchKey(req.watch) && ValidInterval(req.interval) && req.documents
  }

  predicate ValidClaim(req: ClaimDueWatch) {
    ValidTenant(req.tenant) && ValidId(req.owner) && ValidInterval(req.leaseSeconds)
  }

  predicate ValidStart(req: StartWatchRun) {
    ValidWatchKey(req.watch) && ValidId(req.run) && ValidId(req.idempotency) && ValidId(req.owner)
  }

  predicate ValidCompletion(req: CompleteWatchRun) {
    && ValidWatchKey(req.watch) && ValidId(req.run) && ValidId(req.owner) && req.documents
    && (req.delivery.Some? ==> ValidId(req.delivery.value.delivery))
  }

  predicate ValidDeliveryClaim(req: ClaimPendingDelivery) {
    ValidTenant(req.tenant) && ValidId(req.owner) && ValidInterval(req.leaseSeconds)
  }

  predicate ValidSettlement(req: CompleteDelivery) {
    ValidTenant(req.delivery.tenant) && ValidId(req.delivery.delivery) && ValidId(req.owner)
  }

  // ---------------------------------------------------------------- watches

  function IntoWatch(req: CreateWatch): WatchRow {
    WatchRow(req.query, req.sources, req.interval, req.cursor, req.enabled, req.created,
             if req.firstDue.Some? then req.firstDue.value else req.created, None)
  }

  /** Inserting a watch: an existing primary key is a constraint failure. */
  function InsertWatch(t: Tables, req: CreateWatch): Result<Tables, StoreError> {
    if !ValidCreate(req) then Err(Validation)
    else if req.watch in t.watches then Err(Backend)
    else Ok(t.(watches := t.watches[req.watch := IntoWatch(req)]))
  }

  /** Deleting a watch cascades to its runs, observations and deliveries. */
  function DeleteWatch(t: Tables, wk: WatchKey): Tables {
    if !ValidWatchKey(wk) || wk !in t.watches then t
    else t.(
      watches := map k | k in t.watches && k != wk :: t.watches[k],
      runs := map k | k in t.runs && k.watch != wk :: t.runs[k],
      observations := map k | k in t.observations && k.watch != wk :: t.observations[k],
      deliveries := map k | k in t.deliveries && WatchKey(k.tenant, t.deliveries[k].watch) != wk :: t.deliveries[k])
  }

  predicate LeaseFree(lease: Option<Lease>, now: int) {
    lease.None? || lease.value.expires <= now
  }

  predicate Claimable(row: WatchRow, now: int) {
    row.enabled && row.nextDue <= now && LeaseFree(row.lease, now)
  }

  /** `ORDER BY next_due_epoch_seconds, created_at_epoch_seconds, watch_id` */
  predicate DueBefore(a: WatchKey, ra: WatchRow, b: WatchKey, rb: WatchRow) {
    || ra.nextDue < rb.nextDue
    || (ra.nextDue == rb.nextDue && ra.created < rb.created)
    || (ra.nextDue == rb.nextDue && ra.created == rb.created && Ordering.Less(a.watch, b.watch))
  }

  function ClaimableKeys(watches: map<WatchKey, WatchRow>, tenant: string, now: int): set<WatchKey> {
    set k | k in watches && k.tenant == tenant && Claimable(watches[k], now)
  }

  predicate FirstDue(watches: map<WatchKey, WatchRow>, tenant: string, now: int, k: WatchKey) {
    var keys := ClaimableKeys(watches, tenant, now);
    k in keys && forall x | x in keys :: x != k ==> DueBefore(k, watches[k], x, watches[x])
  }

  lemma FirstDueExists(watches: map<WatchKey, WatchRow>, tenant: string, now: int)
    requires ClaimableKeys(watches, tenant, now) != {}
    ensures exists k :: FirstDue(watches, tenant, now, k)
  {
    var keys := ClaimableKeys(watches, tenant, now);
    var less := (a: WatchKey, b: WatchKey) =>
      a in watches && b in watches && DueBefore(a, watches[a], b, watches[b]);
    forall a, b | a in keys && b in keys && a != b
      ensures less(a, b) || less(b, a)
    {
      Ordering.LessTrichotomy(a.watch, b.watch);
    }
    forall a, b, c | a in keys && b in keys && c in keys && less(a, b) && less(b, c)
      ensures less(a, c)
    {
      if Ordering.Less(a.watch, b.watch) && Ordering.Less(b.watch, c.watch) {
        Ordering.LessTransitive(a.watch, b.watch, c.watch);
      }
    }
    Ordering.LeastExists(keys, less);
    var k :| Ordering.Least(keys, less, k);
    assert FirstDue(watches, tenant, now, k);
  }

  lemma FirstDueUnique(watches: map<WatchKey, WatchRow>, tenant: string, now: int, a: WatchKey, b: WatchKey)
    requires FirstDue(watches, tenant, now, a) && FirstDue(watches, tenant, now, b)
    ensures a == b
  {
    if a != b {
      Ordering.LessTrichotomy(a.watch, b.watch);
    }
  }

  /** The row the due query selects: the first claimable watch of the tenant, if there is one. */
  ghost function DueWatch(watches: map<WatchKey, WatchRow>, tenant: string, now: int): (r: Option<WatchKey>)
    ensures r.Some? ==> FirstDue(watches, tenant, now, r.value)
    ensures r.None? ==> ClaimableKeys(watches, tenant, now) == {}
  {
    if k :| FirstDue(watches, tenant, now, k) then Some(k)
    else
      assert ClaimableKeys(watches, tenant, now) == {} by {
        if ClaimableKeys(watches, tenant, now) != {} {
          FirstDueExists(watches, tenant, now);
        }
      }
      None
  }

  function LeaseWatch(t: Tables, k: WatchKey, req: ClaimDueWatch): Tables
    requires k in t.watches
  {
    t.(watches := t.watches[k := t.watches[k].(lease := Some(Lease(req.owner, req.now + req.leaseSeconds)))])
  }

  ghost function ClaimWatch(t: Tables, req: ClaimDueWatch): (r: (Tables, Option<WatchKey>))
    ensures r.1.Some? ==> r.1.value in t.watches
  {
    if !ValidClaim(req) then (t, None) else
    var due := DueWatch(t.watches, req.tenant, req.now);
    if due.None? then (t, None) else (LeaseWatch(t, due.value, req), due)
  }

  // ------------------------------------------------------------------- runs

  /** The gate of every start and completion: the owner's lease on the watch is live. */
  predicate HoldsLease(t: Tables, wk: WatchKey, owner: string, now: int) {
    && wk in t.watches
    && t.watches[wk].lease.Some?
    && t.watches[wk].lease.value.owner == owner
    && t.watches[wk].lease.value.expires > now
  }

  /** Rows of one watch with the given idempotency key. */
  function RunsByIdempotency(t: Tables, wk: WatchKey, key: string): set<RunKey> {
    set rk | rk in t.runs && rk.watch == wk && t.runs[rk].idempotency == key
  }

  function NewRun(req: StartWatchRun): RunRow {
    RunRow(req.idempotency, req.owner, RunRunning, req.startedAt, None, None)
  }

  /**
   * `INSERT ... ON CONFLICT (tenant_id, watch_id, idempotency_key) DO NOTHING` behind the lease gate.
   * A run id taken by another idempotency key is a primary key failure, which the clause does not cover.
   */
  function StartRun(t: Tables, req: StartWatchRun): Result<Tables, StoreError> {
    if !ValidStart(req) then Err(Validation)
    else if !HoldsLease(t, req.watch, req.owner, req.startedAt) then Ok(t)
    else if RunsByIdempotency(t, req.watch, req.idempotency) != {} then Ok(t)
    else if RunKey(req.watch, req.run) in t.runs then Err(Backend)
    else Ok(t.(runs := t.runs[RunKey(req.watch, req.run) := NewRun(req)]))
  }

  /** The run loaded by its idempotency key. */
  ghost predicate LoadAnswers(t: Tables, req: StartWatchRun, r: Result<RunKey, StoreError>) {
    if RunsByIdempotency(t, req.watch, req.idempotency) == {} then r == Err(Conflict(NotClaimed))
    else r.Ok? && r.value in RunsByIdempotency(t, req.watch, req.idempotency)
  }

  /** The whole start: the gated insert, then the run loaded by its idempotency key. */
  ghost predicate StartAnswers(t: Tables, req: StartWatchRun, t': Tables, r: Result<RunKey, StoreError>) {
    match StartRun(t, req)
    case Err(e) => t' == t && r == Err(e)
    case Ok(u) => t' == u && LoadAnswers(u, req, r)
  }

  /** The completion gate: a live lease and a running run, both under the same owner. */
  predicate CommitGate(t: Tables, req: CompleteWatchRun) {
    && HoldsLease(t, req.watch, req.owner, req.finishedAt)
    && RunIsRunning(t, req)
  }

  predicate RunIsRunning(t: Tables, req: CompleteWatchRun) {
    var rk := RunKey(req.watch, req.run);
    rk in t.runs && t.runs[rk].owner == req.owner && t.runs[rk].status == RunRunning
  }

  function StatusFor(error: Option<string>): RunStatus {
    if error.Some? then RunFailed else RunSucceeded
  }

  function FinishedRun(row: RunRow, req: CompleteWatchRun): RunRow {
    row.(status := StatusFor(req.error), finished := Some(req.finishedAt), error := req.error)
  }

  function Rescheduled(row: WatchRow, req: CompleteWatchRun): WatchRow {
    row.(cursor := req.nextCursor, nextDue := req.finishedAt + row.interval, lease := None)
  }

  function NewDelivery(req: CompleteWatchRun, d: RunDelivery, records: set<Record>): DeliveryRow {
    DeliveryRow(req.watch.watch, req.run, Pending, d.target,
                Payload(req.watch, req.run, req.finishedAt, records),
                req.finishedAt, req.finishedAt, 0, None, None, None)
  }

  // ------------------------------------------------------------- deliveries

  predicate Sendable(row: DeliveryRow, now: int) {
    || (row.status == Pending && row.nextAttempt <= now)
    || (row.status == Delivering && row.lease.Some? && row.lease.value.expires <= now)
  }

  /** `ORDER BY next_attempt_epoch_seconds, created_at_epoch_seconds, delivery_id` */
  predicate AttemptBefore(a: DeliveryKey, ra: DeliveryRow, b: DeliveryKey, rb: DeliveryRow) {
    || ra.nextAttempt < rb.nextAttempt
    || (ra.nextAttempt == rb.nextAttempt && ra.created < rb.created)
    || (ra.nextAttempt == rb.nextAttempt && ra.created == rb.created && Ordering.Less(a.delivery, b.delivery))
  }

  function SendableKeys(deliveries: map<DeliveryKey, DeliveryRow>, tenant: string, now: int): set<DeliveryKey> {
    set k | k in deliveries && k.tenant == tenant && Sendable(deliveries[k], now)
  }

  predicate FirstSendable(deliveries: map<DeliveryKey, DeliveryRow>, tenant: string, now: int, k: DeliveryKey) {
    var keys := SendableKeys(deliveries, tenant, now);
    k in keys && forall x | x in keys :: x != k ==> AttemptBefore(k, deliveries[k], x, deliveries[x])
  }

  lemma FirstSendableExists(deliveries: map<DeliveryKey, DeliveryRow>, tenant: string, now: int)
    requires SendableKeys(deliveries, tenant, now) != {}
    ensures exists k :: FirstSendable(deliveries, tenant, now, k)
  {
    var keys := SendableKeys(deliveries, tenant, now);
    var less := (a: DeliveryKey, b: DeliveryKey) =>
      a in deliveries && b in deliveries && AttemptBefore(a, deliveries[a], b, deliveries[b]);
    forall a, b | a in keys && b in keys && a != b
      ensures less(a, b) || less(b, a)
    {
      Ordering.LessTrichotomy(a.delivery, b.delivery);
    }
    forall a, b, c | a in keys && b in keys && c in keys && less(a, b) && less(b, c)
      ensures less(a, c)
    {
      if Ordering.Less(a.delivery, b.delivery) && Ordering.Less(b.delivery, c.delivery) {
        Ordering.LessTransitive(a.delivery, b.delivery, c.delivery);
      }
    }
    Ordering.LeastExists(keys, less);
    var k :| Ordering.Least(keys, less, k);
    assert FirstSendable(deliveries, tenant, now, k);
  }

  lemma FirstSendableUnique(deliveries: map<DeliveryKey, DeliveryRow>, tenant: string, now: int, a: DeliveryKey, b: DeliveryKey)
    requires FirstSendable(deliveries, tenant, now, a) && FirstSendable(deliveries, tenant, now, b)
    ensures a == b
  {
    if a != b {
      Ordering.LessTrichotomy(a.delivery, b.delivery);
    }
  }

  ghost function NextDelivery(deliveries: map<DeliveryKey, DeliveryRow>, tenant: string, now: int): (r: Option<DeliveryKey>)
    ensures r.Some? ==> FirstSendable(deliveries, tenant, now, r.value)
    ensures r.None? ==> SendableKeys(deliveries, tenant, now) == {}
  {
    if k :| FirstSendable(deliveries, tenant, now, k) then Some(k)
    else
      assert SendableKeys(deliveries, tenant, now) == {} by {
        if SendableKeys(deliveries, tenant, now) != {} {
          FirstSendableExists(deliveries, tenant, now);
        }
      }
      None
  }

  function LeaseDelivery(t: Tables, k: DeliveryKey, req: ClaimPendingDelivery): Tables
    requires k in t.deliveries
  {
    var row := t.deliveries[k];
    t.(deliveries := t.deliveries[k := row.(
      status := Delivering, attempts := row.attempts + 1,
      lease := Some(Lease(req.owner, req.now + req.leaseSeconds)), error := None)])
  }

  ghost function ClaimDelivery(t: Tables, req: ClaimPendingDelivery): (r: (Tables, Option<DeliveryKey>))
    ensures r.1.Some? ==> r.1.value in t.deliveries
  {
    if !ValidDeliveryClaim(req) then (t, None) else
    var next := NextDelivery(t.deliveries, req.tenant, req.now);
    if next.None? then (t, None) else (LeaseDelivery(t, next.value, req), next)
  }

  predicate DeliveryLeased(t: Tables, req: CompleteDelivery) {
    && req.delivery in t.deliveries
    && t.deliveries[req.delivery].status == Delivering
    && t.deliveries[req.delivery].lease.Some?
    && t.deliveries[req.delivery].lease.value.owner == req.owner
    && t.deliveries[req.delivery].lease.value.expires > req.finishedAt
  }

  function NextAttempt(req: CompleteDelivery): int {
    if req.success then req.finishedAt else req.finishedAt + DELIVERY_RETRY_SECONDS
  }

  function SettledDelivery(row: DeliveryRow, req: CompleteDelivery): DeliveryRow {
    row.(
      status := if req.success then Succeeded
                else if row.attempts >= MAX_DELIVERY_ATTEMPTS then Failed
                else Pending,
      nextAttempt := NextAttempt(req),
      deliveredAt := if req.success then Some(req.finishedAt) else None,
      error := req.error,
      lease := None)
  }

  function SettleDelivery(t: Tables, req: CompleteDelivery): Result<Tables, StoreError> {
    if !ValidSettlement(req) then Err(Validation)
    else if !DeliveryLeased(t, req) then Err(Conflict(DeliveryNotLeased))
    else Ok(t.(deliveries := t.deliveries[req.delivery := SettledDelivery(t.deliveries[req.delivery], req)]))
  }
}
