/** What the SQLite completion transaction computes: a loop over the records, then the closing updates. */
module SqliteCompletion {
  import opened Wrappers
  import opened Records
  import opened StoreModel

  function KeyOf(req: CompleteWatchRun, r: Record): RecordKey {
    RecordKey(req.watch.tenant, IdentityOf(r))
  }

  function SeenKeyOf(req: CompleteWatchRun, r: Record): ObservationKey {
    ObservationKey(req.watch, IdentityOf(r))
  }

  function UpsertRecord(records: map<RecordKey, RecordRow>, req: CompleteWatchRun, r: Record): map<RecordKey, RecordRow> {
    var k := KeyOf(req, r);
    records[k := RecordRow(r, if k in records then records[k].first else req.finishedAt, req.finishedAt)]
  }

  function UpsertObservation(observations: map<ObservationKey, ObservationRow>, req: CompleteWatchRun, r: Record): map<ObservationKey, ObservationRow> {
    var k := SeenKeyOf(req, r);
    observations[k := ObservationRow(if k in observations then observations[k].first else req.finishedAt, req.finishedAt)]
  }

  /** The transaction's locals and the two tables its loop touches. */
  datatype Progress = Progress(
    records: map<RecordKey, RecordRow>,
    observations: map<ObservationKey, ObservationRow>,
    recordsInserted: nat,
    observationsInserted: nat,
    newRecords: seq<Record>)

  function Observe(p: Progress, req: CompleteWatchRun, r: Record): Progress {
    var recordExists := KeyOf(req, r) in p.records;
    var seen := SeenKeyOf(req, r) in p.observations;
    Progress(
      UpsertRecord(p.records, req, r),
      UpsertObservation(p.observations, req, r),
      p.recordsInserted + (if recordExists then 0 else 1),
      p.observationsInserted + (if seen then 0 else 1),
      if seen then p.newRecords else p.newRecords + [r])
  }

  /** The state of the loop after its first `n` records. */
  function AfterRecords(t: Tables, req: CompleteWatchRun, n: nat): Progress
    requires n <= |req.records|
  {
    if n == 0 then Progress(t.records, t.observations, 0, 0, [])
    else Observe(AfterRecords(t, req, n - 1), req, req.records[n - 1])
  }

  function InsertRunDelivery(deliveries: map<DeliveryKey, DeliveryRow>, req: CompleteWatchRun, newRecords: seq<Record>): map<DeliveryKey, DeliveryRow> {
    if req.delivery.None? || newRecords == [] then deliveries
    else
      var key := DeliveryKey(req.watch.tenant, req.delivery.value.delivery);
      if key in deliveries then deliveries
      else deliveries[key := NewDelivery(req, req.delivery.value, set r | r in newRecords)]
  }

  /** The committed tables and the outcome; a failed gate rolls the transaction back. */
  function Transaction(t: Tables, req: CompleteWatchRun): (Tables, Result<RunOutcome, StoreError>) {
    if !HoldsLease(t, req.watch, req.owner, req.finishedAt) then (t, Err(Conflict(LeaseNotHeld)))
    else if !RunIsRunning(t, req) then (t, Err(Conflict(RunNotRunning)))
    else
      var p := AfterRecords(t, req, |req.records|);
      var rk := RunKey(req.watch, req.run);
      (Tables(
         t.watches[req.watch := Rescheduled(t.watches[req.watch], req)],
         t.runs[rk := FinishedRun(t.runs[rk], req)],
         p.records,
         p.observations,
         InsertRunDelivery(t.deliveries, req, p.newRecords)),
       Ok(RunOutcome(req.run, StatusFor(req.error), |req.records|, p.recordsInserted, p.observationsInserted)))
  }

  function Complete(t: Tables, req: CompleteWatchRun): (Tables, Result<RunOutcome, StoreError>) {
    if !ValidCompletion(req) then (t, Err(Validation)) else Transaction(t, req)
  }
}
