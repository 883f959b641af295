/** The SQLite store: each operation is one transaction over the tables it holds. */
module SqliteStore {
  import opened Wrappers
  import opened Records
  import opened StoreModel
  import opened SqliteCompletion
  import opened Effects
  import CompletionEffects

  class Store {
    var watches: map<WatchKey, WatchRow>
    var runs: map<RunKey, RunRow>
    var records: map<RecordKey, RecordRow>
    var observations: map<ObservationKey, ObservationRow>
    var deliveries: map<DeliveryKey, DeliveryRow>

    /** The whole database as one value. */
    function Contents(): Tables
      reads this
    {
      Tables(watches, runs, records, observations, deliveries)
    }

    constructor ()
      ensures Contents() == Tables(map[], map[], map[], map[], map[])
    {
      watches := map[];
      runs := map[];
      records := map[];
      observations := map[];
      deliveries := map[];
    }

    method Create(req: CreateWatch) returns (r: Result<WatchRow, StoreError>)
      modifies this
      ensures match InsertWatch(old(Contents()), req)
              case Ok(u) => Contents() == u && r == Ok(IntoWatch(req))
              case Err(e) => Contents() == old(Contents()) && r == Err(e)
      ensures r.Ok? ==> CreatesWatch(old(Contents()), req, Contents()) && r.value == watches[req.watch]
    {
      hide CreatesWatch;
      CreationIsExact(Contents(), req, Contents().(watches := watches[req.watch := IntoWatch(req)]));
      if !ValidCreate(req) {
        return Err(Validation);
      }
      if req.watch in watches {
        return Err(Backend);
      }
      watches := watches[req.watch := IntoWatch(req)];
      r := Ok(IntoWatch(req));
    }

    method Delete(wk: WatchKey) returns (r: Result<bool, StoreError>)
      modifies this
      ensures Contents() == DeleteWatch(old(Contents()), wk)
      ensures r == if !ValidWatchKey(wk) then Err(Validation) else Ok(wk in old(watches))
      ensures r == Ok(true) ==> DeletesWatch(old(Contents()), wk, Contents())
    {
      hide DeletesWatch;
      if ValidWatchKey(wk) && wk in watches {
        DeletionIsExact(Contents(), wk, DeleteWatch(Contents(), wk));
      }
      if !ValidWatchKey(wk) {
        return Err(Validation);
      }
      var deleted := wk in watches;
      r := Ok(deleted);
      if deleted {
        deliveries := map k | k in deliveries && WatchKey(k.tenant, deliveries[k].watch) != wk :: deliveries[k];
        observations := map k | k in observations && k.watch != wk :: observations[k];
        runs := map k | k in runs && k.watch != wk :: runs[k];
        watches := map k | k in watches && k != wk :: watches[k];
      }
    }

    method SelectDueWatch(tenant: string, now: int) returns (due: Option<WatchKey>)
      ensures due == DueWatch(watches, tenant, now)
    {
      var keys := ClaimableKeys(watches, tenant, now);
      if keys == {} {
        return None;
      }
      FirstDueExists(watches, tenant, now);
      var k :| k in keys && FirstDue(watches, tenant, now, k);
      FirstDueUnique(watches, tenant, now, k, DueWatch(watches, tenant, now).value);
      due := Some(k);
    }

    /** Selects the due watch, then leases it with a second, guarded statement. Returns the row as selected. */
    method ClaimDue(req: ClaimDueWatch) returns (r: Result<Option<ClaimedWatch>, StoreError>)
      modifies this
      ensures Contents() == ClaimWatch(old(Contents()), req).0
      ensures if !ValidClaim(req) then r == Err(Validation)
              else match ClaimWatch(old(Contents()), req).1
                case None => r == Ok(None)
                case Some(k) => r == Ok(Some(ClaimedWatch(k, old(watches)[k], req.owner, req.now + req.leaseSeconds)))
      ensures r.Ok? ==> ClaimsWatch(old(Contents()), req, Contents(), if r.value.Some? then Some(r.value.value.watch) else None)
    {
      hide ClaimsWatch;
      if ValidClaim(req) {
        ClaimIsExact(Contents(), req, ClaimWatch(Contents(), req).0, ClaimWatch(Contents(), req).1);
      }
      if !ValidClaim(req) {
        return Err(Validation);
      }
      var due := SelectDueWatch(req.tenant, req.now);
      if due.None? {
        return Ok(None);
      }
      var k := due.value;
      var row := watches[k];
      if row.enabled && row.nextDue <= req.now && LeaseFree(row.lease, req.now) {
        watches := watches[k := row.(lease := Some(Lease(req.owner, req.now + req.leaseSeconds)))];
        r := Ok(Some(ClaimedWatch(k, row, req.owner, req.now + req.leaseSeconds)));
      } else {
        r := Ok(None);
      }
    }

    method Start(req: StartWatchRun) returns (r: Result<RunKey, StoreError>)
      modifies this
      ensures StartAnswers(old(Contents()), req, Contents(), r)
      ensures r.Ok? ==> StartsRun(old(Contents()), req, Contents())
      ensures r.Ok? ==> r.value in runs && r.value.watch == req.watch && runs[r.value].idempotency == req.idempotency
    {
      hide StartsRun;
      if ValidStart(req) && StartRun(Contents(), req).Ok? {
        StartIsExact(Contents(), req, StartRun(Contents(), req).value);
      }
      if !ValidStart(req) {
        return Err(Validation);
      }
      if HoldsLease(Contents(), req.watch, req.owner, req.startedAt)
         && RunsByIdempotency(Contents(), req.watch, req.idempotency) == {} {
        if RunKey(req.watch, req.run) in runs {
          return Err(Backend);
        }
        runs := runs[RunKey(req.watch, req.run) := NewRun(req)];
      }
      var found := RunsByIdempotency(Contents(), req.watch, req.idempotency);
      if found == {} {
        return Err(Conflict(NotClaimed));
      }
      var rk :| rk in found;
      r := Ok(rk);
    }

    method UpsertOneRecord(req: CompleteWatchRun, record: Record) returns (inserted: nat)
      modifies this`records
      ensures records == UpsertRecord(old(records), req, record)
      ensures inserted == if KeyOf(req, record) in old(records) then 0 else 1
    {
      var k := KeyOf(req, record);
      if k in records {
        records := records[k := RecordRow(record, records[k].first, req.finishedAt)];
        inserted := 0;
      } else {
        records := records[k := RecordRow(record, req.finishedAt, req.finishedAt)];
        inserted := 1;
      }
    }

    method UpsertOneObservation(req: CompleteWatchRun, record: Record) returns (inserted: nat)
      modifies this`observations
      ensures observations == UpsertObservation(old(observations), req, record)
      ensures inserted == if SeenKeyOf(req, record) in old(observations) then 0 else 1
    {
      var k := SeenKeyOf(req, record);
      if k in observations {
        observations := observations[k := observations[k].(last := req.finishedAt)];
        inserted := 0;
      } else {
        observations := observations[k := ObservationRow(req.finishedAt, req.finishedAt)];
        inserted := 1;
      }
    }

    method QueueRunDelivery(req: CompleteWatchRun, newRecords: seq<Record>)
      modifies this`deliveries
      ensures deliveries == InsertRunDelivery(old(deliveries), req, newRecords)
      ensures req.delivery.Some? && newRecords != [] ==>
                var key := DeliveryKey(req.watch.tenant, req.delivery.value.delivery);
                key !in old(deliveries) ==>
                  && Puts(old(deliveries), deliveries, key) && QueuedRow(deliveries[key], req, req.delivery.value)
                  && (forall x :: x in deliveries[key].payload.records <==> x in newRecords)
    {
      if req.delivery.None? {
        return;
      }
      if newRecords == [] {
        return;
      }
      var key := DeliveryKey(req.watch.tenant, req.delivery.value.delivery);
      if key !in deliveries {
        deliveries := deliveries[key := NewDelivery(req, req.delivery.value, set r | r in newRecords)];
      }
    }

    method FinishRunAndWatch(req: CompleteWatchRun, status: RunStatus, interval: int)
      requires RunKey(req.watch, req.run) in runs && req.watch in watches
      modifies this`runs, this`watches
      ensures runs == old(runs)[RunKey(req.watch, req.run) :=
                old(runs)[RunKey(req.watch, req.run)].(status := status, finished := Some(req.finishedAt), error := req.error)]
      ensures watches == old(watches)[req.watch :=
                old(watches)[req.watch].(cursor := req.nextCursor, nextDue := req.finishedAt + interval, lease := None)]
    {
      var rk := RunKey(req.watch, req.run);
      runs := runs[rk := runs[rk].(status := status, finished := Some(req.finishedAt), error := req.error)];
      watches := watches[req.watch := watches[req.watch].(
        cursor := req.nextCursor, nextDue := req.finishedAt + interval, lease := None)];
    }

    /** The completion transaction: check both gates, upsert record by record, queue the new ones, close. */
    method CompleteRun(req: CompleteWatchRun) returns (r: Result<RunOutcome, StoreError>)
      modifies this
      ensures (Contents(), r) == Complete(old(Contents()), req)
      ensures r.Ok? <==> ValidCompletion(req) && MayComplete(old(Contents()), req)
      ensures r.Ok? ==> Completed(old(Contents()), Contents(), req, r.value)
      ensures r.Err? ==> Contents() == old(Contents())
    {
      hide Completed, MayComplete, ValidCompletion, UpsertRecord, UpsertObservation, KeyOf, SeenKeyOf, QueuedRow, Puts, InsertRunDelivery;
      CompletionEffects.GateIsExact(Contents(), req);
      if CommitGate(Contents(), req) {
        CompletionEffects.TransactionCompletes(Contents(), req);
      }
      if !ValidCompletion(req) {
        return Err(Validation);
      }
      if !HoldsLease(Contents(), req.watch, req.owner, req.finishedAt) {
        return Err(Conflict(LeaseNotHeld));
      }
      if !RunIsRunning(Contents(), req) {
        return Err(Conflict(RunNotRunning));
      }
      var interval := watches[req.watch].interval;
      var recordsInserted := 0;
      var observationsInserted := 0;
      var newRecords := [];
      ghost var before := Contents();
      for i := 0 to |req.records|
        invariant watches == before.watches && runs == before.runs && deliveries == before.deliveries
        invariant AfterRecords(before, req, i)
                  == Progress(records, observations, recordsInserted, observationsInserted, newRecords)
      {
        var one := UpsertOneRecord(req, req.records[i]);
        recordsInserted := recordsInserted + one;
        var inserted := UpsertOneObservation(req, req.records[i]);
        observationsInserted := observationsInserted + inserted;
        if inserted == 1 {
          newRecords := newRecords + [req.records[i]];
        }
      }
      QueueRunDelivery(req, newRecords);
      var status := if req.error.Some? then RunFailed else RunSucceeded;
      FinishRunAndWatch(req, status, interval);
      r := Ok(RunOutcome(req.run, status, |req.records|, recordsInserted, observationsInserted));
    }

    method ClaimPending(req: ClaimPendingDelivery) returns (r: Result<Option<DeliveryKey>, StoreError>)
      modifies this`deliveries
      ensures Contents() == ClaimDelivery(old(Contents()), req).0
      ensures r == if !ValidDeliveryClaim(req) then Err(Validation)
                   else Ok(ClaimDelivery(old(Contents()), req).1)
      ensures r.Ok? ==> ClaimsDelivery(old(Contents()), req, Contents(), r.value)
    {
      hide ClaimsDelivery;
      if ValidDeliveryClaim(req) {
        DeliveryClaimIsExact(Contents(), req, ClaimDelivery(Contents(), req).0, ClaimDelivery(Contents(), req).1);
      }
      if !ValidDeliveryClaim(req) {
        return Err(Validation);
      }
      var keys := SendableKeys(deliveries, req.tenant, req.now);
      if keys == {} {
        return Ok(None);
      }
      FirstSendableExists(deliveries, req.tenant, req.now);
      var k :| k in keys && FirstSendable(deliveries, req.tenant, req.now, k);
      FirstSendableUnique(deliveries, req.tenant, req.now, k, NextDelivery(deliveries, req.tenant, req.now).value);
      var row := deliveries[k];
      deliveries := deliveries[k := row.(
        status := Delivering, attempts := row.attempts + 1,
        lease := Some(Lease(req.owner, req.now + req.leaseSeconds)), error := None)];
      r := Ok(Some(k));
    }

    method Settle(req: CompleteDelivery) returns (r: Result<DeliveryRow, StoreError>)
      modifies this`deliveries
      ensures match SettleDelivery(old(Contents()), req)
              case Ok(u) => Contents() == u && r == Ok(u.deliveries[req.delivery])
              case Err(e) => Contents() == old(Contents()) && r == Err(e)
      ensures r.Ok? ==> SettlesDelivery(old(Contents()), req, Contents()) && r.value == deliveries[req.delivery]
    {
      hide SettlesDelivery;
      if ValidSettlement(req) && DeliveryLeased(Contents(), req) {
        SettlementIsExact(Contents(), req, SettleDelivery(Contents(), req).value);
      }
      if !ValidSettlement(req) {
        return Err(Validation);
      }
      if !DeliveryLeased(Contents(), req) {
        return Err(Conflict(DeliveryNotLeased));
      }
      deliveries := deliveries[req.delivery := SettledDelivery(deliveries[req.delivery], req)];
      r := Ok(deliveries[req.delivery]);
    }
  }
}
