/** The D1 store: each statement is a method over the tables, and completion is a fixed batch of them. */
module D1Store {
  import opened Wrappers
  import opened Records
  import opened StoreModel
  import D = D1Completion
  import S = SqliteCompletion
  import BulkJson
  import Refinement = CompletionRefinement
  import opened Effects
  import CompletionEffects

  class Store {
    var watches: map<WatchKey, WatchRow>
    var runs: map<RunKey, RunRow>
    var records: map<RecordKey, RecordRow>
    var observations: map<ObservationKey, ObservationRow>
    var deliveries: map<DeliveryKey, DeliveryRow>

    /** The whole database as one value. */
    function Contents(): Tables
      reads this
    {
      Tables(watches, runs, records, observations, deliveries)
    }

    constructor ()
      ensures Contents() == Tables(map[], map[], map[], map[], map[])
    {
      watches := map[];
      runs := map[];
      records := map[];
      observations := map[];
      deliveries := map[];
    }

    /** One `UPDATE` whose subquery names the due watch. Returns the updated row. */
    method ClaimDue(req: ClaimDueWatch) returns (r: Result<Option<ClaimedWatch>, StoreError>)
      modifies this`watches
      ensures Contents() == ClaimWatch(old(Contents()), req).0
      ensures if !ValidClaim(req) then r == Err(Validation)
              else match ClaimWatch(old(Contents()), req).1
                case None => r == Ok(None)
                case Some(k) => r == Ok(Some(ClaimedWatch(k, watches[k], req.owner, req.now + req.leaseSeconds)))
      ensures r.Ok? ==> ClaimsWatch(old(Contents()), req, Contents(), if r.value.Some? then Some(r.value.value.watch) else None)
    {
      hide ClaimsWatch;
      if ValidClaim(req) {
        ClaimIsExact(Contents(), req, ClaimWatch(Contents(), req).0, ClaimWatch(Contents(), req).1);
      }
      if !ValidClaim(req) {
        return Err(Validation);
      }
      var keys := ClaimableKeys(watches, req.tenant, req.now);
      if keys == {} {
        return Ok(None);
      }
      FirstDueExists(watches, req.tenant, req.now);
      var k :| k in keys && FirstDue(watches, req.tenant, req.now, k);
      FirstDueUnique(watches, req.tenant, req.now, k, DueWatch(watches, req.tenant, req.now).value);
      watches := watches[k := watches[k].(lease := Some(Lease(req.owner, req.now + req.leaseSeconds)))];
      r := Ok(Some(ClaimedWatch(k, watches[k], req.owner, req.now + req.leaseSeconds)));
    }

    method Start(req: StartWatchRun) returns (r: Result<RunKey, StoreError>)
      modifies this`runs
      ensures StartAnswers(old(Contents()), req, Contents(), r)
      ensures r.Ok? ==> StartsRun(old(Contents()), req, Contents())
      ensures r.Ok? ==> r.value in runs && r.value.watch == req.watch && runs[r.value].idempotency == req.idempotency
    {
      hide StartsRun;
      if ValidStart(req) && StartRun(Contents(), req).Ok? {
        StartIsExact(Contents(), req, StartRun(Contents(), req).value);
      }
      if !ValidStart(req) {
        return Err(Validation);
      }
      if HoldsLease(Contents(), req.watch, req.owner, req.startedAt)
         && RunsByIdempotency(Contents(), req.watch, req.idempotency) == {} {
        if RunKey(req.watch, req.run) in runs {
          return Err(Backend);
        }
        runs := runs[RunKey(req.watch, req.run) := NewRun(req)];
      }
      var found := RunsByIdempotency(Contents(), req.watch, req.idempotency);
      if found == {} {
        return Err(Conflict(NotClaimed));
      }
      var rk :| rk in found;
      r := Ok(rk);
    }

    method InsertRecords(req: CompleteWatchRun) returns (changes: nat)
      modifies this`records
      ensures Contents() == D.InsertRecords(old(Contents()), req)
      ensures changes == if CommitGate(old(Contents()), req) then |D.NewRecordKeys(old(Contents()), req)| else 0
    {
      if !CommitGate(Contents(), req) {
        return 0;
      }
      var added := D.NewRecordKeys(Contents(), req);
      records := records + map k | k in added ::
        RecordRow(D.FirstOf(req.records, k.identity), req.finishedAt, req.finishedAt);
      changes := |added|;
    }

    method UpdateRecords(req: CompleteWatchRun, pick: map<Identity, Record>)
      requires D.NamesAll(req.records, pick)
      modifies this`records
      ensures Contents() == D.UpdateRecords(old(Contents()), req, pick)
    {
      if CommitGate(Contents(), req) {
        var touched := D.RecordKeys(req);
        records := map k | k in records ::
          if k in touched then RecordRow(pick[k.identity], records[k].first, req.finishedAt) else records[k];
      }
    }

    method InsertRunDelivery(req: CompleteWatchRun, d: RunDelivery, pick: map<Identity, Record>)
      requires D.NamesAll(req.records, pick)
      modifies this`deliveries
      ensures Contents() == D.InsertRunDelivery(old(Contents()), req, d, pick)
      ensures CommitGate(old(Contents()), req) && (exists i :: Unseen(old(Contents()), req, i)) ==>
                var key := DeliveryKey(req.watch.tenant, d.delivery);
                key !in old(deliveries) ==>
                  && Puts(old(deliveries), deliveries, key) && QueuedRow(deliveries[key], req, d)
                  && (forall x :: x in deliveries[key].payload.records <==>
                        exists i :: Unseen(old(Contents()), req, i) && i in pick && x == pick[i])
    {
      hide Unseen, HoldsLease, RunIsRunning;
      UnseenMeans(Contents(), req, pick);
      var added := D.NewObservationKeys(Contents(), req);
      if CommitGate(Contents(), req) && added != {} {
        var key := DeliveryKey(req.watch.tenant, d.delivery);
        if key !in deliveries {
          deliveries := deliveries[key := NewDelivery(req, d, set k | k in added :: pick[k.identity])];
        }
      }
    }

    method InsertObservations(req: CompleteWatchRun) returns (changes: nat)
      modifies this`observations
      ensures Contents() == D.InsertObservations(old(Contents()), req)
      ensures changes == if CommitGate(old(Contents()), req) then |D.NewObservationKeys(old(Contents()), req)| else 0
    {
      if !CommitGate(Contents(), req) {
        return 0;
      }
      var added := D.NewObservationKeys(Contents(), req);
      observations := observations + map k | k in added :: ObservationRow(req.finishedAt, req.finishedAt);
      changes := |added|;
    }

    method UpdateObservations(req: CompleteWatchRun)
      modifies this`observations
      ensures Contents() == D.UpdateObservations(old(Contents()), req)
    {
      if CommitGate(Contents(), req) {
        var touched := D.ObservationKeys(req);
        observations := map k | k in observations ::
          if k in touched then ObservationRow(observations[k].first, req.finishedAt) else observations[k];
      }
    }

    method CloseRun(req: CompleteWatchRun) returns (changes: nat)
      modifies this`runs
      ensures Contents() == D.CompleteRun(old(Contents()), req)
      ensures changes == if CommitGate(old(Contents()), req) then 1 else 0
    {
      changes := 0;
      if CommitGate(Contents(), req) {
        var rk := RunKey(req.watch, req.run);
        runs := runs[rk := FinishedRun(runs[rk], req)];
        changes := 1;
      }
    }

    method RescheduleWatch(req: CompleteWatchRun) returns (changes: nat)
      modifies this`watches
      ensures Contents() == D.CompleteWatch(old(Contents()), req)
      ensures changes == if D.RescheduleGate(old(Contents()), req) then 1 else 0
    {
      changes := 0;
      if D.RescheduleGate(Contents(), req) {
        watches := watches[req.watch := Rescheduled(watches[req.watch], req)];
        changes := 1;
      }
    }

    /**
     * The completion: validation, the records as one JSON text, then the batch of a gate row, four
     * record statements and an optional outbox statement and two closing updates, and only after
     * the batch a look at what its statements reported.
     */
    method CompleteRun(req: CompleteWatchRun, picks: D.Picks) returns (r: Result<RunOutcome, StoreError>)
      requires D.LegalPicks(req.records, picks)
      modifies this
      ensures (Contents(), r) == D.Complete(old(Contents()), req, picks)
      ensures Refinement.StoresAgree(old(Contents()), req) ==>
                Refinement.SameEffect((Contents(), r), S.Complete(old(Contents()), req))
      ensures r.Ok? ==> MayComplete(old(Contents()), req) && Completed(old(Contents()), Contents(), req, r.value)
      ensures !(ValidCompletion(req) && BulkJson.Fits(req.records)) ==> Contents() == old(Contents()) && r == Err(Validation)
    {
      hide Completed, MayComplete, BulkJson.Fits, D.LegalUpdate, D.LegalPick, D.RecordStatements, S.Transaction, ValidCompletion;
      ghost var start := Contents();
      Refinement.AgreementIsExact(start, req);
      if !ValidCompletion(req) {
        return Err(Validation);
      }
      if !BulkJson.Fits(req.records) {
        return Err(Validation);
      }
      r := RunBatch(req, picks);
    }

    method RunBatch(req: CompleteWatchRun, picks: D.Picks) returns (r: Result<RunOutcome, StoreError>)
      requires D.LegalPicks(req.records, picks)
      modifies this
      ensures (Contents(), r) == D.Batch(old(Contents()), req, picks)
      ensures r.Ok? ==> MayComplete(old(Contents()), req) && Completed(old(Contents()), Contents(), req, r.value)
    {
      hide Completed, MayComplete, D.Assembled, D.NamesAll, D.InsertRecords, D.UpdateRecords, D.InsertRunDelivery, D.InsertObservations,
           D.UpdateObservations, D.CompleteRun, D.CompleteWatch, D.RescheduleGate, D.NewRecordKeys, D.NewObservationKeys;
      ghost var t := Contents();
      if D.Batch(t, req, picks).1.Ok? {
        BatchMayComplete(t, req, picks);
      }
      var gate := CommitGate(Contents(), req) && watches[req.watch].interval > 0;
      var recordsInserted := InsertRecords(req);
      ghost var t1 := Contents();
      UpdateRecords(req, picks.update);
      ghost var t2 := Contents();
      if req.delivery.Some? {
        InsertRunDelivery(req, req.delivery.value, picks.payload);
      }
      ghost var t3 := Contents();
      var observationsInserted := InsertObservations(req);
      UpdateObservations(req);
      ghost var t5 := Contents();
      var runChanges := CloseRun(req);
      var watchChanges := RescheduleWatch(req);
      assert t5 == D.RecordStatements(t, req, picks);
      InsertsCountAgainstTheStart(t, t1, t2, t3, req, picks);
      r := CompleteOutcome(req, gate, recordsInserted, observationsInserted, runChanges, watchChanges);
    }

    method ClaimPending(req: ClaimPendingDelivery) returns (r: Result<Option<DeliveryKey>, StoreError>)
      modifies this`deliveries
      ensures Contents() == ClaimDelivery(old(Contents()), req).0
      ensures r == if !ValidDeliveryClaim(req) then Err(Validation)
                   else Ok(ClaimDelivery(old(Contents()), req).1)
      ensures r.Ok? ==> ClaimsDelivery(old(Contents()), req, Contents(), r.value)
    {
      hide ClaimsDelivery;
      if ValidDeliveryClaim(req) {
        DeliveryClaimIsExact(Contents(), req, ClaimDelivery(Contents(), req).0, ClaimDelivery(Contents(), req).1);
      }
      if !ValidDeliveryClaim(req) {
        return Err(Validation);
      }
      var keys := SendableKeys(deliveries, req.tenant, req.now);
      if keys == {} {
        return Ok(None);
      }
      FirstSendableExists(deliveries, req.tenant, req.now);
      var k :| k in keys && FirstSendable(deliveries, req.tenant, req.now, k);
      FirstSendableUnique(deliveries, req.tenant, req.now, k, NextDelivery(deliveries, req.tenant, req.now).value);
      var row := deliveries[k];
      deliveries := deliveries[k := row.(
        status := Delivering, attempts := row.attempts + 1,
        lease := Some(Lease(req.owner, req.now + req.leaseSeconds)), error := None)];
      r := Ok(Some(k));
    }

    method Settle(req: CompleteDelivery) returns (r: Result<DeliveryRow, StoreError>)
      modifies this`deliveries
      ensures match SettleDelivery(old(Contents()), req)
              case Ok(u) => Contents() == u && r == Ok(u.deliveries[req.delivery])
              case Err(e) => Contents() == old(Contents()) && r == Err(e)
      ensures r.Ok? ==> SettlesDelivery(old(Contents()), req, Contents()) && r.value == deliveries[req.delivery]
    {
      hide SettlesDelivery;
      if ValidSettlement(req) && DeliveryLeased(Contents(), req) {
        SettlementIsExact(Contents(), req, SettleDelivery(Contents(), req).value);
      }
      if !ValidSettlement(req) {
        return Err(Validation);
      }
      if !DeliveryLeased(Contents(), req) {
        return Err(Conflict(DeliveryNotLeased));
      }
      deliveries := deliveries[req.delivery := SettledDelivery(deliveries[req.delivery], req)];
      r := Ok(deliveries[req.delivery]);
    }
  }

  /** The keys to add are those of the unseen identities, and the payload holds their picks. */
  lemma UnseenMeans(t: Tables, req: CompleteWatchRun, pick: map<Identity, Record>)
    requires D.NamesAll(req.records, pick)
    ensures D.NewObservationKeys(t, req) == {} <==> !exists i :: Unseen(t, req, i)
    ensures forall x :: x in D.NewPayload(t, req, pick) <==> exists i :: Unseen(t, req, i) && i in pick && x == pick[i]
  {
    hide D.ObservationKeys, D.RecordKeys, Incoming;
    CompletionEffects.IncomingKeys(req);
    forall i
      ensures Unseen(t, req, i) <==> ObservationKey(req.watch, i) in D.NewObservationKeys(t, req)
    {
      CompletionEffects.IncomingMeans(req, i);
    }
    forall k | k in D.NewObservationKeys(t, req)
      ensures Unseen(t, req, k.identity) && k.identity in pick
    {
      assert k == ObservationKey(req.watch, k.identity);
      CompletionEffects.IncomingMeans(req, k.identity);
    }
    forall i | Unseen(t, req, i) && i in pick
      ensures pick[i] in D.NewPayload(t, req, pick)
    {
      assert ObservationKey(req.watch, i).identity == i;
    }
  }

  lemma BatchMayComplete(t: Tables, req: CompleteWatchRun, picks: D.Picks)
    requires D.LegalPicks(req.records, picks) && D.Batch(t, req, picks).1.Ok?
    ensures MayComplete(t, req) && Completed(t, D.Batch(t, req, picks).0, req, D.Batch(t, req, picks).1.value)
  {
    hide Completed, MayComplete, D.LegalPicks, D.RecordStatements;
    CompletionEffects.GateIsExact(t, req);
    CompletionEffects.BatchCompletes(t, req, picks);
  }

  /** The row counts of the two inserts, read against the tables before the batch. */
  lemma InsertsCountAgainstTheStart(t: Tables, t1: Tables, t2: Tables, t3: Tables, req: CompleteWatchRun, picks: D.Picks)
    requires D.LegalPicks(req.records, picks)
    requires t1 == D.InsertRecords(t, req)
    requires t2 == D.UpdateRecords(t1, req, picks.update)
    requires t3 == if req.delivery.Some? then D.InsertRunDelivery(t2, req, req.delivery.value, picks.payload) else t2
    ensures D.NewObservationKeys(t3, req) == D.NewObservationKeys(t, req)
    ensures CommitGate(t3, req) <==> CommitGate(t, req)
  {
    Refinement.InsertRecordsFrame(t, req);
    Refinement.UpdateRecordsFrame(t1, req, picks.update);
    if req.delivery.Some? {
      Refinement.InsertRunDeliveryFrame(t2, req, req.delivery.value, picks.payload);
    }
    Refinement.GateFrame(t, t3, req);
  }

  /** `complete_outcome`: a closed gate, then an unchanged run, then an unchanged watch are conflicts. */
  function CompleteOutcome(
    req: CompleteWatchRun, gate: bool, recordsInserted: nat, observationsInserted: nat, runChanges: nat, watchChanges: nat)
    : Result<RunOutcome, StoreError>
  {
    if !gate then Err(Conflict(if req.error.Some? then RunNotRunning else LeaseNotHeld))
    else if runChanges != 1 then Err(Conflict(RunNotRunning))
    else if watchChanges != 1 then Err(Conflict(LeaseNotHeld))
    else Ok(RunOutcome(req.run, StatusFor(req.error), |req.records|, recordsInserted, observationsInserted))
  }
}
