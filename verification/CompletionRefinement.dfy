/**
 * The D1 batch refines the SQLite transaction. The two agree on a completion exactly when validation
 * refuses it on both, or its records fit the length limit of one bound value and, with the gate open,
 * the interval is positive and records that share an identity are equal, or, with the gate shut, so is
 * the gate of the batch's last statement. Searches return records with distinct identities.
 */
module CompletionRefinement {
  import opened Wrappers
  import opened Records
  import opened StoreModel
  import S = SqliteCompletion
  import D = D1Completion
  import BulkJson

  // ------------------------------------------------- closed form of the loop

  /** The last of the first `n` records with an identity: the content a sequence of upserts leaves. */
  function LastBefore(rs: seq<Record>, n: nat, i: Identity): (r: Option<Record>)
    requires n <= |rs|
    ensures r.Some? ==> r.value in rs && IdentityOf(r.value) == i
    ensures r.None? ==> forall j :: 0 <= j < n ==> IdentityOf(rs[j]) != i
  {
    if n == 0 then None
    else if IdentityOf(rs[n - 1]) == i then Some(rs[n - 1])
    else LastBefore(rs, n - 1, i)
  }

  function TouchedRecords(req: CompleteWatchRun, n: nat): set<RecordKey>
    requires n <= |req.records|
  {
    if n == 0 then {} else TouchedRecords(req, n - 1) + {S.KeyOf(req, req.records[n - 1])}
  }

  function TouchedObservations(req: CompleteWatchRun, n: nat): set<ObservationKey>
    requires n <= |req.records|
  {
    if n == 0 then {} else TouchedObservations(req, n - 1) + {S.SeenKeyOf(req, req.records[n - 1])}
  }

  lemma {:induction false} TouchedMeans(req: CompleteWatchRun, n: nat, i: Identity)
    requires n <= |req.records|
    ensures RecordKey(req.watch.tenant, i) in TouchedRecords(req, n) <==> LastBefore(req.records, n, i).Some?
    ensures ObservationKey(req.watch, i) in TouchedObservations(req, n) <==> LastBefore(req.records, n, i).Some?
  {
    if n > 0 {
      TouchedMeans(req, n - 1, i);
    }
  }

  lemma {:induction false} TouchedShape(req: CompleteWatchRun, n: nat)
    requires n <= |req.records|
    ensures forall k :: k in TouchedRecords(req, n) ==> k.tenant == req.watch.tenant
    ensures forall k :: k in TouchedObservations(req, n) ==> k.watch == req.watch
  {
    if n > 0 {
      TouchedShape(req, n - 1);
    }
  }

  /** The loop touches exactly the keys the set-oriented statements name. */
  lemma TouchedAll(req: CompleteWatchRun)
    ensures TouchedRecords(req, |req.records|) == D.RecordKeys(req)
    ensures TouchedObservations(req, |req.records|) == D.ObservationKeys(req)
  {
    var n := |req.records|;
    TouchedShape(req, n);
    forall i
      ensures i in Identities(req.records) <==> LastBefore(req.records, n, i).Some?
      ensures RecordKey(req.watch.tenant, i) in TouchedRecords(req, n) <==> i in Identities(req.records)
      ensures ObservationKey(req.watch, i) in TouchedObservations(req, n) <==> i in Identities(req.records)
    {
      TouchedMeans(req, n, i);
      if i in Identities(req.records) {
        var r :| r in req.records && IdentityOf(r) == i;
        var j :| 0 <= j < n && req.records[j] == r;
      }
    }
    forall k
      ensures k in TouchedRecords(req, n) <==> k in D.RecordKeys(req)
    {
      if k in TouchedRecords(req, n) { assert k == RecordKey(req.watch.tenant, k.identity); }
    }
    forall k
      ensures k in TouchedObservations(req, n) <==> k in D.ObservationKeys(req)
    {
      if k in TouchedObservations(req, n) { assert k == ObservationKey(req.watch, k.identity); }
    }
  }

  lemma {:induction false} LoopKeys(t: Tables, req: CompleteWatchRun, n: nat)
    requires n <= |req.records|
    ensures S.AfterRecords(t, req, n).records.Keys == t.records.Keys + TouchedRecords(req, n)
    ensures S.AfterRecords(t, req, n).observations.Keys == t.observations.Keys + TouchedObservations(req, n)
  {
    hide S.UpsertRecord, S.UpsertObservation, S.KeyOf, S.SeenKeyOf;
    if n > 0 {
      LoopKeys(t, req, n - 1);
      var q := S.AfterRecords(t, req, n - 1);
      UpsertKeys(q.records, q.observations, req, req.records[n - 1]);
    }
  }

  lemma UpsertKeys(
    records: map<RecordKey, RecordRow>, observations: map<ObservationKey, ObservationRow>, req: CompleteWatchRun, r: Record)
    ensures S.UpsertRecord(records, req, r).Keys == records.Keys + {S.KeyOf(req, r)}
    ensures S.UpsertObservation(observations, req, r).Keys == observations.Keys + {S.SeenKeyOf(req, r)}
  {
    hide S.KeyOf, S.SeenKeyOf;
  }

  /** How many of the touched keys the table did not hold. */
  function NewKeys<K>(touched: set<K>, held: set<K>): nat { |touched - held| }

  lemma GrowingCount<K>(held: set<K>, touched: set<K>, k: K)
    ensures NewKeys(touched + {k}, held) == NewKeys(touched, held) + (if k in held + touched then 0 else 1)
  {
    if k in held + touched {
      assert (touched + {k}) - held == touched - held;
    } else {
      assert (touched + {k}) - held == (touched - held) + {k};
    }
  }

  /** The counters count distinct identities that the tables did not hold before. */
  predicate Counted(p: S.Progress, t: Tables, rows: set<RecordKey>, seen: set<ObservationKey>) {
    && p.recordsInserted == NewKeys(rows, t.records.Keys)
    && p.observationsInserted == NewKeys(seen, t.observations.Keys)
  }

  lemma NothingTouched(t: Tables)
    ensures Counted(S.Progress(t.records, t.observations, 0, 0, []), t, {}, {})
  {
    assert {} - t.records.Keys == {};
    assert {} - t.observations.Keys == {};
  }

  lemma ObserveCounts(p: S.Progress, t: Tables, req: CompleteWatchRun, r: Record,
                      rows: set<RecordKey>, seen: set<ObservationKey>)
    requires p.records.Keys == t.records.Keys + rows && p.observations.Keys == t.observations.Keys + seen
    requires Counted(p, t, rows, seen)
    ensures Counted(S.Observe(p, req, r), t, rows + {S.KeyOf(req, r)}, seen + {S.SeenKeyOf(req, r)})
  {
    hide NewKeys;
    GrowingCount(t.records.Keys, rows, S.KeyOf(req, r));
    GrowingCount(t.observations.Keys, seen, S.SeenKeyOf(req, r));
  }

  lemma {:induction false} LoopCounts(t: Tables, req: CompleteWatchRun, n: nat)
    requires n <= |req.records|
    ensures Counted(S.AfterRecords(t, req, n), t, TouchedRecords(req, n), TouchedObservations(req, n))
    decreases n
  {
    hide Counted, S.Observe, S.KeyOf, S.SeenKeyOf;
    if n == 0 {
      NothingTouched(t);
    } else {
      LoopCounts(t, req, n - 1);
      LoopKeys(t, req, n - 1);
      ObserveCounts(S.AfterRecords(t, req, n - 1), t, req, req.records[n - 1],
                    TouchedRecords(req, n - 1), TouchedObservations(req, n - 1));
    }
  }

  /** The row the loop leaves under one key of `records`. */
  lemma {:induction false} LoopRecordRow(t: Tables, req: CompleteWatchRun, n: nat, k: RecordKey)
    requires n <= |req.records|
    requires k in S.AfterRecords(t, req, n).records
    ensures k !in TouchedRecords(req, n) ==> k in t.records && S.AfterRecords(t, req, n).records[k] == t.records[k]
    ensures k in TouchedRecords(req, n) ==>
              && LastBefore(req.records, n, k.identity).Some?
              && S.AfterRecords(t, req, n).records[k] == RecordRow(
                   LastBefore(req.records, n, k.identity).value,
                   if k in t.records then t.records[k].first else req.finishedAt,
                   req.finishedAt)
  {
    hide S.UpsertObservation, S.SeenKeyOf, TouchedObservations;
    if n > 0 {
      var q := S.AfterRecords(t, req, n - 1);
      var r := req.records[n - 1];
      LoopKeys(t, req, n - 1);
      assert S.AfterRecords(t, req, n).records == S.UpsertRecord(q.records, req, r);
      if k in q.records {
        LoopRecordRow(t, req, n - 1, k);
      }
      if k != S.KeyOf(req, r) && k in TouchedRecords(req, n - 1) {
        TouchedShape(req, n - 1);
        assert IdentityOf(r) != k.identity;
      }
    }
  }

  /** The row the loop leaves under one key of `watch_records`. */
  lemma {:induction false} LoopObservationRow(t: Tables, req: CompleteWatchRun, n: nat, k: ObservationKey)
    requires n <= |req.records|
    requires k in S.AfterRecords(t, req, n).observations
    ensures k !in TouchedObservations(req, n) ==>
              k in t.observations && S.AfterRecords(t, req, n).observations[k] == t.observations[k]
    ensures k in TouchedObservations(req, n) ==>
              S.AfterRecords(t, req, n).observations[k] == ObservationRow(
                if k in t.observations then t.observations[k].first else req.finishedAt, req.finishedAt)
  {
    hide S.UpsertRecord, S.KeyOf, TouchedRecords;
    if n > 0 {
      LoopKeys(t, req, n - 1);
      if k in S.AfterRecords(t, req, n - 1).observations {
        LoopObservationRow(t, req, n - 1, k);
      }
    }
  }

  /** Every record sent to the outbox is an incoming one the watch had not observed. */
  lemma {:induction false} LoopNewRecordsSound(t: Tables, req: CompleteWatchRun, n: nat, r: Record)
    requires n <= |req.records|
    requires r in S.AfterRecords(t, req, n).newRecords
    ensures r in req.records
    ensures S.SeenKeyOf(req, r) in TouchedObservations(req, n)
    ensures S.SeenKeyOf(req, r) !in t.observations
  {
    hide S.UpsertRecord, S.UpsertObservation, S.KeyOf, TouchedRecords;
    if n > 0 {
      LoopKeys(t, req, n - 1);
      if r in S.AfterRecords(t, req, n - 1).newRecords {
        LoopNewRecordsSound(t, req, n - 1, r);
      }
    }
  }

  /** The outbox list names each newly observed identity. */
  lemma {:induction false} LoopNewRecordsComplete(t: Tables, req: CompleteWatchRun, n: nat, k: ObservationKey) returns (r: Record)
    requires n <= |req.records|
    requires k in TouchedObservations(req, n) && k !in t.observations
    ensures r in S.AfterRecords(t, req, n).newRecords && S.SeenKeyOf(req, r) == k
  {
    LoopKeys(t, req, n - 1);
    if k in TouchedObservations(req, n - 1) {
      r := LoopNewRecordsComplete(t, req, n - 1, k);
    } else {
      r := req.records[n - 1];
    }
  }

  /** The outbox list names no identity twice. */
  lemma {:induction false} LoopNewRecordsDistinct(t: Tables, req: CompleteWatchRun, n: nat)
    requires n <= |req.records|
    ensures DistinctIdentities(S.AfterRecords(t, req, n).newRecords)
  {
    hide S.UpsertRecord, S.UpsertObservation, S.KeyOf, DistinctIdentities;
    if n > 0 {
      LoopNewRecordsDistinct(t, req, n - 1);
      var q := S.AfterRecords(t, req, n - 1);
      var r := req.records[n - 1];
      if S.SeenKeyOf(req, r) !in q.observations {
        NewcomerIsNew(t, req, n - 1, r);
        DistinctSnoc(q.newRecords, r);
      }
    } else {
      NoneAreDistinct();
    }
  }

  lemma NoneAreDistinct()
    ensures DistinctIdentities([])
  {
  }

  lemma NewcomerIsNew(t: Tables, req: CompleteWatchRun, n: nat, r: Record)
    requires n <= |req.records| && S.SeenKeyOf(req, r) !in S.AfterRecords(t, req, n).observations
    ensures forall x :: x in S.AfterRecords(t, req, n).newRecords ==> IdentityOf(x) != IdentityOf(r)
  {
    hide S.AfterRecords;
    LoopKeys(t, req, n);
    forall x | x in S.AfterRecords(t, req, n).newRecords
      ensures IdentityOf(x) != IdentityOf(r)
    {
      LoopNewRecordsSound(t, req, n, x);
    }
  }

  lemma DistinctSnoc(rs: seq<Record>, r: Record)
    requires DistinctIdentities(rs)
    requires forall x :: x in rs ==> IdentityOf(x) != IdentityOf(r)
    ensures DistinctIdentities(rs + [r])
  {
  }

  // ------------------------------------------------- closed form of the batch

  /** The tables the gates read. */
  predicate SameGates(t: Tables, u: Tables) {
    u.watches == t.watches && u.runs == t.runs
  }

  lemma GateFrame(t: Tables, u: Tables, req: CompleteWatchRun)
    requires SameGates(t, u)
    ensures CommitGate(u, req) <==> CommitGate(t, req)
  {
  }

  /** The states between the five record statements. */
  lemma Stages(t: Tables, req: CompleteWatchRun, picks: D.Picks) returns (t1: Tables, t2: Tables, t3: Tables, t4: Tables, t5: Tables)
    requires D.LegalPicks(req.records, picks)
    ensures t1 == D.InsertRecords(t, req)
    ensures t2 == D.UpdateRecords(t1, req, picks.update)
    ensures t3 == if req.delivery.Some? then D.InsertRunDelivery(t2, req, req.delivery.value, picks.payload) else t2
    ensures t4 == D.InsertObservations(t3, req)
    ensures t5 == D.UpdateObservations(t4, req) == D.RecordStatements(t, req, picks)
  {
    t1 := D.InsertRecords(t, req);
    t2 := D.UpdateRecords(t1, req, picks.update);
    t3 := if req.delivery.Some? then D.InsertRunDelivery(t2, req, req.delivery.value, picks.payload) else t2;
    t4 := D.InsertObservations(t3, req);
    t5 := D.UpdateObservations(t4, req);
  }

  lemma RecordStatementsFrame(t: Tables, req: CompleteWatchRun, picks: D.Picks)
    requires D.LegalPicks(req.records, picks)
    ensures SameGates(t, D.RecordStatements(t, req, picks))
    ensures CommitGate(D.RecordStatements(t, req, picks), req) <==> CommitGate(t, req)
    ensures !CommitGate(t, req) ==> D.RecordStatements(t, req, picks) == t
  {
    var t1, t2, t3, t4, t5 := Stages(t, req, picks);
    InsertRecordsFrame(t, req);
    UpdateRecordsFrame(t1, req, picks.update);
    if req.delivery.Some? {
      InsertRunDeliveryFrame(t2, req, req.delivery.value, picks.payload);
    }
    InsertObservationsFrame(t3, req);
    UpdateObservationsFrame(t4, req);
    GateFrame(t, t5, req);
    if !CommitGate(t, req) {
      GateFrame(t, t1, req);
      GateFrame(t, t2, req);
      GateFrame(t, t3, req);
      GateFrame(t, t4, req);
    }
  }

  lemma InsertRecordsFrame(t: Tables, req: CompleteWatchRun)
    ensures var u := D.InsertRecords(t, req);
            SameGates(t, u) && u.observations == t.observations && u.deliveries == t.deliveries
  {
  }

  lemma UpdateRecordsFrame(t: Tables, req: CompleteWatchRun, pick: map<Identity, Record>)
    requires D.NamesAll(req.records, pick)
    ensures var u := D.UpdateRecords(t, req, pick);
            SameGates(t, u) && u.observations == t.observations && u.deliveries == t.deliveries
  {
  }

  lemma InsertRunDeliveryFrame(t: Tables, req: CompleteWatchRun, d: RunDelivery, pick: map<Identity, Record>)
    requires D.NamesAll(req.records, pick)
    ensures var u := D.InsertRunDelivery(t, req, d, pick);
            SameGates(t, u) && u.observations == t.observations && u.records == t.records
  {
  }

  lemma InsertObservationsFrame(t: Tables, req: CompleteWatchRun)
    ensures var u := D.InsertObservations(t, req);
            SameGates(t, u) && u.records == t.records && u.deliveries == t.deliveries
  {
  }

  lemma UpdateObservationsFrame(t: Tables, req: CompleteWatchRun)
    ensures var u := D.UpdateObservations(t, req);
            SameGates(t, u) && u.records == t.records && u.deliveries == t.deliveries
  {
  }

  function RecordsAfterBatch(t: Tables, req: CompleteWatchRun, pick: map<Identity, Record>): map<RecordKey, RecordRow>
    requires D.NamesAll(req.records, pick)
  {
    map k | k in t.records.Keys + D.RecordKeys(req) ::
      if k in D.RecordKeys(req) then RecordRow(
        pick[k.identity], if k in t.records then t.records[k].first else req.finishedAt, req.finishedAt)
      else t.records[k]
  }

  lemma InsertedRows(t: Tables, req: CompleteWatchRun)
    requires CommitGate(t, req)
    ensures var rows := D.InsertRecords(t, req).records;
            && rows.Keys == t.records.Keys + D.RecordKeys(req)
            && (forall k :: k in t.records ==> rows[k] == t.records[k])
            && (forall k :: k in rows && k !in t.records ==> rows[k].first == req.finishedAt)
  {
    hide CommitGate, D.RecordKeys, D.FirstOf;
  }

  lemma RecordUpsert(t: Tables, req: CompleteWatchRun, pick: map<Identity, Record>)
    requires D.NamesAll(req.records, pick)
    requires CommitGate(t, req)
    ensures D.UpdateRecords(D.InsertRecords(t, req), req, pick).records == RecordsAfterBatch(t, req, pick)
  {
    hide CommitGate, D.RecordKeys, D.InsertRecords, D.NamesAll;
    InsertedRows(t, req);
    InsertRecordsFrame(t, req);
    GateFrame(t, D.InsertRecords(t, req), req);
  }

  lemma RecordStatementsRecords(t: Tables, req: CompleteWatchRun, picks: D.Picks)
    requires D.LegalPicks(req.records, picks)
    requires CommitGate(t, req)
    ensures D.RecordStatements(t, req, picks).records == RecordsAfterBatch(t, req, picks.update)
  {
    var t1, t2, t3, t4, t5 := Stages(t, req, picks);
    RecordUpsert(t, req, picks.update);
    if req.delivery.Some? {
      InsertRunDeliveryFrame(t2, req, req.delivery.value, picks.payload);
    }
    InsertObservationsFrame(t3, req);
    UpdateObservationsFrame(t4, req);
  }

  function ObservationsAfterBatch(t: Tables, req: CompleteWatchRun): map<ObservationKey, ObservationRow> {
    map k | k in t.observations.Keys + D.ObservationKeys(req) ::
      if k in D.ObservationKeys(req) then ObservationRow(
        if k in t.observations then t.observations[k].first else req.finishedAt, req.finishedAt)
      else t.observations[k]
  }

  lemma ObservationUpsert(t: Tables, req: CompleteWatchRun)
    requires CommitGate(t, req)
    ensures D.UpdateObservations(D.InsertObservations(t, req), req).observations == ObservationsAfterBatch(t, req)
  {
    hide CommitGate, D.ObservationKeys;
    var t4 := D.InsertObservations(t, req);
    InsertObservationsFrame(t, req);
    GateFrame(t, t4, req);
    assert t4.observations.Keys == t.observations.Keys + D.ObservationKeys(req);
  }

  lemma RecordStatementsObservations(t: Tables, req: CompleteWatchRun, picks: D.Picks)
    requires D.LegalPicks(req.records, picks)
    requires CommitGate(t, req)
    ensures D.RecordStatements(t, req, picks).observations == ObservationsAfterBatch(t, req)
  {
    var t1, t2, t3, t4, t5 := Stages(t, req, picks);
    InsertRecordsFrame(t, req);
    UpdateRecordsFrame(t1, req, picks.update);
    if req.delivery.Some? {
      InsertRunDeliveryFrame(t2, req, req.delivery.value, picks.payload);
    }
    GateFrame(t, t3, req);
    ObservationUpsert(t3, req);
    assert ObservationsAfterBatch(t3, req) == ObservationsAfterBatch(t, req);
  }

  function DeliveriesAfterBatch(t: Tables, req: CompleteWatchRun, pick: map<Identity, Record>): map<DeliveryKey, DeliveryRow>
    requires D.NamesAll(req.records, pick)
  {
    if req.delivery.None? || D.NewObservationKeys(t, req) == {} then t.deliveries else
    var key := DeliveryKey(req.watch.tenant, req.delivery.value.delivery);
    if key in t.deliveries then t.deliveries
    else t.deliveries[key := NewDelivery(req, req.delivery.value, D.NewPayload(t, req, pick))]
  }

  lemma DeliveryInsert(t: Tables, u: Tables, req: CompleteWatchRun, d: RunDelivery, pick: map<Identity, Record>)
    requires D.NamesAll(req.records, pick)
    requires CommitGate(u, req)
    requires req.delivery == Some(d)
    requires u.observations == t.observations && u.deliveries == t.deliveries
    ensures D.InsertRunDelivery(u, req, d, pick).deliveries == DeliveriesAfterBatch(t, req, pick)
  {
    assert D.NewObservationKeys(u, req) == D.NewObservationKeys(t, req);
    assert D.NewPayload(u, req, pick) == D.NewPayload(t, req, pick);
  }

  lemma RecordStatementsDeliveries(t: Tables, req: CompleteWatchRun, picks: D.Picks)
    requires D.LegalPicks(req.records, picks)
    requires CommitGate(t, req)
    ensures D.RecordStatements(t, req, picks).deliveries == DeliveriesAfterBatch(t, req, picks.payload)
  {
    var t1, t2, t3, t4, t5 := Stages(t, req, picks);
    InsertRecordsFrame(t, req);
    UpdateRecordsFrame(t1, req, picks.update);
    GateFrame(t, t2, req);
    if req.delivery.Some? {
      DeliveryInsert(t, t2, req, req.delivery.value, picks.payload);
    }
    InsertObservationsFrame(t3, req);
    UpdateObservationsFrame(t4, req);
  }

  // --------------------------------------------------------------- refinement

  lemma RecordsAgree(t: Tables, req: CompleteWatchRun, picks: D.Picks)
    requires D.LegalPicks(req.records, picks)
    requires CommitGate(t, req)
    requires forall i :: i in Identities(req.records) ==>
               LastBefore(req.records, |req.records|, i) == Some(picks.update[i])
    ensures D.RecordStatements(t, req, picks).records == S.AfterRecords(t, req, |req.records|).records
  {
    hide CommitGate, D.RecordStatements, S.AfterRecords, TouchedRecords, LastBefore, D.LegalPicks, D.NamesAll;
    var n := |req.records|;
    LoopKeys(t, req, n);
    TouchedAll(req);
    RecordStatementsRecords(t, req, picks);
    var mine := D.RecordStatements(t, req, picks).records;
    var theirs := S.AfterRecords(t, req, n).records;
    forall k | k in theirs
      ensures k in mine && mine[k] == theirs[k]
    {
      LoopRecordRow(t, req, n, k);
    }
  }

  lemma ObservationsAgree(t: Tables, req: CompleteWatchRun, picks: D.Picks)
    requires D.LegalPicks(req.records, picks)
    requires CommitGate(t, req)
    ensures D.RecordStatements(t, req, picks).observations == S.AfterRecords(t, req, |req.records|).observations
  {
    hide CommitGate, D.RecordStatements, S.AfterRecords, TouchedObservations, D.LegalPicks, Identities;
    var n := |req.records|;
    LoopKeys(t, req, n);
    TouchedAll(req);
    RecordStatementsObservations(t, req, picks);
    var mine := D.RecordStatements(t, req, picks).observations;
    var theirs := S.AfterRecords(t, req, n).observations;
    forall k | k in theirs
      ensures k in mine && mine[k] == theirs[k]
    {
      LoopObservationRow(t, req, n, k);
    }
  }

  /** Both outboxes queue the same set of records. */
  lemma PayloadsAgree(t: Tables, req: CompleteWatchRun, pick: map<Identity, Record>)
    requires D.LegalPick(req.records, pick)
    requires Consistent(req.records)
    ensures (set r | r in S.AfterRecords(t, req, |req.records|).newRecords) == D.NewPayload(t, req, pick)
    ensures S.AfterRecords(t, req, |req.records|).newRecords == [] <==> D.NewObservationKeys(t, req) == {}
  {
    hide S.AfterRecords;
    var n := |req.records|;
    var list := S.AfterRecords(t, req, n).newRecords;
    var keys := D.NewObservationKeys(t, req);
    TouchedAll(req);
    forall r | r in list
      ensures S.SeenKeyOf(req, r) in keys && r == pick[IdentityOf(r)]
      ensures r in D.NewPayload(t, req, pick)
    {
      LoopNewRecordsSound(t, req, n, r);
      assert IdentityOf(r) in Identities(req.records);
      assert r == pick[S.SeenKeyOf(req, r).identity];
    }
    forall k | k in keys
      ensures pick[k.identity] in list
    {
      var r := LoopNewRecordsComplete(t, req, n, k);
      LoopNewRecordsSound(t, req, n, r);
    }
    if keys != {} {
      var k :| k in keys;
      assert pick[k.identity] in list;
    }
    if list != [] {
      assert list[0] in list;
      assert S.SeenKeyOf(req, list[0]) in keys;
    }
  }

  /** What a caller can tell two completions apart by, apart from the wording of a conflict. */
  predicate SameEffect(a: (Tables, Result<RunOutcome, StoreError>), b: (Tables, Result<RunOutcome, StoreError>)) {
    && a.0 == b.0
    && (a.1 == b.1 || (a.1.Err? && b.1.Err? && a.1.error.Conflict? && b.1.error.Conflict?))
  }

  lemma ClosingUpdatesAgree(t: Tables, req: CompleteWatchRun, picks: D.Picks)
    requires D.LegalPicks(req.records, picks)
    requires CommitGate(t, req)
    ensures var d := D.Batch(t, req, picks).0;
            var s := S.Transaction(t, req).0;
            && d.watches == s.watches && d.runs == s.runs
            && d.records == D.RecordStatements(t, req, picks).records
            && d.observations == D.RecordStatements(t, req, picks).observations
            && d.deliveries == D.RecordStatements(t, req, picks).deliveries
    ensures var t5 := D.RecordStatements(t, req, picks);
            CommitGate(t5, req) && D.RescheduleGate(D.CompleteRun(t5, req), req)
  {
    hide D.LegalPicks, D.RecordStatements, S.AfterRecords;
    RecordStatementsFrame(t, req, picks);
  }

  /** Where all records of an identity are equal, so are their columns. */
  lemma UpdateIsPick(rs: seq<Record>, pick: map<Identity, Record>)
    requires Consistent(rs) && D.LegalUpdate(rs, pick)
    ensures D.LegalPick(rs, pick)
  {
    forall i | i in pick
      ensures pick[i] in rs
    {
      var p := pick[i];
      var r :| r in rs && D.Sibling(rs, r, p) && r.kind == p.kind;
      assert forall q | q in rs :: D.Sibling(rs, q, p) ==> q == r;
      assert p == r;
    }
  }

  lemma PickIsUpdate(rs: seq<Record>, pick: map<Identity, Record>)
    requires D.LegalPick(rs, pick)
    ensures D.LegalUpdate(rs, pick)
  {
    forall i | i in pick
      ensures D.Assembled(rs, pick[i])
    {
      assert D.Sibling(rs, pick[i], pick[i]);
    }
  }

  /** With consistent records the batch and the transaction leave the same tables. */
  lemma BatchTablesRefine(t: Tables, req: CompleteWatchRun, picks: D.Picks)
    requires D.LegalPicks(req.records, picks)
    requires CommitGate(t, req)
    requires Consistent(req.records)
    ensures D.Batch(t, req, picks).0 == S.Transaction(t, req).0
  {
    hide D.RecordStatements, S.AfterRecords, LastBefore, D.LegalUpdate;
    UpdateIsPick(req.records, picks.update);
    var n := |req.records|;
    ClosingUpdatesAgree(t, req, picks);
    forall i | i in Identities(req.records)
      ensures LastBefore(req.records, n, i) == Some(picks.update[i])
    {
      LastIsPick(req.records, i, picks.update[i]);
    }
    RecordsAgree(t, req, picks);
    ObservationsAgree(t, req, picks);
    PayloadsAgree(t, req, picks.payload);
    RecordStatementsDeliveries(t, req, picks);
  }

  lemma OutcomesAgree(t: Tables, req: CompleteWatchRun, picks: D.Picks)
    requires D.LegalPicks(req.records, picks)
    requires CommitGate(t, req) && t.watches[req.watch].interval > 0
    ensures D.Batch(t, req, picks).1 == S.Transaction(t, req).1
  {
    hide D.RecordStatements, S.AfterRecords, D.LegalPicks, TouchedRecords, TouchedObservations;
    ClosingUpdatesAgree(t, req, picks);
    LoopCounts(t, req, |req.records|);
    TouchedAll(req);
  }

  /** With consistent records the batch and the transaction leave the same tables and report the same counts. */
  lemma BatchRefinesTransaction(t: Tables, req: CompleteWatchRun, picks: D.Picks)
    requires D.LegalPicks(req.records, picks)
    requires CommitGate(t, req) && t.watches[req.watch].interval > 0
    requires Consistent(req.records)
    ensures D.Batch(t, req, picks) == S.Transaction(t, req)
  {
    hide D.Batch, S.Transaction, D.LegalPicks;
    BatchTablesRefine(t, req, picks);
    OutcomesAgree(t, req, picks);
  }

  lemma LastIsPick(rs: seq<Record>, i: Identity, r: Record)
    requires Consistent(rs)
    requires r in rs && IdentityOf(r) == i
    ensures LastBefore(rs, |rs|, i) == Some(r)
  {
    var j :| 0 <= j < |rs| && rs[j] == r;
  }

  /**
   * All-or-nothing without a rollback, exactly: when the gate fails, the batch leaves the tables
   * alone if and only if no run of this owner was closed in this second while the lease is live.
   */
  lemma FailedGateIsExact(t: Tables, req: CompleteWatchRun, picks: D.Picks)
    requires D.LegalPicks(req.records, picks)
    requires !CommitGate(t, req)
    ensures D.Batch(t, req, picks).1.Err? && D.Batch(t, req, picks).1.error.Conflict?
    ensures D.Batch(t, req, picks).0 == t <==> !D.RescheduleGate(t, req)
    ensures D.RescheduleGate(t, req) ==>
              D.Batch(t, req, picks).0 == t.(watches := t.watches[req.watch := Rescheduled(t.watches[req.watch], req)])
    ensures S.Transaction(t, req).0 == t && S.Transaction(t, req).1.Err? && S.Transaction(t, req).1.error.Conflict?
  {
    hide D.LegalPicks, D.RecordStatements;
    RecordStatementsFrame(t, req, picks);
    if D.RescheduleGate(t, req) {
      assert D.Batch(t, req, picks).0.watches[req.watch].lease == None;
    }
  }

  function FirstPick(rs: seq<Record>): (pick: map<Identity, Record>)
    ensures D.LegalPick(rs, pick)
  {
    map i | i in Identities(rs) :: D.FirstOf(rs, i)
  }

  /** Some choice of the engine is always legal. */
  lemma FirstPicks(rs: seq<Record>) returns (picks: D.Picks)
    ensures D.LegalPicks(rs, picks)
  {
    picks := D.Picks(FirstPick(rs), FirstPick(rs));
    PickIsUpdate(rs, picks.update);
  }

  lemma OtherPick(rs: seq<Record>) returns (i: Identity, picks: D.Picks)
    requires !Consistent(rs)
    ensures i in Identities(rs) && D.LegalPicks(rs, picks) && i in picks.update
    ensures LastBefore(rs, |rs|, i).Some? && picks.update[i] != LastBefore(rs, |rs|, i).value
  {
    hide D.LegalPick, LastBefore;
    var r, q :| r in rs && q in rs && IdentityOf(r) == IdentityOf(q) && r != q;
    i := IdentityOf(r);
    var a :| 0 <= a < |rs| && rs[a] == r;
    var last := LastBefore(rs, |rs|, i).value;
    var other := if last == r then q else r;
    var first := FirstPick(rs);
    OverriddenPick(rs, first, other);
    picks := D.Picks(first[i := other], first);
    PickIsUpdate(rs, picks.update);
  }

  lemma OverriddenPick(rs: seq<Record>, pick: map<Identity, Record>, other: Record)
    requires D.LegalPick(rs, pick) && other in rs
    ensures D.LegalPick(rs, pick[IdentityOf(other) := other])
    ensures IdentityOf(other) in Identities(rs)
  {
  }

  /** Two records that share an identity and differ let the batch store the one the transaction overwrites. */
  lemma InconsistentRecordsDiverge(t: Tables, req: CompleteWatchRun) returns (picks: D.Picks)
    requires CommitGate(t, req)
    requires !Consistent(req.records)
    ensures D.LegalPicks(req.records, picks)
    ensures D.Batch(t, req, picks).0.records != S.Transaction(t, req).0.records
  {
    hide D.LegalPicks, D.RecordStatements, S.AfterRecords, LastBefore, TouchedRecords;
    var n := |req.records|;
    var i;
    i, picks := OtherPick(req.records);
    ClosingUpdatesAgree(t, req, picks);
    RecordStatementsRecords(t, req, picks);
    var k := RecordKey(req.watch.tenant, i);
    assert k in D.RecordKeys(req);
    LoopKeys(t, req, n);
    TouchedAll(req);
    LoopRecordRow(t, req, n, k);
  }

  /** A commit changes the tables: its run was running and is closed afterwards. */
  lemma CommitChangesTables(t: Tables, req: CompleteWatchRun)
    requires CommitGate(t, req)
    ensures S.Transaction(t, req).0 != t && S.Transaction(t, req).1.Ok?
  {
    hide S.AfterRecords;
    assert S.Transaction(t, req).0.runs[RunKey(req.watch, req.run)].status != RunRunning;
  }

  /** D1 refuses records too long for one statement parameter, whatever the state; SQLite commits them. */
  lemma OversizeDiverges(t: Tables, req: CompleteWatchRun, picks: D.Picks)
    requires D.LegalPicks(req.records, picks)
    requires ValidCompletion(req) && !BulkJson.Fits(req.records)
    ensures D.Complete(t, req, picks) == (t, Err(Validation))
    ensures CommitGate(t, req) ==> S.Complete(t, req).0 != t && S.Complete(t, req).1.Ok?
    ensures !CommitGate(t, req) ==> S.Complete(t, req).0 == t && S.Complete(t, req).1 != Err(Validation)
    ensures !SameEffect(D.Complete(t, req, picks), S.Complete(t, req))
  {
    hide D.LegalPicks, S.Transaction, BulkJson.Fits;
    if CommitGate(t, req) {
      CommitChangesTables(t, req);
    } else {
      FailedGateIsExact(t, req, picks);
    }
  }

  /** The condition under which both stores leave the same tables, readable before the call. */
  predicate TablesAgree(t: Tables, req: CompleteWatchRun) {
    ValidCompletion(req) ==>
      if !BulkJson.Fits(req.records) then !CommitGate(t, req)
      else if CommitGate(t, req) then Consistent(req.records)
      else !D.RescheduleGate(t, req)
  }

  /** The condition under which the two stores cannot be told apart. */
  predicate StoresAgree(t: Tables, req: CompleteWatchRun) {
    ValidCompletion(req) ==>
      && BulkJson.Fits(req.records)
      && (if CommitGate(t, req) then t.watches[req.watch].interval > 0 && Consistent(req.records)
          else !D.RescheduleGate(t, req))
  }

  /** For every state and request, all engine choices leave the transaction's tables exactly when `TablesAgree`. */
  lemma TablesAgreeExactly(t: Tables, req: CompleteWatchRun)
    ensures TablesAgree(t, req) <==>
            forall picks | D.LegalPicks(req.records, picks) :: D.Complete(t, req, picks).0 == S.Complete(t, req).0
  {
    hide D.LegalPicks, D.Batch, S.Transaction, BulkJson.Fits, Consistent, D.RescheduleGate, ValidCompletion;
    forall picks | D.LegalPicks(req.records, picks)
      ensures TablesAgree(t, req) ==> D.Complete(t, req, picks).0 == S.Complete(t, req).0
      ensures CommitGate(t, req) || !BulkJson.Fits(req.records) ||
              (TablesAgree(t, req) <==> D.Complete(t, req, picks).0 == S.Complete(t, req).0)
    {
      if !CommitGate(t, req) {
        FailedGateIsExact(t, req, picks);
      } else if Consistent(req.records) {
        BatchTablesRefine(t, req, picks);
      }
    }
    var first := FirstPicks(req.records);
    if ValidCompletion(req) && CommitGate(t, req) {
      if !BulkJson.Fits(req.records) {
        OversizeDiverges(t, req, first);
      } else if !Consistent(req.records) {
        var other := InconsistentRecordsDiverge(t, req);
        assert D.Complete(t, req, other).0 != S.Complete(t, req).0;
      }
    }
    assert D.LegalPicks(req.records, first);
  }

  /** An interval that is not positive makes D1 report a conflict for a commit. */
  lemma IdleIntervalDiverges(t: Tables, req: CompleteWatchRun, picks: D.Picks)
    requires D.LegalPicks(req.records, picks)
    requires CommitGate(t, req) && t.watches[req.watch].interval <= 0
    ensures D.Batch(t, req, picks).1.Err? && S.Transaction(t, req).1.Ok?
  {
    hide D.LegalPicks, D.RecordStatements, S.AfterRecords;
  }

  /** For every state and request, all engine choices give the transaction's effect exactly when `StoresAgree`. */
  lemma AgreementIsExact(t: Tables, req: CompleteWatchRun)
    ensures StoresAgree(t, req) <==>
            forall picks | D.LegalPicks(req.records, picks) :: SameEffect(D.Complete(t, req, picks), S.Complete(t, req))
  {
    hide D.LegalPicks, D.Batch, S.Transaction, BulkJson.Fits, Consistent, D.RescheduleGate, ValidCompletion;
    if StoresAgree(t, req) {
      forall picks | D.LegalPicks(req.records, picks)
        ensures SameEffect(D.Complete(t, req, picks), S.Complete(t, req))
      {
        if ValidCompletion(req) {
          if CommitGate(t, req) {
            BatchRefinesTransaction(t, req, picks);
          } else {
            FailedGateIsExact(t, req, picks);
          }
        }
      }
    } else {
      var picks := FirstPicks(req.records);
      if !BulkJson.Fits(req.records) {
        OversizeDiverges(t, req, picks);
      } else if !CommitGate(t, req) {
        FailedGateIsExact(t, req, picks);
      } else if t.watches[req.watch].interval <= 0 {
        IdleIntervalDiverges(t, req, picks);
      } else {
        picks := InconsistentRecordsDiverge(t, req);
      }
      assert !SameEffect(D.Complete(t, req, picks), S.Complete(t, req));
    }
  }
}
