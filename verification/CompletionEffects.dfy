/**
 * The completions of both stores have the effect described column by column: the transaction's loop
 * and the batch's statements, each against the same relation.
 */
module CompletionEffects {
  import opened Wrappers
  import opened Records
  import opened StoreModel
  import opened Effects
  import S = SqliteCompletion
  import D = D1Completion
  import Refinement = CompletionRefinement

  lemma GateIsExact(t: Tables, req: CompleteWatchRun)
    ensures MayComplete(t, req) <==> CommitGate(t, req)
  {
  }

  lemma IncomingMeans(req: CompleteWatchRun, i: Identity)
    ensures Incoming(req, i) <==> i in Identities(req.records)
    ensures forall tenant :: RecordKey(tenant, i) in D.RecordKeys(req) <==> tenant == req.watch.tenant && Incoming(req, i)
    ensures forall wk :: ObservationKey(wk, i) in D.ObservationKeys(req) <==> wk == req.watch && Incoming(req, i)
  {
    if i in Identities(req.records) {
      var r :| r in req.records && IdentityOf(r) == i;
      assert r.source == i.source && r.id == i.id;
    }
  }

  lemma IncomingKeys(req: CompleteWatchRun)
    ensures forall k :: k in D.RecordKeys(req) <==> k.tenant == req.watch.tenant && Incoming(req, k.identity)
    ensures forall k :: k in D.ObservationKeys(req) <==> k.watch == req.watch && Incoming(req, k.identity)
  {
    hide D.RecordKeys, D.ObservationKeys, Incoming;
    forall k: RecordKey
      ensures k in D.RecordKeys(req) <==> k.tenant == req.watch.tenant && Incoming(req, k.identity)
    {
      IncomingMeans(req, k.identity);
      assert k == RecordKey(k.tenant, k.identity);
    }
    forall k: ObservationKey
      ensures k in D.ObservationKeys(req) <==> k.watch == req.watch && Incoming(req, k.identity)
    {
      IncomingMeans(req, k.identity);
      assert k == ObservationKey(k.watch, k.identity);
    }
  }

  lemma ClosingRows(t: Tables, u: Tables, req: CompleteWatchRun)
    requires CommitGate(t, req)
    requires u.watches == t.watches[req.watch := Rescheduled(t.watches[req.watch], req)]
    requires u.runs == t.runs[RunKey(req.watch, req.run) := FinishedRun(t.runs[RunKey(req.watch, req.run)], req)]
    ensures Closes(t, u, req)
  {
    hide Puts;
    PutMeans(t.watches, u.watches, req.watch, Rescheduled(t.watches[req.watch], req));
    PutMeans(t.runs, u.runs, RunKey(req.watch, req.run), FinishedRun(t.runs[RunKey(req.watch, req.run)], req));
  }

  // ---------------------------------------------------------------- counts

  lemma {:induction false} SameSize<A(!new), B(!new)>(a: set<A>, b: set<B>, f: A -> B)
    requires forall x, y :: x in a && y in a && f(x) == f(y) ==> x == y
    requires b == set x | x in a :: f(x)
    ensures |a| == |b|
    decreases |a|
  {
    if a != {} {
      var x :| x in a;
      assert f(x) in b;
      SameSize(a - {x}, b - {f(x)}, f);
    }
  }

  function NewIdentities(t: Tables, req: CompleteWatchRun): set<Identity> {
    set r | r in req.records && RecordKey(req.watch.tenant, Identity(r.source, r.id)) !in t.records :: Identity(r.source, r.id)
  }

  function UnseenIdentities(t: Tables, req: CompleteWatchRun): set<Identity> {
    set r | r in req.records && ObservationKey(req.watch, Identity(r.source, r.id)) !in t.observations :: Identity(r.source, r.id)
  }

  lemma NewRecordsCount(t: Tables, req: CompleteWatchRun)
    ensures |D.NewRecordKeys(t, req)| == |NewIdentities(t, req)|
  {
    hide D.RecordKeys, D.ObservationKeys, Incoming, NewIdentities, UnseenIdentities;
    IncomingKeys(req);
    IdentitiesMean(t, req);
    var tenant := req.watch.tenant;
    assert forall k | k in D.NewRecordKeys(t, req) :: k == RecordKey(tenant, k.identity);
    assert D.NewRecordKeys(t, req) == set i | i in NewIdentities(t, req) :: RecordKey(tenant, i);
    SameSize(NewIdentities(t, req), D.NewRecordKeys(t, req), i => RecordKey(tenant, i));
  }

  lemma NewObservationsCount(t: Tables, req: CompleteWatchRun)
    ensures |D.NewObservationKeys(t, req)| == |UnseenIdentities(t, req)|
  {
    hide D.RecordKeys, D.ObservationKeys, Incoming, NewIdentities, UnseenIdentities;
    IncomingKeys(req);
    IdentitiesMean(t, req);
    var wk := req.watch;
    assert forall k | k in D.NewObservationKeys(t, req) :: k == ObservationKey(wk, k.identity);
    assert D.NewObservationKeys(t, req) == set i | i in UnseenIdentities(t, req) :: ObservationKey(wk, i);
    SameSize(UnseenIdentities(t, req), D.NewObservationKeys(t, req), i => ObservationKey(wk, i));
  }

  lemma IdentitiesMean(t: Tables, req: CompleteWatchRun)
    ensures forall i :: i in NewIdentities(t, req) <==> Incoming(req, i) && RecordKey(req.watch.tenant, i) !in t.records
    ensures forall i :: i in UnseenIdentities(t, req) <==> Incoming(req, i) && ObservationKey(req.watch, i) !in t.observations
  {
    forall i | Incoming(req, i)
      ensures RecordKey(req.watch.tenant, i) !in t.records ==> i in NewIdentities(t, req)
      ensures ObservationKey(req.watch, i) !in t.observations ==> i in UnseenIdentities(t, req)
    {
      var r :| r in req.records && r.source == i.source && r.id == i.id;
      assert Identity(r.source, r.id) == i;
    }
  }

  // ----------------------------------------------------------- transaction

  lemma TransactionRecords(t: Tables, u: Tables, req: CompleteWatchRun)
    requires u.records == S.AfterRecords(t, req, |req.records|).records
    ensures StoresRecords(t, u, req)
  {
    hide S.AfterRecords, D.RecordKeys, D.ObservationKeys, Incoming, Refinement.TouchedRecords, Unambiguous, Refinement.LastBefore;
    var n := |req.records|;
    Refinement.LoopKeys(t, req, n);
    Refinement.TouchedAll(req);
    IncomingKeys(req);
    forall k | k in u.records
      ensures if k.tenant == req.watch.tenant && Incoming(req, k.identity) then Upserted(t, u, req, k)
              else k in t.records && u.records[k] == t.records[k]
    {
      Refinement.LoopRecordRow(t, req, n, k);
      if k in D.RecordKeys(req) {
        var last := Refinement.LastBefore(req.records, n, k.identity).value;
        OnlyCandidate(req.records, last);
      }
    }
  }

  lemma OnlyCandidate(rs: seq<Record>, last: Record)
    requires last in rs
    ensures forall r | r in rs && r.source == last.source && r.id == last.id :: Unambiguous(rs, r) ==> last == r
  {
  }

  lemma TransactionObservations(t: Tables, u: Tables, req: CompleteWatchRun)
    requires u.observations == S.AfterRecords(t, req, |req.records|).observations
    ensures Observes(t, u, req)
  {
    hide S.AfterRecords, D.RecordKeys, D.ObservationKeys, Incoming, Refinement.TouchedObservations;
    var n := |req.records|;
    Refinement.LoopKeys(t, req, n);
    Refinement.TouchedAll(req);
    IncomingKeys(req);
    forall k | k in u.observations
      ensures if k.watch == req.watch && Incoming(req, k.identity) then
                && u.observations[k].last == req.finishedAt
                && u.observations[k].first == (if k in t.observations then t.observations[k].first else req.finishedAt)
              else k in t.observations && u.observations[k] == t.observations[k]
    {
      Refinement.LoopObservationRow(t, req, n, k);
    }
  }

  lemma FoundIsUnseen(t: Tables, req: CompleteWatchRun)
    ensures forall r | r in S.AfterRecords(t, req, |req.records|).newRecords ::
              r in req.records && Unseen(t, req, Identity(r.source, r.id))
  {
    hide S.AfterRecords, Refinement.TouchedObservations, D.ObservationKeys, Incoming;
    var n := |req.records|;
    Refinement.TouchedAll(req);
    IncomingKeys(req);
    forall r | r in S.AfterRecords(t, req, n).newRecords
      ensures r in req.records && Unseen(t, req, Identity(r.source, r.id))
    {
      Refinement.LoopNewRecordsSound(t, req, n, r);
    }
  }

  lemma UnseenIsFound(t: Tables, req: CompleteWatchRun, i: Identity) returns (q: Record)
    requires Unseen(t, req, i)
    ensures q in S.AfterRecords(t, req, |req.records|).newRecords && q.source == i.source && q.id == i.id
  {
    hide S.AfterRecords, Refinement.TouchedObservations, D.ObservationKeys, Incoming;
    Refinement.TouchedAll(req);
    IncomingKeys(req);
    q := Refinement.LoopNewRecordsComplete(t, req, |req.records|, ObservationKey(req.watch, i));
  }

  /** The records a loop passes on are one for each identity the watch had not seen. */
  lemma TransactionUnseen(t: Tables, req: CompleteWatchRun)
    ensures var found := S.AfterRecords(t, req, |req.records|).newRecords;
            && HoldsUnseen(t, req, set r | r in found)
            && (found == [] <==> !exists i :: Unseen(t, req, i))
  {
    hide S.AfterRecords, Unambiguous, DistinctIdentities, Unseen;
    var found := S.AfterRecords(t, req, |req.records|).newRecords;
    FoundIsUnseen(t, req);
    forall i | Unseen(t, req, i)
      ensures exists q | q in found :: q.source == i.source && q.id == i.id
    {
      var q := UnseenIsFound(t, req, i);
    }
    forall r | r in req.records && Unseen(t, req, Identity(r.source, r.id)) && Unambiguous(req.records, r)
      ensures r in found
    {
      var q := UnseenIsFound(t, req, Identity(r.source, r.id));
      OnlyCandidate(req.records, q);
    }
    Refinement.LoopNewRecordsDistinct(t, req, |req.records|);
    DistinctIsConsistent(found);
    if found != [] {
      assert found[0] in found;
    }
  }

  lemma TransactionQueues(t: Tables, u: Tables, req: CompleteWatchRun)
    requires u.deliveries == S.InsertRunDelivery(t.deliveries, req, S.AfterRecords(t, req, |req.records|).newRecords)
    ensures QueuesUnseen(t, u, req)
  {
    hide S.AfterRecords, HoldsUnseen, Unseen, Puts;
    TransactionUnseen(t, req);
    var found := S.AfterRecords(t, req, |req.records|).newRecords;
    if req.delivery.Some? {
      var key := DeliveryKey(req.watch.tenant, req.delivery.value.delivery);
      PutMeans(t.deliveries, u.deliveries, key, NewDelivery(req, req.delivery.value, set r | r in found));
    }
  }

  lemma TransactionReports(t: Tables, req: CompleteWatchRun)
    requires CommitGate(t, req)
    ensures S.Transaction(t, req).1.Ok? && Reports(t, req, S.Transaction(t, req).1.value)
  {
    hide S.AfterRecords, D.RecordKeys, D.ObservationKeys;
    Refinement.LoopCounts(t, req, |req.records|);
    Refinement.TouchedAll(req);
    NewRecordsCount(t, req);
    NewObservationsCount(t, req);
  }

  /** The record-by-record transaction has the whole effect of a commit. */
  lemma TransactionCompletes(t: Tables, req: CompleteWatchRun)
    requires CommitGate(t, req)
    ensures var (u, r) := S.Transaction(t, req);
            r.Ok? && Completed(t, u, req, r.value)
  {
    hide S.AfterRecords, Closes, StoresRecords, Observes, QueuesUnseen, Reports, S.InsertRunDelivery;
    var u := S.Transaction(t, req).0;
    ClosingRows(t, u, req);
    TransactionRecords(t, u, req);
    TransactionObservations(t, u, req);
    TransactionQueues(t, u, req);
    TransactionReports(t, req);
  }

  // ----------------------------------------------------------------- batch

  lemma AssembledMeans(rs: seq<Record>, p: Record)
    requires D.Assembled(rs, p)
    ensures forall r | r in rs && r.source == p.source && r.id == p.id :: Unambiguous(rs, r) ==> p == r
  {
    hide Unambiguous;
    forall r | r in rs && r.source == p.source && r.id == p.id && Unambiguous(rs, r)
      ensures p == r
    {
      OnlySibling(rs, p, r);
    }
  }

  lemma OnlySibling(rs: seq<Record>, p: Record, r: Record)
    requires D.Assembled(rs, p) && r in rs && r.source == p.source && r.id == p.id && Unambiguous(rs, r)
    ensures p == r
  {
    assert forall q :: D.Sibling(rs, q, p) ==> q == r;
  }

  lemma BatchRecords(t: Tables, u: Tables, req: CompleteWatchRun, pick: map<Identity, Record>)
    requires D.LegalUpdate(req.records, pick) && u.records == Refinement.RecordsAfterBatch(t, req, pick)
    ensures StoresRecords(t, u, req)
  {
    hide D.RecordKeys, D.ObservationKeys, Incoming, Unambiguous, D.Assembled;
    IncomingKeys(req);
    forall k | k in D.RecordKeys(req)
      ensures forall r | r in req.records && r.source == k.identity.source && r.id == k.identity.id ::
                Unambiguous(req.records, r) ==> pick[k.identity] == r
    {
      IncomingMeans(req, k.identity);
      AssembledMeans(req.records, pick[k.identity]);
    }
  }

  lemma BatchObservations(t: Tables, u: Tables, req: CompleteWatchRun)
    requires u.observations == Refinement.ObservationsAfterBatch(t, req)
    ensures Observes(t, u, req)
  {
    hide D.ObservationKeys, D.RecordKeys, Incoming;
    IncomingKeys(req);
  }

  lemma BatchUnseen(t: Tables, req: CompleteWatchRun, pick: map<Identity, Record>)
    requires D.LegalPick(req.records, pick)
    ensures HoldsUnseen(t, req, D.NewPayload(t, req, pick))
    ensures D.NewObservationKeys(t, req) == {} <==> !exists i :: Unseen(t, req, i)
  {
    hide D.ObservationKeys, D.RecordKeys, Incoming, Unambiguous;
    IncomingKeys(req);
    var payload := D.NewPayload(t, req, pick);
    forall i | Unseen(t, req, i)
      ensures ObservationKey(req.watch, i) in D.NewObservationKeys(t, req)
      ensures i in pick && pick[i] in payload && pick[i] in req.records && IdentityOf(pick[i]) == i
    {
      IncomingMeans(req, i);
      assert ObservationKey(req.watch, i) in D.NewObservationKeys(t, req);
    }
    forall r | r in payload
      ensures Unseen(t, req, Identity(r.source, r.id)) && r == pick[Identity(r.source, r.id)]
    {
      var k :| k in D.NewObservationKeys(t, req) && r == pick[k.identity];
      assert k == ObservationKey(req.watch, k.identity);
      IncomingMeans(req, k.identity);
    }
    forall r | r in req.records && Unseen(t, req, Identity(r.source, r.id)) && Unambiguous(req.records, r)
      ensures r in payload
    {
      OnlyCandidate(req.records, pick[Identity(r.source, r.id)]);
    }
    if D.NewObservationKeys(t, req) != {} {
      var k :| k in D.NewObservationKeys(t, req);
      assert Unseen(t, req, k.identity);
    }
  }

  lemma BatchQueues(t: Tables, u: Tables, req: CompleteWatchRun, pick: map<Identity, Record>)
    requires D.LegalPick(req.records, pick) && u.deliveries == Refinement.DeliveriesAfterBatch(t, req, pick)
    ensures QueuesUnseen(t, u, req)
  {
    hide D.NewPayload, D.NewObservationKeys, HoldsUnseen, Unseen, Puts;
    BatchUnseen(t, req, pick);
    if req.delivery.Some? {
      var key := DeliveryKey(req.watch.tenant, req.delivery.value.delivery);
      PutMeans(t.deliveries, u.deliveries, key, NewDelivery(req, req.delivery.value, D.NewPayload(t, req, pick)));
    }
  }

  lemma BatchReports(t: Tables, req: CompleteWatchRun, picks: D.Picks)
    requires D.LegalPicks(req.records, picks) && D.Batch(t, req, picks).1.Ok?
    ensures CommitGate(t, req) && Reports(t, req, D.Batch(t, req, picks).1.value)
  {
    hide D.RecordStatements, D.NewRecordKeys, D.NewObservationKeys, D.LegalPicks, D.RescheduleGate;
    NewRecordsCount(t, req);
    NewObservationsCount(t, req);
  }

  /** The batch of set-oriented statements changes the tables in the same way, whatever rows the engine picks. */
  lemma BatchChanges(t: Tables, req: CompleteWatchRun, picks: D.Picks)
    requires D.LegalPicks(req.records, picks) && CommitGate(t, req)
    ensures var u := D.Batch(t, req, picks).0;
            Closes(t, u, req) && StoresRecords(t, u, req) && Observes(t, u, req) && QueuesUnseen(t, u, req)
  {
    hide Closes, StoresRecords, Observes, QueuesUnseen, D.RecordStatements, D.LegalPick, D.LegalUpdate,
         Refinement.RecordsAfterBatch, Refinement.ObservationsAfterBatch, Refinement.DeliveriesAfterBatch;
    var u := D.Batch(t, req, picks).0;
    Refinement.ClosingUpdatesAgree(t, req, picks);
    ClosingRows(t, u, req);
    Refinement.RecordStatementsRecords(t, req, picks);
    Refinement.RecordStatementsObservations(t, req, picks);
    Refinement.RecordStatementsDeliveries(t, req, picks);
    BatchRecords(t, u, req, picks.update);
    BatchObservations(t, u, req);
    BatchQueues(t, u, req, picks.payload);
  }

  /** A batch that succeeds has the whole effect of a commit. */
  lemma BatchCompletes(t: Tables, req: CompleteWatchRun, picks: D.Picks)
    requires D.LegalPicks(req.records, picks) && D.Batch(t, req, picks).1.Ok?
    ensures var (u, r) := D.Batch(t, req, picks);
            Completed(t, u, req, r.value)
  {
    hide Closes, StoresRecords, Observes, QueuesUnseen, Reports, D.Batch, D.LegalPicks;
    BatchReports(t, req, picks);
    BatchChanges(t, req, picks);
  }
}
