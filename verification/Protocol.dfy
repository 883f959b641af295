/**
 * Every interleaving of workers over one store: a run is any sequence of store operations whose
 * completions and settlements carry readings of a clock that does not go back. Completions come in
 * two kinds, the SQLite transaction and the D1 batch with the rows its engine picks, so what holds of
 * all runs holds on either store. Tables reachable from the empty database stay sound, and in sound
 * tables the batch is all-or-nothing.
 */
module Protocol {
  import opened Wrappers
  import opened Records
  import opened StoreModel
  import S = SqliteCompletion
  import D = D1Completion
  import Refinement = CompletionRefinement
  import BulkJson
  import Effects
  import CompletionEffects

  datatype Op =
    | OpCreate(create: CreateWatch)
    | OpDelete(watch: WatchKey)
    | OpClaim(claim: ClaimDueWatch)
    | OpStart(start: StartWatchRun)
    | OpComplete(complete: CompleteWatchRun)
    | OpBatch(complete: CompleteWatchRun, picks: D.Picks)
    | OpClaimDelivery(claimDelivery: ClaimPendingDelivery)
    | OpSettle(settle: CompleteDelivery)

  const EMPTY := Tables(map[], map[], map[], map[], map[])

  ghost function Apply(t: Tables, op: Op): Tables {
    match op
    case OpCreate(req) => (match InsertWatch(t, req) case Ok(u) => u case Err(_) => t)
    case OpDelete(wk) => DeleteWatch(t, wk)
    case OpClaim(req) => ClaimWatch(t, req).0
    case OpStart(req) => (match StartRun(t, req) case Ok(u) => u case Err(_) => t)
    case OpComplete(req) => S.Complete(t, req).0
    case OpBatch(req, picks) => if D.LegalPicks(req.records, picks) then D.Complete(t, req, picks).0 else t
    case OpClaimDelivery(req) => ClaimDelivery(t, req).0
    case OpSettle(req) => (match SettleDelivery(t, req) case Ok(u) => u case Err(_) => t)
  }

  ghost function Exec(t: Tables, ops: seq<Op>): Tables
    decreases |ops|
  {
    if ops == [] then t else Exec(Apply(t, ops[0]), ops[1..])
  }

  /**
   * The clock after an operation. Completions and settlements read it as they run. Claims and starts
   * may carry an earlier reading, as one scheduled pass uses one for all its claims; creating and
   * deleting carry none.
   */
  function Reading(clock: int, op: Op): int {
    match op
    case OpClaim(req) => Later(clock, req.now)
    case OpComplete(req) => req.finishedAt
    case OpBatch(req, _) => req.finishedAt
    case OpClaimDelivery(req) => Later(clock, req.now)
    case OpSettle(req) => req.finishedAt
    case _ => clock
  }

  function Later(a: int, b: int): int { if a < b then b else a }

  predicate Timed(clock: int, ops: seq<Op>)
    decreases |ops|
  {
    ops == [] || (clock <= Reading(clock, ops[0]) && Timed(Reading(clock, ops[0]), ops[1..]))
  }

  function EndClock(clock: int, ops: seq<Op>): int
    decreases |ops|
  {
    if ops == [] then clock else EndClock(Reading(clock, ops[0]), ops[1..])
  }

  // -------------------------------------------------------------- soundness

  predicate WatchSound(row: WatchRow, clock: int) {
    && ValidInterval(row.interval)
    && (row.lease.Some? ==> row.nextDue <= clock)
  }

  /** A closed run ended before its watch is due again. */
  predicate RunSound(t: Tables, rk: RunKey)
    requires rk in t.runs
  {
    && rk.watch in t.watches
    && (t.runs[rk].status == RunRunning <==> t.runs[rk].finished.None?)
    && (t.runs[rk].finished.Some? ==> t.runs[rk].finished.value < t.watches[rk.watch].nextDue)
  }

  predicate SchedulingSound(t: Tables, clock: int) {
    && (forall k | k in t.watches :: WatchSound(t.watches[k], clock))
    && (forall rk | rk in t.runs :: RunSound(t, rk))
  }

  /** The unique idempotency constraint. */
  predicate KeysSound(t: Tables) {
    forall a, b | a in t.runs && b in t.runs ::
      a.watch == b.watch && t.runs[a].idempotency == t.runs[b].idempotency ==> a == b
  }

  /** The foreign keys, records stored under their own identity, and watches under valid keys. */
  predicate ReferencesSound(t: Tables) {
    && (forall k | k in t.watches :: ValidWatchKey(k))
    && (forall k | k in t.observations :: k.watch in t.watches && RecordKey(k.watch.tenant, k.identity) in t.records)
    && (forall k | k in t.deliveries :: WatchKey(k.tenant, t.deliveries[k].watch) in t.watches)
    && (forall k | k in t.records :: IdentityOf(t.records[k].record) == k.identity)
  }

  predicate Sound(t: Tables, clock: int) {
    SchedulingSound(t, clock) && KeysSound(t) && ReferencesSound(t)
  }

  // ------------------------------------------------------------ completions

  predicate Completes(op: Op) { op.OpComplete? || op.OpBatch? }

  /** The completion passes validation and its gate. */
  predicate Commits(t: Tables, op: Op) {
    && Completes(op) && CommitGate(t, op.complete)
    && (if op.OpComplete? then ValidCompletion(op.complete)
        else D.LegalPicks(op.complete.records, op.picks) && D.Admits(op.complete))
  }

  /** The records a commit announces: those the watch had not observed. */
  function PayloadOf(t: Tables, op: Op): set<Record>
    requires Commits(t, op)
  {
    if op.OpComplete? then set r | r in S.AfterRecords(t, op.complete, |op.complete.records|).newRecords
    else D.NewPayload(t, op.complete, op.picks.payload)
  }

  /** A payload names each newly observed identity once. */
  ghost predicate NamesNew(t: Tables, req: CompleteWatchRun, payload: set<Record>) {
    && (forall r :: r in payload ==> ObservationKey(req.watch, IdentityOf(r)) in D.NewObservationKeys(t, req))
    && (forall k :: k in D.NewObservationKeys(t, req) ==> exists r :: r in payload && IdentityOf(r) == k.identity)
    && (forall r, q :: r in payload && q in payload && IdentityOf(r) == IdentityOf(q) ==> r == q)
  }

  function Queue(deliveries: map<DeliveryKey, DeliveryRow>, req: CompleteWatchRun, payload: set<Record>): map<DeliveryKey, DeliveryRow> {
    if req.delivery.None? || payload == {} then deliveries else
    var key := DeliveryKey(req.watch.tenant, req.delivery.value.delivery);
    if key in deliveries then deliveries else deliveries[key := NewDelivery(req, req.delivery.value, payload)]
  }

  /** What a commit leaves, on either store. */
  ghost predicate Committed(t: Tables, u: Tables, req: CompleteWatchRun, payload: set<Record>) {
    && CommitGate(t, req)
    && u.watches == t.watches[req.watch := Rescheduled(t.watches[req.watch], req)]
    && u.runs == t.runs[RunKey(req.watch, req.run) := FinishedRun(t.runs[RunKey(req.watch, req.run)], req)]
    && (u.runs[RunKey(req.watch, req.run)].status == RunFailed <==> req.error.Some?)
    && (u.runs[RunKey(req.watch, req.run)].status == RunSucceeded <==> req.error.None?)
    && u.runs[RunKey(req.watch, req.run)].error == req.error
    && u.observations.Keys == t.observations.Keys + D.ObservationKeys(req)
    && u.records.Keys == t.records.Keys + D.RecordKeys(req)
    && (forall k :: k in u.records && k in D.RecordKeys(req) ==> IdentityOf(u.records[k].record) == k.identity)
    && (forall k :: k in t.records && k !in D.RecordKeys(req) ==> u.records[k] == t.records[k])
    && u.deliveries == Queue(t.deliveries, req, payload)
  }

  lemma TransactionPayload(t: Tables, op: Op)
    requires op.OpComplete? && Commits(t, op)
    ensures NamesNew(t, op.complete, PayloadOf(t, op))
  {
    var req := op.complete;
    var n := |req.records|;
    var found := S.AfterRecords(t, req, n).newRecords;
    Refinement.TouchedAll(req);
    forall r | r in found
      ensures S.SeenKeyOf(req, r) in D.NewObservationKeys(t, req)
    {
      Refinement.LoopNewRecordsSound(t, req, n, r);
    }
    forall k | k in D.NewObservationKeys(t, req)
      ensures exists r :: r in PayloadOf(t, op) && IdentityOf(r) == k.identity
    {
      var r := Refinement.LoopNewRecordsComplete(t, req, n, k);
      assert r in PayloadOf(t, op);
    }
    Refinement.LoopNewRecordsDistinct(t, req, n);
    DistinctIsConsistent(found);
  }

  lemma TransactionCommits(t: Tables, op: Op)
    requires op.OpComplete? && Commits(t, op)
    ensures Committed(t, Apply(t, op), op.complete, PayloadOf(t, op))
  {
    hide S.AfterRecords, Refinement.TouchedRecords, Refinement.TouchedObservations, ValidCompletion;
    var req := op.complete;
    var n := |req.records|;
    Refinement.LoopKeys(t, req, n);
    Refinement.TouchedAll(req);
    forall k | k in S.AfterRecords(t, req, n).records
      ensures k in D.RecordKeys(req) ==> IdentityOf(S.AfterRecords(t, req, n).records[k].record) == k.identity
      ensures k in t.records && k !in D.RecordKeys(req) ==> S.AfterRecords(t, req, n).records[k] == t.records[k]
    {
      Refinement.LoopRecordRow(t, req, n, k);
    }
    var found := S.AfterRecords(t, req, n).newRecords;
    if found != [] {
      assert found[0] in PayloadOf(t, op);
    }
  }

  lemma BatchPayload(t: Tables, req: CompleteWatchRun, pick: map<Identity, Record>)
    requires D.LegalPick(req.records, pick)
    ensures NamesNew(t, req, D.NewPayload(t, req, pick))
    ensures D.NewPayload(t, req, pick) == {} <==> D.NewObservationKeys(t, req) == {}
  {
    var payload := D.NewPayload(t, req, pick);
    forall k | k in D.NewObservationKeys(t, req)
      ensures pick[k.identity] in payload && IdentityOf(pick[k.identity]) == k.identity
    {
    }
  }

  lemma PickedRows(t: Tables, req: CompleteWatchRun, pick: map<Identity, Record>)
    requires D.NamesAll(req.records, pick)
    ensures var rows := Refinement.RecordsAfterBatch(t, req, pick);
            && rows.Keys == t.records.Keys + D.RecordKeys(req)
            && (forall k :: k in rows && k in D.RecordKeys(req) ==> IdentityOf(rows[k].record) == k.identity)
            && (forall k :: k in t.records && k !in D.RecordKeys(req) ==> rows[k] == t.records[k])
  {
  }

  lemma PickedObservations(t: Tables, req: CompleteWatchRun)
    ensures Refinement.ObservationsAfterBatch(t, req).Keys == t.observations.Keys + D.ObservationKeys(req)
  {
  }

  lemma PickedQueue(t: Tables, req: CompleteWatchRun, pick: map<Identity, Record>)
    requires D.LegalPick(req.records, pick)
    ensures Refinement.DeliveriesAfterBatch(t, req, pick) == Queue(t.deliveries, req, D.NewPayload(t, req, pick))
  {
    BatchPayload(t, req, pick);
  }

  lemma BatchCommits(t: Tables, op: Op)
    requires op.OpBatch? && Commits(t, op)
    ensures Committed(t, Apply(t, op), op.complete, PayloadOf(t, op))
  {
    hide D.RecordStatements, D.Admits, D.Assembled, D.NewPayload, S.AfterRecords, Queue,
         Refinement.RecordsAfterBatch, Refinement.ObservationsAfterBatch, Refinement.DeliveriesAfterBatch;
    var req := op.complete;
    PickedRows(t, req, op.picks.update);
    PickedObservations(t, req);
    PickedQueue(t, req, op.picks.payload);
    Refinement.ClosingUpdatesAgree(t, req, op.picks);
    Refinement.RecordStatementsRecords(t, req, op.picks);
    Refinement.RecordStatementsObservations(t, req, op.picks);
    Refinement.RecordStatementsDeliveries(t, req, op.picks);
  }

  /** A commit has the same shape on both stores. */
  lemma CommitEffect(t: Tables, op: Op)
    requires Commits(t, op)
    ensures Committed(t, Apply(t, op), op.complete, PayloadOf(t, op))
    ensures NamesNew(t, op.complete, PayloadOf(t, op))
  {
    hide Committed, NamesNew, Apply;
    if op.OpComplete? {
      TransactionCommits(t, op);
      TransactionPayload(t, op);
    } else {
      BatchCommits(t, op);
      BatchPayload(t, op.complete, op.picks.payload);
    }
  }

  /** Column by column, a commit closes its run and its watch, stores and observes what came in, and queues what was unseen. */
  lemma CommitDoes(t: Tables, op: Op)
    requires Commits(t, op)
    ensures var u := Apply(t, op);
            && Effects.MayComplete(t, op.complete)
            && Effects.Closes(t, u, op.complete) && Effects.StoresRecords(t, u, op.complete)
            && Effects.Observes(t, u, op.complete) && Effects.QueuesUnseen(t, u, op.complete)
  {
    hide Effects.Closes, Effects.StoresRecords, Effects.Observes, Effects.QueuesUnseen, Effects.Reports, Effects.MayComplete,
         D.Batch, S.Transaction, CommitGate, D.LegalPicks;
    CompletionEffects.GateIsExact(t, op.complete);
    if op.OpComplete? {
      CompletionEffects.TransactionCompletes(t, op.complete);
    } else {
      CommitClosesTables(t, op);
    }
  }

  lemma CommitClosesTables(t: Tables, op: Op)
    requires op.OpBatch? && Commits(t, op)
    ensures var u := Apply(t, op);
            && Effects.Closes(t, u, op.complete) && Effects.StoresRecords(t, u, op.complete)
            && Effects.Observes(t, u, op.complete) && Effects.QueuesUnseen(t, u, op.complete)
  {
    hide Effects.Closes, Effects.StoresRecords, Effects.Observes, Effects.QueuesUnseen, D.Batch, CommitGate, D.LegalPicks;
    CompletionEffects.BatchChanges(t, op.complete, op.picks);
  }

  /** Without a commit nothing changes, but for the gate of the batch's last statement. */
  lemma NoCommitEffect(t: Tables, op: Op)
    requires Completes(op) && !Commits(t, op)
    ensures Apply(t, op) == t || (
              && op.OpBatch? && D.RescheduleGate(t, op.complete)
              && Apply(t, op) == t.(watches :=
                   t.watches[op.complete.watch := Rescheduled(t.watches[op.complete.watch], op.complete)]))
  {
    hide D.Batch, S.Transaction, D.LegalPicks, D.RescheduleGate, ValidCompletion;
    if !CommitGate(t, op.complete) {
      if op.OpBatch? && D.LegalPicks(op.complete.records, op.picks) {
        Refinement.FailedGateIsExact(t, op.complete, op.picks);
      } else {
        FailedTransaction(t, op.complete);
      }
    }
  }

  lemma FailedTransaction(t: Tables, req: CompleteWatchRun)
    requires !CommitGate(t, req)
    ensures S.Complete(t, req).0 == t && S.Complete(t, req).1.Err?
  {
    hide S.AfterRecords;
  }

  lemma NoRunClosedUnderLiveLease(t: Tables, clock: int, req: CompleteWatchRun)
    requires SchedulingSound(t, clock) && clock <= req.finishedAt
    ensures !D.RescheduleGate(t, req)
  {
    var rk := RunKey(req.watch, req.run);
    if req.watch in t.watches && rk in t.runs {
      assert WatchSound(t.watches[req.watch], clock);
      assert RunSound(t, rk);
    }
  }

  /** In sound tables a completion commits or changes nothing at all. */
  lemma CommitsOrNothing(t: Tables, clock: int, op: Op)
    requires SchedulingSound(t, clock) && clock <= Reading(clock, op)
    requires Completes(op) && !Commits(t, op)
    ensures Apply(t, op) == t
  {
    hide Apply, Commits, D.RescheduleGate;
    NoRunClosedUnderLiveLease(t, clock, op.complete);
    NoCommitEffect(t, op);
  }

  predicate MovesOn(t: Tables, u: Tables, wk: WatchKey) {
    wk in t.watches && wk in u.watches && t.watches[wk].nextDue < u.watches[wk].nextDue
  }

  lemma CompleteScheduling(t: Tables, clock: int, op: Op)
    requires SchedulingSound(t, clock) && clock <= Reading(clock, op) && Completes(op)
    ensures SchedulingSound(Apply(t, op), Reading(clock, op))
    ensures Commits(t, op) ==> MovesOn(t, Apply(t, op), op.complete.watch)
  {
    hide Apply, Commits, Queue;
    var req := op.complete;
    if Commits(t, op) {
      CommitEffect(t, op);
      var u := Apply(t, op);
      assert WatchSound(t.watches[req.watch], clock);
      forall rk | rk in u.runs
        ensures RunSound(u, rk)
      {
        assert RunSound(t, rk);
      }
      forall k | k in u.watches
        ensures WatchSound(u.watches[k], req.finishedAt)
      {
        assert WatchSound(t.watches[k], clock);
      }
    } else {
      CommitsOrNothing(t, clock, op);
      ClockAdvances(t, clock, req.finishedAt);
    }
  }

  lemma ClockAdvances(t: Tables, clock: int, later: int)
    requires SchedulingSound(t, clock) && clock <= later
    ensures SchedulingSound(t, later)
  {
    forall k | k in t.watches
      ensures WatchSound(t.watches[k], later)
    {
      assert WatchSound(t.watches[k], clock);
    }
  }

  lemma SoundLater(t: Tables, clock: int, later: int)
    requires Sound(t, clock) && clock <= later
    ensures Sound(t, later)
  {
    ClockAdvances(t, clock, later);
  }

  lemma ClaimScheduling(t: Tables, clock: int, req: ClaimDueWatch)
    requires SchedulingSound(t, clock)
    ensures SchedulingSound(ClaimWatch(t, req).0, Later(clock, req.now))
  {
    var u := ClaimWatch(t, req).0;
    var later := Later(clock, req.now);
    ClockAdvances(t, clock, later);
    forall k | k in u.watches
      ensures WatchSound(u.watches[k], later)
    {
      assert WatchSound(t.watches[k], later);
    }
    forall rk | rk in u.runs
      ensures RunSound(u, rk)
    {
      assert RunSound(t, rk);
    }
  }

  lemma DeleteScheduling(t: Tables, clock: int, wk: WatchKey)
    requires SchedulingSound(t, clock)
    ensures SchedulingSound(DeleteWatch(t, wk), clock)
  {
    var u := DeleteWatch(t, wk);
    forall rk | rk in u.runs
      ensures RunSound(u, rk)
    {
      assert RunSound(t, rk);
    }
    forall k | k in u.watches
      ensures WatchSound(u.watches[k], clock)
    {
      assert WatchSound(t.watches[k], clock);
    }
  }

  lemma StartScheduling(t: Tables, clock: int, req: StartWatchRun)
    requires SchedulingSound(t, clock)
    ensures SchedulingSound(Apply(t, OpStart(req)), clock)
  {
    var u := Apply(t, OpStart(req));
    assert u.watches == t.watches;
    forall rk | rk in u.runs
      ensures RunSound(u, rk)
    {
      if rk in t.runs { assert RunSound(t, rk); }
    }
  }

  lemma CreateScheduling(t: Tables, clock: int, req: CreateWatch)
    requires SchedulingSound(t, clock)
    ensures SchedulingSound(Apply(t, OpCreate(req)), clock)
  {
    var u := Apply(t, OpCreate(req));
    forall rk | rk in u.runs
      ensures RunSound(u, rk)
    {
      assert RunSound(t, rk);
    }
    forall k | k in u.watches
      ensures WatchSound(u.watches[k], clock)
    {
      if k in t.watches { assert WatchSound(t.watches[k], clock); }
    }
  }

  /** Two states that differ in delivery bookkeeping only. */
  ghost predicate DeliveriesMoved(t: Tables, u: Tables) {
    && u.watches == t.watches && u.runs == t.runs && u.records == t.records && u.observations == t.observations
    && u.deliveries.Keys == t.deliveries.Keys
    && forall k :: k in t.deliveries ==>
         && u.deliveries[k].watch == t.deliveries[k].watch && u.deliveries[k].run == t.deliveries[k].run
         && u.deliveries[k].payload == t.deliveries[k].payload && u.deliveries[k].created == t.deliveries[k].created
  }

  lemma ClaimDeliveryFrame(t: Tables, req: ClaimPendingDelivery)
    ensures DeliveriesMoved(t, ClaimDelivery(t, req).0)
  {
    hide ValidDeliveryClaim, FirstSendable, SendableKeys;
  }

  lemma SettledFrame(t: Tables, req: CompleteDelivery)
    requires req.delivery in t.deliveries
    ensures DeliveriesMoved(t, t.(deliveries := t.deliveries[req.delivery := SettledDelivery(t.deliveries[req.delivery], req)]))
  {
    hide NextAttempt;
  }

  lemma SettleFrame(t: Tables, req: CompleteDelivery)
    ensures DeliveriesMoved(t, Apply(t, OpSettle(req)))
  {
    hide ValidSettlement, SettledDelivery, DeliveriesMoved;
    if DeliveryLeased(t, req) {
      SettledFrame(t, req);
    }
    Unmoved(t);
  }

  lemma Unmoved(t: Tables)
    ensures DeliveriesMoved(t, t)
  {
  }

  /** Operations on deliveries touch nothing else. */
  lemma DeliveryOpsFrame(t: Tables, op: Op)
    requires op.OpClaimDelivery? || op.OpSettle?
    ensures DeliveriesMoved(t, Apply(t, op))
  {
    match op
    case OpClaimDelivery(req) => ClaimDeliveryFrame(t, req);
    case OpSettle(req) => SettleFrame(t, req);
  }

  lemma SchedulingStep(t: Tables, clock: int, op: Op)
    requires SchedulingSound(t, clock) && clock <= Reading(clock, op)
    ensures SchedulingSound(Apply(t, op), Reading(clock, op))
  {
    match op
    case OpCreate(req) => CreateScheduling(t, clock, req);
    case OpDelete(wk) => DeleteScheduling(t, clock, wk);
    case OpClaim(req) => ClaimScheduling(t, clock, req);
    case OpStart(req) => StartScheduling(t, clock, req);
    case OpComplete(_) => CompleteScheduling(t, clock, op);
    case OpBatch(_, _) => CompleteScheduling(t, clock, op);
    case OpClaimDelivery(req) => DeliveryOpsFrame(t, op); ClockAdvances(t, clock, Later(clock, req.now)); SchedulingFrame(t, Apply(t, op), Later(clock, req.now));
    case OpSettle(req) => DeliveryOpsFrame(t, op); ClockAdvances(t, clock, req.finishedAt); SchedulingFrame(t, Apply(t, op), req.finishedAt);
  }

  lemma SchedulingFrame(t: Tables, u: Tables, clock: int)
    requires SchedulingSound(t, clock)
    requires u.watches == t.watches && u.runs == t.runs
    ensures SchedulingSound(u, clock)
  {
    forall rk | rk in u.runs
      ensures RunSound(u, rk)
    {
      assert RunSound(t, rk);
    }
  }

  /** A completion keeps every run's key and owner. */
  lemma CompleteRunsKeepKeys(t: Tables, op: Op)
    requires Completes(op)
    ensures var u := Apply(t, op);
            && u.runs.Keys == t.runs.Keys
            && forall rk :: rk in t.runs ==>
                 u.runs[rk].idempotency == t.runs[rk].idempotency && u.runs[rk].owner == t.runs[rk].owner
  {
    hide Apply, Commits, Queue, D.RescheduleGate;
    if Commits(t, op) {
      CommitEffect(t, op);
    } else {
      NoCommitEffect(t, op);
    }
  }

  lemma StartKeys(t: Tables, req: StartWatchRun)
    requires KeysSound(t)
    ensures KeysSound(Apply(t, OpStart(req)))
  {
    hide ValidStart;
    var u := Apply(t, OpStart(req));
    if u != t {
      forall a | a in t.runs && a.watch == req.watch
        ensures t.runs[a].idempotency != req.idempotency
      {
        assert a !in RunsByIdempotency(t, req.watch, req.idempotency);
      }
    }
  }

  lemma KeysStep(t: Tables, op: Op)
    requires KeysSound(t)
    ensures KeysSound(Apply(t, op))
  {
    hide S.Complete, D.Complete, StartRun, ClaimDelivery, SettleDelivery, ValidCreate;
    match op
    case OpStart(req) => StartKeys(t, req);
    case OpComplete(_) => CompleteRunsKeepKeys(t, op);
    case OpBatch(_, _) => CompleteRunsKeepKeys(t, op);
    case OpClaimDelivery(_) => DeliveryOpsFrame(t, op);
    case OpSettle(_) => DeliveryOpsFrame(t, op);
    case _ =>
  }

  lemma CommittedObservations(t: Tables, u: Tables, req: CompleteWatchRun, payload: set<Record>)
    requires ReferencesSound(t) && Committed(t, u, req, payload)
    ensures forall k | k in u.observations :: k.watch in u.watches && RecordKey(k.watch.tenant, k.identity) in u.records
  {
    hide Queue, Rescheduled, FinishedRun, ValidWatchKey;
    forall k | k in u.observations
      ensures k.watch in u.watches && RecordKey(k.watch.tenant, k.identity) in u.records
    {
      assert k in t.observations || k in D.ObservationKeys(req);
    }
  }

  lemma CommittedDeliveries(t: Tables, u: Tables, req: CompleteWatchRun, payload: set<Record>)
    requires ReferencesSound(t) && Committed(t, u, req, payload)
    ensures forall k | k in u.deliveries :: WatchKey(k.tenant, u.deliveries[k].watch) in u.watches
  {
    hide Rescheduled, FinishedRun, ValidWatchKey, D.RecordKeys, D.ObservationKeys;
  }

  lemma CommittedRecords(t: Tables, u: Tables, req: CompleteWatchRun, payload: set<Record>)
    requires ReferencesSound(t) && Committed(t, u, req, payload)
    ensures forall k | k in u.records :: IdentityOf(u.records[k].record) == k.identity
  {
    hide Queue, Rescheduled, FinishedRun, ValidWatchKey, D.RecordKeys, D.ObservationKeys, CommitGate;
  }

  lemma CommittedReferences(t: Tables, u: Tables, req: CompleteWatchRun, payload: set<Record>)
    requires ReferencesSound(t) && Committed(t, u, req, payload)
    ensures ReferencesSound(u)
  {
    hide Queue, Rescheduled, FinishedRun, ValidWatchKey, D.RecordKeys, D.ObservationKeys;
    CommittedObservations(t, u, req, payload);
    CommittedDeliveries(t, u, req, payload);
    CommittedRecords(t, u, req, payload);
  }

  lemma CompleteReferences(t: Tables, op: Op)
    requires Completes(op) && ReferencesSound(t)
    ensures ReferencesSound(Apply(t, op))
  {
    hide Apply, Commits, ValidWatchKey, Committed, NamesNew;
    if Commits(t, op) {
      CommitEffect(t, op);
      CommittedReferences(t, Apply(t, op), op.complete, PayloadOf(t, op));
    } else {
      NoCommitEffect(t, op);
    }
  }

  lemma ReferencesStep(t: Tables, op: Op)
    requires ReferencesSound(t)
    ensures ReferencesSound(Apply(t, op))
  {
    hide S.Complete, D.Complete, StartRun, ClaimDelivery, SettleDelivery, ValidWatchKey;
    match op
    case OpStart(req) => StartFrame(t, req);
    case OpComplete(_) => CompleteReferences(t, op);
    case OpBatch(_, _) => CompleteReferences(t, op);
    case OpClaimDelivery(_) => DeliveryOpsFrame(t, op);
    case OpSettle(_) => DeliveryOpsFrame(t, op);
    case _ =>
  }

  lemma StartFrame(t: Tables, req: StartWatchRun)
    ensures var u := Apply(t, OpStart(req));
            && u.watches == t.watches && u.records == t.records
            && u.observations == t.observations && u.deliveries == t.deliveries
  {
    hide ValidStart;
  }

  lemma SoundStep(t: Tables, clock: int, op: Op)
    requires Sound(t, clock) && clock <= Reading(clock, op)
    ensures Sound(Apply(t, op), Reading(clock, op))
  {
    SchedulingStep(t, clock, op);
    KeysStep(t, op);
    ReferencesStep(t, op);
  }

  /** Every reachable database is sound. */
  lemma {:induction false} SoundRun(t: Tables, clock: int, ops: seq<Op>)
    requires Sound(t, clock) && Timed(clock, ops)
    ensures Sound(Exec(t, ops), EndClock(clock, ops))
    ensures clock <= EndClock(clock, ops)
    decreases |ops|
  {
    if ops != [] {
      SoundStep(t, clock, ops[0]);
      SoundRun(Apply(t, ops[0]), Reading(clock, ops[0]), ops[1..]);
    }
  }

  // ------------------------------------------------- the batch in sound tables

  /**
   * After any run from the empty database, on either store, a batch that is refused or whose gate
   * fails changes no row and reports an error; otherwise it changes one run and one watch and succeeds.
   */
  lemma BatchIsAllOrNothing(clock: int, ops: seq<Op>, req: CompleteWatchRun, picks: D.Picks)
    requires Timed(clock, ops) && EndClock(clock, ops) <= req.finishedAt
    requires D.LegalPicks(req.records, picks)
    ensures var t := Exec(EMPTY, ops);
            var (u, r) := D.Complete(t, req, picks);
            if !D.Admits(req) then u == t && r == Err(Validation)
            else if !CommitGate(t, req) then u == t && r.Err? && r.error.Conflict?
            else
              && r.Ok?
              && u.runs == t.runs[RunKey(req.watch, req.run) := FinishedRun(t.runs[RunKey(req.watch, req.run)], req)]
              && u.watches == t.watches[req.watch := Rescheduled(t.watches[req.watch], req)]
  {
    hide D.LegalPicks, D.RescheduleGate, D.Admits, D.Batch, Sound;
    var t := Exec(EMPTY, ops);
    SoundRun(EMPTY, clock, ops);
    BatchInSoundTables(t, EndClock(clock, ops), req, picks);
  }

  lemma BatchInSoundTables(t: Tables, clock: int, req: CompleteWatchRun, picks: D.Picks)
    requires Sound(t, clock) && clock <= req.finishedAt && D.LegalPicks(req.records, picks)
    ensures var (u, r) := D.Batch(t, req, picks);
            if !CommitGate(t, req) then u == t && r.Err? && r.error.Conflict?
            else
              && r.Ok?
              && u.runs == t.runs[RunKey(req.watch, req.run) := FinishedRun(t.runs[RunKey(req.watch, req.run)], req)]
              && u.watches == t.watches[req.watch := Rescheduled(t.watches[req.watch], req)]
  {
    hide D.LegalPicks, D.RescheduleGate, D.RecordStatements, S.AfterRecords;
    NoRunClosedUnderLiveLease(t, clock, req);
    if !CommitGate(t, req) {
      Refinement.FailedGateIsExact(t, req, picks);
    } else {
      assert WatchSound(t.watches[req.watch], clock);
      Refinement.ClosingUpdatesAgree(t, req, picks);
      Refinement.OutcomesAgree(t, req, picks);
    }
  }

  /**
   * In every reachable state the stores agree on a valid completion exactly when its records fit and,
   * should its gate be open, are consistent. Leases and intervals play no part.
   */
  lemma ReachableStoresAgree(clock: int, ops: seq<Op>, req: CompleteWatchRun)
    requires Timed(clock, ops) && EndClock(clock, ops) <= req.finishedAt
    ensures (ValidCompletion(req) ==>
               BulkJson.Fits(req.records) && (CommitGate(Exec(EMPTY, ops), req) ==> Consistent(req.records))) <==>
            forall picks | D.LegalPicks(req.records, picks) ::
              Refinement.SameEffect(D.Complete(Exec(EMPTY, ops), req, picks), S.Complete(Exec(EMPTY, ops), req))
  {
    hide D.LegalPicks, D.Complete, S.Complete, ValidCompletion, BulkJson.Fits, Consistent, D.RescheduleGate;
    var t := Exec(EMPTY, ops);
    SoundRun(EMPTY, clock, ops);
    NoRunClosedUnderLiveLease(t, EndClock(clock, ops), req);
    if CommitGate(t, req) {
      assert WatchSound(t.watches[req.watch], EndClock(clock, ops));
    }
    Refinement.AgreementIsExact(t, req);
  }

  // ------------------------------------------------------ whole runs on D1

  predicate LegalChoices(ops: seq<Op>, choices: seq<D.Picks>) {
    && |choices| == |ops|
    && forall i | 0 <= i < |ops| :: ops[i].OpComplete? ==> D.LegalPicks(ops[i].complete.records, choices[i])
  }

  function OnD1One(op: Op, picks: D.Picks): Op {
    if op.OpComplete? then OpBatch(op.complete, picks) else op
  }

  /** The same requests, completed by batches. */
  function OnD1(ops: seq<Op>, choices: seq<D.Picks>): (r: seq<Op>)
    requires LegalChoices(ops, choices)
    ensures |r| == |ops|
  {
    seq(|ops|, i requires 0 <= i < |ops| => OnD1One(ops[i], choices[i]))
  }

  /** Completions that commit on SQLite carry consistent records that fit. */
  ghost predicate Agreeable(t: Tables, ops: seq<Op>)
    decreases |ops|
  {
    ops == [] || (
      && (ops[0].OpComplete? && Commits(t, ops[0]) ==>
            Consistent(ops[0].complete.records) && BulkJson.Fits(ops[0].complete.records))
      && Agreeable(Apply(t, ops[0]), ops[1..]))
  }

  /** A whole run leaves the same database on D1 as on SQLite, whatever rows the D1 engine picks. */
  lemma {:induction false} RunsAgree(t: Tables, clock: int, ops: seq<Op>, choices: seq<D.Picks>)
    requires Sound(t, clock) && Timed(clock, ops)
    requires LegalChoices(ops, choices) && Agreeable(t, ops)
    ensures Exec(t, OnD1(ops, choices)) == Exec(t, ops)
    decreases |ops|
  {
    if ops != [] {
      var op := ops[0];
      var d1 := OnD1(ops, choices);
      assert d1[0] == OnD1One(op, choices[0]);
      assert d1[1..] == OnD1(ops[1..], choices[1..]);
      CompletionsAgree(t, clock, op, choices[0]);
      SoundStep(t, clock, op);
      RunsAgree(Apply(t, op), Reading(clock, op), ops[1..], choices[1..]);
    }
  }

  lemma CompletionsAgree(t: Tables, clock: int, op: Op, picks: D.Picks)
    requires Sound(t, clock) && clock <= Reading(clock, op)
    requires op.OpComplete? ==> D.LegalPicks(op.complete.records, picks)
    requires op.OpComplete? && Commits(t, op) ==>
               Consistent(op.complete.records) && BulkJson.Fits(op.complete.records)
    ensures Apply(t, OnD1One(op, picks)) == Apply(t, op)
  {
    hide D.LegalPicks, D.Complete, S.Complete, ValidCompletion, BulkJson.Fits, Consistent, D.RescheduleGate;
    if op.OpComplete? {
      NoRunClosedUnderLiveLease(t, clock, op.complete);
      Refinement.TablesAgreeExactly(t, op.complete);
    }
  }
}
