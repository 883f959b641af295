/**
 * The outbox partition: the identities a watch has observed are exactly the disjoint union of the
 * identities in the payloads of its deliveries, so every observation is announced once and only once.
 */
module Outbox {
  import opened Wrappers
  import opened Records
  import opened StoreModel
  import opened Protocol
  import S = SqliteCompletion
  import D = D1Completion

  predicate Owns(t: Tables, wk: WatchKey, dk: DeliveryKey) {
    dk in t.deliveries && WatchKey(dk.tenant, t.deliveries[dk].watch) == wk
  }

  /** Some delivery of the watch announces this identity. */
  ghost predicate Announced(t: Tables, wk: WatchKey, i: Identity) {
    exists dk, r :: Owns(t, wk, dk) && r in t.deliveries[dk].payload.records && IdentityOf(r) == i
  }

  ghost predicate Covered(t: Tables, wk: WatchKey) {
    forall k :: k in t.observations && k.watch == wk ==> Announced(t, wk, k.identity)
  }

  ghost predicate OnlyObserved(t: Tables, wk: WatchKey) {
    forall dk, r :: Owns(t, wk, dk) && r in t.deliveries[dk].payload.records ==>
      ObservationKey(wk, IdentityOf(r)) in t.observations
  }

  ghost predicate Disjoint(t: Tables, wk: WatchKey) {
    forall dk, ek, r, q
      | Owns(t, wk, dk) && Owns(t, wk, ek)
        && r in t.deliveries[dk].payload.records && q in t.deliveries[ek].payload.records
      :: IdentityOf(r) == IdentityOf(q) ==> dk == ek && r == q
  }

  ghost predicate Partition(t: Tables, wk: WatchKey) {
    Covered(t, wk) && OnlyObserved(t, wk) && Disjoint(t, wk)
  }

  // ------------------------------------------------------------- one commit

  /** The completion queues what it newly observed: there is nothing new, or it carries an unused delivery id. */
  predicate Queues(t: Tables, req: CompleteWatchRun) {
    || D.NewObservationKeys(t, req) == {}
    || (req.delivery.Some? && DeliveryKey(req.watch.tenant, req.delivery.value.delivery) !in t.deliveries)
  }

  lemma PayloadIsEmptyIffNothingNew(t: Tables, req: CompleteWatchRun, payload: set<Record>)
    requires NamesNew(t, req, payload)
    ensures payload == {} <==> D.NewObservationKeys(t, req) == {}
  {
    if D.NewObservationKeys(t, req) != {} {
      var k :| k in D.NewObservationKeys(t, req);
      var r :| r in payload && IdentityOf(r) == k.identity;
    }
    if payload != {} {
      var r :| r in payload;
      assert ObservationKey(req.watch, IdentityOf(r)) in D.NewObservationKeys(t, req);
    }
  }

  /** The outbox of one watch after a delivery of new records was queued. */
  predicate Extended(t: Tables, u: Tables, req: CompleteWatchRun, key: DeliveryKey, payload: set<Record>) {
    && key !in t.deliveries && key.tenant == req.watch.tenant
    && key in u.deliveries && u.deliveries == t.deliveries[key := u.deliveries[key]]
    && u.deliveries[key].watch == req.watch.watch && u.deliveries[key].payload.records == payload
    && u.observations.Keys == t.observations.Keys + D.ObservationKeys(req)
  }

  lemma QueuedDelivery(t: Tables, u: Tables, req: CompleteWatchRun, payload: set<Record>)
    requires Committed(t, u, req, payload) && NamesNew(t, req, payload)
    requires Queues(t, req) && D.NewObservationKeys(t, req) != {}
    ensures Extended(t, u, req, DeliveryKey(req.watch.tenant, req.delivery.value.delivery), payload)
  {
    hide NamesNew, D.NewObservationKeys, D.ObservationKeys, CommitGate;
    PayloadIsEmptyIffNothingNew(t, req, payload);
  }

  lemma UnchangedDeliveries(t: Tables, u: Tables, req: CompleteWatchRun, payload: set<Record>)
    requires Committed(t, u, req, payload) && NamesNew(t, req, payload)
    requires !Queues(t, req) || D.NewObservationKeys(t, req) == {}
    ensures u.deliveries == t.deliveries
  {
    hide NamesNew, D.NewObservationKeys, D.ObservationKeys, CommitGate;
    PayloadIsEmptyIffNothingNew(t, req, payload);
  }

  lemma NothingNewKeepsPartition(t: Tables, u: Tables, req: CompleteWatchRun, payload: set<Record>)
    requires Committed(t, u, req, payload) && NamesNew(t, req, payload)
    requires D.NewObservationKeys(t, req) == {} && Partition(t, req.watch)
    ensures Partition(u, req.watch)
  {
    hide NamesNew, CommitGate, D.ObservationKeys, D.RecordKeys, Partition, Queue;
    UnchangedDeliveries(t, u, req, payload);
    assert u.observations.Keys == t.observations.Keys + D.NewObservationKeys(t, req);
    SameOutboxKeepsPartition(t, u, req.watch);
  }

  lemma CommitCovers(t: Tables, u: Tables, req: CompleteWatchRun, key: DeliveryKey, payload: set<Record>)
    requires Extended(t, u, req, key, payload) && NamesNew(t, req, payload)
    requires Covered(t, req.watch)
    ensures Covered(u, req.watch)
  {
    hide D.ObservationKeys;
    forall k | k in u.observations && k.watch == req.watch
      ensures Announced(u, req.watch, k.identity)
    {
      if k in t.observations {
        var dk, r :| Owns(t, req.watch, dk) && r in t.deliveries[dk].payload.records && IdentityOf(r) == k.identity;
        assert Owns(u, req.watch, dk);
      } else {
        assert k in D.NewObservationKeys(t, req);
        var r :| r in payload && IdentityOf(r) == k.identity;
        assert Owns(u, req.watch, key);
        assert r in u.deliveries[key].payload.records;
      }
    }
  }

  lemma CommitAnnouncesObserved(t: Tables, u: Tables, req: CompleteWatchRun, key: DeliveryKey, payload: set<Record>)
    requires Extended(t, u, req, key, payload) && NamesNew(t, req, payload)
    requires OnlyObserved(t, req.watch)
    ensures OnlyObserved(u, req.watch)
  {
    hide D.ObservationKeys;
    forall dk, r | Owns(u, req.watch, dk) && r in u.deliveries[dk].payload.records
      ensures ObservationKey(req.watch, IdentityOf(r)) in u.observations
    {
      if dk != key {
        assert Owns(t, req.watch, dk);
        assert ObservationKey(req.watch, IdentityOf(r)) in t.observations;
      }
    }
  }

  lemma CommitStaysDisjoint(t: Tables, u: Tables, req: CompleteWatchRun, key: DeliveryKey, payload: set<Record>)
    requires Extended(t, u, req, key, payload) && NamesNew(t, req, payload)
    requires OnlyObserved(t, req.watch) && Disjoint(t, req.watch)
    ensures Disjoint(u, req.watch)
  {
    hide D.NewObservationKeys, D.ObservationKeys, OnlyObserved;
    forall dk, ek, r, q | Owns(u, req.watch, dk) && Owns(u, req.watch, ek)
                          && r in u.deliveries[dk].payload.records && q in u.deliveries[ek].payload.records
                          && IdentityOf(r) == IdentityOf(q)
      ensures dk == ek && r == q
    {
      OldOrNew(t, u, req, key, payload, dk, r);
      OldOrNew(t, u, req, key, payload, ek, q);
    }
  }

  /** A record in the outbox after a commit is an old announcement of something seen, or new and unseen. */
  lemma OldOrNew(t: Tables, u: Tables, req: CompleteWatchRun, key: DeliveryKey, payload: set<Record>, dk: DeliveryKey, r: Record)
    requires Extended(t, u, req, key, payload) && NamesNew(t, req, payload) && OnlyObserved(t, req.watch)
    requires Owns(u, req.watch, dk) && r in u.deliveries[dk].payload.records
    ensures if dk == key then r in payload && ObservationKey(req.watch, IdentityOf(r)) !in t.observations
            else Owns(t, req.watch, dk) && r in t.deliveries[dk].payload.records
                 && ObservationKey(req.watch, IdentityOf(r)) in t.observations
  {
    hide D.ObservationKeys;
    if dk != key {
      assert Owns(t, req.watch, dk);
    }
  }

  /** A commit that queues nothing of what it newly observed leaves an observation unannounced. */
  lemma UnqueuedIsUnannounced(t: Tables, u: Tables, req: CompleteWatchRun, payload: set<Record>)
    requires Committed(t, u, req, payload) && NamesNew(t, req, payload)
    requires !Queues(t, req) && OnlyObserved(t, req.watch)
    ensures !Covered(u, req.watch)
  {
    hide CommitGate;
    UnchangedDeliveries(t, u, req, payload);
    var k :| k in D.NewObservationKeys(t, req);
    assert k in u.observations && k.watch == req.watch;
    forall dk, r | Owns(u, req.watch, dk) && r in u.deliveries[dk].payload.records
      ensures IdentityOf(r) != k.identity
    {
      assert Owns(t, req.watch, dk);
    }
    assert !Announced(u, req.watch, k.identity);
  }

  /** A commit, on either store, keeps the partition exactly when it queues what it newly observed. */
  lemma CommitKeepsPartitionExactly(t: Tables, op: Op)
    requires Commits(t, op) && Partition(t, op.complete.watch)
    ensures Partition(Apply(t, op), op.complete.watch) <==> Queues(t, op.complete)
  {
    hide Apply, Committed, NamesNew, Covered, OnlyObserved, Disjoint, Extended, CommitGate, D.Admits, D.LegalPicks;
    var u := Apply(t, op);
    var req := op.complete;
    var payload := PayloadOf(t, op);
    CommitEffect(t, op);
    if D.NewObservationKeys(t, req) == {} {
      NothingNewKeepsPartition(t, u, req, payload);
    } else if Queues(t, req) {
      QueuedDelivery(t, u, req, payload);
      var key := DeliveryKey(req.watch.tenant, req.delivery.value.delivery);
      CommitCovers(t, u, req, key, payload);
      CommitAnnouncesObserved(t, u, req, key, payload);
      CommitStaysDisjoint(t, u, req, key, payload);
    } else {
      UnqueuedIsUnannounced(t, u, req, payload);
    }
  }

  // ------------------------------------------------------------ whole runs

  /** The parts of the tables the partition of one watch depends on. */
  ghost predicate SameOutbox(t: Tables, u: Tables, wk: WatchKey) {
    && (forall k: ObservationKey :: k.watch == wk ==> (k in u.observations <==> k in t.observations))
    && (forall dk :: Owns(u, wk, dk) <==> Owns(t, wk, dk))
    && (forall dk :: Owns(t, wk, dk) ==> u.deliveries[dk].payload == t.deliveries[dk].payload)
  }

  lemma SameOutboxKeepsPartition(t: Tables, u: Tables, wk: WatchKey)
    requires SameOutbox(t, u, wk) && Partition(t, wk)
    ensures Partition(u, wk)
  {
    forall k | k in u.observations && k.watch == wk
      ensures Announced(u, wk, k.identity)
    {
      var dk, r :| Owns(t, wk, dk) && r in t.deliveries[dk].payload.records && IdentityOf(r) == k.identity;
      assert Owns(u, wk, dk);
    }
    assert Disjoint(u, wk);
  }

  lemma OtherWatchCompletes(t: Tables, op: Op, wk: WatchKey)
    requires Completes(op) && op.complete.watch != wk
    ensures SameOutbox(t, Apply(t, op), wk)
  {
    hide Apply, Commits, CommitGate, NamesNew, D.RecordKeys;
    if Commits(t, op) {
      CommitEffect(t, op);
    } else {
      NoCommitEffect(t, op);
    }
  }

  lemma OtherOpsKeepOutbox(t: Tables, op: Op, wk: WatchKey)
    requires !Completes(op) && op != OpDelete(wk)
    ensures SameOutbox(t, Apply(t, op), wk)
  {
    hide SameOutbox, DeleteWatch;
    if op.OpClaimDelivery? || op.OpSettle? {
      DeliveryOpsFrame(t, op);
      MovedKeepOutbox(t, Apply(t, op), wk);
    } else if op.OpDelete? {
      OtherDeletionKeepsOutbox(t, op.watch, wk);
    } else {
      SchedulingKeepsOutbox(t, op, wk);
    }
  }

  lemma MovedKeepOutbox(t: Tables, u: Tables, wk: WatchKey)
    requires DeliveriesMoved(t, u)
    ensures SameOutbox(t, u, wk)
  {
  }

  lemma OtherDeletionKeepsOutbox(t: Tables, other: WatchKey, wk: WatchKey)
    requires other != wk
    ensures SameOutbox(t, DeleteWatch(t, other), wk)
  {
    hide ValidWatchKey;
  }

  lemma SchedulingKeepsOutbox(t: Tables, op: Op, wk: WatchKey)
    requires op.OpCreate? || op.OpClaim? || op.OpStart?
    ensures SameOutbox(t, Apply(t, op), wk)
  {
    hide ValidClaim, ValidStart, ValidCreate, FirstDue;
  }

  predicate OutboxOp(t: Tables, op: Op, wk: WatchKey) {
    Commits(t, op) && op.complete.watch == wk ==> Queues(t, op.complete)
  }

  ghost predicate OutboxOps(t: Tables, ops: seq<Op>, wk: WatchKey)
    decreases |ops|
  {
    ops == [] || (OutboxOp(t, ops[0], wk) && OutboxOps(Apply(t, ops[0]), ops[1..], wk))
  }

  lemma PartitionStep(t: Tables, op: Op, wk: WatchKey)
    requires ReferencesSound(t)
    requires Partition(t, wk) && OutboxOp(t, op, wk)
    ensures Partition(Apply(t, op), wk)
  {
    hide Apply, Partition, Queues, SameOutbox;
    if Completes(op) {
      CompletionStep(t, op, wk);
    } else if op == OpDelete(wk) {
      DeletionEmptiesOutbox(t, wk);
    } else {
      OtherOpsKeepOutbox(t, op, wk);
      SameOutboxKeepsPartition(t, Apply(t, op), wk);
    }
  }

  lemma CompletionStep(t: Tables, op: Op, wk: WatchKey)
    requires Completes(op) && Partition(t, wk) && OutboxOp(t, op, wk)
    ensures Partition(Apply(t, op), wk)
  {
    hide Apply, Commits, Partition, Queues, SameOutbox;
    if op.complete.watch != wk {
      OtherWatchCompletes(t, op, wk);
      SameOutboxKeepsPartition(t, Apply(t, op), wk);
    } else if Commits(t, op) {
      CommitKeepsPartitionExactly(t, op);
    } else {
      NoCommitEffect(t, op);
      RescheduledKeepsPartition(t, Apply(t, op), wk);
    }
  }

  lemma RescheduledKeepsPartition(t: Tables, u: Tables, wk: WatchKey)
    requires Partition(t, wk) && u.observations == t.observations && u.deliveries == t.deliveries
    ensures Partition(u, wk)
  {
    assert SameOutbox(t, u, wk);
    SameOutboxKeepsPartition(t, u, wk);
  }

  /** The cascades of a deletion leave no observation and no delivery of the watch. */
  lemma DeletionEmptiesOutbox(t: Tables, wk: WatchKey)
    requires ReferencesSound(t)
    ensures forall k :: k in Apply(t, OpDelete(wk)).observations ==> k.watch != wk
    ensures forall dk :: !Owns(Apply(t, OpDelete(wk)), wk, dk)
    ensures Partition(Apply(t, OpDelete(wk)), wk)
  {
  }

  /** The partition holds in every state reachable through completions that queue what they newly observe. */
  lemma {:induction false} OutboxPartition(t: Tables, clock: int, ops: seq<Op>, wk: WatchKey)
    requires Sound(t, clock) && Timed(clock, ops)
    requires Partition(t, wk) && OutboxOps(t, ops, wk)
    ensures Partition(Exec(t, ops), wk)
    decreases |ops|
  {
    if ops != [] {
      PartitionStep(t, ops[0], wk);
      SoundStep(t, clock, ops[0]);
      OutboxPartition(Apply(t, ops[0]), Reading(clock, ops[0]), ops[1..], wk);
    }
  }

  // ----------------------------------------------------- deliveries and runs

  function RunOf(t: Tables, dk: DeliveryKey): RunKey
    requires dk in t.deliveries
  {
    RunKey(WatchKey(dk.tenant, t.deliveries[dk].watch), t.deliveries[dk].run)
  }

  /** A delivery announces, of one closed run, what that run found when it ended. */
  predicate AnnouncesItsRun(t: Tables, dk: DeliveryKey)
    requires dk in t.deliveries
  {
    var row := t.deliveries[dk];
    var rk := RunOf(t, dk);
    && row.payload.watch == rk.watch && row.payload.run == rk.run && row.payload.records != {}
    && rk in t.runs && t.runs[rk].status != RunRunning
    && t.runs[rk].finished == Some(row.payload.observedAt) && row.created == row.payload.observedAt
  }

  /** Every delivery announces its run, and no run has two. */
  predicate Attributed(t: Tables) {
    && (forall dk | dk in t.deliveries :: AnnouncesItsRun(t, dk))
    && (forall dk, ek | dk in t.deliveries && ek in t.deliveries :: RunOf(t, dk) == RunOf(t, ek) ==> dk == ek)
  }

  lemma CommitAttributes(t: Tables, u: Tables, req: CompleteWatchRun, payload: set<Record>)
    requires Attributed(t) && Committed(t, u, req, payload)
    ensures Attributed(u)
  {
    hide Rescheduled, D.RecordKeys, D.ObservationKeys, HoldsLease;
    var rk := RunKey(req.watch, req.run);
    forall dk | dk in t.deliveries
      ensures RunOf(t, dk) != rk && dk in u.deliveries && u.deliveries[dk] == t.deliveries[dk] && AnnouncesItsRun(u, dk)
    {
      assert AnnouncesItsRun(t, dk);
    }
    forall dk | dk in u.deliveries && dk !in t.deliveries
      ensures RunOf(u, dk) == rk && AnnouncesItsRun(u, dk)
      ensures dk == DeliveryKey(req.watch.tenant, req.delivery.value.delivery)
    {
    }
  }

  lemma CompletionAttributes(t: Tables, op: Op)
    requires Completes(op) && Attributed(t)
    ensures Attributed(Apply(t, op))
  {
    hide Apply, Commits, Committed, NamesNew;
    if Commits(t, op) {
      CommitEffect(t, op);
      CommitAttributes(t, Apply(t, op), op.complete, PayloadOf(t, op));
    } else {
      NoCommitEffect(t, op);
      SameRunsKeepAttribution(t, Apply(t, op));
    }
  }

  lemma DeletionAttributes(t: Tables, wk: WatchKey)
    requires Attributed(t)
    ensures Attributed(DeleteWatch(t, wk))
  {
    var u := DeleteWatch(t, wk);
    forall dk | dk in u.deliveries
      ensures AnnouncesItsRun(u, dk)
    {
      assert AnnouncesItsRun(t, dk);
    }
  }

  lemma RunsStay(t: Tables, op: Op)
    requires op.OpCreate? || op.OpClaim? || op.OpStart?
    ensures Apply(t, op).deliveries == t.deliveries
    ensures forall rk :: rk in t.runs ==> rk in Apply(t, op).runs && Apply(t, op).runs[rk] == t.runs[rk]
  {
    hide ValidCreate, ValidClaim, ValidStart, NewRun;
  }

  lemma AttributedStep(t: Tables, op: Op)
    requires Attributed(t)
    ensures Attributed(Apply(t, op))
  {
    hide S.Complete, D.Complete, ClaimDelivery, SettleDelivery, ClaimWatch, InsertWatch, StartRun, DeleteWatch;
    var u := Apply(t, op);
    if Completes(op) {
      CompletionAttributes(t, op);
    } else if op.OpClaimDelivery? || op.OpSettle? {
      DeliveryOpsFrame(t, op);
      SameRunsKeepAttribution(t, u);
    } else if op.OpDelete? {
      DeletionAttributes(t, op.watch);
    } else {
      RunsStay(t, op);
      forall dk | dk in u.deliveries
        ensures AnnouncesItsRun(u, dk)
      {
        assert AnnouncesItsRun(t, dk);
      }
    }
  }

  lemma SameRunsKeepAttribution(t: Tables, u: Tables)
    requires Attributed(t) && u.runs == t.runs && u.deliveries.Keys == t.deliveries.Keys
    requires forall k :: k in t.deliveries ==>
               && u.deliveries[k].watch == t.deliveries[k].watch && u.deliveries[k].run == t.deliveries[k].run
               && u.deliveries[k].payload == t.deliveries[k].payload && u.deliveries[k].created == t.deliveries[k].created
    ensures Attributed(u)
  {
    forall dk | dk in u.deliveries
      ensures AnnouncesItsRun(u, dk)
    {
      assert AnnouncesItsRun(t, dk);
    }
  }

  /** In every reachable state each delivery announces one closed run, and each run is announced at most once. */
  lemma {:induction false} RunsAreAnnouncedOnce(t: Tables, ops: seq<Op>)
    requires Attributed(t)
    ensures Attributed(Exec(t, ops))
    decreases |ops|
  {
    if ops != [] {
      AttributedStep(t, ops[0]);
      RunsAreAnnouncedOnce(Apply(t, ops[0]), ops[1..]);
    }
  }

  // --------------------------------------------------- ids named after runs

  /** Within a tenant the delivery id tells watch and run. */
  ghost predicate Injective(idOf: (WatchKey, string) -> string) {
    forall w: WatchKey, v: WatchKey, a, b :: w.tenant == v.tenant && idOf(w, a) == idOf(v, b) ==> w == v && a == b
  }

  /** Every completion carries the delivery id its run determines. */
  predicate Named(op: Op, idOf: (WatchKey, string) -> string) {
    Completes(op) ==>
      op.complete.delivery.Some? && op.complete.delivery.value.delivery == idOf(op.complete.watch, op.complete.run)
  }

  predicate NamedRows(t: Tables, idOf: (WatchKey, string) -> string) {
    forall dk | dk in t.deliveries :: dk.delivery == idOf(RunOf(t, dk).watch, RunOf(t, dk).run)
  }

  /** A run that is still open was not announced yet, so its delivery id is unused. */
  lemma NamedQueues(t: Tables, op: Op, idOf: (WatchKey, string) -> string)
    requires Attributed(t) && NamedRows(t, idOf) && Injective(idOf)
    requires Commits(t, op) && Named(op, idOf)
    ensures Queues(t, op.complete)
  {
    hide D.Admits, D.LegalPicks, ValidCompletion, HoldsLease;
    var req := op.complete;
    var key := DeliveryKey(req.watch.tenant, req.delivery.value.delivery);
    assert key in t.deliveries ==> AnnouncesItsRun(t, key);
  }

  lemma NamedStep(t: Tables, op: Op, idOf: (WatchKey, string) -> string)
    requires NamedRows(t, idOf) && Named(op, idOf)
    ensures NamedRows(Apply(t, op), idOf)
  {
    hide S.Complete, D.Complete, ClaimDelivery, SettleDelivery, ClaimWatch, InsertWatch, StartRun, ValidWatchKey;
    if Completes(op) {
      NamedCompletion(t, op, idOf);
    } else if op.OpClaimDelivery? || op.OpSettle? {
      DeliveryOpsFrame(t, op);
    } else if !op.OpDelete? {
      RunsStay(t, op);
    }
  }

  lemma NamedCompletion(t: Tables, op: Op, idOf: (WatchKey, string) -> string)
    requires Completes(op) && NamedRows(t, idOf) && Named(op, idOf)
    ensures NamedRows(Apply(t, op), idOf)
  {
    hide Apply, Commits, CommitGate, NamesNew, D.RecordKeys, D.ObservationKeys;
    if Commits(t, op) {
      CommitEffect(t, op);
    } else {
      NoCommitEffect(t, op);
    }
  }

  lemma {:induction false} NamedOpsQueue(t: Tables, ops: seq<Op>, wk: WatchKey, idOf: (WatchKey, string) -> string)
    requires Attributed(t) && NamedRows(t, idOf) && Injective(idOf)
    requires forall i | 0 <= i < |ops| :: Named(ops[i], idOf)
    ensures OutboxOps(t, ops, wk)
    decreases |ops|
  {
    hide Apply, Attributed, NamedRows, Injective, Named, Queues, Commits;
    if ops != [] {
      if Commits(t, ops[0]) {
        NamedQueues(t, ops[0], idOf);
      }
      NamedStep(t, ops[0], idOf);
      AttributedStep(t, ops[0]);
      NamedOpsQueue(Apply(t, ops[0]), ops[1..], wk, idOf);
    }
  }

  /**
   * With a delivery configured and ids that tell runs apart, the partition holds in every reachable
   * state of every watch: a run closes once, so no completion ever meets its id already used.
   */
  lemma InjectiveIdsKeepPartition(clock: int, ops: seq<Op>, wk: WatchKey, idOf: (WatchKey, string) -> string)
    requires Timed(clock, ops) && Injective(idOf)
    requires forall i | 0 <= i < |ops| :: Named(ops[i], idOf)
    ensures Partition(Exec(EMPTY, ops), wk)
  {
    hide Exec, Injective, Named, OutboxOps;
    NamedOpsQueue(EMPTY, ops, wk, idOf);
    OutboxPartition(EMPTY, clock, ops, wk);
  }
}
