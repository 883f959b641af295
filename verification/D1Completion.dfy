/**
 * What the D1 completion batch computes: seven or eight set-oriented statements in a fixed order,
 * each behind its own copy of the lease gate. `Picks` are the rows the engine takes where a
 * statement leaves the choice among equal identities open.
 */
module D1Completion {
  import opened Wrappers
  import opened Records
  import opened StoreModel
  import BulkJson

  /** `update` answers the `LIMIT 1` subqueries, `payload` the bare columns of the `GROUP BY`. */
  datatype Picks = Picks(update: map<Identity, Record>, payload: map<Identity, Record>)

  predicate NamesAll(rs: seq<Record>, pick: map<Identity, Record>) {
    pick.Keys == Identities(rs) && forall i | i in pick :: IdentityOf(pick[i]) == i
  }

  /** All bare columns of a group come from one of its rows. */
  predicate LegalPick(rs: seq<Record>, pick: map<Identity, Record>) {
    NamesAll(rs, pick) && forall i | i in pick :: pick[i] in rs
  }

  predicate Sibling(rs: seq<Record>, r: Record, p: Record) { r in rs && IdentityOf(r) == IdentityOf(p) }

  /** Each column has a subquery of its own, which may settle on a row of its own. */
  predicate Assembled(rs: seq<Record>, p: Record) {
    && (exists r | r in rs :: Sibling(rs, r, p) && r.kind == p.kind)
    && (exists r | r in rs :: Sibling(rs, r, p) && r.url == p.url)
    && (exists r | r in rs :: Sibling(rs, r, p) && r.title == p.title)
    && (exists r | r in rs :: Sibling(rs, r, p) && r.text == p.text)
    && (exists r | r in rs :: Sibling(rs, r, p) && r.author == p.author)
    && (exists r | r in rs :: Sibling(rs, r, p) && r.createdAt == p.createdAt)
    && (exists r | r in rs :: Sibling(rs, r, p) && r.updatedAt == p.updatedAt)
    && (exists r | r in rs :: Sibling(rs, r, p) && r.metadata == p.metadata)
  }

  predicate LegalUpdate(rs: seq<Record>, pick: map<Identity, Record>) {
    NamesAll(rs, pick) && forall i | i in pick :: Assembled(rs, pick[i])
  }

  predicate LegalPicks(rs: seq<Record>, picks: Picks) {
    LegalUpdate(rs, picks.update) && LegalPick(rs, picks.payload)
  }

  /** The first record with an identity: the row an insert keeps when later ones conflict with it. */
  function FirstOf(rs: seq<Record>, i: Identity): (r: Record)
    requires i in Identities(rs)
    ensures r in rs && IdentityOf(r) == i
  {
    if IdentityOf(rs[0]) == i then rs[0] else FirstOf(rs[1..], i)
  }

  function RecordKeys(req: CompleteWatchRun): set<RecordKey> {
    set i | i in Identities(req.records) :: RecordKey(req.watch.tenant, i)
  }

  function ObservationKeys(req: CompleteWatchRun): set<ObservationKey> {
    set i | i in Identities(req.records) :: ObservationKey(req.watch, i)
  }

  function NewRecordKeys(t: Tables, req: CompleteWatchRun): set<RecordKey> {
    RecordKeys(req) - t.records.Keys
  }

  function NewObservationKeys(t: Tables, req: CompleteWatchRun): set<ObservationKey> {
    ObservationKeys(req) - t.observations.Keys
  }

  function InsertRecords(t: Tables, req: CompleteWatchRun): Tables {
    if !CommitGate(t, req) then t
    else t.(records := t.records + map k | k in NewRecordKeys(t, req) ::
      RecordRow(FirstOf(req.records, k.identity), req.finishedAt, req.finishedAt))
  }

  function UpdateRecords(t: Tables, req: CompleteWatchRun, pick: map<Identity, Record>): Tables
    requires NamesAll(req.records, pick)
  {
    if !CommitGate(t, req) then t
    else t.(records := map k | k in t.records ::
      if k in RecordKeys(req) then RecordRow(pick[k.identity], t.records[k].first, req.finishedAt)
      else t.records[k])
  }

  function NewPayload(t: Tables, req: CompleteWatchRun, pick: map<Identity, Record>): set<Record>
    requires NamesAll(req.records, pick)
  {
    set k | k in NewObservationKeys(t, req) :: pick[k.identity]
  }

  function InsertRunDelivery(t: Tables, req: CompleteWatchRun, d: RunDelivery, pick: map<Identity, Record>): Tables
    requires NamesAll(req.records, pick)
  {
    var key := DeliveryKey(req.watch.tenant, d.delivery);
    if !CommitGate(t, req) || NewObservationKeys(t, req) == {} || key in t.deliveries then t
    else t.(deliveries := t.deliveries[key := NewDelivery(req, d, NewPayload(t, req, pick))])
  }

  function InsertObservations(t: Tables, req: CompleteWatchRun): Tables {
    if !CommitGate(t, req) then t
    else t.(observations := t.observations + map k | k in NewObservationKeys(t, req) ::
      ObservationRow(req.finishedAt, req.finishedAt))
  }

  function UpdateObservations(t: Tables, req: CompleteWatchRun): Tables {
    if !CommitGate(t, req) then t
    else t.(observations := map k | k in t.observations ::
      if k in ObservationKeys(req) then ObservationRow(t.observations[k].first, req.finishedAt)
      else t.observations[k])
  }

  function CompleteRun(t: Tables, req: CompleteWatchRun): Tables {
    var rk := RunKey(req.watch, req.run);
    if !CommitGate(t, req) then t
    else t.(runs := t.runs[rk := FinishedRun(t.runs[rk], req)])
  }

  /** The last statement's gate: it accepts any run of this owner that was closed in this very second. */
  predicate RunJustClosed(t: Tables, req: CompleteWatchRun) {
    var rk := RunKey(req.watch, req.run);
    && rk in t.runs
    && t.runs[rk].owner == req.owner
    && t.runs[rk].status != RunRunning
    && t.runs[rk].finished == Some(req.finishedAt)
  }

  predicate RescheduleGate(t: Tables, req: CompleteWatchRun) {
    HoldsLease(t, req.watch, req.owner, req.finishedAt) && RunJustClosed(t, req)
  }

  function CompleteWatch(t: Tables, req: CompleteWatchRun): Tables {
    if !RescheduleGate(t, req) then t
    else t.(watches := t.watches[req.watch := Rescheduled(t.watches[req.watch], req)])
  }

  /** The five record statements, in batch order. */
  function RecordStatements(t: Tables, req: CompleteWatchRun, picks: Picks): Tables
    requires LegalPicks(req.records, picks)
  {
    var t1 := InsertRecords(t, req);
    var t2 := UpdateRecords(t1, req, picks.update);
    var t3 := if req.delivery.Some? then InsertRunDelivery(t2, req, req.delivery.value, picks.payload) else t2;
    var t4 := InsertObservations(t3, req);
    UpdateObservations(t4, req)
  }

  /** The whole batch, and what its result sets say. Nothing is ever rolled back. */
  function Batch(t: Tables, req: CompleteWatchRun, picks: Picks): (Tables, Result<RunOutcome, StoreError>)
    requires LegalPicks(req.records, picks)
  {
    var t5 := RecordStatements(t, req, picks);
    var t6 := CompleteRun(t5, req);
    var t7 := CompleteWatch(t6, req);
    (t7, Outcome(t, req, CommitGate(t5, req), RescheduleGate(t6, req)))
  }

  /** `complete_outcome`: the gate row first, then the row counts of the two closing updates. */
  function Outcome(t: Tables, req: CompleteWatchRun, runChanged: bool, watchChanged: bool): Result<RunOutcome, StoreError> {
    if !CommitGate(t, req) || t.watches[req.watch].interval <= 0 then
      Err(Conflict(if req.error.Some? then RunNotRunning else LeaseNotHeld))
    else if !runChanged then Err(Conflict(RunNotRunning))
    else if !watchChanged then Err(Conflict(LeaseNotHeld))
    else Ok(RunOutcome(req.run, StatusFor(req.error), |req.records|,
                       |NewRecordKeys(t, req)|, |NewObservationKeys(t, req)|))
  }

  /** Refused before any statement: an invalid request, and records whose JSON text is too long for one parameter. */
  predicate Admits(req: CompleteWatchRun) {
    ValidCompletion(req) && BulkJson.Fits(req.records)
  }

  function Complete(t: Tables, req: CompleteWatchRun, picks: Picks): (Tables, Result<RunOutcome, StoreError>)
    requires LegalPicks(req.records, picks)
  {
    if !Admits(req) then (t, Err(Validation)) else Batch(t, req, picks)
  }
}
