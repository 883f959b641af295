/**
 * The programs that drive the stores: the scheduled enqueue pass, the queue consumer, the native
 * watch loop and the webhook sender. Clock readings, search outcomes and responses are inputs.
 */
module Drivers {
  import opened Wrappers
  import opened Records
  import opened StoreModel
  import opened Protocol
  import opened TenantRotation
  import S = SqliteCompletion
  import D = D1Completion
  import D1Store
  import SqliteStore
  import BulkJson
  import CloudRuns
  import NativeRuns
  import WebhookBody
  import Effects

  // --------------------------------------------------------------- enqueue

  /** Each message carries its watch's row, leased under the message's token, and no watch is queued twice. */
  ghost predicate Leased(watches: map<WatchKey, WatchRow>, messages: seq<ClaimedWatch>, expires: int) {
    && (forall i :: 0 <= i < |messages| ==>
          && messages[i].watch in watches && messages[i].expires == expires
          && watches[messages[i].watch] == messages[i].row
          && messages[i].row.lease == Some(Lease(messages[i].owner, expires)))
    && (forall i, j :: 0 <= i < j < |messages| ==> messages[i].watch != messages[j].watch)
  }

  /** Rows that nobody may claim now. */
  ghost predicate KeepsBusyRows(before: map<WatchKey, WatchRow>, after: map<WatchKey, WatchRow>, now: int) {
    after.Keys == before.Keys &&
    forall k :: k in before && !Claimable(before[k], now) ==> after[k] == before[k]
  }

  lemma BusyRowsCompose(a: map<WatchKey, WatchRow>, b: map<WatchKey, WatchRow>, c: map<WatchKey, WatchRow>, now: int)
    requires KeepsBusyRows(a, b, now) && KeepsBusyRows(b, c, now)
    ensures KeepsBusyRows(a, c, now)
  {
  }

  lemma LeasedSurvives(
    before: map<WatchKey, WatchRow>, after: map<WatchKey, WatchRow>, messages: seq<ClaimedWatch>, now: int, expires: int)
    requires Leased(before, messages, expires) && KeepsBusyRows(before, after, now) && now < expires
    ensures Leased(after, messages, expires)
  {
    forall i | 0 <= i < |messages|
      ensures messages[i].watch in after && after[messages[i].watch] == messages[i].row
    {
      assert !Claimable(before[messages[i].watch], now);
    }
  }

  /** One more claim adds one more leased watch. */
  lemma ClaimExtends(t: Tables, req: ClaimDueWatch, messages: seq<ClaimedWatch>, k: WatchKey, row: WatchRow)
    requires Leased(t.watches, messages, req.now + req.leaseSeconds)
    requires ClaimWatch(t, req).1 == Some(k) && k in ClaimWatch(t, req).0.watches && row == ClaimWatch(t, req).0.watches[k]
    ensures var u := ClaimWatch(t, req).0;
            && KeepsBusyRows(t.watches, u.watches, req.now)
            && Leased(u.watches, messages + [ClaimedWatch(k, row, req.owner, req.now + req.leaseSeconds)],
                      req.now + req.leaseSeconds)
  {
    var u := ClaimWatch(t, req).0;
    assert Claimable(t.watches[k], req.now);
    assert KeepsBusyRows(t.watches, u.watches, req.now);
    LeasedSurvives(t.watches, u.watches, messages, req.now, req.now + req.leaseSeconds);
    forall i | 0 <= i < |messages|
      ensures messages[i].watch != k
    {
      assert !Claimable(t.watches[messages[i].watch], req.now);
    }
  }

  /** What a scheduled pass asks of its tenants and its configuration; the tokens it makes itself. */
  predicate ValidPass(tenant: string, leaseSeconds: int) { ValidTenant(tenant) && ValidInterval(leaseSeconds) }

  /** The messages queued are the watches claimed, but for the last one if the queue refuses it. */
  predicate Queued(messages: seq<ClaimedWatch>, claimed: seq<ClaimedWatch>, error: Option<StoreError>) {
    if error == Some(Backend) then |claimed| == |messages| + 1 && messages == claimed[..|messages|]
    else messages == claimed
  }

  /**
   * Claims and queues due watches of one tenant, up to the limit. `messages` are those queued, also
   * when an error ends the pass; a watch whose message the queue refuses stays leased. `accepts` says
   * which messages the queue takes.
   */
  method EnqueueDueWatches(
    store: D1Store.Store, tenant: string, now: int, claimLimit: nat, leaseSeconds: int, tokens: nat -> string,
    accepts: nat -> bool)
    returns (messages: seq<ClaimedWatch>, error: Option<StoreError>, calls: nat, ghost claimed: seq<ClaimedWatch>)
    requires forall n :: ValidId(tokens(n))
    modifies store
    ensures KeepsBusyRows(old(store.watches), store.watches, now)
    ensures |claimed| <= claimLimit && calls <= |claimed| + 1
    ensures Queued(messages, claimed, error)
    ensures Leased(store.watches, claimed, now + leaseSeconds)
    ensures Served(old(store.watches), claimed, [tenant], now)
    ensures forall i :: 0 <= i < |claimed| ==> (accepts(i) <==> i < |messages|) && claimed[i].owner == tokens(i)
    ensures error == None || error == Some(Validation) || error == Some(Backend)
    ensures error == Some(Validation) <==> claimLimit > 0 && !ValidPass(tenant, leaseSeconds)
    ensures error == Some(Validation) ==> store.Contents() == old(store.Contents())
    ensures |claimed| > 0 ==> ValidPass(tenant, leaseSeconds)
    ensures error.None? && |messages| < claimLimit ==> ClaimableKeys(store.watches, tenant, now) == {}
  {
    hide ValidId, ValidTenant, Leased, KeepsBusyRows, Served, Claimable, ClaimableKeys, FirstDue, Effects.ClaimsWatch;
    messages := [];
    claimed := [];
    error := None;
    calls := 0;
    NothingLeased(store.watches, now + leaseSeconds, now);
    NothingServed(store.watches, [tenant], now);
    while |messages| < claimLimit
      invariant calls == |messages| <= claimLimit
      invariant messages == claimed
      invariant |messages| > 0 ==> ValidPass(tenant, leaseSeconds)
      invariant |messages| == 0 ==> store.Contents() == old(store.Contents())
      invariant KeepsBusyRows(old(store.watches), store.watches, now)
      invariant Leased(store.watches, messages, now + leaseSeconds)
      invariant Served(old(store.watches), messages, [tenant], now)
      invariant forall i :: 0 <= i < |messages| ==> accepts(i) && messages[i].owner == tokens(i)
    {
      ghost var before := store.Contents();
      var claim := ClaimDueWatch(tenant, now, tokens(|messages|), leaseSeconds);
      var answer := store.ClaimDue(claim);
      calls := calls + 1;
      if answer.Err? {
        error := Some(answer.error);
        return;
      }
      if answer.value.None? {
        return;
      }
      ghost var k := answer.value.value.watch;
      ClaimExtends(before, claim, messages, k, answer.value.value.row);
      OneServed(before, claim, k, answer.value.value);
      ServedJoins(old(store.watches), before.watches, messages, [answer.value.value], [tenant], tenant, now);
      BusyRowsCompose(old(store.watches), before.watches, store.watches, now);
      claimed := claimed + [answer.value.value];
      if !accepts(|messages|) {
        error := Some(Backend);
        return;
      }
      messages := messages + [answer.value.value];
    }
  }

  /** Claims make no row claimable. */
  lemma WasClaimable(before: map<WatchKey, WatchRow>, after: map<WatchKey, WatchRow>, k: WatchKey, now: int)
    requires KeepsBusyRows(before, after, now) && k in after && Claimable(after[k], now)
    ensures k in before && Claimable(before[k], now)
  {
  }

  lemma EmptyStaysEmpty(before: map<WatchKey, WatchRow>, after: map<WatchKey, WatchRow>, tenant: string, now: int)
    requires KeepsBusyRows(before, after, now) && ClaimableKeys(before, tenant, now) == {}
    ensures ClaimableKeys(after, tenant, now) == {}
  {
    forall k | k in after && k.tenant == tenant
      ensures !Claimable(after[k], now)
    {
      assert k !in ClaimableKeys(before, tenant, now);
    }
  }

  /** The tenants of a list have nothing left to claim. */
  predicate Drained(watches: map<WatchKey, WatchRow>, tenants: seq<string>, now: int) {
    forall i | 0 <= i < |tenants| :: ClaimableKeys(watches, tenants[i], now) == {}
  }

  lemma DrainedStays(before: map<WatchKey, WatchRow>, after: map<WatchKey, WatchRow>, tenants: seq<string>, tenant: string, now: int)
    requires KeepsBusyRows(before, after, now) && Drained(before, tenants, now)
    ensures ClaimableKeys(after, tenant, now) == {} ==> Drained(after, tenants + [tenant], now)
  {
    forall i | 0 <= i < |tenants|
      ensures ClaimableKeys(after, tenants[i], now) == {}
    {
      EmptyStaysEmpty(before, after, tenants[i], now);
    }
  }

  /** The watches of these messages belong to these tenants and were claimable before the pass. */
  predicate Served(watches: map<WatchKey, WatchRow>, messages: seq<ClaimedWatch>, tenants: seq<string>, now: int) {
    forall i | 0 <= i < |messages| ::
      && messages[i].watch.tenant in tenants && messages[i].watch in watches
      && Claimable(watches[messages[i].watch], now)
  }

  lemma OneServed(t: Tables, req: ClaimDueWatch, k: WatchKey, message: ClaimedWatch)
    requires ClaimWatch(t, req).1 == Some(k) && message.watch == k
    ensures Served(t.watches, [message], [req.tenant], req.now)
  {
  }

  lemma ServedJoins(
    first: map<WatchKey, WatchRow>, before: map<WatchKey, WatchRow>, messages: seq<ClaimedWatch>,
    batch: seq<ClaimedWatch>, tenants: seq<string>, tenant: string, now: int)
    requires KeepsBusyRows(first, before, now) && tenant in tenants
    requires Served(first, messages, tenants, now) && Served(before, batch, [tenant], now)
    ensures Served(first, messages + batch, tenants, now)
  {
    forall i | 0 <= i < |batch|
      ensures batch[i].watch.tenant in tenants && batch[i].watch in first && Claimable(first[batch[i].watch], now)
    {
      WasClaimable(first, before, batch[i].watch, now);
    }
  }

  /**
   * One scheduled pass over the rotation: at most `claimLimit` watches are claimed, with at most
   * twice as many claim calls, however many tenants there are. Falling short of the limit without
   * an error means that no scheduled tenant has anything left to claim. All watches claimed are
   * queued, but for the last one if the queue refuses it, which ends the pass.
   */
  method EnqueueForTenants(
    store: D1Store.Store, tenants: seq<string>, now: int, claimLimit: nat, leaseSeconds: int,
    tokens: (string, nat) -> string, accepts: (string, nat) -> bool)
    returns (messages: seq<ClaimedWatch>, error: Option<StoreError>, calls: nat, ghost claimed: seq<ClaimedWatch>)
    requires forall s, n :: ValidId(tokens(s, n))
    modifies store
    ensures |claimed| <= claimLimit && calls <= 2 * claimLimit
    ensures Queued(messages, claimed, error)
    ensures KeepsBusyRows(old(store.watches), store.watches, now)
    ensures Leased(store.watches, claimed, now + leaseSeconds)
    ensures Served(old(store.watches), claimed, ScheduledTenants(tenants, now, claimLimit), now)
    ensures error.None? && |messages| < claimLimit ==>
              Drained(store.watches, ScheduledTenants(tenants, now, claimLimit), now)
    ensures error.Some? ==> error == Some(Validation) || error == Some(Backend)
    ensures error == Some(Validation) ==>
              exists s :: s in ScheduledTenants(tenants, now, claimLimit) && !ValidPass(s, leaseSeconds)
    ensures error == Some(Backend) ==>
              exists s, n :: s in ScheduledTenants(tenants, now, claimLimit) && !accepts(s, n)
  {
    hide Leased, KeepsBusyRows, ClaimableKeys, Claimable, ValidId, ValidTenant, Served, Drained, ScheduledTenants;
    messages := [];
    claimed := [];
    error := None;
    calls := 0;
    NothingLeased(store.watches, now + leaseSeconds, now);
    var scheduled := ScheduledTenants(tenants, now, claimLimit);
    NothingServed(store.watches, scheduled, now);
    ScheduleIsShort(tenants, now, claimLimit);
    for i := 0 to |scheduled|
      invariant |messages| <= claimLimit && calls <= |messages| + i
      invariant messages == claimed
      invariant Leased(store.watches, messages, now + leaseSeconds)
      invariant KeepsBusyRows(old(store.watches), store.watches, now)
      invariant Served(old(store.watches), messages, scheduled, now)
      invariant |messages| > 0 ==> ValidInterval(leaseSeconds)
      invariant |messages| < claimLimit ==> Drained(store.watches, scheduled[..i], now)
    {
      if |messages| >= claimLimit {
        return;
      }
      var tenant := scheduled[i];
      ghost var before := store.watches;
      var takes := (n: nat) => accepts(tenant, n);
      var batch, failed, tried, taken := EnqueueDueWatches(
        store, tenant, now, claimLimit - |messages|, leaseSeconds, (n: nat) => tokens(tenant, n), takes);
      calls := calls + tried;
      PassJoins(old(store.watches), before, store.watches, messages, taken, scheduled, i, now, leaseSeconds);
      claimed := messages + taken;
      messages := messages + batch;
      if failed.Some? {
        error := failed;
        assert failed == Some(Backend) ==> !takes(|batch|) && !accepts(tenant, |batch|);
        return;
      }
    }
    assert scheduled[..|scheduled|] == scheduled;
  }

  lemma ScheduleIsShort(tenants: seq<string>, now: int, claimLimit: nat)
    ensures |ScheduledTenants(tenants, now, claimLimit)| <= claimLimit
  {
  }

  lemma NothingServed(watches: map<WatchKey, WatchRow>, tenants: seq<string>, now: int)
    ensures Served(watches, [], tenants, now) && Drained(watches, tenants[..0], now)
  {
  }

  /** One tenant's batch added to the messages of the tenants before it. */
  lemma PassJoins(
    first: map<WatchKey, WatchRow>, before: map<WatchKey, WatchRow>, after: map<WatchKey, WatchRow>,
    messages: seq<ClaimedWatch>, batch: seq<ClaimedWatch>, scheduled: seq<string>, i: nat, now: int, leaseSeconds: int)
    requires i < |scheduled|
    requires KeepsBusyRows(first, before, now) && KeepsBusyRows(before, after, now)
    requires Leased(before, messages, now + leaseSeconds) && Leased(after, batch, now + leaseSeconds)
    requires |messages| > 0 || |batch| > 0 ==> leaseSeconds > 0
    requires Served(first, messages, scheduled, now)
    requires Served(before, batch, [scheduled[i]], now)
    ensures KeepsBusyRows(first, after, now)
    ensures Leased(after, messages + batch, now + leaseSeconds)
    ensures Served(first, messages + batch, scheduled, now)
    ensures Drained(before, scheduled[..i], now) && ClaimableKeys(after, scheduled[i], now) == {} ==>
              Drained(after, scheduled[..i + 1], now)
  {
    hide Leased, KeepsBusyRows, ClaimableKeys, Drained;
    BusyRowsCompose(first, before, after, now);
    if messages == [] {
      assert messages + batch == batch;
    } else {
      LeasedSurvives(before, after, messages, now, now + leaseSeconds);
      LeasedJoins(before, after, messages, batch, now, now + leaseSeconds);
    }
    ServedJoins(first, before, messages, batch, scheduled, scheduled[i], now);
    assert scheduled[..i] + [scheduled[i]] == scheduled[..i + 1];
    if Drained(before, scheduled[..i], now) {
      DrainedStays(before, after, scheduled[..i], scheduled[i], now);
    }
  }

  lemma NothingLeased(watches: map<WatchKey, WatchRow>, expires: int, now: int)
    ensures Leased(watches, [], expires) && KeepsBusyRows(watches, watches, now)
  {
  }

  lemma LeasedJoins(
    before: map<WatchKey, WatchRow>, after: map<WatchKey, WatchRow>,
    messages: seq<ClaimedWatch>, batch: seq<ClaimedWatch>, now: int, expires: int)
    requires now < expires
    requires Leased(before, messages, expires) && Leased(after, messages, expires) && Leased(after, batch, expires)
    requires forall i :: 0 <= i < |batch| ==> batch[i].watch in before && Claimable(before[batch[i].watch], now)
    ensures Leased(after, messages + batch, expires)
  {
    forall i, j | 0 <= i < |messages| && 0 <= j < |batch|
      ensures messages[i].watch != batch[j].watch
    {
      assert !Claimable(before[messages[i].watch], now);
    }
  }

  // -------------------------------------------------------- queue consumer

  /** What a search hands to a completion: records its workers validated, and its diagnostics as one text. */
  datatype SearchResult = SearchResult(records: seq<Record>, error: Option<string>)

  /** The completion either driver asks for. Cursor, records and target were checked where they were made. */
  function CompletionOf(
    wk: WatchKey, run: string, owner: string, finishedAt: int, search: SearchResult, cursor: string,
    delivery: Option<RunDelivery>): CompleteWatchRun
  {
    CompleteWatchRun(wk, run, owner, finishedAt, search.records, cursor, search.error, delivery, true)
  }

  predicate ValidDelivery(delivery: Option<RunDelivery>) { delivery.Some? ==> ValidId(delivery.value.delivery) }

  /** When the consumer commits a message, readable before the call. */
  ghost predicate MessageCommits(
    t: Tables, message: ClaimedWatch, now: int, search: SearchResult, finishedAt: int, delivery: Option<RunDelivery>)
  {
    && ValidStart(CloudRuns.StartOf(message.watch, message.owner, now))
    && HoldsLease(t, message.watch, message.owner, finishedAt)
    && CloudRuns.OpenUnder(t, message.watch, message.owner)
    && ValidDelivery(delivery) && BulkJson.Fits(search.records)
  }

  /**
   * The queue consumer. It acknowledges a message only when the message's run is closed. It commits
   * exactly when the id is short enough, the lease outlives the search, no earlier delivery of the
   * message committed, and the records fit; and when the run was closed before it changes nothing.
   */
  method RunClaimedWatch(
    store: D1Store.Store, ghost clock: int, message: ClaimedWatch, now: int, search: SearchResult, finishedAt: int,
    delivery: Option<RunDelivery>, picks: D.Picks)
    returns (r: Result<bool, StoreError>)
    requires Sound(store.Contents(), clock) && CloudRuns.CloudShaped(store.Contents())
    requires clock <= finishedAt && now <= finishedAt
    requires D.LegalPicks(search.records, picks)
    modifies store
    ensures Sound(store.Contents(), finishedAt) && CloudRuns.CloudShaped(store.Contents())
    ensures r == Ok(true) <==> MessageCommits(old(store.Contents()), message, now, search, finishedAt, delivery)
    ensures r == Ok(true) ==>
              && message.watch in store.watches && store.watches[message.watch].lease == None
              && store.watches[message.watch].nextDue == finishedAt + old(store.watches)[message.watch].interval
    ensures r == Ok(true) ==> exists run ::
              Delivered(old(store.Contents()), store.Contents(), CompleteWatchRun(
                message.watch, run, message.owner, finishedAt, search.records, message.row.cursor, search.error, delivery, true))
    ensures r.Ok? ==> exists rk :: rk in RunsByIdempotency(store.Contents(), message.watch, message.owner)
                                   && store.runs[rk].status != RunRunning
    ensures r == Ok(false) ==> store.Contents() == old(store.Contents())
    ensures !HoldsLease(old(store.Contents()), message.watch, message.owner, now) ==> store.Contents() == old(store.Contents())
  {
    hide Sound, CloudRuns.CloudShaped, D.LegalPicks, D.Complete, ValidStart, ValidCompletion, D.Admits, BulkJson.Fits, Delivered,
         Effects.Closes, Effects.StoresRecords, Effects.Observes, Effects.QueuesUnseen, Effects.Reports, Effects.MayComplete, Effects.StartsRun;
    var start := CloudRuns.StartOf(message.watch, message.owner, now);
    ghost var before := store.Contents();
    var started := store.Start(start);
    ghost var t := store.Contents();
    StartKeepsSound(before, clock, start, finishedAt);
    ConsumerStarts(before, clock, message.watch, message.owner, now, t, started, finishedAt);
    if started.Err? {
      return Err(started.error);
    }
    var rk := started.value;
    if store.runs[rk].status != RunRunning {
      return Ok(false);
    }
    var req := CompletionOf(message.watch, rk.run, message.owner, finishedAt, search, message.row.cursor, delivery);
    var completed := store.CompleteRun(req, picks);
    ConsumerCompletes(t, finishedAt, start, req, picks, delivery);
    if completed.Err? {
      return Err(completed.error);
    }
    r := Ok(true);
    DeliversFrom(before, t, store.Contents(), req);
    assert store.runs[RunKey(req.watch, req.run)].status != RunRunning;
    assert rk in RunsByIdempotency(store.Contents(), message.watch, message.owner);
  }

  /** What a search led to, column by column, against the tables before the run was started. */
  ghost predicate Delivered(t: Tables, u: Tables, req: CompleteWatchRun) {
    var rk := RunKey(req.watch, req.run);
    && rk in u.runs && u.runs[rk].owner == req.owner && u.runs[rk].finished == Some(req.finishedAt)
    && (u.runs[rk].status == RunFailed <==> req.error.Some?) && (u.runs[rk].status == RunSucceeded <==> req.error.None?)
    && u.runs[rk].error == req.error
    && req.watch in u.watches && u.watches[req.watch].cursor == req.nextCursor
    && Effects.StoresRecords(t, u, req) && Effects.Observes(t, u, req) && Effects.QueuesUnseen(t, u, req)
  }

  lemma DeliversFrom(before: Tables, t: Tables, u: Tables, req: CompleteWatchRun)
    requires t.records == before.records && t.observations == before.observations && t.deliveries == before.deliveries
    requires Effects.MayComplete(t, req) && Effects.Closes(t, u, req)
    requires Effects.StoresRecords(t, u, req) && Effects.Observes(t, u, req) && Effects.QueuesUnseen(t, u, req)
    ensures Delivered(before, u, req)
  {
    hide Effects.Incoming, Effects.Unambiguous, Effects.QueuedRow;
    assert forall i :: Effects.Unseen(before, req, i) <==> Effects.Unseen(t, req, i);
  }

  lemma StartKeepsSound(t: Tables, clock: int, start: StartWatchRun, later: int)
    requires Sound(t, clock) && clock <= later
    requires CloudRuns.CloudShaped(t) && start == CloudRuns.StartOf(start.watch, start.owner, start.startedAt)
    ensures Sound(t, later) && Sound(Apply(t, OpStart(start)), later)
    ensures CloudRuns.CloudShaped(Apply(t, OpStart(start)))
  {
    hide Apply, Sound, CloudRuns.CloudShaped;
    SoundLater(t, clock, later);
    SoundStep(t, clock, OpStart(start));
    SoundLater(Apply(t, OpStart(start)), clock, later);
    CloudRuns.ShapedStep(t, OpStart(start));
  }

  /** What the consumer's start finds: its own open run, a closed one that is the only one, or an error. */
  lemma ConsumerStarts(
    t: Tables, clock: int, wk: WatchKey, owner: string, now: int, t': Tables, r: Result<RunKey, StoreError>, finishedAt: int)
    requires Sound(t, clock) && CloudRuns.CloudShaped(t) && now <= finishedAt
    requires StartAnswers(t, CloudRuns.StartOf(wk, owner, now), t', r)
    ensures t' == Apply(t, OpStart(CloudRuns.StartOf(wk, owner, now))) && t'.watches == t.watches
    ensures !ValidStart(CloudRuns.StartOf(wk, owner, now)) ==> r.Err?
    ensures !HoldsLease(t, wk, owner, now) ==> t' == t
    ensures r.Ok? ==>
              && r.value in RunsByIdempotency(t', wk, owner) && r.value == RunKey(wk, CloudRuns.RunId(wk, owner))
              && t'.runs[r.value].owner == owner
              && (t'.runs[r.value].status == RunRunning <==> CloudRuns.OpenUnder(t, wk, owner))
              && (t'.runs[r.value].status != RunRunning ==> t' == t)
    ensures (&& ValidStart(CloudRuns.StartOf(wk, owner, now)) && HoldsLease(t, wk, owner, finishedAt)
             && CloudRuns.OpenUnder(t, wk, owner)) ==> r.Ok?
  {
    hide ValidStart, CloudRuns.RunId, Sound, CloudRuns.CloudShaped;
    var start := CloudRuns.StartOf(wk, owner, now);
    CloudRuns.ShapedStep(t, OpStart(start));
    OneRunPerToken(t', wk, owner);
    if ValidStart(start) && HoldsLease(t, wk, owner, finishedAt) && CloudRuns.OpenUnder(t, wk, owner) {
      CloudRuns.LiveLeaseStarts(t, wk, owner, now, t', r);
    }
  }

  /** The runs of one watch under one token are one at most. */
  lemma OneRunPerToken(t: Tables, wk: WatchKey, owner: string)
    requires CloudRuns.CloudShaped(t)
    ensures forall x | x in RunsByIdempotency(t, wk, owner) ::
              x == RunKey(wk, CloudRuns.RunId(wk, owner)) && t.runs[x].owner == owner
  {
    hide CloudRuns.RunId;
  }

  /** The consumer's completion commits exactly under a live lease, a valid delivery id and records that fit. */
  lemma ConsumerCompletes(
    t: Tables, clock: int, start: StartWatchRun, req: CompleteWatchRun, picks: D.Picks, delivery: Option<RunDelivery>)
    requires Sound(t, clock) && clock <= req.finishedAt && D.LegalPicks(req.records, picks)
    requires CloudRuns.CloudShaped(t) && ValidStart(start)
    requires start == CloudRuns.StartOf(start.watch, start.owner, start.startedAt)
    requires req.watch == start.watch && req.owner == start.owner && req.run == start.run && req.documents
    requires req.delivery == delivery && RunIsRunning(t, req)
    ensures var (u, r) := D.Complete(t, req, picks);
            && Sound(u, req.finishedAt) && CloudRuns.CloudShaped(u)
            && (r.Ok? <==> HoldsLease(t, req.watch, req.owner, req.finishedAt) && ValidDelivery(delivery)
                           && BulkJson.Fits(req.records))
            && (r.Err? ==> u == t)
            && (r.Ok? ==>
                  && req.watch in t.watches && u.watches == t.watches[req.watch := Rescheduled(t.watches[req.watch], req)]
                  && u.runs == t.runs[RunKey(req.watch, req.run) := FinishedRun(t.runs[RunKey(req.watch, req.run)], req)])
  {
    hide Sound, CloudRuns.CloudShaped, D.LegalPicks, D.Batch, BulkJson.Fits, ValidId, ValidTenant;
    var op := OpBatch(req, picks);
    SoundStep(t, clock, op);
    CloudRuns.ShapedStep(t, op);
    BatchInSoundTables(t, clock, req, picks);
  }

  // ---------------------------------------------------------- native driver

  const NATIVE_LEASE_SECONDS: int := 60

  lemma CompletionShape(t: Tables, req: CompleteWatchRun)
    ensures var (u, r) := S.Complete(t, req);
            if CommitGate(t, req) && ValidCompletion(req) then
              && r.Ok? && r.value.run == req.run && r.value.recordsSeen == |req.records|
              && u.watches == t.watches[req.watch := Rescheduled(t.watches[req.watch], req)]
            else r.Err? && u == t
  {
    hide S.AfterRecords;
  }

  /** When a native turn that claimed this watch commits, readable before the call. */
  predicate TurnCommits(wk: WatchKey, owner: string, due: int, now: int, finishedAt: int, delivery: Option<RunDelivery>) {
    && |NativeRuns.RunId(wk, owner, due)| <= MAX_ID_LENGTH
    && finishedAt < now + 60 && ValidDelivery(delivery)
  }

  /**
   * One turn of the native watch loop, undisturbed: whatever earlier turns left behind, it commits
   * exactly when its run id fits and its search ends within the lease. A turn that does not commit
   * leaves the watch leased and due as it was.
   */
  method RunDueWatchOnce(
    store: SqliteStore.Store, ghost clock: int, tenant: string, owner: string, now: int, search: SearchResult,
    finishedAt: int, delivery: Option<RunDelivery>)
    returns (r: Result<Option<RunOutcome>, StoreError>)
    requires Sound(store.Contents(), clock) && NativeRuns.NativeSound(store.Contents(), clock)
    requires clock <= now <= finishedAt
    modifies store
    ensures Sound(store.Contents(), finishedAt) && NativeRuns.NativeSound(store.Contents(), finishedAt)
    ensures !(ValidTenant(tenant) && ValidId(owner)) ==> r == Err(Validation) && store.Contents() == old(store.Contents())
    ensures ValidTenant(tenant) && ValidId(owner) ==>
              var due := DueWatch(old(store.watches), tenant, now);
              if due.None? then r == Ok(None) && store.Contents() == old(store.Contents())
              else
                var wk := due.value;
                var was := old(store.watches)[wk];
                && wk in store.watches
                && (if TurnCommits(wk, owner, was.nextDue, now, finishedAt, delivery) then
                      && r.Ok? && r.value.Some? && r.value.value.recordsSeen == |search.records|
                      && store.watches[wk].nextDue == finishedAt + was.interval && store.watches[wk].lease == None
                      && Delivered(old(store.Contents()), store.Contents(), CompleteWatchRun(
                           wk, r.value.value.run, owner, finishedAt, search.records, was.cursor, search.error, delivery, true))
                    else
                      && r.Err? && store.watches[wk].nextDue == was.nextDue
                      && store.watches[wk].lease == Some(Lease(owner, now + 60)))
    ensures r == Ok(None) ==> ClaimableKeys(old(store.watches), tenant, now) == {}
  {
    hide Sound, S.Complete, NativeRuns.NativeSound, NativeRuns.RunId, StartRun, ClaimableKeys, FirstDue, ValidTenant, ValidId, ValidCompletion, Delivered,
         Effects.Closes, Effects.StoresRecords, Effects.Observes, Effects.QueuesUnseen, Effects.Reports, Effects.MayComplete,
         Effects.StartsRun, Effects.ClaimsWatch;
    ghost var t0 := store.Contents();
    var claim := ClaimDueWatch(tenant, now, owner, NATIVE_LEASE_SECONDS);
    var claimed := store.ClaimDue(claim);
    ghost var t1 := store.Contents();
    TurnClaims(t0, clock, claim, finishedAt);
    if claimed.Err? {
      return Err(claimed.error);
    }
    if claimed.value.None? {
      return Ok(None);
    }
    var wk := claimed.value.value.watch;
    var start := NativeRuns.StartOf(wk, owner, claimed.value.value.row.nextDue, now);
    var started := store.Start(start);
    ghost var t2 := store.Contents();
    TurnStarts(t1, now, wk, owner, t2, started, finishedAt);
    if started.Err? {
      return Err(started.error);
    }
    var req := CompletionOf(wk, start.run, owner, finishedAt, search, claimed.value.value.row.cursor, delivery);
    var completed := store.CompleteRun(req);
    TurnCompletes(t2, now, start, req);
    match completed {
      case Ok(outcome) =>
        OnlySchedulingMoved(t0, claim, start, t2, started);
        DeliversFrom(t0, t2, store.Contents(), req);
        r := Ok(Some(outcome));
      case Err(e) => r := Err(e);
    }
  }

  /** Claims and starts touch no record, observation or delivery. */
  lemma OnlySchedulingMoved(
    t: Tables, claim: ClaimDueWatch, start: StartWatchRun, u: Tables, r: Result<RunKey, StoreError>)
    requires StartAnswers(ClaimWatch(t, claim).0, start, u, r)
    ensures u.records == t.records && u.observations == t.observations && u.deliveries == t.deliveries
  {
    hide ValidClaim, ValidStart, HoldsLease, FirstDue, ClaimableKeys, RunsByIdempotency;
  }

  lemma TurnClaims(t: Tables, clock: int, claim: ClaimDueWatch, finishedAt: int)
    requires Sound(t, clock) && NativeRuns.NativeSound(t, clock) && clock <= claim.now <= finishedAt
    ensures var (u, k) := ClaimWatch(t, claim);
            && Sound(u, claim.now) && NativeRuns.NativeSound(u, claim.now)
            && Sound(u, finishedAt) && NativeRuns.NativeSound(u, finishedAt)
            && (k.None? ==> u == t)
            && (k.Some? ==>
                  && k.value in u.watches && ValidWatchKey(k.value) && ValidId(claim.owner)
                  && t.watches[k.value].nextDue <= claim.now
                  && u.watches[k.value] == t.watches[k.value].(lease := Some(Lease(claim.owner, claim.now + claim.leaseSeconds))))
  {
    hide Sound, NativeRuns.NativeSound, ValidTenant, ValidId;
    var u := ClaimWatch(t, claim).0;
    SoundStep(t, clock, OpClaim(claim));
    NativeRuns.NativeStep(t, clock, OpClaim(claim), 0);
    SoundLater(u, claim.now, finishedAt);
    NativeRuns.NativeLater(u, claim.now, finishedAt);
    SoundKeys(t, clock);
  }

  lemma SoundKeys(t: Tables, clock: int)
    requires Sound(t, clock)
    ensures forall k | k in t.watches :: ValidWatchKey(k)
  {
  }

  lemma TurnStarts(
    t: Tables, now: int, wk: WatchKey, owner: string, t': Tables, r: Result<RunKey, StoreError>, finishedAt: int)
    requires Sound(t, now) && NativeRuns.NativeSound(t, now) && now <= finishedAt
    requires HoldsLease(t, wk, owner, now) && ValidId(owner) && ValidWatchKey(wk) && t.watches[wk].nextDue <= now
    requires StartAnswers(t, NativeRuns.StartOf(wk, owner, t.watches[wk].nextDue, now), t', r)
    ensures Sound(t', now) && NativeRuns.NativeSound(t', now)
    ensures Sound(t', finishedAt) && NativeRuns.NativeSound(t', finishedAt)
    ensures t'.watches == t.watches
    ensures r.Ok? <==> |NativeRuns.RunId(wk, owner, t.watches[wk].nextDue)| <= MAX_ID_LENGTH
    ensures r.Ok? ==>
              && r.value == RunKey(wk, NativeRuns.RunId(wk, owner, t.watches[wk].nextDue)) && r.value in t'.runs
              && t'.runs[r.value].status == RunRunning && t'.runs[r.value].owner == owner
              && ValidStart(NativeRuns.StartOf(wk, owner, t.watches[wk].nextDue, now))
  {
    hide Sound, NativeRuns.NativeSound, ValidTenant, ValidId, NativeRuns.RunId;
    var due := t.watches[wk].nextDue;
    var start := NativeRuns.StartOf(wk, owner, due, now);
    NativeRuns.HeldLeaseStartsOpenRun(t, now, wk, owner, now, t', r);
    NativeRuns.StartIsValid(wk, owner, due, now);
    SoundStep(t, now, OpStart(start));
    NativeRuns.NativeStep(t, now, OpStart(start), due);
    SoundLater(t', now, finishedAt);
    NativeRuns.NativeLater(t', now, finishedAt);
  }

  lemma TurnCompletes(t: Tables, now: int, start: StartWatchRun, req: CompleteWatchRun)
    requires Sound(t, now) && NativeRuns.NativeSound(t, now) && now <= req.finishedAt
    requires ValidStart(start) && req.documents
    requires req.watch == start.watch && req.owner == start.owner && req.run == start.run
    ensures var (u, r) := S.Complete(t, req);
            && Sound(u, req.finishedAt) && NativeRuns.NativeSound(u, req.finishedAt)
            && (if CommitGate(t, req) && ValidDelivery(req.delivery) then
                  && r.Ok? && r.value.run == req.run && r.value.recordsSeen == |req.records|
                  && u.watches == t.watches[req.watch := Rescheduled(t.watches[req.watch], req)]
                else r.Err? && u == t)
  {
    hide Sound, NativeRuns.NativeSound, ValidTenant, ValidId, S.Complete;
    SoundStep(t, now, OpComplete(req));
    NativeRuns.NativeStep(t, now, OpComplete(req), 0);
    CompletionShape(t, req);
  }

  // ---------------------------------------------------------- webhook sender

  const DELIVERY_LEASE_SECONDS: int := 60

  /** Decides whether to make the request, and what its result is. */
  method SendDelivery(configured: string, row: DeliveryRow, accepted: bool)
    returns (sent: bool, success: bool, error: Option<string>)
    ensures sent <==> row.attempts <= 3 && row.target == configured && WebhookBody.Fits(row.payload)
    ensures success <==> sent && accepted
    ensures success <==> error.None?
  {
    sent, success := false, false;
    if row.attempts > MAX_DELIVERY_ATTEMPTS {
      error := Some("webhook retry limit exhausted");
    } else if row.target != configured {
      error := Some("configured webhook destination does not match queued delivery");
    } else {
      var bytes := WebhookBody.Measure(row.payload);
      if bytes > WebhookBody.MAX_WEBHOOK_BYTES {
        error := Some("webhook payload exceeds 1 MiB");
      } else {
        sent := true;
        success := accepted;
        error := if accepted then None else Some("webhook request failed");
      }
    }
  }

  /**
   * Claims a delivery, decides whether to send it, and records the result. The request is made exactly
   * when the delivery next in line has attempts left, was queued for the configured destination and
   * has a body within the limit.
   */
  method DeliverPendingWebhook(
    store: SqliteStore.Store, configured: string, tenant: string, owner: string, now: int,
    accepted: bool, finishedAt: int)
    returns (r: Result<Option<DeliveryRow>, StoreError>, sent: bool)
    modifies store
    ensures store.watches == old(store.watches) && store.runs == old(store.runs)
    ensures !(ValidTenant(tenant) && ValidId(owner)) ==> r == Err(Validation) && !sent
    ensures ValidTenant(tenant) && ValidId(owner) ==>
              var next := NextDelivery(old(store.deliveries), tenant, now);
              if next.None? then r == Ok(None) && !sent && store.Contents() == old(store.Contents())
              else
                var k := next.value;
                var was := old(store.deliveries)[k];
                && k in store.deliveries && store.deliveries[k].attempts == was.attempts + 1
                && (sent <==> was.attempts < 3 && was.target == configured && WebhookBody.Fits(was.payload))
                && (r.Ok? <==> ValidId(k.delivery) && finishedAt < now + 60)
                && (r.Ok? ==>
                      var row := store.deliveries[k];
                      && r.value == Some(row) && row.lease == None
                      && row.status == (if sent && accepted then Succeeded
                                        else if was.attempts + 1 >= 3 then Failed
                                        else Pending)
                      && row.nextAttempt == (if sent && accepted then finishedAt else finishedAt + 300)
                      && row.deliveredAt == (if sent && accepted then Some(finishedAt) else None))
                && (r.Err? ==> store.deliveries[k].status == Delivering)
  {
    hide ValidTenant, ValidId, SendableKeys, FirstSendable, WebhookBody.Fits;
    sent := false;
    var claimed := store.ClaimPending(ClaimPendingDelivery(tenant, now, owner, DELIVERY_LEASE_SECONDS));
    if claimed.Err? {
      return Err(claimed.error), false;
    }
    if claimed.value.None? {
      return Ok(None), false;
    }
    var k := claimed.value.value;
    assert k.tenant == tenant by { NextIsOfTenant(old(store.deliveries), tenant, now, k); }
    var row := store.deliveries[k];
    var success, error;
    sent, success, error := SendDelivery(configured, row, accepted);
    var settled := store.Settle(CompleteDelivery(k, owner, finishedAt, success, error));
    match settled {
      case Ok(final) => r := Ok(Some(final));
      case Err(e) => r := Err(e);
    }
  }

  lemma NextIsOfTenant(deliveries: map<DeliveryKey, DeliveryRow>, tenant: string, now: int, k: DeliveryKey)
    requires NextDelivery(deliveries, tenant, now) == Some(k)
    ensures k.tenant == tenant
  {
  }
}
