/**
 * The webhook outbox over every interleaving of senders, crashes and expired leases. A claim hands
 * its worker a ticket with the attempt number and the payload it read; the worker sends at most once
 * per ticket, at any later time, and only within the retry limit and the limit on the body's length.
 */
module DeliveryProtocol {
  import opened Wrappers
  import opened Records
  import opened StoreModel
  import opened Protocol
  import S = SqliteCompletion
  import D = D1Completion
  import CommitSafety
  import Effects
  import WebhookBody

  datatype Ticket = Ticket(
    delivery: DeliveryKey, attempts: nat, target: string, payload: Payload, at: int, leaseSeconds: int, sent: bool)

  /** The store, the clock, every ticket handed out, every recorded result, and every delivery id ever queued. */
  datatype System = System(
    t: Tables, clock: int, tickets: seq<Ticket>, results: map<DeliveryKey, nat>, queued: set<DeliveryKey>)

  /** A worker sends to the destination it is configured for. */
  datatype Action = Store(op: Op) | Send(ticket: nat, configured: string)

  function Results(s: System, dk: DeliveryKey): nat {
    if dk in s.results then s.results[dk] else 0
  }

  ghost function ClaimedBy(t: Tables, op: Op): Option<DeliveryKey> {
    if op.OpClaimDelivery? then ClaimDelivery(t, op.claimDelivery).1 else None
  }

  predicate Settles(t: Tables, op: Op) { op.OpSettle? && ValidSettlement(op.settle) && DeliveryLeased(t, op.settle) }

  function TicketOf(t: Tables, dk: DeliveryKey, claim: ClaimPendingDelivery): Ticket
    requires dk in t.deliveries
  {
    Ticket(dk, t.deliveries[dk].attempts, t.deliveries[dk].target, t.deliveries[dk].payload, claim.now, claim.leaseSeconds, false)
  }

  ghost function StoreStep(s: System, op: Op): System {
    var u := Apply(s.t, op);
    var k := ClaimedBy(s.t, op);
    System(
      u,
      Reading(s.clock, op),
      if k.Some? && k.value in u.deliveries
      then s.tickets + [TicketOf(u, k.value, op.claimDelivery)]
      else s.tickets,
      if Settles(s.t, op) then s.results[op.settle.delivery := Results(s, op.settle.delivery) + 1] else s.results,
      s.queued + u.deliveries.Keys)
  }

  /** The worker's decision: send unless attempt number or body exceed their limits or the target is another. */
  ghost predicate MaySend(s: System, i: nat, configured: string) {
    && i < |s.tickets| && !s.tickets[i].sent && s.tickets[i].attempts <= MAX_DELIVERY_ATTEMPTS
    && s.tickets[i].target == configured && WebhookBody.Fits(s.tickets[i].payload)
  }

  ghost function Step(s: System, a: Action): System {
    match a
    case Store(op) => StoreStep(s, op)
    case Send(i, configured) => if MaySend(s, i, configured) then s.(tickets := s.tickets[i := s.tickets[i].(sent := true)]) else s
  }

  ghost function Steps(s: System, acts: seq<Action>): System
    decreases |acts|
  {
    if acts == [] then s else Steps(Step(s, acts[0]), acts[1..])
  }

  /** Settlements read a clock that does not go back, and a delivery id is queued at most once, ever. */
  ghost predicate Admissible(s: System, a: Action) {
    a.Store? ==>
      && s.clock <= Reading(s.clock, a.op)
      && (forall dk :: dk in Apply(s.t, a.op).deliveries && dk !in s.t.deliveries ==> dk !in s.queued)
  }

  ghost predicate AllAdmissible(s: System, acts: seq<Action>)
    decreases |acts|
  {
    acts == [] || (Admissible(s, acts[0]) && AllAdmissible(Step(s, acts[0]), acts[1..]))
  }

  // ------------------------------------------------------------- lifecycle

  predicate Terminal(row: DeliveryRow) { row.status == Succeeded || row.status == Failed }

  predicate RowSound(row: DeliveryRow) {
    && (row.status == Pending ==> row.attempts < MAX_DELIVERY_ATTEMPTS)
    && (row.status == Delivering <==> row.lease.Some?)
    && (row.status == Succeeded <==> row.deliveredAt.Some?)
    && (row.status == Failed ==> row.attempts >= MAX_DELIVERY_ATTEMPTS)
    && (row.status == Delivering ==> row.attempts > 0)
  }

  /** How one operation can touch one delivery. */
  predicate Touches(t: Tables, op: Op, dk: DeliveryKey, row: DeliveryRow) {
    if dk !in t.deliveries then
      Completes(op) && row.status == Pending && row.attempts == 0 && row.lease.None? && row.deliveredAt.None?
    else if op.OpClaimDelivery? && row != t.deliveries[dk] then
      && Sendable(t.deliveries[dk], op.claimDelivery.now) && ValidInterval(op.claimDelivery.leaseSeconds)
      && row == t.deliveries[dk].(
           status := Delivering, attempts := t.deliveries[dk].attempts + 1, error := None,
           lease := Some(Lease(op.claimDelivery.owner, op.claimDelivery.now + op.claimDelivery.leaseSeconds)))
    else if Settles(t, op) && op.settle.delivery == dk then
      row == SettledDelivery(t.deliveries[dk], op.settle)
    else row == t.deliveries[dk]
  }

  lemma DeliveryStep(t: Tables, op: Op, dk: DeliveryKey)
    requires dk in Apply(t, op).deliveries
    ensures Touches(t, op, dk, Apply(t, op).deliveries[dk])
    ensures dk in t.deliveries && op.OpClaimDelivery? ==>
              (ClaimedBy(t, op) == Some(dk) <==> Apply(t, op).deliveries[dk] != t.deliveries[dk])
  {
    hide Apply, ClaimDelivery, Settles, Touches;
    if Completes(op) {
      CompletionQueues(t, op, dk);
    } else if op.OpClaimDelivery? {
      ClaimTouches(t, op, dk);
    } else {
      OthersTouch(t, op, dk);
    }
  }

  lemma ClaimTouches(t: Tables, op: Op, dk: DeliveryKey)
    requires op.OpClaimDelivery? && dk in Apply(t, op).deliveries
    ensures Touches(t, op, dk, Apply(t, op).deliveries[dk])
    ensures dk in t.deliveries ==>
              (ClaimedBy(t, op) == Some(dk) <==> Apply(t, op).deliveries[dk] != t.deliveries[dk])
  {
    hide ValidId, ValidTenant;
  }

  lemma OthersTouch(t: Tables, op: Op, dk: DeliveryKey)
    requires !Completes(op) && !op.OpClaimDelivery? && dk in Apply(t, op).deliveries
    ensures Touches(t, op, dk, Apply(t, op).deliveries[dk])
  {
    hide ValidSettlement, SettledDelivery, ValidWatchKey, ValidClaim, ValidStart, ValidCreate, DueWatch;
  }

  lemma CompletionQueues(t: Tables, op: Op, dk: DeliveryKey)
    requires Completes(op) && dk in Apply(t, op).deliveries
    ensures Touches(t, op, dk, Apply(t, op).deliveries[dk])
  {
    hide Apply, Commits, CommitGate, NamesNew;
    if Commits(t, op) {
      CommitEffect(t, op);
    } else {
      NoCommitEffect(t, op);
    }
  }

  /** Only the deletion of its watch removes a delivery. */
  lemma DeliveryStays(t: Tables, op: Op, dk: DeliveryKey)
    requires dk in t.deliveries && op != OpDelete(WatchKey(dk.tenant, t.deliveries[dk].watch))
    ensures dk in Apply(t, op).deliveries && Apply(t, op).deliveries[dk].watch == t.deliveries[dk].watch
  {
    hide S.Complete, D.Complete, ClaimDelivery, SettleDelivery, ValidWatchKey, ValidClaim, ValidStart, ValidCreate;
    if op.OpClaimDelivery? || op.OpSettle? {
      DeliveryOpsFrame(t, op);
    } else if Completes(op) {
      CompletionKeepsDeliveries(t, op);
    }
  }

  lemma CompletionKeepsDeliveries(t: Tables, op: Op)
    requires Completes(op)
    ensures forall dk :: dk in t.deliveries ==> dk in Apply(t, op).deliveries && Apply(t, op).deliveries[dk] == t.deliveries[dk]
  {
    hide Apply, Commits, CommitGate, NamesNew;
    if Commits(t, op) {
      CommitEffect(t, op);
    } else {
      NoCommitEffect(t, op);
    }
  }

  lemma RowStep(t: Tables, op: Op, dk: DeliveryKey)
    requires dk in Apply(t, op).deliveries
    requires dk in t.deliveries ==> RowSound(t.deliveries[dk])
    ensures RowSound(Apply(t, op).deliveries[dk])
    ensures dk in t.deliveries && Terminal(t.deliveries[dk]) ==> Apply(t, op).deliveries[dk] == t.deliveries[dk]
  {
    hide Apply;
    DeliveryStep(t, op, dk);
  }

  lemma ClaimAddsTicket(t: Tables, op: Op, dk: DeliveryKey)
    requires ClaimedBy(t, op) == Some(dk)
    ensures dk in t.deliveries && dk in Apply(t, op).deliveries
  {
  }

  /** Succeeded and failed deliveries stay as they are until their watch is deleted. */
  lemma {:induction false} TerminalIsAbsorbing(t: Tables, ops: seq<Op>, dk: DeliveryKey)
    requires dk in t.deliveries && RowSound(t.deliveries[dk]) && Terminal(t.deliveries[dk])
    requires OpDelete(WatchKey(dk.tenant, t.deliveries[dk].watch)) !in ops
    ensures dk in Exec(t, ops).deliveries && Exec(t, ops).deliveries[dk] == t.deliveries[dk]
    decreases |ops|
  {
    if ops != [] {
      hide Apply;
      assert ops[0] in ops;
      DeliveryStays(t, ops[0], dk);
      RowStep(t, ops[0], dk);
      TerminalIsAbsorbing(Apply(t, ops[0]), ops[1..], dk);
    }
  }

  // ---------------------------------------------------------- the invariant

  /** The least time a claim keeps its delivery away from other claims. */
  function Quiet(k: Ticket): int {
    if k.leaseSeconds < DELIVERY_RETRY_SECONDS then k.leaseSeconds else DELIVERY_RETRY_SECONDS
  }

  ghost predicate TicketSound(s: System, k: Ticket) {
    && 1 <= k.attempts && k.at <= s.clock && ValidInterval(k.leaseSeconds)
    && (k.sent ==> k.attempts <= MAX_DELIVERY_ATTEMPTS && WebhookBody.Fits(k.payload))
    && k.delivery in s.queued
    && (k.delivery in s.t.deliveries ==>
          var row := s.t.deliveries[k.delivery];
          && k.attempts <= row.attempts && k.payload == row.payload && k.target == row.target
          && (row.status == Delivering && row.lease.Some? ==> k.at + Quiet(k) <= row.lease.value.expires)
          && (row.status == Pending ==> k.at + Quiet(k) <= row.nextAttempt))
  }

  ghost predicate TicketsSound(s: System) {
    && (forall k | k in s.tickets :: TicketSound(s, k))
    && (forall i, j | 0 <= i < j < |s.tickets| ::
          s.tickets[i].delivery == s.tickets[j].delivery ==>
            && s.tickets[i].attempts < s.tickets[j].attempts
            && s.tickets[i].at + Quiet(s.tickets[i]) <= s.tickets[j].at)
  }

  /** Recorded results never outrun attempts, and the third one closes the delivery. */
  predicate ResultsSound(s: System) {
    && (forall dk | dk in s.results :: s.results[dk] <= MAX_DELIVERY_ATTEMPTS && dk in s.queued)
    && (forall dk | dk in s.t.deliveries ::
          var row := s.t.deliveries[dk];
          && (row.status == Pending ==> Results(s, dk) <= row.attempts)
          && (row.status == Delivering ==> Results(s, dk) < row.attempts && Results(s, dk) < MAX_DELIVERY_ATTEMPTS)
          && (Results(s, dk) == MAX_DELIVERY_ATTEMPTS ==> Terminal(row)))
  }

  predicate RowsSound(s: System) {
    && (forall dk | dk in s.t.deliveries :: RowSound(s.t.deliveries[dk]))
    && s.t.deliveries.Keys <= s.queued
  }

  ghost predicate Invariant(s: System) {
    RowsSound(s) && TicketsSound(s) && ResultsSound(s)
  }

  lemma RowsStep(s: System, op: Op)
    requires RowsSound(s)
    ensures RowsSound(StoreStep(s, op))
  {
    forall dk | dk in Apply(s.t, op).deliveries
      ensures RowSound(Apply(s.t, op).deliveries[dk])
    {
      RowStep(s.t, op, dk);
    }
  }

  lemma ResultsStep(s: System, op: Op)
    requires RowsSound(s) && ResultsSound(s) && Admissible(s, Store(op))
    ensures ResultsSound(StoreStep(s, op))
  {
    hide Apply, ClaimDelivery;
    var u := StoreStep(s, op);
    forall dk | dk in u.t.deliveries
      ensures var row := u.t.deliveries[dk];
              && (row.status == Pending ==> Results(u, dk) <= row.attempts)
              && (row.status == Delivering ==> Results(u, dk) < row.attempts && Results(u, dk) < MAX_DELIVERY_ATTEMPTS)
              && (Results(u, dk) == MAX_DELIVERY_ATTEMPTS ==> Terminal(row))
    {
      DeliveryStep(s.t, op, dk);
      if dk in s.t.deliveries { assert RowSound(s.t.deliveries[dk]); }
    }
    forall dk | dk in u.results
      ensures u.results[dk] <= MAX_DELIVERY_ATTEMPTS && dk in u.queued
    {
    }
  }

  /** An old ticket stays sound. */
  lemma TicketStep(s: System, op: Op, k: Ticket)
    requires RowsSound(s) && Admissible(s, Store(op)) && TicketSound(s, k)
    ensures TicketSound(StoreStep(s, op), k)
  {
    hide Apply, ClaimDelivery, WebhookBody.Fits;
    var u := StoreStep(s, op);
    var dk := k.delivery;
    if dk in u.t.deliveries {
      DeliveryStep(s.t, op, dk);
      if dk in s.t.deliveries { assert RowSound(s.t.deliveries[dk]); }
    }
  }

  /** A new ticket carries a higher attempt number than every earlier one, and comes after its quiet time. */
  lemma NewTicket(s: System, op: Op, k: Ticket)
    requires RowsSound(s) && Admissible(s, Store(op)) && TicketSound(s, k)
    requires ClaimedBy(s.t, op) == Some(k.delivery)
    ensures k.delivery in Apply(s.t, op).deliveries
    ensures k.attempts < Apply(s.t, op).deliveries[k.delivery].attempts
    ensures k.at + Quiet(k) <= op.claimDelivery.now
  {
    ClaimAddsTicket(s.t, op, k.delivery);
    DeliveryStep(s.t, op, k.delivery);
    assert RowSound(s.t.deliveries[k.delivery]);
  }

  /** The ticket just handed out is sound. */
  lemma LastTicket(s: System, op: Op, dk: DeliveryKey)
    requires RowsSound(s) && Admissible(s, Store(op)) && ClaimedBy(s.t, op) == Some(dk)
    ensures dk in Apply(s.t, op).deliveries
    ensures TicketSound(StoreStep(s, op), TicketOf(Apply(s.t, op), dk, op.claimDelivery))
  {
    hide Apply, ClaimDelivery, WebhookBody.Fits;
    ClaimAddsTicket(s.t, op, dk);
    DeliveryStep(s.t, op, dk);
    assert RowSound(s.t.deliveries[dk]);
  }

  lemma TicketsStep(s: System, op: Op)
    requires RowsSound(s) && TicketsSound(s) && Admissible(s, Store(op))
    ensures TicketsSound(StoreStep(s, op))
  {
    hide Apply, ClaimDelivery, Admissible, TicketSound, RowsSound;
    var u := StoreStep(s, op);
    forall k | k in s.tickets
      ensures TicketSound(u, k)
    {
      TicketStep(s, op, k);
    }
    var claimed := ClaimedBy(s.t, op);
    if claimed.Some? {
      LastTicket(s, op, claimed.value);
      var last := TicketOf(u.t, claimed.value, op.claimDelivery);
      assert u.tickets == s.tickets + [last];
      forall i | 0 <= i < |s.tickets| && s.tickets[i].delivery == last.delivery
        ensures s.tickets[i].attempts < last.attempts && s.tickets[i].at + Quiet(s.tickets[i]) <= last.at
      {
        NewTicket(s, op, s.tickets[i]);
      }
    }
  }

  lemma SendKeepsTicket(s: System, i: nat, configured: string, j: nat)
    requires TicketsSound(s) && MaySend(s, i, configured) && j < |s.tickets|
    ensures TicketSound(Step(s, Send(i, configured)), Step(s, Send(i, configured)).tickets[j])
  {
    hide WebhookBody.Fits;
    assert s.tickets[j] in s.tickets;
    assert TicketSound(s, s.tickets[j]);
  }

  lemma SendKeepsRows(s: System, i: nat, configured: string)
    requires RowsSound(s) && ResultsSound(s)
    ensures RowsSound(Step(s, Send(i, configured))) && ResultsSound(Step(s, Send(i, configured)))
  {
    hide WebhookBody.Fits, RowSound;
  }

  lemma SendStep(s: System, i: nat, configured: string)
    requires Invariant(s)
    ensures Invariant(Step(s, Send(i, configured)))
  {
    hide RowsSound, ResultsSound, TicketSound, WebhookBody.Fits;
    SendKeepsRows(s, i, configured);
    if MaySend(s, i, configured) {
      var u := Step(s, Send(i, configured));
      forall k | k in u.tickets
        ensures TicketSound(u, k)
      {
        var j :| 0 <= j < |u.tickets| && u.tickets[j] == k;
        SendKeepsTicket(s, i, configured, j);
      }
    }
  }

  lemma {:induction false} InvariantHolds(s: System, acts: seq<Action>)
    requires Invariant(s) && AllAdmissible(s, acts)
    ensures Invariant(Steps(s, acts))
    decreases |acts|
  {
    if acts != [] {
      match acts[0] {
        case Store(op) =>
          RowsStep(s, op);
          ResultsStep(s, op);
          TicketsStep(s, op);
        case Send(i, configured) =>
          SendStep(s, i, configured);
      }
      InvariantHolds(Step(s, acts[0]), acts[1..]);
    }
  }

  // ------------------------------------------------------------- theorems

  /** The empty database at any time. */
  function Start(clock: int): System { System(EMPTY, clock, [], map[], {}) }

  /** The HTTP requests made for one delivery. */
  function Sends(s: System, dk: DeliveryKey): set<nat> {
    set i: nat | i < |s.tickets| && s.tickets[i].delivery == dk && s.tickets[i].sent
  }

  lemma {:induction false} DistinctBelow(xs: set<nat>, f: map<nat, nat>, bound: nat)
    requires forall x :: x in xs ==> x in f && 1 <= f[x] <= bound
    requires forall x, y :: x in xs && y in xs && x != y ==> f[x] != f[y]
    ensures |xs| <= bound
    decreases bound
  {
    if xs != {} {
      if x :| x in xs && f[x] == bound {
        DistinctBelow(xs - {x}, f, bound - 1);
      } else {
        var y :| y in xs;
        assert 1 <= f[y] < bound;
        DistinctBelow(xs, f, bound - 1);
      }
    }
  }

  /** At most three requests are ever made for one delivery. */
  lemma SendsAreBounded(clock: int, acts: seq<Action>, dk: DeliveryKey)
    requires AllAdmissible(Start(clock), acts)
    ensures |Sends(Steps(Start(clock), acts), dk)| <= MAX_DELIVERY_ATTEMPTS
  {
    hide Steps, AllAdmissible, WebhookBody.Fits, RowSound;
    InvariantHolds(Start(clock), acts);
    var s := Steps(Start(clock), acts);
    var sends := Sends(s, dk);
    var attempts := map i: nat | i < |s.tickets| :: s.tickets[i].attempts;
    forall i | i in sends
      ensures 1 <= attempts[i] <= MAX_DELIVERY_ATTEMPTS
    {
      assert s.tickets[i] in s.tickets;
      assert TicketSound(s, s.tickets[i]);
    }
    DistinctBelow(sends, attempts, MAX_DELIVERY_ATTEMPTS);
  }

  /** A delivery whose body is too long is never sent. */
  lemma OverlongIsNeverSent(clock: int, acts: seq<Action>, dk: DeliveryKey)
    requires AllAdmissible(Start(clock), acts)
    ensures var s := Steps(Start(clock), acts);
            dk in s.t.deliveries && !WebhookBody.Fits(s.t.deliveries[dk].payload) ==> Sends(s, dk) == {}
  {
    hide WebhookBody.Fits, AllAdmissible, Steps;
    InvariantHolds(Start(clock), acts);
    var s := Steps(Start(clock), acts);
    forall i | i in Sends(s, dk) && dk in s.t.deliveries
      ensures WebhookBody.Fits(s.t.deliveries[dk].payload)
    {
      assert s.tickets[i] in s.tickets;
      assert TicketSound(s, s.tickets[i]);
    }
  }

  /** Workers report success only for a request they made. */
  ghost predicate Honest(s: System, a: Action) {
    a.Store? && a.op.OpSettle? && a.op.settle.success ==>
      exists i | 0 <= i < |s.tickets| :: s.tickets[i].delivery == a.op.settle.delivery && s.tickets[i].sent
  }

  ghost predicate AllHonest(s: System, acts: seq<Action>)
    decreases |acts|
  {
    acts == [] || (Honest(s, acts[0]) && AllHonest(Step(s, acts[0]), acts[1..]))
  }

  ghost predicate SuccessWasSent(s: System) {
    forall dk :: dk in s.t.deliveries && s.t.deliveries[dk].status == Succeeded ==> Sends(s, dk) != {}
  }

  /** A request once made stays made. */
  lemma SendsGrow(s: System, a: Action, dk: DeliveryKey)
    ensures Sends(s, dk) <= Sends(Step(s, a), dk)
  {
    hide Apply, WebhookBody.Fits, ClaimDelivery;
  }

  lemma HonestStep(s: System, a: Action)
    requires SuccessWasSent(s) && Honest(s, a)
    ensures SuccessWasSent(Step(s, a))
  {
    hide Apply, WebhookBody.Fits, ClaimDelivery, Sends;
    var u := Step(s, a);
    forall dk | dk in u.t.deliveries && u.t.deliveries[dk].status == Succeeded
      ensures Sends(u, dk) != {}
    {
      SendsGrow(s, a, dk);
      if a.Store? {
        DeliveryStep(s.t, a.op, dk);
        SettledWasSent(s, a, dk);
      }
    }
  }

  lemma SettledWasSent(s: System, a: Action, dk: DeliveryKey)
    requires Honest(s, a)
    ensures a.Store? && a.op.OpSettle? && a.op.settle.success && a.op.settle.delivery == dk ==> Sends(s, dk) != {}
  {
    if a.Store? && a.op.OpSettle? && a.op.settle.success && a.op.settle.delivery == dk {
      var i :| 0 <= i < |s.tickets| && s.tickets[i].delivery == dk && s.tickets[i].sent;
      assert i in Sends(s, dk);
    }
  }

  lemma {:induction false} HonestRun(s: System, acts: seq<Action>)
    requires SuccessWasSent(s) && AllHonest(s, acts)
    ensures SuccessWasSent(Steps(s, acts))
    decreases |acts|
  {
    hide SuccessWasSent, Step, Honest;
    if acts != [] {
      HonestStep(s, acts[0]);
      HonestRun(Step(s, acts[0]), acts[1..]);
    }
  }

  /** A delivery whose body is too long never succeeds; its third recorded result leaves it failed. */
  lemma OverlongEndsFailed(clock: int, acts: seq<Action>, dk: DeliveryKey)
    requires AllAdmissible(Start(clock), acts) && AllHonest(Start(clock), acts)
    requires dk in Steps(Start(clock), acts).t.deliveries
    requires !WebhookBody.Fits(Steps(Start(clock), acts).t.deliveries[dk].payload)
    ensures var s := Steps(Start(clock), acts);
            && s.t.deliveries[dk].status != Succeeded
            && (Results(s, dk) == MAX_DELIVERY_ATTEMPTS ==> s.t.deliveries[dk].status == Failed)
  {
    hide WebhookBody.Fits, AllAdmissible, AllHonest, Steps, Sends;
    OverlongIsNeverSent(clock, acts, dk);
    HonestRun(Start(clock), acts);
    ResultsAreBounded(clock, acts, dk);
  }

  /** At most three results are ever recorded for one delivery, and the third leaves it succeeded or failed. */
  lemma ResultsAreBounded(clock: int, acts: seq<Action>, dk: DeliveryKey)
    requires AllAdmissible(Start(clock), acts)
    ensures var s := Steps(Start(clock), acts);
            && Results(s, dk) <= MAX_DELIVERY_ATTEMPTS
            && (Results(s, dk) == MAX_DELIVERY_ATTEMPTS && dk in s.t.deliveries ==> Terminal(s.t.deliveries[dk]))
  {
    InvariantHolds(Start(clock), acts);
  }

  /** From sound rows, such as none, every delivery's status keeps telling its lease, its attempts and its delivery time. */
  lemma {:induction false} LifecycleHolds(t: Tables, ops: seq<Op>)
    requires forall dk | dk in t.deliveries :: RowSound(t.deliveries[dk])
    ensures forall dk | dk in Exec(t, ops).deliveries :: RowSound(Exec(t, ops).deliveries[dk])
    decreases |ops|
  {
    if ops != [] {
      hide Apply, RowSound;
      var u := Apply(t, ops[0]);
      forall dk | dk in u.deliveries
        ensures RowSound(u.deliveries[dk])
      {
        RowStep(t, ops[0], dk);
      }
      LifecycleHolds(u, ops[1..]);
    }
  }

  /** Two claims of one delivery are at least a lease or a retry delay apart, whichever is shorter. */
  lemma ClaimsAreSpaced(clock: int, acts: seq<Action>, i: nat, j: nat)
    requires AllAdmissible(Start(clock), acts)
    requires i < j < |Steps(Start(clock), acts).tickets|
    requires Steps(Start(clock), acts).tickets[i].delivery == Steps(Start(clock), acts).tickets[j].delivery
    ensures var tickets := Steps(Start(clock), acts).tickets;
            tickets[i].at + Quiet(tickets[i]) <= tickets[j].at
  {
    InvariantHolds(Start(clock), acts);
  }

  /** No operation of the run claims the delivery or deletes its watch. */
  ghost predicate LeavesWaiting(t: Tables, ops: seq<Op>, dk: DeliveryKey, watch: string)
    decreases |ops|
  {
    ops == [] || (
      && ops[0] != OpDelete(WatchKey(dk.tenant, watch)) && ClaimedBy(t, ops[0]) != Some(dk)
      && LeavesWaiting(Apply(t, ops[0]), ops[1..], dk, watch))
  }

  lemma {:induction false} PendingWaits(t: Tables, ops: seq<Op>, dk: DeliveryKey)
    requires dk in t.deliveries && t.deliveries[dk].status != Delivering
    requires LeavesWaiting(t, ops, dk, t.deliveries[dk].watch)
    ensures dk in Exec(t, ops).deliveries && Exec(t, ops).deliveries[dk] == t.deliveries[dk]
    decreases |ops|
  {
    if ops != [] {
      hide Apply, ClaimDelivery;
      DeliveryStays(t, ops[0], dk);
      DeliveryStep(t, ops[0], dk);
      PendingWaits(Apply(t, ops[0]), ops[1..], dk);
    }
  }

  /**
   * After a recorded failure, whatever happens in between, the next claim of the delivery comes at
   * least the full retry delay later and takes the attempt number that follows. There is no next
   * claim once the attempts have reached the limit.
   */
  lemma RetryWaits(t: Tables, failure: CompleteDelivery, ops: seq<Op>, claim: ClaimPendingDelivery)
    requires Settles(t, OpSettle(failure)) && !failure.success
    requires LeavesWaiting(Apply(t, OpSettle(failure)), ops, failure.delivery, t.deliveries[failure.delivery].watch)
    requires ClaimDelivery(Exec(Apply(t, OpSettle(failure)), ops), claim).1 == Some(failure.delivery)
    ensures failure.finishedAt + DELIVERY_RETRY_SECONDS <= claim.now
    ensures var dk := failure.delivery;
            var u := ClaimDelivery(Exec(Apply(t, OpSettle(failure)), ops), claim).0;
            && t.deliveries[dk].attempts < MAX_DELIVERY_ATTEMPTS
            && dk in u.deliveries && u.deliveries[dk].attempts == t.deliveries[dk].attempts + 1
  {
    hide ValidSettlement, ValidDeliveryClaim;
    var u := Apply(t, OpSettle(failure));
    assert u.deliveries[failure.delivery] == SettledDelivery(t.deliveries[failure.delivery], failure);
    PendingWaits(u, ops, failure.delivery);
  }

  // ------------------------------------------------- from commit to request

  /** No operation changes where a delivery goes or what it carries. */
  lemma MessageStays(t: Tables, op: Op, dk: DeliveryKey)
    requires dk in t.deliveries && dk in Apply(t, op).deliveries
    ensures Effects.SameMessage(t.deliveries[dk], Apply(t, op).deliveries[dk])
  {
    hide Apply, ClaimDelivery;
    DeliveryStep(t, op, dk);
  }

  /** A delivery goes where its commit said, whatever is claimed, sent or settled meanwhile, until its watch is deleted. */
  lemma {:induction false} MessageIsKept(t: Tables, ops: seq<Op>, dk: DeliveryKey)
    requires dk in t.deliveries && OpDelete(WatchKey(dk.tenant, t.deliveries[dk].watch)) !in ops
    ensures dk in Exec(t, ops).deliveries && Effects.SameMessage(t.deliveries[dk], Exec(t, ops).deliveries[dk])
    decreases |ops|
  {
    if ops != [] {
      hide Apply;
      assert ops[0] in ops;
      DeliveryStays(t, ops[0], dk);
      MessageStays(t, ops[0], dk);
      MessageIsKept(Apply(t, ops[0]), ops[1..], dk);
    }
  }

  /** The commit queues a delivery of its own. */
  ghost predicate QueuesItsOwn(t: Tables, req: CompleteWatchRun) {
    && req.delivery.Some? && (exists i :: Effects.Unseen(t, req, i))
    && DeliveryKey(req.watch.tenant, req.delivery.value.delivery) !in t.deliveries
  }

  lemma CommitQueuesItsOwn(t: Tables, done: Op)
    requires Commits(t, done) && QueuesItsOwn(t, done.complete)
    ensures var key := DeliveryKey(done.complete.watch.tenant, done.complete.delivery.value.delivery);
            && key in Apply(t, done).deliveries
            && Effects.QueuedRow(Apply(t, done).deliveries[key], done.complete, done.complete.delivery.value)
            && Effects.HoldsUnseen(t, done.complete, Apply(t, done).deliveries[key].payload.records)
  {
    hide Apply, CommitGate, Effects.Unseen, Effects.HoldsUnseen, Effects.StoresRecords, Effects.Observes, Effects.Closes;
    CommitDoes(t, done);
  }

  /**
   * From the commit to the request: a delivery goes to the target its commit asked for whatever
   * happens in between, it can be claimed from the end of its run on, and the first worker to claim
   * it that is configured for that target makes the request unless the body is too long.
   */
  lemma QueuedIsSent(s: System, t: Tables, done: Op, ops: seq<Op>, claim: ClaimPendingDelivery)
    requires Commits(t, done) && QueuesItsOwn(t, done.complete)
    requires var key := DeliveryKey(done.complete.watch.tenant, done.complete.delivery.value.delivery);
             LeavesWaiting(Apply(t, done), ops, key, done.complete.watch.watch)
    requires s.t == Exec(Apply(t, done), ops)
    ensures var req := done.complete;
            var key := DeliveryKey(req.watch.tenant, req.delivery.value.delivery);
            && key in s.t.deliveries && Effects.QueuedRow(s.t.deliveries[key], req, req.delivery.value)
            && Effects.HoldsUnseen(t, req, s.t.deliveries[key].payload.records)
            && (claim.tenant == key.tenant && req.finishedAt <= claim.now ==> Effects.SendableNow(s.t, claim, key))
            && (ClaimDelivery(s.t, claim).1 == Some(key) ==>
                  var u := StoreStep(s, OpClaimDelivery(claim));
                  && |u.tickets| == |s.tickets| + 1
                  && (MaySend(u, |s.tickets|, req.delivery.value.target) <==> WebhookBody.Fits(s.t.deliveries[key].payload)))
  {
    hide Apply, ClaimDelivery, WebhookBody.Fits, CommitGate, Effects.Unseen, Effects.HoldsUnseen, Exec, LeavesWaiting;
    var key := DeliveryKey(done.complete.watch.tenant, done.complete.delivery.value.delivery);
    CommitQueuesItsOwn(t, done);
    PendingWaits(Apply(t, done), ops, key);
    if ClaimDelivery(s.t, claim).1 == Some(key) {
      ClaimAddsTicket(s.t, OpClaimDelivery(claim), key);
      DeliveryStep(s.t, OpClaimDelivery(claim), key);
    }
  }

  // ---------------------------------------------------- hypotheses derived

  /** Settlements and completions read a clock that does not go back, and no watch is deleted. */
  ghost predicate Undeleted(clock: int, acts: seq<Action>)
    decreases |acts|
  {
    acts == [] || (
      && (acts[0].Store? ==> clock <= Reading(clock, acts[0].op) && !acts[0].op.OpDelete?)
      && Undeleted(if acts[0].Store? then Reading(clock, acts[0].op) else clock, acts[1..]))
  }

  lemma NothingVanishes(t: Tables, op: Op)
    requires !op.OpDelete?
    ensures t.deliveries.Keys <= Apply(t, op).deliveries.Keys
  {
    hide Apply;
    forall dk | dk in t.deliveries
      ensures dk in Apply(t, op).deliveries
    {
      DeliveryStays(t, op, dk);
    }
  }

  /** Without deletions no delivery id is queued twice: the id of a queued delivery stays taken. */
  lemma {:induction false} UndeletedIsAdmissible(s: System, acts: seq<Action>)
    requires s.queued == s.t.deliveries.Keys && Undeleted(s.clock, acts)
    ensures AllAdmissible(s, acts)
    decreases |acts|
  {
    hide Apply, MaySend, ClaimDelivery;
    if acts != [] {
      if acts[0].Store? {
        NothingVanishes(s.t, acts[0].op);
      }
      UndeletedIsAdmissible(Step(s, acts[0]), acts[1..]);
    }
  }

  /** The bound on requests needs no hypothesis on ids as long as no watch is deleted. */
  lemma SendsAreBoundedUndeleted(clock: int, acts: seq<Action>, dk: DeliveryKey)
    requires Undeleted(clock, acts)
    ensures |Sends(Steps(Start(clock), acts), dk)| <= MAX_DELIVERY_ATTEMPTS
  {
    hide Steps, Undeleted, AllAdmissible, Sends;
    UndeletedIsAdmissible(Start(clock), acts);
    SendsAreBounded(clock, acts, dk);
  }

  // ------------------------------------------------------ crashes, reachably

  /** The attempts counter itself has no bound: every crashed claim adds one. */
  lemma {:induction false} CrashesGrowAttempts(t: Tables, dk: DeliveryKey, now: int, n: nat) returns (ops: seq<Op>)
    requires ValidTenant(dk.tenant) && t.deliveries.Keys == {dk} && Sendable(t.deliveries[dk], now)
    ensures |ops| == n && Timed(now, ops) && forall op :: op in ops ==> op.OpClaimDelivery?
    ensures dk in Exec(t, ops).deliveries
    ensures Exec(t, ops).deliveries[dk].attempts == t.deliveries[dk].attempts + n
    decreases n
  {
    if n == 0 {
      ops := [];
    } else {
      var claim := ClaimPendingDelivery(dk.tenant, now, "worker", 60);
      assert dk in SendableKeys(t.deliveries, dk.tenant, now);
      var u := Apply(t, OpClaimDelivery(claim));
      assert ClaimDelivery(t, claim).1 == Some(dk);
      var rest := CrashesGrowAttempts(u, dk, now + 60, n - 1);
      ops := [OpClaimDelivery(claim)] + rest;
      LaterRunIsTimed(now, ops);
    }
  }

  /** A run of claims can follow any earlier moment. */
  lemma {:induction false} LaterRunIsTimed(clock: int, ops: seq<Op>)
    requires forall op :: op in ops ==> op.OpClaimDelivery?
    ensures Timed(clock, ops)
    decreases |ops|
  {
    if ops != [] {
      assert ops[0] in ops;
      LaterRunIsTimed(Reading(clock, ops[0]), ops[1..]);
    }
  }

  const TENANT := "t"

  function FirstWatch(): WatchKey { WatchKey(TENANT, "w") }

  function FirstRecord(): Record {
    Record("s", "1", "post", "https://example.com/", None, None, None, None, None, Metadata("{}", None, None))
  }

  function FirstCreate(): CreateWatch { CreateWatch(FirstWatch(), "", [], 60, "{}", true, 0, None, true) }

  function FirstClaim(): ClaimDueWatch { ClaimDueWatch(TENANT, 0, "o", 60) }

  function FirstStart(): StartWatchRun { StartWatchRun(FirstWatch(), "r", "r", "o", 0) }

  function FirstCompletion(): CompleteWatchRun {
    CompleteWatchRun(FirstWatch(), "r", "o", 0, [FirstRecord()], "{}", None, Some(RunDelivery("d", "u")), true)
  }

  /** Four operations that lead from the empty database to a queued delivery. */
  function FirstRun(): seq<Op> {
    [OpCreate(FirstCreate()), OpClaim(FirstClaim()), OpStart(FirstStart()), OpComplete(FirstCompletion())]
  }

  lemma FirstWatchIsCreated()
    ensures Apply(EMPTY, OpCreate(FirstCreate())) == EMPTY.(watches := map[FirstWatch() := IntoWatch(FirstCreate())])
  {
  }

  lemma FirstWatchIsClaimed(t: Tables)
    requires t == EMPTY.(watches := map[FirstWatch() := IntoWatch(FirstCreate())])
    ensures var u := Apply(t, OpClaim(FirstClaim()));
            u == EMPTY.(watches := map[FirstWatch() := IntoWatch(FirstCreate()).(lease := Some(Lease("o", 60)))])
  {
    var wk := FirstWatch();
    assert wk in ClaimableKeys(t.watches, TENANT, 0);
    assert DueWatch(t.watches, TENANT, 0) == Some(wk);
  }

  lemma FirstRunStarts(t: Tables)
    requires t == EMPTY.(watches := map[FirstWatch() := IntoWatch(FirstCreate()).(lease := Some(Lease("o", 60)))])
    ensures Apply(t, OpStart(FirstStart())) == t.(runs := map[RunKey(FirstWatch(), "r") := NewRun(FirstStart())])
  {
    assert RunsByIdempotency(t, FirstWatch(), "r") == {};
  }

  lemma FirstRunCommits(t: Tables)
    requires t.watches == map[FirstWatch() := IntoWatch(FirstCreate()).(lease := Some(Lease("o", 60)))]
    requires t.runs == map[RunKey(FirstWatch(), "r") := NewRun(FirstStart())]
    ensures Commits(t, OpComplete(FirstCompletion()))
  {
  }

  lemma FirstRunQueues(t: Tables)
    requires t.watches == map[FirstWatch() := IntoWatch(FirstCreate()).(lease := Some(Lease("o", 60)))]
    requires t.runs == map[RunKey(FirstWatch(), "r") := NewRun(FirstStart())]
    requires t.observations == map[] && t.deliveries == map[]
    ensures var u := Apply(t, OpComplete(FirstCompletion()));
            var dk := DeliveryKey(TENANT, "d");
            u.deliveries.Keys == {dk} && u.deliveries[dk].attempts == 0 && Sendable(u.deliveries[dk], 0)
  {
    hide Apply, Commits, PayloadOf, Rescheduled, FinishedRun;
    var op := OpComplete(FirstCompletion());
    var req := FirstCompletion();
    FirstRunCommits(t);
    CommitEffect(t, op);
    assert req.records[0] in req.records;
    assert ObservationKey(req.watch, IdentityOf(FirstRecord())) in D.NewObservationKeys(t, req);
  }

  lemma FirstRunLeadsHere()
    ensures var t := Exec(EMPTY, FirstRun());
            var dk := DeliveryKey(TENANT, "d");
            t.deliveries.Keys == {dk} && t.deliveries[dk].attempts == 0 && Sendable(t.deliveries[dk], 0)
    ensures Timed(0, FirstRun()) && EndClock(0, FirstRun()) == 0
  {
    hide Apply, InsertWatch;
    var ops := FirstRun();
    var t1 := Apply(EMPTY, ops[0]);
    FirstWatchIsCreated();
    var t2 := Apply(t1, ops[1]);
    FirstWatchIsClaimed(t1);
    var t3 := Apply(t2, ops[2]);
    FirstRunStarts(t2);
    var t4 := Apply(t3, ops[3]);
    FirstRunQueues(t3);
    CommitSafety.ExecSnoc(EMPTY, ops, 0);
    CommitSafety.ExecSnoc(EMPTY, ops, 1);
    CommitSafety.ExecSnoc(EMPTY, ops, 2);
    CommitSafety.ExecSnoc(EMPTY, ops, 3);
    assert ops[..0] == [] && ops[..4] == ops;
  }

  lemma {:induction false} TimedConcat(clock: int, a: seq<Op>, b: seq<Op>)
    requires Timed(clock, a) && Timed(EndClock(clock, a), b)
    ensures Timed(clock, a + b)
    decreases |a|
  {
    if a == [] {
      assert a + b == b;
    } else {
      assert (a + b)[1..] == a[1..] + b;
      TimedConcat(Reading(clock, a[0]), a[1..], b);
    }
  }

  /** For every number there is a run from the empty database that raises an attempts counter to it. */
  lemma AttemptsAreUnbounded(n: nat) returns (ops: seq<Op>)
    ensures Timed(0, ops)
    ensures var t := Exec(EMPTY, ops);
            var dk := DeliveryKey(TENANT, "d");
            dk in t.deliveries && t.deliveries[dk].attempts == n
  {
    hide Exec, Timed, EndClock;
    FirstRunLeadsHere();
    var crashes := CrashesGrowAttempts(Exec(EMPTY, FirstRun()), DeliveryKey(TENANT, "d"), 0, n);
    ops := FirstRun() + crashes;
    TimedConcat(0, FirstRun(), crashes);
    CommitSafety.ExecSplit(EMPTY, ops, |FirstRun()|);
    assert ops[..|FirstRun()|] == FirstRun() && ops[|FirstRun()|..] == crashes;
  }
}
