/** What a live lease protects: until it expires only its owner and a deletion touch the watch and its runs. */
module Leases {
  import opened Wrappers
  import opened StoreModel
  import opened Protocol
  import S = SqliteCompletion
  import D = D1Completion

  predicate LeavesAlone(op: Op, wk: WatchKey, owner: string) {
    op != OpDelete(wk) && (Completes(op) ==> op.complete.watch != wk || op.complete.owner != owner)
  }

  /** No operation deletes the watch or completes it as this owner. */
  predicate LeaveAlone(ops: seq<Op>, wk: WatchKey, owner: string) {
    forall i | 0 <= i < |ops| :: LeavesAlone(ops[i], wk, owner)
  }

  predicate SameWatch(t: Tables, u: Tables, wk: WatchKey)
    requires wk in t.watches
  {
    && wk in u.watches && u.watches[wk] == t.watches[wk]
    && forall rk | rk in t.runs :: rk.watch == wk ==> rk in u.runs && u.runs[rk] == t.runs[rk]
  }

  /** The clock after a history and a claim that follows it. */
  function AfterClaim(clock: int, before: seq<Op>, claim: ClaimDueWatch): int {
    Later(EndClock(clock, before), claim.now)
  }

  lemma {:induction false} ClockGrows(clock: int, ops: seq<Op>)
    requires Timed(clock, ops)
    ensures clock <= EndClock(clock, ops)
    decreases |ops|
  {
    if ops != [] {
      ClockGrows(Reading(clock, ops[0]), ops[1..]);
    }
  }

  lemma CompletionLeavesOthers(t: Tables, op: Op, wk: WatchKey, owner: string, now: int)
    requires Completes(op) && HoldsLease(t, wk, owner, now) && LeavesAlone(op, wk, owner)
    ensures SameWatch(t, Apply(t, op), wk)
  {
    hide Apply, Commits, Queue;
    if Commits(t, op) {
      CommitEffect(t, op);
    } else {
      NoCommitEffect(t, op);
    }
  }

  lemma LiveLeaseStep(t: Tables, clock: int, op: Op, wk: WatchKey, owner: string)
    requires clock <= Reading(clock, op) && HoldsLease(t, wk, owner, Reading(clock, op))
    requires LeavesAlone(op, wk, owner)
    ensures SameWatch(t, Apply(t, op), wk)
  {
    hide S.Complete, D.Complete, ClaimDelivery, SettleDelivery, ValidWatchKey, ValidStart, ValidClaim;
    if op.OpClaimDelivery? || op.OpSettle? {
      DeliveryOpsFrame(t, op);
    } else if Completes(op) {
      CompletionLeavesOthers(t, op, wk, owner, Reading(clock, op));
    }
  }

  /** A live lease stands: the watch's row and runs are the same after any such operations. */
  lemma {:induction false} LiveLeaseStands(t: Tables, clock: int, ops: seq<Op>, wk: WatchKey, owner: string)
    requires Timed(clock, ops) && HoldsLease(t, wk, owner, EndClock(clock, ops)) && LeaveAlone(ops, wk, owner)
    ensures SameWatch(t, Exec(t, ops), wk)
    decreases |ops|
  {
    hide Apply;
    if ops != [] {
      ClockGrows(Reading(clock, ops[0]), ops[1..]);
      LiveLeaseStep(t, clock, ops[0], wk, owner);
      LiveLeaseStands(Apply(t, ops[0]), Reading(clock, ops[0]), ops[1..], wk, owner);
    }
  }

  /** In sound tables the due time of a watch changes by its own commit only. */
  lemma OnlyCommitsReschedule(t: Tables, clock: int, op: Op, wk: WatchKey)
    requires SchedulingSound(t, clock) && clock <= Reading(clock, op)
    requires wk in t.watches && op != OpDelete(wk)
    requires !(Commits(t, op) && op.complete.watch == wk)
    ensures wk in Apply(t, op).watches && Apply(t, op).watches[wk].nextDue == t.watches[wk].nextDue
  {
    hide S.Complete, D.Complete, ClaimDelivery, SettleDelivery, ValidWatchKey, ValidStart, ValidClaim, SchedulingSound;
    if op.OpClaimDelivery? || op.OpSettle? {
      DeliveryOpsFrame(t, op);
    } else if Completes(op) {
      CompletionReschedulesOwn(t, clock, op, wk);
    }
  }

  lemma CompletionReschedulesOwn(t: Tables, clock: int, op: Op, wk: WatchKey)
    requires SchedulingSound(t, clock) && clock <= Reading(clock, op)
    requires wk in t.watches && Completes(op)
    requires !(Commits(t, op) && op.complete.watch == wk)
    ensures wk in Apply(t, op).watches && Apply(t, op).watches[wk].nextDue == t.watches[wk].nextDue
  {
    hide Apply, Commits, Queue;
    if Commits(t, op) {
      CommitEffect(t, op);
    } else {
      CommitsOrNothing(t, clock, op);
    }
  }

  /** Where a run row comes from: it was there, it was closed by its own commit, or it was just started. */
  lemma RunStep(t: Tables, op: Op, rk: RunKey)
    requires rk in Apply(t, op).runs
    ensures var row := Apply(t, op).runs[rk];
            if rk in t.runs then
              && row.idempotency == t.runs[rk].idempotency && row.owner == t.runs[rk].owner
              && (row == t.runs[rk]
                  || (Completes(op) && Commits(t, op) && rk == RunKey(op.complete.watch, op.complete.run)
                      && row.finished == Some(op.complete.finishedAt)))
            else
              && op.OpStart? && rk == RunKey(op.start.watch, op.start.run) && row == NewRun(op.start)
              && ValidStart(op.start) && HoldsLease(t, op.start.watch, op.start.owner, op.start.startedAt)
  {
    if op.OpClaimDelivery? || op.OpSettle? {
      hide Apply;
      DeliveryOpsFrame(t, op);
    } else if Completes(op) {
      CompletionRunStep(t, op, rk);
    }
  }

  lemma CompletionRunStep(t: Tables, op: Op, rk: RunKey)
    requires Completes(op) && rk in Apply(t, op).runs
    ensures rk in t.runs
    ensures var row := Apply(t, op).runs[rk];
            && row.idempotency == t.runs[rk].idempotency && row.owner == t.runs[rk].owner
            && (row == t.runs[rk]
                || (Commits(t, op) && rk == RunKey(op.complete.watch, op.complete.run)
                    && row.finished == Some(op.complete.finishedAt)))
  {
    hide Apply, Commits, Queue;
    if Commits(t, op) {
      CommitEffect(t, op);
    } else {
      NoCommitEffect(t, op);
    }
  }

  lemma ClaimGrants(t: Tables, claim: ClaimDueWatch, wk: WatchKey)
    requires ClaimWatch(t, claim).1 == Some(wk)
    ensures var u := Apply(t, OpClaim(claim));
            && wk in t.watches && wk in u.watches && ValidClaim(claim) && wk.tenant == claim.tenant
            && u.watches[wk] == t.watches[wk].(lease := Some(Lease(claim.owner, claim.now + claim.leaseSeconds)))
            && t.watches[wk].nextDue <= claim.now
  {
  }
}
