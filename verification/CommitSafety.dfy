/**
 * Fencing and at-most-once commit: what lease tokens and due times guarantee over every
 * interleaving of workers, redelivered queue messages, expired leases and reclaims, whether the
 * completions are SQLite transactions, D1 batches or both.
 */
module CommitSafety {
  import opened Wrappers
  import opened StoreModel
  import opened Protocol
  import D = D1Completion
  import S = SqliteCompletion

  // ------------------------------------------------------------- run algebra

  lemma {:induction false} ExecSplit(t: Tables, ops: seq<Op>, i: nat)
    requires i <= |ops|
    ensures Exec(t, ops) == Exec(Exec(t, ops[..i]), ops[i..])
    decreases i
  {
    if i > 0 {
      ExecSplit(Apply(t, ops[0]), ops[1..], i - 1);
      assert ops[..i][1..] == ops[1..][..i - 1];
    }
  }

  lemma ExecSnoc(t: Tables, ops: seq<Op>, i: nat)
    requires i < |ops|
    ensures Exec(t, ops[..i + 1]) == Apply(Exec(t, ops[..i]), ops[i])
  {
    ExecSplit(t, ops[..i + 1], i);
    assert ops[..i + 1][..i] == ops[..i];
    assert ops[..i + 1][i..] == [ops[i]];
    assert Exec(Exec(t, ops[..i]), [ops[i]]) == Exec(Apply(Exec(t, ops[..i]), ops[i]), []);
  }

  lemma {:induction false} TimedSplit(clock: int, ops: seq<Op>, i: nat)
    requires i <= |ops| && Timed(clock, ops)
    ensures Timed(clock, ops[..i]) && Timed(EndClock(clock, ops[..i]), ops[i..])
    decreases i
  {
    hide Reading;
    if i > 0 {
      var rest := ops[1..];
      TimedSplit(Reading(clock, ops[0]), rest, i - 1);
      var front := ops[..i];
      assert front[0] == ops[0] && front[1..] == rest[..i - 1];
      assert rest[i - 1..] == ops[i..];
    }
  }

  // ---------------------------------------------------------------- tokens

  predicate IssuesFresh(used: set<string>, op: Op) {
    op.OpClaim? ==> op.claim.owner !in used
  }

  function Issue(used: set<string>, op: Op): set<string> {
    if op.OpClaim? then used + {op.claim.owner} else used
  }

  function UsedAfter(used: set<string>, ops: seq<Op>): set<string>
    decreases |ops|
  {
    if ops == [] then used else UsedAfter(Issue(used, ops[0]), ops[1..])
  }

  /** Every claim carries a token no earlier claim carried. */
  predicate FreshClaims(used: set<string>, ops: seq<Op>)
    decreases |ops|
  {
    ops == [] || (IssuesFresh(used, ops[0]) && FreshClaims(Issue(used, ops[0]), ops[1..]))
  }

  lemma {:induction false} FreshPrefix(used: set<string>, ops: seq<Op>, i: nat)
    requires i <= |ops| && FreshClaims(used, ops)
    ensures FreshClaims(used, ops[..i])
    decreases i
  {
    if i > 0 {
      FreshPrefix(Issue(used, ops[0]), ops[1..], i - 1);
      assert ops[..i][1..] == ops[1..][..i - 1];
    }
  }

  lemma {:induction false} FreshSuffix(used: set<string>, ops: seq<Op>, i: nat)
    requires i <= |ops| && FreshClaims(used, ops)
    ensures FreshClaims(UsedAfter(used, ops[..i]), ops[i..])
    decreases i
  {
    if i > 0 {
      FreshSuffix(Issue(used, ops[0]), ops[1..], i - 1);
      assert ops[..i][1..] == ops[1..][..i - 1];
      assert ops[..i][0] == ops[0];
      assert ops[1..][i - 1..] == ops[i..];
    } else {
      assert ops[..0] == [] && ops[0..] == ops;
    }
  }

  lemma FreshSplit(used: set<string>, ops: seq<Op>, i: nat)
    requires i <= |ops| && FreshClaims(used, ops)
    ensures FreshClaims(used, ops[..i]) && FreshClaims(UsedAfter(used, ops[..i]), ops[i..])
  {
    FreshPrefix(used, ops, i);
    FreshSuffix(used, ops, i);
  }

  predicate LeasedBy(t: Tables, wk: WatchKey, owner: string) {
    wk in t.watches && t.watches[wk].lease.Some? && t.watches[wk].lease.value.owner == owner
  }

  /** A token leases at most one watch, and only tokens already issued lease anything. */
  predicate TokensSound(t: Tables, used: set<string>) {
    && (forall k | k in t.watches :: t.watches[k].lease.Some? ==> t.watches[k].lease.value.owner in used)
    && (forall a, b | a in t.watches && b in t.watches ::
          t.watches[a].lease.Some? && LeasedBy(t, b, t.watches[a].lease.value.owner) ==> a == b)
  }

  /** An issued token that leases no watch any more: its claim expired and was retaken, committed or was deleted. */
  predicate Spent(t: Tables, used: set<string>, owner: string) {
    owner in used && forall k | k in t.watches :: !LeasedBy(t, k, owner)
  }

  /** An operation moves no lease except by giving a watch a fresh token or none. */
  lemma LeaseStep(t: Tables, op: Op, k: WatchKey)
    requires k in Apply(t, op).watches
    ensures var lease := Apply(t, op).watches[k].lease;
            || lease.None?
            || (k in t.watches && lease == t.watches[k].lease)
            || (op.OpClaim? && lease.value.owner == op.claim.owner && ClaimWatch(t, op.claim).1 == Some(k))
  {
    hide S.Complete, D.Complete, ClaimDelivery, SettleDelivery, ValidClaim, ValidCreate, ValidWatchKey;
    if op.OpClaimDelivery? || op.OpSettle? {
      DeliveryOpsFrame(t, op);
    } else if Completes(op) {
      CompleteLeases(t, op);
    }
  }

  /** A completion moves no lease but that of its own watch, which it ends. */
  lemma CompleteLeases(t: Tables, op: Op)
    requires Completes(op)
    ensures Apply(t, op).watches.Keys == t.watches.Keys
    ensures forall k :: k in t.watches ==>
              Apply(t, op).watches[k] == t.watches[k] || (k == op.complete.watch && Apply(t, op).watches[k].lease.None?)
  {
    hide Apply, Commits, Queue;
    if Commits(t, op) {
      CommitEffect(t, op);
    } else {
      NoCommitEffect(t, op);
    }
  }

  lemma TokensStep(t: Tables, used: set<string>, op: Op)
    requires TokensSound(t, used) && IssuesFresh(used, op)
    ensures TokensSound(Apply(t, op), Issue(used, op))
  {
    hide Apply, ClaimWatch;
    var u := Apply(t, op);
    forall k | k in u.watches
      ensures u.watches[k].lease.Some? ==> u.watches[k].lease.value.owner in Issue(used, op)
    {
      LeaseStep(t, op, k);
    }
    forall a, b | a in u.watches && b in u.watches && u.watches[a].lease.Some?
                  && LeasedBy(u, b, u.watches[a].lease.value.owner)
      ensures a == b
    {
      LeaseStep(t, op, a);
      LeaseStep(t, op, b);
      if a in t.watches && b in t.watches && u.watches[a].lease == t.watches[a].lease && u.watches[b].lease == t.watches[b].lease {
        assert LeasedBy(t, b, t.watches[a].lease.value.owner);
      }
    }
  }

  lemma SpentStep(t: Tables, used: set<string>, op: Op, owner: string)
    requires Spent(t, used, owner) && IssuesFresh(used, op)
    ensures Spent(Apply(t, op), Issue(used, op), owner)
  {
    hide Apply, ClaimWatch;
    var u := Apply(t, op);
    forall k | k in u.watches
      ensures !LeasedBy(u, k, owner)
    {
      LeaseStep(t, op, k);
      if k in t.watches {
        assert !LeasedBy(t, k, owner);
      }
    }
  }

  lemma {:induction false} TokensRun(t: Tables, used: set<string>, ops: seq<Op>)
    requires TokensSound(t, used) && FreshClaims(used, ops)
    ensures TokensSound(Exec(t, ops), UsedAfter(used, ops))
    decreases |ops|
  {
    if ops != [] {
      TokensStep(t, used, ops[0]);
      TokensRun(Apply(t, ops[0]), Issue(used, ops[0]), ops[1..]);
    }
  }

  /** A spent token never leases a watch again. */
  lemma {:induction false} SpentForever(t: Tables, used: set<string>, ops: seq<Op>, owner: string)
    requires Spent(t, used, owner) && FreshClaims(used, ops)
    ensures Spent(Exec(t, ops), UsedAfter(used, ops), owner)
    decreases |ops|
  {
    if ops != [] {
      SpentStep(t, used, ops[0], owner);
      SpentForever(Apply(t, ops[0]), Issue(used, ops[0]), ops[1..], owner);
    }
  }

  // ---------------------------------------------------------------- fencing

  /** A start or a completion by this owner. */
  predicate ActsAs(op: Op, owner: string) {
    (op.OpStart? && op.start.owner == owner) || (Completes(op) && op.complete.owner == owner)
  }

  lemma OnlyLease(t: Tables, used: set<string>, wk: WatchKey, owner: string)
    requires TokensSound(t, used) && LeasedBy(t, wk, owner)
    ensures forall k | k in t.watches && k != wk :: !LeasedBy(t, k, owner)
    ensures owner in used
  {
  }

  /** Retaking an expired lease spends the previous owner's token. */
  lemma ReclaimSpends(t: Tables, used: set<string>, req: ClaimDueWatch, wk: WatchKey, previous: string)
    requires TokensSound(t, used) && req.owner !in used
    requires LeasedBy(t, wk, previous) && ClaimWatch(t, req).1 == Some(wk)
    ensures Spent(Apply(t, OpClaim(req)), Issue(used, OpClaim(req)), previous)
  {
    var u := Apply(t, OpClaim(req));
    OnlyLease(t, used, wk, previous);
  }

  /** A commit spends the token it ran under. */
  lemma CommitSpends(t: Tables, used: set<string>, op: Op)
    requires TokensSound(t, used) && Commits(t, op)
    ensures Spent(Apply(t, op), used, op.complete.owner)
  {
    hide Apply, Queue, D.Admits, D.LegalPicks, ValidCompletion;
    CommitEffect(t, op);
    OnlyLease(t, used, op.complete.watch, op.complete.owner);
  }

  predicate ActsUnderLease(t: Tables, op: Op) {
    if op.OpStart? then HoldsLease(t, op.start.watch, op.start.owner, op.start.startedAt)
    else Completes(op) && HoldsLease(t, op.complete.watch, op.complete.owner, op.complete.finishedAt)
  }

  /** On either store a start or a completion changes something only under a live lease of its owner. */
  lemma ChangesNeedTheLease(t: Tables, op: Op)
    requires (op.OpStart? || Completes(op)) && Apply(t, op) != t
    ensures ActsUnderLease(t, op)
  {
    if Completes(op) {
      hide Apply, Commits;
      if Commits(t, op) {
        CommitEffect(t, op);
      } else {
        NoCommitEffect(t, op);
      }
    }
  }

  /** Whatever happens after its token is spent, a worker's starts and completions change no table. */
  lemma SupersededOwnerIsFenced(t: Tables, used: set<string>, ops: seq<Op>, owner: string, i: nat)
    requires Spent(t, used, owner) && FreshClaims(used, ops)
    requires i < |ops| && ActsAs(ops[i], owner)
    ensures Exec(t, ops[..i + 1]) == Exec(t, ops[..i])
  {
    hide Apply;
    FreshSplit(used, ops, i);
    SpentForever(t, used, ops[..i], owner);
    ExecSnoc(t, ops, i);
    var s := Exec(t, ops[..i]);
    var wk := if ops[i].OpStart? then ops[i].start.watch else ops[i].complete.watch;
    if Apply(s, ops[i]) != s {
      ChangesNeedTheLease(s, ops[i]);
    }
  }

  // ----------------------------------------------------------- at most once

  ghost predicate CommitsAt(t: Tables, ops: seq<Op>, i: nat) {
    i < |ops| && Commits(Exec(t, ops[..i]), ops[i])
  }

  lemma CommitNeedsTheLease(t: Tables, op: Op)
    requires Commits(t, op)
    ensures LeasedBy(t, op.complete.watch, op.complete.owner)
  {
  }

  /** Two commits of one run never carry the same token: a queue message commits at most once. */
  lemma MessageCommitsOnce(t: Tables, used: set<string>, ops: seq<Op>, i: nat, j: nat)
    requires TokensSound(t, used) && FreshClaims(used, ops)
    requires i < j && CommitsAt(t, ops, i) && CommitsAt(t, ops, j)
    ensures ops[i].complete.owner != ops[j].complete.owner
  {
    hide Apply, D.Admits, D.LegalPicks, ValidCompletion, CommitGate, TokensSound;
    var owner := ops[i].complete.owner;
    FreshSplit(used, ops, i);
    TokensRun(t, used, ops[..i]);
    var s := Exec(t, ops[..i]);
    var issued := UsedAfter(used, ops[..i]);
    CommitSpends(s, issued, ops[i]);
    assert ops[i..][0] == ops[i] && ops[i..][1..] == ops[i + 1..];
    FreshSplit(issued, ops[i + 1..], j - i - 1);
    assert ops[i + 1..][..j - i - 1] == ops[i + 1..j];
    SpentForever(Apply(s, ops[i]), issued, ops[i + 1..j], owner);
    ExecBetween(t, ops, i, j);
    CommitNeedsTheLease(Exec(t, ops[..j]), ops[j]);
  }

  lemma {:induction false} DueNeverMovesBack(t: Tables, clock: int, ops: seq<Op>, wk: WatchKey)
    requires Sound(t, clock) && Timed(clock, ops)
    requires wk in t.watches && OpDelete(wk) !in ops
    ensures wk in Exec(t, ops).watches
    ensures t.watches[wk].nextDue <= Exec(t, ops).watches[wk].nextDue
    decreases |ops|
  {
    if ops != [] {
      SoundStep(t, clock, ops[0]);
      assert ops[0] in ops;
      DueStep(t, clock, ops[0], wk);
      DueNeverMovesBack(Apply(t, ops[0]), Reading(clock, ops[0]), ops[1..], wk);
    }
  }

  lemma DueStep(t: Tables, clock: int, op: Op, wk: WatchKey)
    requires SchedulingSound(t, clock) && clock <= Reading(clock, op)
    requires wk in t.watches && op != OpDelete(wk)
    ensures wk in Apply(t, op).watches
    ensures t.watches[wk].nextDue <= Apply(t, op).watches[wk].nextDue
    ensures Commits(t, op) && op.complete.watch == wk ==> MovesOn(t, Apply(t, op), wk)
  {
    if op.OpClaimDelivery? || op.OpSettle? {
      hide Apply;
      DeliveryOpsFrame(t, op);
    } else if Completes(op) {
      CompletionDueStep(t, clock, op, wk);
    } else if op.OpStart? {
      hide Apply;
      StartFrame(t, op.start);
    }
  }

  lemma CompletionDueStep(t: Tables, clock: int, op: Op, wk: WatchKey)
    requires SchedulingSound(t, clock) && clock <= Reading(clock, op)
    requires wk in t.watches && Completes(op)
    ensures wk in Apply(t, op).watches
    ensures t.watches[wk].nextDue <= Apply(t, op).watches[wk].nextDue
    ensures Commits(t, op) && op.complete.watch == wk ==> MovesOn(t, Apply(t, op), wk)
  {
    hide Apply, Commits, Queue;
    if Commits(t, op) {
      CommitEffect(t, op);
      CompleteScheduling(t, clock, op);
    } else {
      CommitsOrNothing(t, clock, op);
    }
  }

  ghost function DueAt(t: Tables, ops: seq<Op>, i: nat): int
    requires CommitsAt(t, ops, i)
  {
    Exec(t, ops[..i]).watches[ops[i].complete.watch].nextDue
  }

  /** Running up to `j` is running up to `i`, then operation `i`, then the ones between. */
  lemma ExecBetween(t: Tables, ops: seq<Op>, i: nat, j: nat)
    requires i < j <= |ops|
    ensures Exec(t, ops[..j]) == Exec(Apply(Exec(t, ops[..i]), ops[i]), ops[i + 1..j])
  {
    ExecSnoc(t, ops, i);
    ExecSplit(t, ops[..j], i + 1);
    assert ops[..j][..i + 1] == ops[..i + 1];
    assert ops[..j][i + 1..] == ops[i + 1..j];
  }

  lemma TimedBetween(clock: int, ops: seq<Op>, i: nat, j: nat)
    requires i < j <= |ops| && Timed(clock, ops)
    ensures var c := EndClock(clock, ops[..i]);
            c <= Reading(c, ops[i]) && Timed(Reading(c, ops[i]), ops[i + 1..j])
  {
    hide Timed, EndClock, Reading;
    TimedSplit(clock, ops, i);
    var c := EndClock(clock, ops[..i]);
    var tail := ops[i..];
    TimedHead(c, tail);
    var later := tail[1..];
    TimedSplit(Reading(c, ops[i]), later, j - i - 1);
    assert later[..j - i - 1] == ops[i + 1..j];
  }

  lemma TimedHead(clock: int, ops: seq<Op>)
    requires ops != [] && Timed(clock, ops)
    ensures clock <= Reading(clock, ops[0]) && Timed(Reading(clock, ops[0]), ops[1..])
  {
    hide Reading;
  }

  /**
   * Commits of one watch use strictly later due times, as long as the watch is not deleted between
   * them: each (watch, due time) slot commits at most once, whoever holds the lease.
   */
  lemma SlotCommitsOnce(t: Tables, clock: int, ops: seq<Op>, i: nat, j: nat)
    requires Sound(t, clock) && Timed(clock, ops)
    requires i < j && CommitsAt(t, ops, i) && CommitsAt(t, ops, j)
    requires ops[i].complete.watch == ops[j].complete.watch
    requires OpDelete(ops[i].complete.watch) !in ops[i + 1..j]
    ensures DueAt(t, ops, i) < DueAt(t, ops, j)
  {
    var wk := ops[i].complete.watch;
    TimedSplit(clock, ops, i);
    SoundRun(t, clock, ops[..i]);
    var s := Exec(t, ops[..i]);
    var c := EndClock(clock, ops[..i]);
    TimedBetween(clock, ops, i, j);
    DueStep(s, c, ops[i], wk);
    SoundStep(s, c, ops[i]);
    DueNeverMovesBack(Apply(s, ops[i]), Reading(c, ops[i]), ops[i + 1..j], wk);
    ExecBetween(t, ops, i, j);
  }

  // ------------------------------------------------------------ redelivery

  /** The queue consumer's starts use the lease token as the idempotency key. */
  predicate CloudStarts(ops: seq<Op>) {
    forall i | 0 <= i < |ops| :: ops[i].OpStart? ==> ops[i].start.idempotency == ops[i].start.owner
  }

  /** No run of this watch under this key is still open. */
  predicate KeyClosed(t: Tables, wk: WatchKey, key: string) {
    forall rk | rk in RunsByIdempotency(t, wk, key) :: t.runs[rk].status != RunRunning
  }

  lemma KeyClosedStep(t: Tables, used: set<string>, op: Op, wk: WatchKey, owner: string)
    requires Spent(t, used, owner) && KeyClosed(t, wk, owner)
    requires op.OpStart? ==> op.start.idempotency == op.start.owner
    ensures KeyClosed(Apply(t, op), wk, owner)
  {
    var u := Apply(t, op);
    if op.OpClaimDelivery? || op.OpSettle? {
      DeliveryOpsFrame(t, op);
    } else if Completes(op) {
      KeyClosedCompletion(t, op, wk, owner);
    } else {
      forall rk | rk in RunsByIdempotency(u, wk, owner)
        ensures u.runs[rk].status != RunRunning
      {
        assert wk in t.watches ==> !LeasedBy(t, wk, owner);
        assert rk in RunsByIdempotency(t, wk, owner);
      }
    }
  }

  lemma KeyClosedCompletion(t: Tables, op: Op, wk: WatchKey, key: string)
    requires Completes(op) && KeyClosed(t, wk, key)
    ensures KeyClosed(Apply(t, op), wk, key)
  {
    hide Apply, Commits, Queue;
    var u := Apply(t, op);
    if Commits(t, op) {
      CommitEffect(t, op);
      forall rk | rk in RunsByIdempotency(u, wk, key)
        ensures u.runs[rk].status != RunRunning
      {
        assert rk in RunsByIdempotency(t, wk, key);
      }
    } else {
      NoCommitEffect(t, op);
    }
  }

  lemma {:induction false} KeyClosedForever(t: Tables, used: set<string>, ops: seq<Op>, wk: WatchKey, owner: string)
    requires Spent(t, used, owner) && KeyClosed(t, wk, owner)
    requires FreshClaims(used, ops) && CloudStarts(ops)
    ensures KeyClosed(Exec(t, ops), wk, owner)
    decreases |ops|
  {
    hide Apply;
    if ops != [] {
      SpentStep(t, used, ops[0], owner);
      KeyClosedStep(t, used, ops[0], wk, owner);
      KeyClosedForever(Apply(t, ops[0]), Issue(used, ops[0]), ops[1..], wk, owner);
    }
  }

  /**
   * A queue message delivered again after its commit starts nothing: the start answers with a
   * closed run, which the consumer acknowledges without searching, or with an error.
   */
  lemma RedeliveryFindsClosedRun(
    t: Tables, used: set<string>, done: Op, ops: seq<Op>,
    again: StartWatchRun, t': Tables, r: Result<RunKey, StoreError>)
    requires TokensSound(t, used) && KeysSound(t)
    requires Commits(t, done)
    requires t.runs[RunKey(done.complete.watch, done.complete.run)].idempotency == done.complete.owner
    requires FreshClaims(used, ops) && CloudStarts(ops)
    requires again.watch == done.complete.watch && again.owner == done.complete.owner == again.idempotency
    requires StartAnswers(Exec(Apply(t, done), ops), again, t', r)
    ensures t' == Exec(Apply(t, done), ops)
    ensures r.Ok? ==> r.value in t'.runs && t'.runs[r.value].status != RunRunning
  {
    hide Apply, Exec, CommitGate, KeyClosed, TokensSound, KeysSound, CloudStarts, StartAnswers;
    var u := Apply(t, done);
    var wk := done.complete.watch;
    var owner := done.complete.owner;
    CommitClosesKey(t, done);
    CommitSpends(t, used, done);
    KeyClosedForever(u, used, ops, wk, owner);
    SpentForever(u, used, ops, owner);
    UnleasedStartReloads(Exec(u, ops), again, t', r);
  }

  /** The committed run is the only one under its key. */
  lemma CommitClosesKey(t: Tables, done: Op)
    requires KeysSound(t) && Commits(t, done)
    requires t.runs[RunKey(done.complete.watch, done.complete.run)].idempotency == done.complete.owner
    ensures KeyClosed(Apply(t, done), done.complete.watch, done.complete.owner)
  {
    hide Apply, Queue, D.RecordKeys, D.ObservationKeys, Rescheduled;
    CommitEffect(t, done);
    var u := Apply(t, done);
    forall rk | rk in RunsByIdempotency(u, done.complete.watch, done.complete.owner)
      ensures u.runs[rk].status != RunRunning
    {
      assert rk == RunKey(done.complete.watch, done.complete.run);
    }
  }

  lemma UnleasedStartReloads(s: Tables, again: StartWatchRun, t': Tables, r: Result<RunKey, StoreError>)
    requires KeyClosed(s, again.watch, again.idempotency) && !LeasedBy(s, again.watch, again.owner)
    requires StartAnswers(s, again, t', r)
    ensures t' == s
    ensures r.Ok? ==> r.value in t'.runs && t'.runs[r.value].status != RunRunning
  {
    hide ValidStart;
  }
}
