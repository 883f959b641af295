/**
 * The native driver reuses one lease token for every claim, so its safety rests on its run ids,
 * `watch:owner:due`. Due times only grow, hence no such id ever names a closed run.
 */
module NativeRuns {
  import opened Wrappers
  import opened StoreModel
  import opened Protocol
  import CommitSafety
  import Leases
  import Decimal

  function RunId(wk: WatchKey, owner: string, due: int): string {
    wk.watch + ":" + owner + ":" + Decimal.Render(due)
  }

  lemma LastColonSplits(a: string, x: string, b: string, y: string)
    requires a + ":" + x == b + ":" + y
    requires ':' !in x && ':' !in y
    ensures a == b && x == y
  {
    var s := a + ":" + x;
    assert s[|a|] == ':' && s[|b|] == ':';
    assert s == b + ":" + y;
    assert a == s[..|a|] && b == s[..|b|];
    assert x == s[|a| + 1..] && y == s[|b| + 1..];
  }

  /** Within one watch the id determines both the owner and the due time, even when owners contain colons. */
  lemma RunIdInjective(wk: WatchKey, o: string, d: int, p: string, e: int)
    requires RunId(wk, o, d) == RunId(wk, p, e)
    ensures o == p && d == e
  {
    Decimal.RenderHasNoColon(d);
    Decimal.RenderHasNoColon(e);
    var prefix := wk.watch + ":";
    LastColonSplits(prefix + o, Decimal.Render(d), prefix + p, Decimal.Render(e));
    assert o == (prefix + o)[|prefix|..] && p == (prefix + p)[|prefix|..];
    Decimal.RenderInjective(d, e);
  }

  /** A native start names a due time that had come when the driver claimed the watch. */
  predicate NativeStart(clock: int, op: Op, due: int) {
    op.OpStart? ==> op.start.run == op.start.idempotency == RunId(op.start.watch, op.start.owner, due) && due <= clock
  }

  predicate NativeRun(t: Tables, clock: int, rk: RunKey, due: int)
    requires rk in t.runs && rk.watch in t.watches
  {
    var row := t.runs[rk];
    && rk.run == row.idempotency == RunId(rk.watch, row.owner, due)
    && ValidId(rk.run) && ValidId(row.owner)
    && due <= clock
    && (row.status != RunRunning ==> due < t.watches[rk.watch].nextDue)
  }

  ghost predicate NativeSound(t: Tables, clock: int) {
    forall rk :: rk in t.runs ==> rk.watch in t.watches && exists due :: NativeRun(t, clock, rk, due)
  }

  ghost predicate NativeOps(clock: int, ops: seq<Op>)
    decreases |ops|
  {
    ops == [] || ((exists due :: NativeStart(clock, ops[0], due)) && NativeOps(Reading(clock, ops[0]), ops[1..]))
  }

  lemma NativeStepRow(t: Tables, clock: int, op: Op, due: int, rk: RunKey)
    requires Sound(t, clock) && clock <= Reading(clock, op)
    requires NativeSound(t, clock) && NativeStart(clock, op, due)
    requires rk in Apply(t, op).runs && rk.watch in Apply(t, op).watches
    ensures exists d :: NativeRun(Apply(t, op), Reading(clock, op), rk, d)
  {
    hide Apply, Commits, ValidStart, RunId, KeysSound, ReferencesSound, ValidId;
    Leases.RunStep(t, op, rk);
    var u := Apply(t, op);
    if rk in t.runs {
      assert RunSound(t, rk);
      var d :| NativeRun(t, clock, rk, d);
      SoundStep(t, clock, op);
      assert RunSound(u, rk);
      if op != OpDelete(rk.watch) {
        CommitSafety.DueStep(t, clock, op, rk.watch);
        assert NativeRun(u, Reading(clock, op), rk, d);
      } else {
        SoundWatchIsValid(t, rk.watch);
        DeletedRunsGo(t, rk);
      }
    } else {
      StartedIsNative(t, u, clock, op.start, due);
    }
  }

  lemma SoundWatchIsValid(t: Tables, wk: WatchKey)
    requires ReferencesSound(t) && wk in t.watches
    ensures ValidWatchKey(wk)
  {
  }

  lemma DeletedRunsGo(t: Tables, rk: RunKey)
    requires ValidWatchKey(rk.watch) && rk.watch in t.watches
    ensures rk !in Apply(t, OpDelete(rk.watch)).runs
  {
  }

  lemma StartedIsNative(t: Tables, u: Tables, clock: int, req: StartWatchRun, due: int)
    requires NativeStart(clock, OpStart(req), due) && ValidStart(req)
    requires var rk := RunKey(req.watch, req.run); rk in u.runs && u.runs[rk] == NewRun(req) && rk.watch in u.watches
    ensures NativeRun(u, clock, RunKey(req.watch, req.run), due)
  {
  }

  lemma NativeStep(t: Tables, clock: int, op: Op, due: int)
    requires Sound(t, clock) && clock <= Reading(clock, op)
    requires NativeSound(t, clock) && NativeStart(clock, op, due)
    ensures NativeSound(Apply(t, op), Reading(clock, op))
  {
    hide Apply;
    SoundStep(t, clock, op);
    forall rk | rk in Apply(t, op).runs
      ensures rk.watch in Apply(t, op).watches && exists d :: NativeRun(Apply(t, op), Reading(clock, op), rk, d)
    {
      assert RunSound(Apply(t, op), rk);
      NativeStepRow(t, clock, op, due, rk);
    }
  }

  lemma {:induction false} NativeSoundRun(t: Tables, clock: int, ops: seq<Op>)
    requires Sound(t, clock) && Timed(clock, ops)
    requires NativeSound(t, clock) && NativeOps(clock, ops)
    ensures NativeSound(Exec(t, ops), EndClock(clock, ops))
    decreases |ops|
  {
    hide Apply, NativeSound, Sound;
    if ops != [] {
      var due :| NativeStart(clock, ops[0], due);
      NativeStep(t, clock, ops[0], due);
      SoundStep(t, clock, ops[0]);
      NativeSoundRun(Apply(t, ops[0]), Reading(clock, ops[0]), ops[1..]);
    }
  }

  lemma NativeLater(t: Tables, clock: int, later: int)
    requires NativeSound(t, clock) && clock <= later
    ensures NativeSound(t, later)
  {
    forall rk | rk in t.runs
      ensures rk.watch in t.watches && exists due :: NativeRun(t, later, rk, due)
    {
      var due :| NativeRun(t, clock, rk, due);
      assert NativeRun(t, later, rk, due);
    }
  }

  function StartOf(wk: WatchKey, owner: string, due: int, now: int): StartWatchRun {
    StartWatchRun(wk, RunId(wk, owner, due), RunId(wk, owner, due), owner, now)
  }

  /** A native start is refused exactly when its run id is too long. */
  lemma StartIsValid(wk: WatchKey, owner: string, due: int, now: int)
    requires ValidWatchKey(wk) && ValidId(owner)
    ensures ValidStart(StartOf(wk, owner, due, now)) <==> |RunId(wk, owner, due)| <= MAX_ID_LENGTH
    ensures |wk.watch| + 4 <= |RunId(wk, owner, due)|
  {
    Decimal.RenderIsShown(due);
  }

  /** While its lease is live, a native start for the current due time answers with its own open run, unless its id is too long. */
  lemma HeldLeaseStartsOpenRun(
    t: Tables, clock: int, wk: WatchKey, owner: string, now: int, t': Tables, r: Result<RunKey, StoreError>)
    requires Sound(t, clock) && NativeSound(t, clock)
    requires HoldsLease(t, wk, owner, now) && ValidId(owner)
    requires StartAnswers(t, StartOf(wk, owner, t.watches[wk].nextDue, now), t', r)
    ensures var id := RunId(wk, owner, t.watches[wk].nextDue);
            if |id| > MAX_ID_LENGTH then t' == t && r == Err(Validation)
            else
              && r == Ok(RunKey(wk, id)) && t'.watches == t.watches
              && r.value in t'.runs && t'.runs[r.value].status == RunRunning && t'.runs[r.value].owner == owner
  {
    var due := t.watches[wk].nextDue;
    StartIsValid(wk, owner, due, now);
    if |RunId(wk, owner, due)| <= MAX_ID_LENGTH {
      hide ValidStart;
      ShortIdStarts(t, clock, wk, owner, now, t', r);
    }
  }

  lemma ShortIdStarts(
    t: Tables, clock: int, wk: WatchKey, owner: string, now: int, t': Tables, r: Result<RunKey, StoreError>)
    requires Sound(t, clock) && NativeSound(t, clock)
    requires HoldsLease(t, wk, owner, now)
    requires ValidStart(StartOf(wk, owner, t.watches[wk].nextDue, now))
    requires StartAnswers(t, StartOf(wk, owner, t.watches[wk].nextDue, now), t', r)
    ensures r == Ok(RunKey(wk, RunId(wk, owner, t.watches[wk].nextDue))) && t'.watches == t.watches
    ensures r.value in t'.runs && t'.runs[r.value].status == RunRunning && t'.runs[r.value].owner == owner
  {
    hide ValidStart, RunId, Sound, NativeSound;
    var due := t.watches[wk].nextDue;
    var id := RunId(wk, owner, due);
    var mine := RunKey(wk, id);
    OwnRunOrNone(t, clock, wk, owner);
    SoundStep(t, clock, OpStart(StartOf(wk, owner, due, now)));
    OneRunPerKey(t', clock, wk, id);
    assert mine in RunsByIdempotency(t', wk, id);
  }

  lemma OneRunPerKey(t: Tables, clock: int, wk: WatchKey, key: string)
    requires Sound(t, clock)
    ensures forall a, b | a in RunsByIdempotency(t, wk, key) && b in RunsByIdempotency(t, wk, key) :: a == b
  {
  }

  /** Whatever run stands under the id of the current due time is the owner's and open. */
  lemma OwnRunOrNone(t: Tables, clock: int, wk: WatchKey, owner: string)
    requires Sound(t, clock) && NativeSound(t, clock) && wk in t.watches
    ensures var id := RunId(wk, owner, t.watches[wk].nextDue);
            var mine := RunKey(wk, id);
            if mine in t.runs then
              && mine in RunsByIdempotency(t, wk, id) && t.runs[mine].status == RunRunning && t.runs[mine].owner == owner
            else RunsByIdempotency(t, wk, id) == {}
  {
    hide RunId;
    var due := t.watches[wk].nextDue;
    var id := RunId(wk, owner, due);
    var mine := RunKey(wk, id);
    if mine in t.runs {
      var d :| NativeRun(t, clock, mine, d);
      RunIdInjective(wk, owner, due, t.runs[mine].owner, d);
    } else {
      forall rk | rk in t.runs && rk.watch == wk
        ensures t.runs[rk].idempotency != id
      {
        var d :| NativeRun(t, clock, rk, d);
      }
    }
  }

  /**
   * Claim, start and complete, with any operations of other workers before, between and after: a
   * claim is followed by an open run whatever earlier tries left behind, and a completion within the
   * lease passes the gate. All of it fails, at the start, exactly when the run id is too long.
   */
  lemma ClaimedWatchCommits(
    clock: int, before: seq<Op>, claim: ClaimDueWatch, wk: WatchKey, between: seq<Op>, startedAt: int,
    t': Tables, r: Result<RunKey, StoreError>, after: seq<Op>, done: CompleteWatchRun)
    requires Timed(clock, before) && NativeOps(clock, before)
    requires ClaimWatch(Exec(EMPTY, before), claim).1 == Some(wk)
    requires var c := Leases.AfterClaim(clock, before, claim);
             && Timed(c, between) && NativeOps(c, between) && Leases.LeaveAlone(between, wk, claim.owner)
             && EndClock(c, between) < claim.now + claim.leaseSeconds
    requires startedAt < claim.now + claim.leaseSeconds
    requires var t := Apply(Exec(EMPTY, before), OpClaim(claim));
             StartAnswers(Exec(t, between), StartOf(wk, claim.owner, t.watches[wk].nextDue, startedAt), t', r)
    requires var c := EndClock(Leases.AfterClaim(clock, before, claim), between);
             && Timed(c, after) && Leases.LeaveAlone(after, wk, claim.owner)
             && EndClock(c, after) <= done.finishedAt < claim.now + claim.leaseSeconds
    requires done.watch == wk && done.owner == claim.owner
    requires done.run == RunId(wk, claim.owner, Exec(EMPTY, before).watches[wk].nextDue)
    ensures if |done.run| > MAX_ID_LENGTH then r == Err(Validation)
            else
              && r == Ok(RunKey(wk, done.run)) && t'.runs[r.value].status == RunRunning
              && CommitGate(Exec(t', after), done)
  {
    hide Sound, NativeSound, ValidId, ValidTenant, Exec, RunId;
    var t0 := Exec(EMPTY, before);
    var t := Apply(t0, OpClaim(claim));
    var c0 := EndClock(clock, before);
    var expires := claim.now + claim.leaseSeconds;
    StartsSound(clock, before);
    SoundStep(t0, c0, OpClaim(claim));
    NativeStep(t0, c0, OpClaim(claim), 0);
    Leases.ClaimGrants(t0, claim, wk);
    var s := Exec(t, between);
    var c := Leases.AfterClaim(clock, before, claim);
    var c1 := EndClock(c, between);
    SoundRun(t, c, between);
    NativeSoundRun(t, c, between);
    Leases.LiveLeaseStands(t, c, between, wk, claim.owner);
    HeldLeaseStartsOpenRun(s, c1, wk, claim.owner, startedAt, t', r);
    if |done.run| <= MAX_ID_LENGTH {
      Leases.LiveLeaseStands(t', c1, after, wk, claim.owner);
    }
  }

  lemma StartsSound(clock: int, ops: seq<Op>)
    requires Timed(clock, ops) && NativeOps(clock, ops)
    ensures Sound(Exec(EMPTY, ops), EndClock(clock, ops)) && NativeSound(Exec(EMPTY, ops), EndClock(clock, ops))
  {
    SoundRun(EMPTY, clock, ops);
    NativeSoundRun(EMPTY, clock, ops);
  }

  // ------------------------------------------------------- overlong watch ids

  const LONGEST_RUNNABLE: nat := MAX_ID_LENGTH - 4

  /** A watch whose id leaves no room for an owner and a due time never gets a run, so it never commits. */
  lemma OverlongWatchNeverCommits(clock: int, ops: seq<Op>, wk: WatchKey, op: Op)
    requires Timed(clock, ops) && NativeOps(clock, ops)
    requires |wk.watch| > LONGEST_RUNNABLE && wk in Exec(EMPTY, ops).watches
    ensures forall rk :: rk in Exec(EMPTY, ops).runs ==> rk.watch != wk
    ensures Completes(op) && op.complete.watch == wk ==> !Commits(Exec(EMPTY, ops), op)
  {
    hide Exec;
    StartsSound(clock, ops);
    NoRunFits(Exec(EMPTY, ops), EndClock(clock, ops), wk);
  }

  lemma NoRunFits(t: Tables, clock: int, wk: WatchKey)
    requires Sound(t, clock) && NativeSound(t, clock) && wk in t.watches && |wk.watch| > LONGEST_RUNNABLE
    ensures forall rk :: rk in t.runs ==> rk.watch != wk
  {
    forall rk | rk in t.runs
      ensures rk.watch != wk
    {
      var due :| NativeRun(t, clock, rk, due);
      if rk.watch == wk {
        StartIsValid(wk, t.runs[rk].owner, due, 0);
      }
    }
  }

  /** Such a watch is never rescheduled: claimed over and over, it stays due when it was. */
  lemma {:induction false} OverlongWatchIsStuck(t: Tables, clock: int, ops: seq<Op>, wk: WatchKey)
    requires Sound(t, clock) && NativeSound(t, clock) && Timed(clock, ops) && NativeOps(clock, ops)
    requires |wk.watch| > LONGEST_RUNNABLE && wk in t.watches && OpDelete(wk) !in ops
    ensures wk in Exec(t, ops).watches && Exec(t, ops).watches[wk].nextDue == t.watches[wk].nextDue
    decreases |ops|
  {
    hide Apply, NativeSound, SchedulingSound, ReferencesSound, KeysSound;
    if ops != [] {
      var op := ops[0];
      var due :| NativeStart(clock, op, due);
      NativeStep(t, clock, op, due);
      SoundStep(t, clock, op);
      NoRunFits(t, clock, wk);
      assert op in ops;
      Leases.OnlyCommitsReschedule(t, clock, op, wk);
      OverlongWatchIsStuck(Apply(t, op), Reading(clock, op), ops[1..], wk);
    }
  }

  /** The stores accept such a watch: ids have no bound below the token limit. */
  lemma OverlongWatchIsAccepted(tenant: string, interval: int) returns (req: CreateWatch)
    requires ValidTenant(tenant) && ValidInterval(interval)
    ensures |req.watch.watch| == MAX_ID_LENGTH > LONGEST_RUNNABLE && req.watch.tenant == tenant
    ensures req.watch in Apply(EMPTY, OpCreate(req)).watches
  {
    req := CreateWatch(WatchKey(tenant, seq(MAX_ID_LENGTH, _ => 'w')), "", [], interval, "{}", true, 0, None, true);
  }
}
