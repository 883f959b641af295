/**
 * The cloud driver: each claim draws a token of its own, which is the idempotency key of its run and
 * the tail of the run's id. A message commits whenever its lease lives long enough and its id is short enough.
 */
module CloudRuns {
  import opened Wrappers
  import opened StoreModel
  import opened Protocol
  import opened CommitSafety
  import Leases
  import D = D1Completion

  function RunId(wk: WatchKey, owner: string): string { wk.watch + ":" + owner }

  function StartOf(wk: WatchKey, owner: string, now: int): StartWatchRun {
    StartWatchRun(wk, RunId(wk, owner), owner, owner, now)
  }

  lemma StartIsValid(wk: WatchKey, owner: string, now: int)
    requires ValidWatchKey(wk) && ValidId(owner)
    ensures ValidStart(StartOf(wk, owner, now)) <==> |wk.watch| + 1 + |owner| <= MAX_ID_LENGTH
  {
  }

  predicate CloudStart(op: Op) {
    op.OpStart? ==> op.start == StartOf(op.start.watch, op.start.owner, op.start.startedAt)
  }

  predicate CloudOps(ops: seq<Op>) { forall i | 0 <= i < |ops| :: CloudStart(ops[i]) }

  /** Runs are named after their token. */
  predicate CloudShaped(t: Tables) {
    forall rk | rk in t.runs :: t.runs[rk].idempotency == t.runs[rk].owner && rk.run == RunId(rk.watch, t.runs[rk].owner)
  }

  /** Every run carries an issued token. */
  predicate TokensIssued(t: Tables, used: set<string>) {
    forall rk | rk in t.runs :: t.runs[rk].owner in used
  }

  lemma ShapedStep(t: Tables, op: Op)
    requires CloudShaped(t) && CloudStart(op)
    ensures CloudShaped(Apply(t, op))
  {
    hide Apply, Commits, RunId, ValidStart;
    forall rk | rk in Apply(t, op).runs
      ensures var row := Apply(t, op).runs[rk]; row.idempotency == row.owner && rk.run == RunId(rk.watch, row.owner)
    {
      Leases.RunStep(t, op, rk);
    }
  }

  lemma {:induction false} ShapedRun(t: Tables, ops: seq<Op>)
    requires CloudShaped(t) && CloudOps(ops)
    ensures CloudShaped(Exec(t, ops))
    decreases |ops|
  {
    hide Apply, CloudShaped;
    if ops != [] {
      ShapedStep(t, ops[0]);
      ShapedRun(Apply(t, ops[0]), ops[1..]);
    }
  }

  lemma IssuedStep(t: Tables, used: set<string>, op: Op)
    requires TokensIssued(t, used) && TokensSound(t, used)
    ensures TokensIssued(Apply(t, op), Issue(used, op))
  {
    hide Apply, Commits, ValidStart;
    forall rk | rk in Apply(t, op).runs
      ensures Apply(t, op).runs[rk].owner in Issue(used, op)
    {
      Leases.RunStep(t, op, rk);
    }
  }

  lemma {:induction false} IssuedRun(t: Tables, used: set<string>, ops: seq<Op>)
    requires TokensIssued(t, used) && TokensSound(t, used) && FreshClaims(used, ops)
    ensures TokensIssued(Exec(t, ops), UsedAfter(used, ops))
    decreases |ops|
  {
    hide Apply, TokensIssued, TokensSound;
    if ops != [] {
      IssuedStep(t, used, ops[0]);
      TokensStep(t, used, ops[0]);
      IssuedRun(Apply(t, ops[0]), Issue(used, ops[0]), ops[1..]);
    }
  }

  /** The token's run of this watch, if there is one, is still open. */
  predicate OpenUnder(t: Tables, wk: WatchKey, owner: string) {
    forall rk | rk in RunsByIdempotency(t, wk, owner) :: t.runs[rk].status == RunRunning
  }

  lemma OpenStep(t: Tables, op: Op, wk: WatchKey, owner: string)
    requires OpenUnder(t, wk, owner) && CloudShaped(t) && CloudStart(op) && Leases.LeavesAlone(op, wk, owner)
    ensures OpenUnder(Apply(t, op), wk, owner)
  {
    hide Apply, RunId, ValidStart, ValidCompletion, D.Admits, D.LegalPicks;
    forall rk | rk in RunsByIdempotency(Apply(t, op), wk, owner)
      ensures Apply(t, op).runs[rk].status == RunRunning
    {
      Leases.RunStep(t, op, rk);
      assert rk in t.runs ==> rk in RunsByIdempotency(t, wk, owner);
    }
  }

  lemma {:induction false} OpenStays(t: Tables, ops: seq<Op>, wk: WatchKey, owner: string)
    requires OpenUnder(t, wk, owner) && CloudShaped(t) && CloudOps(ops) && Leases.LeaveAlone(ops, wk, owner)
    ensures OpenUnder(Exec(t, ops), wk, owner)
    decreases |ops|
  {
    hide Apply, CloudShaped, OpenUnder;
    if ops != [] {
      OpenStep(t, ops[0], wk, owner);
      ShapedStep(t, ops[0]);
      OpenStays(Apply(t, ops[0]), ops[1..], wk, owner);
    }
  }

  /** Under a live lease a start leaves the token's own run, open. */
  lemma LiveLeaseInserts(t: Tables, wk: WatchKey, owner: string, now: int)
    requires CloudShaped(t) && OpenUnder(t, wk, owner) && HoldsLease(t, wk, owner, now)
    requires ValidStart(StartOf(wk, owner, now))
    ensures var rk := RunKey(wk, RunId(wk, owner));
            var r := StartRun(t, StartOf(wk, owner, now));
            && r.Ok? && r.value.watches == t.watches
            && rk in r.value.runs && r.value.runs[rk].status == RunRunning
            && r.value.runs[rk].owner == owner == r.value.runs[rk].idempotency
  {
    hide ValidStart;
    var rk := RunKey(wk, RunId(wk, owner));
    if rk in t.runs {
      SameTail(wk.watch, owner, t.runs[rk].owner);
      assert rk in RunsByIdempotency(t, wk, owner);
    } else {
      forall x | x in t.runs && x.watch == wk
        ensures t.runs[x].idempotency != owner
      {
        assert t.runs[x].idempotency == owner ==> x == rk;
      }
      assert RunsByIdempotency(t, wk, owner) == {};
    }
  }

  /** Under a live lease a start answers with the token's own open run. */
  lemma LiveLeaseStarts(t: Tables, wk: WatchKey, owner: string, now: int, t': Tables, r: Result<RunKey, StoreError>)
    requires CloudShaped(t) && OpenUnder(t, wk, owner) && HoldsLease(t, wk, owner, now)
    requires ValidStart(StartOf(wk, owner, now)) && StartAnswers(t, StartOf(wk, owner, now), t', r)
    ensures r == Ok(RunKey(wk, RunId(wk, owner))) && t'.watches == t.watches
    ensures r.value in t'.runs && t'.runs[r.value].status == RunRunning && t'.runs[r.value].owner == owner
  {
    hide ValidStart, OpenUnder, RunId;
    LiveLeaseInserts(t, wk, owner, now);
    ShapedStep(t, OpStart(StartOf(wk, owner, now)));
    var rk := RunKey(wk, RunId(wk, owner));
    assert rk in RunsByIdempotency(t', wk, owner);
    assert forall x | x in RunsByIdempotency(t', wk, owner) :: x == rk;
  }

  lemma SameTail(watch: string, a: string, b: string)
    requires watch + ":" + a == watch + ":" + b
    ensures a == b
  {
    assert a == (watch + ":" + a)[|watch| + 1..];
    assert b == (watch + ":" + b)[|watch| + 1..];
  }

  /** A start whose insert and reload are separate statements, with other operations between them. */
  ghost predicate StartsApart(t: Tables, req: StartWatchRun, loading: seq<Op>, r: Result<RunKey, StoreError>) {
    match StartRun(t, req)
    case Err(e) => r == Err(e)
    case Ok(u) => LoadAnswers(Exec(u, loading), req, r)
  }

  /** The reload finds the token's own run wherever it happens under the lease. */
  lemma ReloadFindsRun(
    t: Tables, clock: int, loading: seq<Op>, wk: WatchKey, owner: string, now: int, r: Result<RunKey, StoreError>)
    requires CloudShaped(t) && OpenUnder(t, wk, owner) && HoldsLease(t, wk, owner, now)
    requires ValidStart(StartOf(wk, owner, now)) && StartsApart(t, StartOf(wk, owner, now), loading, r)
    requires Timed(clock, loading) && CloudOps(loading) && Leases.LeaveAlone(loading, wk, owner)
    requires HoldsLease(t, wk, owner, EndClock(clock, loading))
    ensures var u := Exec(Apply(t, OpStart(StartOf(wk, owner, now))), loading);
            && r == Ok(RunKey(wk, RunId(wk, owner))) && r.value in u.runs
            && u.runs[r.value].status == RunRunning && u.runs[r.value].owner == owner
            && wk in u.watches && u.watches[wk] == t.watches[wk]
  {
    hide ValidStart, RunId, Exec, OpenUnder;
    var start := StartOf(wk, owner, now);
    var rk := RunKey(wk, RunId(wk, owner));
    var t' := Apply(t, OpStart(start));
    ShapedStep(t, OpStart(start));
    LiveLeaseInserts(t, wk, owner, now);
    var u := Exec(t', loading);
    ShapedRun(t', loading);
    Leases.LiveLeaseStands(t', clock, loading, wk, owner);
    assert rk in RunsByIdempotency(u, wk, owner);
    assert forall x | x in RunsByIdempotency(u, wk, owner) :: x == rk;
  }

  /**
   * A queued message commits: with any operations of other workers before its claim, between claim
   * and start, within the start, and between start and completion, its start answers with its own
   * open run and a completion within the lease passes the gate. It fails, at the start, exactly when
   * the id is too long.
   */
  lemma ClaimedMessageCommits(
    clock: int, before: seq<Op>, claim: ClaimDueWatch, wk: WatchKey, between: seq<Op>, startedAt: int,
    loading: seq<Op>, r: Result<RunKey, StoreError>, after: seq<Op>, done: CompleteWatchRun)
    requires Timed(clock, before) && CloudOps(before) && FreshClaims({}, before + [OpClaim(claim)])
    requires ClaimWatch(Exec(EMPTY, before), claim).1 == Some(wk)
    requires var c := Leases.AfterClaim(clock, before, claim);
             Timed(c, between) && CloudOps(between) && Leases.LeaveAlone(between, wk, claim.owner)
    requires startedAt < claim.now + claim.leaseSeconds
    requires StartsApart(Exec(Apply(Exec(EMPTY, before), OpClaim(claim)), between), StartOf(wk, claim.owner, startedAt), loading, r)
    requires var c := EndClock(Leases.AfterClaim(clock, before, claim), between);
             && Timed(c, loading) && CloudOps(loading) && Leases.LeaveAlone(loading, wk, claim.owner)
             && Timed(EndClock(c, loading), after) && Leases.LeaveAlone(after, wk, claim.owner)
             && EndClock(EndClock(c, loading), after) <= done.finishedAt < claim.now + claim.leaseSeconds
    requires done.watch == wk && done.owner == claim.owner && done.run == RunId(wk, claim.owner)
    ensures var s := Exec(Apply(Exec(EMPTY, before), OpClaim(claim)), between);
            var u := Exec(Apply(s, OpStart(StartOf(wk, claim.owner, startedAt))), loading);
            if |done.run| > MAX_ID_LENGTH then r == Err(Validation)
            else
              && r == Ok(RunKey(wk, done.run)) && r.value in u.runs && u.runs[r.value].status == RunRunning
              && CommitGate(Exec(u, after), done)
  {
    hide Sound, CloudShaped, OpenUnder, TokensSound, TokensIssued, ValidId, ValidTenant, Exec, FreshClaims, RunId;
    var t0 := Exec(EMPTY, before);
    var t := Apply(t0, OpClaim(claim));
    var c := Leases.AfterClaim(clock, before, claim);
    FreshHistory(clock, before, claim, wk);
    Leases.ClaimGrants(t0, claim, wk);
    ShapedStep(t0, OpClaim(claim));
    var s := Exec(t, between);
    var c1 := EndClock(c, between);
    var c2 := EndClock(c1, loading);
    Leases.ClockGrows(c1, loading);
    Leases.ClockGrows(c2, after);
    ShapedRun(t, between);
    OpenStays(t, between, wk, claim.owner);
    Leases.LiveLeaseStands(t, c, between, wk, claim.owner);
    IdLength(wk, claim.owner);
    StartIsValid(wk, claim.owner, startedAt);
    if |done.run| <= MAX_ID_LENGTH {
      ReloadFindsRun(s, c1, loading, wk, claim.owner, startedAt, r);
      var u := Exec(Apply(s, OpStart(StartOf(wk, claim.owner, startedAt))), loading);
      Leases.LiveLeaseStands(u, c2, after, wk, claim.owner);
    }
  }

  lemma IdLength(wk: WatchKey, owner: string)
    ensures |RunId(wk, owner)| == |wk.watch| + 1 + |owner|
  {
  }

  /** A fresh token has no run of its own yet. */
  lemma FreshHistory(clock: int, before: seq<Op>, claim: ClaimDueWatch, wk: WatchKey)
    requires Timed(clock, before) && CloudOps(before) && FreshClaims({}, before + [OpClaim(claim)])
    ensures CloudShaped(Exec(EMPTY, before)) && ReferencesSound(Exec(EMPTY, before))
    ensures OpenUnder(Apply(Exec(EMPTY, before), OpClaim(claim)), wk, claim.owner)
  {
    hide ReferencesSound, SchedulingSound, KeysSound, CloudShaped, TokensIssued, OpenUnder, Exec;
    var ops := before + [OpClaim(claim)];
    assert ops[..|before|] == before && ops[|before|..] == [OpClaim(claim)];
    FreshSplit({}, ops, |before|);
    NothingShaped();
    ShapedRun(EMPTY, before);
    IssuedRun(EMPTY, {}, before);
    SoundRun(EMPTY, clock, before);
    NoRunYet(Exec(EMPTY, before), UsedAfter({}, before), claim, wk);
  }

  lemma NothingShaped()
    ensures CloudShaped(EMPTY) && TokensIssued(EMPTY, {}) && TokensSound(EMPTY, {})
  {
  }

  lemma NoRunYet(t: Tables, used: set<string>, claim: ClaimDueWatch, wk: WatchKey)
    requires CloudShaped(t) && TokensIssued(t, used) && claim.owner !in used
    ensures OpenUnder(Apply(t, OpClaim(claim)), wk, claim.owner)
  {
    assert RunsByIdempotency(Apply(t, OpClaim(claim)), wk, claim.owner) == {};
  }
}
