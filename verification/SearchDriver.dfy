/**
 * The search driver: worker queues, a cursor, deduplication and early stop, polled by its consumer.
 * Workers move at arbitrary speed; whatever they do, each poll hands over the next event of the
 * reference merge or nothing.
 */
module SearchDriver {
  import opened Wrappers
  import opened Dedupe
  import opened RoundRobin
  import opened MergeLog
  import Ordering
  import Plan

  /** A started source: events received but not taken, events its worker has yet to send, and the worker itself. */
  datatype RunningSource = RunningSource(id: string, queue: seq<WorkerEvent>, rest: seq<WorkerEvent>, live: bool)

  datatype PollResult = Ready(event: EngineEvent) | EndOfStream | Waiting

  datatype SourcePoll = Event(event: EngineEvent) | Advanced | SourcePending

  function AsTask(s: RunningSource): Task { Task(s.id, s.queue + s.rest) }

  function AsTasks(running: seq<RunningSource>): (tasks: seq<Task>)
    ensures |tasks| == |running|
  {
    seq(|running|, i requires 0 <= i < |running| => AsTask(running[i]))
  }

  lemma AsTasksConcat(a: seq<RunningSource>, b: seq<RunningSource>)
    ensures AsTasks(a + b) == AsTasks(a) + AsTasks(b)
  {
  }

  function Live(running: seq<RunningSource>): nat {
    if running == [] then 0 else (if running[0].live then 1 else 0) + Live(running[1..])
  }

  lemma {:induction false} LiveConcat(a: seq<RunningSource>, b: seq<RunningSource>)
    ensures Live(a + b) == Live(a) + Live(b)
  {
    if a == [] {
      assert a + b == b;
    } else {
      assert (a + b)[1..] == a[1..] + b;
      LiveConcat(a[1..], b);
    }
  }

  lemma LiveAround(s: seq<RunningSource>, c: nat)
    requires c < |s|
    ensures Live(s) == Live(s[..c]) + (if s[c].live then 1 else 0) + Live(s[c + 1..])
  {
    hide Live;
    var tail := s[c + 1..];
    assert s == s[..c] + ([s[c]] + tail);
    LiveConcat(s[..c], [s[c]] + tail);
    LiveConcat([s[c]], tail);
    LiveOne(s[c]);
  }

  lemma LiveOne(x: RunningSource)
    ensures Live([x]) == if x.live then 1 else 0
  {
  }

  lemma LiveUpdate(s: seq<RunningSource>, c: nat, x: RunningSource)
    requires c < |s|
    ensures Live(s[c := x]) == Live(s) - (if s[c].live then 1 else 0) + (if x.live then 1 else 0)
  {
    hide Live;
    LiveAround(s, c);
    LiveAround(s[c := x], c);
    assert s[c := x][..c] == s[..c] && s[c := x][c + 1..] == s[c + 1..];
  }

  lemma LiveRemove(s: seq<RunningSource>, c: nat)
    requires c < |s|
    ensures Live(s[..c] + s[c + 1..]) == Live(s) - (if s[c].live then 1 else 0)
  {
    hide Live;
    LiveAround(s, c);
    LiveConcat(s[..c], s[c + 1..]);
  }

  /** The diagnostics found while planning, as the events the driver starts with. */
  function Failures(initial: seq<WorkerEvent>): (r: seq<EngineEvent>)
    requires forall e | e in initial :: e.Failed?
    ensures forall i | 0 <= i < |r| :: r[i].SourceFailed?
  {
    if initial == [] then []
    else
      assert initial[0] in initial && forall e | e in initial[1..] :: e in initial;
      [SourceFailed(initial[0].diagnostic)] + Failures(initial[1..])
  }

  /** What the consumer will receive, given the planned diagnostics and the round of sources. */
  function Expected(initial: seq<WorkerEvent>, seen: set<string>, strict: bool, r: Round, maxActive: nat): seq<EngineEvent>
    requires forall e | e in initial :: e.Failed?
    requires RoundOk(r) && maxActive > 0
  {
    Failures(initial) + (if strict && initial != [] then [] else Emit(seen, strict, Order(r, maxActive)))
  }

  /** Once the planned diagnostics are out, what remains comes from the round. */
  lemma ExpectedAfterPlanning(strict: bool, r: Round, maxActive: nat)
    requires RoundOk(r) && maxActive > 0
    ensures Failures([]) == []
    ensures forall seen :: Expected([], seen, strict, r, maxActive) == Emit(seen, strict, Order(r, maxActive))
  {
    hide Order, Emit;
  }

  function NotFound(id: string): WorkerEvent {
    Failed(Diagnostic(id, "not-found", "source is not registered", None))
  }

  function InitialEvents(missing: seq<string>): (r: seq<WorkerEvent>)
    ensures forall e :: e in r ==> e.Failed?
  {
    seq(|missing|, i requires 0 <= i < |missing| => NotFound(missing[i]))
  }

  function PlannedTasks(ids: seq<string>, eventsOf: string -> seq<WorkerEvent>): seq<Task> {
    seq(|ids|, i requires 0 <= i < |ids| => Task(ids[i], eventsOf(ids[i])))
  }

  function Limit(maxActiveSources: nat): (n: nat)
    ensures n > 0
  {
    if maxActiveSources == 0 then 1 else maxActiveSources
  }

  /** The complete output of a search, as a function of what was asked for and what each source has to say. */
  function Reference(
    sources: seq<Plan.CatalogSource>, selected: seq<string>, strict: bool, maxActiveSources: nat,
    eventsOf: string -> seq<WorkerEvent>): seq<EngineEvent>
  {
    var plan := Plan.PlanSearch(sources, selected);
    Expected(InitialEvents(plan.missing), {}, strict,
             Round(PlannedTasks(plan.pending, eventsOf), [], 0), Limit(maxActiveSources))
  }

  lemma ServeFull(r: Round, maxActive: nat)
    requires RoundOk(r) && maxActive > 0 && r.running != []
    requires r.pending == [] || |r.running| >= maxActive
    ensures Order(r, maxActive) == Listed(Serve(r).0) + Order(Serve(r).1, maxActive)
  {
    assert Room(r, maxActive) == 0;
    assert r.pending[0..] == r.pending && r.running + r.pending[..0] == r.running;
    assert Refill(r, maxActive) == r;
  }

  /** The source at the cursor after its first queued event was taken. */
  function Shortened(s: RunningSource): RunningSource
    requires s.queue != []
  {
    s.(queue := s.queue[1..])
  }

  /** Taking an event is one service of the reference round. */
  lemma TakingServes(pending: seq<Task>, running: seq<RunningSource>, c: nat)
    requires c < |running| && running[c].queue != []
    ensures var next := running[c := Shortened(running[c])];
            Serve(Round(pending, AsTasks(running), c))
            == (Some(running[c].queue[0]), Round(pending, AsTasks(next), (c + 1) % |running|))
  {
    var s := running[c];
    var tasks := AsTasks(running);
    var next := running[c := Shortened(s)];
    assert tasks[c] == AsTask(s);
    assert tasks[c].events == s.queue + s.rest;
    assert tasks[c].events[1..] == s.queue[1..] + s.rest;
    assert AsTasks(next) == tasks[c := Task(tasks[c].id, tasks[c].events[1..])];
  }

  function Without(running: seq<RunningSource>, c: nat): seq<RunningSource>
    requires c < |running|
  {
    running[..c] + running[c + 1..]
  }

  /** A worker is gone only once all its events were received. */
  predicate Settled(running: seq<RunningSource>) {
    forall s | s in running :: !s.live ==> s.rest == []
  }

  lemma SettledNone()
    ensures Settled([])
  {
  }

  lemma SettledWithout(running: seq<RunningSource>, c: nat)
    requires c < |running| && Settled(running)
    ensures Settled(Without(running, c))
  {
    assert forall s | s in Without(running, c) :: s in running;
  }

  lemma SettledShortened(running: seq<RunningSource>, c: nat)
    requires c < |running| && running[c].queue != [] && Settled(running)
    ensures Settled(running[c := Shortened(running[c])])
  {
    assert running[c] in running;
    assert forall s | s in running[c := Shortened(running[c])] :: s == Shortened(running[c]) || s in running;
  }

  lemma SettledExtends(before: seq<RunningSource>, after: seq<RunningSource>)
    requires Settled(before) && before <= after && forall s | s in after[|before|..] :: s.live
    ensures Settled(after)
  {
    assert after == before + after[|before|..];
    assert forall s | s in after :: s in before || s in after[|before|..];
  }

  /** Removing a finished source is one service of the reference round. */
  lemma RemovingServes(pending: seq<Task>, running: seq<RunningSource>, c: nat)
    requires c < |running| && running[c].queue == [] && running[c].rest == []
    ensures var next := Without(running, c);
            Serve(Round(pending, AsTasks(running), c))
            == (None, Round(pending, AsTasks(next), if c >= |next| then 0 else c))
  {
    var tasks := AsTasks(running);
    assert tasks[c].events == [];
    assert AsTasks(Without(running, c)) == tasks[..c] + tasks[c + 1..];
  }

  /** Removing a finished source and starting others serves the round and changes nothing in the order. */
  lemma RemovalRefills(pending: seq<Task>, running: seq<RunningSource>, c: nat, maxActive: nat)
    requires c < |running| && running[c].queue == [] && running[c].rest == []
    requires maxActive > 0 && (pending == [] || |running| >= maxActive)
    ensures var rest := Without(running, c);
            var after := Round(pending, AsTasks(rest), if c >= |rest| then 0 else c);
            && RoundOk(after)
            && Order(Refill(after, maxActive), maxActive) == Order(Round(pending, AsTasks(running), c), maxActive)
            && RoundSize(Refill(after, maxActive)) < RoundSize(Round(pending, AsTasks(running), c))
            && (Refill(after, maxActive).running == [] ==> Refill(after, maxActive).pending == [])
  {
    hide Serve, Order, AsTasks;
    var rest := Without(running, c);
    var after := Round(pending, AsTasks(rest), if c >= |rest| then 0 else c);
    RemovingServes(pending, running, c);
    ServeFull(Round(pending, AsTasks(running), c), maxActive);
    RefillKeepsOrder(after, maxActive);
  }

  // -------------------------------------------------------------- counters

  /** Counters are kept for the sources of the catalog; others are ignored. */
  function NoRecords(sources: seq<Plan.CatalogSource>): map<string, nat> {
    map id | id in Plan.Ids(sources) :: 0
  }

  function Bumped(counters: map<string, nat>, source: string): map<string, nat> {
    if source in counters then counters[source := counters[source] + 1] else counters
  }

  /** One more for this source, if it is counted. */
  ghost predicate CountsOne(before: map<string, nat>, after: map<string, nat>, source: string) {
    after.Keys == before.Keys && forall s | s in before :: after[s] == before[s] + (if s == source then 1 else 0)
  }

  /** Of every source each record taken was emitted or dropped as a duplicate. */
  predicate Balanced(emitted: map<string, nat>, deduplicated: map<string, nat>, taken: map<string, nat>) {
    && emitted.Keys == deduplicated.Keys == taken.Keys
    && forall s | s in taken :: emitted[s] + deduplicated[s] == taken[s]
  }

  lemma BumpCounts(counters: map<string, nat>, source: string)
    ensures CountsOne(counters, Bumped(counters, source), source)
  {
  }

  lemma CountsBalance(
    emitted: map<string, nat>, deduplicated: map<string, nat>, taken: map<string, nat>,
    emitted': map<string, nat>, deduplicated': map<string, nat>, taken': map<string, nat>, source: string)
    requires Balanced(emitted, deduplicated, taken) && CountsOne(taken, taken', source)
    requires || (CountsOne(emitted, emitted', source) && deduplicated' == deduplicated)
             || (CountsOne(deduplicated, deduplicated', source) && emitted' == emitted)
    ensures Balanced(emitted', deduplicated', taken')
  {
  }

  /** Counting a record both as taken and as emitted or dropped keeps the balance. */
  lemma BumpsCount(emitted: map<string, nat>, deduplicated: map<string, nat>, taken: map<string, nat>, source: string)
    ensures CountsOne(emitted, Bumped(emitted, source), source) && CountsOne(deduplicated, Bumped(deduplicated, source), source)
    ensures Balanced(emitted, deduplicated, taken) ==>
              && Balanced(Bumped(emitted, source), deduplicated, Bumped(taken, source))
              && Balanced(emitted, Bumped(deduplicated, source), Bumped(taken, source))
  {
    hide Bumped, CountsOne, Balanced;
    BumpCounts(emitted, source);
    BumpCounts(deduplicated, source);
    BumpCounts(taken, source);
    if Balanced(emitted, deduplicated, taken) {
      CountsBalance(emitted, deduplicated, taken, Bumped(emitted, source), deduplicated, Bumped(taken, source), source);
      CountsBalance(emitted, deduplicated, taken, emitted, Bumped(deduplicated, source), Bumped(taken, source), source);
    }
  }

  // ------------------------------------------------------------------ logs

  /** A log of consecutive turns of the reference from its first round. */
  ghost predicate History(start: Round, maxActive: nat, log: seq<Service>)
    requires maxActive > 0
  {
    RoundOk(start) && DistinctIds(start) && |start.running| <= maxActive && log == Services(start, maxActive, |log|)
  }

  /** The driver stands where the logged turns lead, up to sources started early. */
  ghost predicate InStep(start: Round, maxActive: nat, log: seq<Service>, now: Round)
    requires maxActive > 0
  {
    RoundOk(start) && RoundOk(now) && Refill(now, maxActive) == Refill(After(start, maxActive, |log|), maxActive)
  }

  lemma FirstStep(start: Round, maxActive: nat)
    requires maxActive > 0 && RoundOk(start) && DistinctIds(start) && |start.running| <= maxActive
    ensures History(start, maxActive, []) && InStep(start, maxActive, [], start)
  {
  }

  lemma RefillStaysInStep(start: Round, maxActive: nat, log: seq<Service>, now: Round)
    requires maxActive > 0 && InStep(start, maxActive, log, now)
    ensures InStep(start, maxActive, log, Refill(now, maxActive))
  {
    hide Refill;
    RefillTwice(now, maxActive);
  }

  lemma NothingToRefill(r: Round, maxActive: nat)
    requires RoundOk(r)
    ensures Done(r) <==> Done(Refill(r, maxActive))
  {
    hide Size, RoundSize;
    RefillPrefix(r, maxActive);
  }

  /** What serving a full round adds to the log. */
  function Served(now: Round): Service
    requires RoundOk(now) && now.running != []
  {
    var task := now.running[now.cursor];
    Service(now.cursor, if task.events == [] then None else Some(task.id), Serve(now).0, Ids(now.running))
  }

  lemma ServingLogs(start: Round, maxActive: nat, log: seq<Service>, now: Round)
    requires maxActive > 0 && History(start, maxActive, log) && InStep(start, maxActive, log, now)
    requires now.running != [] && (now.pending == [] || |now.running| >= maxActive)
    ensures History(start, maxActive, log + [Served(now)])
    ensures InStep(start, maxActive, log + [Served(now)], Serve(now).1)
  {
    hide Services, After, Serve;
    assert Room(now, maxActive) == 0;
    assert now.pending[0..] == now.pending && now.running + now.pending[..0] == now.running;
    assert Refill(now, maxActive) == now;
    var r := After(start, maxActive, |log|);
    assert Refill(r, maxActive).running != [];
    assert !Done(r);
    ServicesSnoc(start, maxActive, |log|);
    assert ServiceOf(r, maxActive) == Served(now);
  }

  lemma HistoryIsFair(start: Round, maxActive: nat, log: seq<Service>)
    requires maxActive > 0 && History(start, maxActive, log)
    ensures Fair(log) && forall s :: s in log ==> |s.running| <= maxActive
  {
    hide Services, Fair, DistinctIds;
    ServicesAreFair(start, maxActive, |log|);
    ServicesAreBounded(start, maxActive, |log|);
  }

  lemma PlannedDistinct(sources: seq<Plan.CatalogSource>, selected: seq<string>, eventsOf: string -> seq<WorkerEvent>)
    ensures DistinctIds(Round(PlannedTasks(Plan.PlanSearch(sources, selected).pending, eventsOf), [], 0))
  {
    hide Plan.PlanSearch;
    var pending := Plan.PlanSearch(sources, selected).pending;
    Plan.PlanMeans(sources, selected);
    AscendingTasksDiffer(pending, eventsOf);
  }

  lemma PlannedIsTasks(tasks: seq<Task>, ids: seq<string>, eventsOf: string -> seq<WorkerEvent>)
    ensures Planned(tasks, ids, eventsOf) <==> tasks == PlannedTasks(ids, eventsOf)
  {
  }

  lemma NothingCounted(sources: seq<Plan.CatalogSource>)
    ensures var none := NoRecords(sources); Balanced(none, none, none)
  {
  }

  lemma AscendingTasksDiffer(pending: seq<string>, eventsOf: string -> seq<WorkerEvent>)
    requires forall i, j | 0 <= i < j < |pending| :: Ordering.Less(pending[i], pending[j])
    ensures DistinctIds(Round(PlannedTasks(pending, eventsOf), [], 0))
  {
    var all := [] + PlannedTasks(pending, eventsOf);
    forall i, j | 0 <= i < j < |all|
      ensures all[i].id != all[j].id
    {
      assert Ordering.Less(pending[i], pending[j]);
      Ordering.LessTrichotomy(pending[i], pending[j]);
    }
  }

  lemma EmitFirst(seen: set<string>, strict: bool, event: WorkerEvent, rest: seq<WorkerEvent>)
    ensures event.Failed? ==> Emit(seen, strict, [event] + rest)
                              == [SourceFailed(event.diagnostic)] + (if strict then [] else Emit(seen, strict, rest))
    ensures event.Found? && KeySet(event.record) !! seen ==>
              Emit(seen, strict, [event] + rest) == [Emitted(event.record)] + Emit(seen + KeySet(event.record), strict, rest)
    ensures event.Found? && !(KeySet(event.record) !! seen) ==>
              Emit(seen, strict, [event] + rest) == Emit(seen, strict, rest)
  {
    assert ([event] + rest)[1..] == rest;
  }

  class SearchDriver {
    var initial: seq<WorkerEvent>
    var pending: seq<Task>
    var running: seq<RunningSource>
    var stopping: bool
    var cursor: nat
    var emitted: map<string, nat>
    var deduplicated: map<string, nat>
    ghost var recordsTaken: map<string, nat>
    /** The round the search starts from, and what each service since then took. */
    ghost const start: Round
    ghost var log: seq<Service>
    const dedupe: DedupeSet
    const maxActive: nat
    const strict: bool

    ghost predicate Valid()
      reads this
    {
      && maxActive > 0
      && |running| <= maxActive
      && (stopping || cursor == 0 || cursor < |running|)
      && (forall e | e in initial :: e.Failed?)
      && Settled(running)
      && (running != [] ==> pending == [] || |running| >= maxActive)
      && (stopping ==> strict && pending == [] && running == [])
      && (strict && initial != [] ==> running == [])
      && Balanced(emitted, deduplicated, recordsTaken)
      && History(start, maxActive, log)
      && (!stopping ==> InStep(start, maxActive, log, Abstract()))
    }

    /** Nothing waits to be started while nothing runs. */
    predicate Started()
      reads this
    {
      running == [] ==> pending == []
    }

    function Abstract(): Round
      reads this
    {
      Round(pending, AsTasks(running), cursor)
    }

    /** Everything the consumer has yet to receive. */
    ghost function Remaining(): seq<EngineEvent>
      requires Valid()
      reads this, dedupe
    {
      if stopping then Failures(initial) else Expected(initial, dedupe.seen, strict, Abstract(), maxActive)
    }

    constructor (sources: seq<Plan.CatalogSource>, selected: seq<string>, strict: bool, maxActiveSources: nat,
                 ghost eventsOf: string -> seq<WorkerEvent>, tasks: seq<Task>)
      requires Planned(tasks, Plan.PlanSearch(sources, selected).pending, eventsOf)
      ensures Valid() && fresh(dedupe) && maxActive == Limit(maxActiveSources) && this.strict == strict
      ensures start == Round(tasks, [], 0)
      ensures Remaining() == Reference(sources, selected, strict, maxActiveSources, eventsOf)
      ensures log == []
    {
      hide History, InStep, DistinctIds, Order, Emit, Refill, Serve, Planned, PlannedTasks, Plan.PlanSearch, Expected, Failures,
           NotFound, NoRecords, Balanced, Settled;
      SettledNone();
      NothingCounted(sources);
      PlannedDistinct(sources, selected, eventsOf);
      PlannedIsTasks(tasks, Plan.PlanSearch(sources, selected).pending, eventsOf);
      FirstStep(Round(tasks, [], 0), Limit(maxActiveSources));
      var plan := Plan.PlanSearch(sources, selected);
      this.initial := InitialEvents(plan.missing);
      this.pending := tasks;
      this.running := [];
      this.stopping := false;
      this.cursor := 0;
      this.emitted := NoRecords(sources);
      this.deduplicated := NoRecords(sources);
      this.recordsTaken := NoRecords(sources);
      this.start := Round(tasks, [], 0);
      this.log := [];
      this.dedupe := new DedupeSet();
      this.maxActive := if maxActiveSources == 0 then 1 else maxActiveSources;
      this.strict := strict;
      new;
      assert AsTasks([]) == [];
    }

    method StartReadySources()
      requires maxActive > 0 && (stopping || cursor == 0 || cursor < |running|)
      modifies this`pending, this`running
      ensures stopping ==> pending == old(pending) && running == old(running)
      ensures !stopping ==> Abstract() == Refill(old(Abstract()), maxActive)
      ensures |pending| + Live(running) == old(|pending| + Live(running))
      ensures old(running) <= running
      ensures forall s | s in running[|old(running)|..] :: s.live
      ensures |old(running)| <= maxActive ==> |running| <= maxActive
    {
      ghost var k := 0;
      while !stopping && |running| < maxActive && pending != []
        invariant k <= |old(pending)| && pending == old(pending)[k..]
        invariant |running| == |old(running)| + k && old(running) <= running
        invariant AsTasks(running) == AsTasks(old(running)) + old(pending)[..k]
        invariant forall s | s in running[|old(running)|..] :: s.live
        invariant k > 0 ==> !stopping && |running| <= maxActive
        invariant |pending| + Live(running) == old(|pending| + Live(running))
        decreases |pending|
      {
        var task := pending[0];
        var source := RunningSource(task.id, [], task.events, true);
        LiveConcat(running, [source]);
        AsTasksConcat(running, [source]);
        assert AsTasks([source]) == [task] by { assert [] + task.events == task.events; }
        assert old(pending)[..k + 1] == old(pending)[..k] + [task];
        running := running + [source];
        pending := pending[1..];
        k := k + 1;
      }
    }

    /** Deduplicates a record; in strict mode a failure stops everything. */
    method MapEvent(event: WorkerEvent) returns (r: Option<EngineEvent>)
      modifies this`stopping, this`pending, this`running, this`emitted, this`deduplicated, this`recordsTaken, dedupe
      requires Balanced(emitted, deduplicated, recordsTaken)
      ensures Balanced(emitted, deduplicated, recordsTaken)
      ensures recordsTaken == if event.Found? then Bumped(old(recordsTaken), event.source) else old(recordsTaken)
      ensures emitted == if event.Found? && r.Some? then Bumped(old(emitted), event.source) else old(emitted)
      ensures event.Found? && r.Some? ==> CountsOne(old(emitted), emitted, event.source) && deduplicated == old(deduplicated)
      ensures event.Found? && r.None? ==> CountsOne(old(deduplicated), deduplicated, event.source) && emitted == old(emitted)
      ensures event.Failed? ==> emitted == old(emitted) && deduplicated == old(deduplicated)
      ensures match event
              case Found(_, record) =>
                && stopping == old(stopping) && pending == old(pending) && running == old(running)
                && (if KeySet(record) !! old(dedupe.seen)
                    then r == Some(Emitted(record)) && dedupe.seen == old(dedupe.seen) + KeySet(record)
                    else r == None && dedupe.seen == old(dedupe.seen))
              case Failed(d) =>
                && r == Some(SourceFailed(d)) && dedupe.seen == old(dedupe.seen)
                && (if strict then stopping && pending == [] && running == []
                    else stopping == old(stopping) && pending == old(pending) && running == old(running))
    {
      hide KeySet, Bumped, CountsOne, Balanced;
      match event {
        case Found(_, record) =>
          BumpsCount(emitted, deduplicated, recordsTaken, event.source);
          recordsTaken := Bumped(recordsTaken, event.source);
          var kept := dedupe.Insert(record);
          if kept {
            emitted := Bumped(emitted, event.source);
            r := Some(Emitted(record));
          } else {
            deduplicated := Bumped(deduplicated, event.source);
            r := None;
          }
        case Failed(d) =>
          if strict {
            stopping := true;
            pending := [];
            running := [];
          }
          r := Some(SourceFailed(d));
      }
    }

    method NextInitialEvent() returns (r: Option<EngineEvent>)
      requires Valid()
      modifies this, dedupe
      ensures Valid()
      ensures log == old(log)
      ensures r.Some? ==> old(Remaining()) == [r.value] + Remaining()
      ensures r.None? ==> initial == [] && old(initial) == [] && Abstract() == old(Abstract()) && running == old(running)
                          && stopping == old(stopping) && Remaining() == old(Remaining())
    {
      hide Order, Emit, Serve, Refill, AsTasks, History, InStep, Settled, KeySet, Balanced;
      SettledNone();
      if initial == [] {
        return None;
      }
      var event := initial[0];
      assert event in initial;
      assert forall e | e in initial[1..] :: e in initial;
      initial := initial[1..];
      r := MapEvent(event);
    }

    method NormalizeCursor()
      modifies this`cursor
      ensures cursor == if old(cursor) >= |running| then 0 else old(cursor)
    {
      if cursor >= |running| {
        cursor := 0;
      }
    }

    method AdvanceCursor()
      modifies this`cursor
      ensures cursor == if running == [] then old(cursor) else (old(cursor) + 1) % |running|
    {
      if running != [] {
        cursor := (cursor + 1) % |running|;
      }
    }

    /** Serves the source at the cursor: takes an event, removes a finished source, or waits for a live one. */
    method PollCurrentSource() returns (r: SourcePoll)
      requires Valid() && initial == [] && running != []
      modifies this, dedupe
      ensures Valid() && initial == []
      ensures log == old(log) + (if r.SourcePending? then [] else [Served(old(Abstract()))])
      ensures r.Event? ==> old(Remaining()) == [r.event] + Remaining()
      ensures r.Advanced? ==> Remaining() == old(Remaining()) && RoundSize(Abstract()) < RoundSize(old(Abstract()))
                              && |pending| + Live(running) == old(|pending| + Live(running)) && Started()
      ensures r.SourcePending? ==> running == old(running) && pending == old(pending) && cursor == old(cursor)
                                   && Remaining() == old(Remaining())
                                   && running[cursor].queue == [] && running[cursor].live
    {
      hide Order, Emit, Serve, Refill, History, InStep;
      NormalizeCursor();
      ServeFull(Abstract(), maxActive);
      var source := running[cursor];
      if source.queue != [] {
        r := ConsumeSourceEvent();
      } else if !source.live {
        assert source in running;
        RemoveCurrentSource();
        r := Advanced;
      } else {
        r := SourcePending;
      }
    }

    method ConsumeSourceEvent() returns (r: SourcePoll)
      requires Valid() && initial == [] && cursor < |running|
      requires running[cursor].queue != []
      requires Order(Abstract(), maxActive) == Listed(Serve(Abstract()).0) + Order(Serve(Abstract()).1, maxActive)
      modifies this, dedupe
      ensures Valid() && initial == []
      ensures log == old(log) + [Served(old(Abstract()))]
      ensures !r.SourcePending?
      ensures r.Event? ==> old(Remaining()) == [r.event] + Remaining()
      ensures r.Advanced? ==> Remaining() == old(Remaining()) && RoundSize(Abstract()) < RoundSize(old(Abstract()))
                              && |pending| + Live(running) == old(|pending| + Live(running)) && Started()
    {
      hide Order, Emit, Serve, Refill, History, InStep, Served, Settled, Live, AsTasks, RoundSize, KeySet, Expected, Failures, Balanced, Bumped;
      ghost var before := Abstract();
      ServingLogs(start, maxActive, log, before);
      ghost var after := Serve(before).1;
      ghost var seen := dedupe.seen;
      var source := running[cursor];
      var event := source.queue[0];
      TakingServes(pending, running, cursor);
      EmitFirst(seen, strict, event, Order(after, maxActive));
      ExpectedAfterPlanning(strict, before, maxActive);
      ExpectedAfterPlanning(strict, after, maxActive);
      assert Remaining() == Emit(seen, strict, [event] + Order(after, maxActive));
      LiveUpdate(running, cursor, Shortened(source));
      SettledShortened(running, cursor);
      SettledNone();
      running := running[cursor := Shortened(source)];
      log := log + [Served(before)];
      var mapped := MapEvent(event);
      AdvanceCursor();
      assert running != [] ==> Abstract() == after;
      r := if mapped.Some? then Event(mapped.value) else Advanced;
    }

    method RemoveCurrentSource()
      requires Valid() && initial == [] && cursor < |running|
      requires running[cursor].queue == [] && running[cursor].rest == [] && !running[cursor].live
      modifies this`running, this`pending, this`cursor, this`log
      ensures Valid()
      ensures log == old(log) + [Served(old(Abstract()))]
      ensures Remaining() == old(Remaining()) && RoundSize(Abstract()) < RoundSize(old(Abstract()))
      ensures |pending| + Live(running) == old(|pending| + Live(running)) && Started()
    {
      hide Order, Emit, Serve, Refill, Live, AsTasks, RoundSize, Settled, History, InStep, Served, Balanced;
      ghost var before := Abstract();
      ServingLogs(start, maxActive, log, before);
      log := log + [Served(before)];
      RemovingServes(pending, running, cursor);
      RefillStaysInStep(start, maxActive, log, Serve(before).1);
      RemovalRefills(pending, running, cursor, maxActive);
      LiveRemove(running, cursor);
      ghost var rest := Without(running, cursor);
      SettledWithout(running, cursor);
      running := running[..cursor] + running[cursor + 1..];
      NormalizeCursor();
      StartReadySources();
      SettledExtends(rest, running);
    }

    method PollOrderedSourceEvent() returns (r: Option<EngineEvent>)
      requires Valid() && initial == []
      modifies this, dedupe
      ensures Valid() && initial == [] && old(log) <= log
      ensures r.Some? ==> old(Remaining()) == [r.value] + Remaining()
      ensures r.None? ==> Remaining() == old(Remaining())
                          && |pending| + Live(running) == old(|pending| + Live(running))
                          && (running != [] ==> running[cursor].queue == [] && running[cursor].live)
                          && (old(Started()) ==> Started())
    {
      while running != []
        invariant Valid() && initial == [] && old(log) <= log
        invariant Remaining() == old(Remaining())
        invariant |pending| + Live(running) == old(|pending| + Live(running))
        invariant old(Started()) ==> Started()
        decreases RoundSize(Abstract())
      {
        var polled := PollCurrentSource();
        match polled {
          case Event(event) => return Some(event);
          case Advanced =>
          case SourcePending => return None;
        }
      }
      r := None;
    }

    method PollAvailableEvent() returns (r: Option<EngineEvent>)
      requires Valid()
      modifies this, dedupe
      ensures Valid() && old(log) <= log
      ensures r.Some? ==> old(Remaining()) == [r.value] + Remaining()
      ensures r.None? ==> Remaining() == old(Remaining()) && initial == []
                          && |pending| + Live(running) == old(|pending| + Live(running))
                          && (running != [] ==> running[cursor].queue == [] && running[cursor].live)
                          && (old(Started()) ==> Started())
    {
      r := NextInitialEvent();
      if r.None? {
        r := PollOrderedSourceEvent();
      }
    }

    /** Lets every live worker send any number of its events, and finish once it has none left. */
    method PollWorkers() returns (progressed: bool)
      requires Valid()
      modifies this`running
      ensures Valid() && Abstract() == old(Abstract())
      ensures Live(running) <= old(Live(running))
      ensures progressed ==> Live(running) < old(Live(running))
    {
      hide Order, Emit, Serve, Refill, History, InStep, Live;
      progressed := false;
      for i := 0 to |running|
        invariant |running| == |old(running)| && AsTasks(running) == AsTasks(old(running))
        invariant forall s | s in running :: !s.live ==> s.rest == []
        invariant Live(running) <= old(Live(running))
        invariant progressed ==> Live(running) < old(Live(running))
      {
        var source := running[i];
        if source.live {
          var sent: nat :| sent <= |source.rest|;
          var finishes: bool := *;
          var rest := source.rest[sent..];
          var after := RunningSource(source.id, source.queue + source.rest[..sent], rest, rest != [] || !finishes);
          assert AsTask(after) == AsTask(source) by {
            assert source.rest == source.rest[..sent] + rest;
            assert source.queue + source.rest == source.queue + source.rest[..sent] + rest;
          }
          LiveUpdate(running, i, after);
          ghost var was := running;
          running := running[i := after];
          assert forall s | s in running :: s == after || s in was;
          assert forall j | 0 <= j < |running| :: AsTask(running[j]) == AsTask(was[j]);
          if !after.live {
            progressed := true;
          }
        }
      }
    }

    /** Starts what may start, then gives every worker a turn. */
    method RunWorkers() returns (progressed: bool)
      requires Valid() && initial == []
      modifies this`pending, this`running
      ensures Valid() && Remaining() == old(Remaining())
      ensures |pending| + Live(running) <= old(|pending| + Live(running))
      ensures progressed ==> |pending| + Live(running) < old(|pending| + Live(running))
      ensures Started()
    {
      hide Order, Emit, Serve, Live, AsTasks, Refill, History, InStep;
      if !stopping {
        RefillKeepsOrder(Abstract(), maxActive);
        RefillStaysInStep(start, maxActive, log, Abstract());
      }
      ghost var was := running;
      StartReadySources();
      SettledExtends(was, running);
      progressed := PollWorkers();
    }

    /** One poll of the stream. */
    method PollNext() returns (r: PollResult)
      requires Valid()
      modifies this, dedupe
      ensures Valid() && old(log) <= log
      ensures r.Ready? ==> old(Remaining()) == [r.event] + Remaining()
      ensures r.EndOfStream? ==> old(Remaining()) == [] && Remaining() == []
                                 && initial == [] && running == [] && pending == []
      ensures r.Waiting? ==> Remaining() == old(Remaining())
                             && running != [] && running[cursor].queue == [] && running[cursor].live
    {
      hide Order, Emit, Serve, Refill, History, InStep, Settled, AsTasks, Live, Valid, Remaining, Abstract;
      while true
        invariant Valid() && Remaining() == old(Remaining()) && old(log) <= log
        decreases |pending| + Live(running)
      {
        var event := PollAvailableEvent();
        if event.Some? {
          return Ready(event.value);
        }
        var progressed := RunWorkers();
        event := PollAvailableEvent();
        if event.Some? {
          return Ready(event.value);
        }
        if !progressed {
          if initial == [] && running == [] && pending == [] {
            NothingRemains();
            return EndOfStream;
          }
          return Waiting;
        }
      }
    }

    /** Whatever the schedule, the driver serves two running sources alike and runs no more than it may. */
    lemma ServiceIsFair()
      requires Valid()
      ensures Fair(log) && forall s :: s in log ==> |s.running| <= maxActive
    {
      HistoryIsFair(start, maxActive, log);
    }

    /** The driver's log is the merge of the planned sources as far as it has come. */
    lemma LogIsLawful(ids: seq<string>, eventsOf: string -> seq<WorkerEvent>, tasks: seq<Task>)
      requires Valid() && Ordering.Ascending(ids) && Planned(tasks, ids, eventsOf) && start == Round(tasks, [], 0)
      ensures Lawful(ids, eventsOf, maxActive, log)
      ensures running == [] && pending == [] && !strict ==> forall id | id in ids :: HasEnded(log, id)
    {
      hide Services, After, Refill, Lawful, Stands, Planned, Fair, DistinctIds, HasEnded, Balanced, Settled;
      PlanIsFollowed(ids, eventsOf, maxActive, tasks, |log|);
      if running == [] && pending == [] && !strict {
        assert AsTasks(running) == [];
        var r := After(start, maxActive, |log|);
        NothingToRefill(Abstract(), maxActive);
        NothingToRefill(r, maxActive);
        MergeLog.NothingLeft(ids, eventsOf, maxActive, log, r);
      }
    }

    lemma NothingRemains()
      requires Valid() && initial == [] && running == [] && pending == []
      ensures Remaining() == []
    {
      assert AsTasks(running) == [];
    }
  }

  /**
   * A consumer that polls any number of times under any schedule: what it collects is a prefix of
   * the reference output, and all of it once the stream has ended. The driver's log of services is
   * fair to any two sources while both run.
   */
  method Collect(sources: seq<Plan.CatalogSource>, selected: seq<string>, strict: bool, maxActiveSources: nat,
                 ghost eventsOf: string -> seq<WorkerEvent>, tasks: seq<Task>, polls: nat)
    returns (events: seq<EngineEvent>, ended: bool, ghost log: seq<Service>)
    requires Planned(tasks, Plan.PlanSearch(sources, selected).pending, eventsOf)
    ensures events <= Reference(sources, selected, strict, maxActiveSources, eventsOf)
    ensures ended ==> events == Reference(sources, selected, strict, maxActiveSources, eventsOf)
    ensures Fair(log) && forall s :: s in log ==> |s.running| <= Limit(maxActiveSources)
    ensures var ids := Plan.PlanSearch(sources, selected).pending;
            && Lawful(ids, eventsOf, if maxActiveSources == 0 then 1 else maxActiveSources, log)
            && (ended && !strict ==> forall id | id in ids :: HasEnded(log, id))
  {
    hide *;
    var driver := new SearchDriver(sources, selected, strict, maxActiveSources, eventsOf, tasks);
    ghost var reference := Reference(sources, selected, strict, maxActiveSources, eventsOf);
    events := [];
    ended := false;
    var left := polls;
    while left > 0 && !ended
      invariant driver.Valid() && driver.maxActive == Limit(maxActiveSources) && fresh(driver) && fresh(driver.dedupe)
      invariant driver.strict == strict && driver.start == Round(tasks, [], 0)
      invariant ended ==> driver.running == [] && driver.pending == []
      invariant events + driver.Remaining() == reference
      invariant ended ==> driver.Remaining() == []
    {
      ghost var before := driver.Remaining();
      var polled := driver.PollNext();
      match polled {
        case Ready(event) =>
          assert events + before == (events + [event]) + driver.Remaining();
          events := events + [event];
        case EndOfStream =>
          ended := true;
        case Waiting =>
      }
      left := left - 1;
    }
    log := driver.log;
    driver.ServiceIsFair();
    PlanAscends(sources, selected);
    driver.LogIsLawful(Plan.PlanSearch(sources, selected).pending, eventsOf, tasks);
    LimitMeans(maxActiveSources);
  }

  lemma LimitMeans(maxActiveSources: nat)
    ensures Limit(maxActiveSources) == if maxActiveSources == 0 then 1 else maxActiveSources
  {
  }

  lemma PlanAscends(sources: seq<Plan.CatalogSource>, selected: seq<string>)
    ensures Ordering.Ascending(Plan.PlanSearch(sources, selected).pending)
  {
    hide Plan.PlanSearch;
    Plan.PlanMeans(sources, selected);
  }

  /** The output depends on the set of selected ids only. */
  lemma SelectionOrderIsIrrelevant(
    sources: seq<Plan.CatalogSource>, a: seq<string>, b: seq<string>, strict: bool, maxActiveSources: nat,
    eventsOf: string -> seq<WorkerEvent>)
    requires forall id :: id in a <==> id in b
    ensures Reference(sources, a, strict, maxActiveSources, eventsOf) == Reference(sources, b, strict, maxActiveSources, eventsOf)
  {
    Plan.PlanDependsOnTheSet(sources, a, b);
  }

  /**
   * A strict search reports just the unknown ids if there are any; otherwise it is the lenient
   * search cut right after its first failure.
   */
  lemma StrictReference(
    sources: seq<Plan.CatalogSource>, selected: seq<string>, maxActiveSources: nat,
    eventsOf: string -> seq<WorkerEvent>)
    ensures var missing := Plan.PlanSearch(sources, selected).missing;
            var strictOutput := Reference(sources, selected, true, maxActiveSources, eventsOf);
            if missing != [] then strictOutput == Failures(InitialEvents(missing))
            else strictOutput == CutAfterFailure(Reference(sources, selected, false, maxActiveSources, eventsOf))
  {
    var plan := Plan.PlanSearch(sources, selected);
    var r := Round(PlannedTasks(plan.pending, eventsOf), [], 0);
    ExpectedWhenStrict(InitialEvents(plan.missing), r, Limit(maxActiveSources));
  }

  /**
   * The complete output, told without rounds or tasks: the unknown ids in ascending order, and then,
   * unless that stops a strict search, what deduplication leaves of the events taken along a lawful
   * log that hears every planned source to its end.
   */
  lemma ReferenceIsTheMerge(
    sources: seq<Plan.CatalogSource>, selected: seq<string>, strict: bool, maxActiveSources: nat,
    eventsOf: string -> seq<WorkerEvent>) returns (log: seq<Service>)
    ensures var ids := Plan.PlanSearch(sources, selected).pending;
            && Lawful(ids, eventsOf, if maxActiveSources == 0 then 1 else maxActiveSources, log)
            && forall id | id in ids :: HasEnded(log, id)
    ensures var missing := Plan.PlanSearch(sources, selected).missing;
            var output := Reference(sources, selected, strict, maxActiveSources, eventsOf);
            && |missing| <= |output|
            && (forall i | 0 <= i < |missing| ::
                  output[i] == SourceFailed(Diagnostic(missing[i], "not-found", "source is not registered", None)))
            && output[|missing|..] == if strict && missing != [] then [] else Emit({}, strict, Taken(log))
  {
    hide Plan.PlanSearch, Lawful, Stands, Order, Services, After, Emit, Refill, HasEnded, RoundSize, Failures, Limit;
    var plan := Plan.PlanSearch(sources, selected);
    var tasks := PlannedTasks(plan.pending, eventsOf);
    var start := Round(tasks, [], 0);
    var maxActive := Limit(maxActiveSources);
    var n := RoundSize(start);
    log := Services(start, maxActive, n);
    LimitMeans(maxActiveSources);
    PlanAscends(sources, selected);
    PlanIsFollowed(plan.pending, eventsOf, maxActive, tasks, n);
    EnoughTurns(start, maxActive, n);
    MergeLog.NothingLeft(plan.pending, eventsOf, maxActive, log, After(start, maxActive, n));
    OrderIsLogged(start, maxActive, n);
    NothingOrdered(After(start, maxActive, n), maxActive);
    assert Order(start, maxActive) == Taken(log);
    FailuresAreListed(plan.missing);
  }

  lemma NothingOrdered(r: Round, maxActive: nat)
    requires RoundOk(r) && maxActive > 0 && Done(r)
    ensures Order(r, maxActive) == []
  {
  }

  lemma {:induction false} FailuresAreListed(missing: seq<string>)
    ensures var out := Failures(InitialEvents(missing));
            && |out| == |missing| && (missing == [] <==> InitialEvents(missing) == [])
            && forall i | 0 <= i < |missing| ::
                 out[i] == SourceFailed(Diagnostic(missing[i], "not-found", "source is not registered", None))
    decreases |missing|
  {
    if missing != [] {
      FailuresAreListed(missing[1..]);
      assert InitialEvents(missing)[1..] == InitialEvents(missing[1..]);
    }
  }

  lemma ExpectedWhenStrict(initial: seq<WorkerEvent>, r: Round, maxActive: nat)
    requires forall e | e in initial :: e.Failed?
    requires RoundOk(r) && maxActive > 0
    ensures if initial != [] then Expected(initial, {}, true, r, maxActive) == Failures(initial)
            else Expected(initial, {}, true, r, maxActive) == CutAfterFailure(Expected(initial, {}, false, r, maxActive))
  {
    var events := Order(r, maxActive);
    if initial == [] {
      StrictCutsLenient({}, events);
      assert [] + Emit({}, true, events) == Emit({}, true, events);
      assert [] + Emit({}, false, events) == Emit({}, false, events);
    }
  }

  lemma {:induction false} FailuresEmitNothing(failures: seq<EngineEvent>, rest: seq<EngineEvent>)
    requires forall i | 0 <= i < |failures| :: failures[i].SourceFailed?
    ensures EmittedRecords(failures + rest) == EmittedRecords(rest)
    decreases |failures|
  {
    hide EmittedRecords;
    if failures == [] {
      assert failures + rest == rest;
    } else {
      var all := failures + rest;
      var later := failures[1..];
      assert all[0] == failures[0] && all[1..] == later + rest;
      FailureEmitsNothing(all);
      FailuresEmitNothing(later, rest);
    }
  }

  lemma FailureEmitsNothing(events: seq<EngineEvent>)
    requires events != [] && events[0].SourceFailed?
    ensures EmittedRecords(events) == EmittedRecords(events[1..])
  {
  }

  /** The records of a lenient search are the greedy deduplication of all sources' records in round-robin order. */
  lemma LenientRecords(
    sources: seq<Plan.CatalogSource>, selected: seq<string>, maxActiveSources: nat,
    eventsOf: string -> seq<WorkerEvent>)
    ensures var plan := Plan.PlanSearch(sources, selected);
            var r := Round(PlannedTasks(plan.pending, eventsOf), [], 0);
            EmittedRecords(Reference(sources, selected, false, maxActiveSources, eventsOf))
            == Kept({}, RecordsOf(Order(r, Limit(maxActiveSources))))
  {
    var plan := Plan.PlanSearch(sources, selected);
    var r := Round(PlannedTasks(plan.pending, eventsOf), [], 0);
    var events := Order(r, Limit(maxActiveSources));
    FailuresEmitNothing(Failures(InitialEvents(plan.missing)), Emit({}, false, events));
    EmissionIsGreedy({}, events);
  }
}
