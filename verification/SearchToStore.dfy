/** Where the engine meets the stores: what a lenient search returns is what makes the two stores interchangeable. */
module SearchToStore {
  import opened Wrappers
  import opened Records
  import opened Dedupe
  import opened RoundRobin
  import opened StoreModel
  import opened Protocol
  import BulkJson
  import Plan
  import Driver = SearchDriver
  import S = SqliteCompletion
  import D = D1Completion
  import Refinement = CompletionRefinement

  predicate ValidEvents(events: seq<WorkerEvent>) {
    forall e | e in events :: e.Found? ==> ValidSourceId(e.record.source)
  }

  predicate ValidTasks(tasks: seq<Task>) {
    forall i | 0 <= i < |tasks| :: ValidEvents(tasks[i].events)
  }

  lemma TurnKeepsValid(r: Round, maxActive: nat)
    requires RoundOk(r) && !Done(r) && maxActive > 0
    requires ValidTasks(r.pending) && ValidTasks(r.running)
    ensures ValidTasks(Turn(r, maxActive).1.pending) && ValidTasks(Turn(r, maxActive).1.running)
    ensures ValidEvents(Listed(Turn(r, maxActive).0))
  {
    var u := Refill(r, maxActive);
    assert ValidTasks(u.running) && ValidTasks(u.pending);
    var events := u.running[u.cursor].events;
    if events != [] {
      assert events[0] in events && forall e | e in events[1..] :: e in events;
    }
  }

  /** The merge invents no events. */
  lemma {:induction false} OrderIsValid(r: Round, maxActive: nat)
    requires RoundOk(r) && maxActive > 0
    requires ValidTasks(r.pending) && ValidTasks(r.running)
    ensures ValidEvents(Order(r, maxActive))
    decreases RoundSize(r)
  {
    if !Done(r) {
      TurnKeepsValid(r, maxActive);
      OrderIsValid(Turn(r, maxActive).1, maxActive);
    }
  }

  lemma {:induction false} RecordsAreValid(events: seq<WorkerEvent>)
    requires ValidEvents(events)
    ensures forall r :: r in RecordsOf(events) ==> ValidSourceId(r.source)
  {
    if events != [] {
      assert events[0] in events && forall e | e in events[1..] :: e in events;
      RecordsAreValid(events[1..]);
    }
  }

  /** The records a search hands to a completion have pairwise distinct identities. */
  lemma SearchRecordsAreDistinct(
    sources: seq<Plan.CatalogSource>, selected: seq<string>, maxActiveSources: nat, eventsOf: string -> seq<WorkerEvent>)
    requires forall id :: ValidEvents(eventsOf(id))
    ensures DistinctIdentities(EmittedRecords(Driver.Reference(sources, selected, false, maxActiveSources, eventsOf)))
  {
    var plan := Plan.PlanSearch(sources, selected);
    var r := Round(Driver.PlannedTasks(plan.pending, eventsOf), [], 0);
    var limit := Driver.Limit(maxActiveSources);
    Driver.LenientRecords(sources, selected, maxActiveSources, eventsOf);
    OrderIsValid(r, limit);
    RecordsAreValid(Order(r, limit));
    KeptAreDistinct(RecordsOf(Order(r, limit)));
  }

  /**
   * In every reachable state, whatever the sources say and whatever rows the D1 engine picks,
   * completing a run with what a search returned has the same effect on D1 as on SQLite if and only
   * if the records' JSON text is short enough for D1, or neither store accepts the request.
   */
  lemma SearchedCompletionsAgree(
    sources: seq<Plan.CatalogSource>, selected: seq<string>, maxActiveSources: nat, eventsOf: string -> seq<WorkerEvent>,
    clock: int, ops: seq<Op>, req: CompleteWatchRun, picks: D.Picks)
    requires forall id :: ValidEvents(eventsOf(id))
    requires Timed(clock, ops) && EndClock(clock, ops) <= req.finishedAt
    requires req.records == EmittedRecords(Driver.Reference(sources, selected, false, maxActiveSources, eventsOf))
    requires D.LegalPicks(req.records, picks)
    ensures Refinement.SameEffect(D.Complete(Exec(EMPTY, ops), req, picks), S.Complete(Exec(EMPTY, ops), req))
            <==> (ValidCompletion(req) ==> BulkJson.Fits(req.records))
  {
    hide Exec, Driver.Reference, D.LegalPicks, D.Complete, S.Complete, ValidCompletion, BulkJson.Fits, ValidEvents, Refinement.SameEffect;
    SearchRecordsAreDistinct(sources, selected, maxActiveSources, eventsOf);
    DistinctIsConsistent(req.records);
    ReachableStoresAgree(clock, ops, req);
    if ValidCompletion(req) && !BulkJson.Fits(req.records) {
      Refinement.OversizeDiverges(Exec(EMPTY, ops), req, picks);
    }
  }
}
