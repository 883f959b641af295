/**
 * One source worker: a sink that meters what the source emits, and the single failure it may report.
 * What it sends is the longest prefix of the emitted data that gives no reason to refuse.
 */
module SourceWorker {
  import opened Wrappers
  import opened Records
  import opened RoundRobin
  import opened Metrics

  /** The two budgets, and the largest machine word, at which the counters saturate. */
  datatype Limits = Limits(maxRecords: nat, maxBytes: nat, word: nat)

  predicate Representable(l: Limits) { 4 <= l.word && l.maxRecords <= l.word && l.maxBytes <= l.word }

  /**
   * One emitted JSON value: its serialized length, the record it holds if it parses and validates,
   * and whether the channel accepts it before the worker is cancelled.
   */
  datatype Item = Item(size: nat, record: Option<Record>, accepted: bool)

  /** A byte vector is never longer than the largest signed word, which is half the largest word. */
  predicate SizedItem(i: Item, word: nat) { 0 < i.size <= word / 2 }

  predicate Sized(items: seq<Item>, word: nat) {
    forall i | i in items :: SizedItem(i, word)
  }

  datatype FinalData = Array(items: seq<Item>) | Single(item: Item)

  datatype ToolOutcome = Finished(data: FinalData) | ToolError(kind: string, message: string)

  datatype Refusal = TooManyRecords | TooManyBytes | InvalidRecord

  function Diagnose(source: string, refusal: Refusal): Diagnostic {
    match refusal
    case TooManyRecords => Diagnostic(source, "unsupported", "source record budget exceeded", None)
    case TooManyBytes => Diagnostic(source, "unsupported", "source byte budget exceeded", None)
    case InvalidRecord => Diagnostic(source, "protocol", "source emitted invalid record data", None)
  }

  // --------------------------------------------------------------- reference

  function Total(items: seq<Item>): nat {
    if items == [] then 0 else Total(items[..|items| - 1]) + items[|items| - 1].size
  }

  /** Why a worker that was given these items fails, if it does. A budget of a whole machine word is never exceeded. */
  function Reason(l: Limits, items: seq<Item>): Option<Refusal> {
    if l.maxBytes < l.word && Total(items) > l.maxBytes then Some(TooManyBytes)
    else if l.maxRecords < l.word && |items| > l.maxRecords then Some(TooManyRecords)
    else if exists i | i in items :: i.record.None? then Some(InvalidRecord)
    else None
  }

  /** The length of the longest prefix without a reason to refuse it. */
  function Admitted(l: Limits, items: seq<Item>): (k: nat)
    ensures k <= |items|
    ensures Reason(l, items[..k]).None?
    ensures k == |items| <==> Reason(l, items).None?
  {
    if Reason(l, items).None? then
      assert items[..|items|] == items;
      |items|
    else
      assert items != [] by { if items == [] { assert Total(items) == 0; } }
      var k := Admitted(l, items[..|items| - 1]);
      assert items[..|items| - 1][..k] == items[..k];
      k
  }

  function Delivered(source: string, items: seq<Item>): seq<WorkerEvent> {
    if items == [] then []
    else
      var last := items[|items| - 1];
      Delivered(source, items[..|items| - 1])
      + (if last.record.Some? && last.accepted then [Found(source, last.record.value)] else [])
  }

  lemma {:induction false} TotalGrows(items: seq<Item>, k: nat)
    requires k <= |items|
    ensures Total(items[..k]) <= Total(items)
    decreases |items|
  {
    if k == |items| {
      assert items[..k] == items;
    } else {
      var shorter := items[..|items| - 1];
      TotalGrows(shorter, k);
      assert shorter[..k] == items[..k];
    }
  }

  /** Once there is a reason there always is one. */
  lemma ReasonsStay(l: Limits, items: seq<Item>, k: nat)
    requires k <= |items| && Reason(l, items[..k]).Some?
    ensures Reason(l, items).Some?
  {
    TotalGrows(items, k);
    assert forall i | i in items[..k] :: i in items;
  }

  /** Nothing longer than the admitted prefix is free of reasons. */
  lemma AdmittedIsLongest(l: Limits, items: seq<Item>, k: nat)
    requires k <= |items| && Reason(l, items[..k]).None?
    ensures k <= Admitted(l, items)
    decreases |items|
  {
    assert items[..|items|] == items;
    if k < |items| && Reason(l, items).Some? {
      assert items[..|items| - 1][..k] == items[..k];
      AdmittedIsLongest(l, items[..|items| - 1], k);
    }
  }

  // -------------------------------------------------------------------- sink

  function SaturatingAdd(a: nat, b: nat, word: nat): nat {
    if a + b > word then word else a + b
  }

  datatype Sink = Sink(records: nat, bytes: nat, error: Option<Refusal>, sent: seq<WorkerEvent>)

  const FRESH := Sink(0, 0, None, [])

  /** What a sink makes of the items it was given, through the reference. */
  ghost predicate Reflects(sink: Sink, source: string, l: Limits, items: seq<Item>) {
    && sink.records == SaturatingAdd(|items|, 0, l.word)
    && sink.bytes == SaturatingAdd(Total(items), 0, l.word)
    && sink.error == Reason(l, items)
    && sink.sent == Delivered(source, items[..Admitted(l, items)])
  }

  lemma FreshReflectsNothing(source: string, l: Limits)
    ensures Reflects(FRESH, source, l, [])
  {
    assert Total([]) == 0;
  }

  /** The budget check of one more item, on saturated counters, finds the reference's reason. */
  lemma OneMore(source: string, l: Limits, items: seq<Item>, item: Item)
    requires Representable(l) && 0 < item.size <= l.word
    ensures var more := items + [item];
            && Total(more) == Total(items) + item.size
            && (Reason(l, more).None? <==> Reason(l, items).None? && item.record.Some? && !Over(l, |more|, Total(more)).Some?)
            && (Over(l, |more|, Total(more)).Some? ==> Reason(l, more) == Over(l, |more|, Total(more)))
            && (Over(l, |more|, Total(more)).None? && Reason(l, items).Some? ==> Reason(l, more) == Reason(l, items))
            && (Over(l, |more|, Total(more)).None? && Reason(l, items).None? && item.record.None? ==>
                  Reason(l, more) == Some(InvalidRecord))
            && Admitted(l, more) == (if Reason(l, more).None? then |more| else Admitted(l, items))
  {
    var more := items + [item];
    assert more[..|items|] == items;
    assert forall i | i in items :: i in more;
    assert item in more;
    assert forall i | i in more :: i in items || i == item;
  }

  function Over(l: Limits, records: nat, bytes: nat): Option<Refusal> {
    if l.maxBytes < l.word && bytes > l.maxBytes then Some(TooManyBytes)
    else if l.maxRecords < l.word && records > l.maxRecords then Some(TooManyRecords)
    else None
  }

  class BudgetedSink {
    const source: string
    const limits: Limits
    var records: nat
    var bytes: nat
    var budgetError: Option<Refusal>
    /** The channel to the driver. */
    var sent: seq<WorkerEvent>

    function Contents(): Sink
      reads this
    {
      Sink(records, bytes, budgetError, sent)
    }

    constructor (source: string, limits: Limits)
      ensures this.source == source && this.limits == limits && Contents() == FRESH
    {
      this.source := source;
      this.limits := limits;
      records, bytes := 0, 0;
      budgetError := None;
      sent := [];
    }

    method Send(event: WorkerEvent, accepted: bool)
      modifies this`sent
      ensures sent == old(sent) + (if accepted then [event] else [])
    {
      if accepted {
        sent := sent + [event];
      }
    }

    /** Counts an item against both budgets. */
    method ApplyBudget(item: Item) returns (exceeded: bool)
      modifies this`records, this`bytes, this`budgetError
      ensures records == SaturatingAdd(old(records), 1, limits.word)
      ensures bytes == SaturatingAdd(old(bytes), item.size, limits.word)
      ensures budgetError == if bytes > limits.maxBytes then Some(TooManyBytes)
                             else if records > limits.maxRecords then Some(TooManyRecords)
                             else old(budgetError)
      ensures exceeded <==> budgetError.Some?
    {
      records := SaturatingAdd(records, 1, limits.word);
      bytes := SaturatingAdd(bytes, item.size, limits.word);
      if records > limits.maxRecords {
        budgetError := Some(TooManyRecords);
      }
      if bytes > limits.maxBytes {
        budgetError := Some(TooManyBytes);
      }
      exceeded := budgetError.Some?;
    }

    method EmitRecordValue(item: Item, ghost items: seq<Item>)
      requires Representable(limits) && SizedItem(item, limits.word)
      requires Reflects(Contents(), source, limits, items)
      modifies this
      ensures Reflects(Contents(), source, limits, items + [item])
    {
      OneMore(source, limits, items, item);
      ghost var more := items + [item];
      assert more[..|items|] == items && more[..|more|] == more;
      assert more[..Admitted(limits, items)] == items[..Admitted(limits, items)];
      var exceeded := ApplyBudget(item);
      if exceeded {
        return;
      }
      match item.record {
        case Some(record) =>
          Send(Found(source, record), item.accepted);
          assert items[..|items|] == items;
        case None =>
          budgetError := Some(InvalidRecord);
      }
    }

    /** The data of a finished call; an array is read up to the first refusal. */
    method EmitFinalData(data: FinalData)
      requires Representable(limits) && Sized(Everything(data), limits.word)
      requires Contents() == FRESH
      modifies this
      ensures Reflects(Contents(), source, limits, Given(limits, [], Finished(data)))
    {
      hide Reason, Total, Delivered, Admitted, SaturatingAdd;
      FreshReflectsNothing(source, limits);
      match data {
        case Array(items) =>
          for i := 0 to |items|
            invariant Reflects(Contents(), source, limits, items[..i])
            invariant budgetError.None?
          {
            assert items[i] in items;
            EmitRecordValue(items[i], items[..i]);
            assert items[..i] + [items[i]] == items[..i + 1];
            if budgetError.Some? {
              ReadUpToRefusal(limits, items, i);
              return;
            }
          }
          assert items[..|items|] == items;
        case Single(item) =>
          assert [] + [item] == [item];
          assert Reason(limits, [item]).Some? ==> [item][..Admitted(limits, [item]) + 1] == [item];
          EmitRecordValue(item, []);
      }
    }
  }

  lemma ReadUpToRefusal(l: Limits, items: seq<Item>, i: nat)
    requires i < |items| && Reason(l, items[..i]).None? && Reason(l, items[..i + 1]).Some?
    ensures Given(l, [], Finished(Array(items))) == items[..i + 1]
  {
    var k := Admitted(l, items);
    ReasonsStay(l, items, i + 1);
    AdmittedIsLongest(l, items, i);
    if k > i {
      assert items[..k][..i + 1] == items[..i + 1];
      ReasonsStay(l, items[..k], i + 1);
    }
  }

  function Everything(data: FinalData): seq<Item> {
    match data
    case Array(items) => items
    case Single(item) => [item]
  }

  /** The items a worker looks at: all chunks, or without any chunk the final data up to the first refusal. */
  function Given(l: Limits, chunks: seq<Item>, outcome: ToolOutcome): seq<Item> {
    if chunks != [] || outcome.ToolError? then chunks
    else
      var items := Everything(outcome.data);
      if Reason(l, items).None? then items else items[..Admitted(l, items) + 1]
  }

  // ------------------------------------------------------------------ worker

  /** The one failure of a worker: a refusal takes precedence over the tool's own error. */
  function FinalFailure(source: string, l: Limits, chunks: seq<Item>, outcome: ToolOutcome): Option<Diagnostic> {
    var reason := Reason(l, Given(l, chunks, outcome));
    if reason.Some? then Some(Diagnose(source, reason.value))
    else if outcome.ToolError? then Some(Diagnostic(source, outcome.kind, outcome.message, None))
    else None
  }

  function WorkerOutput(source: string, l: Limits, chunks: seq<Item>, outcome: ToolOutcome, accepted: bool): seq<WorkerEvent> {
    var items := Given(l, chunks, outcome);
    var failure := FinalFailure(source, l, chunks, outcome);
    Delivered(source, items[..Admitted(l, items)])
    + (if failure.Some? && accepted then [Failed(failure.value)] else [])
  }

  /** How the operation is counted. A refusal is never a rate limit. */
  function EndingOf(reason: Option<Refusal>, outcome: ToolOutcome): Ending {
    if reason.Some? then Failure(false)
    else match outcome
      case Finished(_) => Success
      case ToolError(kind, _) => if kind == "cancelled" then Cancelled else Failure(kind == "rate_limit")
  }

  function WorkerEnding(l: Limits, chunks: seq<Item>, outcome: ToolOutcome): Ending {
    EndingOf(Reason(l, Given(l, chunks, outcome)), outcome)
  }

  /** Uses the final data if no chunk was counted, then reports the failure and ends the guard. */
  method FinishStreamOutcome(
    metrics: EngineMetrics, guard: OperationGuard, sink: BudgetedSink, ghost chunks: seq<Item>,
    outcome: ToolOutcome, accepted: bool)
    requires metrics.Valid() && guard in metrics.open
    requires Representable(sink.limits)
    requires Reflects(sink.Contents(), sink.source, sink.limits, chunks)
    requires outcome.Finished? ==> Sized(Everything(outcome.data), sink.limits.word)
    modifies metrics, guard, sink
    ensures metrics.Valid() && metrics.open == old(metrics.open) - {guard}
    ensures sink.sent == WorkerOutput(sink.source, sink.limits, chunks, outcome, accepted)
    ensures metrics.counters == Counted(old(metrics.counters), guard.key, WorkerEnding(sink.limits, chunks, outcome))
  {
    hide Reason, Admitted, Delivered, Total;
    if sink.budgetError.None? && outcome.Finished? && sink.records == 0 {
      assert chunks == [];
      FreshReflectsNothing(sink.source, sink.limits);
      sink.EmitFinalData(outcome.data);
    }
    if sink.budgetError.Some? {
      var failure := Diagnose(sink.source, sink.budgetError.value);
      metrics.End(guard, Failure(failure.kind == "rate_limit"));
      sink.Send(Failed(failure), accepted);
      return;
    }
    match outcome {
      case Finished(_) =>
        metrics.End(guard, Success);
      case ToolError(kind, message) =>
        metrics.End(guard, if kind == "cancelled" then Cancelled else Failure(kind == "rate_limit"));
        sink.Send(Failed(Diagnostic(sink.source, kind, message, None)), accepted);
    }
  }

  /** A whole operation of one source. Its guard ends exactly once, in the way its output shows. */
  method RunSourceOperation(
    metrics: EngineMetrics, source: string, operation: Operation, limits: Limits,
    chunks: seq<Item>, outcome: ToolOutcome, accepted: bool)
    returns (sent: seq<WorkerEvent>)
    requires metrics.Valid()
    requires Representable(limits) && Sized(chunks, limits.word)
    requires outcome.Finished? ==> Sized(Everything(outcome.data), limits.word)
    modifies metrics
    ensures metrics.Valid() && metrics.open == old(metrics.open)
    ensures sent == WorkerOutput(source, limits, chunks, outcome, accepted)
    ensures metrics.counters == Counted(Requested(old(metrics.counters), Key(source, operation)), Key(source, operation),
                                        WorkerEnding(limits, chunks, outcome))
  {
    hide Reflects, WorkerOutput, WorkerEnding, Counted;
    var guard := metrics.Start(Key(source, operation));
    var sink := new BudgetedSink(source, limits);
    FreshReflectsNothing(source, limits);
    for i := 0 to |chunks|
      invariant metrics.Valid() && guard in metrics.open && metrics.open == old(metrics.open) + {guard}
      invariant metrics.counters == Requested(old(metrics.counters), Key(source, operation))
      invariant fresh(sink) && Reflects(sink.Contents(), source, limits, chunks[..i])
    {
      assert chunks[i] in chunks;
      sink.EmitRecordValue(chunks[i], chunks[..i]);
      assert chunks[..i] + [chunks[i]] == chunks[..i + 1];
    }
    assert chunks[..|chunks|] == chunks;
    FinishStreamOutcome(metrics, guard, sink, chunks, outcome, accepted);
    sent := sink.sent;
  }

  // ----------------------------------------------------------------- bounds

  lemma {:induction false} DeliveredRecords(source: string, items: seq<Item>)
    ensures |Delivered(source, items)| <= |items|
    ensures forall e :: e in Delivered(source, items) ==>
              e.Found? && e.source == source && exists i :: i in items && i.accepted && i.record == Some(e.record)
    decreases |items|
  {
    if items != [] {
      var shorter := items[..|items| - 1];
      DeliveredRecords(source, shorter);
      assert forall i | i in shorter :: i in items;
      assert items[|items| - 1] in items;
    }
  }

  /** Valid records first, then at most one failure with nothing after it. */
  lemma OutputShape(source: string, l: Limits, chunks: seq<Item>, outcome: ToolOutcome, accepted: bool)
    ensures var out := WorkerOutput(source, l, chunks, outcome, accepted);
            var items := Given(l, chunks, outcome);
            forall i :: 0 <= i < |out| ==>
              if out[i].Failed? then i == |out| - 1
              else i < Admitted(l, items) && exists x :: x in items && x.record == Some(out[i].record)
  {
    var items := Given(l, chunks, outcome);
    var k := Admitted(l, items);
    DeliveredRecords(source, items[..k]);
    assert forall x | x in items[..k] :: x in items;
    var out := WorkerOutput(source, l, chunks, outcome, accepted);
    var found := Delivered(source, items[..k]);
    forall i | 0 <= i < |out|
      ensures if out[i].Failed? then i == |out| - 1
              else i < k && exists x :: x in items && x.record == Some(out[i].record)
    {
      if i < |found| {
        assert out[i] == found[i] && found[i] in found;
      }
    }
  }

  /** The item at `i` is a record and, with those before it, within both budgets. */
  ghost predicate Passes(l: Limits, items: seq<Item>, i: nat)
    requires i < |items|
  {
    && items[i].record.Some?
    && (l.maxRecords < l.word ==> i < l.maxRecords)
    && (l.maxBytes < l.word ==> Total(items[..i + 1]) <= l.maxBytes)
  }

  /** The first item that does not pass is the one at `k`, if there is one. */
  ghost predicate StopsAt(l: Limits, items: seq<Item>, k: nat) {
    && k <= |items|
    && (forall i: nat | i < k :: Passes(l, items, i))
    && (k < |items| ==> !Passes(l, items, k))
  }

  lemma AdmittedStops(l: Limits, items: seq<Item>)
    ensures StopsAt(l, items, Admitted(l, items))
  {
    hide Reason, Total, Passes;
    var k := Admitted(l, items);
    forall i: nat | i < k
      ensures Passes(l, items, i)
    {
      UnrefusedSoFar(l, items, k, i);
    }
    if k < |items| {
      FirstRefused(l, items, k);
      RefusedHere(l, items, k);
    }
  }

  lemma FirstRefused(l: Limits, items: seq<Item>, k: nat)
    requires k == Admitted(l, items) < |items|
    ensures Reason(l, items[..k + 1]).Some?
  {
    hide Reason, Total;
    if Reason(l, items[..k + 1]).None? {
      AdmittedIsLongest(l, items, k + 1);
    }
  }

  lemma UnrefusedSoFar(l: Limits, items: seq<Item>, k: nat, i: nat)
    requires i < k <= |items| && Reason(l, items[..k]).None?
    ensures Passes(l, items, i)
  {
    hide Total;
    assert items[i] in items[..k];
    TotalGrows(items[..k], i + 1);
    assert items[..k][..i + 1] == items[..i + 1];
  }

  lemma RefusedHere(l: Limits, items: seq<Item>, k: nat)
    requires k < |items| && Reason(l, items[..k]).None? && Reason(l, items[..k + 1]).Some?
    ensures !Passes(l, items, k)
  {
    hide Total;
    assert forall i | i in items[..k + 1] :: i in items[..k] || i == items[k];
  }

  lemma {:induction false} AllDelivered(source: string, items: seq<Item>)
    requires forall i | 0 <= i < |items| :: items[i].record.Some? && items[i].accepted
    ensures |Delivered(source, items)| == |items|
    ensures forall i | 0 <= i < |items| :: Delivered(source, items)[i] == Found(source, items[i].record.value)
    decreases |items|
  {
    if items != [] {
      AllDelivered(source, items[..|items| - 1]);
    }
  }

  /** As long as its consumer listens, a worker sends every record up to the first refusal, in order. */
  lemma RecordsAreSent(source: string, l: Limits, chunks: seq<Item>, outcome: ToolOutcome)
    requires chunks != [] && forall i | 0 <= i < |chunks| :: chunks[i].accepted
    ensures var out := WorkerOutput(source, l, chunks, outcome, true);
            exists k: nat | StopsAt(l, chunks, k) && k <= |out| ::
              && (forall i | 0 <= i < k :: chunks[i].record.Some? && out[i] == Found(source, chunks[i].record.value))
              && |out| <= k + 1 && (|out| == k + 1 ==> out[k].Failed?)
  {
    hide Reason, Total, Delivered, Admitted;
    var k := Admitted(l, chunks);
    AdmittedStops(l, chunks);
    forall i | 0 <= i < k
      ensures chunks[i].record.Some?
    {
      assert Passes(l, chunks, i);
    }
    AllDelivered(source, chunks[..k]);
    assert chunks[..k][..k] == chunks[..k];
    var out := WorkerOutput(source, l, chunks, outcome, true);
    forall i | 0 <= i < k
      ensures chunks[i].record.Some? && out[i] == Found(source, chunks[i].record.value)
    {
      assert chunks[..k][i] == chunks[i];
    }
  }

  /** Some item is no valid record. */
  ghost predicate HasInvalid(items: seq<Item>) { exists i | 0 <= i < |items| :: items[i].record.None? }

  /**
   * The one failure of a streaming worker and how its operation is counted: a byte excess before a
   * count excess before malformed data before the tool's own error.
   */
  lemma FailureIsTold(source: string, l: Limits, chunks: seq<Item>, outcome: ToolOutcome)
    requires chunks != []
    ensures var out := WorkerOutput(source, l, chunks, outcome, true);
            var ending := WorkerEnding(l, chunks, outcome);
            if l.maxBytes < l.word && Total(chunks) > l.maxBytes then
              EndsIn(out, Diagnostic(source, "unsupported", "source byte budget exceeded", None)) && ending == Failure(false)
            else if l.maxRecords < l.word && |chunks| > l.maxRecords then
              EndsIn(out, Diagnostic(source, "unsupported", "source record budget exceeded", None)) && ending == Failure(false)
            else if HasInvalid(chunks) then
              EndsIn(out, Diagnostic(source, "protocol", "source emitted invalid record data", None)) && ending == Failure(false)
            else match outcome
              case ToolError(kind, message) =>
                && EndsIn(out, Diagnostic(source, kind, message, None))
                && ending == (if kind == "cancelled" then Cancelled else if kind == "rate_limit" then Failure(true) else Failure(false))
              case Finished(_) => (forall e | e in out :: e.Found?) && ending == Success
  {
    hide Reason, Total, WorkerOutput, WorkerEnding, EndsIn, HasInvalid;
    ReasonIsTold(source, l, chunks, outcome);
    ReasonIsFound(l, chunks);
  }

  lemma ReasonIsFound(l: Limits, chunks: seq<Item>)
    ensures Reason(l, chunks) ==
            if l.maxBytes < l.word && Total(chunks) > l.maxBytes then Some(TooManyBytes)
            else if l.maxRecords < l.word && |chunks| > l.maxRecords then Some(TooManyRecords)
            else if HasInvalid(chunks) then Some(InvalidRecord)
            else None
  {
    hide Total;
    if HasInvalid(chunks) {
      var i :| 0 <= i < |chunks| && chunks[i].record.None?;
      assert chunks[i] in chunks;
    }
  }

  lemma ReasonIsTold(source: string, l: Limits, chunks: seq<Item>, outcome: ToolOutcome)
    requires chunks != []
    ensures var out := WorkerOutput(source, l, chunks, outcome, true);
            var ending := WorkerEnding(l, chunks, outcome);
            match Reason(l, chunks)
            case Some(why) => EndsIn(out, Diagnose(source, why)) && ending == Failure(false)
            case None =>
              match outcome
              case ToolError(kind, message) =>
                && EndsIn(out, Diagnostic(source, kind, message, None))
                && ending == (if kind == "cancelled" then Cancelled else if kind == "rate_limit" then Failure(true) else Failure(false))
              case Finished(_) => (forall e | e in out :: e.Found?) && ending == Success
  {
    hide Reason, Total, Delivered, Admitted, Diagnose;
    DeliveredRecords(source, chunks[..Admitted(l, chunks)]);
  }

  ghost predicate EndsIn(out: seq<WorkerEvent>, d: Diagnostic) { out != [] && out[|out| - 1] == Failed(d) }

  lemma OneStop(l: Limits, items: seq<Item>, a: nat, b: nat)
    requires StopsAt(l, items, a) && StopsAt(l, items, b)
    ensures a == b
  {
    hide Passes;
  }

  /** A worker without chunks treats its final data as if it had been streamed, up to and with the first refused item. */
  lemma FinalDataIsStreamed(source: string, l: Limits, data: FinalData, k: nat, accepted: bool)
    requires Everything(data) != [] && StopsAt(l, Everything(data), k)
    ensures var items := Everything(data);
            var read := items[..if k < |items| then k + 1 else k];
            && WorkerOutput(source, l, [], Finished(data), accepted) == WorkerOutput(source, l, read, Finished(data), accepted)
            && WorkerEnding(l, [], Finished(data)) == WorkerEnding(l, read, Finished(data))
  {
    hide Total, Delivered, Passes, Reason, Admitted;
    var items := Everything(data);
    AdmittedStops(l, items);
    OneStop(l, items, k, Admitted(l, items));
    assert Given(l, [], Finished(data)) == items[..if k < |items| then k + 1 else k];
  }

  function Copies(n: nat, item: Item): seq<Item> { seq(n, _ => item) }

  lemma {:induction false} CountBelowTotal(items: seq<Item>, word: nat)
    requires Sized(items, word)
    ensures |items| <= Total(items)
    decreases |items|
  {
    if items != [] {
      var shorter := items[..|items| - 1];
      assert forall i | i in shorter :: i in items;
      assert items[|items| - 1] in items;
      CountBelowTotal(shorter, word);
    }
  }

  /** The record budget holds for every source exactly when one of the two budgets is below the largest word. */
  lemma RecordBudgetIsExact(l: Limits)
    requires Representable(l)
    ensures (forall items | Sized(items, l.word) :: Admitted(l, items) <= l.maxRecords)
            <==> l.maxRecords < l.word || l.maxBytes < l.word
  {
    if l.maxRecords < l.word || l.maxBytes < l.word {
      forall items | Sized(items, l.word)
        ensures Admitted(l, items) <= l.maxRecords
      {
        var taken := items[..Admitted(l, items)];
        assert forall i | i in taken :: i in items;
        CountBelowTotal(taken, l.word);
      }
    } else {
      var items := Copies(l.word + 1, Item(1, Some(Record("s", "i", "k", "u", None, None, None, None, None, Metadata("{}", None, None))), true));
      assert Sized(items, l.word) && Reason(l, items).None?;
      assert Admitted(l, items) > l.maxRecords;
    }
  }

  lemma TwoAreHalves(items: seq<Item>, word: nat)
    requires Sized(items, word) && |items| <= 2
    ensures Total(items) <= word
  {
    if items != [] {
      var shorter := items[..|items| - 1];
      assert items[|items| - 1] in items;
      if shorter != [] {
        assert shorter[0] in items && shorter[..0] == [] && Total([]) == 0;
      }
    }
  }

  /** The byte budget holds for every source exactly when it is below the largest word, or at most two records are allowed. */
  lemma ByteBudgetIsExact(l: Limits)
    requires Representable(l)
    ensures (forall items | Sized(items, l.word) :: Total(items[..Admitted(l, items)]) <= l.maxBytes)
            <==> l.maxBytes < l.word || l.maxRecords <= 2
  {
    if l.maxBytes < l.word || l.maxRecords <= 2 {
      forall items | Sized(items, l.word)
        ensures Total(items[..Admitted(l, items)]) <= l.maxBytes
      {
        var taken := items[..Admitted(l, items)];
        if l.maxBytes == l.word {
          assert forall i | i in taken :: i in items;
          TwoAreHalves(taken, l.word);
        }
      }
    } else {
      var half := l.word / 2;
      var big := Item(half, Some(Record("s", "i", "k", "u", None, None, None, None, None, Metadata("{}", None, None))), true);
      var items := [big, big, big];
      assert items[..2] == [big, big] && [big, big][..1] == [big] && [big][..0] == [] && Total([]) == 0;
      assert Total([big]) == half;
      assert Total([big, big]) == 2 * half;
      assert Total(items) == 3 * half;
      assert Sized(items, l.word) && Reason(l, items).None?;
      assert items[..Admitted(l, items)] == items;
    }
  }
}
