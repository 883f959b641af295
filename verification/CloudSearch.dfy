/**
 * A cloud search end to end: every source keeps its budget, the merge keeps every record, and yet
 * what five sources may return together is more than one D1 completion can carry.
 */
module CloudSearch {
  import opened Wrappers
  import opened Records
  import opened Dedupe
  import opened RoundRobin
  import BulkJson
  import Driver = SearchDriver
  import JsonText
  import Ordering
  import Plan
  import SourceWorker
  import WebhookBody

  const CLOUD_MAX_BYTES_PER_SOURCE: nat := 245_760
  const MAX_RECORDS_PER_SOURCE: nat := 1_000
  const MAX_ACTIVE_SOURCES: nat := 4
  const LARGEST_WORD: nat := 0xFFFF_FFFF

  function CloudLimits(): SourceWorker.Limits {
    SourceWorker.Limits(MAX_RECORDS_PER_SOURCE, CLOUD_MAX_BYTES_PER_SOURCE, LARGEST_WORD)
  }

  // ------------------------------------------------- the merge loses nothing

  predicate Held(tasks: seq<Task>, e: WorkerEvent) { exists i | 0 <= i < |tasks| :: e in tasks[i].events }

  predicate Holds(r: Round, e: WorkerEvent) { Held(r.pending, e) || Held(r.running, e) }

  lemma RefillHolds(r: Round, maxActive: nat, e: WorkerEvent)
    requires RoundOk(r)
    ensures Holds(Refill(r, maxActive), e) <==> Holds(r, e)
  {
    hide Size, RoundSize;
    var u := Refill(r, maxActive);
    RefillPrefix(r, maxActive);
    var all := r.running + r.pending;
    assert all == u.running + u.pending;
    HeldConcat(r.running, r.pending, e);
    HeldConcat(u.running, u.pending, e);
  }

  lemma HeldConcat(a: seq<Task>, b: seq<Task>, e: WorkerEvent)
    ensures Held(a + b, e) <==> Held(a, e) || Held(b, e)
  {
    if Held(a, e) {
      var i :| 0 <= i < |a| && e in a[i].events;
      assert (a + b)[i] == a[i];
    }
    if Held(b, e) {
      var i :| 0 <= i < |b| && e in b[i].events;
      assert (a + b)[|a| + i] == b[i];
    }
  }

  lemma ServeHolds(u: Round, e: WorkerEvent)
    requires RoundOk(u) && u.running != []
    ensures Holds(u, e) <==> Serve(u).0 == Some(e) || Holds(Serve(u).1, e)
  {
    hide Size, RoundSize, Held;
    var c := u.cursor;
    var v := Serve(u).1;
    HeldAround(u.running, c, e);
    if u.running[c].events == [] {
      HeldConcat(u.running[..c], u.running[c + 1..], e);
    } else {
      HeldAround(v.running, c, e);
      assert v.running[..c] == u.running[..c] && v.running[c + 1..] == u.running[c + 1..];
      assert u.running[c].events == [u.running[c].events[0]] + v.running[c].events;
    }
  }

  lemma HeldAround(tasks: seq<Task>, c: nat, e: WorkerEvent)
    requires c < |tasks|
    ensures Held(tasks, e) <==> Held(tasks[..c], e) || e in tasks[c].events || Held(tasks[c + 1..], e)
  {
    assert tasks == tasks[..c] + ([tasks[c]] + tasks[c + 1..]);
    HeldConcat(tasks[..c], [tasks[c]] + tasks[c + 1..], e);
    HeldConcat([tasks[c]], tasks[c + 1..], e);
    assert Held([tasks[c]], e) <==> e in tasks[c].events by {
      assert [tasks[c]][0] == tasks[c];
    }
  }

  /** Every event of every source is taken, and no other. */
  lemma {:induction false} OrderIsComplete(r: Round, maxActive: nat, e: WorkerEvent)
    requires RoundOk(r) && maxActive > 0
    ensures e in Order(r, maxActive) <==> Holds(r, e)
    decreases RoundSize(r)
  {
    hide Refill, Serve, Holds;
    if Done(r) {
      NothingHeld(r, e);
    } else {
      var u := Refill(r, maxActive);
      RefillHolds(r, maxActive, e);
      ServeHolds(u, e);
      OrderIsComplete(Serve(u).1, maxActive, e);
    }
  }

  lemma NothingHeld(r: Round, e: WorkerEvent)
    requires Done(r)
    ensures !Holds(r, e)
  {
  }

  lemma {:induction false} RecordsOfMeans(events: seq<WorkerEvent>, r: Record)
    ensures r in RecordsOf(events) <==> exists e | e in events :: e.Found? && e.record == r
  {
    if events != [] {
      RecordsOfMeans(events[1..], r);
      assert events == [events[0]] + events[1..];
    }
  }

  /** Records without common keys are all kept. */
  lemma {:induction false} UnsharedIsKept(seen: set<string>, rs: seq<Record>, r: Record)
    requires r in rs && KeySet(r) !! seen
    requires forall q | q in rs :: q == r || KeySet(q) !! KeySet(r)
    ensures r in Kept(seen, rs)
    decreases |rs|
  {
    hide KeySet;
    if rs[0] != r {
      var rest := rs[1..];
      assert rs == [rs[0]] + rest;
      UnsharedIsKept(if KeySet(rs[0]) !! seen then seen + KeySet(rs[0]) else seen, rest, r);
    }
  }

  // ------------------------------------------------------ five long records

  const TEXT_LENGTH: nat := 220_000

  function LongText(): string { seq(TEXT_LENGTH, _ => 'a') }

  function LongRecord(id: string): Record {
    Record(id, "1", "post", "https://example.com/" + id, None, Some(LongText()), None, None, None, Metadata("{}", None, None))
  }

  function ItemOf(r: Record): SourceWorker.Item {
    SourceWorker.Item(JsonText.Bytes(WebhookBody.RecordJson(r)), Some(r), true)
  }

  /** What a source that emits one long record sends within the cloud's limits. */
  function EventsOf(id: string): seq<WorkerEvent> {
    SourceWorker.WorkerOutput(
      id, CloudLimits(), [ItemOf(LongRecord(id))], SourceWorker.Finished(SourceWorker.Array([])), true)
  }

  lemma LongTextBytes()
    ensures |LongText()| == TEXT_LENGTH == JsonText.Bytes(JsonText.Escape(LongText()))
  {
    JsonText.PlainBytes(LongText());
  }

  lemma QuotedTextBytes()
    ensures JsonText.Bytes(JsonText.Quote(LongText())) <= TEXT_LENGTH + 8
  {
    hide LongText, JsonText.Escape;
    LongTextBytes();
    var inner := JsonText.Escape(LongText());
    JsonText.BytesConcat("\"", inner);
    JsonText.BytesConcat("\"" + inner, "\"");
    JsonText.BytesBound("\"");
  }

  lemma HeadBytes(id: string)
    requires |id| == 1
    ensures JsonText.Bytes(JsonText.Render(WebhookBody.RecordHead(LongRecord(id)))) <= 10_000
    ensures JsonText.Bytes(JsonText.Render(WebhookBody.RecordTail(LongRecord(id))) + "{}" + "}") <= 10_000
  {
    hide JsonText.Quote, JsonText.Bytes, JsonText.Render, LongText;
    var r := LongRecord(id);
    JsonText.QuoteBound(r.id);
    JsonText.QuoteBound(r.source);
    JsonText.QuoteBound(r.kind);
    JsonText.QuoteBound(r.url);
    JsonText.RenderBound(WebhookBody.RecordHead(r), 200);
    JsonText.RenderBound(WebhookBody.RecordTail(r), 200);
    JsonText.BytesBound(JsonText.Render(WebhookBody.RecordHead(r)));
    JsonText.BytesBound(JsonText.Render(WebhookBody.RecordTail(r)) + "{}" + "}");
  }

  /** A long record alone stays within one source's budget. */
  lemma LongRecordIsAffordable(id: string)
    requires |id| == 1
    ensures 0 < ItemOf(LongRecord(id)).size <= CLOUD_MAX_BYTES_PER_SOURCE
  {
    hide WebhookBody.RecordHead, WebhookBody.RecordTail, JsonText.Quote, JsonText.Render, LongText;
    var r := LongRecord(id);
    HeadBytes(id);
    QuotedTextBytes();
    var head, text := JsonText.Render(WebhookBody.RecordHead(r)), JsonText.Quote(LongText());
    var tail := JsonText.Render(WebhookBody.RecordTail(r)) + "{}" + "}";
    assert WebhookBody.RecordJson(r) == head + text + tail;
    JsonText.BytesConcat(head, text);
    JsonText.BytesConcat(head + text, tail);
    JsonText.BytesBound(text);
    TextIsThere();
  }

  lemma TextIsThere()
    ensures |JsonText.Quote(LongText())| >= 2
  {
  }

  lemma WorkerSendsIt(id: string)
    requires |id| == 1
    ensures EventsOf(id) == [Found(id, LongRecord(id))]
  {
    hide LongRecord, ItemOf;
    LongRecordIsAffordable(id);
    var item := ItemOf(LongRecord(id));
    ItemHasRecord(id);
    var items := [item];
    assert items[..0] == [] && SourceWorker.Total([]) == 0;
    assert SourceWorker.Total(items) == item.size;
    assert SourceWorker.Reason(CloudLimits(), items).None?;
    assert items[..SourceWorker.Admitted(CloudLimits(), items)] == items;
    assert SourceWorker.Delivered(id, []) == [];
    assert SourceWorker.Delivered(id, items) == [Found(id, LongRecord(id))];
  }

  lemma ItemHasRecord(id: string)
    ensures ItemOf(LongRecord(id)).record == Some(LongRecord(id)) && ItemOf(LongRecord(id)).accepted
  {
  }

  const FIVE: seq<string> := ["a", "b", "c", "d", "e"]

  function Catalog(): seq<Plan.CatalogSource> { seq(5, i requires 0 <= i < 5 => Plan.CatalogSource(FIVE[i], true)) }

  lemma LongRecordsShareNothing(a: string, b: string)
    requires a in FIVE && b in FIVE && a != b
    ensures KeySet(LongRecord(a)) !! KeySet(LongRecord(b))
  {
    hide KeySet, LongText;
    var r, q := LongRecord(a), LongRecord(b);
    assert r.url[20..] == a && q.url[20..] == b;
    CollideIffShareMeaning(r, q);
  }

  lemma PlanHasFive(id: string)
    ensures id in Plan.PlanSearch(Catalog(), []).pending <==> id in FIVE
  {
    Plan.PlanMeans(Catalog(), []);
    Plan.IndexHasAllIds(Catalog());
    if id in FIVE {
      var i :| 0 <= i < 5 && FIVE[i] == id;
      assert Plan.Ids(Catalog())[i] == id;
      assert Plan.ById(Catalog())[id] in Catalog();
    } else {
      assert id !in Plan.Ids(Catalog());
    }
  }

  /** The records all sources hand over in one lenient search of the five. */
  function Merged(): seq<Record> {
    RecordsOf(Order(Round(Driver.PlannedTasks(Plan.PlanSearch(Catalog(), []).pending, EventsOf), [], 0), MAX_ACTIVE_SOURCES))
  }

  lemma MergedHasFive(r: Record)
    ensures r in Merged() <==> exists id | id in FIVE :: r == LongRecord(id)
  {
    hide Order, Plan.PlanSearch, LongRecord, EventsOf, Holds;
    var pending := Plan.PlanSearch(Catalog(), []).pending;
    var start := Round(Driver.PlannedTasks(pending, EventsOf), [], 0);
    var events := Order(start, MAX_ACTIVE_SOURCES);
    RecordsOfMeans(events, r);
    if r in Merged() {
      var e :| e in events && e.Found? && e.record == r;
      OrderIsComplete(start, MAX_ACTIVE_SOURCES, e);
      var id := HeldByPlanned(pending, e);
      PlanHasFive(id);
      WorkerSendsIt(id);
    }
    forall id | id in FIVE && r == LongRecord(id)
      ensures r in Merged()
    {
      PlanHasFive(id);
      WorkerSendsIt(id);
      var e := Found(id, r);
      PlannedHolds(pending, id, e);
      OrderIsComplete(start, MAX_ACTIVE_SOURCES, e);
      assert e in events;
    }
  }

  lemma HeldByPlanned(pending: seq<string>, e: WorkerEvent) returns (id: string)
    requires Holds(Round(Driver.PlannedTasks(pending, EventsOf), [], 0), e)
    ensures id in pending && e in EventsOf(id)
  {
    hide EventsOf;
    var tasks := Driver.PlannedTasks(pending, EventsOf);
    var i :| 0 <= i < |tasks| && e in tasks[i].events;
    id := pending[i];
  }

  lemma PlannedHolds(pending: seq<string>, id: string, e: WorkerEvent)
    requires id in pending && e in EventsOf(id)
    ensures Holds(Round(Driver.PlannedTasks(pending, EventsOf), [], 0), e)
  {
    hide EventsOf;
    var i :| 0 <= i < |pending| && pending[i] == id;
    assert e in Driver.PlannedTasks(pending, EventsOf)[i].events;
  }

  function Returned(): seq<Record> {
    EmittedRecords(Driver.Reference(Catalog(), [], false, MAX_ACTIVE_SOURCES, EventsOf))
  }

  lemma ReturnedIsKept()
    ensures Returned() == Kept({}, Merged())
  {
    hide Order, Plan.PlanSearch, EventsOf, Driver.Reference, Catalog;
    Driver.LenientRecords(Catalog(), [], MAX_ACTIVE_SOURCES, EventsOf);
  }

  lemma AllFiveReturn(id: string)
    requires id in FIVE
    ensures LongRecord(id) in Returned()
  {
    hide Merged, Returned, LongRecord, KeySet;
    var r := LongRecord(id);
    MergedHasFive(r);
    forall q | q in Merged()
      ensures q == r || KeySet(q) !! KeySet(r)
    {
      MergedHasFive(q);
      var other :| other in FIVE && q == LongRecord(other);
      if other != id {
        LongRecordsShareNothing(other, id);
      }
    }
    UnsharedIsKept({}, Merged(), r);
    ReturnedIsKept();
  }

  lemma OnlyLongReturn(r: Record)
    requires r in Returned()
    ensures r.text.Some? && |r.text.value| == TEXT_LENGTH
  {
    hide Merged, Returned, LongText;
    ReturnedIsKept();
    KeptAreInputs({}, Merged());
    MergedHasFive(r);
    LongTextBytes();
  }

  lemma {:induction false} DistinctElements(xs: seq<Record>, ids: seq<string>)
    requires forall i, j | 0 <= i < j < |ids| :: ids[i] != ids[j]
    requires forall i | 0 <= i < |ids| :: LongRecord(ids[i]) in xs
    ensures |ids| <= |xs|
    decreases |ids|
  {
    hide LongText;
    if ids != [] {
      var last := ids[|ids| - 1];
      var i :| 0 <= i < |xs| && xs[i] == LongRecord(last);
      var rest := xs[..i] + xs[i + 1..];
      var front := ids[..|ids| - 1];
      forall j | 0 <= j < |front|
        ensures LongRecord(front[j]) in rest
      {
        var k :| 0 <= k < |xs| && xs[k] == LongRecord(front[j]);
        assert k != i;
        assert rest[if k < i then k else k - 1] == xs[k];
      }
      DistinctElements(rest, front);
    }
  }

  /**
   * Five sources, each within the cloud's byte budget, return together more than the records
   * parameter of a D1 completion may hold.
   */
  lemma CloudSearchesMayNotFit()
    ensures forall id :: id in FIVE ==>
              && |EventsOf(id)| == 1 && ItemOf(LongRecord(id)).size <= CLOUD_MAX_BYTES_PER_SOURCE
    ensures !BulkJson.Fits(Returned())
  {
    hide Returned, LongRecord, EventsOf, ItemOf, BulkJson.Fits;
    forall id | id in FIVE
      ensures |EventsOf(id)| == 1 && ItemOf(LongRecord(id)).size <= CLOUD_MAX_BYTES_PER_SOURCE
      ensures LongRecord(id) in Returned()
    {
      WorkerSendsIt(id);
      LongRecordIsAffordable(id);
      AllFiveReturn(id);
    }
    DistinctElements(Returned(), FIVE);
    forall r | r in Returned()
      ensures r.text.Some? && |r.text.value| == TEXT_LENGTH
    {
      OnlyLongReturn(r);
    }
    BulkJson.LongRecordsDoNotFit(Returned(), TEXT_LENGTH);
  }
}
