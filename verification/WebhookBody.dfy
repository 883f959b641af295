/** The body of a webhook request: the queued payload as JSON text, and the limit on its length. */
module WebhookBody {
  import opened Wrappers
  import opened JsonText
  import opened Records
  import opened StoreModel
  import Decimal

  const MAX_WEBHOOK_BYTES: nat := 1_048_576

  /** A record as sources emit it and webhooks carry it; metadata is an object, not a string. */
  function RecordJson(r: Record): string {
    Render(RecordHead(r)) + Nullable(r.text) + Render(RecordTail(r)) + r.metadata.json + "}"
  }

  function RecordHead(r: Record): seq<Part> {
    [Fixed("{\"id\":"), Str(r.id), Fixed(",\"source\":"), Str(r.source), Fixed(",\"kind\":"), Str(r.kind),
     Fixed(",\"url\":"), Str(r.url), Fixed(",\"title\":"), Maybe(r.title), Fixed(",\"text\":")]
  }

  function RecordTail(r: Record): seq<Part> {
    [Fixed(",\"author\":"), Maybe(r.author), Fixed(",\"created_at\":"), Maybe(r.createdAt),
     Fixed(",\"updated_at\":"), Maybe(r.updatedAt), Fixed(",\"metadata\":")]
  }

  /** The text of a record loses nothing. */
  lemma TextTellsRecord(r: Record, q: Record)
    requires RecordJson(r) == RecordJson(q)
    ensures r.source == q.source && r.id == q.id && r.kind == q.kind && r.url == q.url && r.title == q.title && r.text == q.text
    ensures r.author == q.author && r.createdAt == q.createdAt && r.updatedAt == q.updatedAt && r.metadata.json == q.metadata.json
  {
    hide Render, Nullable, RecordHead, RecordTail;
    var x := Render(RecordTail(r)) + (r.metadata.json + "}");
    var y := Render(RecordTail(q)) + (q.metadata.json + "}");
    assert RecordJson(r) == Render(RecordHead(r)) + (Nullable(r.text) + x);
    assert RecordJson(q) == Render(RecordHead(q)) + (Nullable(q.text) + y);
    HeadSplits(r, q, Nullable(r.text) + x, Nullable(q.text) + y);
    PieceSplits(Maybe(r.text), Maybe(q.text), x, y);
    TailSplits(r, q, r.metadata.json + "}", q.metadata.json + "}");
    assert (r.metadata.json + "}")[..|r.metadata.json|] == r.metadata.json;
  }

  lemma HeadSplits(r: Record, q: Record, x: string, y: string)
    requires Render(RecordHead(r)) + x == Render(RecordHead(q)) + y
    ensures x == y && r.id == q.id && r.source == q.source && r.kind == q.kind && r.url == q.url && r.title == q.title
  {
    hide Render;
    var a, b := RecordHead(r), RecordHead(q);
    RenderSplits(a, b, x, y);
    assert a[1] == b[1] && a[3] == b[3] && a[5] == b[5] && a[7] == b[7] && a[9] == b[9];
  }

  lemma TailSplits(r: Record, q: Record, x: string, y: string)
    requires Render(RecordTail(r)) + x == Render(RecordTail(q)) + y
    ensures x == y && r.author == q.author && r.createdAt == q.createdAt && r.updatedAt == q.updatedAt
  {
    hide Render;
    var a, b := RecordTail(r), RecordTail(q);
    RenderSplits(a, b, x, y);
    assert a[1] == b[1] && a[3] == b[3] && a[5] == b[5];
  }

  function Head(p: Payload): string {
    "{\"type\":\"comsat.watch.records_observed\",\"tenant_id\":" + Quote(p.watch.tenant)
    + ",\"watch_id\":" + Quote(p.watch.watch) + ",\"run_id\":" + Quote(p.run)
    + ",\"observed_at_epoch_seconds\":" + Decimal.Render(p.observedAt) + ",\"records\":["
  }

  const TAIL := "]}"

  function Listed(list: seq<Record>): string {
    if list == [] then [] else RecordJson(list[0]) + (if |list| > 1 then "," + Listed(list[1..]) else [])
  }

  /** The body with the records in some order. */
  function Body(p: Payload, list: seq<Record>): string { Head(p) + Listed(list) + TAIL }

  /** The records' own bytes, which no order changes. */
  ghost function RecordsBytes(rs: set<Record>): nat {
    if rs == {} then 0 else
    var r :| r in rs;
    Bytes(RecordJson(r)) + RecordsBytes(rs - {r})
  }

  ghost function BodyBytes(p: Payload): nat {
    Bytes(Head(p)) + RecordsBytes(p.records) + (if p.records == {} then 0 else |p.records| - 1) + Bytes(TAIL)
  }

  ghost predicate Fits(p: Payload) { BodyBytes(p) <= MAX_WEBHOOK_BYTES }

  lemma {:induction false} RecordsBytesSplit(rs: set<Record>, r: Record)
    requires r in rs
    ensures RecordsBytes(rs) == Bytes(RecordJson(r)) + RecordsBytes(rs - {r})
    decreases |rs|
  {
    hide Bytes, RecordJson;
    var q :| q in rs && RecordsBytes(rs) == Bytes(RecordJson(q)) + RecordsBytes(rs - {q});
    if q != r {
      RecordsBytesSplit(rs - {q}, r);
      RecordsBytesSplit(rs - {r}, q);
      assert rs - {q} - {r} == rs - {r} - {q};
    }
  }

  lemma {:induction false} ListedBytes(list: seq<Record>, rs: set<Record>)
    requires (set r | r in list) == rs && |list| == |rs|
    ensures Bytes(Listed(list)) == RecordsBytes(rs) + (if rs == {} then 0 else |rs| - 1)
    decreases |list|
  {
    hide Bytes, RecordJson;
    if list == [] {
      assert rs == {};
      NoBytes();
    } else {
      var first := list[0];
      var rest := list[1..];
      assert list == [first] + rest;
      var others := set r | r in rest;
      assert rs == others + {first};
      FewerThanListed(rest);
      assert first in others ==> rs == others;
      assert others == rs - {first};
      RecordsBytesSplit(rs, first);
      ListedBytes(rest, others);
      if |list| > 1 {
        CommaBytes();
        BytesConcat(",", Listed(rest));
        BytesConcat(RecordJson(first), "," + Listed(rest));
      } else {
        assert rest == [];
        BytesConcat(RecordJson(first), []);
        NoBytes();
      }
    }
  }

  lemma NoBytes()
    ensures Bytes([]) == 0
  {
  }

  lemma CommaBytes()
    ensures Bytes(",") == 1
  {
  }

  lemma {:induction false} FewerThanListed(list: seq<Record>)
    ensures |set r | r in list| <= |list|
  {
    if list != [] {
      FewerThanListed(list[1..]);
      var rest := set r | r in list[1..];
      assert (set r | r in list) == rest + {list[0]};
    }
  }

  /** Whatever the order of its records, the body's text has this length. */
  lemma BodyHasBytes(p: Payload, list: seq<Record>)
    requires (set r | r in list) == p.records && |list| == |p.records|
    ensures Bytes(Body(p, list)) == BodyBytes(p)
  {
    hide Bytes, Head, RecordJson;
    ListedBytes(list, p.records);
    BytesConcat(Head(p), Listed(list));
    BytesConcat(Head(p) + Listed(list), TAIL);
  }

  /** A payload fits when its body, written in any order, is at most one mebibyte long. */
  lemma FitsIsExact(p: Payload, list: seq<Record>)
    requires (set r | r in list) == p.records && |list| == |p.records|
    ensures Fits(p) <==> Bytes(Body(p, list)) <= 1024 * 1024
  {
    BodyHasBytes(p, list);
  }

  /** The length of the body the sender builds. */
  method Measure(p: Payload) returns (bytes: nat)
    ensures bytes == BodyBytes(p)
  {
    hide Bytes, Head, RecordJson;
    bytes := Bytes(Head(p)) + Bytes(TAIL) + (if p.records == {} then 0 else |p.records| - 1);
    var rest := p.records;
    while rest != {}
      invariant bytes + RecordsBytes(rest) == BodyBytes(p)
      decreases |rest|
    {
      var r :| r in rest;
      RecordsBytesSplit(rest, r);
      bytes := bytes + Bytes(RecordJson(r));
      rest := rest - {r};
    }
  }
}
