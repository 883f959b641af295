/** The JSON text in which a D1 completion carries its records, and the limit on its length. */
module BulkJson {
  import opened Wrappers
  import opened JsonText
  import opened Records

  const MAX_RECORDS_JSON_BYTES: nat := 1_048_576

  /** Metadata is embedded as a string, so its own JSON is escaped once more. */
  function BulkParts(r: Record): seq<Part> {
    [Fixed("{\"source_id\":"), Str(r.source), Fixed(",\"record_id\":"), Str(r.id), Fixed(",\"kind\":"), Str(r.kind),
     Fixed(",\"url\":"), Str(r.url), Fixed(",\"title\":"), Maybe(r.title), Fixed(",\"text\":"), Maybe(r.text),
     Fixed(",\"author\":"), Maybe(r.author), Fixed(",\"created_at\":"), Maybe(r.createdAt),
     Fixed(",\"updated_at\":"), Maybe(r.updatedAt), Fixed(",\"metadata_json\":"), Str(r.metadata.json), Fixed("}")]
  }

  function BulkRecord(r: Record): string { Render(BulkParts(r)) }

  function BulkRecords(rs: seq<Record>): string {
    if rs == [] then [] else BulkRecord(rs[0]) + (if |rs| > 1 then "," + BulkRecords(rs[1..]) else [])
  }

  function RecordsJson(rs: seq<Record>): string { "[" + BulkRecords(rs) + "]" }

  predicate Fits(rs: seq<Record>) { Bytes(RecordsJson(rs)) <= MAX_RECORDS_JSON_BYTES }

  /** Equal in every column the stores have. */
  ghost predicate SameColumns(r: Record, q: Record) {
    && r.source == q.source && r.id == q.id && r.kind == q.kind && r.url == q.url && r.title == q.title && r.text == q.text
    && r.author == q.author && r.createdAt == q.createdAt && r.updatedAt == q.updatedAt && r.metadata.json == q.metadata.json
  }

  lemma RecordSplits(r: Record, q: Record, x: string, y: string)
    requires BulkRecord(r) + x == BulkRecord(q) + y
    ensures SameColumns(r, q) && x == y
  {
    hide Render;
    var a, b := BulkParts(r), BulkParts(q);
    RenderSplits(a, b, x, y);
    assert a[1] == b[1] && a[3] == b[3] && a[5] == b[5] && a[7] == b[7] && a[9] == b[9];
    assert a[11] == b[11] && a[13] == b[13] && a[15] == b[15] && a[17] == b[17] && a[19] == b[19];
  }

  /** What follows the first record of a list, up to its end. */
  function Remainder(rs: seq<Record>): string
    requires rs != []
  {
    (if |rs| > 1 then "," + BulkRecords(rs[1..]) else []) + "]"
  }

  lemma RecordOpens(r: Record)
    ensures |BulkRecord(r)| > 0 && BulkRecord(r)[0] == '{'
  {
    hide Quote, Nullable;
    var parts := BulkParts(r);
    assert Render(parts) == Piece(parts[0]) + Render(parts[1..]);
    hide Render, BulkParts;
    assert parts[0] == Fixed("{\"source_id\":");
  }

  lemma RemainderOpens(rs: seq<Record>)
    requires rs != []
    ensures Remainder(rs)[0] == if |rs| > 1 then ',' else ']'
    ensures |rs| > 1 ==> Remainder(rs)[1..] == BulkRecords(rs[1..]) + "]"
  {
    hide BulkRecords;
  }

  lemma ListOpens(rs: seq<Record>)
    requires rs != []
    ensures BulkRecords(rs) + "]" == BulkRecord(rs[0]) + Remainder(rs)
    ensures (BulkRecord(rs[0]) + Remainder(rs))[0] == '{'
    ensures Remainder(rs)[0] == if |rs| > 1 then ',' else ']'
    ensures |rs| > 1 ==> Remainder(rs)[1..] == BulkRecords(rs[1..]) + "]"
  {
    hide BulkRecord, BulkRecords;
    var first := BulkRecord(rs[0]);
    var tail := if |rs| > 1 then "," + BulkRecords(rs[1..]) else [];
    ListUnfolds(rs);
    Regroup(first, tail);
    RecordOpens(rs[0]);
    RemainderOpens(rs);
  }

  lemma ListUnfolds(rs: seq<Record>)
    requires rs != []
    ensures BulkRecords(rs) == BulkRecord(rs[0]) + (if |rs| > 1 then "," + BulkRecords(rs[1..]) else [])
  {
    hide BulkRecord;
  }

  lemma Regroup(first: string, tail: string)
    ensures first + tail + "]" == first + (tail + "]")
  {
  }

  lemma {:induction false} ListSplits(rs: seq<Record>, qs: seq<Record>)
    requires BulkRecords(rs) + "]" == BulkRecords(qs) + "]"
    ensures |rs| == |qs| && forall i | 0 <= i < |rs| :: SameColumns(rs[i], qs[i])
    decreases |rs|
  {
    hide BulkRecord, SameColumns, Remainder;
    if rs != [] {
      ListOpens(rs);
    }
    if qs != [] {
      ListOpens(qs);
    }
    if rs != [] && qs != [] {
      RecordSplits(rs[0], qs[0], Remainder(rs), Remainder(qs));
      if |rs| > 1 {
        ListSplits(rs[1..], qs[1..]);
      }
    }
  }

  /** The parameter's text loses nothing: lists written alike have the same records in the same order. */
  lemma TextTellsRecords(rs: seq<Record>, qs: seq<Record>)
    requires RecordsJson(rs) == RecordsJson(qs)
    ensures |rs| == |qs| && forall i | 0 <= i < |rs| :: SameColumns(rs[i], qs[i])
  {
    hide BulkRecords;
    assert RecordsJson(rs)[1..] == BulkRecords(rs) + "]";
    assert RecordsJson(qs)[1..] == BulkRecords(qs) + "]";
    ListSplits(rs, qs);
  }

  lemma LongRecord(r: Record, n: nat)
    requires r.text.Some? && |r.text.value| >= n
    ensures Bytes(BulkRecord(r)) >= n
  {
    hide Escape, Render;
    var text := r.text.value;
    EscapeKeepsBytes(text);
    BytesInside("\"", Escape(text), "\"");
    assert BulkParts(r)[11] == Maybe(r.text);
    PieceInside(BulkParts(r), 11);
  }

  /** Records take at least the room of their texts. */
  lemma {:induction false} LongRecords(rs: seq<Record>, n: nat)
    requires forall r | r in rs :: r.text.Some? && |r.text.value| >= n
    ensures Bytes(BulkRecords(rs)) >= n * |rs|
  {
    hide BulkRecord, Bytes;
    if rs != [] {
      var rest := rs[1..];
      assert rs[0] in rs && forall r | r in rest :: r in rs;
      LongRecord(rs[0], n);
      LongRecords(rest, n);
      OneMore(n, |rest|);
      if |rs| > 1 {
        BytesConcat(",", BulkRecords(rest));
        BytesConcat(BulkRecord(rs[0]), "," + BulkRecords(rest));
      } else {
        assert BulkRecord(rs[0]) + [] == BulkRecord(rs[0]);
      }
    }
  }

  lemma OneMore(n: nat, m: nat)
    ensures n * (m + 1) == n * m + n
  {
  }

  lemma FitsIsExact(rs: seq<Record>)
    ensures Fits(rs) <==> Bytes(RecordsJson(rs)) <= 1024 * 1024
  {
  }

  /** Enough long records do not fit. */
  lemma LongRecordsDoNotFit(rs: seq<Record>, n: nat)
    requires forall r | r in rs :: r.text.Some? && |r.text.value| >= n
    requires n * |rs| > 1024 * 1024
    ensures !Fits(rs)
  {
    LongRecords(rs, n);
    BytesInside("[", BulkRecords(rs), "]");
  }
}
