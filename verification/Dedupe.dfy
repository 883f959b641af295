/** Greedy deduplication of records by source id, url and native id. */
module Dedupe {
  import opened Wrappers
  import opened Records

  /** Lowercase ASCII words separated by single hyphens, at most 64 bytes. */
  predicate ValidSourceId(s: string) {
    && 0 < |s| <= 64
    && s[0] != '-' && s[|s| - 1] != '-'
    && (forall i | 0 <= i < |s| :: 'a' <= s[i] <= 'z' || '0' <= s[i] <= '9' || s[i] == '-')
    && (forall i | 0 <= i < |s| - 1 :: !(s[i] == '-' && s[i + 1] == '-'))
  }

  /** What a key means, before it is written as a string. */
  datatype Key = SourceKey(source: string, id: string) | UrlKey(url: string) | NativeKey(source: string, native: string)

  function Encode(k: Key): string {
    match k
    case SourceKey(s, id) => "source:" + s + ":" + id
    case UrlKey(u) => "url:" + u
    case NativeKey(s, n) => "native:" + s + ":" + n
  }

  function Meanings(r: Record): set<Key> {
    {SourceKey(r.source, r.id), UrlKey(r.url)}
    + (if r.metadata.nativeId.Some? then {NativeKey(r.source, r.metadata.nativeId.value)} else {})
    + (if r.metadata.id.Some? then {NativeKey(r.source, r.metadata.id.value)} else {})
  }

  /** The key list of one record, in the order it is built. */
  function DedupeKeys(r: Record): (keys: seq<string>)
    ensures forall s :: s in keys <==> exists k :: k in Meanings(r) && Encode(k) == s
  {
    var own := [Encode(SourceKey(r.source, r.id)), Encode(UrlKey(r.url))];
    var native := if r.metadata.nativeId.Some? then [Encode(NativeKey(r.source, r.metadata.nativeId.value))] else [];
    var meta := if r.metadata.id.Some? then [Encode(NativeKey(r.source, r.metadata.id.value))] else [];
    var keys := own + native + meta;
    assert forall s :: s in keys <==> exists k :: k in Meanings(r) && Encode(k) == s by {
      forall s
        ensures s in keys <==> exists k :: k in Meanings(r) && Encode(k) == s
      {
        assert SourceKey(r.source, r.id) in Meanings(r) && UrlKey(r.url) in Meanings(r);
        assert r.metadata.nativeId.Some? ==> NativeKey(r.source, r.metadata.nativeId.value) in Meanings(r);
        assert r.metadata.id.Some? ==> NativeKey(r.source, r.metadata.id.value) in Meanings(r);
      }
    }
    keys
  }

  function KeySet(r: Record): set<string> { set s | s in DedupeKeys(r) }

  class DedupeSet {
    var seen: set<string>

    constructor ()
      ensures seen == {}
    {
      seen := {};
    }

    /** Keeps a record unless one of its keys was seen; a dropped record leaves no key behind. */
    method Insert(record: Record) returns (kept: bool)
      modifies this
      ensures kept <==> KeySet(record) !! old(seen)
      ensures seen == if kept then old(seen) + KeySet(record) else old(seen)
    {
      var keys := DedupeKeys(record);
      if exists key | key in keys :: key in seen {
        return false;
      }
      seen := seen + set s | s in keys;
      kept := true;
    }
  }

  // ------------------------------------------------------- the greedy filter

  function Kept(seen: set<string>, rs: seq<Record>): seq<Record>
    decreases |rs|
  {
    if rs == [] then []
    else if KeySet(rs[0]) !! seen then [rs[0]] + Kept(seen + KeySet(rs[0]), rs[1..])
    else Kept(seen, rs[1..])
  }

  function SeenAfter(seen: set<string>, rs: seq<Record>): set<string>
    decreases |rs|
  {
    if rs == [] then seen
    else SeenAfter(if KeySet(rs[0]) !! seen then seen + KeySet(rs[0]) else seen, rs[1..])
  }

  ghost predicate PairwiseDisjoint(rs: seq<Record>) {
    forall i, j :: 0 <= i < j < |rs| ==> KeySet(rs[i]) !! KeySet(rs[j])
  }

  ghost predicate AvoidsAll(seen: set<string>, rs: seq<Record>) {
    forall i :: 0 <= i < |rs| ==> KeySet(rs[i]) !! seen
  }

  lemma {:induction false} KeptIsDisjoint(seen: set<string>, rs: seq<Record>)
    ensures PairwiseDisjoint(Kept(seen, rs)) && AvoidsAll(seen, Kept(seen, rs))
    decreases |rs|
  {
    if rs != [] {
      if KeySet(rs[0]) !! seen {
        KeptIsDisjoint(seen + KeySet(rs[0]), rs[1..]);
      } else {
        KeptIsDisjoint(seen, rs[1..]);
      }
    }
  }

  /** Every key remembered comes from the start or from a kept record. */
  lemma {:induction false} SeenComesFromKept(seen: set<string>, rs: seq<Record>, key: string)
    ensures key in SeenAfter(seen, rs) <==> key in seen || exists q :: q in Kept(seen, rs) && key in KeySet(q)
    decreases |rs|
  {
    if rs != [] {
      if KeySet(rs[0]) !! seen {
        var later := seen + KeySet(rs[0]);
        SeenComesFromKept(later, rs[1..], key);
        var kept := Kept(seen, rs);
        assert kept == [rs[0]] + Kept(later, rs[1..]);
        assert rs[0] in kept;
        if key in SeenAfter(seen, rs) && key !in seen {
          if key !in KeySet(rs[0]) {
            var q :| q in Kept(later, rs[1..]) && key in KeySet(q);
            assert q in kept;
          }
        }
        if q :| q in kept && key in KeySet(q) {
          assert q == rs[0] || q in Kept(later, rs[1..]);
        }
      } else {
        SeenComesFromKept(seen, rs[1..], key);
      }
    }
  }

  lemma {:induction false} KeptSplit(seen: set<string>, rs: seq<Record>, i: nat)
    requires i <= |rs|
    ensures Kept(seen, rs) == Kept(seen, rs[..i]) + Kept(SeenAfter(seen, rs[..i]), rs[i..])
    decreases i
  {
    if i > 0 {
      assert rs[..i][0] == rs[0] && rs[..i][1..] == rs[1..][..i - 1];
      KeptSplit(if KeySet(rs[0]) !! seen then seen + KeySet(rs[0]) else seen, rs[1..], i - 1);
    }
  }

  /** A record is dropped exactly when it shares a key with a record kept before it. */
  lemma DroppedIffShared(rs: seq<Record>, i: nat)
    requires i < |rs|
    ensures Kept({}, rs[..i + 1]) == Kept({}, rs[..i]) + (
              if exists q :: q in Kept({}, rs[..i]) && !(KeySet(q) !! KeySet(rs[i])) then [] else [rs[i]])
  {
    KeptSplit({}, rs[..i + 1], i);
    assert rs[..i + 1][..i] == rs[..i] && rs[..i + 1][i..] == [rs[i]];
    var seen := SeenAfter({}, rs[..i]);
    assert Kept(seen, [rs[i]]) == if KeySet(rs[i]) !! seen then [rs[i]] else [];
    if !(KeySet(rs[i]) !! seen) {
      var key :| key in KeySet(rs[i]) && key in seen;
      SeenComesFromKept({}, rs[..i], key);
      var q :| q in Kept({}, rs[..i]) && key in KeySet(q);
      assert !(KeySet(q) !! KeySet(rs[i]));
    } else {
      forall q | q in Kept({}, rs[..i])
        ensures KeySet(q) !! KeySet(rs[i])
      {
        forall key | key in KeySet(q)
          ensures key !in KeySet(rs[i])
        {
          SeenComesFromKept({}, rs[..i], key);
        }
      }
    }
  }

  lemma {:induction false} DisjointIsKept(seen: set<string>, rs: seq<Record>)
    requires PairwiseDisjoint(rs) && AvoidsAll(seen, rs)
    ensures Kept(seen, rs) == rs
    decreases |rs|
  {
    if rs != [] {
      assert KeySet(rs[0]) !! seen;
      forall i | 0 <= i < |rs[1..]|
        ensures KeySet(rs[1..][i]) !! seen + KeySet(rs[0])
      {
        assert rs[1..][i] == rs[i + 1];
      }
      DisjointIsKept(seen + KeySet(rs[0]), rs[1..]);
    }
  }

  lemma KeptIsIdempotent(rs: seq<Record>)
    ensures Kept({}, Kept({}, rs)) == Kept({}, rs)
  {
    KeptIsDisjoint({}, rs);
    DisjointIsKept({}, Kept({}, rs));
  }

  // ---------------------------------------------------------- key encoding

  predicate PlainSource(k: Key) {
    match k
    case SourceKey(s, _) => ':' !in s
    case UrlKey(_) => true
    case NativeKey(s, _) => ':' !in s
  }

  lemma FirstColonSplits(a: string, x: string, b: string, y: string)
    requires a + ":" + x == b + ":" + y
    requires ':' !in a && ':' !in b
    ensures a == b && x == y
  {
    var s := a + ":" + x;
    assert s == b + ":" + y;
    assert s[|a|] == ':' && s[|b|] == ':';
    assert |a| == |b|;
    assert a == s[..|a|] && b == s[..|b|];
    assert x == s[|a| + 1..] && y == s[|b| + 1..];
  }

  lemma EncodeInjective(a: Key, b: Key)
    requires PlainSource(a) && PlainSource(b)
    requires Encode(a) == Encode(b)
    ensures a == b
  {
    var s := Encode(a);
    match a
    case SourceKey(p, x) =>
      assert s[0] == 's';
      assert s[7..] == p + ":" + x;
      assert b.SourceKey?;
      assert s[7..] == b.source + ":" + b.id;
      FirstColonSplits(p, x, b.source, b.id);
    case UrlKey(u) =>
      assert s[0] == 'u';
      assert b.UrlKey?;
      assert s[4..] == u && s[4..] == b.url;
    case NativeKey(p, x) =>
      assert s[0] == 'n';
      assert s[7..] == p + ":" + x;
      assert b.NativeKey?;
      assert s[7..] == b.source + ":" + b.native;
      FirstColonSplits(p, x, b.source, b.native);
  }

  /** Two records collide in the set exactly when they share a meaning. */
  lemma CollideIffShareMeaning(r: Record, q: Record)
    requires ValidSourceId(r.source) && ValidSourceId(q.source)
    ensures KeySet(r) !! KeySet(q) <==> Meanings(r) !! Meanings(q)
  {
    hide KeySet, Meanings, ValidSourceId;
    if k :| k in Meanings(r) && k in Meanings(q) {
      SharedMeaningCollides(r, q, k);
    }
    if s :| s in KeySet(r) && s in KeySet(q) {
      CollisionSharesMeaning(r, q, s);
    }
  }

  lemma SharedMeaningCollides(r: Record, q: Record, k: Key)
    requires k in Meanings(r) && k in Meanings(q)
    ensures !(KeySet(r) !! KeySet(q))
  {
    hide Meanings, Encode;
    assert Encode(k) in KeySet(r) && Encode(k) in KeySet(q);
  }

  lemma PlainMeanings(r: Record)
    requires ValidSourceId(r.source)
    ensures forall k :: k in Meanings(r) ==> PlainSource(k)
  {
  }

  lemma CollisionSharesMeaning(r: Record, q: Record, s: string)
    requires ValidSourceId(r.source) && ValidSourceId(q.source)
    requires s in KeySet(r) && s in KeySet(q)
    ensures !(Meanings(r) !! Meanings(q))
  {
    hide Meanings, Encode, ValidSourceId, PlainSource;
    PlainMeanings(r);
    PlainMeanings(q);
    var k :| k in Meanings(r) && Encode(k) == s;
    var l :| l in Meanings(q) && Encode(l) == s;
    EncodeInjective(k, l);
  }

  // ------------------------------------------------------ without any keys

  /** A record names a native id in either of two members of its metadata. */
  predicate NamesNative(r: Record, native: string) {
    r.metadata.nativeId == Some(native) || r.metadata.id == Some(native)
  }

  /** One source and id, one url, or one source and a native id in common. */
  ghost predicate SameThing(r: Record, q: Record) {
    || (r.source == q.source && r.id == q.id)
    || r.url == q.url
    || (r.source == q.source && exists native :: NamesNative(r, native) && NamesNative(q, native))
  }

  lemma MeaningMeans(r: Record, k: Key)
    ensures k in Meanings(r) <==> match k
              case SourceKey(source, id) => source == r.source && id == r.id
              case UrlKey(url) => url == r.url
              case NativeKey(source, native) => source == r.source && NamesNative(r, native)
  {
  }

  /** The set's keys tell two records apart exactly when they are not the same thing. */
  lemma CollideIffSame(r: Record, q: Record)
    requires ValidSourceId(r.source) && ValidSourceId(q.source)
    ensures !(KeySet(r) !! KeySet(q)) <==> SameThing(r, q)
  {
    hide KeySet, Meanings, ValidSourceId;
    CollideIffShareMeaning(r, q);
    if k :| k in Meanings(r) && k in Meanings(q) {
      MeaningMeans(r, k);
      MeaningMeans(q, k);
    }
    if SameThing(r, q) {
      var k :=
        if r.source == q.source && r.id == q.id then SourceKey(r.source, r.id)
        else if r.url == q.url then UrlKey(r.url)
        else var native :| NamesNative(r, native) && NamesNative(q, native); NativeKey(r.source, native);
      MeaningMeans(r, k);
      MeaningMeans(q, k);
    }
  }

  /** Deduplication is greedy: a record is dropped exactly when some record kept before it is the same thing. */
  lemma KeptIsGreedy(rs: seq<Record>, i: nat)
    requires i < |rs| && forall r :: r in rs ==> ValidSourceId(r.source)
    ensures Kept({}, rs[..i + 1]) == Kept({}, rs[..i]) + (
              if exists q | q in Kept({}, rs[..i]) :: SameThing(q, rs[i]) then [] else [rs[i]])
  {
    hide KeySet, SameThing, ValidSourceId;
    DroppedIffShared(rs, i);
    KeptAreInputs({}, rs[..i]);
    forall q | q in Kept({}, rs[..i])
      ensures !(KeySet(q) !! KeySet(rs[i])) <==> SameThing(q, rs[i])
    {
      assert q in rs && rs[i] in rs;
      CollideIffSame(q, rs[i]);
    }
  }

  /** What the stores rely on: no two kept records are the same thing, so their identities and urls differ pairwise. */
  lemma KeptAreDistinct(rs: seq<Record>)
    requires forall r :: r in rs ==> ValidSourceId(r.source)
    ensures DistinctIdentities(Kept({}, rs))
    ensures forall i, j :: 0 <= i < j < |Kept({}, rs)| ==>
              Kept({}, rs)[i].url != Kept({}, rs)[j].url && !SameThing(Kept({}, rs)[i], Kept({}, rs)[j])
  {
    hide KeySet, ValidSourceId;
    var kept := Kept({}, rs);
    KeptIsDisjoint({}, rs);
    KeptAreInputs({}, rs);
    forall i, j | 0 <= i < j < |kept|
      ensures IdentityOf(kept[i]) != IdentityOf(kept[j]) && kept[i].url != kept[j].url && !SameThing(kept[i], kept[j])
    {
      assert kept[i] in rs && kept[j] in rs;
      CollideIffSame(kept[i], kept[j]);
    }
  }

  lemma {:induction false} KeptAreInputs(seen: set<string>, rs: seq<Record>)
    ensures forall r :: r in Kept(seen, rs) ==> r in rs
    decreases |rs|
  {
    if rs != [] {
      KeptAreInputs(seen + KeySet(rs[0]), rs[1..]);
      KeptAreInputs(seen, rs[1..]);
    }
  }
}
