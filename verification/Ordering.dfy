/** Total orders: the byte order of ASCII tokens, and least elements of finite sets. */
module Ordering {

  /** Byte-wise order of two strings, as SQLite's BINARY collation and Rust's `Ord` for `str` define it. */
  predicate Less(a: string, b: string) {
    if b == [] then false
    else if a == [] then true
    else a[0] < b[0] || (a[0] == b[0] && Less(a[1..], b[1..]))
  }

  lemma {:induction false} LessTrichotomy(a: string, b: string)
    ensures Less(a, b) || a == b || Less(b, a)
    ensures !(Less(a, b) && Less(b, a))
    ensures !Less(a, a)
  {
    if a != [] {
      LessTrichotomy(a[1..], a[1..]);
    }
    if a != [] && b != [] && a[0] == b[0] {
      LessTrichotomy(a[1..], b[1..]);
      if a[1..] == b[1..] {
        assert a == [a[0]] + a[1..] && b == [b[0]] + b[1..];
      }
    }
  }

  /** The strings agree up to some place, where the first one ends or has the smaller character. */
  ghost predicate DifferAt(a: string, b: string, k: nat) {
    && k <= |a| && k < |b| && a[..k] == b[..k]
    && (k == |a| || a[k] < b[k])
  }

  lemma {:induction false} LessMeans(a: string, b: string)
    ensures Less(a, b) <==> exists k: nat :: DifferAt(a, b, k)
  {
    if b != [] && a != [] {
      LessMeans(a[1..], b[1..]);
      if a[0] == b[0] {
        if k: nat :| DifferAt(a[1..], b[1..], k) {
          assert a[..k + 1] == [a[0]] + a[1..][..k] && b[..k + 1] == [b[0]] + b[1..][..k];
          assert DifferAt(a, b, k + 1);
        }
        if k: nat :| DifferAt(a, b, k) {
          assert k > 0;
          assert a[1..][..k - 1] == a[..k][1..] && b[1..][..k - 1] == b[..k][1..];
          assert DifferAt(a[1..], b[1..], k - 1);
        }
      } else {
        assert a[0] < b[0] ==> DifferAt(a, b, 0);
        if k: nat :| DifferAt(a, b, k) {
          assert k > 0 ==> a[..k][0] == b[..k][0];
        }
      }
    } else if b != [] {
      assert DifferAt(a, b, 0);
    }
  }

  lemma {:induction false} LessTransitive(a: string, b: string, c: string)
    requires Less(a, b) && Less(b, c)
    ensures Less(a, c)
  {
    if a != [] && a[0] == b[0] && b[0] == c[0] {
      LessTransitive(a[1..], b[1..], c[1..]);
    }
  }

  ghost predicate StrictTotalOn<K(!new)>(s: set<K>, less: (K, K) -> bool) {
    && (forall x, y :: x in s && y in s && x != y ==> less(x, y) || less(y, x))
    && (forall x, y, z :: x in s && y in s && z in s && less(x, y) && less(y, z) ==> less(x, z))
  }

  ghost predicate Least<K(!new)>(s: set<K>, less: (K, K) -> bool, k: K) {
    k in s && forall x :: x in s && x != k ==> less(k, x)
  }

  /** A finite nonempty set has a least element: `ORDER BY ... LIMIT 1` answers whenever some row matches. */
  lemma {:induction false} LeastExists<K(!new)>(s: set<K>, less: (K, K) -> bool)
    requires s != {}
    requires StrictTotalOn(s, less)
    ensures exists k :: Least(s, less, k)
    decreases s
  {
    var x :| x in s;
    var rest := s - {x};
    if rest == {} {
      assert s == {x};
      assert Least(s, less, x);
    } else {
      LeastExists(rest, less);
      var m :| Least(rest, less, m);
      if less(x, m) {
        forall y | y in s && y != x
          ensures less(x, y)
        {
          assert y in rest;
        }
        assert Least(s, less, x);
      } else {
        assert Least(s, less, m);
      }
    }
  }

  /** Strictly ascending lists, as `sort` followed by `dedup` leaves them. */
  ghost predicate Ascending(ids: seq<string>) {
    forall i, j :: 0 <= i < j < |ids| ==> Less(ids[i], ids[j])
  }

  function Insert(id: string, ids: seq<string>): (r: seq<string>)
    requires Ascending(ids)
    ensures Ascending(r)
    ensures forall x :: x in r <==> x == id || x in ids
  {
    if ids == [] then [id]
    else if id == ids[0] then ids
    else if Less(id, ids[0]) then
      assert forall j :: 0 <= j < |ids| ==> Less(id, ids[j]) by {
        forall j | 0 < j < |ids|
          ensures Less(id, ids[j])
        {
          LessTransitive(id, ids[0], ids[j]);
        }
      }
      [id] + ids
    else
      assert Less(ids[0], id) by { LessTrichotomy(id, ids[0]); }
      var rest := Insert(id, ids[1..]);
      assert forall x :: x in ids <==> x == ids[0] || x in ids[1..];
      assert forall j :: 0 <= j < |rest| ==> Less(ids[0], rest[j]) by {
        forall j | 0 <= j < |rest|
          ensures Less(ids[0], rest[j])
        {
          assert rest[j] in rest;
          if rest[j] != id {
            var k :| 1 <= k < |ids| && ids[k] == rest[j];
          }
        }
      }
      [ids[0]] + rest
  }

  /** `sort` then `dedup` of a list of identifiers. */
  function SortDedup(ids: seq<string>): (r: seq<string>)
    ensures Ascending(r)
    ensures forall x :: x in r <==> x in ids
  {
    if ids == [] then [] else
    assert forall x :: x in ids <==> x == ids[0] || x in ids[1..];
    Insert(ids[0], SortDedup(ids[1..]))
  }

  /** An ascending list is determined by its elements. */
  lemma {:induction false} AscendingUnique(a: seq<string>, b: seq<string>)
    requires Ascending(a) && Ascending(b)
    requires forall x :: x in a <==> x in b
    ensures a == b
  {
    if a != [] || b != [] {
      assert a != [] ==> a[0] in b;
      assert b != [] ==> b[0] in a;
      LessTrichotomy(a[0], b[0]);
      assert a[0] == b[0];
      LessTrichotomy(a[0], a[0]);
      forall x
        ensures x in a[1..] <==> x in b[1..]
      {
        if x in a[1..] {
          var i :| 1 <= i < |a| && a[i] == x;
          assert x in a && Less(a[0], x);
          var j :| 0 <= j < |b| && b[j] == x;
          assert j != 0;
        }
        if x in b[1..] {
          var i :| 1 <= i < |b| && b[i] == x;
          assert x in b && Less(b[0], x);
          var j :| 0 <= j < |a| && a[j] == x;
          assert j != 0;
        }
      }
      AscendingUnique(a[1..], b[1..]);
      assert a == [a[0]] + a[1..] && b == [b[0]] + b[1..];
    }
  }
}
