/** JSON values and JSON Pointers evaluated as section 4 of RFC 6901 describes. */
module Json {
  import opened Wrappers
  import Decimal

  /** An object keeps its members in order; `Get` answers with the first member of a name. */
  datatype Value =
    | Null
    | Bool(b: bool)
    | Number(text: string)
    | Str(s: string)
    | Arr(items: seq<Value>)
    | Obj(members: seq<(string, Value)>)

  function Lookup(members: seq<(string, Value)>, key: string): (r: Option<Value>)
    ensures r.Some? ==> exists i :: 0 <= i < |members| && members[i] == (key, r.value)
    ensures r.None? ==> forall i :: 0 <= i < |members| ==> members[i].0 != key
  {
    if members == [] then None
    else if members[0].0 == key then Some(members[0].1)
    else
      var r := Lookup(members[1..], key);
      assert r.Some? ==> exists i :: 0 <= i < |members| && members[i] == (key, r.value) by {
        if r.Some? {
          var i :| 0 <= i < |members[1..]| && members[1..][i] == (key, r.value);
          assert members[i + 1] == (key, r.value);
        }
      }
      r
  }

  function Get(v: Value, key: string): Option<Value> {
    if v.Obj? then Lookup(v.members, key) else None
  }

  /** The member of this name that is read: the first one. */
  ghost predicate FirstMember(v: Value, key: string, value: Value) {
    v.Obj? && exists i: nat :: FirstAt(v.members, key, value, i)
  }

  ghost predicate FirstAt(members: seq<(string, Value)>, key: string, value: Value, i: nat) {
    i < |members| && members[i] == (key, value) && forall j :: 0 <= j < i ==> members[j].0 != key
  }

  lemma {:induction false} LookupMeans(members: seq<(string, Value)>, key: string, value: Value)
    ensures Lookup(members, key) == Some(value) <==> FirstMember(Obj(members), key, value)
  {
    hide FirstMember;
    if members == [] {
      NoFirstMember(key, value);
    } else {
      LookupMeans(members[1..], key, value);
      FirstMemberUnfolds(members, key, value);
    }
  }

  lemma NoFirstMember(key: string, value: Value)
    ensures !FirstMember(Obj([]), key, value)
  {
  }

  lemma FirstAtShifts(members: seq<(string, Value)>, key: string, value: Value, i: nat)
    requires members != []
    ensures FirstAt(members, key, value, i + 1) <==> members[0].0 != key && FirstAt(members[1..], key, value, i)
  {
    var rest := members[1..];
    assert forall j :: 0 <= j < |rest| ==> rest[j] == members[j + 1];
    assert forall j :: 0 < j < |members| ==> members[j] == rest[j - 1];
  }

  lemma FirstMemberUnfolds(members: seq<(string, Value)>, key: string, value: Value)
    requires members != []
    ensures FirstMember(Obj(members), key, value) <==>
            if members[0].0 == key then members[0].1 == value else FirstMember(Obj(members[1..]), key, value)
  {
    assert FirstAt(members, key, value, 0) <==> members[0] == (key, value);
    hide FirstAt;
    if i: nat :| FirstAt(members[1..], key, value, i) {
      FirstAtShifts(members, key, value, i);
    }
    if i: nat :| FirstAt(members, key, value, i) && i > 0 {
      FirstAtShifts(members, key, value, i - 1);
    }
  }

  lemma GetMeans(v: Value, key: string, value: Value)
    ensures Get(v, key) == Some(value) <==> FirstMember(v, key, value)
  {
    if v.Obj? {
      LookupMeans(v.members, key, value);
    }
  }

  /** A decimal index without sign or leading zeros. */
  function ParseIndex(token: string): Option<nat> {
    if token == [] || (token[0] == '0' && |token| != 1) then None
    else if forall i | 0 <= i < |token| :: Decimal.IsDigit(token[i]) then Some(Decimal.Value(token))
    else None
  }

  function Enter(v: Value, token: string): Option<Value> {
    match v
    case Obj(members) => Lookup(members, token)
    case Arr(items) =>
      var index := ParseIndex(token);
      if index.Some? && index.value < |items| then Some(items[index.value]) else None
    case _ => None
  }

  function Navigate(v: Value, tokens: seq<string>): Option<Value>
    decreases |tokens|
  {
    if tokens == [] then Some(v)
    else match Enter(v, tokens[0])
      case None => None
      case Some(next) => Navigate(next, tokens[1..])
  }

  /** Replaces every `a` followed by `b` by `c`, left to right. */
  function ReplacePair(s: string, a: char, b: char, c: char): string {
    if |s| < 2 then s
    else if s[0] == a && s[1] == b then [c] + ReplacePair(s[2..], a, b, c)
    else [s[0]] + ReplacePair(s[1..], a, b, c)
  }

  function Unescape(token: string): string {
    ReplacePair(ReplacePair(token, '~', '1', '/'), '~', '0', '~')
  }

  function Split(s: string): (parts: seq<string>)
    ensures |parts| > 0
  {
    if s == [] then [[]]
    else
      var rest := Split(s[1..]);
      if s[0] == '/' then [[]] + rest else [[s[0]] + rest[0]] + rest[1..]
  }

  function UnescapeAll(tokens: seq<string>): seq<string> {
    if tokens == [] then [] else [Unescape(tokens[0])] + UnescapeAll(tokens[1..])
  }

  function Pointer(v: Value, pointer: string): Option<Value> {
    if pointer == [] then Some(v)
    else if pointer[0] != '/' then None
    else Navigate(v, UnescapeAll(Split(pointer)[1..]))
  }

  // ------------------------------------------------------------ round trip

  function EscapeChar(c: char): string {
    if c == '~' then "~0" else if c == '/' then "~1" else [c]
  }

  function Escape(token: string): string {
    if token == [] then [] else EscapeChar(token[0]) + Escape(token[1..])
  }

  function RenderPointer(tokens: seq<string>): string {
    if tokens == [] then [] else "/" + Escape(tokens[0]) + RenderPointer(tokens[1..])
  }

  /** The escaped token with its slashes restored. */
  function HalfEscape(token: string): string {
    if token == [] then []
    else (if token[0] == '~' then "~0" else [token[0]]) + HalfEscape(token[1..])
  }

  lemma SkipOther(c: char, s: string, a: char, b: char, d: char)
    requires c != a
    ensures ReplacePair([c] + s, a, b, d) == [c] + ReplacePair(s, a, b, d)
  {
    assert ([c] + s)[1..] == s;
  }

  lemma {:induction false} SlashesRestored(token: string)
    ensures ReplacePair(Escape(token), '~', '1', '/') == HalfEscape(token)
  {
    if token != [] {
      var rest := Escape(token[1..]);
      SlashesRestored(token[1..]);
      if token[0] == '~' {
        assert Escape(token) == ['~', '0'] + rest;
        assert (['~', '0'] + rest)[1..] == ['0'] + rest;
        SkipOther('0', rest, '~', '1', '/');
      } else if token[0] == '/' {
        assert Escape(token) == ['~', '1'] + rest;
        assert (['~', '1'] + rest)[2..] == rest;
      } else {
        SkipOther(token[0], rest, '~', '1', '/');
      }
    }
  }

  lemma {:induction false} TildesRestored(token: string)
    ensures ReplacePair(HalfEscape(token), '~', '0', '~') == token
  {
    if token != [] {
      var rest := HalfEscape(token[1..]);
      TildesRestored(token[1..]);
      if token[0] == '~' {
        assert HalfEscape(token) == ['~', '0'] + rest;
        assert (['~', '0'] + rest)[2..] == rest;
      } else {
        SkipOther(token[0], rest, '~', '0', '~');
      }
    }
  }

  lemma {:induction false} EscapeHasNoSlash(token: string)
    ensures '/' !in Escape(token)
  {
    if token != [] {
      EscapeHasNoSlash(token[1..]);
    }
  }

  lemma {:induction false} SplitAfter(a: string, s: string)
    requires '/' !in a
    requires s == [] || s[0] == '/'
    ensures Split(a + s) == [a] + Split(s)[1..]
  {
    if a == [] {
      assert a + s == s;
      if s == [] {
        assert Split(s) == [[]] == [a] + Split(s)[1..];
      } else {
        assert Split(s) == [[]] + Split(s[1..]);
        assert Split(s)[1..] == Split(s[1..]);
      }
    } else {
      assert (a + s)[1..] == a[1..] + s;
      SplitAfter(a[1..], s);
      var whole := Split(a[1..] + s);
      assert whole[0] == a[1..] && whole[1..] == Split(s)[1..];
      assert a[0] in a;
      assert [a[0]] + a[1..] == a;
    }
  }

  lemma {:induction false} SplitRendered(tokens: seq<string>)
    ensures UnescapeAll(Split(RenderPointer(tokens))[1..]) == tokens
    ensures RenderPointer(tokens) == [] || RenderPointer(tokens)[0] == '/'
  {
    hide Escape;
    if tokens == [] {
      assert Split([]) == [[]];
    } else {
      var rest := RenderPointer(tokens[1..]);
      var body := Escape(tokens[0]) + rest;
      SplitRendered(tokens[1..]);
      EscapeHasNoSlash(tokens[0]);
      SplitAfter(Escape(tokens[0]), rest);
      assert RenderPointer(tokens) == ['/'] + body;
      assert (['/'] + body)[1..] == body;
      assert Split(RenderPointer(tokens)) == [[]] + Split(body);
      var parts := [Escape(tokens[0])] + Split(rest)[1..];
      assert Split(RenderPointer(tokens))[1..] == parts;
      assert parts[1..] == Split(rest)[1..];
      SlashesRestored(tokens[0]);
      TildesRestored(tokens[0]);
    }
  }

  /** A pointer rendered from tokens evaluates to what the tokens lead to, whatever characters they hold. */
  lemma PointerRoundTrip(v: Value, tokens: seq<string>)
    ensures Pointer(v, RenderPointer(tokens)) == Navigate(v, tokens)
  {
    SplitRendered(tokens);
    if tokens != [] {
      assert RenderPointer(tokens) != [];
    }
  }

  /** What the tokens of a pointer lead to: member by member, and element by element through its decimal index. */
  ghost predicate Leads(v: Value, tokens: seq<string>, value: Value)
    decreases |tokens|
  {
    if tokens == [] then v == value
    else exists next :: Below(v, tokens[0], next) && Leads(next, tokens[1..], value)
  }

  ghost predicate Below(v: Value, token: string, next: Value) {
    || FirstMember(v, token, next)
    || (v.Arr? && exists i: nat :: i < |v.items| && Decimal.Digits(i) == token && next == v.items[i])
  }

  lemma EnterMeans(v: Value, token: string, next: Value)
    ensures Enter(v, token) == Some(next) <==> Below(v, token, next)
  {
    if v.Obj? {
      LookupMeans(v.members, token, next);
    }
    if v.Arr? {
      IndexMeans(v.items, token, next);
    }
  }

  lemma IndexMeans(items: seq<Value>, token: string, next: Value)
    ensures Enter(Arr(items), token) == Some(next) <==>
            exists i: nat :: i < |items| && Decimal.Digits(i) == token && next == items[i]
  {
    if Enter(Arr(items), token) == Some(next) {
      var i := ParseIndex(token).value;
      Decimal.ValueRoundTrip(token);
      assert Decimal.Digits(i) == token;
    }
    if i: nat :| i < |items| && Decimal.Digits(i) == token && next == items[i] {
      IndexRoundTrip(items, i);
    }
  }

  lemma {:induction false} NavigateMeans(v: Value, tokens: seq<string>, value: Value)
    ensures Navigate(v, tokens) == Some(value) <==> Leads(v, tokens, value)
    decreases |tokens|
  {
    hide Enter, Below;
    if tokens != [] {
      match Enter(v, tokens[0]) {
        case None =>
          forall next
            ensures !Below(v, tokens[0], next)
          {
            EnterMeans(v, tokens[0], next);
          }
        case Some(only) =>
          forall next
            ensures Below(v, tokens[0], next) <==> next == only
          {
            EnterMeans(v, tokens[0], next);
          }
          NavigateMeans(only, tokens[1..], value);
      }
    }
  }

  /** A rendered pointer finds a value exactly when its tokens lead there through members and elements. */
  lemma PointerMeans(v: Value, tokens: seq<string>, value: Value)
    ensures Pointer(v, RenderPointer(tokens)) == Some(value) <==> Leads(v, tokens, value)
  {
    PointerRoundTrip(v, tokens);
    NavigateMeans(v, tokens, value);
  }

  /** Every array element has a pointer token: its decimal index. */
  lemma IndexRoundTrip(items: seq<Value>, i: nat)
    requires i < |items|
    ensures Enter(Arr(items), Decimal.Digits(i)) == Some(items[i])
  {
    Decimal.DigitsRoundTrip(i);
  }
}
