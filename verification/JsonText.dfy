/** How strings are written in JSON, and how many bytes a text takes. */
module JsonText {
  import opened Wrappers

  function Utf8Length(c: char): nat {
    var code := c as int;
    if code < 0x80 then 1 else if code < 0x800 then 2 else if code < 0x1_0000 then 3 else 4
  }

  function Bytes(text: string): nat {
    if text == [] then 0 else Utf8Length(text[0]) + Bytes(text[1..])
  }

  function HexDigit(d: nat): char
    requires d < 16
  {
    "0123456789abcdef"[d]
  }

  /** One character inside a JSON string, escaped no more than necessary. */
  function EscapeChar(c: char): string {
    var code := c as int;
    if c == '"' then "\\\""
    else if c == '\\' then "\\\\"
    else if code == 8 then "\\b"
    else if code == 9 then "\\t"
    else if code == 10 then "\\n"
    else if code == 12 then "\\f"
    else if code == 13 then "\\r"
    else if code < 0x20 then "\\u00" + [HexDigit(code / 16), HexDigit(code % 16)]
    else [c]
  }

  function Escape(text: string): string {
    if text == [] then [] else EscapeChar(text[0]) + Escape(text[1..])
  }

  function Quote(text: string): string { "\"" + Escape(text) + "\"" }

  function Nullable(text: Option<string>): string {
    if text.Some? then Quote(text.value) else "null"
  }

  lemma {:induction false} BytesConcat(a: string, b: string)
    ensures Bytes(a + b) == Bytes(a) + Bytes(b)
  {
    if a == [] {
      assert a + b == b;
    } else {
      assert (a + b)[1..] == a[1..] + b;
      BytesConcat(a[1..], b);
    }
  }

  lemma {:induction false} EscapeKeepsBytes(text: string)
    ensures |text| <= Bytes(Escape(text))
  {
    if text != [] {
      var first := EscapeChar(text[0]);
      assert Bytes(first) >= 1;
      BytesConcat(first, Escape(text[1..]));
      EscapeKeepsBytes(text[1..]);
    }
  }

  lemma BytesInside(before: string, inner: string, after: string)
    ensures Bytes(inner) <= Bytes(before + inner + after)
  {
    BytesConcat(before, inner);
    BytesConcat(before + inner, after);
  }

  lemma EscapeConcat(a: string, b: string)
    ensures Escape(a + b) == Escape(a) + Escape(b)
  {
    if a == [] {
      assert a + b == b;
    } else {
      assert (a + b)[1..] == a[1..] + b;
      EscapeConcat(a[1..], b);
    }
  }

  predicate Plain(c: char) { 0x20 <= c as int < 0x80 && c != '"' && c != '\\' }

  /** Plain characters are written as they are. */
  lemma {:induction false} PlainBytes(text: string)
    requires forall i :: 0 <= i < |text| ==> Plain(text[i])
    ensures Bytes(Escape(text)) == |text| == Bytes(text)
  {
    if text != [] {
      PlainBytes(text[1..]);
      BytesConcat([text[0]], Escape(text[1..]));
      assert Bytes([text[0]]) == 1;
    }
  }

  lemma {:induction false} BytesBound(text: string)
    ensures |text| <= Bytes(text) <= 4 * |text|
  {
    if text != [] {
      BytesBound(text[1..]);
    }
  }

  lemma {:induction false} EscapeBound(text: string)
    ensures |Escape(text)| <= 6 * |text|
  {
    if text != [] {
      EscapeBound(text[1..]);
    }
  }

  lemma QuoteBound(text: string)
    ensures |Quote(text)| <= 6 * |text| + 2
  {
    EscapeBound(text);
  }

  // -------------------------------------------------- texts that can be read

  /** What a character of a JSON string stands for once it is read, and the text after it (section 7 of RFC 8259). */
  function ReadChar(text: string): Option<(char, string)> {
    if text == [] || text[0] == '"' then None
    else if text[0] != '\\' then Some((text[0], text[1..]))
    else if |text| < 2 then None
    else match text[1]
      case '"' => Some(('"', text[2..]))
      case '\\' => Some(('\\', text[2..]))
      case 'b' => Some((8 as char, text[2..]))
      case 't' => Some((9 as char, text[2..]))
      case 'n' => Some((10 as char, text[2..]))
      case 'f' => Some((12 as char, text[2..]))
      case 'r' => Some((13 as char, text[2..]))
      case 'u' => if |text| < 6 then None else ReadCode(text[2..6], text[6..])
      case _ => None
  }

  function HexValue(c: char): Option<nat> {
    if '0' <= c <= '9' then Some(c as int - '0' as int)
    else if 'a' <= c <= 'f' then Some(10 + (c as int - 'a' as int))
    else None
  }

  /** Four hexadecimal digits below the surrogates. */
  function ReadCode(digits: string, rest: string): Option<(char, string)>
    requires |digits| == 4
  {
    var a, b, c, d := HexValue(digits[0]), HexValue(digits[1]), HexValue(digits[2]), HexValue(digits[3]);
    if a.None? || b.None? || c.None? || d.None? then None
    else
      var code := ((a.value * 16 + b.value) * 16 + c.value) * 16 + d.value;
      if code < 0xD800 then Some((code as char, rest)) else None
  }

  lemma HexRoundTrip(d: nat)
    requires d < 16
    ensures HexValue(HexDigit(d)) == Some(d)
  {
  }

  /** Each escaped character is read back, whatever follows it. */
  lemma EscapedCharIsRead(c: char, rest: string)
    ensures ReadChar(EscapeChar(c) + rest) == Some((c, rest))
  {
    hide HexDigit, HexValue;
    var code := c as int;
    var text := EscapeChar(c) + rest;
    if code < 0x20 && code != 8 && code != 9 && code != 10 && code != 12 && code != 13 {
      HexRoundTrip(code / 16);
      HexRoundTrip(code % 16);
      ZeroIsHex();
      assert text[2..6] == ['0', '0', HexDigit(code / 16), HexDigit(code % 16)];
      assert text[6..] == rest;
    } else if c == '"' || c == '\\' || code < 0x20 {
      assert text[2..] == rest;
    } else {
      assert text[1..] == rest;
    }
  }

  lemma ZeroIsHex()
    ensures HexValue('0') == Some(0)
  {
  }

  /** A quoted text ends where it ends: what follows it cannot be mistaken for part of it. */
  lemma {:induction false} EscapeSplits(a: string, b: string, x: string, y: string)
    requires Escape(a) + "\"" + x == Escape(b) + "\"" + y
    ensures a == b && x == y
    decreases |a| + |b|
  {
    hide EscapeChar, ReadChar;
    if a != [] && b != [] {
      var left := Escape(a[1..]) + "\"" + x;
      var right := Escape(b[1..]) + "\"" + y;
      assert Escape(a) + "\"" + x == EscapeChar(a[0]) + left;
      assert Escape(b) + "\"" + y == EscapeChar(b[0]) + right;
      EscapedCharIsRead(a[0], left);
      EscapedCharIsRead(b[0], right);
      EscapeSplits(a[1..], b[1..], x, y);
      assert a == [a[0]] + a[1..] && b == [b[0]] + b[1..];
    } else if a != [] {
      assert Escape(a) + "\"" + x == EscapeChar(a[0]) + (Escape(a[1..]) + "\"" + x);
      assert Escape(b) + "\"" + y == "\"" + y;
      QuoteEndsText(y);
      EscapedCharIsRead(a[0], Escape(a[1..]) + "\"" + x);
    } else if b != [] {
      assert Escape(b) + "\"" + y == EscapeChar(b[0]) + (Escape(b[1..]) + "\"" + y);
      assert Escape(a) + "\"" + x == "\"" + x;
      QuoteEndsText(x);
      EscapedCharIsRead(b[0], Escape(b[1..]) + "\"" + y);
    } else {
      assert Escape(a) + "\"" + x == "\"" + x && Escape(b) + "\"" + y == "\"" + y;
      assert ("\"" + x)[1..] == x && ("\"" + y)[1..] == y;
    }
  }

  lemma QuoteEndsText(rest: string)
    ensures ReadChar("\"" + rest) == None
  {
  }

  /** A JSON text in pieces: fixed text, strings, and strings that may be null. */
  datatype Part = Fixed(text: string) | Str(text: string) | Maybe(optional: Option<string>)

  function Piece(p: Part): string {
    match p
    case Fixed(text) => text
    case Str(text) => Quote(text)
    case Maybe(optional) => Nullable(optional)
  }

  function Render(parts: seq<Part>): string {
    if parts == [] then [] else Piece(parts[0]) + Render(parts[1..])
  }

  lemma {:induction false} RenderConcat(a: seq<Part>, b: seq<Part>)
    ensures Render(a + b) == Render(a) + Render(b)
    decreases |a|
  {
    hide Piece;
    if a == [] {
      assert a + b == b;
    } else {
      assert (a + b)[0] == a[0] && (a + b)[1..] == a[1..] + b;
      RenderConcat(a[1..], b);
    }
  }

  /** Short pieces make a short text. */
  lemma {:induction false} RenderBound(parts: seq<Part>, n: nat)
    requires forall i | 0 <= i < |parts| :: |Piece(parts[i])| <= n
    ensures |Render(parts)| <= n * |parts|
    decreases |parts|
  {
    hide Piece;
    if parts != [] {
      RenderBound(parts[1..], n);
      assert n * |parts| == n * |parts[1..]| + n;
    }
  }

  /** A text is at least as long as any of its pieces. */
  lemma {:induction false} PieceInside(parts: seq<Part>, i: nat)
    requires i < |parts|
    ensures Bytes(Piece(parts[i])) <= Bytes(Render(parts))
    decreases i
  {
    hide Bytes, Piece;
    BytesConcat(Piece(parts[0]), Render(parts[1..]));
    if i > 0 {
      PieceInside(parts[1..], i - 1);
    }
  }

  ghost predicate SameShape(p: Part, q: Part) {
    match p
    case Fixed(text) => q == p
    case Str(_) => q.Str?
    case Maybe(_) => q.Maybe?
  }

  lemma PieceSplits(p: Part, q: Part, x: string, y: string)
    requires SameShape(p, q) && Piece(p) + x == Piece(q) + y
    ensures p == q && x == y
  {
    hide Escape;
    match p
    case Fixed(text) =>
      assert (text + x)[|text|..] == x && (text + y)[|text|..] == y;
    case Str(a) =>
      QuoteSplits(a, q.text, x, y);
    case Maybe(a) =>
      var b := q.optional;
      assert (Piece(p) + x)[0] == (Piece(q) + y)[0];
      if a.Some? && b.Some? {
        QuoteSplits(a.value, b.value, x, y);
      } else if a.None? && b.None? {
        assert ("null" + x)[4..] == x && ("null" + y)[4..] == y;
      }
  }

  lemma QuoteSplits(a: string, b: string, x: string, y: string)
    requires Quote(a) + x == Quote(b) + y
    ensures a == b && x == y
  {
    hide Escape;
    assert (Quote(a) + x)[1..] == Escape(a) + "\"" + x;
    assert (Quote(b) + y)[1..] == Escape(b) + "\"" + y;
    EscapeSplits(a, b, x, y);
  }

  /** A text of one shape tells its strings, and where it ends. */
  lemma {:induction false} RenderSplits(a: seq<Part>, b: seq<Part>, x: string, y: string)
    requires |a| == |b| && forall i | 0 <= i < |a| :: SameShape(a[i], b[i])
    requires Render(a) + x == Render(b) + y
    ensures a == b && x == y
    decreases |a|
  {
    hide Piece, SameShape;
    if a == [] {
      assert [] + x == x && [] + y == y;
    } else {
      assert Render(a) + x == Piece(a[0]) + (Render(a[1..]) + x);
      assert Render(b) + y == Piece(b[0]) + (Render(b[1..]) + y);
      PieceSplits(a[0], b[0], Render(a[1..]) + x, Render(b[1..]) + y);
      RenderSplits(a[1..], b[1..], x, y);
      assert a == [a[0]] + a[1..] && b == [b[0]] + b[1..];
    }
  }
}
