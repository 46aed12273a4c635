/** The canonical JSON text an audit entry is hashed as, and why no two entries share it. */
module CanonicalText {
  import opened Results
  import opened DecimalText

  /** What is hashed of an entry; an absent correlation id and a null one are the same. */
  datatype AuditContent = AuditContent(seqNo: int, at: int, action: string, detail: string,
                                       actor: Option<string>, correlationId: Option<string>)

  function HexDigit(d: nat): char
    requires d < 16
  {
    if d < 10 then '0' + d as char else 'a' + (d - 10) as char
  }

  function HexValue(ch: char): int {
    if '0' <= ch <= '9' then ch as int - '0' as int else ch as int - 'a' as int + 10
  }

  function EscapeChar(ch: char): string {
    match ch as int
    case 8 => "\\b"
    case 9 => "\\t"
    case 10 => "\\n"
    case 12 => "\\f"
    case 13 => "\\r"
    case 34 => "\\\""
    case 92 => "\\\\"
    case code => if code < 32 then "\\u00" + [HexDigit(code / 16), HexDigit(code % 16)] else [ch]
  }

  function Escape(s: string): string {
    if s == [] then [] else EscapeChar(s[0]) + Escape(s[1..])
  }

  function JsonString(s: string): string {
    "\"" + Escape(s) + "\""
  }

  function JsonNullable(s: Option<string>): string {
    match s
    case None => "null"
    case Some(text) => JsonString(text)
  }

  function JsonInt(n: int): string {
    if n < 0 then "-" + Digits(-n) else Digits(n)
  }

  /** A JSON array of the six fields in fixed order. */
  function Canonicalise(e: AuditContent): string {
    "[" + (JsonInt(e.seqNo) + "," + (JsonInt(e.at) + "," + (JsonString(e.action) + "," + (JsonString(e.detail) + ","
    + (JsonNullable(e.actor) + "," + (JsonNullable(e.correlationId) + "]"))))))
  }

  // ----------------------------------------------------- reading it back

  /** The character whose escape a text begins with. */
  function FirstEscaped(s: string): char
    requires |s| > 0
  {
    if s[0] != '\\' || |s| < 2 then s[0]
    else
      match s[1]
      case 'b' => 8 as char
      case 't' => 9 as char
      case 'n' => 10 as char
      case 'f' => 12 as char
      case 'r' => 13 as char
      case 'u' => if |s| >= 6 && 0 <= HexValue(s[4]) * 16 + HexValue(s[5]) < 32
                  then (HexValue(s[4]) * 16 + HexValue(s[5])) as char else 'u'
      case other => other
  }

  lemma EscapeCharIsReadBack(ch: char, rest: string)
    ensures EscapeChar(ch) != [] && EscapeChar(ch)[0] != '"'
    ensures FirstEscaped(EscapeChar(ch) + rest) == ch
  {
    var code := ch as int;
    var e := EscapeChar(ch);
    var s := e + rest;
    assert forall i :: 0 <= i < |e| ==> s[i] == e[i];
    if code < 32 {
    }
  }

  /** A quoted string ends where its text says, and has one reading. */
  lemma {:induction false} EscapeIsReadBack(a: string, b: string, x: string, y: string)
    requires Escape(a) + ("\"" + x) == Escape(b) + ("\"" + y)
    ensures a == b && x == y
  {
    if a == [] && b == [] {
      assert Escape([]) + ("\"" + x) == "\"" + x && Escape([]) + ("\"" + y) == "\"" + y;
      SameTails("\"", x, y);
    } else if a == [] || b == [] {
      if a == [] { NoQuoteFirst(b, y); } else { NoQuoteFirst(a, x); }
    } else {
      SameFirst(a, b, x, y);
      EscapeIsReadBack(a[1..], b[1..], x, y);
      assert a == [a[0]] + a[1..] && b == [b[0]] + b[1..];
    }
  }

  /** No escaped character begins with the quote that ends the string. */
  lemma NoQuoteFirst(a: string, x: string)
    requires a != []
    ensures (Escape(a) + ("\"" + x))[0] != '"'
  {
    EscapeCharIsReadBack(a[0], "");
  }

  lemma SameFirst(a: string, b: string, x: string, y: string)
    requires a != [] && b != [] && Escape(a) + ("\"" + x) == Escape(b) + ("\"" + y)
    ensures a[0] == b[0] && Escape(a[1..]) + ("\"" + x) == Escape(b[1..]) + ("\"" + y)
  {
    StartsWith(a, x);
    StartsWith(b, y);
    hide Escape, EscapeChar, FirstEscaped;
    EscapeCharIsReadBack(a[0], Escape(a[1..]) + ("\"" + x));
    EscapeCharIsReadBack(b[0], Escape(b[1..]) + ("\"" + y));
    SameTails(EscapeChar(a[0]), Escape(a[1..]) + ("\"" + x), Escape(b[1..]) + ("\"" + y));
  }

  lemma StartsWith(a: string, x: string)
    requires a != []
    ensures Escape(a) + ("\"" + x) == EscapeChar(a[0]) + (Escape(a[1..]) + ("\"" + x))
  {}

  lemma SameTails(head: string, x: string, y: string)
    requires head + x == head + y
    ensures x == y
  {
    assert x == (head + x)[|head|..] && y == (head + y)[|head|..];
  }

  lemma JsonStringIsReadBack(a: string, b: string, x: string, y: string)
    requires JsonString(a) + x == JsonString(b) + y
    ensures a == b && x == y
  {
    hide Escape;
    Quoted(a, x);
    Quoted(b, y);
    hide JsonString;
    SameTails("\"", Escape(a) + ("\"" + x), Escape(b) + ("\"" + y));
    EscapeIsReadBack(a, b, x, y);
  }

  lemma Quoted(a: string, x: string)
    ensures JsonString(a) + x == "\"" + (Escape(a) + ("\"" + x))
  {
    hide Escape;
  }

  lemma JsonNullableIsReadBack(a: Option<string>, b: Option<string>, x: string, y: string)
    requires JsonNullable(a) + x == JsonNullable(b) + y
    ensures a == b && x == y
  {
    assert (JsonNullable(a) + x)[0] == if a.None? then 'n' else '"';
    assert (JsonNullable(b) + y)[0] == if b.None? then 'n' else '"';
    if a.Some? { JsonStringIsReadBack(a.value, b.value, x, y); } else { SameTails("null", x, y); }
  }

  function IndexOf(s: string, ch: char): nat {
    if s == [] || s[0] == ch then 0 else 1 + IndexOf(s[1..], ch)
  }

  lemma {:induction false} FirstAfter(a: string, ch: char, x: string)
    requires ch !in a
    ensures IndexOf(a + ([ch] + x), ch) == |a|
  {
    if a != [] {
      FirstAfter(a[1..], ch, x);
      assert (a + ([ch] + x))[1..] == a[1..] + ([ch] + x);
    }
  }

  /** A text splits in one way at the first occurrence of a character. */
  lemma SplitAtFirst(ch: char, a: string, b: string, x: string, y: string)
    requires ch !in a && ch !in b && a + ([ch] + x) == b + ([ch] + y)
    ensures a == b && x == y
  {
    FirstAfter(a, ch, x);
    FirstAfter(b, ch, y);
    assert a == (a + ([ch] + x))[..|a|] && b == (b + ([ch] + y))[..|b|];
    SameTails(a, [ch] + x, [ch] + y);
    SameTails([ch], x, y);
  }

  lemma JsonIntIsReadBack(n: int, m: int, x: string, y: string)
    requires JsonInt(n) + ("," + x) == JsonInt(m) + ("," + y)
    ensures n == m && x == y
  {
    SplitAtFirst(',', JsonInt(n), JsonInt(m), x, y);
    assert (JsonInt(n)[0] == '-' <==> n < 0) && (JsonInt(m)[0] == '-' <==> m < 0);
    if n < 0 {
      SameTails("-", Digits(-n), Digits(-m));
      ParseOfDigits(-n);
      ParseOfDigits(-m);
    } else {
      ParseOfDigits(n);
      ParseOfDigits(m);
    }
  }

  /** The canonical text determines the entry: no two entries serialise alike, whatever quotes,
      commas, brackets or control characters their fields contain. */
  lemma CanonicaliseIsInjective(a: AuditContent, b: AuditContent)
    ensures Canonicalise(a) == Canonicalise(b) ==> a == b
  {
    if Canonicalise(a) == Canonicalise(b) {
      var a5, b5 := JsonNullable(a.correlationId) + "]", JsonNullable(b.correlationId) + "]";
      var a4, b4 := JsonNullable(a.actor) + ("," + a5), JsonNullable(b.actor) + ("," + b5);
      var a3, b3 := JsonString(a.detail) + ("," + a4), JsonString(b.detail) + ("," + b4);
      var a2, b2 := JsonString(a.action) + ("," + a3), JsonString(b.action) + ("," + b3);
      var a1, b1 := JsonInt(a.at) + ("," + a2), JsonInt(b.at) + ("," + b2);
      hide JsonInt, JsonString, JsonNullable;
      CanonicalShape(a, a1, a2, a3, a4, a5);
      CanonicalShape(b, b1, b2, b3, b4, b5);
      SameTails("[", JsonInt(a.seqNo) + ("," + a1), JsonInt(b.seqNo) + ("," + b1));
      JsonIntIsReadBack(a.seqNo, b.seqNo, a1, b1);
      JsonIntIsReadBack(a.at, b.at, a2, b2);
      JsonStringIsReadBack(a.action, b.action, "," + a3, "," + b3);
      SameTails(",", a3, b3);
      JsonStringIsReadBack(a.detail, b.detail, "," + a4, "," + b4);
      SameTails(",", a4, b4);
      JsonNullableIsReadBack(a.actor, b.actor, "," + a5, "," + b5);
      SameTails(",", a5, b5);
      JsonNullableIsReadBack(a.correlationId, b.correlationId, "]", "]");
    }
  }

  lemma CanonicalShape(e: AuditContent, e1: string, e2: string, e3: string, e4: string, e5: string)
    requires e5 == JsonNullable(e.correlationId) + "]" && e4 == JsonNullable(e.actor) + ("," + e5)
    requires e3 == JsonString(e.detail) + ("," + e4) && e2 == JsonString(e.action) + ("," + e3)
    requires e1 == JsonInt(e.at) + ("," + e2)
    ensures Canonicalise(e) == "[" + (JsonInt(e.seqNo) + ("," + e1))
  {
    hide JsonInt, JsonString, JsonNullable;
    assert JsonNullable(e.actor) + "," + e5 == e4;
    assert JsonString(e.detail) + "," + e4 == e3;
    assert JsonString(e.action) + "," + e3 == e2;
    assert JsonInt(e.at) + "," + e2 == e1;
    assert JsonInt(e.seqNo) + "," + e1 == JsonInt(e.seqNo) + ("," + e1);
  }

  /** Text that follows a prefix without brackets: both can be told from their concatenation. */
  lemma PrefixedTextIsReadBack(p: string, q: string, a: AuditContent, b: AuditContent)
    requires '[' !in p && '[' !in q && p + Canonicalise(a) == q + Canonicalise(b)
    ensures p == q && a == b
  {
    var x, y := Canonicalise(a), Canonicalise(b);
    assert x[0] == y[0] == '[';
    assert x == ['['] + x[1..] && y == ['['] + y[1..];
    hide Canonicalise;
    SplitAtFirst('[', p, q, x[1..], y[1..]);
    CanonicaliseIsInjective(a, b);
  }
}
