/**
 The JSON text of the two records, as json.Marshal writes it from the struct
 tags: fields in declaration order, no whitespace, integers in decimal, and
 strings quoted with Go's escapes (`\"`, `\\`, `\b`, `\f`, `\n`, `\r`, `\t`, and
 `\u` with four lower-case hex digits for the other control characters, for `<`,
 `>`, `&`, U+2028 and U+2029). The decoder reads that field layout back; inside
 it, it reads numbers and strings as JSON defines them, so it refuses numbers
 with leading zeros and strings with raw control characters.
 */
module Json {
  import opened Sdk
  import opened Decimal
  import opened Types

  // ---------------------------------------------------------------- hex digits

  predicate IsHex(c: char) {
    '0' <= c <= '9' || 'a' <= c <= 'f' || 'A' <= c <= 'F'
  }

  /** The lower-case hexadecimal digit of d. */
  function HexChar(d: nat): (c: char)
    requires d < 16
    ensures IsHex(c)
  {
    if d < 10 then ('0' as int + d) as char else ('a' as int + d - 10) as char
  }

  /** The value of a hexadecimal digit, in either case. */
  function HexValue(c: char): (d: nat)
    requires IsHex(c)
    ensures d < 16
  {
    if c <= '9' then c as int - '0' as int
    else if c <= 'F' then c as int - 'A' as int + 10
    else c as int - 'a' as int + 10
  }

  predicate IsHex4(h: string) {
    |h| == 4 && IsHex(h[0]) && IsHex(h[1]) && IsHex(h[2]) && IsHex(h[3])
  }

  /** The four hexadecimal digits of n, most significant first. */
  function Hex4(n: nat): (h: string)
    requires n < 0x1_0000
    ensures IsHex4(h)
  {
    [HexChar(n / 16 / 16 / 16), HexChar(n / 16 / 16 % 16), HexChar(n / 16 % 16), HexChar(n % 16)]
  }

  /** The number four hexadecimal digits denote. */
  function Hex4Value(h: string): (v: nat)
    requires IsHex4(h)
    ensures v < 0x1_0000
  {
    0x1000 * HexValue(h[0]) + 0x100 * HexValue(h[1]) + 0x10 * HexValue(h[2]) + HexValue(h[3])
  }

  /** The character four hex digits name; a UTF-16 surrogate names none. */
  function CodePoint(h: string): Option<char>
    requires IsHex4(h)
  {
    var v := Hex4Value(h);
    if 0xD800 <= v < 0xE000 then None else Some(v as char)
  }

  lemma HexDigitRoundTrip(d: nat)
    requires d < 16
    ensures HexValue(HexChar(d)) == d
  {
  }

  lemma Hex4RoundTrip(n: nat)
    requires n < 0x1_0000
    ensures Hex4Value(Hex4(n)) == n
  {
    var h := Hex4(n);
    HexDigitRoundTrip(n / 16 / 16 / 16);
    HexDigitRoundTrip(n / 16 / 16 % 16);
    HexDigitRoundTrip(n / 16 % 16);
    HexDigitRoundTrip(n % 16);
  }

  // ---------------------------------------------------------------- strings

  /**
   The letter of the two-character escape the encoder writes for c, for the
   characters that have one.
   */
  function ShortEscape(c: char): Option<char> {
    if c == '"' then Some('"')
    else if c == '\\' then Some('\\')
    else if c == '\U{8}' then Some('b')
    else if c == '\U{C}' then Some('f')
    else if c == '\n' then Some('n')
    else if c == '\r' then Some('r')
    else if c == '\t' then Some('t')
    else None
  }

  /**
   The characters the encoder writes as `\u` and four hex digits: the other
   control characters, the HTML-sensitive `<`, `>` and `&`, and the line and
   paragraph separators U+2028 and U+2029.
   */
  predicate UnicodeEscaped(c: char) {
    && ShortEscape(c).None?
    && (c < ' ' || c == '<' || c == '>' || c == '&' || c == '\U{2028}' || c == '\U{2029}')
  }

  /** A string character as it appears between the quotes. */
  function EscapeChar(c: char): string {
    match ShortEscape(c)
    case Some(e) => ['\\', e]
    case None => if UnicodeEscaped(c) then "\\u" + Hex4(c as int) else [c]
  }

  function Escape(s: string): string {
    if s == [] then [] else EscapeChar(s[0]) + Escape(s[1..])
  }

  /**
   The character an escape stands for, given what follows the backslash, and
   how many characters after the backslash the escape takes. Every JSON escape is
   read; a `\u` escape of a UTF-16 surrogate is refused.
   */
  function Unescape(e: string): (r: Option<(char, nat)>)
    ensures r.Some? ==> 1 <= r.value.1 <= |e|
  {
    if e == [] then None
    else if e[0] == '"' || e[0] == '\\' || e[0] == '/' then Some((e[0], 1))
    else if e[0] == 'b' then Some(('\U{8}', 1))
    else if e[0] == 'f' then Some(('\U{C}', 1))
    else if e[0] == 'n' then Some(('\n', 1))
    else if e[0] == 'r' then Some(('\r', 1))
    else if e[0] == 't' then Some(('\t', 1))
    else if e[0] == 'u' && |e| >= 5 && IsHex4(e[1..5]) then
      match CodePoint(e[1..5])
      case None => None
      case Some(c) => Some((c, 5))
    else None
  }

  /**
   Reads the contents of a quoted string up to, not including, the closing
   unescaped quote, undoing the escapes. A raw control character is refused, as
   JSON requires.
   */
  function ParseStringBody(s: string): Option<Parsed<string>>
    decreases |s|
  {
    if s == [] then None
    else if s[0] == '"' then Some(Parsed([], s))
    else if s[0] == '\\' then
      match Unescape(s[1..])
      case None => None
      case Some(e) =>
        match ParseStringBody(s[1 + e.1..])
        case None => None
        case Some(p) => Some(Parsed([e.0] + p.value, p.rest))
    else if s[0] < ' ' then None
    else
      match ParseStringBody(s[1..])
      case None => None
      case Some(p) => Some(Parsed([s[0]] + p.value, p.rest))
  }

  /** `{"x":X,"y":Y,"color":"C","userId":"U","time":T}` */
  function EncodePixel(p: Pixel): Payload {
    "{\"x\":" + (IntToDecimal(p.x) + (",\"y\":" + (IntToDecimal(p.y) +
    (",\"color\":\"" + (Escape(p.color) + ("\",\"userId\":\"" + (Escape(p.userId) +
    ("\",\"time\":" + (IntToDecimal(p.time) + "}")))))))))
  }

  function DecodePixel(s: Payload): Option<Pixel> {
    var s1 :- Expect(s, "{\"x\":");
    var x :- ParseInt(s1);
    var s2 :- Expect(x.rest, ",\"y\":");
    var y :- ParseInt(s2);
    var s3 :- Expect(y.rest, ",\"color\":\"");
    var color :- ParseStringBody(s3);
    var s4 :- Expect(color.rest, "\",\"userId\":\"");
    var user :- ParseStringBody(s4);
    var s5 :- Expect(user.rest, "\",\"time\":");
    var time :- ParseInt(s5);
    if time.rest == "}" then Some(Pixel(x.value, y.value, color.value, user.value, time.value))
    else None
  }

  /** `{"id":"I","userId":"U","message":"M","time":T}` */
  function EncodeMessage(m: ChatMessage): Payload {
    "{\"id\":\"" + (Escape(m.id) + ("\",\"userId\":\"" + (Escape(m.userId) +
    ("\",\"message\":\"" + (Escape(m.message) + ("\",\"time\":" +
    (IntToDecimal(m.time) + "}")))))))
  }

  function DecodeMessage(s: Payload): Option<ChatMessage> {
    var s1 :- Expect(s, "{\"id\":\"");
    var id :- ParseStringBody(s1);
    var s2 :- Expect(id.rest, "\",\"userId\":\"");
    var user :- ParseStringBody(s2);
    var s3 :- Expect(user.rest, "\",\"message\":\"");
    var text :- ParseStringBody(s3);
    var s4 :- Expect(text.rest, "\",\"time\":");
    var time :- ParseInt(s4);
    if time.rest == "}" then Some(ChatMessage(id.value, user.value, text.value, time.value))
    else None
  }

  /** A raw control character inside a string is refused. */
  lemma ControlCharRejected(c: char, s: string)
    requires c < ' '
    ensures ParseStringBody([c] + s) == None
  {
  }

  /** A character written as itself reads back as itself. */
  lemma RawCharStep(c: char, tail: string, u: string, rest: string)
    requires ShortEscape(c).None? && !UnicodeEscaped(c)
    requires ParseStringBody(tail) == Some(Parsed(u, rest))
    ensures ParseStringBody([c] + tail) == Some(Parsed([c] + u, rest))
  {
    assert ([c] + tail)[1..] == tail;
  }

  /** A two-character escape reads back as the character it stands for. */
  lemma ShortEscapeStep(c: char, tail: string, u: string, rest: string)
    requires ShortEscape(c).Some?
    requires ParseStringBody(tail) == Some(Parsed(u, rest))
    ensures ParseStringBody(['\\', ShortEscape(c).value] + tail) == Some(Parsed([c] + u, rest))
  {
    var s := ['\\', ShortEscape(c).value] + tail;
    assert s[1..] == [ShortEscape(c).value] + tail;
    assert Unescape(s[1..]) == Some((c, 1));
    assert s[2..] == tail;
  }

  /** The four hex digits written for a character name that character. */
  lemma CodePointOfEscape(c: char)
    requires UnicodeEscaped(c)
    ensures CodePoint(Hex4(c as int)) == Some(c)
  {
    Hex4RoundTrip(c as int);
    assert c as int <= 0x2029;
  }

  /** The `\u` escape of a character stands for that character. */
  lemma UnescapeUnicode(c: char, tail: string)
    requires UnicodeEscaped(c)
    ensures Unescape("u" + Hex4(c as int) + tail) == Some((c, 5))
  {
    var h := Hex4(c as int);
    var e := "u" + h + tail;
    assert e[0] == 'u' && e[1..5] == h;
    CodePointOfEscape(c);
  }

  /** A `\u` escape reads back as the character it was written for. */
  lemma UnicodeEscapeStep(c: char, tail: string, u: string, rest: string)
    requires UnicodeEscaped(c)
    requires ParseStringBody(tail) == Some(Parsed(u, rest))
    ensures ParseStringBody("\\u" + Hex4(c as int) + tail) == Some(Parsed([c] + u, rest))
  {
    var h := Hex4(c as int);
    var s := "\\u" + h + tail;
    assert s[1..] == "u" + h + tail;
    UnescapeUnicode(c, tail);
    assert s[6..] == tail;
  }

  /** One escaped character in front of a readable tail reads back as that character. */
  lemma EscapeCharStep(c: char, tail: string, u: string, rest: string)
    requires ParseStringBody(tail) == Some(Parsed(u, rest))
    ensures ParseStringBody(EscapeChar(c) + tail) == Some(Parsed([c] + u, rest))
  {
    if ShortEscape(c).Some? {
      ShortEscapeStep(c, tail, u, rest);
    } else if UnicodeEscaped(c) {
      UnicodeEscapeStep(c, tail, u, rest);
    } else {
      RawCharStep(c, tail, u, rest);
    }
  }

  /** Escaping a non-empty string escapes its first character, then the rest. */
  lemma EscapeFirst(t: string, rest: string)
    requires t != []
    ensures Escape(t) + rest == EscapeChar(t[0]) + (Escape(t[1..]) + rest)
  {
  }

  /** An escaped string reads back up to the quote that closes it. */
  lemma {:induction false} StringRoundTrip(t: string, rest: string)
    requires |rest| > 0 && rest[0] == '"'
    ensures ParseStringBody(Escape(t) + rest) == Some(Parsed(t, rest))
  {
    if t == [] {
      assert Escape(t) + rest == rest;
    } else {
      StringRoundTrip(t[1..], rest);
      EscapeCharStep(t[0], Escape(t[1..]) + rest, t[1..], rest);
      EscapeFirst(t, rest);
      assert [t[0]] + t[1..] == t;
    }
  }

  lemma ExpectLiteral(lit: string, rest: string)
    ensures Expect(lit + rest, lit) == Some(rest)
  {
    assert lit <= lit + rest;
    assert (lit + rest)[|lit|..] == rest;
  }

  /** Decoding the stored or broadcast text of a pixel gives back that pixel. */
  lemma PixelRoundTrip(p: Pixel)
    ensures DecodePixel(EncodePixel(p)) == Some(p)
  {
    var r5 := IntToDecimal(p.time) + "}";
    var r4 := "\",\"time\":" + r5;
    var r3 := Escape(p.userId) + r4;
    var r2 := "\",\"userId\":\"" + r3;
    var r1 := Escape(p.color) + r2;
    var q2 := ",\"color\":\"" + r1;
    var q1 := IntToDecimal(p.y) + q2;
    var q0 := ",\"y\":" + q1;
    var s0 := IntToDecimal(p.x) + q0;
    ExpectLiteral("{\"x\":", s0);
    IntRoundTrip(p.x, q0);
    ExpectLiteral(",\"y\":", q1);
    IntRoundTrip(p.y, q2);
    ExpectLiteral(",\"color\":\"", r1);
    StringRoundTrip(p.color, r2);
    ExpectLiteral("\",\"userId\":\"", r3);
    StringRoundTrip(p.userId, r4);
    ExpectLiteral("\",\"time\":", r5);
    IntRoundTrip(p.time, "}");
  }

  /** Decoding the stored or broadcast text of a message gives back that message. */
  lemma MessageRoundTrip(m: ChatMessage)
    ensures DecodeMessage(EncodeMessage(m)) == Some(m)
  {
    var r5 := IntToDecimal(m.time) + "}";
    var r4 := "\",\"time\":" + r5;
    var r3 := Escape(m.message) + r4;
    var r2 := "\",\"message\":\"" + r3;
    var r1 := Escape(m.userId) + r2;
    var q0 := "\",\"userId\":\"" + r1;
    var s0 := Escape(m.id) + q0;
    ExpectLiteral("{\"id\":\"", s0);
    StringRoundTrip(m.id, q0);
    ExpectLiteral("\",\"userId\":\"", r1);
    StringRoundTrip(m.userId, r2);
    ExpectLiteral("\",\"message\":\"", r3);
    StringRoundTrip(m.message, r4);
    ExpectLiteral("\",\"time\":", r5);
    IntRoundTrip(m.time, "}");
  }
}
