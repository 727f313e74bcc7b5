/**
 UTF-8 (RFC 3629, section 3) and JSON strings (RFC 8259, section 7), as far as
 the ingest bounds depend on them: what a string costs once quoted, and that
 quoting loses nothing.
 */
module JsonString {
  import opened Wrappers

  type byte = x: int | 0 <= x < 256
  type Text = seq<byte>

  function Repeat(b: byte, n: nat): Text {
    seq(n, _ => b)
  }

  // ---- UTF-8 ----

  predicate Continuation(b: byte) { 0x80 <= b < 0xC0 }

  // utf8.RuneStart
  predicate RuneStart(b: byte) { !Continuation(b) }

  // The size of the encoded rune that `s` starts with, 0 when there is none.
  function RuneSize(s: Text): (size: nat)
    requires s != []
    ensures size <= |s| && size <= 4
  {
    var b := s[0];
    var second := if |s| > 1 then s[1] else 0;
    if b < 0x80 then 1
    else if |s| > 1 && 0xC2 <= b < 0xE0 && Continuation(second) then 2
    else if |s| > 2 && 0xE0 <= b < 0xF0 && Continuation(second) && Continuation(s[2])
            && (b == 0xE0 ==> second >= 0xA0) && (b == 0xED ==> second < 0xA0) then 3
    else if |s| > 3 && 0xF0 <= b < 0xF5 && Continuation(second) && Continuation(s[2]) && Continuation(s[3])
            && (b == 0xF0 ==> second >= 0x90) && (b == 0xF4 ==> second < 0x90) then 4
    else 0
  }

  predicate ValidUtf8(s: Text) {
    s == [] || (RuneSize(s) > 0 && ValidUtf8(s[RuneSize(s)..]))
  }

  // What decoding reads at the front of `s`: one rune, or one invalid byte.
  function Width(s: Text): (w: nat)
    requires s != []
    ensures 1 <= w <= |s| && w <= 4
  {
    if RuneSize(s) == 0 then 1 else RuneSize(s)
  }

  const REPLACEMENT: Text := [0xEF, 0xBF, 0xBD]

  // The first rune, or U+FFFD for an invalid first byte.
  function SanitizedFirst(s: Text): Text
    requires s != []
  {
    if RuneSize(s) == 0 then REPLACEMENT else s[..Width(s)]
  }

  // `s` with every invalid byte replaced by U+FFFD.
  function Sanitized(s: Text): Text {
    if s == [] then []
    else SanitizedFirst(s) + Sanitized(s[Width(s)..])
  }

  lemma {:induction false} SanitizingValidText(s: Text)
    requires ValidUtf8(s)
    ensures Sanitized(s) == s
  {
    if s != [] {
      SanitizingValidText(s[Width(s)..]);
      assert s == s[..Width(s)] + s[Width(s)..];
    }
  }

  // ---- Writing a JSON string ----

  const QUOTE: byte := 0x22
  const BACKSLASH: byte := 0x5C

  function HexDigit(d: int): byte
    requires 0 <= d < 16
  {
    if d < 10 then 0x30 + d else 0x57 + d
  }

  // encoding/json escapes quotes, backslashes, control characters and <, >, &.
  function EscapedAscii(b: byte): (out: Text)
    requires b < 0x80
    ensures 1 <= |out| <= 6
  {
    if b == QUOTE || b == BACKSLASH then [BACKSLASH, b]
    else if b == 0x08 then [BACKSLASH, 0x62]
    else if b == 0x0C then [BACKSLASH, 0x66]
    else if b == 0x0A then [BACKSLASH, 0x6E]
    else if b == 0x0D then [BACKSLASH, 0x72]
    else if b == 0x09 then [BACKSLASH, 0x74]
    else if b < 0x20 || b == 0x3C || b == 0x3E || b == 0x26 then
      [BACKSLASH, 0x75, 0x30, 0x30, HexDigit(b / 16), HexDigit(b % 16)]
    else [b]
  }

  // An invalid byte becomes \ufffd; U+2028 and U+2029 are escaped too.
  function EscapedFirst(s: Text): (out: Text)
    requires s != []
    ensures Width(s) <= |out| <= 6 * Width(s)
  {
    if s[0] < 0x80 then EscapedAscii(s[0])
    else if RuneSize(s) == 0 then [BACKSLASH, 0x75, 0x66, 0x66, 0x66, 0x64]
    else if RuneSize(s) == 3 && s[0] == 0xE2 && s[1] == 0x80 && (s[2] == 0xA8 || s[2] == 0xA9) then
      [BACKSLASH, 0x75, 0x32, 0x30, 0x32, HexDigit(s[2] % 16)]
    else s[..Width(s)]
  }

  function Escaped(s: Text): (out: Text)
    ensures |s| <= |out| <= 6 * |s|
  {
    if s == [] then [] else EscapedFirst(s) + Escaped(s[Width(s)..])
  }

  // json.Marshal of a string.
  function Quoted(s: Text): Text {
    [QUOTE] + Escaped(s) + [QUOTE]
  }

  // ---- JSON text ----

  // Strings and objects are all that an alert needs.
  datatype Json = Str(text: Text) | Obj(members: Members)
  datatype Members = Nil | Cons(name: Text, value: Json, rest: Members)

  const COMMA: byte := 0x2C
  const COLON: byte := 0x3A

  // RFC 8259, section 4.
  function Printed(j: Json): Text {
    match j
    case Str(text) => Quoted(text)
    case Obj(members) => [0x7B] + PrintedMembers(members) + [0x7D]
  }

  function PrintedMembers(members: Members): Text {
    match members
    case Nil => []
    case Cons(name, value, rest) =>
      Quoted(name) + [COLON] + Printed(value) + if rest.Nil? then [] else [COMMA] + PrintedMembers(rest)
  }

  // ---- Reading it back ----

  function HexValue(b: byte): Option<int> {
    if 0x30 <= b < 0x3A then Some(b - 0x30)
    else if 0x61 <= b < 0x67 then Some(b - 0x57)
    else if 0x41 <= b < 0x47 then Some(b - 0x37)
    else None
  }

  // UTF-8 of a code point of the basic plane; surrogates have none.
  function EncodedRune(c: int): Option<Text>
    requires 0 <= c < 0x10000
  {
    if c < 0x80 then Some([c])
    else if c < 0x800 then Some([0xC0 + c / 64, 0x80 + c % 64])
    else if 0xD800 <= c < 0xE000 then None
    else Some([0xE0 + c / 4096, 0x80 + c / 64 % 64, 0x80 + c % 64])
  }

  function SimpleEscape(b: byte): Option<byte> {
    if b == QUOTE || b == BACKSLASH || b == 0x2F then Some(b)
    else if b == 0x62 then Some(0x08)
    else if b == 0x66 then Some(0x0C)
    else if b == 0x6E then Some(0x0A)
    else if b == 0x72 then Some(0x0D)
    else if b == 0x74 then Some(0x09)
    else None
  }

  // The character that the JSON string body `s` starts with, and its length.
  function ReadChar(s: Text): (r: Option<(Text, nat)>)
    requires s != []
    ensures r.Some? ==> 1 <= r.value.1 <= |s|
  {
    if s[0] < 0x20 || s[0] == QUOTE then None
    else if s[0] != BACKSLASH then Some(([s[0]], 1))
    else if |s| < 2 then None
    else if s[1] != 0x75 then
      (match SimpleEscape(s[1]) case Some(b) => Some(([b], 2)) case None => None)
    else if |s| < 6 then None
    else
      match (HexValue(s[2]), HexValue(s[3]), HexValue(s[4]), HexValue(s[5]))
      case (Some(a), Some(b), Some(c), Some(d)) =>
        (match EncodedRune(4096 * a + 256 * b + 16 * c + d) case Some(t) => Some((t, 6)) case None => None)
      case _ => None
  }

  function Unescaped(s: Text): Option<Text> {
    if s == [] then Some([])
    else
      match ReadChar(s)
      case None => None
      case Some((text, n)) =>
        match Unescaped(s[n..])
        case None => None
        case Some(rest) => Some(text + rest)
  }

  // The text that a JSON string denotes.
  function Unquoted(s: Text): Option<Text> {
    if |s| < 2 || s[0] != QUOTE || s[|s| - 1] != QUOTE then None else Unescaped(s[1..|s| - 1])
  }

  lemma ReadEscapedAscii(s: Text, rest: Text)
    requires s != [] && s[0] < 0x80 && |EscapedAscii(s[0])| != 1
    ensures ReadChar(EscapedAscii(s[0]) + rest) == Some(([s[0]], |EscapedAscii(s[0])|))
  {
    var e := EscapedAscii(s[0]);
    assert (e + rest)[0] == BACKSLASH && (e + rest)[1] == e[1];
    if |e| == 6 {
      assert (e + rest)[2] == 0x30 && (e + rest)[3] == 0x30 && (e + rest)[4] == e[4] && (e + rest)[5] == e[5];
    }
  }

  lemma ReadEscape(s: Text, rest: Text)
    requires s != [] && |EscapedFirst(s)| != Width(s)
    ensures ReadChar(EscapedFirst(s) + rest) == Some((SanitizedFirst(s), |EscapedFirst(s)|))
  {
    var e := EscapedFirst(s);
    if s[0] < 0x80 {
      ReadEscapedAscii(s, rest);
      assert s[..1] == [s[0]];
    } else {
      assert forall i :: 0 <= i < 6 ==> (e + rest)[i] == e[i];
      if RuneSize(s) != 0 {
        assert s[..3] == [0xE2, 0x80, s[2]];
      }
    }
  }

  predicate NeedsNoEscape(b: byte) {
    b >= 0x20 && b != QUOTE && b != BACKSLASH
  }

  // `head` before whatever the rest of the body denotes.
  function Prepend(head: Text, rest: Option<Text>): Option<Text> {
    match rest case Some(t) => Some(head + t) case None => None
  }

  lemma ReadPlain(s: Text)
    requires s != [] && NeedsNoEscape(s[0])
    ensures ReadChar(s) == Some(([s[0]], 1))
  {
  }

  // Bytes that need no escape are read one by one.
  lemma {:induction false} UnescapedCopy(plain: Text, rest: Text)
    requires forall i :: 0 <= i < |plain| ==> NeedsNoEscape(plain[i])
    ensures Unescaped(plain + rest) == Prepend(plain, Unescaped(rest))
  {
    hide ReadChar;
    if plain == [] {
      assert plain + rest == rest;
      assert Unescaped(rest).Some? ==> [] + Unescaped(rest).value == Unescaped(rest).value;
    } else {
      var b, tail := plain[0], plain[1..];
      UnescapedCopy(tail, rest);
      assert (plain + rest)[1..] == tail + rest;
      ReadPlain(plain + rest);
      if Unescaped(rest).Some? {
        assert [b] + (tail + Unescaped(rest).value) == plain + Unescaped(rest).value;
      }
    }
  }

  lemma UnescapedFirst(s: Text, rest: Text)
    requires s != []
    ensures Unescaped(EscapedFirst(s) + rest) == Prepend(SanitizedFirst(s), Unescaped(rest))
  {
    var e := EscapedFirst(s);
    if |e| == Width(s) {
      assert e == SanitizedFirst(s);
      UnescapedCopy(e, rest);
    } else {
      ReadEscape(s, rest);
      assert (e + rest)[|e|..] == rest;
    }
  }

  lemma {:induction false} UnescapedEscaped(s: Text)
    ensures Unescaped(Escaped(s)) == Some(Sanitized(s))
  {
    if s != [] {
      UnescapedEscaped(s[Width(s)..]);
      UnescapedFirst(s, Escaped(s[Width(s)..]));
    }
  }

  /** Quoting is lossless: reading the JSON string back gives the text, with
      U+FFFD for each invalid byte, so exactly the text when it is valid. */
  lemma UnquotedQuoted(s: Text)
    ensures Unquoted(Quoted(s)) == Some(Sanitized(s))
    ensures ValidUtf8(s) ==> Unquoted(Quoted(s)) == Some(s)
    ensures |s| + 2 <= |Quoted(s)| <= 6 * |s| + 2
  {
    assert Quoted(s)[1..|Quoted(s)| - 1] == Escaped(s);
    UnescapedEscaped(s);
    if ValidUtf8(s) {
      SanitizingValidText(s);
    }
  }
}
