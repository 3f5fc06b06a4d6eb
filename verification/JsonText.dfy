/**
  JSON text as encoding/json writes it (protocol/envelope.go): the string escapes of section 7 of
  RFC 8259 with the HTML escapes on, object keys in byte order.
 */
module JsonText {
  import opened Lists
  import opened Wire

  const QUOTE: Byte := 0x22
  const BACKSLASH: Byte := 0x5C
  const OPEN_BRACE: Byte := 0x7B
  const CLOSE_BRACE: Byte := 0x7D
  const OPEN_BRACKET: Byte := 0x5B
  const CLOSE_BRACKET: Byte := 0x5D
  const COMMA: Byte := 0x2C
  const COLON: Byte := 0x3A

  // ----- Runes -----

  predicate Continues(s: Text, i: nat, lo: Byte, hi: Byte) {
    i < |s| && lo <= s[i] <= hi
  }

  /** How many bytes the well-formed UTF-8 sequence at the head of s takes; 0 when there is none. */
  function RuneLen(s: Text): (n: nat)
    requires s != []
    ensures n <= 4 && n <= |s|
    ensures n > 1 ==> forall i | 0 <= i < n :: s[i] >= 0x80
  {
    var c := s[0];
    if c < 0x80 then 1
    else if 0xC2 <= c <= 0xDF then if Continues(s, 1, 0x80, 0xBF) then 2 else 0
    else if 0xE0 <= c <= 0xEF then
      var lo := if c == 0xE0 then 0xA0 else 0x80;
      var hi := if c == 0xED then 0x9F else 0xBF;
      if Continues(s, 1, lo, hi) && Continues(s, 2, 0x80, 0xBF) then 3 else 0
    else if 0xF0 <= c <= 0xF4 then
      var lo := if c == 0xF0 then 0x90 else 0x80;
      var hi := if c == 0xF4 then 0x8F else 0xBF;
      if Continues(s, 1, lo, hi) && Continues(s, 2, 0x80, 0xBF) && Continues(s, 3, 0x80, 0xBF) then 4 else 0
    else 0
  }

  // ----- Strings -----

  function HexDigit(n: nat): (c: Byte)
    requires n < 16
    ensures 0x30 <= c <= 0x39 || 0x61 <= c <= 0x66
  {
    if n < 10 then 0x30 + n else 0x61 + n - 10
  }

  function UnicodeEscape(r: nat): (t: Text)
    requires r < 0x10000
    ensures |t| == 6
  {
    var b := r / 16;
    var c := b / 16;
    [BACKSLASH, 0x75, HexDigit(c / 16), HexDigit(c % 16), HexDigit(b % 16), HexDigit(r % 16)]
  }

  predicate IsHtmlByte(c: Byte) {
    c == 0x3C || c == 0x3E || c == 0x26
  }

  function EscapeAscii(c: Byte): (t: Text)
    requires c < 0x80
    ensures 1 <= |t| <= 6
  {
    if IsHtmlByte(c) then UnicodeEscape(c)
    else if c == QUOTE || c == BACKSLASH then [BACKSLASH, c]
    else if c == 0x08 then [BACKSLASH, 0x62]
    else if c == 0x09 then [BACKSLASH, 0x74]
    else if c == 0x0A then [BACKSLASH, 0x6E]
    else if c == 0x0C then [BACKSLASH, 0x66]
    else if c == 0x0D then [BACKSLASH, 0x72]
    else if c < 0x20 then UnicodeEscape(c)
    else [c]
  }

  /** U+2028 and U+2029 at the head of s. */
  predicate IsLineSeparator(s: Text) {
    |s| >= 3 && s[0] == 0xE2 && s[1] == 0x80 && (s[2] == 0xA8 || s[2] == 0xA9)
  }

  /** How much of s one escaping step consumes. */
  function HeadLen(s: Text): (n: nat)
    requires s != []
    ensures 1 <= n <= |s|
  {
    if RuneLen(s) == 0 then 1 else RuneLen(s)
  }

  function EscapeHead(s: Text): (t: Text)
    requires s != []
    ensures 1 <= |t| <= 6 * HeadLen(s)
  {
    if s[0] < 0x80 then EscapeAscii(s[0])
    else if RuneLen(s) == 0 then UnicodeEscape(0xFFFD)
    else if IsLineSeparator(s) then UnicodeEscape(if s[2] == 0xA8 then 0x2028 else 0x2029)
    else s[..RuneLen(s)]
  }

  function EscapeChars(s: Text): Text {
    if s == [] then [] else EscapeHead(s) + EscapeChars(s[HeadLen(s)..])
  }

  function EncodeString(s: Text): Text {
    [QUOTE] + EscapeChars(s) + [QUOTE]
  }

  lemma EscapeStep(out: Text, rest: Text)
    requires rest != []
    ensures out + EscapeChars(rest) == out + EscapeHead(rest) + EscapeChars(rest[HeadLen(rest)..])
  {
    AppendAssociates(out, EscapeHead(rest), EscapeChars(rest[HeadLen(rest)..]));
  }

  /** appendJSONString: one growing buffer, one step per rune. */
  method AppendJSONString(dst: Text, s: Text) returns (out: Text)
    ensures out == dst + EncodeString(s)
  {
    out := dst + [QUOTE];
    var rest := s;
    ghost var whole := out + EscapeChars(s);
    while rest != []
      invariant out + EscapeChars(rest) == whole
      decreases |rest|
    {
      EscapeStep(out, rest);
      out := out + EscapeHead(rest);
      rest := rest[HeadLen(rest)..];
    }
    assert out == whole;
    out := out + [QUOTE];
    QuotedParts(dst, EscapeChars(s));
  }

  lemma QuotedParts(dst: Text, body: Text)
    ensures dst + [QUOTE] + body + [QUOTE] == dst + ([QUOTE] + body + [QUOTE])
  {
  }

  // ----- Reading a string back -----

  function HexValue(c: Byte): (n: nat)
    ensures n < 16
  {
    if 0x30 <= c <= 0x39 then c - 0x30 else if 0x61 <= c <= 0x66 then c - 0x61 + 10 else 0
  }

  /** The UTF-8 bytes of a code point of the basic plane. */
  function Utf8(r: nat): Text
    requires r < 0x10000
  {
    if r < 0x80 then [r]
    else if r < 0x800 then [0xC0 + r / 64, 0x80 + r % 64]
    else [0xE0 + r / 4096, 0x80 + r / 64 % 64, 0x80 + r % 64]
  }

  function ShortEscape(c: Byte): Byte {
    if c == 0x62 then 0x08 else if c == 0x74 then 0x09 else if c == 0x6E then 0x0A
    else if c == 0x66 then 0x0C else if c == 0x72 then 0x0D else c
  }

  /** What a JSON reader makes of the inside of a string literal. */
  function Unescape(t: Text): Text {
    if t == [] then []
    else if t[0] == BACKSLASH && |t| >= 6 && t[1] == 0x75 then
      Utf8(HexValue(t[2]) * 4096 + HexValue(t[3]) * 256 + HexValue(t[4]) * 16 + HexValue(t[5])) + Unescape(t[6..])
    else if t[0] == BACKSLASH && |t| >= 2 then [ShortEscape(t[1])] + Unescape(t[2..])
    else [t[0]] + Unescape(t[1..])
  }

  const REPLACEMENT: Text := [0xEF, 0xBF, 0xBD]

  /** s with every byte that is no part of valid UTF-8 replaced by U+FFFD. */
  function Repaired(s: Text): Text {
    if s == [] then []
    else (if RuneLen(s) == 0 then REPLACEMENT else s[..RuneLen(s)]) + Repaired(s[HeadLen(s)..])
  }

  predicate ValidUtf8(s: Text) {
    s == [] || (RuneLen(s) > 0 && ValidUtf8(s[RuneLen(s)..]))
  }

  lemma {:induction false} ValidTextNeedsNoRepair(s: Text)
    requires ValidUtf8(s)
    ensures Repaired(s) == s
  {
    if s != [] {
      ValidTextNeedsNoRepair(s[RuneLen(s)..]);
      assert s[..RuneLen(s)] + s[RuneLen(s)..] == s;
    }
  }

  lemma HexDigitReads(n: nat)
    requires n < 16
    ensures HexValue(HexDigit(n)) == n
  {
  }

  lemma UnescapeUnicode(r: nat, rest: Text)
    requires r < 0x10000
    ensures Unescape(UnicodeEscape(r) + rest) == Utf8(r) + Unescape(rest)
  {
    var b := r / 16;
    var c := b / 16;
    HexDigitReads(c / 16);
    HexDigitReads(c % 16);
    HexDigitReads(b % 16);
    HexDigitReads(r % 16);
    UnescapeHex(UnicodeEscape(r), rest);
  }

  lemma UnescapeHex(t: Text, rest: Text)
    requires |t| == 6 && t[0] == BACKSLASH && t[1] == 0x75
    ensures Unescape(t + rest)
         == Utf8(HexValue(t[2]) * 4096 + HexValue(t[3]) * 256 + HexValue(t[4]) * 16 + HexValue(t[5])) + Unescape(rest)
  {
    assert (t + rest)[6..] == rest;
  }

  lemma UnescapeShort(e: Byte, rest: Text)
    requires e != 0x75
    ensures Unescape([BACKSLASH, e] + rest) == [ShortEscape(e)] + Unescape(rest)
  {
    assert ([BACKSLASH, e] + rest)[2..] == rest;
  }

  lemma UnescapePlain(c: Byte, rest: Text)
    requires c != BACKSLASH
    ensures Unescape([c] + rest) == [c] + Unescape(rest)
  {
    assert ([c] + rest)[1..] == rest;
  }

  /** The three shapes an escaped ASCII byte can take. */
  predicate IsEscapeOf(t: Text, c: Byte)
    requires c < 0x80
  {
    || t == UnicodeEscape(c)
    || (t == [c] && c != BACKSLASH)
    || (|t| == 2 && t[0] == BACKSLASH && t[1] != 0x75 && ShortEscape(t[1]) == c)
  }

  lemma EscapeAsciiShape(c: Byte)
    requires c < 0x80
    ensures IsEscapeOf(EscapeAscii(c), c)
  {
  }

  lemma UnescapeShape(t: Text, c: Byte, rest: Text)
    requires c < 0x80 && IsEscapeOf(t, c)
    ensures Unescape(t + rest) == [c] + Unescape(rest)
  {
    if t == UnicodeEscape(c) {
      UnescapeUnicode(c, rest);
    } else if |t| == 1 {
      UnescapePlain(c, rest);
    } else {
      UnescapeShort(t[1], rest);
    }
  }

  lemma {:induction false} UnescapeLiteral(t: Text, rest: Text)
    requires forall i | 0 <= i < |t| :: t[i] >= 0x80
    ensures Unescape(t + rest) == t + Unescape(rest)
  {
    if t == [] {
      assert t + rest == rest;
    } else {
      assert (t + rest)[1..] == t[1..] + rest;
      UnescapeLiteral(t[1..], rest);
      assert [t[0]] + (t[1..] + Unescape(rest)) == t + Unescape(rest);
    }
  }

  lemma Utf8OfEscapes()
    ensures Utf8(0x2028) == [0xE2, 0x80, 0xA8] && Utf8(0x2029) == [0xE2, 0x80, 0xA9] && Utf8(0xFFFD) == REPLACEMENT
  {
  }

  lemma UnescapeSeparator(r: nat, rest: Text)
    requires r == 0x2028 || r == 0x2029
    ensures Unescape(UnicodeEscape(r) + rest) == [0xE2, 0x80, r - 0x2028 + 0xA8] + Unescape(rest)
  {
    UnescapeUnicode(r, rest);
    Utf8OfEscapes();
  }

  lemma UnescapeInvalid(rest: Text)
    ensures Unescape(UnicodeEscape(0xFFFD) + rest) == REPLACEMENT + Unescape(rest)
  {
    UnescapeUnicode(0xFFFD, rest);
    Utf8OfEscapes();
  }

  lemma SeparatorRune(s: Text)
    requires IsLineSeparator(s)
    ensures RuneLen(s) == 3 && s[..3] == [0xE2, 0x80, s[2]]
  {
  }

  lemma UnescapeHead(s: Text, rest: Text)
    requires s != []
    ensures Unescape(EscapeHead(s) + rest)
         == (if RuneLen(s) == 0 then REPLACEMENT else s[..RuneLen(s)]) + Unescape(rest)
  {
    if s[0] < 0x80 {
      EscapeAsciiShape(s[0]);
      UnescapeShape(EscapeAscii(s[0]), s[0], rest);
    } else if RuneLen(s) == 0 {
      UnescapeInvalid(rest);
    } else if IsLineSeparator(s) {
      SeparatorRune(s);
      UnescapeSeparator(if s[2] == 0xA8 then 0x2028 else 0x2029, rest);
    } else {
      UnescapeLiteral(s[..RuneLen(s)], rest);
    }
  }

  /** Round trip: a reader gets back the string written, with invalid UTF-8 repaired and nothing else changed. */
  lemma {:induction false} StringRoundTrip(s: Text)
    ensures Unescape(EscapeChars(s)) == Repaired(s)
    ensures ValidUtf8(s) ==> Unescape(EscapeChars(s)) == s
  {
    if s != [] {
      var rest := s[HeadLen(s)..];
      StringRoundTrip(rest);
      UnescapeHead(s, EscapeChars(rest));
    }
    if ValidUtf8(s) {
      ValidTextNeedsNoRepair(s);
    }
  }

  // ----- Key order -----

  predicate LexLeq(a: Text, b: Text) {
    a == [] || (b != [] && (a[0] < b[0] || (a[0] == b[0] && LexLeq(a[1..], b[1..]))))
  }

  lemma {:induction false} LexTotal(a: Text, b: Text)
    ensures LexLeq(a, b) || LexLeq(b, a)
    ensures LexLeq(a, b) && LexLeq(b, a) ==> a == b
  {
    if a != [] && b != [] && a[0] == b[0] {
      LexTotal(a[1..], b[1..]);
      assert a == [a[0]] + a[1..] && b == [b[0]] + b[1..];
    }
  }

  lemma {:induction false} LexTransitive(a: Text, b: Text, c: Text)
    requires LexLeq(a, b) && LexLeq(b, c)
    ensures LexLeq(a, c)
  {
    if a != [] && b != [] && c != [] && a[0] == b[0] == c[0] {
      LexTransitive(a[1..], b[1..], c[1..]);
    }
  }

  predicate IsLeast(k: Text, keys: set<Text>) {
    k in keys && forall j | j in keys :: LexLeq(k, j)
  }

  lemma LeastWithOneMore(x: Text, k: Text, others: set<Text>)
    requires IsLeast(k, others)
    ensures IsLeast(if LexLeq(k, x) then k else x, others + {x})
  {
    LexTotal(x, k);
    LexTotal(x, x);
    if !LexLeq(k, x) {
      forall j | j in others ensures LexLeq(x, j) {
        LexTransitive(x, k, j);
      }
    }
  }

  lemma {:induction false} LeastExists(keys: set<Text>)
    requires keys != {}
    ensures exists k :: IsLeast(k, keys)
  {
    var x :| x in keys;
    var others := keys - {x};
    assert keys == others + {x};
    if others == {} {
      LexTotal(x, x);
      assert IsLeast(x, keys);
    } else {
      LeastExists(others);
      var k :| IsLeast(k, others);
      LeastWithOneMore(x, k, others);
    }
  }

  lemma LeastIsUnique(k: Text, j: Text, keys: set<Text>)
    requires IsLeast(k, keys) && IsLeast(j, keys)
    ensures k == j
  {
    LexTotal(k, j);
  }

  function Least(keys: set<Text>): (k: Text)
    requires keys != {}
    ensures IsLeast(k, keys)
  {
    LeastExists(keys);
    assert forall k, j | IsLeast(k, keys) && IsLeast(j, keys) :: k == j by {
      forall k, j | IsLeast(k, keys) && IsLeast(j, keys) ensures k == j {
        LeastIsUnique(k, j, keys);
      }
    }
    var k :| k in keys && IsLeast(k, keys);
    k
  }

  // ----- Values -----

  const NULL_TEXT: Text := [0x6E, 0x75, 0x6C, 0x6C]
  const TRUE_TEXT: Text := [0x74, 0x72, 0x75, 0x65]
  const FALSE_TEXT: Text := [0x66, 0x61, 0x6C, 0x73, 0x65]

  function Encode(v: Json): Text
    decreases v, 1, 0
  {
    match v
    case Null => NULL_TEXT
    case Bool(b) => if b then TRUE_TEXT else FALSE_TEXT
    case Num(spelling) => spelling
    case Str(text) => EncodeString(text)
    case Arr(items) => [OPEN_BRACKET] + EncodeItems(v, 0) + [CLOSE_BRACKET]
    case Obj(fields) => [OPEN_BRACE] + EncodeFields(v, fields.Keys) + [CLOSE_BRACE]
  }

  /** The items from index i on, comma separated. */
  function EncodeItems(v: Json, i: nat): Text
    requires v.Arr? && i <= |v.items|
    decreases v, 0, |v.items| - i
  {
    if i == |v.items| then []
    else if i + 1 == |v.items| then Encode(v.items[i])
    else Encode(v.items[i]) + [COMMA] + EncodeItems(v, i + 1)
  }

  function EncodeField(v: Json, k: Text): Text
    requires v.Obj? && k in v.fields
    decreases v, 0, 0
  {
    EncodeString(k) + [COLON] + Encode(v.fields[k])
  }

  /** The given fields in key order, comma separated. */
  function EncodeFields(v: Json, keys: set<Text>): Text
    requires v.Obj? && keys <= v.fields.Keys
    decreases v, 0, |keys| + 1
  {
    if keys == {} then []
    else
      var k := Least(keys);
      if keys == {k} then EncodeField(v, k)
      else EncodeField(v, k) + [COMMA] + EncodeFields(v, keys - {k})
  }

  // ----- Envelopes -----

  const TYPE_PREFIX: Text := [0x7B, 0x22, 0x74, 0x79, 0x70, 0x65, 0x22, 0x3A]
  const PAYLOAD_PREFIX: Text := [0x2C, 0x22, 0x70, 0x61, 0x79, 0x6C, 0x6F, 0x61, 0x64, 0x22, 0x3A]

  function OrNull(payload: Text): Text {
    if payload == [] then NULL_TEXT else payload
  }

  /** The line json.Marshal would write for this type and already encoded payload. */
  function Envelope(messageType: Text, payload: Text): Text {
    TYPE_PREFIX + EncodeString(messageType) + PAYLOAD_PREFIX + OrNull(payload) + [CLOSE_BRACE]
  }

  // ----- Reading an envelope back -----

  /** A string literal, from after its opening quote: its inside, and what follows its closing quote. */
  function ReadLiteral(t: Text): Option<(Text, Text)> {
    if t == [] then None
    else if t[0] == QUOTE then Some(([], t[1..]))
    else
      var n := if t[0] == BACKSLASH && |t| >= 2 then 2 else 1;
      var r := ReadLiteral(t[n..]);
      if r.None? then None else Some((t[..n] + r.value.0, r.value.1))
  }

  function Strip(prefix: Text, t: Text): Option<Text> {
    if prefix <= t then Some(t[|prefix|..]) else None
  }

  /** The type, unescaped, and the payload's bytes. */
  function ReadEnvelope(t: Text): Option<(Text, Text)> {
    var body := Strip(TYPE_PREFIX + [QUOTE], t);
    var name := if body.Some? then ReadLiteral(body.value) else None;
    var rest := if name.Some? then Strip(PAYLOAD_PREFIX, name.value.1) else None;
    if rest.None? || rest.value == [] || Last(rest.value) != CLOSE_BRACE then None
    else Some((Unescape(name.value.0), Front(rest.value)))
  }

  /** Every quote inside is escaped, and nothing is left half escaped. */
  predicate Closed(t: Text) {
    || t == []
    || (t[0] == BACKSLASH && |t| >= 2 && Closed(t[2..]))
    || (t[0] != BACKSLASH && t[0] != QUOTE && Closed(t[1..]))
  }

  lemma {:induction false} ClosedSum(a: Text, b: Text)
    requires Closed(a) && Closed(b)
    ensures Closed(a + b)
  {
    if a == [] {
      assert a + b == b;
    } else {
      var n := if a[0] == BACKSLASH then 2 else 1;
      ClosedSum(a[n..], b);
      assert (a + b)[n..] == a[n..] + b;
    }
  }

  lemma {:induction false} PlainIsClosed(t: Text)
    requires forall i | 0 <= i < |t| :: t[i] != BACKSLASH && t[i] != QUOTE
    ensures Closed(t)
  {
    if t != [] {
      PlainIsClosed(t[1..]);
    }
  }

  lemma UnicodeEscapeIsClosed(r: nat)
    requires r < 0x10000
    ensures Closed(UnicodeEscape(r)) && forall c | c in UnicodeEscape(r) :: c >= 0x20
  {
    PlainIsClosed(UnicodeEscape(r)[2..]);
  }

  lemma AsciiIsClosed(c: Byte)
    requires c < 0x80
    ensures Closed(EscapeAscii(c)) && forall x | x in EscapeAscii(c) :: x >= 0x20
  {
    UnicodeEscapeIsClosed(c);
    hide UnicodeEscape;
  }

  lemma HeadIsClosed(s: Text)
    requires s != []
    ensures Closed(EscapeHead(s)) && forall c | c in EscapeHead(s) :: c >= 0x20
  {
    if s[0] < 0x80 {
      AsciiIsClosed(s[0]);
    } else if RuneLen(s) == 0 {
      UnicodeEscapeIsClosed(0xFFFD);
    } else if IsLineSeparator(s) {
      UnicodeEscapeIsClosed(if s[2] == 0xA8 then 0x2028 else 0x2029);
    } else {
      PlainIsClosed(s[..RuneLen(s)]);
    }
    hide Closed, EscapeAscii, IsLineSeparator;
  }

  lemma {:induction false} EscapedIsClosed(s: Text)
    ensures Closed(EscapeChars(s)) && forall c | c in EscapeChars(s) :: c >= 0x20
  {
    if s != [] {
      HeadIsClosed(s);
      EscapedIsClosed(s[HeadLen(s)..]);
      ClosedSum(EscapeHead(s), EscapeChars(s[HeadLen(s)..]));
    }
  }

  lemma {:induction false} ClosedReads(t: Text, rest: Text)
    requires Closed(t)
    ensures ReadLiteral(t + ([QUOTE] + rest)) == Some((t, rest))
  {
    var tail := [QUOTE] + rest;
    if t == [] {
      assert t + tail == tail && tail[1..] == rest;
    } else {
      var n := if t[0] == BACKSLASH then 2 else 1;
      ClosedReads(t[n..], rest);
      assert (t + tail)[n..] == t[n..] + tail && (t + tail)[..n] == t[..n];
      assert t[..n] + t[n..] == t;
    }
  }

  lemma StripSum(prefix: Text, t: Text)
    ensures Strip(prefix, prefix + t) == Some(t)
  {
  }

  lemma EnvelopeSplits(t: Text, inside: Text, p: Text, payload: Text)
    ensures t + ([QUOTE] + inside + [QUOTE]) + p + payload + [CLOSE_BRACE] ==
            (t + [QUOTE]) + (inside + ([QUOTE] + (p + (payload + [CLOSE_BRACE]))))
  {
  }

  /**
    Round trip: a reader of the line gets the type back, invalid UTF-8 repaired, and the payload byte for byte, null
    for an empty one; and the line breaks nowhere its payload does not.
   */
  lemma EnvelopeRoundTrip(messageType: Text, payload: Text)
    ensures ReadEnvelope(Envelope(messageType, payload)) == Some((Repaired(messageType), OrNull(payload)))
    ensures (forall c | c in payload :: c >= 0x20) ==> forall c | c in Envelope(messageType, payload) :: c >= 0x20
  {
    var inside, value := EscapeChars(messageType), OrNull(payload);
    var last := value + [CLOSE_BRACE];
    StringRoundTrip(messageType);
    EscapedIsClosed(messageType);
    hide EscapeChars, Unescape, Repaired, Closed, ReadLiteral, OrNull;
    EnvelopeSplits(TYPE_PREFIX, inside, PAYLOAD_PREFIX, value);
    StripSum(TYPE_PREFIX + [QUOTE], inside + ([QUOTE] + (PAYLOAD_PREFIX + last)));
    ClosedReads(inside, PAYLOAD_PREFIX + last);
    StripSum(PAYLOAD_PREFIX, last);
    hide Strip;
    assert Last(last) == CLOSE_BRACE && Front(last) == value;
    if forall c | c in payload :: c >= 0x20 {
      ValueHasNoBreaks(payload);
    }
  }

  lemma ValueHasNoBreaks(payload: Text)
    requires forall c | c in payload :: c >= 0x20
    ensures forall c | c in OrNull(payload) :: c >= 0x20
  {
  }

  /** envelopeLen: what AppendEnvelope reserves. */
  function EnvelopeLen(messageType: Text, payload: Text): nat {
    |TYPE_PREFIX| + 2 + |messageType| + |PAYLOAD_PREFIX| + 1 + |payload| + if |payload| == 0 then 4 else 0
  }

  lemma {:induction false} EscapingGrows(s: Text)
    ensures |EscapeChars(s)| >= |s| && (|EscapeChars(s)| == |s| ==> EscapeChars(s) == s)
  {
    hide EscapeHead, HeadLen;
    if s != [] {
      var n := HeadLen(s);
      HeadGrows(s);
      EscapingGrows(s[n..]);
      assert s == s[..n] + s[n..] && EscapeChars(s) == EscapeHead(s) + EscapeChars(s[n..]);
      hide EscapeChars;
      PartsGrow(EscapeHead(s), EscapeChars(s[n..]), s[..n], s[n..]);
    }
  }

  lemma PartsGrow(x: Text, y: Text, a: Text, b: Text)
    requires |x| >= |a| && (|x| == |a| ==> x == a) && |y| >= |b| && (|y| == |b| ==> y == b)
    ensures |x + y| >= |a + b| && (|x + y| == |a + b| ==> x + y == a + b)
  {
  }

  lemma HeadGrows(s: Text)
    requires s != []
    ensures |EscapeHead(s)| >= HeadLen(s)
    ensures |EscapeHead(s)| == HeadLen(s) ==> EscapeHead(s) == s[..HeadLen(s)]
  {
    if IsLineSeparator(s) {
      SeparatorRune(s);
    }
  }

  /** What is reserved is never more than the line, and is exactly the line if and only if the type needs no escape. */
  lemma ReservedIsExact(messageType: Text, payload: Text)
    ensures |Envelope(messageType, payload)| >= EnvelopeLen(messageType, payload)
    ensures |Envelope(messageType, payload)| == EnvelopeLen(messageType, payload) <==>
            EscapeChars(messageType) == messageType
  {
    EscapingGrows(messageType);
    hide EscapeChars;
  }

  /** AppendEnvelope: what a reader finds behind dst is this type and payload. */
  method AppendEnvelope(dst: Text, messageType: Text, payload: Text) returns (out: Text)
    ensures dst <= out && ReadEnvelope(out[|dst|..]) == Some((Repaired(messageType), OrNull(payload)))
    ensures out == dst + Envelope(messageType, payload)
  {
    hide EscapeChars, ReadEnvelope;
    out := AppendJSONString(dst + TYPE_PREFIX, messageType);
    out := out + PAYLOAD_PREFIX;
    var value := payload;
    if |payload| == 0 {
      value := NULL_TEXT;
    }
    out := out + value + [CLOSE_BRACE];
    EnvelopeParts(dst, TYPE_PREFIX, EncodeString(messageType), PAYLOAD_PREFIX, value, [CLOSE_BRACE]);
    EnvelopeRoundTrip(messageType, payload);
    assert out[|dst|..] == Envelope(messageType, payload);
  }

  lemma EnvelopeParts(dst: Text, a: Text, b: Text, c: Text, d: Text, e: Text)
    ensures dst + a + b + c + d + e == dst + (a + b + c + d + e)
  {
  }
}
