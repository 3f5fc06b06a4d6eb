/** The bounds on shape and size (protocol/limits.go), and the scanners that enforce them cheaply. */
module JsonLimits {
  import opened Lists
  import opened Wire
  import opened JsonText

  const MAX_JSON_DEPTH := 32
  const MAX_EXTRAS_BYTES := 1024
  const MAX_FLOAT_JSON_LEN := 24

  // ----- Depth over the decoded tree -----

  /** jsonDepthWithinLimit: containers nest no deeper than the limit; a scalar never counts. */
  predicate DepthWithin(v: Json, depth: int) {
    match v
    case Arr(items) => depth <= MAX_JSON_DEPTH && forall e | e in items :: DepthWithin(e, depth + 1)
    case Obj(fields) => depth <= MAX_JSON_DEPTH && forall k | k in fields :: DepthWithin(fields[k], depth + 1)
    case _ => true
  }

  // ----- Depth over the bytes -----

  datatype Scan = Reading(depth: int, inString: bool, escaped: bool) | Refused

  /** One byte of rawJSONDepthWithinLimit. */
  function Step(st: Scan, c: Byte): Scan {
    if st.Refused? then st
    else if st.inString then
      if st.escaped then st.(escaped := false)
      else if c == BACKSLASH then st.(escaped := true)
      else if c == QUOTE then st.(inString := false)
      else st
    else if c == QUOTE then st.(inString := true)
    else if c == OPEN_BRACE || c == OPEN_BRACKET then
      if st.depth + 1 > MAX_JSON_DEPTH then Refused else st.(depth := st.depth + 1)
    else if c == CLOSE_BRACE || c == CLOSE_BRACKET then st.(depth := st.depth - 1)
    else st
  }

  function ScanFrom(st: Scan, b: Text): Scan
    decreases |b|
  {
    if b == [] then st else ScanFrom(Step(st, b[0]), b[1..])
  }

  function Outside(depth: int): Scan {
    Reading(depth, false, false)
  }

  function Inside(depth: int): Scan {
    Reading(depth, true, false)
  }

  method RawJSONDepthWithinLimit(b: Text) returns (ok: bool)
    ensures ok == ScanFrom(Outside(0), b).Reading?
  {
    var depth := 0;
    var inString := false;
    var escaped := false;
    var rest := b;
    while rest != []
      invariant ScanFrom(Outside(0), b) == ScanFrom(Reading(depth, inString, escaped), rest)
      decreases |rest|
    {
      var c := rest[0];
      rest := rest[1..];
      if inString {
        if escaped {
          escaped := false;
        } else if c == BACKSLASH {
          escaped := true;
        } else if c == QUOTE {
          inString := false;
        }
        continue;
      }
      if c == QUOTE {
        inString := true;
      } else if c == OPEN_BRACE || c == OPEN_BRACKET {
        depth := depth + 1;
        if depth > MAX_JSON_DEPTH {
          RefusedStays(rest);
          return false;
        }
      } else if c == CLOSE_BRACE || c == CLOSE_BRACKET {
        depth := depth - 1;
      }
    }
    return true;
  }

  lemma {:induction false} RefusedStays(b: Text)
    ensures ScanFrom(Refused, b) == Refused
  {
    if b != [] {
      RefusedStays(b[1..]);
    }
  }

  lemma {:induction false} ScanAppend(st: Scan, a: Text, b: Text)
    ensures ScanFrom(st, a + b) == ScanFrom(ScanFrom(st, a), b)
    decreases |a|
  {
    if a == [] {
      assert a + b == b;
    } else {
      assert (a + b)[1..] == a[1..] + b;
      ScanAppend(Step(st, a[0]), a[1..], b);
    }
  }

  lemma ScanOne(st: Scan, c: Byte)
    ensures ScanFrom(st, [c]) == Step(st, c)
  {
    assert [c][1..] == [];
  }

  /** Bytes that are neither quote nor backslash do not leave a string. */
  lemma {:induction false} ScanPlain(depth: int, t: Text)
    requires forall i | 0 <= i < |t| :: t[i] != QUOTE && t[i] != BACKSLASH
    ensures ScanFrom(Inside(depth), t) == Inside(depth)
  {
    if t != [] {
      ScanPlain(depth, t[1..]);
    }
  }

  /** An escape is passed whole, whatever it escapes. */
  lemma ScanEscape(depth: int, e: Byte, t: Text)
    requires forall i | 0 <= i < |t| :: t[i] != QUOTE && t[i] != BACKSLASH
    ensures ScanFrom(Inside(depth), [BACKSLASH, e] + t) == Inside(depth)
  {
    var all := [BACKSLASH, e] + t;
    assert all[1..] == [e] + t && ([e] + t)[1..] == t;
    ScanPlain(depth, t);
  }

  lemma ScanUnicode(depth: int, r: nat)
    requires r < 0x10000
    ensures ScanFrom(Inside(depth), UnicodeEscape(r)) == Inside(depth)
  {
    var u := UnicodeEscape(r);
    assert u == [BACKSLASH, 0x75] + u[2..];
    ScanEscape(depth, 0x75, u[2..]);
  }

  lemma ScanAscii(depth: int, c: Byte)
    requires c < 0x80
    ensures ScanFrom(Inside(depth), EscapeAscii(c)) == Inside(depth)
  {
    var t := EscapeAscii(c);
    if |t| == 6 {
      ScanUnicode(depth, c);
    } else if |t| == 2 {
      assert t == [BACKSLASH, t[1]] + [];
      ScanEscape(depth, t[1], []);
    } else {
      ScanPlain(depth, t);
    }
  }

  lemma ScanHead(depth: int, s: Text)
    requires s != []
    ensures ScanFrom(Inside(depth), EscapeHead(s)) == Inside(depth)
  {
    if s[0] < 0x80 {
      ScanAscii(depth, s[0]);
    } else if RuneLen(s) == 0 {
      ScanUnicode(depth, 0xFFFD);
    } else if IsLineSeparator(s) {
      ScanUnicode(depth, if s[2] == 0xA8 then 0x2028 else 0x2029);
    } else {
      ScanPlain(depth, s[..RuneLen(s)]);
    }
  }

  lemma {:induction false} ScanChars(depth: int, s: Text)
    ensures ScanFrom(Inside(depth), EscapeChars(s)) == Inside(depth)
  {
    if s != [] {
      var rest := s[HeadLen(s)..];
      ScanHead(depth, s);
      ScanAppend(Inside(depth), EscapeHead(s), EscapeChars(rest));
      ScanChars(depth, rest);
    }
  }

  /** However many brackets, quotes and escapes a string holds, the scanner leaves it as it came. */
  lemma ScanString(depth: int, s: Text)
    ensures ScanFrom(Outside(depth), EncodeString(s)) == Outside(depth)
  {
    ScanAppend(Outside(depth), [QUOTE] + EscapeChars(s), [QUOTE]);
    ScanAppend(Outside(depth), [QUOTE], EscapeChars(s));
    ScanOne(Outside(depth), QUOTE);
    ScanChars(depth, s);
    ScanOne(Inside(depth), QUOTE);
  }

  lemma {:induction false} ScanInert(depth: int, t: Text)
    requires forall i | 0 <= i < |t| :: t[i] !in {QUOTE, OPEN_BRACE, OPEN_BRACKET, CLOSE_BRACE, CLOSE_BRACKET}
    ensures ScanFrom(Outside(depth), t) == Outside(depth)
  {
    if t != [] {
      ScanInert(depth, t[1..]);
    }
  }

  /** What the scanner is left with after a value met at this depth. */
  function After(depth: int, within: bool): Scan {
    if within then Outside(depth) else Refused
  }

  /** The bytes of one value bring the scanner back to its depth, or refuse exactly when the tree does. */
  lemma {:induction false} ScanValue(v: Json, depth: int)
    requires depth <= MAX_JSON_DEPTH
    ensures ScanFrom(Outside(depth), Encode(v)) == After(depth, DepthWithin(v, depth + 1))
    decreases v, 1, 0
  {
    match v
    case Arr(items) => ScanArr(v, depth);
    case Obj(fields) => ScanObj(v, depth);
    case _ => ScanScalar(v, depth);
  }

  lemma {:induction false} ScanArr(v: Json, depth: int)
    requires v.Arr? && depth <= MAX_JSON_DEPTH
    ensures ScanFrom(Outside(depth), Encode(v)) == After(depth, DepthWithin(v, depth + 1))
    decreases v, 0, |v.items| + 1
  {
    ItemsDepth(v, depth + 1);
    hide ScanFrom, DepthWithin, ItemsWithin;
    var body := EncodeItems(v, 0);
    ScanContainer(depth, OPEN_BRACKET, body, CLOSE_BRACKET);
    if depth < MAX_JSON_DEPTH {
      ScanItems(v, 0, depth + 1);
    }
  }

  lemma {:induction false} ScanObj(v: Json, depth: int)
    requires v.Obj? && depth <= MAX_JSON_DEPTH
    ensures ScanFrom(Outside(depth), Encode(v)) == After(depth, DepthWithin(v, depth + 1))
    decreases v, 0, |v.fields.Keys| + 2
  {
    FieldsDepth(v, depth + 1);
    hide ScanFrom, DepthWithin, FieldsWithin;
    var body := EncodeFields(v, v.fields.Keys);
    ScanContainer(depth, OPEN_BRACE, body, CLOSE_BRACE);
    if depth < MAX_JSON_DEPTH {
      ScanFields(v, v.fields.Keys, depth + 1);
    }
  }

  lemma ScanScalar(v: Json, depth: int)
    requires !v.Arr? && !v.Obj?
    ensures ScanFrom(Outside(depth), Encode(v)) == Outside(depth)
  {
    match v
    case Null => ScanInert(depth, NULL_TEXT);
    case Bool(b) => ScanInert(depth, Encode(v));
    case Num(spelling) => ScanInert(depth, spelling);
    case Str(text) => ScanString(depth, text);
  }

  predicate ItemsWithin(v: Json, i: nat, depth: int)
    requires v.Arr? && i <= |v.items|
    decreases |v.items| - i
  {
    i == |v.items| || (DepthWithin(v.items[i], depth) && ItemsWithin(v, i + 1, depth))
  }

  lemma {:induction false} AllItemsFrom(v: Json, i: nat, depth: int)
    requires v.Arr? && i <= |v.items|
    ensures ItemsWithin(v, i, depth) <==> forall j | i <= j < |v.items| :: DepthWithin(v.items[j], depth)
    decreases |v.items| - i
  {
    if i < |v.items| {
      AllItemsFrom(v, i + 1, depth);
    }
  }

  lemma AllItems(v: Json, depth: int)
    requires v.Arr?
    ensures ItemsWithin(v, 0, depth) <==> forall e | e in v.items :: DepthWithin(e, depth)
  {
    AllItemsFrom(v, 0, depth);
    if ItemsWithin(v, 0, depth) {
      forall e | e in v.items ensures DepthWithin(e, depth) {
        var j :| 0 <= j < |v.items| && v.items[j] == e;
      }
    }
  }

  lemma ItemsDepth(v: Json, depth: int)
    requires v.Arr?
    ensures DepthWithin(v, depth) <==> depth <= MAX_JSON_DEPTH && ItemsWithin(v, 0, depth + 1)
  {
    AllItems(v, depth + 1);
  }

  predicate FieldsWithin(v: Json, keys: set<Text>, depth: int)
    requires v.Obj? && keys <= v.fields.Keys
    decreases |keys|
  {
    keys == {} ||
    (DepthWithin(v.fields[Least(keys)], depth) && FieldsWithin(v, keys - {Least(keys)}, depth))
  }

  lemma {:induction false} AllFields(v: Json, keys: set<Text>, depth: int)
    requires v.Obj? && keys <= v.fields.Keys
    ensures FieldsWithin(v, keys, depth) <==> forall k | k in keys :: DepthWithin(v.fields[k], depth)
    decreases |keys|
  {
    if keys != {} {
      var k := Least(keys);
      AllFields(v, keys - {k}, depth);
      assert keys == {k} + (keys - {k});
    }
  }

  lemma FieldsDepth(v: Json, depth: int)
    requires v.Obj?
    ensures DepthWithin(v, depth) <==> depth <= MAX_JSON_DEPTH && FieldsWithin(v, v.fields.Keys, depth + 1)
  {
    AllFields(v, v.fields.Keys, depth + 1);
  }

  lemma ScanContainer(depth: int, open: Byte, body: Text, close: Byte)
    requires (open == OPEN_BRACKET && close == CLOSE_BRACKET) || (open == OPEN_BRACE && close == CLOSE_BRACE)
    ensures ScanFrom(Outside(depth), [open] + body + [close])
         == if depth + 1 > MAX_JSON_DEPTH then Refused
            else Step(ScanFrom(Outside(depth + 1), body), close)
  {
    ScanAppend(Outside(depth), [open] + body, [close]);
    ScanAppend(Outside(depth), [open], body);
    ScanOne(Outside(depth), open);
    ScanOne(ScanFrom(ScanFrom(Outside(depth), [open]), body), close);
    RefusedStays(body);
  }

  lemma {:induction false} ScanItems(v: Json, i: nat, depth: int)
    requires v.Arr? && i <= |v.items| && depth <= MAX_JSON_DEPTH
    ensures ScanFrom(Outside(depth), EncodeItems(v, i))
         == After(depth, ItemsWithin(v, i, depth + 1))
    decreases v, 0, |v.items| - i
  {
    if i < |v.items| {
      ScanValue(v.items[i], depth);
      if i + 1 < |v.items| {
        ScanItems(v, i + 1, depth);
        ScanSeparated(depth, Encode(v.items[i]), EncodeItems(v, i + 1), DepthWithin(v.items[i], depth + 1));
      }
    }
  }

  lemma ScanSeparated(depth: int, a: Text, b: Text, within: bool)
    requires ScanFrom(Outside(depth), a) == After(depth, within)
    ensures ScanFrom(Outside(depth), a + [COMMA] + b) == if within then ScanFrom(Outside(depth), b) else Refused
  {
    ScanAppend(Outside(depth), a + [COMMA], b);
    ScanAppend(Outside(depth), a, [COMMA]);
    ScanOne(After(depth, within), COMMA);
    RefusedStays(b);
  }

  lemma {:induction false} ScanField(v: Json, k: Text, depth: int)
    requires v.Obj? && k in v.fields && depth <= MAX_JSON_DEPTH
    ensures ScanFrom(Outside(depth), EncodeField(v, k)) == After(depth, DepthWithin(v.fields[k], depth + 1))
    decreases v, 0, 0
  {
    ScanAppend(Outside(depth), EncodeString(k) + [COLON], Encode(v.fields[k]));
    ScanAppend(Outside(depth), EncodeString(k), [COLON]);
    ScanString(depth, k);
    ScanOne(Outside(depth), COLON);
    ScanValue(v.fields[k], depth);
  }

  lemma {:induction false} ScanFields(v: Json, keys: set<Text>, depth: int)
    requires v.Obj? && keys <= v.fields.Keys && depth <= MAX_JSON_DEPTH
    ensures ScanFrom(Outside(depth), EncodeFields(v, keys))
         == After(depth, FieldsWithin(v, keys, depth + 1))
    decreases v, 0, |keys| + 1
  {
    if keys != {} {
      var k := Least(keys);
      ScanField(v, k, depth);
      if keys == {k} {
        assert keys - {k} == {};
      } else {
        ScanFields(v, keys - {k}, depth);
        ScanSeparated(depth, EncodeField(v, k), EncodeFields(v, keys - {k}), DepthWithin(v.fields[k], depth + 1));
      }
    }
  }

  /** The byte scan of a value's encoding accepts exactly when the walk of the tree does. */
  lemma FastDepthEqualsSlow(v: Json)
    ensures ScanFrom(Outside(0), Encode(v)).Reading? <==> DepthWithin(v, 1)
  {
    ScanValue(v, 0);
  }

  // ----- Length -----

  /** The most bytes one byte of a string can become. */
  function ByteBound(c: Byte): nat {
    if IsHtmlByte(c) || c < 0x20 || c >= 0x80 then 6 else if c == QUOTE || c == BACKSLASH then 2 else 1
  }

  function BytesBound(s: Text): nat {
    if s == [] then 0 else ByteBound(s[0]) + BytesBound(s[1..])
  }

  method JsonStringLenBound(s: Text) returns (n: nat)
    ensures n == 2 + BytesBound(s)
    ensures |EncodeString(s)| <= n
  {
    n := 2;
    var rest := s;
    while rest != []
      invariant n + BytesBound(rest) == 2 + BytesBound(s)
      decreases |rest|
    {
      var c := rest[0];
      if IsHtmlByte(c) {
        n := n + 6;
      } else if c == QUOTE || c == BACKSLASH {
        n := n + 2;
      } else if c < 0x20 {
        n := n + 6;
      } else if c >= 0x80 {
        n := n + 6;
      } else {
        n := n + 1;
      }
      rest := rest[1..];
    }
    StringBoundHolds(s);
  }

  lemma {:induction false} BytesBoundSplits(s: Text, n: nat)
    requires n <= |s|
    ensures BytesBound(s) == BytesBound(s[..n]) + BytesBound(s[n..])
  {
    if n == 0 {
      assert s[n..] == s;
    } else {
      BytesBoundSplits(s[1..], n - 1);
      assert s[..n][1..] == s[1..][..n - 1] && s[1..][n - 1..] == s[n..];
    }
  }

  lemma {:induction false} WideBytes(s: Text)
    requires forall i | 0 <= i < |s| :: s[i] >= 0x80
    ensures BytesBound(s) == 6 * |s|
  {
    if s != [] {
      WideBytes(s[1..]);
    }
  }

  lemma HeadBound(s: Text)
    requires s != []
    ensures |EscapeHead(s)| <= BytesBound(s[..HeadLen(s)])
  {
    if s[0] < 0x80 {
      assert s[..1] == [s[0]] && [s[0]][1..] == [];
    } else {
      WideBytes(s[..HeadLen(s)]);
    }
  }

  /** The bound never under-counts the encoder, whatever the bytes. */
  lemma {:induction false} StringBoundHolds(s: Text)
    ensures |EncodeString(s)| <= 2 + BytesBound(s)
  {
    if s != [] {
      HeadBound(s);
      BytesBoundSplits(s, HeadLen(s));
      StringBoundHolds(s[HeadLen(s)..]);
    }
  }

  predicate IsScalar(v: Json) {
    !v.Arr? && !v.Obj?
  }

  function ScalarBound(v: Json): (n: nat)
    requires IsScalar(v)
  {
    match v
    case Null => 4
    case Bool(_) => 5
    case Num(_) => MAX_FLOAT_JSON_LEN
    case Str(text) => 2 + BytesBound(text)
  }

  method ScalarLenBound(v: Json) returns (n: nat)
    requires IsScalar(v)
    ensures n == ScalarBound(v)
  {
    match v {
      case Null => n := 4;
      case Bool(_) => n := 5;
      case Str(text) => n := JsonStringLenBound(text);
      case Num(_) => n := MAX_FLOAT_JSON_LEN;
    }
  }

  /** A sum over a set of keys, taken in key order. */
  function Total(keys: set<Text>, f: Text -> nat): nat {
    if keys == {} then 0
    else
      var k := Least(keys);
      f(k) + Total(keys - {k}, f)
  }

  /** The order does not matter: any key may be taken first. */
  lemma {:induction false} TotalTakesAny(keys: set<Text>, f: Text -> nat, k: Text)
    requires k in keys
    ensures Total(keys, f) == f(k) + Total(keys - {k}, f)
    decreases |keys|
  {
    var l := Least(keys);
    if l != k {
      assert l in keys - {k};
      LeastIsUnique(l, Least(keys - {k}), keys - {k});
      TotalTakesAny(keys - {l}, f, k);
      assert keys - {l} - {k} == keys - {k} - {l};
    }
  }

  lemma {:induction false} TotalIsMonotone(keys: set<Text>, f: Text -> nat, g: Text -> nat)
    requires forall k | k in keys :: f(k) <= g(k)
    ensures Total(keys, f) <= Total(keys, g)
    decreases |keys|
  {
    if keys != {} {
      TotalIsMonotone(keys - {Least(keys)}, f, g);
    }
  }

  function FieldLen(x: Extras): Text -> nat {
    k => if k in x then |EncodeField(Obj(x), k)| else 0
  }

  function FieldBound(x: Extras): Text -> nat {
    k => if k in x && IsScalar(x[k]) then 3 + BytesBound(k) + ScalarBound(x[k]) else 0
  }

  lemma {:induction false} FieldsLen(x: Extras, keys: set<Text>)
    requires keys <= x.Keys && keys != {}
    ensures |EncodeFields(Obj(x), keys)| == Total(keys, FieldLen(x)) + |keys| - 1
    decreases |keys|
  {
    var k := Least(keys);
    if keys == {k} {
      assert keys - {k} == {};
    } else {
      FieldsLen(x, keys - {k});
    }
  }

  lemma ScalarBoundHolds(v: Json)
    requires IsScalar(v)
    ensures |Encode(v)| <= ScalarBound(v)
  {
    match v
    case Null => assert Encode(v) == NULL_TEXT;
    case Bool(b) => assert Encode(v) == if b then TRUE_TEXT else FALSE_TEXT;
    case Num(spelling) => assert Encode(v) == spelling;
    case Str(text) => StringBoundHolds(text);
  }

  lemma FieldWithinBound(x: Extras, k: Text)
    requires k in x && IsScalar(x[k])
    ensures FieldLen(x)(k) <= FieldBound(x)(k)
  {
    StringBoundHolds(k);
    ScalarBoundHolds(x[k]);
  }

  lemma ScalarsWithinBound(x: Extras)
    requires x != map[] && forall k | k in x :: IsScalar(x[k])
    ensures |Encode(Obj(x))| <= 1 + |x| + Total(x.Keys, FieldBound(x))
  {
    FieldsLen(x, x.Keys);
    forall k | k in x.Keys ensures FieldLen(x)(k) <= FieldBound(x)(k) {
      FieldWithinBound(x, k);
    }
    TotalIsMonotone(x.Keys, FieldLen(x), FieldBound(x));
  }

  function EncodeExtras(extras: Option<Extras>): Text {
    match extras
    case None => NULL_TEXT
    case Some(x) => Encode(Obj(x))
  }

  lemma EmptyObject(x: Extras)
    requires |x| == 0
    ensures x == map[] && |Encode(Obj(x))| == 2
  {
    assert x.Keys == {};
  }

  /** extrasLengthBound: gives up on any container, and otherwise never under-counts. */
  method ExtrasLengthBound(extras: Option<Extras>) returns (n: nat, ok: bool)
    ensures ok <==> extras.None? || forall k | k in extras.value :: IsScalar(extras.value[k])
    ensures ok ==> |EncodeExtras(extras)| <= n
  {
    if extras.None? {
      return 4, true;
    }
    var x := extras.value;
    if |x| == 0 {
      EmptyObject(x);
      return 2, true;
    }
    n := 2 + |x| - 1;
    var todo := x.Keys;
    while todo != {}
      invariant todo <= x.Keys
      invariant forall k | k in x.Keys - todo :: IsScalar(x[k])
      invariant n + Total(todo, FieldBound(x)) == 1 + |x| + Total(x.Keys, FieldBound(x))
      decreases |todo|
    {
      var k :| k in todo;
      if !IsScalar(x[k]) {
        return 0, false;
      }
      var keyBound := JsonStringLenBound(k);
      var valueBound := ScalarLenBound(x[k]);
      n := n + keyBound + 1 + valueBound;
      TotalTakesAny(todo, FieldBound(x), k);
      todo := todo - {k};
    }
    ScalarsWithinBound(x);
    return n, true;
  }

  lemma ScalarsAreShallow(x: Extras)
    requires forall k | k in x :: IsScalar(x[k])
    ensures DepthWithin(Obj(x), 1)
  {
    assert forall k | k in x :: DepthWithin(x[k], 2);
  }

  /** What the limit means: nested within 32 levels, and at most 1024 bytes once encoded. */
  predicate WithinLimit(extras: Option<Extras>) {
    extras.None? || (DepthWithin(Obj(extras.value), 1) && |Encode(Obj(extras.value))| <= MAX_EXTRAS_BYTES)
  }

  /** extrasWithinLimit: the fast accept never lets through what the encoder would refuse. */
  method ExtrasWithinLimit(extras: Option<Extras>) returns (ok: bool)
    ensures ok <==> WithinLimit(extras)
  {
    if extras.None? {
      return true;
    }
    if |extras.value| == 0 {
      EmptyObject(extras.value);
      return true;
    }
    var n, bounded := ExtrasLengthBound(extras);
    if bounded && n <= MAX_EXTRAS_BYTES {
      ScalarsAreShallow(extras.value);
      return true;
    }
    if !DepthWithin(Obj(extras.value), 1) {
      return false;
    }
    return |Encode(Obj(extras.value))| <= MAX_EXTRAS_BYTES;
  }

  // ----- Raw values inside a message -----

  /** What encoding/json makes of raw bytes it embeds: HTML-sensitive runes escaped, the rest as it stands. */
  function HtmlEscaped(raw: Text): Text {
    if raw == [] then []
    else if IsHtmlByte(raw[0]) then UnicodeEscape(raw[0]) + HtmlEscaped(raw[1..])
    else if IsLineSeparator(raw) then UnicodeEscape(if raw[2] == 0xA8 then 0x2028 else 0x2029) + HtmlEscaped(raw[3..])
    else [raw[0]] + HtmlEscaped(raw[1..])
  }

  predicate SeparatorAt(raw: Text, i: nat) {
    i + 2 < |raw| && raw[i] == 0xE2 && raw[i + 1] == 0x80 && (raw[i + 2] == 0xA8 || raw[i + 2] == 0xA9)
  }

  /** The bytes escaping adds from index i on. */
  function Growth(raw: Text, i: nat): nat
    requires i <= |raw|
    decreases |raw| - i
  {
    if i == |raw| then 0
    else (if IsHtmlByte(raw[i]) then 5 else if SeparatorAt(raw, i) then 3 else 0) + Growth(raw, i + 1)
  }

  lemma {:induction false} GrowthIsExact(raw: Text, i: nat)
    requires i <= |raw|
    ensures |HtmlEscaped(raw[i..])| == |raw| - i + Growth(raw, i)
    decreases |raw| - i
  {
    if i < |raw| {
      var rest := raw[i..];
      assert rest[1..] == raw[i + 1..];
      assert IsLineSeparator(rest) <==> SeparatorAt(raw, i);
      if SeparatorAt(raw, i) {
        assert rest[3..] == raw[i + 3..];
        GrowthIsExact(raw, i + 3);
        assert Growth(raw, i + 2) == Growth(raw, i + 3);
        assert Growth(raw, i + 1) == Growth(raw, i + 2);
      } else {
        GrowthIsExact(raw, i + 1);
      }
    }
  }

  /** JSONWireLen is the escaped length of the raw value, exactly. */
  method JSONWireLen(raw: Text) returns (n: nat)
    ensures n == |HtmlEscaped(raw)|
  {
    n := |raw|;
    var i := 0;
    while i < |raw|
      invariant 0 <= i <= |raw|
      invariant n + Growth(raw, i) == |raw| + Growth(raw, 0)
    {
      if IsHtmlByte(raw[i]) {
        n := n + 5;
      } else if raw[i] == 0xE2 {
        if i + 2 < |raw| && raw[i + 1] == 0x80 && (raw[i + 2] == 0xA8 || raw[i + 2] == 0xA9) {
          n := n + 3;
        }
      }
      i := i + 1;
    }
    GrowthIsExact(raw, 0);
    assert raw[0..] == raw;
  }
}
